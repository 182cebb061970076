/**
 * Invoice labels and the last-number counter.
 *
 * Every back end carries the same `extractInvoiceNumber`: the first run of
 * decimal digits in a label such as "INV-42", parsed in base 10. The counter
 * is a single persisted number; it reads as 0 when it is missing, the next
 * suggested number is last + 1, and every successful create overwrites it
 * with the extracted number when that number is non-zero. There is no
 * maximum and no rescan of stored invoices, so the counter can go backwards.
 */
module InvoiceNumber {
  import opened Wrappers
  import opened Text

  function DigitValue(c: char): (d: nat)
    requires IsDigit(c)
    ensures d < 10
  {
    c as int - '0' as int
  }

  function DigitChar(d: nat): (c: char)
    requires d < 10
    ensures IsDigit(c) && DigitValue(c) == d
  {
    ('0' as int + d) as char
  }

  /** `parseInt(digits, 10)` of a run of decimal digits, read left to right. */
  function DigitsValue(digits: string): nat
    requires AllDigits(digits)
    decreases |digits|
  {
    if digits == [] then 0
    else DigitsValue(digits[..|digits| - 1]) * 10 + DigitValue(digits[|digits| - 1])
  }

  function Pow10(n: nat): (p: nat)
    ensures p >= 1
  {
    if n == 0 then 1 else 10 * Pow10(n - 1)
  }

  /** Reading `p + q` is reading `p`, shifted by the width of `q`, plus reading `q`. */
  lemma {:induction false} DigitsValueConcat(p: string, q: string)
    requires AllDigits(p) && AllDigits(q)
    ensures AllDigits(p + q)
    ensures DigitsValue(p + q) == DigitsValue(p) * Pow10(|q|) + DigitsValue(q)
    decreases |q|
  {
    if q != [] {
      var q' := q[..|q| - 1];
      DigitsValueConcat(p, q');
      assert (p + q)[..|p + q| - 1] == p + q';
      assert DigitsValue(p + q) == DigitsValue(p + q') * 10 + DigitValue(q[|q| - 1]);
      assert DigitsValue(q) == DigitsValue(q') * 10 + DigitValue(q[|q| - 1]);
      ShiftDigit(DigitsValue(p), Pow10(|q'|), DigitsValue(q'), DigitValue(q[|q| - 1]));
    } else {
      assert p + q == p;
    }
  }

  lemma {:induction false} ShiftDigit(high: nat, scale: nat, low: nat, digit: nat)
    ensures (high * scale + low) * 10 + digit == high * (scale * 10) + (low * 10 + digit)
  {
  }

  predicate AllZeros(z: string) {
    forall k | 0 <= k < |z| :: z[k] == '0'
  }

  lemma {:induction false} ZerosValue(z: string)
    requires AllZeros(z)
    ensures AllDigits(z) && DigitsValue(z) == 0
    decreases |z|
  {
    if z != [] {
      ZerosValue(z[..|z| - 1]);
    }
  }

  /** Leading zeros do not change the parsed value ("001" reads as 1). */
  lemma {:induction false} LeadingZerosVanish(z: string, digits: string)
    requires AllZeros(z) && AllDigits(digits)
    ensures AllDigits(z + digits) && DigitsValue(z + digits) == DigitsValue(digits)
  {
    ZerosValue(z);
    DigitsValueConcat(z, digits);
  }

  /** Index of the first decimal digit, or |s| when there is none. */
  function FirstDigitIndex(s: string): (i: nat)
    ensures i <= |s|
    ensures HasNoDigit(s[..i])
    ensures i < |s| ==> IsDigit(s[i])
    decreases |s|
  {
    if s == [] || IsDigit(s[0]) then 0
    else
      var i := FirstDigitIndex(s[1..]);
      assert s[..i + 1] == [s[0]] + s[1..][..i];
      1 + i
  }

  /** Length of the longest prefix made of decimal digits. */
  function DigitRunLength(s: string): (n: nat)
    ensures n <= |s|
    ensures AllDigits(s[..n])
    ensures n < |s| ==> !IsDigit(s[n])
    decreases |s|
  {
    if s == [] || !IsDigit(s[0]) then 0
    else
      var n := DigitRunLength(s[1..]);
      assert s[..n + 1] == [s[0]] + s[1..][..n];
      1 + n
  }

  /**
   * `invoiceNumber.match(/\d+/)?.[0]`: the first maximal run of digits, if
   * any. It starts after a digit-free prefix and ends at the end of the label
   * or at a non-digit.
   */
  function FirstDigitRun(invoiceNumber: string): (run: Option<string>)
    ensures run.None? <==> HasNoDigit(invoiceNumber)
    ensures run.Some? ==> run.value != [] && AllDigits(run.value)
    ensures run.Some? ==>
              var i := FirstDigitIndex(invoiceNumber);
              var j := i + |run.value|;
              j <= |invoiceNumber| && HasNoDigit(invoiceNumber[..i]) && invoiceNumber[i..j] == run.value &&
              (j == |invoiceNumber| || !IsDigit(invoiceNumber[j]))
  {
    var i := FirstDigitIndex(invoiceNumber);
    if i == |invoiceNumber| then
      assert invoiceNumber[..i] == invoiceNumber;
      None
    else
      var n := DigitRunLength(invoiceNumber[i..]);
      assert invoiceNumber[i..][..n] == invoiceNumber[i..i + n];
      Some(invoiceNumber[i..i + n])
  }

  /**
   * `extractInvoiceNumber`: the value of the first run of digits, or `null`
   * when the label has none.
   */
  function Extract(invoiceNumber: string): (n: Option<nat>)
    ensures n.None? <==> HasNoDigit(invoiceNumber)
  {
    match FirstDigitRun(invoiceNumber)
    case None => None
    case Some(run) => Some(DigitsValue(run))
  }

  /**
   * The first run decides: a digit-free prefix, then a run of digits that
   * ends at the end or at a non-digit, reads as that run, whatever follows.
   */
  lemma {:induction false} ExtractFirstRun(prefix: string, digits: string, rest: string)
    requires HasNoDigit(prefix) && digits != [] && AllDigits(digits)
    requires rest == [] || !IsDigit(rest[0])
    ensures Extract(prefix + digits + rest) == Some(DigitsValue(digits))
  {
    var s := prefix + digits + rest;
    assert s[..|prefix|] == prefix && s[|prefix|] == digits[0];
    FirstDigitIndexIs(s, |prefix|);
    var t := digits + rest;
    assert s[|prefix|..] == t && t[..|digits|] == digits;
    DigitRunLengthIs(t, |digits|);
  }

  lemma {:induction false} FirstDigitIndexIs(s: string, k: nat)
    requires k < |s| && HasNoDigit(s[..k]) && IsDigit(s[k])
    ensures FirstDigitIndex(s) == k
    decreases k
  {
    if k > 0 {
      assert s[..k][0] == s[0];
      assert s[1..][..k - 1] == s[1..k];
      FirstDigitIndexIs(s[1..], k - 1);
    }
  }

  lemma {:induction false} DigitRunLengthIs(s: string, n: nat)
    requires n <= |s| && AllDigits(s[..n]) && (n == |s| || !IsDigit(s[n]))
    ensures DigitRunLength(s) == n
    decreases n
  {
    if n > 0 {
      assert s[..n][0] == s[0];
      assert s[1..][..n - 1] == s[1..n];
      DigitRunLengthIs(s[1..], n - 1);
    }
  }

  /** `${n}` for a natural number: its decimal digits, without leading zeros. */
  function DecimalString(n: nat): (d: string)
    ensures d != [] && AllDigits(d)
    ensures |d| > 1 ==> d[0] != '0'
  {
    if n < 10 then [DigitChar(n)] else DecimalString(n / 10) + [DigitChar(n % 10)]
  }

  lemma {:induction false} DecimalStringValue(n: nat)
    ensures DigitsValue(DecimalString(n)) == n
  {
    if n >= 10 {
      DecimalStringValue(n / 10);
      var d := DecimalString(n);
      assert d[..|d| - 1] == DecimalString(n / 10);
    } else {
      assert DecimalString(n)[..0] == [];
    }
  }

  /** The label the invoice form proposes for a new invoice: `INV-${n}`. */
  function Label(n: nat): (proposed: string)
    ensures |proposed| > 4 && proposed[..4] == "INV-" && AllDigits(proposed[4..])
  {
    "INV-" + DecimalString(n)
  }

  /** Extracting from a proposed label gives the proposed number back. */
  lemma {:induction false} LabelRoundTrip(n: nat)
    ensures Extract(Label(n)) == Some(n)
  {
    DecimalStringValue(n);
    assert Label(n) == "INV-" + DecimalString(n) + [];
    ExtractFirstRun("INV-", DecimalString(n), []);
  }

  /** Leading zeros vanish: "INV001" reads as 1. */
  lemma {:induction false} ExtractLeadingZeros()
    ensures Extract("INV001") == Some(1)
  {
    assert DigitsValue("1") == 1 by { assert "1"[..0] == []; }
    LeadingZerosVanish("00", "1");
    assert "00" + "1" == "001";
    assert "INV001" == "INV" + "001" + [];
    ExtractFirstRun("INV", "001", []);
  }

  /** Only the first run counts: "INV-2024-007" reads as 2024. */
  lemma {:induction false} ExtractFirstRunOnly()
    ensures Extract("INV-2024-007") == Some(2024)
  {
    assert DigitsValue("2024") == 2024 by {
      assert "2024"[..3] == "202" && "202"[..2] == "20" && "20"[..1] == "2" && "2"[..0] == [];
    }
    assert "INV-2024-007" == "INV-" + "2024" + "-007";
    ExtractFirstRun("INV-", "2024", "-007");
  }

  /**
   * The persisted counter: `None` when the record is missing or cannot be
   * read. Both `parsed.lastNumber || 0` and `doc ? doc.lastNumber : 0` read
   * a missing record as 0.
   */
  function LastNumber(counter: Option<nat>): (last: nat)
    ensures counter.None? ==> last == 0
    ensures counter.Some? ==> last == counter.value
  {
    counter.GetOr(0)
  }

  /** The suggested next number: last + 1, never 0. */
  function NextNumber(counter: Option<nat>): (next: nat)
    ensures next >= 1
  {
    LastNumber(counter) + 1
  }

  /**
   * The counter after an invoice with this invoiceNumber has been saved: the
   * extracted number overwrites it when it is truthy (present and non-zero);
   * otherwise it is left as it was.
   */
  function CommitCounter(counter: Option<nat>, invoiceNumber: string): (after: Option<nat>)
    ensures Extract(invoiceNumber).Some? && Extract(invoiceNumber).value != 0 ==>
              after.Some? && LastNumber(after) == Extract(invoiceNumber).value
    ensures HasNoDigit(invoiceNumber) || Extract(invoiceNumber) == Some(0) ==> after == counter
  {
    match Extract(invoiceNumber)
    case Some(n) => if n != 0 then Some(n) else counter
    case None => counter
  }

  /** Committing the same invoiceNumber twice is the same as committing it once. */
  lemma {:induction false} CommitIdempotent(counter: Option<nat>, invoiceNumber: string)
    ensures CommitCounter(CommitCounter(counter, invoiceNumber), invoiceNumber) == CommitCounter(counter, invoiceNumber)
  {
  }

  /**
   * Overwrite, not maximum: after "INV-5" and then "INV-3" the counter reads
   * 3, and the next suggestion is 4 although 5 is already taken.
   */
  lemma {:induction false} CounterCanGoBackwards(counter: Option<nat>)
    ensures LastNumber(CommitCounter(CommitCounter(counter, Label(5)), Label(3))) == 3
    ensures NextNumber(CommitCounter(CommitCounter(counter, Label(5)), Label(3))) == 4
  {
    LabelRoundTrip(5);
    LabelRoundTrip(3);
  }

  /**
   * Creating the invoice the form proposes advances the suggestion by one:
   * the sequence INV-1, INV-2, ... is reproduced as long as every create
   * uses the proposed invoiceNumber.
   */
  lemma {:induction false} NextSuggestionAdvances(counter: Option<nat>)
    ensures NextNumber(CommitCounter(counter, Label(NextNumber(counter)))) == NextNumber(counter) + 1
  {
    LabelRoundTrip(NextNumber(counter));
  }

  /** The sort key of the invoice list: the extracted number, 0 for an invoice number without digits. */
  function SortKey(invoiceNumber: string): (key: nat)
    ensures HasNoDigit(invoiceNumber) ==> key == 0
  {
    Extract(invoiceNumber).GetOr(0)
  }
}
