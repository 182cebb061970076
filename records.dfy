/**
 * The records the handlers store and the components show, and the lookups
 * every handler performs on them.
 */
module Records {
  import opened Seqs

  /** HTTP status codes the handlers answer with. */
  const OK: nat := 200
  const BAD_REQUEST: nat := 400
  const NOT_FOUND: nat := 404
  const METHOD_NOT_ALLOWED: nat := 405
  const SERVER_ERROR: nat := 500

  /**
   * A stored invoice. The fields the handlers and the invoice list read are
   * named; every other field of the JSON body travels in `details`. An absent
   * or empty string field is "".
   */
  datatype Invoice = Invoice(
    invoiceNumber: string,
    invoiceDate: string,
    fromName: string,
    toName: string,
    savedAt: string,
    updatedAt: string,
    details: string)

  /** The request methods the handlers branch on; any other method is `Other`. */
  datatype HttpMethod = GET | POST | PUT | DELETE | OPTIONS | Other

  /** A predefined item (name and rate); an absent or zero id is 0. */
  datatype Item = Item(id: int, name: string, rate: real)

  predicate HasInvoice(invoices: seq<Invoice>, key: string) {
    exists k | 0 <= k < |invoices| :: invoices[k].invoiceNumber == key
  }

  /** `invoices.findIndex(inv => inv.invoiceNumber === key)`. */
  function FindInvoice(invoices: seq<Invoice>, key: string): (i: int)
    ensures -1 <= i < |invoices|
    ensures i == -1 <==> !HasInvoice(invoices, key)
    ensures i >= 0 ==> invoices[i].invoiceNumber == key
    ensures i >= 0 ==> forall k | 0 <= k < i :: invoices[k].invoiceNumber != key
    decreases |invoices|
  {
    if invoices == [] then -1
    else if invoices[0].invoiceNumber == key then 0
    else
      var i := FindInvoice(invoices[1..], key);
      if i == -1 then -1 else i + 1
  }

  /** `invoices.filter(inv => inv.invoiceNumber !== key)`. */
  function WithoutInvoice(invoices: seq<Invoice>, key: string): seq<Invoice> {
    Filter((inv: Invoice) => inv.invoiceNumber != key, invoices)
  }

  /**
   * Deleting by key: no survivor has the key, survivors keep their order and
   * multiplicity, and the length is unchanged exactly when the key was absent.
   */
  lemma {:induction false} WithoutInvoiceSpec(invoices: seq<Invoice>, key: string)
    ensures forall inv | inv in WithoutInvoice(invoices, key) :: inv.invoiceNumber != key
    ensures Subsequence(WithoutInvoice(invoices, key), invoices)
    ensures forall inv: Invoice | inv.invoiceNumber != key ::
              multiset(WithoutInvoice(invoices, key))[inv] == multiset(invoices)[inv]
    ensures |WithoutInvoice(invoices, key)| == |invoices| <==> !HasInvoice(invoices, key)
  {
    var keep := (inv: Invoice) => inv.invoiceNumber != key;
    FilterIsSubsequence(keep, invoices);
    FilterKeepsAllIff(keep, invoices);
    forall inv: Invoice | inv.invoiceNumber != key
      ensures multiset(WithoutInvoice(invoices, key))[inv] == multiset(invoices)[inv]
    {
      FilterCount(keep, invoices, inv);
    }
  }

  predicate HasItem(items: seq<Item>, id: int) {
    exists k | 0 <= k < |items| :: items[k].id == id
  }

  /** `items.findIndex(item => item.id === id)`. */
  function FindItem(items: seq<Item>, id: int): (i: int)
    ensures -1 <= i < |items|
    ensures i == -1 <==> !HasItem(items, id)
    ensures i >= 0 ==> items[i].id == id
    ensures i >= 0 ==> forall k | 0 <= k < i :: items[k].id != id
    decreases |items|
  {
    if items == [] then -1
    else if items[0].id == id then 0
    else
      var i := FindItem(items[1..], id);
      if i == -1 then -1 else i + 1
  }

  /** `items.filter(item => item.id !== id)`. */
  function WithoutItem(items: seq<Item>, id: int): seq<Item> {
    Filter((item: Item) => item.id != id, items)
  }

  lemma {:induction false} WithoutItemSpec(items: seq<Item>, id: int)
    ensures forall item | item in WithoutItem(items, id) :: item.id != id
    ensures Subsequence(WithoutItem(items, id), items)
    ensures forall item: Item | item.id != id ::
              multiset(WithoutItem(items, id))[item] == multiset(items)[item]
    ensures |WithoutItem(items, id)| == |items| <==> !HasItem(items, id)
  {
    var keep := (item: Item) => item.id != id;
    FilterIsSubsequence(keep, items);
    FilterKeepsAllIff(keep, items);
    forall item: Item | item.id != id
      ensures multiset(WithoutItem(items, id))[item] == multiset(items)[item]
    {
      FilterCount(keep, items, item);
    }
  }

  /** No two stored invoices share a number: the unique index on `invoiceNumber`. */
  predicate DistinctNumbers(invoices: seq<Invoice>) {
    forall i, j | 0 <= i < j < |invoices| :: invoices[i].invoiceNumber != invoices[j].invoiceNumber
  }

  /** Appending an invoice whose number is new keeps the numbers distinct. */
  lemma {:induction false} CreateKeepsDistinct(invoices: seq<Invoice>, added: Invoice)
    requires DistinctNumbers(invoices) && !HasInvoice(invoices, added.invoiceNumber)
    ensures DistinctNumbers(invoices + [added])
  {
  }

  /** Replacing a slot by a record whose number is its own or new keeps the numbers distinct. */
  lemma {:induction false} ReplaceKeepsDistinct(invoices: seq<Invoice>, i: nat, updated: Invoice)
    requires DistinctNumbers(invoices) && i < |invoices|
    requires updated.invoiceNumber == invoices[i].invoiceNumber || !HasInvoice(invoices, updated.invoiceNumber)
    ensures DistinctNumbers(invoices[i := updated])
  {
  }

  /**
   * The invoices after a successful PUT of `key`: the first invoice with
   * `key` gets the body, keeping its `savedAt` (`now` when it had none) and
   * stamped `updatedAt := now`; every other slot is as it was.
   */
  function UpdatedInvoices(invoices: seq<Invoice>, key: string, body: Invoice, now: string): (r: seq<Invoice>)
    requires HasInvoice(invoices, key)
    ensures |r| == |invoices|
    ensures r[FindInvoice(invoices, key)].invoiceNumber == body.invoiceNumber
    ensures r[FindInvoice(invoices, key)].updatedAt == now
    ensures r[FindInvoice(invoices, key)].savedAt ==
              if invoices[FindInvoice(invoices, key)].savedAt != "" then invoices[FindInvoice(invoices, key)].savedAt else now
    ensures forall k | 0 <= k < |r| && k != FindInvoice(invoices, key) :: r[k] == invoices[k]
    ensures var i := FindInvoice(invoices, key);
              r[i] == body.(savedAt := if invoices[i].savedAt != "" then invoices[i].savedAt else now, updatedAt := now)
  {
    var i := FindInvoice(invoices, key);
    var was := invoices[i].savedAt;
    invoices[i := body.(savedAt := if was != "" then was else now, updatedAt := now)]
  }

  /** After filtering, no invoice has the key. */
  lemma {:induction false} WithoutInvoiceLacksKey(invoices: seq<Invoice>, key: string)
    ensures !HasInvoice(WithoutInvoice(invoices, key), key)
  {
    var r := WithoutInvoice(invoices, key);
    WithoutInvoiceSpec(invoices, key);
    forall k | 0 <= k < |r| ensures r[k].invoiceNumber != key {
      assert r[k] in r;
    }
  }

  /** Filtering keeps the numbers distinct. */
  lemma {:induction false} DeleteKeepsDistinct(invoices: seq<Invoice>, key: string)
    requires DistinctNumbers(invoices)
    ensures DistinctNumbers(WithoutInvoice(invoices, key))
  {
    WithoutInvoiceSpec(invoices, key);
    SubsequenceKeepsDistinct(WithoutInvoice(invoices, key), invoices);
  }

  lemma {:induction false} SubsequenceKeepsDistinct(r: seq<Invoice>, s: seq<Invoice>)
    requires Subsequence(r, s) && DistinctNumbers(s)
    ensures DistinctNumbers(r)
    decreases |s|
  {
    if r != [] {
      if r[0] == s[0] {
        SubsequenceKeepsDistinct(r[1..], s[1..]);
        SubsequenceMembers(r[1..], s[1..]);
        forall j | 0 < j < |r| ensures r[0].invoiceNumber != r[j].invoiceNumber {
          assert r[j] in r[1..];
          var k :| 0 <= k < |s[1..]| && s[1..][k] == r[j];
          assert s[k + 1] == r[j];
        }
      } else {
        SubsequenceKeepsDistinct(r, s[1..]);
      }
    }
  }

  /**
   * Removing the first match is removing every match once numbers are
   * distinct: a single-document delete and the file store's filter agree.
   */
  lemma {:induction false} DeleteFirstIsFilter(invoices: seq<Invoice>, key: string)
    requires DistinctNumbers(invoices) && HasInvoice(invoices, key)
    ensures var i := FindInvoice(invoices, key);
            invoices[..i] + invoices[i + 1..] == WithoutInvoice(invoices, key)
  {
    var i := FindInvoice(invoices, key);
    var keep := (inv: Invoice) => inv.invoiceNumber != key;
    forall k | 0 <= k < |invoices| && k != i ensures keep(invoices[k]) {
      assert invoices[k].invoiceNumber != invoices[i].invoiceNumber;
    }
    FilterRemovesOnly(keep, invoices, i);
  }
}
