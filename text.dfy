/**
 * String helpers shared by the handlers and the UI components: the few
 * JavaScript string operations the invoice code relies on (`\d`,
 * `toLowerCase`, `includes`, `trim`, `split`), written out over `seq<char>`.
 */
module Text {

  /** The class `\d` of a JavaScript regular expression without the `u` flag. */
  predicate IsDigit(c: char) {
    '0' <= c <= '9'
  }

  predicate HasNoDigit(s: string) {
    forall k | 0 <= k < |s| :: !IsDigit(s[k])
  }

  predicate AllDigits(s: string) {
    forall k | 0 <= k < |s| :: IsDigit(s[k])
  }

  /** `toLowerCase` restricted to ASCII letters; every other character is kept. */
  function LowerChar(c: char): char {
    if 'A' <= c <= 'Z' then (c as int + 32) as char else c
  }

  function Lower(s: string): (r: string)
    ensures |r| == |s|
    ensures forall k | 0 <= k < |s| :: r[k] == LowerChar(s[k])
  {
    seq(|s|, k requires 0 <= k < |s| => LowerChar(s[k]))
  }

  lemma {:induction false} LowerIdempotent(s: string)
    ensures Lower(Lower(s)) == Lower(s)
  {
    forall k | 0 <= k < |s| ensures Lower(Lower(s))[k] == Lower(s)[k] {
      var c := s[k];
      if 'A' <= c <= 'Z' {
        assert 'a' <= LowerChar(c) <= 'z';
      }
    }
  }

  predicate StartsWith(s: string, prefix: string) {
    |prefix| <= |s| && s[..|prefix|] == prefix
  }

  /** `s.includes(needle)`, scanning left to right. */
  predicate Contains(s: string, needle: string)
    decreases |s|
  {
    StartsWith(s, needle) || (s != [] && Contains(s[1..], needle))
  }

  predicate OccursAt(s: string, needle: string, i: nat) {
    i + |needle| <= |s| && s[i..i + |needle|] == needle
  }

  /** The scan finds a match exactly when some window of `s` equals `needle`. */
  lemma {:induction false} ContainsIff(s: string, needle: string)
    ensures Contains(s, needle) <==> exists i: nat :: OccursAt(s, needle, i)
    decreases |s|
  {
    if StartsWith(s, needle) {
      assert OccursAt(s, needle, 0);
    }
    if s != [] {
      ContainsIff(s[1..], needle);
      if Contains(s[1..], needle) {
        var i: nat :| OccursAt(s[1..], needle, i);
        assert OccursAt(s, needle, i + 1);
      }
      if i: nat :| OccursAt(s, needle, i) {
        if i > 0 {
          assert s[1..][i - 1..i - 1 + |needle|] == s[i..i + |needle|];
          assert OccursAt(s[1..], needle, i - 1);
        } else {
          assert StartsWith(s, needle);
        }
      }
    } else if i: nat :| OccursAt(s, needle, i) {
      assert StartsWith(s, needle);
    }
  }

  /**
   * The characters removed by `String.prototype.trim`: ECMAScript WhiteSpace
   * (tab, vertical tab, form feed, space, no-break space, byte order mark and
   * the space separators of Unicode category Zs) and LineTerminator.
   */
  predicate IsSpace(c: char) {
    var k := c as int;
    k == 0x09 || k == 0x0A || k == 0x0B || k == 0x0C || k == 0x0D || k == 0x20 ||
    k == 0xA0 || k == 0x1680 || (0x2000 <= k <= 0x200A) || k == 0x2028 || k == 0x2029 ||
    k == 0x202F || k == 0x205F || k == 0x3000 || k == 0xFEFF
  }

  predicate IsBlank(s: string) {
    forall k | 0 <= k < |s| :: IsSpace(s[k])
  }

  function TrimStart(s: string): (r: string)
    ensures |r| <= |s| && r == s[|s| - |r|..] && IsBlank(s[..|s| - |r|])
    ensures r == [] || !IsSpace(r[0])
    decreases |s|
  {
    if s != [] && IsSpace(s[0]) then TrimStart(s[1..]) else s
  }

  function TrimEnd(s: string): (r: string)
    ensures |r| <= |s| && r == s[..|r|] && IsBlank(s[|r|..])
    ensures r == [] || !IsSpace(r[|r| - 1])
    decreases |s|
  {
    if s != [] && IsSpace(s[|s| - 1]) then
      var r := TrimEnd(s[..|s| - 1]);
      assert s[|r|..] == s[..|s| - 1][|r|..] + [s[|s| - 1]];
      r
    else s
  }

  /** `s.trim()`: no surrounding white space, and empty exactly when `s` is blank. */
  function Trim(s: string): (r: string)
    ensures r == [] <==> IsBlank(s)
    ensures r != [] ==> !IsSpace(r[0]) && !IsSpace(r[|r| - 1])
    ensures |r| <= |s|
  {
    var t := TrimStart(s);
    var r := TrimEnd(t);
    assert r != [] ==> r[0] == t[0];
    assert r == [] ==> s == s[..|s| - |t|] + t[|r|..];
    r
  }

  /** `s.split(sep)` for a one-character separator: the pieces between separators, empty ones included. */
  function Split(s: string, sep: char): (pieces: seq<string>)
    ensures |pieces| >= 1
    ensures forall p | p in pieces :: sep !in p
    decreases |s|
  {
    if sep !in s then [s]
    else
      var i := IndexOf(s, sep);
      [s[..i]] + Split(s[i + 1..], sep)
  }

  function IndexOf(s: string, c: char): (i: nat)
    requires c in s
    ensures i < |s| && s[i] == c && c !in s[..i]
  {
    if s[0] == c then 0 else 1 + IndexOf(s[1..], c)
  }

  function Join(pieces: seq<string>, sep: char): string
    requires |pieces| >= 1
  {
    if |pieces| == 1 then pieces[0] else pieces[0] + [sep] + Join(pieces[1..], sep)
  }

  /** Splitting and joining again gives the original text back. */
  lemma {:induction false} JoinSplit(s: string, sep: char)
    ensures Join(Split(s, sep), sep) == s
    decreases |s|
  {
    if sep in s {
      var i := IndexOf(s, sep);
      var head, tail := s[..i], s[i + 1..];
      var rest := Split(tail, sep);
      SplitAtFirst(s, sep);
      JoinSplit(tail, sep);
      JoinCons(head, rest, sep);
      assert s == head + [sep] + tail;
    }
  }

  lemma {:induction false} SplitAtFirst(s: string, sep: char)
    requires sep in s
    ensures Split(s, sep) == [s[..IndexOf(s, sep)]] + Split(s[IndexOf(s, sep) + 1..], sep)
  {
  }

  lemma {:induction false} JoinCons(head: string, rest: seq<string>, sep: char)
    requires |rest| >= 1
    ensures Join([head] + rest, sep) == head + [sep] + Join(rest, sep)
  {
    assert ([head] + rest)[1..] == rest;
  }

  /** `pieces.filter(p => p)`: the non-empty pieces, in order. */
  function NonEmpty(pieces: seq<string>): (r: seq<string>)
    ensures forall p | p in r :: p != [] && p in pieces
    ensures |r| <= |pieces|
  {
    if pieces == [] then []
    else if pieces[0] == [] then NonEmpty(pieces[1..])
    else [pieces[0]] + NonEmpty(pieces[1..])
  }

  /** The non-empty '/'-separated parts of a path. */
  function PathParts(s: string): (parts: seq<string>)
    ensures forall p | p in parts :: p != [] && '/' !in p
  {
    NonEmpty(Split(s, '/'))
  }

  /**
   * `s.split(sep).pop()`: the text after the last separator (the whole text
   * when there is none), characterised by its contract.
   */
  function LastPiece(s: string, sep: char): (r: string)
    ensures sep !in r
    ensures |r| <= |s| && r == s[|s| - |r|..]
    ensures |r| < |s| ==> s[|s| - |r| - 1] == sep
    decreases |s|
  {
    if sep !in s then s
    else
      var i := IndexOf(s, sep);
      var r := LastPiece(s[i + 1..], sep);
      assert s[i + 1..][|s| - i - 1 - |r|..] == s[|s| - |r|..];
      r
  }

  /** `s.replace(pattern, "")` with a string pattern: only the first occurrence is removed. */
  function RemoveFirst(s: string, pattern: string): (r: string)
    ensures !Contains(s, pattern) ==> r == s
    ensures Contains(s, pattern) ==> |r| + |pattern| == |s|
    decreases |s|
  {
    if StartsWith(s, pattern) then s[|pattern|..]
    else if s == [] then s
    else [s[0]] + RemoveFirst(s[1..], pattern)
  }

  /** `s.replace(/^\//, "")`: at most one leading slash removed. */
  function DropLeadingSlash(s: string): (r: string)
    ensures s != [] && s[0] == '/' ==> s == "/" + r
    ensures !(s != [] && s[0] == '/') ==> r == s
  {
    if s != [] && s[0] == '/' then s[1..] else s
  }

  /** `s.replace(/^prefix/, "")`: the prefix is removed only where the text starts with it. */
  function StripPrefix(s: string, prefix: string): (r: string)
    ensures StartsWith(s, prefix) ==> s == prefix + r
    ensures !StartsWith(s, prefix) ==> r == s
  {
    if StartsWith(s, prefix) then s[|prefix|..] else s
  }

  /** A separator-free first piece is split off as it stands. */
  lemma {:induction false} SplitAfter(p: string, sep: char, rest: string)
    requires sep !in p
    ensures Split(p + [sep] + rest, sep) == [p] + Split(rest, sep)
  {
    var s := p + [sep] + rest;
    assert s[|p|] == sep;
    var i := IndexOf(s, sep);
    assert s[..i] == p && s[i + 1..] == rest;
  }

  /** A separator-free first segment contributes itself, when non-empty, to the path's parts. */
  lemma {:induction false} PathPartsAfter(p: string, rest: string)
    requires '/' !in p
    ensures PathParts(p + "/" + rest) == (if p == "" then [] else [p]) + PathParts(rest)
  {
    SplitAfter(p, '/', rest);
    var pieces := Split(p + "/" + rest, '/');
    assert pieces[1..] == Split(rest, '/');
  }

  /** A path without separators is its own single part, or no part when empty. */
  lemma {:induction false} PathPartsSingle(p: string)
    requires '/' !in p
    ensures PathParts(p) == if p == "" then [] else [p]
  {
  }

  /** The parts of `/a/b/rest` for separator-free, non-empty `a` and `b`. */
  lemma {:induction false} PathPartsOfTwo(a: string, b: string, rest: string)
    requires a != "" && b != "" && '/' !in a && '/' !in b
    ensures PathParts("/" + a + "/" + b + "/" + rest) == [a, b] + PathParts(rest)
  {
    var tail := b + "/" + rest;
    var mid := a + "/" + tail;
    assert "/" + a + "/" + b + "/" + rest == "" + "/" + mid;
    PathPartsAfter("", mid);
    PathPartsAfter(a, tail);
    PathPartsAfter(b, rest);
  }

  /** The parts of `/a/b` for separator-free, non-empty `a` and `b`. */
  lemma {:induction false} PathPartsOfTwoOnly(a: string, b: string)
    requires a != "" && b != "" && '/' !in a && '/' !in b
    ensures PathParts("/" + a + "/" + b) == [a, b]
  {
    assert "/" + a + "/" + b == "" + "/" + (a + "/" + b);
    PathPartsAfter("", a + "/" + b);
    PathPartsAfter(a, b);
    PathPartsSingle(b);
  }

  /** A text contains whatever it ends with. */
  lemma {:induction false} ContainsSuffix(p: string, needle: string)
    ensures Contains(p + needle, needle)
  {
    assert (p + needle)[|p|..] == needle;
    assert OccursAt(p + needle, needle, |p|);
    ContainsIff(p + needle, needle);
  }

  /** `replace` with a string pattern removes the first occurrence, wherever it is. */
  lemma {:induction false} RemoveFirstAt(pre: string, pattern: string, post: string)
    requires forall i | 0 <= i < |pre| :: !OccursAt(pre + pattern + post, pattern, i)
    ensures RemoveFirst(pre + pattern + post, pattern) == pre + post
    decreases |pre|
  {
    var s := pre + pattern + post;
    if pre == [] {
      assert s == pattern + post;
      assert s[..|pattern|] == pattern && s[|pattern|..] == post;
    } else {
      assert !OccursAt(s, pattern, 0);
      assert !StartsWith(s, pattern);
      var t := pre[1..] + pattern + post;
      assert s[1..] == t;
      forall i | 0 <= i < |pre[1..]| ensures !OccursAt(t, pattern, i) {
        assert !OccursAt(s, pattern, i + 1);
        if i + |pattern| <= |t| {
          assert t[i..i + |pattern|] == s[i + 1..i + 1 + |pattern|];
        }
      }
      RemoveFirstAt(pre[1..], pattern, post);
      assert [s[0]] + (pre[1..] + post) == pre + post;
    }
  }

  /** Text that starts with the pattern loses exactly that start. */
  lemma {:induction false} RemoveFirstPrefix(p: string, rest: string)
    ensures RemoveFirst(p + rest, p) == rest
  {
    assert (p + rest)[..|p|] == p;
  }
}
