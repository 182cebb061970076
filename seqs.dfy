/**
 * `Array.prototype.filter` and `slice` as functions on sequences, with the
 * facts the handlers and components rely on: what is kept, in what order,
 * and when nothing is dropped.
 */
module Seqs {

  /** `r` is `s` with some elements left out, the rest in their original order. */
  predicate Subsequence<T(==)>(r: seq<T>, s: seq<T>)
    decreases |s|
  {
    if r == [] then true
    else if s == [] then false
    else if r[0] == s[0] then Subsequence(r[1..], s[1..])
    else Subsequence(r, s[1..])
  }

  lemma {:induction false} SubsequenceRefl<T>(s: seq<T>)
    ensures Subsequence(s, s)
    decreases |s|
  {
    if s != [] {
      SubsequenceRefl(s[1..]);
    }
  }

  /** `s.filter(keep)`. */
  function Filter<T>(keep: T -> bool, s: seq<T>): (r: seq<T>)
    ensures |r| <= |s|
    ensures forall x | x in r :: keep(x) && x in s
    ensures forall x | x in s && keep(x) :: x in r
    decreases |s|
  {
    if s == [] then []
    else if keep(s[0]) then [s[0]] + Filter(keep, s[1..])
    else Filter(keep, s[1..])
  }

  /** The filter keeps the survivors in their original order. */
  lemma {:induction false} FilterIsSubsequence<T>(keep: T -> bool, s: seq<T>)
    ensures Subsequence(Filter(keep, s), s)
    decreases |s|
  {
    if s != [] {
      FilterIsSubsequence(keep, s[1..]);
      var r := Filter(keep, s);
      if keep(s[0]) {
        assert r[0] == s[0] && r[1..] == Filter(keep, s[1..]);
      } else {
        assert r == Filter(keep, s[1..]);
        assert r != [] ==> r[0] in r;
      }
    }
  }

  /** Nothing is dropped exactly when every element passes. */
  lemma {:induction false} FilterKeepsAllIff<T>(keep: T -> bool, s: seq<T>)
    ensures |Filter(keep, s)| == |s| <==> forall k | 0 <= k < |s| :: keep(s[k])
    ensures (forall k | 0 <= k < |s| :: keep(s[k])) ==> Filter(keep, s) == s
  {
    if forall k | 0 <= k < |s| :: keep(s[k]) {
      FilterAllKept(keep, s);
    } else {
      var k :| 0 <= k < |s| && !keep(s[k]);
      FilterDropsOne(keep, s, k);
    }
  }

  lemma {:induction false} FilterAllKept<T>(keep: T -> bool, s: seq<T>)
    requires forall k | 0 <= k < |s| :: keep(s[k])
    ensures Filter(keep, s) == s
    decreases |s|
  {
    if s != [] {
      var tail := s[1..];
      forall k | 0 <= k < |tail| ensures keep(tail[k]) {
        assert tail[k] == s[k + 1];
      }
      FilterAllKept(keep, tail);
      assert keep(s[0]);
      assert s == [s[0]] + tail;
    }
  }

  lemma {:induction false} FilterDropsOne<T>(keep: T -> bool, s: seq<T>, k: nat)
    requires k < |s| && !keep(s[k])
    ensures |Filter(keep, s)| < |s|
    decreases k
  {
    if k > 0 {
      assert s[1..][k - 1] == s[k];
      FilterDropsOne(keep, s[1..], k - 1);
    }
  }

  /** When exactly the element at `i` fails, the filter is the sequence without it. */
  lemma {:induction false} FilterRemovesOnly<T>(keep: T -> bool, s: seq<T>, i: nat)
    requires i < |s| && !keep(s[i])
    requires forall k | 0 <= k < |s| && k != i :: keep(s[k])
    ensures Filter(keep, s) == s[..i] + s[i + 1..]
  {
    var before, after := s[..i], s[i + 1..];
    var rest := [s[i]] + after;
    assert s == before + rest;
    forall k | 0 <= k < |before| ensures keep(before[k]) {
      assert before[k] == s[k];
    }
    forall k | 0 <= k < |after| ensures keep(after[k]) {
      assert after[k] == s[k + i + 1];
    }
    FilterAllKept(keep, before);
    FilterAllKept(keep, after);
    FilterConcat(keep, before, rest);
    FilterCons(keep, rest);
    assert rest[1..] == after;
  }

  lemma {:induction false} FilterCons<T>(keep: T -> bool, s: seq<T>)
    requires s != []
    ensures Filter(keep, s) == if keep(s[0]) then [s[0]] + Filter(keep, s[1..]) else Filter(keep, s[1..])
  {
  }

  /** Filtering a concatenation filters each part. */
  lemma {:induction false} FilterConcat<T>(keep: T -> bool, a: seq<T>, b: seq<T>)
    ensures Filter(keep, a + b) == Filter(keep, a) + Filter(keep, b)
    decreases |a|
  {
    if a != [] {
      FilterConcat(keep, a[1..], b);
      assert (a + b)[1..] == a[1..] + b;
    } else {
      assert a + b == b;
    }
  }

  /** Every copy of an element that passes survives: the filter is a permutation on what it keeps. */
  lemma {:induction false} FilterCount<T>(keep: T -> bool, s: seq<T>, x: T)
    ensures multiset(Filter(keep, s))[x] == if keep(x) then multiset(s)[x] else 0
    decreases |s|
  {
    if s != [] {
      FilterCount(keep, s[1..], x);
      assert s == [s[0]] + s[1..];
    }
  }

  /** `s.slice(start, end)` for non-negative bounds: JavaScript clamps both to the length. */
  function Slice<T>(s: seq<T>, start: nat, end: nat): (r: seq<T>)
    ensures |r| <= |s|
    ensures start <= end <= |s| ==> r == s[start..end]
    ensures end <= start || |s| <= start ==> r == []
  {
    var e := if end < |s| then end else |s|;
    var b := if start < e then start else e;
    s[b..e]
  }

  lemma {:induction false} PrefixIsSubsequence<T>(s: seq<T>, n: nat)
    requires n <= |s|
    ensures Subsequence(s[..n], s)
    decreases |s|
  {
    if n > 0 {
      PrefixIsSubsequence(s[1..], n - 1);
      assert s[..n][1..] == s[1..][..n - 1];
    } else if s != [] {
      assert s[..n] == [];
    }
  }

  lemma {:induction false} SubsequenceTrans<T>(a: seq<T>, b: seq<T>, c: seq<T>)
    requires Subsequence(a, b) && Subsequence(b, c)
    ensures Subsequence(a, c)
    decreases |c|
  {
    if a != [] {
      if b[0] == c[0] {
        if a[0] == b[0] {
          SubsequenceTrans(a[1..], b[1..], c[1..]);
        } else {
          SubsequenceTrans(a, b[1..], c[1..]);
        }
      } else {
        SubsequenceTrans(a, b, c[1..]);
        if a[0] == c[0] {
          SubsequenceTail(a, c[1..]);
        }
      }
    }
  }

  lemma {:induction false} SubsequenceMembers<T>(r: seq<T>, s: seq<T>)
    requires Subsequence(r, s)
    ensures forall x | x in r :: x in s
    decreases |s|
  {
    if r != [] {
      if r[0] == s[0] {
        SubsequenceMembers(r[1..], s[1..]);
        forall x | x in r ensures x in s {
          if x != r[0] { assert x in r[1..]; }
        }
      } else {
        SubsequenceMembers(r, s[1..]);
      }
    }
  }

  /** Dropping the first element of `r` keeps it a subsequence. */
  lemma {:induction false} SubsequenceTail<T>(r: seq<T>, s: seq<T>)
    requires r != [] && Subsequence(r, s)
    ensures Subsequence(r[1..], s)
    decreases |r| + |s|
  {
    if r[0] == s[0] {
      SubsequenceCons(r[1..], s);
    } else {
      SubsequenceTail(r, s[1..]);
      SubsequenceCons(r[1..], s);
    }
  }

  /** A subsequence of the tail is a subsequence of the whole. */
  lemma {:induction false} SubsequenceCons<T>(r: seq<T>, s: seq<T>)
    requires s != [] && Subsequence(r, s[1..])
    ensures Subsequence(r, s)
    decreases |r| + |s|
  {
    if r != [] && r[0] == s[0] {
      SubsequenceTail(r, s[1..]);
    }
  }
}
