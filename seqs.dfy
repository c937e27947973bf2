/** `Array.prototype.filter` and the subsequence relation it establishes. */
module Seqs {

  /** `s` is `t` with some elements deleted, the rest in their original order. */
  predicate IsSubsequence<T(==)>(s: seq<T>, t: seq<T>)
  {
    if s == [] then true
    else if t == [] then false
    else if s[0] == t[0] then IsSubsequence(s[1..], t[1..])
    else IsSubsequence(s, t[1..])
  }

  /**
   * `s.filter(keep)`: the result keeps exactly the elements that satisfy `keep`,
   * every copy of them, in the order they had in `s`.
   */
  function Filter<T(==)>(s: seq<T>, keep: T -> bool): (r: seq<T>)
    ensures |r| <= |s|
    ensures forall i :: 0 <= i < |r| ==> keep(r[i])
    ensures forall i :: 0 <= i < |s| && keep(s[i]) ==> s[i] in r
    ensures forall x :: x in r ==> x in s
    ensures IsSubsequence(r, s)
  {
    if s == [] then []
    else if keep(s[0]) then
      var rest := Filter(s[1..], keep);
      assert ([s[0]] + rest)[1..] == rest;
      [s[0]] + rest
    else
      Filter(s[1..], keep)
  }

  /** Every element that passes is kept as many times as it occurs in `s`; every other one is dropped. */
  lemma {:induction false} FilterCount<T>(s: seq<T>, keep: T -> bool)
    ensures forall x :: multiset(Filter(s, keep))[x] == (if keep(x) then multiset(s)[x] else 0)
  {
    if s != [] {
      FilterCount(s[1..], keep);
      assert s == [s[0]] + s[1..];
    }
  }

  /** Filtering distributes over concatenation, so `Filter` is fixed by what it does to one element. */
  lemma {:induction false} FilterConcat<T>(a: seq<T>, b: seq<T>, keep: T -> bool)
    ensures Filter(a + b, keep) == Filter(a, keep) + Filter(b, keep)
  {
    if a != [] {
      assert (a + b)[1..] == a[1..] + b;
      FilterConcat(a[1..], b, keep);
    } else {
      assert a + b == b;
    }
  }

  /** When every element is kept, filtering changes nothing. */
  lemma {:induction false} FilterKeepsAll<T>(s: seq<T>, keep: T -> bool)
    requires forall i :: 0 <= i < |s| ==> keep(s[i])
    ensures Filter(s, keep) == s
  {
    if s != [] {
      FilterKeepsAll(s[1..], keep);
    }
  }

  /** At least two elements are kept exactly when two different positions of `s` pass. */
  lemma {:induction false} FilterHasTwo<T>(s: seq<T>, keep: T -> bool)
    ensures |Filter(s, keep)| >= 2 <==> exists i, j :: 0 <= i < j < |s| && keep(s[i]) && keep(s[j])
  {
    if s != [] {
      var t := s[1..];
      FilterHasTwo(t, keep);
      if keep(s[0]) {
        assert Filter(s, keep) == [s[0]] + Filter(t, keep);
        if |Filter(t, keep)| >= 1 {
          var x := Filter(t, keep)[0];
          assert x in t;
          var j :| 0 <= j < |t| && t[j] == x;
          assert keep(s[0]) && keep(s[j + 1]);
        }
        if i, j :| 0 <= i < j < |s| && keep(s[i]) && keep(s[j]) {
          assert t[j - 1] in Filter(t, keep);
        }
      } else {
        assert Filter(s, keep) == Filter(t, keep);
        if i, j :| 0 <= i < j < |t| && keep(t[i]) && keep(t[j]) {
          assert keep(s[i + 1]) && keep(s[j + 1]);
        }
        if i, j :| 0 <= i < j < |s| && keep(s[i]) && keep(s[j]) {
          assert i != 0;
          assert keep(t[i - 1]) && keep(t[j - 1]);
        }
      }
    }
  }
}
