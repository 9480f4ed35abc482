/** Ascending sort of load-time samples, as Rust's `slice::sort` on a copy. */
module Sorting {

  predicate Sorted(s: seq<nat>)
  {
    forall i, j :: 0 <= i < j < |s| ==> s[i] <= s[j]
  }

  /** Inserts `x` into a sorted sequence, keeping it sorted. */
  function Insert(x: nat, s: seq<nat>): (r: seq<nat>)
    requires Sorted(s)
    ensures Sorted(r) && multiset(r) == multiset(s) + multiset{x}
    ensures |r| == |s| + 1 && (r[0] == x || (|s| > 0 && r[0] == s[0]))
  {
    if |s| == 0 then [x]
    else if x <= s[0] then [x] + s
    else
      SortedTail(s);
      var rest := Insert(x, s[1..]);
      assert s == [s[0]] + s[1..];
      assert s[0] <= rest[0];
      [s[0]] + rest
  }

  /** Dropping the head keeps a sequence sorted. */
  lemma SortedTail(s: seq<nat>)
    requires Sorted(s) && |s| > 0
    ensures Sorted(s[1..])
  {
    forall i, j | 0 <= i < j < |s| - 1
      ensures s[1..][i] <= s[1..][j]
    {
      assert s[1..][i] == s[i + 1] && s[1..][j] == s[j + 1];
    }
  }

  /** A sorted permutation of `s`. */
  function Sort(s: seq<nat>): (r: seq<nat>)
    ensures Sorted(r) && multiset(r) == multiset(s) && |r| == |s|
  {
    if |s| == 0 then []
    else
      assert s == [s[0]] + s[1..];
      Insert(s[0], Sort(s[1..]))
  }

  /** Two sorted arrangements of the same samples are the same sequence. */
  lemma {:induction false} SortedUnique(a: seq<nat>, b: seq<nat>)
    requires Sorted(a) && Sorted(b) && multiset(a) == multiset(b)
    ensures a == b
  {
    if |a| > 0 {
      assert a[0] in multiset(b);
      var j :| 0 <= j < |b| && b[j] == a[0];
      assert b[0] <= a[0];
      assert b[0] in multiset(a);
      var i :| 0 <= i < |a| && a[i] == b[0];
      assert a[0] <= b[0];
      assert a == [a[0]] + a[1..];
      assert b == [b[0]] + b[1..];
      assert multiset(a) == multiset{a[0]} + multiset(a[1..]);
      assert multiset(b) == multiset{b[0]} + multiset(b[1..]);
      assert multiset(a[1..]) == multiset(a) - multiset{a[0]};
      assert multiset(b[1..]) == multiset(b) - multiset{b[0]};
      SortedTail(a);
      SortedTail(b);
      SortedUnique(a[1..], b[1..]);
    }
  }

  /** A sorted sequence is its own sort. */
  lemma SortOfSorted(s: seq<nat>)
    requires Sorted(s)
    ensures Sort(s) == s
  {
    SortedUnique(Sort(s), s);
  }
}
