/**
 * The one-dimensional array operations the mesh is built from: an ascending
 * sort (np.sort), forward differences (np.diff), the pairwise midpoints
 * (a[:-1] + a[1:]) / 2, and a sum. Arrays of floats are sequences of reals.
 */
module ArrayOps {

  /** Non-decreasing: every earlier element is at most every later one. */
  predicate IsSorted(s: seq<real>) {
    forall i, j | 0 <= i < j < |s| :: s[i] <= s[j]
  }

  /** Inserts `x` into a sorted sequence, keeping it sorted. */
  function Insert(x: real, s: seq<real>): (r: seq<real>)
    requires IsSorted(s)
    ensures |r| == |s| + 1
    ensures IsSorted(r)
    ensures multiset(r) == multiset(s) + multiset{x}
    ensures r[0] == if s == [] || x <= s[0] then x else s[0]
  {
    if s == [] || x <= s[0] then
      [x] + s
    else
      assert s == [s[0]] + s[1..];
      [s[0]] + Insert(x, s[1..])
  }

  /**
   * Ascending sort. np.sort may use another algorithm, but on reals every
   * sorting algorithm returns the same sequence (SortedPermutationsEqual).
   */
  function Sort(s: seq<real>): (r: seq<real>)
    ensures |r| == |s|
    ensures IsSorted(r)
    ensures multiset(r) == multiset(s)
  {
    if s == [] then
      []
    else
      assert s == [s[0]] + s[1..];
      Insert(s[0], Sort(s[1..]))
  }

  /** Two sorted sequences holding the same elements are the same sequence. */
  lemma {:induction false} SortedPermutationsEqual(a: seq<real>, b: seq<real>)
    requires IsSorted(a) && IsSorted(b)
    requires multiset(a) == multiset(b)
    ensures a == b
  {
    if a == [] {
      assert |b| == |multiset(b)| == 0;
    } else {
      SortedHeadsEqual(a, b);
      Uncons(a);
      Uncons(b);
      SortedPermutationsEqual(a[1..], b[1..]);
    }
  }

  /** Two sorted sequences with the same elements start with the same (least) element. */
  lemma SortedHeadsEqual(a: seq<real>, b: seq<real>)
    requires IsSorted(a) && IsSorted(b)
    requires multiset(a) == multiset(b) && a != []
    ensures b != [] && a[0] == b[0]
    ensures multiset(a[1..]) == multiset(b[1..])
  {
    assert |b| == |multiset(b)| == |multiset(a)| == |a|;
    assert a[0] in multiset(b) && b[0] in multiset(a);
    assert a[0] in b && b[0] in a;
    assert a[0] == b[0];
    Uncons(a);
    Uncons(b);
    assert multiset(a) == multiset{a[0]} + multiset(a[1..]);
    assert multiset(b) == multiset{b[0]} + multiset(b[1..]);
    assert multiset(a[1..]) == multiset(a) - multiset{a[0]};
    assert multiset(b[1..]) == multiset(b) - multiset{b[0]};
  }

  /** A non-empty sequence is its head followed by its tail. */
  lemma Uncons(s: seq<real>)
    requires s != []
    ensures s == [s[0]] + s[1..]
  {
  }

  /** Sorting an already sorted sequence gives it back unchanged. */
  lemma SortOfSorted(s: seq<real>)
    requires IsSorted(s)
    ensures Sort(s) == s
  {
    SortedPermutationsEqual(Sort(s), s);
  }

  /** The first element of a sorted copy is the least element of the original. */
  lemma SortFirstIsMin(s: seq<real>)
    requires s != []
    ensures Sort(s)[0] in s
    ensures forall i | 0 <= i < |s| :: Sort(s)[0] <= s[i]
  {
    var r := Sort(s);
    assert r[0] in multiset(s);
    forall i | 0 <= i < |s| ensures r[0] <= s[i] {
      assert s[i] in multiset(r);
    }
  }

  /** The last element of a sorted copy is the greatest element of the original. */
  lemma SortLastIsMax(s: seq<real>)
    requires s != []
    ensures Sort(s)[|s| - 1] in s
    ensures forall i | 0 <= i < |s| :: s[i] <= Sort(s)[|s| - 1]
  {
    var r := Sort(s);
    assert r[|s| - 1] in multiset(s);
    forall i | 0 <= i < |s| ensures s[i] <= r[|s| - 1] {
      assert s[i] in multiset(r);
    }
  }

  /** np.diff: the n - 1 forward differences of n elements (none for n <= 1). */
  function Diff(s: seq<real>): (d: seq<real>)
    ensures |d| == if |s| == 0 then 0 else |s| - 1
  {
    seq(if |s| == 0 then 0 else |s| - 1, i requires 0 <= i < |s| - 1 => s[i + 1] - s[i])
  }

  /** One forward difference: the step from element `k` to element `k + 1`. */
  lemma DiffAt(s: seq<real>, k: nat)
    requires k + 1 < |s|
    ensures Diff(s)[k] == s[k + 1] - s[k]
  {
  }

  /** (a[:-1] + a[1:]) / 2: the midpoint of each adjacent pair. */
  function Midpoints(s: seq<real>): (m: seq<real>)
    ensures |m| == if |s| == 0 then 0 else |s| - 1
  {
    seq(if |s| == 0 then 0 else |s| - 1, i requires 0 <= i < |s| - 1 => (s[i] + s[i + 1]) / 2.0)
  }

  /** The sum of all elements (0.0 for none). */
  function Sum(s: seq<real>): (total: real) {
    if s == [] then 0.0 else s[0] + Sum(s[1..])
  }

  /** The differences of a sorted sequence are never negative. */
  lemma DiffOfSortedNonNegative(s: seq<real>)
    requires IsSorted(s)
    ensures forall i | 0 <= i < |Diff(s)| :: Diff(s)[i] >= 0.0
  {
  }

  /** The differences telescope: they add up to last minus first. */
  lemma {:induction false} DiffSumTelescopes(s: seq<real>)
    requires s != []
    ensures Sum(Diff(s)) == s[|s| - 1] - s[0]
  {
    if |s| == 1 {
      assert Diff(s) == [];
    } else {
      assert Diff(s) == [s[1] - s[0]] + Diff(s[1..]);
      DiffSumTelescopes(s[1..]);
    }
  }
}
