/**
 * The temporal mesh of an optimal control problem (class OcpMesh): a sorted
 * array of nondimensional collocation times ("tau") on [0, 1], and the views
 * derived from it on every access: the Hermite-Simpson grid (collocation
 * points plus midpoints) and the step sizes.
 */
module Mesh {
  import opened Wrappers
  import opened ArrayOps

  /** The ValueError (or, for an empty array, the IndexError) the setter raises. */
  datatype MeshError =
    | EmptyArray                     // sorted_arr[0] on an empty array
    | LowestNotZero(got: seq<real>)  // "col_pt_tau lowest value must be zero"
    | HighestNotOne(got: seq<real>)  // "col_pt_tau highest value must be one"

  /** What a stored collocation array always is: sorted, from exactly 0.0 to exactly 1.0. */
  predicate IsMeshTau(t: seq<real>) {
    IsSorted(t) && |t| > 0 && t[0] == 0.0 && t[|t| - 1] == 1.0
  }

  /** `x` occurs in `s` and nothing in `s` is smaller. */
  predicate IsLeast(s: seq<real>, x: real) {
    x in s && forall i | 0 <= i < |s| :: x <= s[i]
  }

  /** `x` occurs in `s` and nothing in `s` is larger. */
  predicate IsGreatest(s: seq<real>, x: real) {
    x in s && forall i | 0 <= i < |s| :: s[i] <= x
  }

  /**
   * The col_pt_tau setter as a value: the sorted copy it stores, or the error
   * it raises. Checked in the source's order: empty array, lowest value,
   * highest value. Exact comparison with 0.0 and 1.0, no tolerance.
   */
  function Validate(arr: seq<real>): (r: Result<seq<real>, MeshError>)
    ensures r.Success? <==> IsLeast(arr, 0.0) && IsGreatest(arr, 1.0)
    ensures r.Success? ==> IsMeshTau(r.value) && multiset(r.value) == multiset(arr)
    ensures r == Failure(EmptyArray) <==> arr == []
    ensures r == Failure(LowestNotZero(arr)) <==> arr != [] && !IsLeast(arr, 0.0)
    ensures r == Failure(HighestNotOne(arr)) <==> IsLeast(arr, 0.0) && !IsGreatest(arr, 1.0)
  {
    var sorted := Sort(arr);
    if |sorted| == 0 then
      Failure(EmptyArray)
    else
      SortFirstIsMin(arr);
      SortLastIsMax(arr);
      if sorted[0] != 0.0 then
        Failure(LowestNotZero(arr))
      else if sorted[|sorted| - 1] != 1.0 then
        Failure(HighestNotOne(arr))
      else
        Success(sorted)
  }

  /** Every accepted array has at least two points, all of them in [0, 1]. */
  lemma AcceptedTauBounds(arr: seq<real>)
    requires Validate(arr).Success?
    ensures var t := Validate(arr).value;
      |t| >= 2 && forall i | 0 <= i < |t| :: 0.0 <= t[i] <= 1.0
  {
    var t := Validate(arr).value;
    assert t[0] != t[|t| - 1];
  }

  /** Assigning the stored array back succeeds and stores the same array. */
  lemma ReassignKeepsTau(t: seq<real>)
    requires IsMeshTau(t)
    ensures Validate(t) == Success(t)
  {
    SortOfSorted(t);
  }

  /** grid_tau as written: the points and the midpoints, concatenated and sorted. */
  function Grid(t: seq<real>): (g: seq<real>)
    ensures |g| == |t| + |Midpoints(t)| && IsSorted(g)
    ensures multiset(g) == multiset(t) + multiset(Midpoints(t))
  {
    Sort(t + Midpoints(t))
  }

  /**
   * The Hermite-Simpson separated grid laid out directly: each collocation
   * point followed by the midpoint of its interval.
   */
  function Interleaved(t: seq<real>): (g: seq<real>)
    ensures |g| == if t == [] then 0 else 2 * |t| - 1
  {
    if |t| <= 1 then t else [t[0], (t[0] + t[1]) / 2.0] + Interleaved(t[1..])
  }

  lemma {:induction false} InterleavedAtPoint(t: seq<real>, i: nat)
    requires i < |t|
    ensures Interleaved(t)[2 * i] == t[i]
  {
    if i > 0 {
      InterleavedAtPoint(t[1..], i - 1);
    }
  }

  lemma {:induction false} InterleavedAtMidpoint(t: seq<real>, i: nat)
    requires i + 1 < |t|
    ensures Interleaved(t)[2 * i + 1] == (t[i] + t[i + 1]) / 2.0
  {
    if i > 0 {
      InterleavedAtMidpoint(t[1..], i - 1);
    }
  }

  /** Even positions hold the collocation points, odd positions the midpoints. */
  lemma InterleavedLayout(t: seq<real>)
    ensures forall i | 0 <= i < |t| :: Interleaved(t)[2 * i] == t[i]
    ensures forall i | 0 <= i < |t| - 1 :: Interleaved(t)[2 * i + 1] == (t[i] + t[i + 1]) / 2.0
  {
    forall i | 0 <= i < |t| ensures Interleaved(t)[2 * i] == t[i] {
      InterleavedAtPoint(t, i);
    }
    forall i | 0 <= i < |t| - 1 ensures Interleaved(t)[2 * i + 1] == (t[i] + t[i + 1]) / 2.0 {
      InterleavedAtMidpoint(t, i);
    }
  }

  /** Over a sorted array, every grid value lies between the first and last point. */
  lemma {:induction false} InterleavedWithin(t: seq<real>)
    requires IsSorted(t) && t != []
    ensures forall k | 0 <= k < |Interleaved(t)| :: t[0] <= Interleaved(t)[k] <= t[|t| - 1]
  {
    if |t| > 1 {
      InterleavedWithin(t[1..]);
    }
  }

  /** Over a sorted array the interleaved grid is sorted. */
  lemma {:induction false} InterleavedSorted(t: seq<real>)
    requires IsSorted(t)
    ensures IsSorted(Interleaved(t))
  {
    if |t| > 1 {
      var rest := Interleaved(t[1..]);
      InterleavedSorted(t[1..]);
      InterleavedWithin(t[1..]);
      var m := (t[0] + t[1]) / 2.0;
      assert t[0] <= m <= t[1];
      assert forall k | 0 <= k < |rest| :: m <= rest[k];
    }
  }

  /** The midpoints of an array are its first midpoint followed by those of its tail. */
  lemma MidpointsUncons(t: seq<real>)
    requires |t| > 1
    ensures Midpoints(t) == [(t[0] + t[1]) / 2.0] + Midpoints(t[1..])
  {
    var m, rest := Midpoints(t), Midpoints(t[1..]);
    assert |m| == 1 + |rest|;
    forall i | 1 <= i < |m| ensures m[i] == rest[i - 1] {
      assert t[1..][i - 1] == t[i] && t[1..][i] == t[i + 1];
    }
  }

  lemma InterleavedUncons(t: seq<real>)
    requires |t| > 1
    ensures Interleaved(t) == [t[0], (t[0] + t[1]) / 2.0] + Interleaved(t[1..])
  {
  }

  /** One step of the permutation proof, over plain sequences. */
  lemma SpliceMultiset(x: real, m: real, a: seq<real>, mids: seq<real>, grid: seq<real>)
    requires multiset(grid) == multiset(a + mids)
    ensures multiset([x, m] + grid) == multiset(([x] + a) + ([m] + mids))
  {
    calc {
      multiset(([x] + a) + ([m] + mids));
      multiset([x]) + multiset(a) + multiset([m]) + multiset(mids);
      multiset([x]) + multiset([m]) + multiset(a + mids);
      { assert [x, m] == [x] + [m]; }
      multiset([x, m] + grid);
    }
  }

  /** The inductive step of InterleavedPermutation: one point and one midpoint in front. */
  lemma InterleavedPermutationStep(t: seq<real>)
    requires |t| > 1
    requires multiset(Interleaved(t[1..])) == multiset(t[1..] + Midpoints(t[1..]))
    ensures multiset(Interleaved(t)) == multiset(t + Midpoints(t))
  {
    var a := t[1..];
    MidpointsUncons(t);
    InterleavedUncons(t);
    Uncons(t);
    SpliceMultiset(t[0], (t[0] + t[1]) / 2.0, a, Midpoints(a), Interleaved(a));
  }

  /** The interleaved grid holds exactly the points and the midpoints. */
  lemma {:induction false} InterleavedPermutation(t: seq<real>)
    ensures multiset(Interleaved(t)) == multiset(t + Midpoints(t))
  {
    if |t| > 1 {
      InterleavedPermutation(t[1..]);
      InterleavedPermutationStep(t);
    } else {
      assert Midpoints(t) == [];
      assert t + Midpoints(t) == t;
    }
  }

  /**
   * For a sorted array, sorting points and midpoints together yields the
   * interleaved layout: grid_tau[2i] == tau[i] and grid_tau[2i+1] is the
   * midpoint of interval i, whether or not the points are distinct.
   */
  lemma GridIsInterleaved(t: seq<real>)
    requires IsSorted(t)
    ensures Grid(t) == Interleaved(t)
  {
    InterleavedSorted(t);
    InterleavedPermutation(t);
    SortedPermutationsEqual(Grid(t), Interleaved(t));
  }

  /** grid_delta_tau as the docstring describes it: the steps between grid points. */
  function GridSteps(t: seq<real>): (d: seq<real>)
    ensures |d| == if t == [] then 0 else 2 * |t| - 2
  {
    Diff(Grid(t))
  }

  /** Each collocation interval splits into two grid steps of half its length. */
  lemma GridStepsHalveIntervals(t: seq<real>)
    requires IsSorted(t) && t != []
    ensures |GridSteps(t)| == 2 * |t| - 2
    ensures forall i | 0 <= i < |t| - 1 ::
      GridSteps(t)[2 * i] == Diff(t)[i] / 2.0 && GridSteps(t)[2 * i + 1] == Diff(t)[i] / 2.0
  {
    GridIsInterleaved(t);
    InterleavedStepsHalveIntervals(t);
  }

  /** The same halving, stated on the interleaved layout. */
  lemma InterleavedStepsHalveIntervals(t: seq<real>)
    requires t != []
    ensures forall i | 0 <= i < |t| - 1 ::
      Diff(Interleaved(t))[2 * i] == Diff(t)[i] / 2.0 && Diff(Interleaved(t))[2 * i + 1] == Diff(t)[i] / 2.0
  {
    forall i | 0 <= i < |t| - 1
      ensures Diff(Interleaved(t))[2 * i] == Diff(t)[i] / 2.0
      ensures Diff(Interleaved(t))[2 * i + 1] == Diff(t)[i] / 2.0
    {
      InterleavedStepsAt(t, i);
    }
  }

  /** The two grid steps inside collocation interval `i`. */
  lemma InterleavedStepsAt(t: seq<real>, i: nat)
    requires i + 1 < |t|
    ensures Diff(Interleaved(t))[2 * i] == Diff(t)[i] / 2.0
    ensures Diff(Interleaved(t))[2 * i + 1] == Diff(t)[i] / 2.0
  {
    InterleavedAround(t, i);
    HalfSteps(t, Interleaved(t), i);
  }

  /** Point `i`, the midpoint after it and point `i + 1` sit side by side in the layout. */
  lemma InterleavedAround(t: seq<real>, i: nat)
    requires i + 1 < |t|
    ensures 2 * i + 2 < |Interleaved(t)|
    ensures Interleaved(t)[2 * i] == t[i]
    ensures Interleaved(t)[2 * i + 1] == (t[i] + t[i + 1]) / 2.0
    ensures Interleaved(t)[2 * i + 2] == t[i + 1]
  {
    InterleavedAtPoint(t, i);
    InterleavedAtMidpoint(t, i);
    InterleavedAtPoint(t, i + 1);
  }

  /** A point, its midpoint and the next point split the step between them in two. */
  lemma HalfSteps(t: seq<real>, g: seq<real>, i: nat)
    requires i + 1 < |t| && 2 * i + 2 < |g|
    requires g[2 * i] == t[i] && g[2 * i + 1] == (t[i] + t[i + 1]) / 2.0 && g[2 * i + 2] == t[i + 1]
    ensures Diff(g)[2 * i] == Diff(t)[i] / 2.0 && Diff(g)[2 * i + 1] == Diff(t)[i] / 2.0
  {
    DiffAt(t, i);
    DiffAt(g, 2 * i);
    DiffAt(g, 2 * i + 1);
  }

  /** The docstring's grid steps of a mesh also add up to the whole interval. */
  lemma GridStepsSumToOne(t: seq<real>)
    requires IsMeshTau(t)
    ensures Sum(GridSteps(t)) == 1.0
  {
    GridIsInterleaved(t);
    InterleavedLayout(t);
    var g := Interleaved(t);
    assert g[0] == t[0];
    assert g[|g| - 1] == t[|t| - 1] by {
      assert |g| - 1 == 2 * (|t| - 1);
    }
    DiffSumTelescopes(g);
  }

  /**
   * grid_delta_tau as written returns the collocation steps, which for every
   * mesh differ from the steps between grid points: N - 1 values, not 2N - 2.
   */
  lemma GridDeltaTauIsNotGridSteps(t: seq<real>)
    requires IsMeshTau(t)
    ensures Diff(t) != GridSteps(t)
  {
    GridStepsHalveIntervals(t);
    assert t[0] != t[|t| - 1];
  }

  /**
   * What grid_tau promises for every stored array: sorted, 2N - 1 long,
   * from 0 to 1, points at even and midpoints at odd positions.
   */
  lemma GridOfMeshTau(t: seq<real>)
    requires IsMeshTau(t)
    ensures IsSorted(Grid(t)) && |Grid(t)| == 2 * |t| - 1
    ensures Grid(t)[0] == 0.0 && Grid(t)[|Grid(t)| - 1] == 1.0
    ensures multiset(t) <= multiset(Grid(t))
    ensures forall i | 0 <= i < |t| :: Grid(t)[2 * i] == t[i]
    ensures forall i | 0 <= i < |t| - 1 :: Grid(t)[2 * i + 1] == (t[i] + t[i + 1]) / 2.0
  {
    GridIsInterleaved(t);
    InterleavedOfMeshTau(t);
    InterleavedLayout(t);
  }

  /** The interleaved layout of a stored array: sorted, 2N - 1 long, from 0 to 1, all points kept. */
  lemma InterleavedOfMeshTau(t: seq<real>)
    requires IsMeshTau(t)
    ensures IsSorted(Interleaved(t)) && |Interleaved(t)| == 2 * |t| - 1
    ensures Interleaved(t)[0] == 0.0 && Interleaved(t)[|Interleaved(t)| - 1] == 1.0
    ensures multiset(t) <= multiset(Interleaved(t))
  {
    InterleavedSorted(t);
    InterleavedContainsPoints(t);
    InterleavedAtPoint(t, 0);
    InterleavedAtPoint(t, |t| - 1);
  }

  /** Every collocation point appears in the interleaved grid. */
  lemma InterleavedContainsPoints(t: seq<real>)
    ensures multiset(t) <= multiset(Interleaved(t))
  {
    InterleavedPermutation(t);
    assert multiset(t + Midpoints(t)) == multiset(t) + multiset(Midpoints(t));
  }

  /** The OcpMesh object: holds the sorted collocation array; the views are computed from it. */
  class OcpMesh {
    var colPtTau: seq<real>

    predicate Valid()
      reads this
    {
      IsMeshTau(colPtTau)
    }

    /** Wraps an array already validated by the setter's rules. */
    constructor FromValidated(tau: seq<real>)
      requires IsMeshTau(tau)
      ensures Valid() && colPtTau == tau
    {
      colPtTau := tau;
    }

    /** OcpMesh(arr): runs the setter on `arr`, raising its error if it rejects it. */
    static method New(arr: seq<real>) returns (r: Result<OcpMesh, MeshError>)
      ensures r.Success? <==> IsLeast(arr, 0.0) && IsGreatest(arr, 1.0)
      ensures r.Success? ==> fresh(r.value) && r.value.Valid() && r.value.colPtTau == Validate(arr).value
      ensures r.Failure? ==> r.error == Validate(arr).error
    {
      var v := Validate(arr);
      if v.Failure? {
        return Failure(v.error);
      }
      var m := new OcpMesh.FromValidated(v.value);
      return Success(m);
    }

    /**
     * The col_pt_tau setter: sort, check the lowest then the highest value,
     * and only then store, so a rejected array leaves the mesh as it was.
     */
    method SetColPtTau(arr: seq<real>) returns (o: Outcome<MeshError>)
      requires Valid()
      modifies this
      ensures Valid()
      ensures o.Pass? <==> IsLeast(arr, 0.0) && IsGreatest(arr, 1.0)
      ensures o.Pass? ==> colPtTau == Validate(arr).value
      ensures o.Pass? ==> IsSorted(colPtTau) && multiset(colPtTau) == multiset(arr)
      ensures o.Fail? ==> o.error == Validate(arr).error && colPtTau == old(colPtTau)
    {
      // Names Validate(arr) so the verifier unfolds it; the value itself is never read.
      ghost var expected := Validate(arr);
      var sorted := Sort(arr);
      if |sorted| == 0 {
        return Fail(EmptyArray);
      }
      if sorted[0] != 0.0 {
        return Fail(LowestNotZero(arr));
      }
      if sorted[|sorted| - 1] != 1.0 {
        return Fail(HighestNotOne(arr));
      }
      colPtTau := sorted;
      return Pass;
    }

    /** grid_tau: sorted, 2N - 1 long, points at even and midpoints at odd positions. */
    function GridTau(): (g: seq<real>)
      reads this
      requires Valid()
      ensures IsSorted(g) && |g| == 2 * |colPtTau| - 1
      ensures g[0] == 0.0 && g[|g| - 1] == 1.0
      ensures multiset(colPtTau) <= multiset(g)
      ensures forall i | 0 <= i < |colPtTau| :: g[2 * i] == colPtTau[i]
      ensures forall i | 0 <= i < |colPtTau| - 1 :: g[2 * i + 1] == (colPtTau[i] + colPtTau[i + 1]) / 2.0
    {
      GridOfMeshTau(colPtTau);
      Grid(colPtTau)
    }

    /** col_pt_delta_tau: N - 1 non-negative steps that add up to the whole interval. */
    function ColPtDeltaTau(): (d: seq<real>)
      reads this
      requires Valid()
      ensures |d| == |colPtTau| - 1
      ensures forall i | 0 <= i < |d| :: d[i] >= 0.0 && colPtTau[i] + d[i] == colPtTau[i + 1]
      ensures Sum(d) == 1.0
    {
      DiffOfSortedNonNegative(colPtTau);
      DiffSumTelescopes(colPtTau);
      Diff(colPtTau)
    }

    /**
     * grid_delta_tau as written: the collocation steps again, not the steps
     * between grid points the docstring describes.
     */
    function GridDeltaTau(): (d: seq<real>)
      reads this
      requires Valid()
      ensures d == ColPtDeltaTau()
      ensures d != GridSteps(colPtTau)
    {
      GridDeltaTauIsNotGridSteps(colPtTau);
      Diff(colPtTau)
    }
  }
}
