/**
 * The concrete meshes the test suite checks (test_mesh.py), proved about the
 * model. With reals in place of floats the expected values hold exactly.
 * Each lemma fixes its array `t` element by element in a requires clause.
 */
module MeshScenarios {
  import opened Wrappers
  import opened ArrayOps
  import opened Mesh

  lemma InterleavedOfQuarters(t: seq<real>)
    requires |t| == 5 && t[0] == 0.0 && t[1] == 0.25 && t[2] == 0.5 && t[3] == 0.75 && t[4] == 1.0
    ensures Interleaved(t) == [0.0, 0.125, 0.25, 0.375, 0.5, 0.625, 0.75, 0.875, 1.0]
  {
    assert t == [0.0, 0.25, 0.5, 0.75, 1.0];
    assert Interleaved([0.0, 0.25, 0.5, 0.75, 1.0])
        == [0.0, 0.125, 0.25, 0.375, 0.5, 0.625, 0.75, 0.875, 1.0];
  }

  /** Five evenly spaced points: the grid adds the four quarter-interval midpoints. */
  lemma GridTauOfQuarters(t: seq<real>)
    requires |t| == 5 && t[0] == 0.0 && t[1] == 0.25 && t[2] == 0.5 && t[3] == 0.75 && t[4] == 1.0
    ensures Grid(t) == [0.0, 0.125, 0.25, 0.375, 0.5, 0.625, 0.75, 0.875, 1.0]
  {
    GridIsInterleaved(t);
    InterleavedOfQuarters(t);
  }

  lemma InterleavedOfUnevenPoints(t: seq<real>)
    requires |t| == 4 && t[0] == 0.0 && t[1] == 0.3 && t[2] == 0.6 && t[3] == 1.0
    ensures Interleaved(t) == [0.0, 0.15, 0.3, 0.45, 0.6, 0.8, 1.0]
  {
    assert t == [0.0, 0.3, 0.6, 1.0];
    assert Interleaved([0.0, 0.3, 0.6, 1.0]) == [0.0, 0.15, 0.3, 0.45, 0.6, 0.8, 1.0];
  }

  /** Uneven points: each midpoint sits halfway along its own interval. */
  lemma GridTauOfUnevenPoints(t: seq<real>)
    requires |t| == 4 && t[0] == 0.0 && t[1] == 0.3 && t[2] == 0.6 && t[3] == 1.0
    ensures Grid(t) == [0.0, 0.15, 0.3, 0.45, 0.6, 0.8, 1.0]
  {
    GridIsInterleaved(t);
    InterleavedOfUnevenPoints(t);
  }

  /** The collocation steps of five evenly spaced points are four quarters. */
  lemma DeltaTauOfQuarters(t: seq<real>)
    requires |t| == 5 && t[0] == 0.0 && t[1] == 0.25 && t[2] == 0.5 && t[3] == 0.75 && t[4] == 1.0
    ensures Diff(t) == [0.25, 0.25, 0.25, 0.25]
  {
  }

  /** A lowest value of 0.1 is rejected with the lowest-value error. */
  lemma RejectsLowestNotZero(t: seq<real>)
    requires |t| == 5 && t[0] == 0.1 && t[1] == 0.25 && t[2] == 0.5 && t[3] == 0.75 && t[4] == 1.0
    ensures Validate(t) == Failure(LowestNotZero(t))
  {
    assert !(0.0 in t);
  }

  /** A highest value of 0.9 is rejected with the highest-value error. */
  lemma RejectsHighestNotOne(t: seq<real>)
    requires |t| == 5 && t[0] == 0.0 && t[1] == 0.25 && t[2] == 0.5 && t[3] == 0.75 && t[4] == 0.9
    ensures Validate(t) == Failure(HighestNotOne(t))
  {
    assert t[0] == 0.0;
    assert !(1.0 in t);
  }

  lemma SameElementsFour(t: seq<real>)
    requires |t| == 4 && t[0] == 0.0 && t[1] == 0.5 && t[2] == 0.25 && t[3] == 1.0
    ensures multiset(t) == multiset([0.0, 0.25, 0.5, 1.0])
  {
    assert t == [0.0, 0.5, 0.25, 1.0];
  }

  /** An unsorted array is accepted and stored in ascending order. */
  lemma StoresSortedCopy(t: seq<real>)
    requires |t| == 4 && t[0] == 0.0 && t[1] == 0.5 && t[2] == 0.25 && t[3] == 1.0
    ensures Validate(t) == Success([0.0, 0.25, 0.5, 1.0])
  {
    SameElementsFour(t);
    SortedPermutationsEqual(Sort(t), [0.0, 0.25, 0.5, 1.0]);
  }

  lemma SameElementsFive(t: seq<real>)
    requires |t| == 5 && t[0] == 1.0 && t[1] == 0.0 && t[2] == 0.25 && t[3] == 0.75 && t[4] == 0.5
    ensures multiset(t) == multiset([0.0, 0.25, 0.5, 0.75, 1.0])
  {
    assert t == [1.0] + [0.0, 0.25, 0.75, 0.5];
    assert multiset([0.0, 0.25, 0.75, 0.5]) == multiset([0.0, 0.25, 0.5] + [0.75]);
    assert [0.0, 0.25, 0.5, 0.75, 1.0] == [0.0, 0.25, 0.5] + [0.75] + [1.0];
  }

  /** Reassigning [1.0, 0.0, 0.25, 0.75, 0.5] stores [0.0, 0.25, 0.5, 0.75, 1.0]. */
  lemma StoresSortedCopyOfFive(t: seq<real>)
    requires |t| == 5 && t[0] == 1.0 && t[1] == 0.0 && t[2] == 0.25 && t[3] == 0.75 && t[4] == 0.5
    ensures Validate(t).Success?
    ensures var v := Validate(t).value;
      |v| == 5 && v[0] == 0.0 && v[1] == 0.25 && v[2] == 0.5 && v[3] == 0.75 && v[4] == 1.0
  {
    SortOfFive(t);
  }

  lemma SortOfFive(t: seq<real>)
    requires |t| == 5 && t[0] == 1.0 && t[1] == 0.0 && t[2] == 0.25 && t[3] == 0.75 && t[4] == 0.5
    ensures Sort(t) == [0.0, 0.25, 0.5, 0.75, 1.0]
  {
    SameElementsFive(t);
    SortedPermutationsEqual(Sort(t), [0.0, 0.25, 0.5, 0.75, 1.0]);
  }

  /** grid_tau of a mesh holding five evenly spaced points. */
  lemma GridTauOfQuartersMesh(mesh: OcpMesh)
    requires mesh.Valid()
    requires var t := mesh.colPtTau;
      |t| == 5 && t[0] == 0.0 && t[1] == 0.25 && t[2] == 0.5 && t[3] == 0.75 && t[4] == 1.0
    ensures mesh.GridTau() == [0.0, 0.125, 0.25, 0.375, 0.5, 0.625, 0.75, 0.875, 1.0]
  {
    GridTauOfQuarters(mesh.colPtTau);
  }

  /** col_pt_delta_tau and grid_delta_tau of that mesh: both four quarters. */
  lemma DeltaTauOfQuartersMesh(mesh: OcpMesh)
    requires mesh.Valid()
    requires var t := mesh.colPtTau;
      |t| == 5 && t[0] == 0.0 && t[1] == 0.25 && t[2] == 0.5 && t[3] == 0.75 && t[4] == 1.0
    ensures mesh.ColPtDeltaTau() == [0.25, 0.25, 0.25, 0.25]
    ensures mesh.GridDeltaTau() == [0.25, 0.25, 0.25, 0.25]
  {
    DeltaTauOfQuarters(mesh.colPtTau);
  }

  /** OcpMesh([0.0, 0.25, 0.5, 0.75, 1.0]) and its three views. */
  method QuartersMeshScenario(t: seq<real>) returns (grid: seq<real>, colSteps: seq<real>, gridSteps: seq<real>)
    requires |t| == 5 && t[0] == 0.0 && t[1] == 0.25 && t[2] == 0.5 && t[3] == 0.75 && t[4] == 1.0
    ensures grid == [0.0, 0.125, 0.25, 0.375, 0.5, 0.625, 0.75, 0.875, 1.0]
    ensures colSteps == [0.25, 0.25, 0.25, 0.25] && gridSteps == [0.25, 0.25, 0.25, 0.25]
  {
    ReassignKeepsTau(t);
    var r := OcpMesh.New(t);
    var mesh := r.value;
    GridTauOfQuartersMesh(mesh);
    DeltaTauOfQuartersMesh(mesh);
    grid := mesh.GridTau();
    colSteps := mesh.ColPtDeltaTau();
    gridSteps := mesh.GridDeltaTau();
  }

  /**
   * A mesh built from [0.0, 0.5, 1.0], then reassigned an unsorted array:
   * the reassignment is accepted, stored sorted, and the views follow it.
   */
  method SetterSortsAndViewsFollow(first: seq<real>, next: seq<real>)
    returns (stored: seq<real>, grid: seq<real>, colSteps: seq<real>)
    requires |first| == 3 && first[0] == 0.0 && first[1] == 0.5 && first[2] == 1.0
    requires |next| == 5 && next[0] == 1.0 && next[1] == 0.0 && next[2] == 0.25 && next[3] == 0.75 && next[4] == 0.5
    ensures |stored| == 5 && stored[0] == 0.0 && stored[1] == 0.25 && stored[2] == 0.5
    ensures stored[3] == 0.75 && stored[4] == 1.0
    ensures grid == [0.0, 0.125, 0.25, 0.375, 0.5, 0.625, 0.75, 0.875, 1.0]
    ensures colSteps == [0.25, 0.25, 0.25, 0.25]
  {
    ReassignKeepsTau(first);
    var r := OcpMesh.New(first);
    var mesh := r.value;
    StoresSortedCopyOfFive(next);
    var o := mesh.SetColPtTau(next);
    assert o.Pass?;
    GridTauOfQuartersMesh(mesh);
    DeltaTauOfQuartersMesh(mesh);
    stored := mesh.colPtTau;
    grid := mesh.GridTau();
    colSteps := mesh.ColPtDeltaTau();
  }
}
