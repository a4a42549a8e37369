# OCP mesh and phase registry, modelled in Dafny

This project models two parts of a small Python toolkit that builds optimal
control problems (OCPs) on top of CasADi.

- **The temporal mesh** (`OcpMesh`, module `Mesh`). The mesh stores a sorted
  array of nondimensional collocation times ("tau") running from exactly 0
  to exactly 1. Its setter sorts whatever it is given and rejects an array
  whose lowest value is not 0.0 or whose highest value is not 1.0. In that
  case the stored array is left as it was. Three read-only views are
  computed from the stored array on every access:
  - the Hermite–Simpson grid: the collocation points plus the midpoint of
    each interval, sorted;
  - the collocation step sizes;
  - the "grid" step sizes.

  The NumPy primitives the mesh uses are modelled on sequences of reals in
  module `ArrayOps`:
  - `np.sort` is an insertion sort. Any correct sort gives the same result,
    because a sorted permutation is unique (`SortedPermutationsEqual`).
  - `np.diff` becomes `Diff`.
  - The pairwise-midpoint expression becomes `Midpoints`.
- **The phase registry** (`OcpPhase`, module `Ocp`). A phase files states,
  controls, parameters, ODE right-hand sides and path constraints in five
  dictionaries keyed by name. Each `add_*` method refuses a name that is
  already taken. The record constructors fill in defaults:
  - missing bounds become `Limits()`, which is minus to plus infinity;
  - a missing vector guess becomes `[0, 0]`;
  - a missing scalar guess becomes `0.0`.

  CasADi expressions are the class's type parameter `X`, and nothing is
  assumed about them. Infinite bounds are the constructors `NegInf` and
  `PosInf` of `Bound`.

The Python exceptions become values:
- the mesh operations return a `Result` or an `Outcome` (module `Wrappers`);
- the phase methods return a `Result` whose error names the dictionary that
  already held the name.

The module `MeshScenarios` proves the concrete meshes of the project's mesh
tests about the model. Reals make the expected values hold exactly, where
the tests compare floats approximately.

Points where the code and its documentation differ; the model follows the
code in each case:
- **`grid_delta_tau`.** The docstring describes the steps between grid
  points, but the property returns the collocation steps (`np.diff` of
  `col_pt_tau`). The mesh test says it "should be same as col_pt_delta_tau
  for now", so this is an acknowledged placeholder, not an accident.
  `Mesh.OcpMesh.GridDeltaTau` models the code as written. `Mesh.GridSteps`
  is the documented meaning. `Mesh.GridDeltaTauIsNotGridSteps` proves the
  two differ for every valid mesh.
- **Errors.** The setter raises `ValueError` for a bad lowest or highest
  value. An empty array fails earlier, on the index `sorted_arr[0]`
  (`EmptyArray`), and never reaches a named mesh error.
- **Grid length.** The grid always has 2N − 1 points, coincident values
  included, because the concatenation keeps duplicates. No assumption of
  distinct points is needed (`Mesh.OcpMesh.GridTau`).
- **`add_ode` and `add_path`.** The `ode` and `path` dictionaries are
  annotated as holding `OcpVectorExpr`, but both methods store the raw
  expression. Only the wrapped record is returned to the caller.
- **`from_evenly_distributed`.** The solver options call a mesh factory by
  this name, but `mesh.py` does not define it.

## Model

| member | source | states |
|---|---|---|
| ArrayOps.Sort | src/trajectory_optimization/mesh.py:37 | np.sort: the result has the input's length, is in ascending order and holds exactly the input's elements (multiset equality) |
| ArrayOps.SortedPermutationsEqual | src/trajectory_optimization/mesh.py:37 | two ascending sequences with the same elements are equal, so the stored array does not depend on the sorting algorithm |
| ArrayOps.SortOfSorted | src/trajectory_optimization/mesh.py:37 | sorting an already ascending array returns it unchanged |
| ArrayOps.SortFirstIsMin | src/trajectory_optimization/mesh.py:39 | `sorted_arr[0]` is an element of the input and no input element is smaller |
| ArrayOps.SortLastIsMax | src/trajectory_optimization/mesh.py:41 | `sorted_arr[-1]` is an element of the input and no input element is larger |
| ArrayOps.Diff | src/trajectory_optimization/mesh.py:55 | np.diff yields one fewer value than its input (none for an empty input) |
| ArrayOps.DiffAt | src/trajectory_optimization/mesh.py:55 | each forward difference is the step from one element to the next |
| ArrayOps.Midpoints | src/trajectory_optimization/mesh.py:48 | `(a[:-1] + a[1:]) / 2` yields one midpoint per adjacent pair |
| ArrayOps.DiffOfSortedNonNegative | src/trajectory_optimization/mesh.py:53-55 | the differences of an ascending array are never negative |
| ArrayOps.DiffSumTelescopes | src/trajectory_optimization/mesh.py:53-55 | the differences of a non-empty array add up to its last minus its first element |
| Mesh.Validate | src/trajectory_optimization/mesh.py:36-43 | the setter accepts exactly the arrays whose least element is 0.0 and greatest is 1.0, and stores a sorted permutation of them; the empty array, a bad lowest value and a bad highest value (checked in that order) each give their own error, both directions |
| Mesh.AcceptedTauBounds | src/trajectory_optimization/mesh.py:36-43 | every accepted array has at least two points, all in [0, 1] |
| Mesh.ReassignKeepsTau | src/trajectory_optimization/mesh.py:36-43 | assigning an already valid (sorted, 0-to-1) array stores it unchanged |
| Mesh.Grid | src/trajectory_optimization/mesh.py:48-50 | `np.sort(np.concatenate((col_pt_tau, midpoints)))`: ascending, with one entry per point and per midpoint, holding exactly the points together with the midpoints |
| Mesh.GridOfMeshTau | src/trajectory_optimization/mesh.py:45-51 | for every stored array the grid is ascending, has 2N − 1 points from 0 to 1, keeps every collocation point, and holds the points at even and the midpoints at odd positions |
| Mesh.Interleaved | src/trajectory_optimization/mesh.py:45-51 | the reference layout of the grid (point, midpoint, point, …) has 2N − 1 entries |
| Mesh.InterleavedLayout | src/trajectory_optimization/mesh.py:45-51 | in that layout the i-th point sits at 2i and the i-th midpoint at 2i + 1 |
| Mesh.InterleavedSorted | src/trajectory_optimization/mesh.py:45-51 | for ascending points the layout is ascending, since each midpoint lies between its two points |
| Mesh.InterleavedPermutation | src/trajectory_optimization/mesh.py:48-50 | the layout holds exactly the points together with the midpoints |
| Mesh.GridIsInterleaved | src/trajectory_optimization/mesh.py:45-51 | for ascending points, sorting the points concatenated with the midpoints gives the interleaved layout |
| Mesh.GridSteps | src/trajectory_optimization/mesh.py:23-24 | the docstring's grid_delta_tau, the steps between grid points: 2N − 2 of them (none for an empty array) |
| Mesh.GridStepsHalveIntervals | src/trajectory_optimization/mesh.py:23-24 | the documented grid steps number 2N − 2 and split each collocation interval into two halves |
| Mesh.GridStepsSumToOne | src/trajectory_optimization/mesh.py:23-24 | the documented grid steps of a valid mesh add up to 1 |
| Mesh.GridDeltaTauIsNotGridSteps | src/trajectory_optimization/mesh.py:57-59 | for every valid mesh the collocation steps differ from the documented grid steps |
| Mesh.OcpMesh.New | src/trajectory_optimization/mesh.py:27-29 | construction succeeds exactly when the setter accepts the array; the fresh mesh holds the setter's sorted copy; otherwise the setter's error is raised |
| Mesh.OcpMesh.SetColPtTau | src/trajectory_optimization/mesh.py:35-43 | the setter passes exactly when the least element is 0.0 and the greatest is 1.0; it then stores the sorted permutation, and on failure it reports the setter's error and leaves the stored array untouched; the mesh stays valid either way |
| Mesh.OcpMesh.GridTau | src/trajectory_optimization/mesh.py:45-51 | grid_tau is ascending, has 2N − 1 points from 0 to 1, contains every collocation point at even positions and each interval's midpoint at odd positions |
| Mesh.OcpMesh.ColPtDeltaTau | src/trajectory_optimization/mesh.py:53-55 | col_pt_delta_tau has N − 1 non-negative steps, each leading from one collocation point to the next, adding up to 1 |
| Mesh.OcpMesh.GridDeltaTau | src/trajectory_optimization/mesh.py:57-59 | grid_delta_tau equals col_pt_delta_tau and differs from the documented grid steps |
| MeshScenarios.GridTauOfQuarters | tests/src/trajectory_optimizaiton/test_mesh.py:11-24 | the grid of [0, 0.25, 0.5, 0.75, 1] is the nine eighths 0, 0.125, …, 1 |
| MeshScenarios.GridTauOfUnevenPoints | tests/src/trajectory_optimizaiton/test_mesh.py:18-24 | the grid of [0, 0.3, 0.6, 1] is [0, 0.15, 0.3, 0.45, 0.6, 0.8, 1] |
| MeshScenarios.DeltaTauOfQuarters | tests/src/trajectory_optimizaiton/test_mesh.py:26-31 | the differences of [0, 0.25, 0.5, 0.75, 1] are four quarters |
| MeshScenarios.GridTauOfQuartersMesh | tests/src/trajectory_optimizaiton/test_mesh.py:21-24 | a mesh holding the five quarter points reports the nine-point grid |
| MeshScenarios.DeltaTauOfQuartersMesh | tests/src/trajectory_optimizaiton/test_mesh.py:26-38 | that mesh reports four quarters both as col_pt_delta_tau and as grid_delta_tau |
| MeshScenarios.RejectsLowestNotZero | tests/src/trajectory_optimizaiton/test_mesh.py:43-50 | [0.1, 0.25, 0.5, 0.75, 1] is rejected with the lowest-value error |
| MeshScenarios.RejectsHighestNotOne | tests/src/trajectory_optimizaiton/test_mesh.py:44-50 | [0, 0.25, 0.5, 0.75, 0.9] is rejected with the highest-value error |
| MeshScenarios.StoresSortedCopy | tests/src/trajectory_optimizaiton/test_mesh.py:52-54 | [0, 0.5, 0.25, 1] is accepted and stored as [0, 0.25, 0.5, 1] |
| MeshScenarios.StoresSortedCopyOfFive | tests/src/trajectory_optimizaiton/test_mesh.py:56-61 | reassigning [1, 0, 0.25, 0.75, 0.5] stores [0, 0.25, 0.5, 0.75, 1] |
| MeshScenarios.QuartersMeshScenario | tests/src/trajectory_optimizaiton/test_mesh.py:21-38 | a client building OcpMesh([0, 0.25, 0.5, 0.75, 1]) reads the nine-point grid, and four quarters from both col_pt_delta_tau and grid_delta_tau |
| MeshScenarios.SetterSortsAndViewsFollow | tests/src/trajectory_optimizaiton/test_mesh.py:56-61 | a mesh built from [0, 0.5, 1] and reassigned [1, 0, 0.25, 0.75, 0.5] stores [0, 0.25, 0.5, 0.75, 1], and its grid and steps follow the new array |
| Ocp.MakeLimits | src/ocp.py:9-12 | an omitted lower bound is minus infinity and an omitted upper bound is plus infinity; given bounds are kept; with both omitted every value is admitted |
| Ocp.OrUnbounded | src/ocp.py:38-40 | `Limits() if bounds is None else bounds`: a given bound is kept, a missing one admits every value |
| Ocp.NewVectorSymbol | src/ocp.py:23-43 | an OcpVectorSymbol keeps its name, scale, units and given bounds and guess; missing bounds admit everything, and a missing guess is [0, 0] |
| Ocp.NewVectorExpr | src/ocp.py:46-63 | an OcpVectorExpr keeps its name, expression, scale and units; missing bounds admit everything |
| Ocp.NewScalarSymbol | src/ocp.py:66-80 | an OcpScalarSymbol keeps its name, scale, units and given bound and guess; a missing bound admits everything, and a missing guess is 0.0 |
| Ocp.InsertNew | src/ocp.py:102-113 | the guarded dictionary insert fails exactly when the key is present; otherwise it adds exactly that key with the new value and keeps every other entry |
| Ocp.InsertNewRefusesSecond | src/ocp.py:102-103 | a name just registered is refused when registered again |
| Ocp.OcpPhase.constructor | src/ocp.py:84-90 | an empty name becomes "ocp", and all five dictionaries start empty |
| Ocp.OcpPhase.AddState | src/ocp.py:92-114 | add_state fails with the state error exactly when the name is taken, leaving `state` as it was; otherwise it returns the defaulted symbol and files it as the one new entry; the other four dictionaries are unchanged |
| Ocp.OcpPhase.AddControl | src/ocp.py:116-138 | the same contract for add_control on `control` |
| Ocp.OcpPhase.AddParam | src/ocp.py:140-154 | the same contract for add_param on `param`, with a scalar symbol |
| Ocp.OcpPhase.AddOde | src/ocp.py:156-178 | add_ode allows at most one ODE per state name; it files the raw expression under the state's name and returns it wrapped with its bounds and scale; the other dictionaries are unchanged |
| Ocp.RegistrationScenario | src/ocp.py:84-178 | a client registering state "x", control "x", parameter "m" and an ODE for "x" gets the defaulted guesses; a second state "x" and a second ODE for "x" are refused, and the first ODE stays filed |
| Ocp.OcpPhase.AddPath | src/ocp.py:180-202 | add_path refuses a taken constraint name; otherwise it files the raw expression and returns it wrapped; the other dictionaries are unchanged |

## Left out

- CasADi symbols (`sym_c`, `sym_i`, `sym_f`, `sym_`, made by `ca.MX.sym`) are a call into a foreign library. The records do not carry them.
- Floating point is left out. Tau values, bounds and guesses are exact reals, so rounding is not captured.
- NaN is not modelled. np.sort places NaN last, and `nan != 0.0` and `nan != 1.0` are both true, so the setter rejects every array containing NaN: at the highest-value check, or at the lowest-value check when every element is NaN.
- Infinite bounds (`np.inf`) are the `NegInf` and `PosInf` constructors, not reals.
- Mesh.OcpMesh.SetColPtTau: the Python getter hands out the stored array object itself, and a caller could mutate it in place without going through the setter. Sequences are values, so that aliasing is not modelled.
- Ocp.OcpPhase.AddState, AddControl, AddParam: the records are immutable values, so object sharing is not modelled. In Python, each method returns the same object it stores, so a caller who later assigns `sym.guess` also changes the filed entry. The record constructors also keep the caller's `Limits` objects and guess array by reference, so several symbols can share one `Limits` object.
- Multi-dimensional arrays, non-float dtypes and plain Python lists passed to the setter are not modelled. The mesh is a one-dimensional sequence of reals.
- The text of the error messages is not modelled. An error carries its kind and the offending array or name.
- Python keyword defaults (`scale=1.0`, `guess=None`, `units=None`) become explicit arguments. `Ocp.DefaultScale` is the default scale.
- Names are strings. Python's `not name` would also turn `None` into "ocp"; the model admits only strings.
- The `guess` property of OcpPhase raises NotImplementedError in both directions, so it is not modelled.
- The `OcpTrajectory` of `ocp.py` is a plain container that only that unfinished property uses. It is not modelled.
- The solver, NLP, solution and options files (`_ocp_solver.py`, `_nlp.py`, `_hermite_simpson.py`, `solution.py`, `options.py`, `casadi_basics.py`) are not part of this model. `trajectory_optimization/solution.py` wraps scipy's `interp1d` to interpolate a trajectory, refusing one with duplicate times. `options.py` holds solver options whose default calls the missing mesh factory. The rest are stubs or CasADi demonstrations.
- `OcpMesh.from_evenly_distributed` is not part of this model, because `mesh.py` does not define it.
