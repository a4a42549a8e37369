/**
 * Building an optimal control problem phase in continuous time (ocp.py):
 * bounds, the records that describe states, controls, parameters and
 * expressions, and the phase object that files them in five dictionaries
 * keyed by name. CasADi symbols and expressions are the type parameter X,
 * about which nothing is assumed.
 */
module Ocp {
  import opened Wrappers

  /** A float bound as the source uses it: a finite value, or minus or plus infinity. */
  datatype Bound = NegInf | Finite(value: real) | PosInf

  /** Limits(low, upp): a lower and an upper bound. */
  datatype Limits = Limits(low: Bound, upp: Bound) {
    /** `x` lies within both bounds. */
    predicate Admits(x: real) {
      && (match low
          case NegInf => true
          case Finite(l) => l <= x
          case PosInf => false)
      && (match upp
          case NegInf => false
          case Finite(u) => x <= u
          case PosInf => true)
    }
  }

  /**
   * Limits(low=..., upp=...): an omitted bound defaults to minus infinity
   * below and plus infinity above.
   */
  function MakeLimits(low: Option<Bound>, upp: Option<Bound>): (l: Limits)
    ensures low.Some? ==> l.low == low.value
    ensures upp.Some? ==> l.upp == upp.value
    ensures low.None? ==> l.low == NegInf && forall x: real | l.upp.Finite? && x <= l.upp.value :: l.Admits(x)
    ensures upp.None? ==> l.upp == PosInf && forall x: real | l.low.Finite? && l.low.value <= x :: l.Admits(x)
    ensures low.None? && upp.None? ==> forall x: real :: l.Admits(x)
  {
    Limits(if low.Some? then low.value else NegInf, if upp.Some? then upp.value else PosInf)
  }

  /** `Limits() if bounds is None else bounds`: a missing bound admits every value. */
  function OrUnbounded(bounds: Option<Limits>): (l: Limits)
    ensures bounds.Some? ==> l == bounds.value
    ensures bounds.None? ==> l == MakeLimits(None, None) && forall x: real :: l.Admits(x)
  {
    if bounds.Some? then bounds.value else MakeLimits(None, None)
  }

  /** The default scale of every symbol and expression. */
  const DefaultScale: real := 1.0

  /** OcpVectorSymbol: a state or control with bounds on the whole path, at the start and at the end. */
  datatype VectorSymbol = VectorSymbol(
    name: string,
    boundsC: Limits,
    boundsI: Limits,
    boundsF: Limits,
    guess: seq<real>,
    scale: real,
    units: Option<string>)

  /** OcpVectorExpr: an ODE right-hand side or a path constraint, with its bounds. */
  datatype VectorExpr<X> = VectorExpr(
    name: string,
    expr: X,
    boundsC: Limits,
    boundsI: Limits,
    boundsF: Limits,
    scale: Option<real>,
    units: Option<string>)

  /** OcpScalarSymbol: a parameter, constant over the phase. */
  datatype ScalarSymbol = ScalarSymbol(
    name: string,
    bounds: Limits,
    guess: real,
    scale: real,
    units: Option<string>)

  /**
   * OcpVectorSymbol(...): missing bounds admit every value, a missing guess
   * is [0, 0]; everything given is kept as given.
   */
  function NewVectorSymbol(
    name: string, boundsC: Option<Limits>, boundsI: Option<Limits>, boundsF: Option<Limits>,
    guess: Option<seq<real>>, scale: real, units: Option<string>): (s: VectorSymbol)
    ensures s.name == name && s.scale == scale && s.units == units
    ensures s.boundsC == OrUnbounded(boundsC) && s.boundsI == OrUnbounded(boundsI) && s.boundsF == OrUnbounded(boundsF)
    ensures boundsC.None? ==> forall x: real :: s.boundsC.Admits(x)
    ensures guess.Some? ==> s.guess == guess.value
    ensures guess.None? ==> s.guess == [0.0, 0.0]
  {
    VectorSymbol(name, OrUnbounded(boundsC), OrUnbounded(boundsI), OrUnbounded(boundsF),
                 if guess.Some? then guess.value else [0.0, 0.0], scale, units)
  }

  /** OcpVectorExpr(...): missing bounds admit every value; the expression is kept as given. */
  function NewVectorExpr<X>(
    name: string, expr: X, boundsC: Option<Limits>, boundsI: Option<Limits>, boundsF: Option<Limits>,
    scale: Option<real>, units: Option<string>): (e: VectorExpr<X>)
    ensures e.name == name && e.expr == expr && e.scale == scale && e.units == units
    ensures e.boundsC == OrUnbounded(boundsC) && e.boundsI == OrUnbounded(boundsI) && e.boundsF == OrUnbounded(boundsF)
    ensures boundsC.None? ==> forall x: real :: e.boundsC.Admits(x)
  {
    VectorExpr(name, expr, OrUnbounded(boundsC), OrUnbounded(boundsI), OrUnbounded(boundsF), scale, units)
  }

  /** OcpScalarSymbol(...): a missing bound admits every value, a missing guess is 0.0. */
  function NewScalarSymbol(
    name: string, bounds: Option<Limits>, guess: Option<real>, scale: real, units: Option<string>): (p: ScalarSymbol)
    ensures p.name == name && p.scale == scale && p.units == units
    ensures p.bounds == OrUnbounded(bounds)
    ensures bounds.None? ==> forall x: real :: p.bounds.Admits(x)
    ensures guess.Some? ==> p.guess == guess.value
    ensures guess.None? ==> p.guess == 0.0
  {
    ScalarSymbol(name, OrUnbounded(bounds), if guess.Some? then guess.value else 0.0, scale, units)
  }

  /**
   * `d[key] = v` guarded by `if key in d: raise`: the dictionary with exactly
   * one new entry, or None when the key is already taken.
   */
  function InsertNew<V>(d: map<string, V>, key: string, v: V): (r: Option<map<string, V>>)
    ensures r.None? <==> key in d
    ensures r.Some? ==> r.value.Keys == d.Keys + {key} && r.value[key] == v
    ensures r.Some? ==> |r.value| == |d| + 1
    ensures r.Some? ==> forall k | k in d :: r.value[k] == d[k]
  {
    if key in d then None else Some(d[key := v])
  }

  /** A key that InsertNew has just filled is refused the next time. */
  lemma InsertNewRefusesSecond<V>(d: map<string, V>, key: string, v: V, w: V)
    requires InsertNew(d, key, v).Some?
    ensures InsertNew(InsertNew(d, key, v).value, key, w).None?
  {
  }

  /** The ValueError each add_* method raises for a name already in use. */
  datatype PhaseError =
    | StateDefined(name: string)
    | ControlDefined(name: string)
    | ParamDefined(name: string)
    | OdeDefined(stateName: string)
    | PathDefined(name: string)

  /** OcpPhase: one phase of the problem and the five name-keyed dictionaries it fills. */
  class OcpPhase<X> {
    var name: string
    var state: map<string, VectorSymbol>
    var control: map<string, VectorSymbol>
    var param: map<string, ScalarSymbol>
    var ode: map<string, X>     // raw expressions, keyed by the name of their state
    var path: map<string, X>    // raw expressions, keyed by constraint name

    /** Every state, control and parameter is filed under its own name. */
    predicate Valid()
      reads this
    {
      && (forall k | k in state :: state[k].name == k)
      && (forall k | k in control :: control[k].name == k)
      && (forall k | k in param :: param[k].name == k)
    }

    /** OcpPhase(name): an empty name becomes "ocp"; all dictionaries start empty. */
    constructor (name: string)
      ensures Valid()
      ensures this.name == if name == "" then "ocp" else name
      ensures state == map[] && control == map[] && param == map[]
      ensures ode == map[] && path == map[]
    {
      this.name := if name == "" then "ocp" else name;
      state, control, param := map[], map[], map[];
      ode, path := map[], map[];
    }

    /** add_state: refuses a name already in `state`, otherwise files one new symbol there. */
    method AddState(
      name: string, boundsC: Option<Limits>, boundsI: Option<Limits>, boundsF: Option<Limits>,
      guess: Option<seq<real>>, scale: real, units: Option<string>)
      returns (r: Result<VectorSymbol, PhaseError>)
      requires Valid()
      modifies this`state
      ensures Valid()
      ensures r.Failure? <==> name in old(state)
      ensures r.Failure? ==> r.error == StateDefined(name) && state == old(state)
      ensures r.Success? ==> r.value == NewVectorSymbol(name, boundsC, boundsI, boundsF, guess, scale, units)
      ensures r.Success? ==> InsertNew(old(state), name, r.value) == Some(state)
      ensures control == old(control) && param == old(param) && ode == old(ode) && path == old(path)
    {
      if name in state {
        return Failure(StateDefined(name));
      }
      var sym := NewVectorSymbol(name, boundsC, boundsI, boundsF, guess, scale, units);
      state := state[name := sym];
      return Success(sym);
    }

    /** add_control: refuses a name already in `control`, otherwise files one new symbol there. */
    method AddControl(
      name: string, boundsC: Option<Limits>, boundsI: Option<Limits>, boundsF: Option<Limits>,
      guess: Option<seq<real>>, scale: real, units: Option<string>)
      returns (r: Result<VectorSymbol, PhaseError>)
      requires Valid()
      modifies this`control
      ensures Valid()
      ensures r.Failure? <==> name in old(control)
      ensures r.Failure? ==> r.error == ControlDefined(name) && control == old(control)
      ensures r.Success? ==> r.value == NewVectorSymbol(name, boundsC, boundsI, boundsF, guess, scale, units)
      ensures r.Success? ==> InsertNew(old(control), name, r.value) == Some(control)
      ensures state == old(state) && param == old(param) && ode == old(ode) && path == old(path)
    {
      if name in control {
        return Failure(ControlDefined(name));
      }
      var sym := NewVectorSymbol(name, boundsC, boundsI, boundsF, guess, scale, units);
      control := control[name := sym];
      return Success(sym);
    }

    /** add_param: refuses a name already in `param`, otherwise files one new scalar there. */
    method AddParam(name: string, bounds: Option<Limits>, guess: Option<real>, scale: real, units: Option<string>)
      returns (r: Result<ScalarSymbol, PhaseError>)
      requires Valid()
      modifies this`param
      ensures Valid()
      ensures r.Failure? <==> name in old(param)
      ensures r.Failure? ==> r.error == ParamDefined(name) && param == old(param)
      ensures r.Success? ==> r.value == NewScalarSymbol(name, bounds, guess, scale, units)
      ensures r.Success? ==> InsertNew(old(param), name, r.value) == Some(param)
      ensures state == old(state) && control == old(control) && ode == old(ode) && path == old(path)
    {
      if name in param {
        return Failure(ParamDefined(name));
      }
      var sym := NewScalarSymbol(name, bounds, guess, scale, units);
      param := param[name := sym];
      return Success(sym);
    }

    /**
     * add_ode: at most one ODE per state, keyed by the state's name. The
     * dictionary receives the raw expression; the caller receives it wrapped
     * with its bounds.
     */
    method AddOde(
      st: VectorSymbol, expr: X, boundsC: Option<Limits>, boundsI: Option<Limits>, boundsF: Option<Limits>,
      scale: real, units: Option<string>)
      returns (r: Result<VectorExpr<X>, PhaseError>)
      requires Valid()
      modifies this`ode
      ensures Valid()
      ensures r.Failure? <==> st.name in old(ode)
      ensures r.Failure? ==> r.error == OdeDefined(st.name) && ode == old(ode)
      ensures r.Success? ==> r.value == NewVectorExpr(st.name, expr, boundsC, boundsI, boundsF, Some(scale), units)
      ensures r.Success? ==> InsertNew(old(ode), st.name, expr) == Some(ode)
      ensures state == old(state) && control == old(control) && param == old(param) && path == old(path)
    {
      if st.name in ode {
        return Failure(OdeDefined(st.name));
      }
      var vecExpr := NewVectorExpr(st.name, expr, boundsC, boundsI, boundsF, Some(scale), units);
      ode := ode[st.name := expr];
      return Success(vecExpr);
    }

    /** add_path: refuses a constraint name already in `path`, otherwise files the raw expression. */
    method AddPath(
      name: string, expr: X, boundsC: Option<Limits>, boundsI: Option<Limits>, boundsF: Option<Limits>,
      scale: real, units: Option<string>)
      returns (r: Result<VectorExpr<X>, PhaseError>)
      requires Valid()
      modifies this`path
      ensures Valid()
      ensures r.Failure? <==> name in old(path)
      ensures r.Failure? ==> r.error == PathDefined(name) && path == old(path)
      ensures r.Success? ==> r.value == NewVectorExpr(name, expr, boundsC, boundsI, boundsF, Some(scale), units)
      ensures r.Success? ==> InsertNew(old(path), name, expr) == Some(path)
      ensures state == old(state) && control == old(control) && param == old(param) && ode == old(ode)
    {
      if name in path {
        return Failure(PathDefined(name));
      }
      var vecExpr := NewVectorExpr(name, expr, boundsC, boundsI, boundsF, Some(scale), units);
      path := path[name := expr];
      return Success(vecExpr);
    }
  }

  /**
   * A client of the phase: the same name may be a state and a control, but
   * not two states, and a state gets at most one ODE; a refused
   * registration leaves the first one in place.
   */
  method RegistrationScenario<X>(rhs: X, other: X)
    returns (phase: OcpPhase<X>, secondState: Result<VectorSymbol, PhaseError>,
             secondOde: Result<VectorExpr<X>, PhaseError>)
    ensures phase.name == "ocp"
    ensures phase.state.Keys == {"x"} && phase.control.Keys == {"x"} && phase.param.Keys == {"m"}
    ensures phase.state["x"].guess == [0.0, 0.0] && phase.param["m"].guess == 0.0
    ensures phase.ode == map["x" := rhs] && phase.path == map[]
    ensures secondState == Failure(StateDefined("x")) && secondOde == Failure(OdeDefined("x"))
  {
    phase := new OcpPhase<X>("");
    var x := phase.AddState("x", None, None, None, None, DefaultScale, None);
    secondState := phase.AddState("x", None, None, None, Some([1.0]), DefaultScale, None);
    var u := phase.AddControl("x", None, None, None, None, DefaultScale, None);
    var p := phase.AddParam("m", None, None, DefaultScale, None);
    var f := phase.AddOde(x.value, rhs, None, None, None, DefaultScale, None);
    secondOde := phase.AddOde(x.value, other, None, None, None, DefaultScale, None);
  }
}
