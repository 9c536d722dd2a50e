/** The optimizer base class and its three families: the option merge done
    by construction, the `setup` hook each family overrides, the callback,
    `optimize` over a black-box backend, `fmin`, and the registrations the
    package makes when it is imported. */
module Optimizers {
  import opened PyValues
  import opened OptimizerRegistry
  import AttrDict
  import Results
  import ScipyAdapter
  import PyCMAAdapter

  // ---------------------------------------------------------------------
  // classes

  /** The concrete optimizer classes: the base class itself, a SciPy leaf,
      or the CMA-ES adapter. */
  datatype Kind = BaseKind | ScipyKind(leaf: ScipyAdapter.Leaf) | CMAKind

  /** The class identity of each kind. */
  function ClassOf(k: Kind): (c: ClassId)
  {
    match k
    case BaseKind => OptimizerBaseClass
    case ScipyKind(LBFGSB) => LBFGSBClass
    case ScipyKind(NelderMead) => NelderMeadClass
    case ScipyKind(Powell) => PowellClass
    case ScipyKind(TNC) => TNCClass
    case CMAKind => PYCMAClass
  }

  /** The kind of an instance of class `c`. The abstract `ScipyOptimizer`
      has no `method`, so its `setup` fails on the attribute; a class from
      outside the package runs code of its own. */
  function KindOf(c: ClassId): (r: Result<Kind>)
    ensures r.Ok? ==> ClassOf(r.value) == c
    ensures r.Ok? <==> !c.UserClass? && c != ScipyOptimizerClass
    ensures c == ScipyOptimizerClass ==> r == Err(AttributeError("method"))
    ensures c.UserClass? ==> r == Err(UserCodeError)
  {
    match c
    case OptimizerBaseClass => Ok(BaseKind)
    case ScipyOptimizerClass => Err(AttributeError("method"))
    case LBFGSBClass => Ok(ScipyKind(ScipyAdapter.LBFGSB))
    case NelderMeadClass => Ok(ScipyKind(ScipyAdapter.NelderMead))
    case PowellClass => Ok(ScipyKind(ScipyAdapter.Powell))
    case TNCClass => Ok(ScipyKind(ScipyAdapter.TNC))
    case PYCMAClass => Ok(CMAKind)
    case UserClass(_) => Err(UserCodeError)
  }

  /** Every kind is recovered from its class. */
  lemma KindOfClassOf(k: Kind)
    ensures KindOf(ClassOf(k)) == Ok(k)
  {
  }

  /** The class hierarchy of the package: every optimizer derives from the
      base class, the four leaves from `ScipyOptimizer`. */
  predicate Inherits(c: ClassId, d: ClassId) {
    || c == d
    || (d == OptimizerBaseClass && !c.UserClass?)
    || (d == ScipyOptimizerClass && (c == LBFGSBClass || c == NelderMeadClass || c == PowellClass || c == TNCClass))
  }

  // ---------------------------------------------------------------------
  // construction

  /** The class-level `defaultOptions` of each kind. */
  function DefaultOptions(k: Kind): (d: map<string, Value>)
    ensures k.CMAKind? ==> d == PyCMAAdapter.DefaultOptions()
    ensures !k.CMAKind? ==> d == map[]
  {
    if k.CMAKind? then PyCMAAdapter.DefaultOptions() else map[]
  }

  /** The options after the two updates of the constructor: a copy of the
      class defaults, then the user options, then `maxiter` and `maxfun`. */
  function MergedOptions(defaults: map<string, Value>, user: map<string, Value>, maxiter: Value, maxfun: Value): (m: map<string, Value>)
    ensures "maxiter" in m && m["maxiter"] == maxiter
    ensures "maxfun" in m && m["maxfun"] == maxfun
    ensures forall k :: k != "maxiter" && k != "maxfun" ==> (k in m <==> k in defaults || k in user)
    ensures forall k :: k in user && k != "maxiter" && k != "maxfun" ==> m[k] == user[k]
    ensures forall k :: k in defaults && k !in user && k != "maxiter" && k != "maxfun" ==> m[k] == defaults[k]
  {
    defaults + user + map["maxiter" := maxiter, "maxfun" := maxfun]
  }

  /** The keyword arguments of the constructor, bound. */
  datatype CtorArgs = CtorArgs(
    objective: Value, x0: Value, args: Value, bounds: Value, callback: Value,
    maxiter: Value, maxfun: Value, options: map<string, Value>)

  /** A named parameter of the constructor, which `**options` does not collect. */
  predicate IsParameter(k: string) {
    k == "objective_function" || k == "x0" || k == "args" || k == "bounds"
    || k == "callback" || k == "maxiter" || k == "maxfun"
  }

  /** A keyword names a parameter that a positional argument (or the bound
      `self`) already fills. The binder checks keywords before it counts the
      positional arguments, so this error wins over "too many". */
  predicate DuplicatedArgument(positional: seq<Value>, kwargs: map<string, Value>) {
    "self" in kwargs || (|positional| >= 1 && "objective_function" in kwargs)
    || (|positional| >= 2 && "x0" in kwargs)
  }

  /** Binding `cls(*positional, **kwargs)` to the constructor's signature:
      two positional-or-keyword parameters, five keyword-only parameters with
      defaults, and `**options` for the rest. */
  function BindConstructor(positional: seq<Value>, kwargs: map<string, Value>): (r: Result<CtorArgs>)
    ensures DuplicatedArgument(positional, kwargs) ==> r == Err(TypeError("multiple values for an argument"))
    ensures !DuplicatedArgument(positional, kwargs) && |positional| > 2 ==>
      r == Err(TypeError("too many positional arguments"))
    ensures r.Ok? <==>
      && |positional| <= 2 && "self" !in kwargs
      && (|positional| >= 1 <==> "objective_function" !in kwargs)
      && (|positional| == 2 <==> "x0" !in kwargs)
    ensures r.Ok? ==>
      && r.value.objective == (if |positional| >= 1 then positional[0] else kwargs["objective_function"])
      && r.value.x0 == (if |positional| == 2 then positional[1] else kwargs["x0"])
      && r.value.args == Get(kwargs, "args", ListV([]))
      && r.value.bounds == Get(kwargs, "bounds", NoneV)
      && r.value.callback == Get(kwargs, "callback", NoneV)
      && r.value.maxiter == Get(kwargs, "maxiter", IntV(1000))
      && r.value.maxfun == Get(kwargs, "maxfun", IntV(10000))
      && (forall k :: k in r.value.options <==> k in kwargs && !IsParameter(k))
      && (forall k :: k in r.value.options ==> r.value.options[k] == kwargs[k])
  {
    if DuplicatedArgument(positional, kwargs) then Err(TypeError("multiple values for an argument"))
    else if |positional| > 2 then Err(TypeError("too many positional arguments"))
    else if (|positional| == 0 && "objective_function" !in kwargs) || (|positional| < 2 && "x0" !in kwargs) then
      Err(TypeError("missing a required argument"))
    else
      Ok(CtorArgs(
        if |positional| >= 1 then positional[0] else kwargs["objective_function"],
        if |positional| == 2 then positional[1] else kwargs["x0"],
        Get(kwargs, "args", ListV([])),
        Get(kwargs, "bounds", NoneV),
        Get(kwargs, "callback", NoneV),
        Get(kwargs, "maxiter", IntV(1000)),
        Get(kwargs, "maxfun", IntV(10000)),
        map k | k in kwargs && !IsParameter(k) :: kwargs[k]))
  }

  /** What every instance holds, as a value: the attributes the constructor
      assigns, the options, and `stds` (set only by the CMA-ES setup). */
  datatype State = State(
    kind: Kind, objective: Value, x0: Value, bounds: Value, userCallback: Value,
    args: Value, options: map<string, Value>, stds: Value)

  /** The effect of `setup` on the options and on `stds`. */
  function SetupEffect(kind: Kind, opts: map<string, Value>, stds: Value): (r: Result<(map<string, Value>, Value)>)
    ensures kind.BaseKind? ==> r == Ok((opts, stds))
    ensures kind.ScipyKind? ==>
      var s := ScipyAdapter.SetupOptions(ScipyAdapter.Method(kind.leaf), opts);
      (s.Ok? ==> r == Ok((s.value, stds))) && (s.Err? ==> r == Err(s.error))
    ensures kind.CMAKind? ==> r == Ok((opts - {"stds"}, Get(opts, "stds", NoneV)))
  {
    match kind
    case BaseKind => Ok((opts, stds))
    case ScipyKind(leaf) =>
      var m :- ScipyAdapter.SetupOptions(ScipyAdapter.Method(leaf), opts);
      Ok((m, stds))
    case CMAKind => Ok((opts - {"stds"}, Get(opts, "stds", NoneV)))
  }

  /** The state of a freshly constructed optimizer of kind `kind`. */
  function Initial(kind: Kind, c: CtorArgs): (r: Result<State>)
  {
    var merged := MergedOptions(DefaultOptions(kind), c.options, c.maxiter, c.maxfun);
    var after :- SetupEffect(kind, merged, NoneV);
    Ok(State(kind, c.objective, c.x0, c.bounds, c.callback, c.args, after.0, after.1))
  }

  /** Construction never fails once the arguments are bound, and stores the
      arguments exactly as passed. */
  lemma InitialStores(kind: Kind, c: CtorArgs)
    ensures Initial(kind, c).Ok?
    ensures var s := Initial(kind, c).value;
      && s.kind == kind && s.objective == c.objective && s.x0 == c.x0 && s.bounds == c.bounds
      && s.userCallback == c.callback && s.args == c.args
  {
    var merged := MergedOptions(DefaultOptions(kind), c.options, c.maxiter, c.maxfun);
    if kind.ScipyKind? {
      assert "maxfun" in merged;
    }
  }

  /** The base class and the L-BFGS-B and TNC leaves keep the merged options
      as they are: `maxiter` and `maxfun` always present. */
  lemma InitialOptionsUnrenamed(kind: Kind, c: CtorArgs)
    requires kind.BaseKind? || kind == ScipyKind(ScipyAdapter.LBFGSB) || kind == ScipyKind(ScipyAdapter.TNC)
    ensures Initial(kind, c).Ok?
    ensures Initial(kind, c).value.options == MergedOptions(map[], c.options, c.maxiter, c.maxfun)
    ensures var o := Initial(kind, c).value.options;
      "maxiter" in o && o["maxiter"] == c.maxiter && "maxfun" in o && o["maxfun"] == c.maxfun
  {
    if kind.ScipyKind? {
      ScipyAdapter.RenamesExactly(kind.leaf);
    }
  }

  /** A constructed Nelder-Mead or Powell optimizer has `maxfev` equal to the
      `maxfun` argument and no `maxfun`; every other option is as merged. */
  lemma InitialOptionsRenamed(leaf: ScipyAdapter.Leaf, c: CtorArgs)
    requires leaf == ScipyAdapter.NelderMead || leaf == ScipyAdapter.Powell
    ensures Initial(ScipyKind(leaf), c).Ok?
    ensures var o := Initial(ScipyKind(leaf), c).value.options;
      var merged := MergedOptions(map[], c.options, c.maxiter, c.maxfun);
      && "maxfun" !in o
      && "maxfev" in o && o["maxfev"] == c.maxfun
      && "maxiter" in o && o["maxiter"] == c.maxiter
      && (forall k :: k != "maxfun" && k != "maxfev" ==> (k in o <==> k in merged))
      && (forall k :: k in merged && k != "maxfun" && k != "maxfev" ==> o[k] == merged[k])
  {
    ScipyAdapter.RenamesExactly(leaf);
  }

  /** A constructed CMA-ES optimizer has taken `stds` out of its options and
      holds it (or `None`); its own defaults stand unless the user gave them. */
  lemma InitialOptionsCMA(c: CtorArgs)
    ensures Initial(CMAKind, c).Ok?
    ensures var s := Initial(CMAKind, c).value;
      && "stds" !in s.options
      && s.stds == Get(c.options, "stds", NoneV)
      && "maxiter" in s.options && s.options["maxiter"] == c.maxiter
      && "maxfun" in s.options && s.options["maxfun"] == c.maxfun
      && "min_iterations" in s.options && s.options["min_iterations"] == Get(c.options, "min_iterations", IntV(10))
      && "n_jobs" in s.options && s.options["n_jobs"] == Get(c.options, "n_jobs", IntV(1))
      && "verb_disp" in s.options && s.options["verb_disp"] == Get(c.options, "verb_disp", IntV(100))
  {
    var merged := MergedOptions(DefaultOptions(CMAKind), c.options, c.maxiter, c.maxfun);
    assert "stds" in merged <==> "stds" in c.options;
  }

  // ---------------------------------------------------------------------
  // optimize

  /** The numerical backends, as black boxes: `scipy.optimize.minimize`, the
      keys of `cma.CMAOptions()`, the constructor of `CMAEvolutionStrategy`
      (which may raise) and its `optimize` followed by reading `es.result`. */
  datatype Backend = Backend(
    minimize: ScipyAdapter.MinimizeCall -> Result<map<string, Value>>,
    cmaKeys: set<string>,
    cmaStart: PyCMAAdapter.CMAInit -> Option<Error>,
    cmaRun: (PyCMAAdapter.CMAInit, PyCMAAdapter.CMARun) -> Result<PyCMAAdapter.CMAOutput>)

  /** The `minimize` call of a SciPy leaf. */
  function MinimizeArgs(s: State, leaf: ScipyAdapter.Leaf): (call: ScipyAdapter.MinimizeCall)
    ensures call.methodName == ScipyAdapter.Method(leaf) && call.options == s.options
    ensures call.objective == s.objective && call.x0 == s.x0 && call.args == s.args
    ensures call.bounds == s.bounds && call.callback == s.userCallback
  {
    ScipyAdapter.MinimizeCall(s.objective, s.x0, s.args, s.bounds, ScipyAdapter.Method(leaf), s.userCallback, s.options)
  }

  /** The `CMAEvolutionStrategy(x0=…, sigma0=1.0, inopts=…)` call. */
  function CMAInitArgs(s: State, cmaKeys: set<string>): (init: PyCMAAdapter.CMAInit)
    ensures init.x0 == s.x0 && init.sigma0 == 1.0
    ensures init.inopts == PyCMAAdapter.BackendOptions(s.options, cmaKeys, s.stds, s.bounds)
  {
    PyCMAAdapter.CMAInit(s.x0, 1.0, PyCMAAdapter.BackendOptions(s.options, cmaKeys, s.stds, s.bounds))
  }

  /** The `es.optimize(…)` arguments, read as attributes of the options in
      the order they are written; the first one missing raises `KeyError`. */
  function CMARunArgs(s: State): (r: Result<PyCMAAdapter.CMARun>)
    ensures r.Ok? <==> ("maxfun" in s.options && "maxiter" in s.options && "min_iterations" in s.options
                       && "verb_disp" in s.options && "n_jobs" in s.options)
    ensures r.Ok? ==> r.value == PyCMAAdapter.CMARun(
      s.objective, s.options["maxfun"], s.options["maxiter"], s.options["min_iterations"],
      s.args, s.options["verb_disp"], s.options["n_jobs"])
    ensures "maxfun" !in s.options ==> r == Err(KeyError("maxfun"))
    ensures "maxfun" in s.options && "maxiter" !in s.options ==> r == Err(KeyError("maxiter"))
  {
    var maxfun :- Lookup(s.options, "maxfun");
    var maxiter :- Lookup(s.options, "maxiter");
    var minIterations :- Lookup(s.options, "min_iterations");
    var verbDisp :- Lookup(s.options, "verb_disp");
    var nJobs :- Lookup(s.options, "n_jobs");
    Ok(PyCMAAdapter.CMARun(s.objective, maxfun, maxiter, minIterations, s.args, verbDisp, nJobs))
  }

  /** `d.name` on an options dict. */
  function Lookup(d: map<string, Value>, name: string): (r: Result<Value>)
    ensures r.Ok? <==> name in d
    ensures r.Ok? ==> r.value == d[name]
    ensures r.Err? ==> r.error == KeyError(name)
  {
    if name in d then Ok(d[name]) else Err(KeyError(name))
  }

  /** `optimize()` on an optimizer in state `s`: the class defaults of the
      result it builds and the field values it passes. */
  function RunSpec(s: State, backend: Backend): (r: Result<(map<string, Value>, map<string, Value>)>)
    ensures s.kind.BaseKind? ==> r == Err(NotImplementedError)
    ensures s.kind.ScipyKind? ==> r == RunScipy(s, s.kind.leaf, backend)
    ensures s.kind.CMAKind? ==> r == RunCMA(s, backend)
    ensures r.Ok? ==> Results.BaseDefaults().Keys <= r.value.0.Keys
  {
    match s.kind
    case BaseKind => Err(NotImplementedError)
    case ScipyKind(leaf) => RunScipy(s, leaf, backend)
    case CMAKind => RunCMA(s, backend)
  }

  /** `ScipyOptimizer.optimize`: one `minimize` call, whose result fields
      fill a `ScipyOptimizerResult`. */
  function RunScipy(s: State, leaf: ScipyAdapter.Leaf, backend: Backend): (r: Result<(map<string, Value>, map<string, Value>)>)
    ensures var res := backend.minimize(MinimizeArgs(s, leaf));
      (res.Ok? ==> r == Ok((ScipyAdapter.ResultDefaults(), res.value))) && (res.Err? ==> r == Err(res.error))
    ensures r.Ok? ==> Results.BaseDefaults().Keys <= r.value.0.Keys
  {
    var res :- backend.minimize(MinimizeArgs(s, leaf));
    Ok((ScipyAdapter.ResultDefaults(), res))
  }

  /** `PYCMAOptimizer.optimize`: the strategy is built (which may fail), the
      run arguments are read, the run may fail, and its result fills a
      `PYCMAOptimizerResult`. */
  function RunCMA(s: State, backend: Backend): (r: Result<(map<string, Value>, map<string, Value>)>)
    ensures var init := CMAInitArgs(s, backend.cmaKeys);
      if backend.cmaStart(init).Some? then r == Err(backend.cmaStart(init).value)
      else if CMARunArgs(s).Err? then r == Err(CMARunArgs(s).error)
      else if backend.cmaRun(init, CMARunArgs(s).value).Err? then r == Err(backend.cmaRun(init, CMARunArgs(s).value).error)
      else r == Ok((PyCMAAdapter.ResultDefaults(), PyCMAAdapter.ResultFields(backend.cmaRun(init, CMARunArgs(s).value).value)))
    ensures r.Ok? ==> Results.BaseDefaults().Keys <= r.value.0.Keys
  {
    var init := CMAInitArgs(s, backend.cmaKeys);
    if backend.cmaStart(init).Some? then Err(backend.cmaStart(init).value)
    else
      var run :- CMARunArgs(s);
      var out :- backend.cmaRun(init, run);
      Ok((PyCMAAdapter.ResultDefaults(), PyCMAAdapter.ResultFields(out)))
  }

  /** A constructed CMA-ES optimizer always finds the options `es.optimize`
      reads, hands the backend the budget it was built with, and gives `cma`
      the user's `stds` as `CMA_stds` and never a `stds` option. */
  lemma CMAArgsAfterConstruction(c: CtorArgs, cmaKeys: set<string>)
    ensures Initial(CMAKind, c).Ok?
    ensures var s := Initial(CMAKind, c).value;
      && CMARunArgs(s).Ok?
      && CMARunArgs(s).value.maxfun == c.maxfun && CMARunArgs(s).value.iterations == c.maxiter
      && CMARunArgs(s).value.minIterations == Get(c.options, "min_iterations", IntV(10))
      && CMARunArgs(s).value.verbDisp == Get(c.options, "verb_disp", IntV(100))
      && CMARunArgs(s).value.nJobs == Get(c.options, "n_jobs", IntV(1))
      && CMAInitArgs(s, cmaKeys).inopts["CMA_stds"] == Get(c.options, "stds", NoneV)
      && ("stds" in CMAInitArgs(s, cmaKeys).inopts <==> false)
  {
    InitialOptionsCMA(c);
  }

  /** A constructed Nelder-Mead or Powell optimizer hands `minimize` its
      evaluation budget as `maxfev` and no `maxfun`. */
  lemma MinimizeArgsAfterConstruction(leaf: ScipyAdapter.Leaf, c: CtorArgs)
    requires leaf == ScipyAdapter.NelderMead || leaf == ScipyAdapter.Powell
    ensures Initial(ScipyKind(leaf), c).Ok?
    ensures var call := MinimizeArgs(Initial(ScipyKind(leaf), c).value, leaf);
      && "maxfun" !in call.options && "maxfev" in call.options && call.options["maxfev"] == c.maxfun
      && call.objective == c.objective && call.x0 == c.x0 && call.args == c.args && call.bounds == c.bounds
      && call.callback == c.callback
  {
    InitialOptionsRenamed(leaf, c);
    InitialStores(ScipyKind(leaf), c);
  }

  // ---------------------------------------------------------------------
  // class and fmin

  /** The state of an optimizer after `cls(*positional, **kwargs)`: the
      arguments are bound first, then the class decides. */
  function ConstructSpec(cls: ClassId, positional: seq<Value>, kwargs: map<string, Value>): (r: Result<State>)
    ensures cls.UserClass? ==> r == Err(UserCodeError)
    ensures !cls.UserClass? && BindConstructor(positional, kwargs).Err? ==> r == Err(BindConstructor(positional, kwargs).error)
    ensures !cls.UserClass? && BindConstructor(positional, kwargs).Ok? ==>
      (r.Ok? <==> cls != ScipyOptimizerClass)
    ensures r.Ok? ==> Ok(r.value) == Initial(KindOf(cls).value, BindConstructor(positional, kwargs).value)
  {
    if cls.UserClass? then Err(UserCodeError)
    else
      var c :- BindConstructor(positional, kwargs);
      var kind :- KindOf(cls);
      InitialStores(kind, c);
      Initial(kind, c)
  }

  /** `cls.fmin(*positional, **kwargs)`: construction followed by `optimize`. */
  function FminSpec(cls: ClassId, positional: seq<Value>, kwargs: map<string, Value>, backend: Backend)
    : (r: Result<(map<string, Value>, map<string, Value>)>)
    ensures ConstructSpec(cls, positional, kwargs).Err? ==> r == Err(ConstructSpec(cls, positional, kwargs).error)
    ensures ConstructSpec(cls, positional, kwargs).Ok? ==> r == RunSpec(ConstructSpec(cls, positional, kwargs).value, backend)
    ensures r.Ok? ==> Results.BaseDefaults().Keys <= r.value.0.Keys
  {
    var s :- ConstructSpec(cls, positional, kwargs);
    RunSpec(s, backend)
  }

  /** `OptimizerBase.fmin` fails with `NotImplementedError` whenever the
      arguments bind. */
  lemma BaseFminNotImplemented(positional: seq<Value>, kwargs: map<string, Value>, backend: Backend)
    requires BindConstructor(positional, kwargs).Ok?
    ensures FminSpec(OptimizerBaseClass, positional, kwargs, backend) == Err(NotImplementedError)
  {
    InitialStores(BaseKind, BindConstructor(positional, kwargs).value);
  }

  /** An optimizer instance. */
  class Optimizer {
    const kind: Kind
    var objective: Value
    var x0: Value
    var bounds: Value
    var userCallback: Value
    var args: Value
    const options: AttrDict.Dict
    var stds: Value

    /** The instance as a value. */
    function Snapshot(): State
      reads this, options
    {
      State(kind, objective, x0, bounds, userCallback, args, options.items, stds)
    }

    /** `OptimizerBase.__init__` with bound arguments `c`, for an instance of
        kind `kind`. */
    constructor (kind: Kind, c: CtorArgs)
      ensures fresh(options)
      ensures Initial(kind, c) == Ok(Snapshot())
    {
      this.kind := kind;
      objective := c.objective;
      x0 := c.x0;
      bounds := c.bounds;
      userCallback := c.callback;
      args := c.args;
      var opts := new AttrDict.Dict("OptimizerOptions", DefaultOptions(kind));
      opts.Update(c.options);
      opts.Update(map["maxiter" := c.maxiter, "maxfun" := c.maxfun]);
      options := opts;
      stds := NoneV;
      new;
      assert options.items == MergedOptions(DefaultOptions(kind), c.options, c.maxiter, c.maxfun);
      InitialStores(kind, c);
      var o := Setup();
    }

    /** The `setup` hook of the instance's class. */
    method Setup() returns (o: Outcome)
      modifies this, options
      ensures SetupEffect(kind, old(options.items), old(stds)).Ok? ==>
        o == Pass && (options.items, stds) == SetupEffect(kind, old(options.items), old(stds)).value
      ensures SetupEffect(kind, old(options.items), old(stds)).Err? ==>
        o == Fail(SetupEffect(kind, old(options.items), old(stds)).error)
        && options.items == old(options.items) && stds == old(stds)
      ensures objective == old(objective) && x0 == old(x0) && bounds == old(bounds)
      ensures userCallback == old(userCallback) && args == old(args)
    {
      match kind
      case BaseKind =>
        o := Pass;
      case ScipyKind(leaf) =>
        o := ScipyAdapter.Setup(options, ScipyAdapter.Method(leaf));
      case CMAKind =>
        stds := PyCMAAdapter.Setup(options);
        o := Pass;
    }

    /** The call `callback(x)` makes, as the function called and its
        argument: the user callback when one is set, except in the CMA-ES
        adapter, whose callback does nothing. */
    function CallbackInvocation(x: Value): (call: Option<(Value, Value)>)
      reads this
      ensures kind.CMAKind? ==> call == None
      ensures !kind.CMAKind? ==> (call.Some? <==> Truthy(userCallback))
      ensures call.Some? ==> call.value == (userCallback, x)
    {
      if kind.CMAKind? then None
      else if Truthy(userCallback) then Some((userCallback, x))
      else None
    }

    /** `optimize()`: a fresh result, or the error raised. */
    method Optimize(backend: Backend) returns (r: Result<Results.OptimizerResult>)
      ensures RunSpec(Snapshot(), backend).Err? ==> r == Err(RunSpec(Snapshot(), backend).error)
      ensures RunSpec(Snapshot(), backend).Ok? ==>
        && r.Ok? && fresh(r.value) && r.value.Valid()
        && r.value.defaults == RunSpec(Snapshot(), backend).value.0
        && r.value.fields == RunSpec(Snapshot(), backend).value.0 + RunSpec(Snapshot(), backend).value.1
    {
      match kind
      case BaseKind =>
        return Err(NotImplementedError);
      case ScipyKind(leaf) =>
        r := OptimizeScipy(backend);
      case CMAKind =>
        r := OptimizeCMA(backend);
    }

    /** `ScipyOptimizer.optimize`: one `minimize` call. */
    method OptimizeScipy(backend: Backend) returns (r: Result<Results.OptimizerResult>)
      requires kind.ScipyKind?
      ensures RunSpec(Snapshot(), backend).Err? ==> r == Err(RunSpec(Snapshot(), backend).error)
      ensures RunSpec(Snapshot(), backend).Ok? ==>
        && r.Ok? && fresh(r.value) && r.value.Valid()
        && r.value.defaults == RunSpec(Snapshot(), backend).value.0
        && r.value.fields == RunSpec(Snapshot(), backend).value.0 + RunSpec(Snapshot(), backend).value.1
    {
      var call := ScipyAdapter.MinimizeCall(objective, x0, args, bounds, ScipyAdapter.Method(kind.leaf), userCallback, options.items);
      var res :- backend.minimize(call);
      var result := new Results.OptimizerResult(ScipyAdapter.ResultDefaults(), res);
      return Ok(result);
    }

    /** `PYCMAOptimizer.optimize`: the strategy is built, then run. */
    method OptimizeCMA(backend: Backend) returns (r: Result<Results.OptimizerResult>)
      requires kind.CMAKind?
      ensures RunSpec(Snapshot(), backend).Err? ==> r == Err(RunSpec(Snapshot(), backend).error)
      ensures RunSpec(Snapshot(), backend).Ok? ==>
        && r.Ok? && fresh(r.value) && r.value.Valid()
        && r.value.defaults == RunSpec(Snapshot(), backend).value.0
        && r.value.fields == RunSpec(Snapshot(), backend).value.0 + RunSpec(Snapshot(), backend).value.1
    {
      var inopts := PyCMAAdapter.BackendOptions(options.items, backend.cmaKeys, stds, bounds);
      var init := PyCMAAdapter.CMAInit(x0, 1.0, inopts);
      assert init == CMAInitArgs(Snapshot(), backend.cmaKeys);
      var failure := backend.cmaStart(init);
      if failure.Some? {
        return Err(failure.value);
      }
      var run :- ReadRunArgs();
      var out :- backend.cmaRun(init, run);
      var result := new Results.OptimizerResult(PyCMAAdapter.ResultDefaults(), PyCMAAdapter.ResultFields(out));
      return Ok(result);
    }

    /** The `es.optimize` arguments, read from `self.options` attribute by
        attribute. */
    method ReadRunArgs() returns (r: Result<PyCMAAdapter.CMARun>)
      ensures r == CMARunArgs(Snapshot())
    {
      var maxfun :- options.GetAttr("maxfun");
      var maxiter :- options.GetAttr("maxiter");
      var minIterations :- options.GetAttr("min_iterations");
      var verbDisp :- options.GetAttr("verb_disp");
      var nJobs :- options.GetAttr("n_jobs");
      return Ok(PyCMAAdapter.CMARun(objective, maxfun, maxiter, minIterations, args, verbDisp, nJobs));
    }
  }

  /** `cls(*positional, **kwargs)` */
  method Construct(cls: ClassId, positional: seq<Value>, kwargs: map<string, Value>) returns (r: Result<Optimizer>)
    ensures ConstructSpec(cls, positional, kwargs).Err? ==> r == Err(ConstructSpec(cls, positional, kwargs).error)
    ensures ConstructSpec(cls, positional, kwargs).Ok? ==>
      r.Ok? && fresh(r.value) && fresh(r.value.options) && ConstructSpec(cls, positional, kwargs) == Ok(r.value.Snapshot())
  {
    if cls.UserClass? {
      return Err(UserCodeError);
    }
    var c :- BindConstructor(positional, kwargs);
    var kind :- KindOf(cls);
    var optimizer := new Optimizer(kind, c);
    return Ok(optimizer);
  }

  /** `cls.fmin(*positional, **kwargs)` */
  method Fmin(cls: ClassId, positional: seq<Value>, kwargs: map<string, Value>, backend: Backend)
    returns (r: Result<Results.OptimizerResult>)
    ensures FminSpec(cls, positional, kwargs, backend).Err? ==> r == Err(FminSpec(cls, positional, kwargs, backend).error)
    ensures FminSpec(cls, positional, kwargs, backend).Ok? ==>
      && r.Ok? && fresh(r.value)
      && r.value.fields == FminSpec(cls, positional, kwargs, backend).value.0 + FminSpec(cls, positional, kwargs, backend).value.1
  {
    var optimizer :- Construct(cls, positional, kwargs);
    r := optimizer.Optimize(backend);
  }

  // ---------------------------------------------------------------------
  // registrations made on import

  /** The names the package registers, in import order. */
  const BuiltinNames: seq<string> := ["PYCMA-CMAES", "Scipy-LBFGSB", "Scipy-NelderMead", "Scipy-Powell", "Scipy-TNC"]

  /** The classes registered under those names. */
  function BuiltinTable(): (t: map<string, PyObj>)
  {
    map[
      "PYCMA-CMAES" := PyType(PYCMAClass),
      "Scipy-LBFGSB" := PyType(LBFGSBClass),
      "Scipy-NelderMead" := PyType(NelderMeadClass),
      "Scipy-Powell" := PyType(PowellClass),
      "Scipy-TNC" := PyType(TNCClass)]
  }

  /** `@register(name)` applied to class `cls`, in the global registry. */
  method RegisterDecorated(global: Registry, name: string, cls: ClassId)
    requires global.Valid()
    modifies global
    ensures global.Valid()
    ensures global.table == old(global.table)[name := PyType(cls)]
    ensures global.names == Inserted(old(global.names), name)
  {
    var dec := Register(PyStr(name), None, null, global);
    var stored := ApplyDecorator(dec.value, PyType(cls));
  }

  /** `@register(name)` on a class whose name is not yet taken: the name is
      appended. */
  method RegisterNew(global: Registry, name: string, cls: ClassId)
    requires global.Valid() && name !in global.names
    modifies global
    ensures global.Valid()
    ensures global.table == old(global.table)[name := PyType(cls)]
    ensures global.names == old(global.names) + [name]
  {
    RegisterDecorated(global, name, cls);
  }

  /** Importing the SciPy adapters: the four leaves are registered in the
      order they are defined. */
  method LoadScipyLeaves(global: Registry)
    requires global.Valid()
    requires "Scipy-LBFGSB" !in global.names && "Scipy-NelderMead" !in global.names
    requires "Scipy-Powell" !in global.names && "Scipy-TNC" !in global.names
    modifies global
    ensures global.Valid()
    ensures global.names == old(global.names) + ["Scipy-LBFGSB", "Scipy-NelderMead", "Scipy-Powell", "Scipy-TNC"]
    ensures global.table == old(global.table)["Scipy-LBFGSB" := PyType(LBFGSBClass)]
      ["Scipy-NelderMead" := PyType(NelderMeadClass)]["Scipy-Powell" := PyType(PowellClass)]["Scipy-TNC" := PyType(TNCClass)]
  {
    ghost var names0 := global.names;
    RegisterNew(global, "Scipy-LBFGSB", LBFGSBClass);
    assert "Scipy-NelderMead" !in global.names by {
      assert |"Scipy-NelderMead"| != |"Scipy-LBFGSB"|;
    }
    RegisterNew(global, "Scipy-NelderMead", NelderMeadClass);
    assert global.names == names0 + ["Scipy-LBFGSB", "Scipy-NelderMead"];
    assert "Scipy-Powell" !in global.names by {
      assert "Scipy-Powell"[6] != "Scipy-LBFGSB"[6] && |"Scipy-Powell"| != |"Scipy-NelderMead"|;
    }
    RegisterNew(global, "Scipy-Powell", PowellClass);
    assert global.names == names0 + ["Scipy-LBFGSB", "Scipy-NelderMead", "Scipy-Powell"];
    assert "Scipy-TNC" !in global.names by {
      assert |"Scipy-TNC"| != |"Scipy-LBFGSB"| && |"Scipy-TNC"| != |"Scipy-NelderMead"| && |"Scipy-TNC"| != |"Scipy-Powell"|;
    }
    RegisterNew(global, "Scipy-TNC", TNCClass);
  }

  /** Importing the package into an empty global registry: the CMA-ES
      adapter's module is imported first, then the SciPy adapters'. */
  method LoadPackage(global: Registry)
    requires global.Valid() && global.names == []
    modifies global
    ensures global.Valid()
    ensures global.names == BuiltinNames && global.table == BuiltinTable()
  {
    assert global.table == map[];
    RegisterNew(global, PyCMAAdapter.RegistryName, PYCMAClass);
    LoadScipyLeaves(global);
    assert ["PYCMA-CMAES"] + ["Scipy-LBFGSB", "Scipy-NelderMead", "Scipy-Powell", "Scipy-TNC"] == BuiltinNames;
  }

  /** The name of each registered kind. */
  function BuiltinName(k: Kind): (n: string)
    requires !k.BaseKind?
    ensures n in BuiltinNames && BuiltinTable()[n] == PyType(ClassOf(k))
  {
    match k
    case ScipyKind(leaf) => ScipyAdapter.RegistryName(leaf)
    case CMAKind => PyCMAAdapter.RegistryName
  }

  /** One step of the scan: a class entry either matches, or the scan goes
      on with the rest. */
  lemma FirstMatchStep(names: seq<string>, t: map<string, PyObj>, c: ClassId)
    requires forall n :: n in names ==> n in t
    requires |names| > 0 && t[names[0]].PyType?
    ensures Inherits(c, t[names[0]].cls) ==> FirstMatch(names, t, c, Inherits) == Ok(names[0])
    ensures !Inherits(c, t[names[0]].cls) ==> FirstMatch(names, t, c, Inherits) == FirstMatch(names[1..], t, c, Inherits)
  {
  }

  /** The scan over the registered names from position `i` on. */
  lemma ScanFrom(i: nat, c: ClassId)
    requires i <= |BuiltinNames|
    ensures i < |BuiltinNames| ==>
      FirstMatch(BuiltinNames[i..], BuiltinTable(), c, Inherits) ==
        if Inherits(c, BuiltinTable()[BuiltinNames[i]].cls) then Ok(BuiltinNames[i])
        else FirstMatch(BuiltinNames[i + 1..], BuiltinTable(), c, Inherits)
    ensures i == |BuiltinNames| ==>
      FirstMatch(BuiltinNames[i..], BuiltinTable(), c, Inherits) == Err(ValueError("model is not registered"))
  {
    if i < |BuiltinNames| {
      var rest := BuiltinNames[i..];
      assert rest[0] == BuiltinNames[i] && rest[1..] == BuiltinNames[i + 1..];
      FirstMatchStep(rest, BuiltinTable(), c);
    }
  }

  /** The scan over all registered names for an instance of class `c`, when
      the first `i` entries do not match and entry `i` does. */
  lemma ScanFinds(c: ClassId, i: nat)
    requires i < |BuiltinNames|
    requires forall j :: 0 <= j < i ==> !Inherits(c, BuiltinTable()[BuiltinNames[j]].cls)
    requires Inherits(c, BuiltinTable()[BuiltinNames[i]].cls)
    ensures FirstMatch(BuiltinNames, BuiltinTable(), c, Inherits) == Ok(BuiltinNames[i])
  {
    BuiltinEntriesAreClasses();
    assert NoMatchBefore(BuiltinNames, BuiltinTable(), c, Inherits, i);
    assert MatchesAt(BuiltinNames, BuiltinTable(), c, Inherits, i);
    var r := FirstMatch(BuiltinNames, BuiltinTable(), c, Inherits);
    var k :| 0 <= k < |BuiltinNames| && BuiltinNames[k] == r.value
             && MatchesAt(BuiltinNames, BuiltinTable(), c, Inherits, k)
             && NoMatchBefore(BuiltinNames, BuiltinTable(), c, Inherits, k);
    assert !(k < i) && !(i < k);
  }

  /** Every registered name holds a class. */
  lemma BuiltinEntriesAreClasses()
    ensures forall j :: 0 <= j < |BuiltinNames| ==> BuiltinNames[j] in BuiltinTable() && BuiltinTable()[BuiltinNames[j]].PyType?
  {
    forall j | 0 <= j < |BuiltinNames|
      ensures BuiltinNames[j] in BuiltinTable() && BuiltinTable()[BuiltinNames[j]].PyType?
    {
      assert j == 0 || j == 1 || j == 2 || j == 3 || j == 4;
    }
  }

  /** After import, `registry.getName` on an instance of a registered class
      gives the name it was registered under; on an instance of the base
      class, which is registered under no name, it raises `ValueError`. */
  lemma BuiltinGetName(k: Kind)
    ensures !k.BaseKind? ==> FirstMatch(BuiltinNames, BuiltinTable(), ClassOf(k), Inherits) == Ok(BuiltinName(k))
    ensures k.BaseKind? ==> FirstMatch(BuiltinNames, BuiltinTable(), ClassOf(k), Inherits) == Err(ValueError("model is not registered"))
  {
    match k
    case CMAKind => ScanFinds(PYCMAClass, 0);
    case ScipyKind(LBFGSB) => ScanFinds(LBFGSBClass, 1);
    case ScipyKind(NelderMead) => ScanFinds(NelderMeadClass, 2);
    case ScipyKind(Powell) => ScanFinds(PowellClass, 3);
    case ScipyKind(TNC) => ScanFinds(TNCClass, 4);
    case BaseKind => BaseNotRegistered();
  }

  /** No registered class is the base class or derives from nothing but it. */
  lemma BaseNotRegistered()
    ensures FirstMatch(BuiltinNames, BuiltinTable(), OptimizerBaseClass, Inherits) == Err(ValueError("model is not registered"))
  {
    forall j | 0 <= j < |BuiltinNames|
      ensures BuiltinTable()[BuiltinNames[j]].PyType? && !Inherits(OptimizerBaseClass, BuiltinTable()[BuiltinNames[j]].cls)
    {
      assert j == 0 || j == 1 || j == 2 || j == 3 || j == 4;
    }
    assert NoMatchBefore(BuiltinNames, BuiltinTable(), OptimizerBaseClass, Inherits, |BuiltinNames|);
  }
}
