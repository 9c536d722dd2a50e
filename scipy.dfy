/** The local-search adapters over `scipy.optimize.minimize`: the four leaf
    methods, the setup-time rename of `maxfun` to `maxfev`, the argument
    record handed to the backend and the result's extra fields. */
module ScipyAdapter {
  import opened PyValues
  import Results
  import AttrDict

  /** The leaf optimizer classes. */
  datatype Leaf = LBFGSB | NelderMead | Powell | TNC

  /** The backend method string of each leaf. */
  function Method(leaf: Leaf): (m: string)
  {
    match leaf
    case LBFGSB => "L-BFGS-B"
    case NelderMead => "Nelder-Mead"
    case Powell => "Powell"
    case TNC => "TNC"
  }

  /** The name each leaf is registered under. */
  function RegistryName(leaf: Leaf): (n: string)
  {
    match leaf
    case LBFGSB => "Scipy-LBFGSB"
    case NelderMead => "Scipy-NelderMead"
    case Powell => "Scipy-Powell"
    case TNC => "Scipy-TNC"
  }

  /** Distinct leaves have distinct method strings and distinct registry
      names, so each name selects exactly one backend method. */
  lemma LeafNamesDistinct(a: Leaf, b: Leaf)
    ensures Method(a) == Method(b) ==> a == b
    ensures RegistryName(a) == RegistryName(b) ==> a == b
  {
    if a != b {
      assert Method(a)[0] != Method(b)[0] || |Method(a)| != |Method(b)|;
      assert RegistryName(a)[6] != RegistryName(b)[6];
    }
  }

  /** The methods that want the evaluation budget under `maxfev`. */
  const RenamingMethods: seq<string> := ["Nelder-Mead", "Powell"]

  /** `ScipyOptimizer.setup` on options `opts` for backend method `method`. */
  function SetupOptions(methodName: string, opts: map<string, Value>): (r: Result<map<string, Value>>)
    // only Nelder-Mead and Powell are touched, and only when `maxiter` is present
    ensures !("maxiter" in opts && methodName in RenamingMethods) ==> r == Ok(opts)
    // the rename pops `maxfun`, which must be there
    ensures "maxiter" in opts && methodName in RenamingMethods && "maxfun" !in opts ==> r == Err(KeyError("maxfun"))
    ensures "maxiter" in opts && methodName in RenamingMethods && "maxfun" in opts ==>
      && r.Ok?
      && "maxfun" !in r.value
      && "maxfev" in r.value && r.value["maxfev"] == opts["maxfun"]
      && (forall k :: k != "maxfun" && k != "maxfev" ==> (k in r.value <==> k in opts))
      && (forall k :: k in opts && k != "maxfun" && k != "maxfev" ==> r.value[k] == opts[k])
  {
    if "maxiter" in opts && methodName in RenamingMethods then
      if "maxfun" in opts then Ok((opts - {"maxfun"})["maxfev" := opts["maxfun"]])
      else Err(KeyError("maxfun"))
    else Ok(opts)
  }

  /** `ScipyOptimizer.setup` on the optimizer's options dict, in place. */
  method Setup(options: AttrDict.Dict, methodName: string) returns (o: Outcome)
    modifies options
    ensures SetupOptions(methodName, old(options.items)).Ok? ==>
      o == Pass && options.items == SetupOptions(methodName, old(options.items)).value
    ensures SetupOptions(methodName, old(options.items)).Err? ==>
      o == Fail(SetupOptions(methodName, old(options.items)).error) && options.items == old(options.items)
  {
    if options.Contains("maxiter") && methodName in RenamingMethods {
      var maxfun := options.Pop("maxfun", None);
      if maxfun.Err? {
        return Fail(maxfun.error);
      }
      options.SetItem("maxfev", maxfun.value);
    }
    return Pass;
  }

  /** The rename applies to exactly the Nelder-Mead and Powell leaves. */
  lemma RenamesExactly(leaf: Leaf)
    ensures Method(leaf) in RenamingMethods <==> leaf == NelderMead || leaf == Powell
  {
    if leaf == LBFGSB || leaf == TNC {
      assert Method(leaf) != RenamingMethods[0] && Method(leaf) != RenamingMethods[1];
    }
  }

  /** The argument record of `minimize(objective, x0=…, args=…, bounds=…,
      method=…, callback=…, options=…)`. `callback` is the user callback the
      adapter's own callback forwards to. */
  datatype MinimizeCall = MinimizeCall(
    objective: Value, x0: Value, args: Value, bounds: Value,
    methodName: string, callback: Value, options: map<string, Value>)

  /** The fields `ScipyOptimizerResult` declares on top of `OptimizerResult`,
      with their defaults. */
  function ExtraDefaults(): (d: map<string, Value>)
    ensures d.Keys == {"success", "status", "message", "jac", "hess", "njev", "nhev", "maxcv"}
    ensures d["success"] == BoolV(false) && d["status"] == IntV(-1) && d["message"] == StrV("")
    ensures d["jac"] == ListV([]) && d["hess"] == ListV([])
    ensures d["njev"] == IntV(0) && d["nhev"] == IntV(0) && d["maxcv"] == RealV(0.0)
  {
    map[
      "success" := BoolV(false),
      "status" := IntV(-1),
      "message" := StrV(""),
      "jac" := ListV([]),
      "hess" := ListV([]),
      "njev" := IntV(0),
      "nhev" := IntV(0),
      "maxcv" := RealV(0.0)
    ]
  }

  /** All declared fields of `ScipyOptimizerResult` and their defaults: the
      inherited ones keep the base defaults. */
  function ResultDefaults(): (d: map<string, Value>)
    ensures d.Keys == Results.BaseDefaults().Keys + ExtraDefaults().Keys
    ensures forall k :: k in ExtraDefaults() ==> d[k] == ExtraDefaults()[k]
    ensures forall k :: k in Results.BaseDefaults() && k !in ExtraDefaults() ==> d[k] == Results.BaseDefaults()[k]
  {
    Results.BaseDefaults() + ExtraDefaults()
  }
}
