/** The CMA-ES adapter over the `cma` package: its default options, the
    setup-time removal of `stds`, the backend options it builds (allow-list
    filter, `CMA_stds`, transposed bounds), the argument records handed to
    the backend and the mapping of the backend's result onto the result
    model. */
module PyCMAAdapter {
  import opened PyValues
  import Results
  import AttrDict

  /** The name the adapter is registered under. */
  const RegistryName: string := "PYCMA-CMAES"

  /** The class-level `defaultOptions`. */
  function DefaultOptions(): (d: map<string, Value>)
    ensures d.Keys == {"min_iterations", "n_jobs", "verb_disp"}
    ensures d["min_iterations"] == IntV(10) && d["n_jobs"] == IntV(1) && d["verb_disp"] == IntV(100)
  {
    map["min_iterations" := IntV(10), "n_jobs" := IntV(1), "verb_disp" := IntV(100)]
  }

  /** `PYCMAOptimizer.setup`: pops `stds` out of the options, in place, and
      returns the value to store in `self.stds` (`None` when absent). */
  method Setup(options: AttrDict.Dict) returns (stds: Value)
    modifies options
    ensures options.items == old(options.items) - {"stds"}
    ensures "stds" in old(options.items) ==> stds == old(options.items)["stds"]
    ensures "stds" !in old(options.items) ==> stds == NoneV
  {
    var popped := options.Pop("stds", Some(NoneV));
    stds := popped.value;
  }

  // ---------------------------------------------------------------------
  // bounds transposition

  /** `rows` is a rectangular two-dimensional array with `n` columns. */
  predicate IsMatrix(rows: seq<Value>, n: nat) {
    forall i :: 0 <= i < |rows| ==> rows[i].ListV? && |rows[i].items| == n
  }

  /** The transpose of a rectangular array with `n` columns: column `j`
      becomes row `j`. */
  function Transposed(rows: seq<Value>, n: nat): (t: seq<Value>)
    requires IsMatrix(rows, n)
    ensures |t| == n && IsMatrix(t, |rows|)
    ensures forall j, i :: 0 <= j < n && 0 <= i < |rows| ==> t[j].items[i] == rows[i].items[j]
  {
    seq(n, j requires 0 <= j < n => ListV(seq(|rows|, i requires 0 <= i < |rows| => rows[i].items[j])))
  }

  /** Transposing twice gives back the array. */
  lemma TransposeInvolution(rows: seq<Value>, n: nat)
    requires IsMatrix(rows, n)
    ensures Transposed(Transposed(rows, n), |rows|) == rows
  {
    var t := Transposed(rows, n);
    var tt := Transposed(t, |rows|);
    forall i | 0 <= i < |rows|
      ensures tt[i] == rows[i]
    {
      assert tt[i].items == rows[i].items;
    }
  }

  /** `None if bounds is None else bounds.T.tolist()`, for bounds given as
      nothing, as a rectangular two-dimensional array, or as a
      one-dimensional (possibly empty) array, which `.T` leaves alone. */
  function BackendBounds(bounds: Value): (r: Value)
    ensures bounds == NoneV ==> r == NoneV
    ensures bounds.ListV? && |bounds.items| > 0 && bounds.items[0].ListV?
            && IsMatrix(bounds.items, |bounds.items[0].items|) ==>
      r == ListV(Transposed(bounds.items, |bounds.items[0].items|))
  {
    match bounds
    case ListV(rows) =>
      if |rows| > 0 && rows[0].ListV? && IsMatrix(rows, |rows[0].items|) then ListV(Transposed(rows, |rows[0].items|))
      else bounds
    case _ => bounds
  }

  /** Bounds given as one `(low, high)` pair per parameter reach the backend
      as the list of lows and the list of highs. */
  lemma BoundsAsLowsAndHighs(rows: seq<Value>)
    requires |rows| > 0 && IsMatrix(rows, 2)
    ensures var r := BackendBounds(ListV(rows));
      && r.ListV? && |r.items| == 2
      && |r.items[0].items| == |rows| && |r.items[1].items| == |rows|
      && (forall i :: 0 <= i < |rows| ==> r.items[0].items[i] == rows[i].items[0] && r.items[1].items[i] == rows[i].items[1])
  {
    assert rows[0].ListV? && |rows[0].items| == 2;
  }

  // ---------------------------------------------------------------------
  // backend options

  /** The comprehension that keeps only the options `cma` knows about. */
  function Filtered(options: map<string, Value>, allowed: set<string>): (f: map<string, Value>)
    ensures forall k :: k in f <==> k in options && k in allowed
    ensures forall k :: k in f ==> f[k] == options[k]
  {
    map k | k in options && k in allowed :: options[k]
  }

  /** The `inopts` handed to `cma`: the allowed options, then `CMA_stds` and
      `bounds` written over them. */
  function BackendOptions(options: map<string, Value>, allowed: set<string>, stds: Value, bounds: Value): (o: map<string, Value>)
    ensures forall k :: k in o <==> (k in options && k in allowed) || k == "CMA_stds" || k == "bounds"
    ensures forall k :: k in o && k != "CMA_stds" && k != "bounds" ==> o[k] == options[k]
    ensures o["CMA_stds"] == stds
    ensures o["bounds"] == BackendBounds(bounds)
  {
    Filtered(options, allowed)["CMA_stds" := stds]["bounds" := BackendBounds(bounds)]
  }

  // ---------------------------------------------------------------------
  // backend calls and result

  /** `cma.CMAEvolutionStrategy(x0=…, sigma0=…, inopts=…)` */
  datatype CMAInit = CMAInit(x0: Value, sigma0: real, inopts: map<string, Value>)

  /** `es.optimize(objective_fct=…, maxfun=…, iterations=…, min_iterations=…,
      args=…, verb_disp=…, callback=…, n_jobs=…)`; the callback is the
      adapter's own, which does nothing, so it is not recorded. */
  datatype CMARun = CMARun(
    objective: Value, maxfun: Value, iterations: Value, minIterations: Value,
    args: Value, verbDisp: Value, nJobs: Value)

  /** The attributes of `es.result` the adapter reads. */
  datatype CMAOutput = CMAOutput(
    xbest: Value, fbest: Value, stds: Value, evaluations: Value, iterations: Value,
    evalsBest: real, stop: Value)

  /** `int(r)`: truncation toward zero. */
  function Trunc(r: real): (n: int)
    ensures r >= 0.0 ==> 0.0 <= n as real <= r < n as real + 1.0
    ensures r < 0.0 ==> n as real - 1.0 < r <= n as real <= 0.0
  {
    if r >= 0.0 then r.Floor else -((-r).Floor)
  }

  /** The fields `PYCMAOptimizerResult` declares on top of `OptimizerResult`,
      with their defaults. */
  function ExtraDefaults(): (d: map<string, Value>)
    ensures d.Keys == {"sigma", "evals_best", "stop"}
    ensures d["sigma"] == RealV(0.0) && d["evals_best"] == IntV(0) && d["stop"] == MapV(map[])
  {
    map["sigma" := RealV(0.0), "evals_best" := IntV(0), "stop" := MapV(map[])]
  }

  /** All declared fields of `PYCMAOptimizerResult` and their defaults. */
  function ResultDefaults(): (d: map<string, Value>)
    ensures d.Keys == Results.BaseDefaults().Keys + ExtraDefaults().Keys
    ensures forall k :: k in ExtraDefaults() ==> d[k] == ExtraDefaults()[k]
    ensures forall k :: k in Results.BaseDefaults() && k !in ExtraDefaults() ==> d[k] == Results.BaseDefaults()[k]
  {
    Results.BaseDefaults() + ExtraDefaults()
  }

  /** The keyword arguments the result is built from: six attributes copied
      as they are, `evals_best` converted to an integer. `sigma` is not
      given, so it keeps its default. */
  function ResultFields(out: CMAOutput): (f: map<string, Value>)
    ensures f.Keys == {"x", "fun", "stds", "nfev", "nit", "evals_best", "stop"}
    ensures f["x"] == out.xbest && f["fun"] == out.fbest && f["stds"] == out.stds
    ensures f["nfev"] == out.evaluations && f["nit"] == out.iterations && f["stop"] == out.stop
    ensures f["evals_best"] == IntV(Trunc(out.evalsBest))
  {
    map[
      "x" := out.xbest,
      "fun" := out.fbest,
      "stds" := out.stds,
      "nfev" := out.evaluations,
      "nit" := out.iterations,
      "evals_best" := IntV(Trunc(out.evalsBest)),
      "stop" := out.stop
    ]
  }
}
