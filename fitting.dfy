/** The curve-fitting driver: which symbols become parameters, the arrays
    looked up per parameter, the keyword arguments handed to the optimizer,
    the labelling of the result, and the evaluation context of the fitness
    function. */
module Fitting {
  import opened PyValues
  import opened OptimizerRegistry
  import Results
  import Optimizers

  // ---------------------------------------------------------------------
  // parameters and lookups

  /** The parameter keys: the free symbols, in the order given, whose names
      are not data columns. */
  function ParameterKeys(symbols: seq<string>, xs: map<string, Value>): (keys: seq<string>)
    ensures forall k :: k in keys <==> k in symbols && k !in xs
    ensures |keys| <= |symbols|
    decreases |symbols|
  {
    if |symbols| == 0 then []
    else (if symbols[0] in xs then [] else [symbols[0]]) + ParameterKeys(symbols[1..], xs)
  }

  /** The keys keep the order of the symbols: the keys of a concatenation are
      the keys of each part, one after the other. */
  lemma {:induction false} ParameterKeysAppend(a: seq<string>, b: seq<string>, xs: map<string, Value>)
    ensures ParameterKeys(a + b, xs) == ParameterKeys(a, xs) + ParameterKeys(b, xs)
    decreases |a|
  {
    if |a| > 0 {
      assert (a + b)[0] == a[0];
      assert (a + b)[1..] == a[1..] + b;
      ParameterKeysAppend(a[1..], b, xs);
    } else {
      assert a + b == b;
    }
  }

  /** Distinct symbols give distinct keys. */
  lemma {:induction false} ParameterKeysDistinct(symbols: seq<string>, xs: map<string, Value>)
    requires Distinct(symbols)
    ensures Distinct(ParameterKeys(symbols, xs))
    decreases |symbols|
  {
    if |symbols| > 0 {
      var rest := ParameterKeys(symbols[1..], xs);
      assert Distinct(symbols[1..]) by {
        forall i, j | 0 <= i < j < |symbols[1..]| ensures symbols[1..][i] != symbols[1..][j] {
          assert symbols[1..][i] == symbols[i + 1] && symbols[1..][j] == symbols[j + 1];
        }
      }
      ParameterKeysDistinct(symbols[1..], xs);
      assert symbols[0] !in symbols[1..] by {
        forall i | 0 <= i < |symbols[1..]| ensures symbols[1..][i] != symbols[0] {
          assert symbols[1..][i] == symbols[i + 1];
        }
      }
      assert symbols[0] !in rest;
      var head := if symbols[0] in xs then [] else [symbols[0]];
      var keys := head + rest;
      forall i, j | 0 <= i < j < |keys| ensures keys[i] != keys[j] {
        if i < |head| {
          assert keys[i] == symbols[0] && keys[j] == rest[j - |head|];
        } else {
          assert keys[i] == rest[i - |head|] && keys[j] == rest[j - |head|];
        }
      }
    }
  }

  /** `[m[k] for k in keys]`: the first key missing raises `KeyError`. */
  function LookupAll(keys: seq<string>, m: map<string, Value>): (r: Result<seq<Value>>)
    ensures r.Ok? <==> forall k :: k in keys ==> k in m
    ensures r.Ok? ==> |r.value| == |keys| && forall i :: 0 <= i < |keys| ==> r.value[i] == m[keys[i]]
    ensures r.Err? ==> exists i :: 0 <= i < |keys| && keys[i] !in m && r.error == KeyError(keys[i])
                                  && forall j :: 0 <= j < i ==> keys[j] in m
    decreases |keys|
  {
    if |keys| == 0 then Ok([])
    else if keys[0] !in m then Err(KeyError(keys[0]))
    else
      var rest := LookupAll(keys[1..], m);
      if rest.Err? then
        var i :| 0 <= i < |keys[1..]| && keys[1..][i] !in m && rest.error == KeyError(keys[1..][i])
                 && forall j :: 0 <= j < i ==> keys[1..][j] in m;
        assert keys[i + 1] !in m && forall j :: 0 <= j < i + 1 ==> keys[j] in m;
        Err(rest.error)
      else
        assert forall k :: k in keys ==> k == keys[0] || k in keys[1..];
        Ok([m[keys[0]]] + rest.value)
  }

  /** `dict(zip(keys, vals))`: pairs up to the shorter length; a repeated key
      keeps its last value. */
  function ZipMap(keys: seq<string>, vals: seq<Value>): (z: map<string, Value>)
    ensures forall k :: k in z <==> exists i :: 0 <= i < |keys| && i < |vals| && keys[i] == k
    decreases |keys|
  {
    var n := if |keys| < |vals| then |keys| else |vals|;
    if n == 0 then map[]
    else
      var z := ZipMap(keys[..n - 1], vals[..n - 1]);
      assert forall i :: 0 <= i < n - 1 ==> keys[..n - 1][i] == keys[i];
      z[keys[n - 1] := vals[n - 1]]
  }

  /** The value a key gets in `dict(zip(keys, vals))` is the one paired with
      its last occurrence. */
  lemma {:induction false} ZipMapLastWins(keys: seq<string>, vals: seq<Value>, i: nat)
    requires i < |keys| && i < |vals|
    requires forall j :: i < j < |keys| && j < |vals| ==> keys[j] != keys[i]
    ensures keys[i] in ZipMap(keys, vals) && ZipMap(keys, vals)[keys[i]] == vals[i]
    decreases |keys|
  {
    var n := if |keys| < |vals| then |keys| else |vals|;
    if i < n - 1 {
      var ks, vs := keys[..n - 1], vals[..n - 1];
      ZipMapLastWins(ks, vs, i);
      assert ks[i] == keys[i] && vs[i] == vals[i];
      assert keys[n - 1] != keys[i];
    }
  }

  /** With distinct keys, each key is paired with the value at its own index. */
  lemma ZipMapDistinct(keys: seq<string>, vals: seq<Value>)
    requires Distinct(keys)
    ensures forall i :: 0 <= i < |keys| && i < |vals| ==> keys[i] in ZipMap(keys, vals) && ZipMap(keys, vals)[keys[i]] == vals[i]
  {
    forall i | 0 <= i < |keys| && i < |vals|
      ensures keys[i] in ZipMap(keys, vals) && ZipMap(keys, vals)[keys[i]] == vals[i]
    {
      ZipMapLastWins(keys, vals, i);
    }
  }

  /** The evaluation context of `fitness`: the data columns, with the
      parameter values written over any of the same name. */
  function FitnessContext(xs: map<string, Value>, keys: seq<string>, x: seq<Value>): (ctx: map<string, Value>)
    ensures forall k :: k in ctx <==> k in xs || k in ZipMap(keys, x)
    ensures forall k :: k in ZipMap(keys, x) ==> ctx[k] == ZipMap(keys, x)[k]
    ensures forall k :: k in xs && k !in ZipMap(keys, x) ==> ctx[k] == xs[k]
  {
    xs + ZipMap(keys, x)
  }

  /** With distinct keys and enough values, every parameter takes its own
      value in the context, whatever the data holds under its name. */
  lemma ParametersOverrideData(xs: map<string, Value>, keys: seq<string>, x: seq<Value>)
    requires Distinct(keys) && |keys| <= |x|
    ensures forall i :: 0 <= i < |keys| ==> FitnessContext(xs, keys, x)[keys[i]] == x[i]
  {
    ZipMapDistinct(keys, x);
  }

  // ---------------------------------------------------------------------
  // keyword arguments and labels

  /** A keyword the driver sets itself. */
  predicate IsDriverKey(k: string) {
    k == "objective_function" || k == "x0" || k == "bounds" || k == "stds" || k == "args"
  }

  /** `kwargs.update(objective_function=fitness, x0=…, bounds=…, stds=…,
      args=(keys, xs, f, equation))` */
  function DriverKwargs(kwargs: map<string, Value>, keys: seq<string>, x0: seq<Value>, bounds: seq<Value>,
                        stds: seq<Value>, xs: map<string, Value>, f: Value, equation: string): (d: map<string, Value>)
    ensures "objective_function" in d && d["objective_function"] == FuncV("fitness")
    ensures "x0" in d && d["x0"] == ListV(x0)
    ensures "bounds" in d && d["bounds"] == ListV(bounds)
    ensures "stds" in d && d["stds"] == ListV(stds)
    ensures "args" in d && d["args"] == ListV([StrList(keys), MapV(xs), f, StrV(equation)])
    ensures forall k :: !IsDriverKey(k) ==> (k in d <==> k in kwargs)
    ensures forall k :: k in kwargs && !IsDriverKey(k) ==> d[k] == kwargs[k]
  {
    kwargs + map[
      "objective_function" := FuncV("fitness"),
      "x0" := ListV(x0),
      "bounds" := ListV(bounds),
      "stds" := ListV(stds),
      "args" := ListV([StrList(keys), MapV(xs), f, StrV(equation)])]
  }

  /** `{key: x[idx] for idx, key in enumerate(keys)}`: `x` is only indexed
      when there are keys. */
  function Labels(keys: seq<string>, x: Value): (r: Result<map<string, Value>>)
    ensures r.Err? <==> |keys| > 0 && (!x.ListV? || |x.items| < |keys|)
    ensures r.Err? && !x.ListV? ==> r.error == TypeError("object is not subscriptable")
    ensures r.Err? && x.ListV? ==> r.error == IndexError
    ensures r.Ok? ==> forall k :: k in r.value <==> k in keys
    ensures r.Ok? && Distinct(keys) ==> forall i :: 0 <= i < |keys| ==> r.value[keys[i]] == x.items[i]
  {
    if |keys| == 0 then Ok(map[])
    else if !x.ListV? then Err(TypeError("object is not subscriptable"))
    else if |x.items| < |keys| then Err(IndexError)
    else
      ZipMapDistinctIfDistinct(keys, x.items);
      Ok(ZipMap(keys, x.items))
  }

  /** `ZipMapDistinct` under its own precondition, and key coverage for a
      long enough list of values. */
  lemma ZipMapDistinctIfDistinct(keys: seq<string>, vals: seq<Value>)
    requires |keys| <= |vals|
    ensures forall k :: k in ZipMap(keys, vals) <==> k in keys
    ensures Distinct(keys) ==> forall i :: 0 <= i < |keys| ==> ZipMap(keys, vals)[keys[i]] == vals[i]
  {
    if Distinct(keys) {
      ZipMapDistinct(keys, vals);
    }
  }

  // ---------------------------------------------------------------------
  // the driver

  /** What the driver hands to the optimizer class. */
  datatype Plan = Plan(keys: seq<string>, kwargs: map<string, Value>)

  /** Everything `curve_fitting` computes before it looks up the optimizer:
      the keys, then `x0`, bounds and stds looked up in that order, then the
      keyword arguments. */
  function PlanFit(xs: map<string, Value>, f: Value, equation: string, symbols: seq<string>,
                   initials: map<string, Value>, bounds: map<string, Value>, stds: map<string, Value>,
                   kwargs: map<string, Value>): (r: Result<Plan>)
    ensures var keys := ParameterKeys(symbols, xs);
      && (LookupAll(keys, initials).Err? ==> r == Err(LookupAll(keys, initials).error))
      && (LookupAll(keys, initials).Ok? && LookupAll(keys, bounds).Err? ==> r == Err(LookupAll(keys, bounds).error))
      && (LookupAll(keys, initials).Ok? && LookupAll(keys, bounds).Ok? && LookupAll(keys, stds).Err? ==>
            r == Err(LookupAll(keys, stds).error))
    ensures r.Ok? <==> forall k :: k in ParameterKeys(symbols, xs) ==> k in initials && k in bounds && k in stds
    ensures r.Ok? ==>
      var keys := ParameterKeys(symbols, xs);
      && r.value.keys == keys
      && r.value.kwargs == DriverKwargs(kwargs, keys, LookupAll(keys, initials).value, LookupAll(keys, bounds).value,
                                        LookupAll(keys, stds).value, xs, f, equation)
  {
    var keys := ParameterKeys(symbols, xs);
    var x0 :- LookupAll(keys, initials);
    var bs :- LookupAll(keys, bounds);
    var ss :- LookupAll(keys, stds);
    Ok(Plan(keys, DriverKwargs(kwargs, keys, x0, bs, ss, xs, f, equation)))
  }

  /** Calling a registry entry: a class is constructed; `None` and strings
      are not callable; any other object runs code outside the model. */
  function CallEntry(entry: PyObj, kwargs: map<string, Value>, backend: Optimizers.Backend)
    : (r: Result<(map<string, Value>, map<string, Value>)>)
    ensures entry.PyType? ==> r == Optimizers.FminSpec(entry.cls, [], kwargs, backend)
    ensures entry.PyNone? || entry.PyStr? ==> r == Err(TypeError("object is not callable"))
    ensures entry.PyOther? ==> r == Err(UserCodeError)
    ensures r.Ok? ==> Results.BaseDefaults().Keys <= r.value.0.Keys
  {
    match entry
    case PyType(cls) => Optimizers.FminSpec(cls, [], kwargs, backend)
    case PyOther(_) => Err(UserCodeError)
    case _ => Err(TypeError("object is not callable"))
  }

  /** The result processing after the run: `duration`, then `optimizeKeys`,
      then `parameters` labelled from the solution `x`. */
  function Labelled(fields: map<string, Value>, keys: seq<string>, elapsed: real): (r: Result<map<string, Value>>)
    requires "x" in fields
    ensures r.Ok? <==> Labels(keys, fields["x"]).Ok?
    ensures r.Err? ==> r.error == Labels(keys, fields["x"]).error
    ensures r.Ok? ==>
      && "optimizeKeys" in r.value && r.value["optimizeKeys"] == StrList(keys)
      && "duration" in r.value && r.value["duration"] == RealV(elapsed)
      && "parameters" in r.value && r.value["parameters"].MapV?
      && (forall k :: k in r.value["parameters"].entries <==> k in keys)
      && (Distinct(keys) ==> forall i :: 0 <= i < |keys| ==> r.value["parameters"].entries[keys[i]] == fields["x"].items[i])
      && (forall k :: k != "optimizeKeys" && k != "duration" && k != "parameters" ==>
            (k in r.value <==> k in fields) && (k in fields ==> r.value[k] == fields[k]))
  {
    var labelled := fields["duration" := RealV(elapsed)]["optimizeKeys" := StrList(keys)];
    var params :- Labels(keys, labelled["x"]);
    Ok(labelled["parameters" := MapV(params)])
  }

  /** The fields of the result `curve_fitting` returns, where `table` is the
      global registry and `elapsed` the time the run took. */
  function FitSpec(xs: map<string, Value>, f: Value, equation: string, symbols: seq<string>,
                   initials: map<string, Value>, bounds: map<string, Value>, stds: map<string, Value>,
                   methodName: string, kwargs: map<string, Value>,
                   table: map<string, PyObj>, backend: Optimizers.Backend, elapsed: real): (r: Result<map<string, Value>>)
    // a missing key fails before the registry is consulted
    ensures PlanFit(xs, f, equation, symbols, initials, bounds, stds, kwargs).Err? ==>
      r == Err(PlanFit(xs, f, equation, symbols, initials, bounds, stds, kwargs).error)
    // an unknown method fails at the registry lookup
    ensures PlanFit(xs, f, equation, symbols, initials, bounds, stds, kwargs).Ok? && methodName !in table ==>
      r == Err(KeyError(methodName))
    // otherwise the registered class gets the planned keyword arguments, and its result is labelled
    ensures PlanFit(xs, f, equation, symbols, initials, bounds, stds, kwargs).Ok? && methodName in table ==>
      var plan := PlanFit(xs, f, equation, symbols, initials, bounds, stds, kwargs).value;
      var run := CallEntry(table[methodName], plan.kwargs, backend);
      && (run.Err? ==> r == Err(run.error))
      && (run.Ok? ==> "x" in run.value.0 + run.value.1 && r == Labelled(run.value.0 + run.value.1, plan.keys, elapsed))
  {
    var plan :- PlanFit(xs, f, equation, symbols, initials, bounds, stds, kwargs);
    if methodName !in table then Err(KeyError(methodName))
    else
      var run :- CallEntry(table[methodName], plan.kwargs, backend);
      assert "x" in Results.BaseDefaults();
      Labelled(run.0 + run.1, plan.keys, elapsed)
  }

  /** A successful fit is the labelling of the fields some optimizer run
      produced. */
  lemma FitSpecLabelled(xs: map<string, Value>, f: Value, equation: string, symbols: seq<string>,
                        initials: map<string, Value>, bounds: map<string, Value>, stds: map<string, Value>,
                        methodName: string, kwargs: map<string, Value>,
                        table: map<string, PyObj>, backend: Optimizers.Backend, elapsed: real,
                        fields: map<string, Value>) returns (fields0: map<string, Value>)
    requires FitSpec(xs, f, equation, symbols, initials, bounds, stds, methodName, kwargs, table, backend, elapsed) == Ok(fields)
    ensures "x" in fields0 && Labelled(fields0, ParameterKeys(symbols, xs), elapsed) == Ok(fields)
  {
    var planned := PlanFit(xs, f, equation, symbols, initials, bounds, stds, kwargs);
    assert planned.Ok? && methodName in table;
    var run := CallEntry(table[methodName], planned.value.kwargs, backend);
    assert run.Ok?;
    fields0 := run.value.0 + run.value.1;
  }

  /** A labelled result with distinct symbols (hence, by `FitSpecLabelled`,
      every successful fit): `optimizeKeys` is the key list and `parameters`
      maps each key to the solution entry at its index. */
  lemma FitLabels(xs: map<string, Value>, symbols: seq<string>, elapsed: real,
                  fields0: map<string, Value>, fields: map<string, Value>)
    requires Distinct(symbols)
    requires "x" in fields0 && Labelled(fields0, ParameterKeys(symbols, xs), elapsed) == Ok(fields)
    ensures "optimizeKeys" in fields && fields["optimizeKeys"] == StrList(ParameterKeys(symbols, xs))
    ensures "duration" in fields && fields["duration"] == RealV(elapsed)
    ensures "parameters" in fields && fields["parameters"].MapV?
    ensures forall k :: k in fields["parameters"].entries <==> k in ParameterKeys(symbols, xs)
    ensures "x" in fields && fields["x"] == fields0["x"]
    ensures |ParameterKeys(symbols, xs)| > 0 ==> fields["x"].ListV? && |ParameterKeys(symbols, xs)| <= |fields["x"].items|
    ensures forall i :: 0 <= i < |ParameterKeys(symbols, xs)| ==>
      fields["parameters"].entries[ParameterKeys(symbols, xs)[i]] == fields["x"].items[i]
  {
    var keys := ParameterKeys(symbols, xs);
    ParameterKeysDistinct(symbols, xs);
    assert Labels(keys, fields0["x"]).Ok?;
  }

  /** Calling the registry entry `entry` with the planned keyword arguments:
      the model the optimizer returns, with the fields of `CallEntry`. */
  method RunEntry(entry: PyObj, kwargs: map<string, Value>, backend: Optimizers.Backend)
    returns (r: Result<Results.OptimizerResult>)
    ensures CallEntry(entry, kwargs, backend).Err? ==> r == Err(CallEntry(entry, kwargs, backend).error)
    ensures CallEntry(entry, kwargs, backend).Ok? ==>
      && r.Ok? && fresh(r.value) && r.value.Valid()
      && r.value.fields == CallEntry(entry, kwargs, backend).value.0 + CallEntry(entry, kwargs, backend).value.1
  {
    if entry.PyNone? || entry.PyStr? {
      return Err(TypeError("object is not callable"));
    }
    if entry.PyOther? {
      return Err(UserCodeError);
    }
    var optimizer :- Optimizers.Construct(entry.cls, [], kwargs);
    r := optimizer.Optimize(backend);
  }

  /** The result processing on the model itself: `result.duration`, then
      `result.optimizeKeys`, then `result.parameters`. */
  method Label(result: Results.OptimizerResult, keys: seq<string>, elapsed: real) returns (o: Outcome)
    requires result.Valid() && "x" in result.fields
    modifies result
    ensures result.Valid()
    ensures Labelled(old(result.fields), keys, elapsed).Err? ==> o == Fail(Labelled(old(result.fields), keys, elapsed).error)
    ensures Labelled(old(result.fields), keys, elapsed).Ok? ==> o == Pass && result.fields == Labelled(old(result.fields), keys, elapsed).value
  {
    result.SetField("duration", RealV(elapsed));
    result.SetField("optimizeKeys", StrList(keys));
    var params := Labels(keys, result.fields["x"]);
    if params.Err? {
      return Fail(params.error);
    }
    result.SetField("parameters", MapV(params.value));
    return Pass;
  }

  /** The registry entry run and its result labelled: the steps of
      `curve_fitting` after the lookup. */
  method RunAndLabel(entry: PyObj, kwargs: map<string, Value>, keys: seq<string>,
                     backend: Optimizers.Backend, elapsed: real)
    returns (r: Result<Results.OptimizerResult>)
    ensures CallEntry(entry, kwargs, backend).Err? ==> r == Err(CallEntry(entry, kwargs, backend).error)
    ensures CallEntry(entry, kwargs, backend).Ok? ==>
      var fields0 := CallEntry(entry, kwargs, backend).value.0 + CallEntry(entry, kwargs, backend).value.1;
      && "x" in fields0
      && (Labelled(fields0, keys, elapsed).Err? ==> r == Err(Labelled(fields0, keys, elapsed).error))
      && (Labelled(fields0, keys, elapsed).Ok? ==> r.Ok? && fresh(r.value) && r.value.fields == Labelled(fields0, keys, elapsed).value)
  {
    var result :- RunEntry(entry, kwargs, backend);
    assert "x" in result.fields;
    var labelled := Label(result, keys, elapsed);
    if labelled.Fail? {
      return Err(labelled.error);
    }
    return Ok(result);
  }

  /** `curve_fitting(xs, f, equation, initials, bounds, stds, method, **kwargs)`
      with the free symbols of `equation` given as `symbols`, the global
      registry `reg`, and `elapsed` for the measured run time. */
  method CurveFitting(xs: map<string, Value>, f: Value, equation: string, symbols: seq<string>,
                      initials: map<string, Value>, bounds: map<string, Value>, stds: map<string, Value>,
                      methodName: string, kwargs: map<string, Value>,
                      reg: Registry, backend: Optimizers.Backend, elapsed: real)
    returns (r: Result<Results.OptimizerResult>)
    requires reg.Valid()
    ensures FitSpec(xs, f, equation, symbols, initials, bounds, stds, methodName, kwargs, reg.table, backend, elapsed).Err? ==>
      r == Err(FitSpec(xs, f, equation, symbols, initials, bounds, stds, methodName, kwargs, reg.table, backend, elapsed).error)
    ensures FitSpec(xs, f, equation, symbols, initials, bounds, stds, methodName, kwargs, reg.table, backend, elapsed).Ok? ==>
      && r.Ok? && fresh(r.value)
      && r.value.fields == FitSpec(xs, f, equation, symbols, initials, bounds, stds, methodName, kwargs, reg.table, backend, elapsed).value
  {
    var planned := PlanFit(xs, f, equation, symbols, initials, bounds, stds, kwargs);
    if planned.Err? {
      return Err(planned.error);
    }
    var entry :- reg.GetItem(methodName);
    assert methodName in reg.table && entry == reg.table[methodName];
    r := RunAndLabel(entry, planned.value.kwargs, planned.value.keys, backend, elapsed);
  }
}
