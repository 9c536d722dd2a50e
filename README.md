# curve-fitting: the optimizer bookkeeping layer, in Dafny

`curve_fitting` fits a symbolic equation to data. The numerics come from
sympy, numpy, scipy and cma. The package's own part is the bookkeeping
around them, and that is what this project models and proves properties
of:

- the **registry**: names mapped to optimizer classes, `register` in its
  three calling forms, and `getName`, which finds a name from an instance;
- the **attribute dict** of the options: attribute access is key access,
  and `repr` is a deterministic formatter;
- **option merging**: the constructor's merge order, each adapter's `setup`
  hook (SciPy renames `maxfun` to `maxfev`, CMA-ES pops `stds`) and the
  CMA-ES backend options;
- the **driver**: parameter keys, per-key lookups, the keyword arguments
  handed to the optimizer, and the labelling of the result;
- the **result model**: `update` with its "only non-defaults are written"
  quirk, and the `fromAny` loader dispatch.

The files, one module each:

| file | module | models |
|---|---|---|
| `pyvalues.dfy` | `PyValues` | Python values, exceptions as a `Result`/`Outcome` error, `dict.get` |
| `registry.dfy` | `OptimizerRegistry` | `Registry` (a class whose fields are the insertion-ordered names and the table), `register`, the decorator, `getName` |
| `dict.dfy` | `AttrDict` | `Dict` (a class over a `map` field) and its `repr` formatter |
| `result.dfy` | `Results` | `OptimizerResult` (a class), `update`, `fromAny` |
| `scipy.dfy` | `ScipyAdapter` | the four SciPy leaves, the `setup` rename, the result defaults |
| `pycma.dfy` | `PyCMAAdapter` | the CMA-ES defaults, `setup`, backend options, bounds transposition, result fields |
| `optimizer.dfy` | `Optimizers` | `Optimizer` (a class), construction, `setup`, `callback`, `optimize`, `fmin`, the package's registrations |
| `fitting.dfy` | `Fitting` | `curve_fitting` and the data merge of `fitness` |

How things are modelled:

- Python exceptions are `Err` values. The names of the Python exceptions
  are kept (`KeyError`, `ValueError`, `TypeError`, `AssertionError`, …).
- Classes are opaque ids (`ClassId`), and `isinstance` is a relation passed
  in as a parameter. For the package's own classes, `Optimizers.Inherits`
  gives a concrete hierarchy.
- The numerical backends are black boxes, held as function fields of a
  `Backend` record. The model states the argument record each backend
  receives. The cma allow-list of option names is a set in that record.
- The measured run time is the parameter `elapsed`. The free symbols of
  the equation, in the order sympy gives them, are the parameter `symbols`.
  The serialisation loaders are partial functions (`Results.Loaders`).
  `repr` of a value is a function parameter.
- Floats are exact `real`s. The model only stores and compares them, apart
  from `int(evals_best)`, which `PyCMAAdapter.Trunc` writes out as
  truncation toward zero.
- Where the source mutates something in place (the registry, the options
  dict, the optimizer's attributes, the result's fields), the model is a
  class with `modifies` clauses. Each such method is proved against a
  specification function on values (`FirstMatch`, `SetupOptions`,
  `UpdatedFields`, `Initial`, `RunSpec`, `FitSpec`, …). The properties are
  proved as lemmas about those functions.

The errors the code raises:

- An unknown method name fails with `KeyError(name)` at `registry[method]`.
- A missing initial value, bound or spread raises `KeyError`.
- A failed `getName` raises `ValueError`.
- Undecodable text, and a path with an unknown extension, raise
  `ValueError`.

## Model

| member | source | states |
|---|---|---|
| OptimizerRegistry.FirstMatch | curve_fitting/optimize/registry.py:25-28 | the lookup succeeds exactly when some entry in insertion order matches, with no match before it. The name returned is that first match. `ValueError` is raised exactly when no entry matches. `TypeError` is raised exactly when a non-class entry is reached first |
| OptimizerRegistry.Registry.GetName | curve_fitting/optimize/registry.py:25-28 | the loop with early return computes `FirstMatch` over the names in insertion order |
| OptimizerRegistry.Registry.GetItem | curve_fitting/optimize/registry.py:83 | `registry[name]` gives the stored entry, or `KeyError(name)` exactly when the name is absent |
| OptimizerRegistry.Registry.SetItem | curve_fitting/optimize/registry.py:82 | only `name`'s entry changes. A new name is appended to the insertion order; an existing name overwrites its entry and keeps its position |
| OptimizerRegistry.Inserted | curve_fitting/optimize/registry.py:82 | dict insertion order: a key already present keeps the order unchanged, a new key is appended, and distinctness is preserved |
| OptimizerRegistry.Normalise | curve_fitting/optimize/registry.py:75-80 | an explicit name keeps the first argument. A string alone becomes the name, with no class. A non-class, non-string with no name fails "must be a string". No name at all fails "name is required" |
| OptimizerRegistry.TargetOf | curve_fitting/optimize/registry.py:74 | `saveto` when given, otherwise the global registry |
| OptimizerRegistry.Register | curve_fitting/optimize/registry.py:74-85 | a normalisation error leaves the target unchanged. With no class, it returns a decorator carrying the name and the same target, and leaves the target unchanged. With a class, it stores the class under the name in the target only, and returns exactly the stored class |
| OptimizerRegistry.ApplyDecorator | curve_fitting/optimize/registry.py:85 | applying the decorator to a class stores it under the decorator's name in the decorator's target |
| AttrDict.Dict.GetAttr | curve_fitting/optimize/dict.py:6-9 | a public `dict` method name (`keys`, `update`, `pop`, …) gives that bound method, whatever is stored under it. For any other name `d.k` is `d["k"]`, and a missing key raises `KeyError`, not `AttributeError` |
| AttrDict.Dict.SetAttr | curve_fitting/optimize/dict.py:11-12 | after `d.k = v`, `d["k"] == v`, and every other key and value is unchanged |
| AttrDict.Dict.DelAttr | curve_fitting/optimize/dict.py:14-15 | removes exactly key `k`, or raises `KeyError` and changes nothing |
| AttrDict.Dict.Pop | curve_fitting/optimize/pycma.py:128 | `pop` returns the removed value and drops exactly that key. An absent key gives the default with nothing changed, or `KeyError` when there is no default |
| AttrDict.Dict.Update | curve_fitting/optimize/optimizer.py:78-79 | `update(other)`: later values replace earlier ones |
| AttrDict.SortedKeys | curve_fitting/optimize/dict.py:22 | the keys, each once, in strictly ascending order |
| AttrDict.MaxLen | curve_fitting/optimize/dict.py:21 | `max(map(len, keys))`: no key is longer, and some key has that length |
| AttrDict.RJust | curve_fitting/optimize/dict.py:22 | `rjust`: the string ends with `s` and is padded with spaces on the left up to the width |
| AttrDict.Width | curve_fitting/optimize/dict.py:21 | the width is one more than the longest key |
| AttrDict.Lines | curve_fitting/optimize/dict.py:22 | each line is the key right-justified to the width, then `": "`, then the value's repr |
| AttrDict.Format | curve_fitting/optimize/dict.py:19-23 | the repr of an empty dict is the class name followed by `()` |
| AttrDict.Dict.Repr | curve_fitting/optimize/dict.py:17-23 | the repr is the class name and `()` when empty, otherwise the sorted lines joined by newlines |
| AttrDict.FormatOneLinePerKey | curve_fitting/optimize/dict.py:22 | a non-empty repr splits back into exactly one line per key, in sorted key order, with no trailing newline |
| AttrDict.LessTransitive | curve_fitting/optimize/dict.py:22 | the string order `sorted` uses is transitive |
| AttrDict.LessTotal | curve_fitting/optimize/dict.py:22 | two distinct strings are always ordered one way or the other |
| Results.BaseDefaults | curve_fitting/optimize/result.py:205-225 | the ten declared fields: empty lists and dicts for the collections, zero for the numbers |
| Results.DataOrEmpty | curve_fitting/optimize/result.py:52 | `data or {}` |
| Results.NonDefault | curve_fitting/optimize/result.py:55 | keeps exactly the merged values that differ from their field's default |
| Results.UpdatedFields | curve_fitting/optimize/result.py:50-57 | the keys are the old ones plus those given. A keyword argument wins over `data`, which wins over the current value, unless the new value is the field's default. A field given its default keeps its value, so a field off its default stays off it |
| Results.OptimizerResult.Update | curve_fitting/optimize/result.py:50-57 | the fields become `UpdatedFields` of the old fields, every declared field stays present, and the model itself is returned |
| Results.OptimizerResult.SetField | curve_fitting/fitting.py:84-86 | `result.name = value` changes exactly that field |
| Results.UpdateCannotReset | curve_fitting/optimize/result.py:55-56 | for every result and every `data`, passing `x=[]`, the field's default, leaves `x` as it was |
| Results.FromText | curve_fitting/optimize/result.py:171-182 | the JSON result, or any error other than a JSON decode error, is final. After a decode error, TOML then YAML are tried, and `ValueError` is raised when both fail. A decode error never escapes |
| Results.FromAny | curve_fitting/optimize/result.py:159-197 | `data` beats `text`, which beats `path`. `str` text goes through `FromText`, `bytes` to the binary loader, and a path by its extension. `ValueError` is raised for an unknown extension or when nothing is given |
| Results.PathFormatComplete | curve_fitting/optimize/result.py:186-195 | a path is routed to the format of any extension it ends with, whatever the order of the tests |
| Results.PathFormatByExtension | curve_fitting/optimize/result.py:186-195 | a path goes to a format exactly when it ends with one of that format's extensions |
| ScipyAdapter.LeafNamesDistinct | curve_fitting/optimize/scipy.py:87-138 | the four leaves have pairwise distinct method strings and registry names |
| ScipyAdapter.SetupOptions | curve_fitting/optimize/scipy.py:56-58 | options are unchanged unless `maxiter` is present and the method is Nelder-Mead or Powell. If so, `maxfun` is removed and `maxfev` takes its value, overwriting any earlier `maxfev`, and no other key changes. A missing `maxfun` raises `KeyError` |
| ScipyAdapter.Setup | curve_fitting/optimize/scipy.py:56-58 | the in-place `setup` leaves the options equal to `SetupOptions`. On `KeyError` they are unchanged |
| ScipyAdapter.RenamesExactly | curve_fitting/optimize/scipy.py:57 | the rename applies to exactly the Nelder-Mead and Powell leaves |
| ScipyAdapter.ExtraDefaults | curve_fitting/optimize/scipy.py:28-44 | `success=False`, `status=-1`, `message=""`, `jac=hess=[]`, `njev=nhev=0`, `maxcv=0.0` |
| ScipyAdapter.ResultDefaults | curve_fitting/optimize/scipy.py:17-44 | the declared fields are the base ones plus the SciPy ones, with those defaults |
| PyCMAAdapter.DefaultOptions | curve_fitting/optimize/pycma.py:117-121 | exactly `min_iterations=10`, `n_jobs=1`, `verb_disp=100` |
| PyCMAAdapter.Setup | curve_fitting/optimize/pycma.py:127-128 | removes `stds` from the options, in place, and returns its value, or `None` when absent |
| PyCMAAdapter.Transposed | curve_fitting/optimize/pycma.py:140 | `.T`: column `j` becomes row `j` |
| PyCMAAdapter.TransposeInvolution | curve_fitting/optimize/pycma.py:140 | transposing twice gives back the array |
| PyCMAAdapter.BackendBounds | curve_fitting/optimize/pycma.py:140 | `None` without bounds, otherwise the transposed array |
| PyCMAAdapter.BoundsAsLowsAndHighs | curve_fitting/optimize/pycma.py:140 | n `(low, high)` pairs become the list of lows and the list of highs |
| PyCMAAdapter.Filtered | curve_fitting/optimize/pycma.py:138 | exactly the options whose key is in the allow-list, with their values |
| PyCMAAdapter.BackendOptions | curve_fitting/optimize/pycma.py:138-140 | the allowed options plus `CMA_stds` and `bounds`. Kept keys keep their values, `CMA_stds` is the popped `stds` (even `None`), and `bounds` is `BackendBounds` |
| PyCMAAdapter.Trunc | curve_fitting/optimize/pycma.py:161 | `int(r)` truncates toward zero |
| PyCMAAdapter.ExtraDefaults | curve_fitting/optimize/pycma.py:31-36 | `sigma=0.0`, `evals_best=0`, `stop={}` |
| PyCMAAdapter.ResultDefaults | curve_fitting/optimize/pycma.py:26-36 | the declared fields are the base ones plus the CMA-ES ones, with those defaults |
| PyCMAAdapter.ResultFields | curve_fitting/optimize/pycma.py:155-163 | `x`, `fun`, `stds`, `nfev`, `nit` and `stop` are copied verbatim, `evals_best` is truncated to an int, and `sigma` is not given |
| Optimizers.KindOf | curve_fitting/optimize/scipy.py:52-58 | every package class other than the abstract `ScipyOptimizer` has a kind. `ScipyOptimizer` fails on its missing `method` attribute; a user class runs code outside the model |
| Optimizers.KindOfClassOf | curve_fitting/optimize/scipy.py:87-138 | every kind is recovered from its class |
| Optimizers.DefaultOptions | curve_fitting/optimize/optimizer.py:34 | the base and SciPy classes have no default options; CMA-ES has its own |
| Optimizers.MergedOptions | curve_fitting/optimize/optimizer.py:77-79 | a copy of the class defaults, overridden by the user options, overridden by `maxiter` and `maxfun`, which are always present |
| Optimizers.BindConstructor | curve_fitting/optimize/optimizer.py:39-50 | binding fails exactly on a duplicated argument, too many positional arguments or a missing argument, and a duplicated keyword is reported before the positional count. Otherwise `args=()`, `bounds=None`, `callback=None`, `maxiter=1000` and `maxfun=10000` are the defaults, and exactly the non-parameter keywords become options |
| Optimizers.SetupEffect | curve_fitting/optimize/optimizer.py:80-84 | the base hook does nothing. SciPy applies `SetupOptions`. CMA-ES pops `stds` into the instance |
| Optimizers.InitialStores | curve_fitting/optimize/optimizer.py:72-76 | construction succeeds once bound, and stores the objective, `x0`, `bounds`, `callback` and `args` exactly as passed |
| Optimizers.InitialOptionsUnrenamed | curve_fitting/optimize/optimizer.py:77-80 | base, L-BFGS-B and TNC options are the merge itself, with `maxiter` and `maxfun` present |
| Optimizers.InitialOptionsRenamed | curve_fitting/optimize/scipy.py:56-58 | a constructed Nelder-Mead or Powell optimizer has `maxfev` equal to the `maxfun` argument and no `maxfun`; everything else is as merged |
| Optimizers.InitialOptionsCMA | curve_fitting/optimize/pycma.py:117-128 | a constructed CMA-ES optimizer holds `stds` (or `None`) outside its options, and its defaults stand unless overridden |
| Optimizers.Optimizer.constructor | curve_fitting/optimize/optimizer.py:72-80 | the new object's state is `Initial` of the bound arguments, with a fresh options dict |
| Optimizers.Optimizer.Setup | curve_fitting/optimize/optimizer.py:82-84 | the hook changes options and `stds` as `SetupEffect` says, and nothing else |
| Optimizers.Optimizer.CallbackInvocation | curve_fitting/optimize/optimizer.py:86-88 | the user callback is called with `x` exactly when one is set, except in CMA-ES, whose override never calls it |
| Optimizers.MinimizeArgs | curve_fitting/optimize/scipy.py:63-71 | `minimize` gets the stored objective, `x0`, `args`, `bounds` and options, the leaf's method string, and the user callback |
| Optimizers.CMAInitArgs | curve_fitting/optimize/pycma.py:143 | the strategy gets `x0`, `sigma0=1.0` and the backend options |
| Optimizers.CMARunArgs | curve_fitting/optimize/pycma.py:144-153 | the run gets `maxfun`, `maxiter`, `min_iterations`, `verb_disp` and `n_jobs` from the options, in that order. The first missing one raises `KeyError` |
| Optimizers.Lookup | curve_fitting/optimize/dict.py:8-9 | `options.name` on a value: the entry or `KeyError` |
| Optimizers.RunSpec | curve_fitting/optimize/optimizer.py:90-92 | the base `optimize` raises `NotImplementedError`. The SciPy and CMA-ES versions are `RunScipy` and `RunCMA`. Every result holds the base fields |
| Optimizers.RunScipy | curve_fitting/optimize/scipy.py:60-72 | one `minimize` call. Its error propagates; its result fills a SciPy result |
| Optimizers.RunCMA | curve_fitting/optimize/pycma.py:134-163 | build then run. Each step's error propagates, and the result fields are `ResultFields` |
| Optimizers.CMAArgsAfterConstruction | curve_fitting/optimize/pycma.py:138-153 | a constructed CMA-ES optimizer always finds its run arguments. It hands over the budget it was built with, gives the user's `stds` as `CMA_stds`, and never passes a `stds` option |
| Optimizers.MinimizeArgsAfterConstruction | curve_fitting/optimize/scipy.py:57-71 | Nelder-Mead and Powell hand `minimize` the budget as `maxfev` and no `maxfun`, with the arguments as passed |
| Optimizers.ConstructSpec | curve_fitting/optimize/optimizer.py:39-80 | construction binds the arguments first, then the class decides. It succeeds exactly for the package's concrete classes |
| Optimizers.FminSpec | curve_fitting/optimize/optimizer.py:94-108 | `fmin` is construction followed by `optimize`, and a construction error is final |
| Optimizers.BaseFminNotImplemented | curve_fitting/optimize/optimizer.py:90-92 | the base class's `fmin` raises `NotImplementedError` whenever the arguments bind |
| Optimizers.Optimizer.Optimize | curve_fitting/optimize/optimizer.py:90-92 | returns a fresh result whose fields are the class defaults plus the values of `RunSpec`, or `RunSpec`'s error |
| Optimizers.Optimizer.OptimizeScipy | curve_fitting/optimize/scipy.py:60-72 | the same, for a SciPy leaf |
| Optimizers.Optimizer.OptimizeCMA | curve_fitting/optimize/pycma.py:134-163 | the same, for CMA-ES |
| Optimizers.Optimizer.ReadRunArgs | curve_fitting/optimize/pycma.py:146-152 | reading the options attribute by attribute gives `CMARunArgs` |
| Optimizers.Construct | curve_fitting/optimize/optimizer.py:39-80 | `cls(**kwargs)` gives a fresh optimizer whose state is `ConstructSpec`, or its error |
| Optimizers.Fmin | curve_fitting/optimize/optimizer.py:94-108 | `cls.fmin(...)` returns the result of `FminSpec`, or its error |
| Optimizers.RegisterDecorated | curve_fitting/optimize/registry.py:76-85 | `@register(name)` on a class stores it under `name` in the global registry |
| Optimizers.RegisterNew | curve_fitting/optimize/registry.py:81-83 | a name not yet taken is appended to the insertion order |
| Optimizers.LoadScipyLeaves | curve_fitting/optimize/scipy.py:87-138 | importing the SciPy module registers L-BFGS-B, Nelder-Mead, Powell and TNC in that order |
| Optimizers.LoadPackage | curve_fitting/optimize/__init__.py:3-10 | importing the package into an empty registry gives `PYCMA-CMAES` then the four SciPy names, each holding its class |
| Optimizers.BuiltinName | curve_fitting/optimize/pycma.py:115 | the name of each registered kind, which holds that kind's class |
| Optimizers.BuiltinGetName | curve_fitting/optimize/registry.py:25-28 | after import, `getName` of an instance of a registered class is the name it was registered under. For the base class it raises `ValueError` |
| Optimizers.BaseNotRegistered | curve_fitting/optimize/registry.py:28 | no registered class is the base class, so its instances are not found |
| Fitting.ParameterKeys | curve_fitting/fitting.py:51 | exactly the symbols not bound in `xs`, and no more keys than symbols |
| Fitting.ParameterKeysAppend | curve_fitting/fitting.py:51 | the keys keep the symbols' order: the keys of a concatenation are the keys of each part, one after the other |
| Fitting.ParameterKeysDistinct | curve_fitting/fitting.py:51 | distinct symbols give distinct keys |
| Fitting.LookupAll | curve_fitting/fitting.py:52-54 | the list comprehension is one value per key, in key order. The first key missing raises `KeyError` for that key |
| Fitting.ZipMap | curve_fitting/fitting.py:15 | `dict(zip(keys, vals))` has exactly the keys paired within the shorter length |
| Fitting.ZipMapLastWins | curve_fitting/fitting.py:15 | a repeated key keeps the value paired with its last occurrence |
| Fitting.ZipMapDistinct | curve_fitting/fitting.py:15 | with distinct keys, each key has the value at its own index |
| Fitting.FitnessContext | curve_fitting/fitting.py:15 | the context is the data, with the parameters written over entries of the same name |
| Fitting.ParametersOverrideData | curve_fitting/fitting.py:15 | every parameter takes its own value in the context, whatever the data holds under its name |
| Fitting.DriverKwargs | curve_fitting/fitting.py:58-64 | the driver's `objective_function`, `x0`, `bounds`, `stds` and `args=(keys, xs, f, equation)` override the user's. Other keywords are kept |
| Fitting.Labels | curve_fitting/fitting.py:86 | `{key: x[i]}`: with no keys it is empty; a non-list raises `TypeError`; a short list raises `IndexError`. Otherwise exactly the keys, each with `x[i]` when the keys are distinct |
| Fitting.PlanFit | curve_fitting/fitting.py:51-64 | the lookups of `x0`, bounds and stds happen in that order, and the first failure is final. Success is exactly when every key is in all three, and gives the keys and the driver's keyword arguments |
| Fitting.CallEntry | curve_fitting/fitting.py:65 | calling the registry entry: a class is `fmin`'d with the keyword arguments; `None` and strings are not callable |
| Fitting.Labelled | curve_fitting/fitting.py:84-86 | `duration`, `optimizeKeys == keys` and `parameters[keys[i]] == x[i]` are set; every other field is unchanged |
| Fitting.FitSpec | curve_fitting/fitting.py:50-89 | a missing key fails before the registry is consulted, and an unknown method fails with `KeyError` at the lookup. Otherwise the entry's result is labelled |
| Fitting.FitSpecLabelled | curve_fitting/fitting.py:80-86 | every successful fit is the labelling of fields some run produced |
| Fitting.FitLabels | curve_fitting/fitting.py:85-86 | with distinct symbols, `optimizeKeys` is the key list and `parameters` maps each `keys[i]` to `x[i]` |
| Fitting.RunEntry | curve_fitting/fitting.py:65-80 | the registry entry is constructed and optimized, giving a fresh result with `CallEntry`'s fields, or its error |
| Fitting.Label | curve_fitting/fitting.py:84-86 | the in-place field assignments give `Labelled` of the old fields, or the labelling error |
| Fitting.RunAndLabel | curve_fitting/fitting.py:65-86 | the run followed by the labelling |
| Fitting.CurveFitting | curve_fitting/fitting.py:19-89 | `curve_fitting` returns a fresh result whose fields are `FitSpec`, or `FitSpec`'s error |

## Left out

- The RMS objective and all numpy arithmetic in `fitness`. These are floating-point numerics; only the data merge of `fitness` is modelled (`FitnessContext`).
- Sympy. `sympify`, `lambdify` and `free_symbols` are a foreign library. The free symbols are an input, because their order depends on a set.
- The scipy and cma solvers. They are black-box parameters; the model states the arguments they receive and how their results are mapped.
- The cma option allow-list is a set parameter. It stands in for `cma.CMAOptions().keys()`.
- `n_jobs` parallel evaluation inside cma. This is concurrency inside the backend.
- The JSON, TOML, YAML and pickle encoders and decoders, file reads and writes, and `fromAny`'s extra `**kwargs`. These are I/O and foreign libraries. The loaders are partial functions, and `**kwargs` is folded into them.
- pydantic validation and coercion, the v1/v2 shims and the sha512 hash. These are foreign library behaviour.
  - Field values are stored as given, with no type coercion.
  - `Fitting.Labels` models a result whose `x` is not a list by the `TypeError` of subscripting. pydantic would usually have coerced it to a list first.
- `print`, `time.time()`, and the "Initial fitness" evaluation in the message `curve_fitting` prints before the run. These are I/O and time. The simplest effect is that a fitness evaluation that raises is not modelled as a failure of `curve_fitting`. The measured time is the parameter `elapsed`.
- The ndarray conversions of `xs` and `f`: values are passed through as they are.
- `PyCMAAdapter.BackendBounds`: models `.T` only for no bounds, a rectangular 2-D array, or a 1-D array, which `.T` leaves alone. Any other shape is passed on as it is.
- `PyCMAAdapter.BackendBounds`: lists, tuples and NumPy arrays are all one `ListV`. So a plain list passed as `bounds` straight to the CMA-ES optimizer is transposed, where Python's `.T` raises `AttributeError`. And the driver's `np.array` of per-key bounds of unequal lengths, which NumPy refuses, is passed on. The driver itself always passes an array.
- `AttrDict.Dict.GetAttr`: only the public `dict` methods shadow keys. The dunder attributes that `dict` and `object` define, such as `__class__` or `__len__`, are also found before `__getattr__`; the model treats them as keys.
- `OptimizerRegistry.FirstMatch`: the `ValueError` message is the fixed text "model is not registered", without the model's repr.
- `Optimizers.BindConstructor`: the `TypeError` messages of the argument binder are shortened to one text per cause, without the argument's name.
- `Optimizers.KindOf`: constructing a class from outside the package, or calling a registry entry that is neither a class, `None` nor a string, runs code the model cannot see. It is reduced to `UserCodeError`.
- `Optimizers.Inherits`: the `isinstance` relation is concrete only for the package's own classes. The registry itself takes it as a parameter.
- `Fitting.CurveFitting`: the `method` default `"PYCMA-CMAES"` is not modelled; the caller passes the name.
- `ScipyAdapter.ResultDefaults` and `PyCMAAdapter.ResultDefaults`: the contracts state the key sets and each default. They do not state that the base and subclass key sets are disjoint, although they are.
- The class-level `defaultOptions` is a function value (`Optimizers.DefaultOptions`), so construction cannot mutate it. The model states this by construction rather than as a lemma.
- `fitness.py`, `options.py` and the option annotations of each adapter are not modelled. They are abstract methods, annotations and re-exports with no logic to verify.
