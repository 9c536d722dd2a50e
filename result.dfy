/** The result model: a record of fields with class-level defaults, its
    `update` merge, and the `fromAny` dispatch over the serialisation
    loaders. */
module Results {
  import opened PyValues

  /** The declared fields of `OptimizerResult` and their defaults. */
  function BaseDefaults(): (d: map<string, Value>)
    ensures d.Keys == {"x", "stds", "fun", "nfev", "nit", "parameters", "optimizeKeys", "duration", "fitness", "weights"}
    ensures d["x"] == ListV([]) && d["stds"] == ListV([]) && d["optimizeKeys"] == ListV([])
    ensures d["parameters"] == MapV(map[]) && d["fitness"] == MapV(map[]) && d["weights"] == MapV(map[])
    ensures d["fun"] == RealV(0.0) && d["duration"] == RealV(0.0)
    ensures d["nfev"] == IntV(0) && d["nit"] == IntV(0)
  {
    map[
      "x" := ListV([]),
      "stds" := ListV([]),
      "fun" := RealV(0.0),
      "nfev" := IntV(0),
      "nit" := IntV(0),
      "parameters" := MapV(map[]),
      "optimizeKeys" := ListV([]),
      "duration" := RealV(0.0),
      "fitness" := MapV(map[]),
      "weights" := MapV(map[])
    ]
  }

  // ---------------------------------------------------------------------
  // update

  /** `data or {}` */
  function DataOrEmpty(data: Option<map<string, Value>>): (d: map<string, Value>)
    ensures data.Some? ==> d == data.value
    ensures data.None? ==> d == map[]
  {
    if data.Some? then data.value else map[]
  }

  /** The fields written back by `update`: the merged values that differ from
      their field's default (a key without a default is always written). */
  function NonDefault(merged: map<string, Value>, defaults: map<string, Value>): (w: map<string, Value>)
    ensures forall k :: k in w <==> k in merged && (k !in defaults || merged[k] != defaults[k])
    ensures forall k :: k in w ==> w[k] == merged[k]
  {
    map k | k in merged && (k !in defaults || merged[k] != defaults[k]) :: merged[k]
  }

  /** The fields after `update(data, **kwargs)` on a model holding `fields`
      whose class defaults are `defaults`. */
  function UpdatedFields(fields: map<string, Value>, defaults: map<string, Value>,
                         data: Option<map<string, Value>>, kwargs: map<string, Value>): (r: map<string, Value>)
    // keys: the old ones plus those given (every declared field already has a value)
    ensures defaults.Keys <= fields.Keys ==> r.Keys == fields.Keys + DataOrEmpty(data).Keys + kwargs.Keys
    // a keyword argument wins over `data`, when it is not the field's default
    ensures forall k :: k in kwargs && (k !in defaults || kwargs[k] != defaults[k]) ==> k in r && r[k] == kwargs[k]
    // `data` wins over the current value, when it is not the field's default
    ensures forall k :: k in DataOrEmpty(data) && k !in kwargs && (k !in defaults || DataOrEmpty(data)[k] != defaults[k]) ==>
      k in r && r[k] == DataOrEmpty(data)[k]
    // a field that is given no new value keeps its value
    ensures forall k :: k in fields && k !in DataOrEmpty(data) && k !in kwargs ==> k in r && r[k] == fields[k]
    // a field given its default keeps its current value: update cannot reset a field
    ensures forall k :: k in fields && k in defaults && (fields + DataOrEmpty(data) + kwargs)[k] == defaults[k] ==>
      k in r && r[k] == fields[k]
    // hence a field that is not at its default stays off its default
    ensures forall k :: k in fields && k in defaults && fields[k] != defaults[k] ==> r[k] != defaults[k]
  {
    var merged := fields + DataOrEmpty(data) + kwargs;
    fields + NonDefault(merged, defaults)
  }

  /** An instance of `OptimizerResult` or of one of its subclasses: `defaults`
      are the declared fields of that class with their defaults; `fields`
      holds every declared field and any extra field. */
  class OptimizerResult {
    const defaults: map<string, Value>
    var fields: map<string, Value>

    ghost predicate Valid()
      reads this
    {
      defaults.Keys <= fields.Keys
    }

    /** `Model(**given)`: declared fields not given take their defaults; extra
        fields are allowed. */
    constructor (defaults: map<string, Value>, given: map<string, Value>)
      ensures Valid()
      ensures this.defaults == defaults && fields == defaults + given
    {
      this.defaults := defaults;
      fields := defaults + given;
    }

    /** `self.name = value` */
    method SetField(name: string, value: Value)
      requires Valid()
      modifies this
      ensures Valid()
      ensures fields == old(fields)[name := value]
    {
      fields := fields[name := value];
    }

    /** `update(data, **kwargs)`: returns the model itself. */
    method Update(data: Option<map<string, Value>>, kwargs: map<string, Value>) returns (self: OptimizerResult)
      requires Valid()
      modifies this
      ensures Valid()
      ensures self == this
      ensures fields == UpdatedFields(old(fields), defaults, data, kwargs)
    {
      var merged := fields + DataOrEmpty(data) + kwargs;
      var written := NonDefault(merged, defaults);
      fields := fields + written;
      return this;
    }
  }

  /** The quirk for the solution: passing `x=[]`, the field's default, never
      changes `x`, whatever `x` was and whatever `data` holds. */
  lemma UpdateCannotReset(fields: map<string, Value>, data: Option<map<string, Value>>, kwargs: map<string, Value>)
    requires BaseDefaults().Keys <= fields.Keys
    requires "x" in kwargs && kwargs["x"] == ListV([])
    ensures "x" in UpdatedFields(fields, BaseDefaults(), data, kwargs)
    ensures UpdatedFields(fields, BaseDefaults(), data, kwargs)["x"] == fields["x"]
  {
  }

  // ---------------------------------------------------------------------
  // fromAny

  /** The serialisation formats. */
  datatype Format = Json | Toml | Yaml | Pickle

  /** The `text` argument of `fromAny`: a `str` or `bytes`. */
  datatype Text = Str(s: string) | Bytes(b: seq<bv8>)

  /** The loaders `fromAny` dispatches to, as partial functions:
      `fromDict(data)`, `fromJson/fromToml/fromYaml(string=s)`,
      `fromBytes(binary=b)` and the `path=` form of each. */
  datatype Loaders<M> = Loaders(
    fromDict: map<string, Value> -> Result<M>,
    fromString: (Format, string) -> Result<M>,
    fromBinary: seq<bv8> -> Result<M>,
    fromPath: (Format, string) -> Result<M>)

  /** `s.endswith(suffix)` */
  predicate EndsWith(s: string, suffix: string) {
    |suffix| <= |s| && s[|s| - |suffix|..] == suffix
  }

  /** The file extensions each format is recognised by. */
  function Extensions(f: Format): (exts: seq<string>)
    ensures |exts| >= 1
  {
    match f
    case Json => [".json"]
    case Toml => [".toml"]
    case Yaml => [".yml", ".yaml"]
    case Pickle => [".pkl", ".pickle"]
  }

  /** The format a path is routed to by its extension, checked in the order
      JSON, TOML, YAML, pickle. */
  function PathFormat(path: string): (f: Option<Format>)
  {
    if EndsWith(path, ".json") then Some(Json)
    else if EndsWith(path, ".toml") then Some(Toml)
    else if EndsWith(path, ".yml") || EndsWith(path, ".yaml") then Some(Yaml)
    else if EndsWith(path, ".pkl") || EndsWith(path, ".pickle") then Some(Pickle)
    else None
  }

  /** A path that ends with `e1` does not end with an `e2` that differs from
      `e1` in the `j`-th character from the end. */
  lemma NotBoth(path: string, e1: string, e2: string, j: nat)
    requires EndsWith(path, e1) && 1 <= j <= |e1| && j <= |e2| && e1[|e1| - j] != e2[|e2| - j]
    ensures !EndsWith(path, e2)
  {
    assert path[|path| - |e1|..][|e1| - j] == path[|path| - j];
  }

  /** A path is routed to the format of any extension it ends with: no path
      ends with extensions of two formats, so the order of the tests does not
      matter. */
  lemma PathFormatComplete(path: string, e: string, f: Format)
    requires e in Extensions(f) && EndsWith(path, e)
    ensures PathFormat(path) == Some(f)
  {
    match f
    case Json =>
    case Toml =>
      NotBoth(path, e, ".json", 1);
    case Yaml =>
      NotBoth(path, e, ".json", 1);
      NotBoth(path, e, ".toml", 3);
    case Pickle =>
      var j := if e == ".pkl" then 2 else 1;
      NotBoth(path, e, ".json", 1);
      NotBoth(path, e, ".toml", j);
      NotBoth(path, e, ".yml", j);
      NotBoth(path, e, ".yaml", j);
  }

  /** A path is routed to a format exactly when it ends with one of that
      format's extensions. */
  lemma PathFormatByExtension(path: string, f: Format)
    ensures PathFormat(path) == Some(f) <==> exists e :: e in Extensions(f) && EndsWith(path, e)
  {
    forall e | e in Extensions(f) && EndsWith(path, e)
      ensures PathFormat(path) == Some(f)
    {
      PathFormatComplete(path, e, f);
    }
    if PathFormat(path) == Some(f) {
      var e := PathWitness(path, f);
    }
  }

  /** The extension a routed path ends with. */
  lemma PathWitness(path: string, f: Format) returns (e: string)
    requires PathFormat(path) == Some(f)
    ensures e in Extensions(f) && EndsWith(path, e)
  {
    match f
    case Json => e := ".json";
    case Toml => e := ".toml";
    case Yaml => e := if EndsWith(path, ".yml") then ".yml" else ".yaml";
    case Pickle => e := if EndsWith(path, ".pkl") then ".pkl" else ".pickle";
  }

  /** The `str` branch of `fromAny`: JSON, then TOML, then YAML; only a JSON
      decode error falls back from JSON, any failure falls back from TOML. */
  function FromText<M>(loaders: Loaders<M>, s: string): (r: Result<M>)
    // a JSON result, or any error other than a decode error, is final
    ensures loaders.fromString(Json, s) != Err(JSONDecodeError) ==> r == loaders.fromString(Json, s)
    // after a JSON decode error, the first of TOML and YAML that loads wins
    ensures loaders.fromString(Json, s) == Err(JSONDecodeError) ==>
      if loaders.fromString(Toml, s).Ok? then r == loaders.fromString(Toml, s)
      else if loaders.fromString(Yaml, s).Ok? then r == loaders.fromString(Yaml, s)
      else r == Err(ValueError("Could not decode the text string as json, toml, or yaml."))
    // a JSON decode error never escapes
    ensures r != Err(JSONDecodeError)
  {
    match loaders.fromString(Json, s)
    case Ok(m) => Ok(m)
    case Err(JSONDecodeError) =>
      if loaders.fromString(Toml, s).Ok? then loaders.fromString(Toml, s)
      else if loaders.fromString(Yaml, s).Ok? then loaders.fromString(Yaml, s)
      else Err(ValueError("Could not decode the text string as json, toml, or yaml."))
    case Err(e) => Err(e)
  }

  /** `fromAny(data=..., text=..., path=...)`: `data` beats `text`, which
      beats `path`. */
  function FromAny<M>(loaders: Loaders<M>, data: Option<map<string, Value>>, text: Option<Text>,
                      path: Option<string>): (r: Result<M>)
    ensures data.Some? ==> r == loaders.fromDict(data.value)
    ensures data.None? && text.Some? && text.value.Str? ==> r == FromText(loaders, text.value.s)
    ensures data.None? && text.Some? && text.value.Bytes? ==> r == loaders.fromBinary(text.value.b)
    ensures data.None? && text.None? && path.Some? ==>
      if PathFormat(path.value).Some? then r == loaders.fromPath(PathFormat(path.value).value, path.value)
      else r == Err(ValueError("Could not determine the file format from the path."))
    ensures data.None? && text.None? && path.None? ==>
      r == Err(ValueError("Either a dictionary, text string, or path must be provided."))
  {
    if data.Some? then loaders.fromDict(data.value)
    else if text.Some? then
      match text.value
      case Str(s) => FromText(loaders, s)
      case Bytes(b) => loaders.fromBinary(b)
    else if path.Some? then
      match PathFormat(path.value)
      case Some(f) => loaders.fromPath(f, path.value)
      case None => Err(ValueError("Could not determine the file format from the path."))
    else Err(ValueError("Either a dictionary, text string, or path must be provided."))
  }
}
