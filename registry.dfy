/** The optimizer registry: a mutable, insertion-ordered map from names to
    classes, the `register` call in its three forms, and the reverse lookup
    from an instance to the first name its class belongs to. */
module OptimizerRegistry {
  import opened PyValues

  /** A class, known by identity. The package's own optimizer classes are
      named; any other class is a `UserClass`. */
  datatype ClassId =
    | OptimizerBaseClass
    | ScipyOptimizerClass
    | LBFGSBClass
    | NelderMeadClass
    | PowellClass
    | TNCClass
    | PYCMAClass
    | UserClass(id: nat)

  /** An object handed to `register` in first position, or stored in a
      registry: nothing, a class, a string, or anything else. */
  datatype PyObj = PyNone | PyType(cls: ClassId) | PyStr(s: string) | PyOther(id: nat)

  /** `isinstance(model, entry)` for an instance whose class is `model`, where
      `subclass(c, d)` says that class `c` is `d` or derives from it. A second
      argument that is not a class makes `isinstance` raise. */
  function IsInstance(model: ClassId, entry: PyObj, subclass: (ClassId, ClassId) -> bool): (r: Result<bool>)
    ensures r.Ok? <==> entry.PyType?
    ensures r.Ok? ==> r.value == subclass(model, entry.cls)
  {
    match entry
    case PyType(c) => Ok(subclass(model, c))
    case _ => Err(TypeError("isinstance() arg 2 must be a type"))
  }

  /** Every entry before index `i` is a class that `model` is not an instance of. */
  ghost predicate NoMatchBefore(names: seq<string>, table: map<string, PyObj>, model: ClassId,
                                subclass: (ClassId, ClassId) -> bool, i: int)
    requires forall n :: n in names ==> n in table
    requires 0 <= i <= |names|
  {
    forall j :: 0 <= j < i ==> table[names[j]].PyType? && !subclass(model, table[names[j]].cls)
  }

  /** The entry at index `i` is a class that `model` is an instance of. */
  ghost predicate MatchesAt(names: seq<string>, table: map<string, PyObj>, model: ClassId,
                            subclass: (ClassId, ClassId) -> bool, i: int)
    requires forall n :: n in names ==> n in table
    requires 0 <= i < |names|
  {
    table[names[i]].PyType? && subclass(model, table[names[i]].cls)
  }

  /** Specification of `Registry.getName`: scan the names in insertion order
      and return the first whose class `model` belongs to. */
  function FirstMatch(names: seq<string>, table: map<string, PyObj>, model: ClassId,
                      subclass: (ClassId, ClassId) -> bool): (r: Result<string>)
    requires forall n :: n in names ==> n in table
    ensures r.Ok? <==> exists i :: 0 <= i < |names| && MatchesAt(names, table, model, subclass, i)
                                                  && NoMatchBefore(names, table, model, subclass, i)
    ensures r.Ok? ==> exists i :: 0 <= i < |names| && names[i] == r.value
                                && MatchesAt(names, table, model, subclass, i)
                                && NoMatchBefore(names, table, model, subclass, i)
    ensures r == Err(ValueError("model is not registered")) <==> NoMatchBefore(names, table, model, subclass, |names|)
    ensures r.Err? ==> r.error == ValueError("model is not registered") || r.error == TypeError("isinstance() arg 2 must be a type")
    ensures r.Err? && r.error.TypeError? <==> exists i :: 0 <= i < |names| && !table[names[i]].PyType?
                                                       && NoMatchBefore(names, table, model, subclass, i)
    decreases |names|
  {
    if |names| == 0 then Err(ValueError("model is not registered"))
    else
      var rest := FirstMatch(names[1..], table, model, subclass);
      ShiftNoMatch(names, table, model, subclass);
      match IsInstance(model, table[names[0]], subclass)
      case Err(e) => Err(e)
      case Ok(true) =>
        assert MatchesAt(names, table, model, subclass, 0) && NoMatchBefore(names, table, model, subclass, 0);
        Ok(names[0])
      case Ok(false) => rest
  }

  /** Dropping a non-matching head shifts every "no match before" index by one. */
  lemma ShiftNoMatch(names: seq<string>, table: map<string, PyObj>, model: ClassId,
                     subclass: (ClassId, ClassId) -> bool)
    requires forall n :: n in names ==> n in table
    requires |names| > 0
    ensures table[names[0]].PyType? && !subclass(model, table[names[0]].cls) ==>
      forall i :: 0 <= i < |names| ==>
        (NoMatchBefore(names[1..], table, model, subclass, i) <==> NoMatchBefore(names, table, model, subclass, i + 1))
    ensures forall i :: 0 <= i < |names| - 1 ==>
      (MatchesAt(names[1..], table, model, subclass, i) <==> MatchesAt(names, table, model, subclass, i + 1))
    ensures forall i :: 0 <= i < |names| - 1 ==> names[1..][i] == names[i + 1]
  {
  }

  /** The position a key takes in a dict's insertion order after `d[key] = v`:
      an existing key keeps its place, a new key goes last. */
  function Inserted(names: seq<string>, key: string): (r: seq<string>)
    ensures key in r
    ensures forall n :: n in r <==> n in names || n == key
    ensures Distinct(names) ==> Distinct(r)
    ensures key in names ==> r == names
    ensures key !in names ==> r == names + [key]
  {
    if key in names then names else names + [key]
  }

  /** A registry: a dict from names to classes, with its insertion order. */
  class Registry {
    var names: seq<string>
    var table: map<string, PyObj>

    ghost predicate Valid()
      reads this
    {
      Distinct(names) && forall n :: n in table <==> n in names
    }

    constructor ()
      ensures Valid() && names == [] && table == map[]
    {
      names, table := [], map[];
    }

    /** `registry[name]` */
    function GetItem(name: string): (r: Result<PyObj>)
      reads this
      ensures r.Ok? <==> name in table
      ensures r.Ok? ==> r.value == table[name]
      ensures r.Err? ==> r.error == KeyError(name)
    {
      if name in table then Ok(table[name]) else Err(KeyError(name))
    }

    /** `registry[name] = obj` */
    method SetItem(name: string, obj: PyObj)
      requires Valid()
      modifies this
      ensures Valid()
      ensures table == old(table)[name := obj]
      ensures names == Inserted(old(names), name)
    {
      names := Inserted(names, name);
      table := table[name := obj];
    }

    /** `Registry.getName(model)`: the loop over the entries with early return. */
    method GetName(model: ClassId, subclass: (ClassId, ClassId) -> bool) returns (r: Result<string>)
      requires Valid()
      ensures r == FirstMatch(names, table, model, subclass)
    {
      var i := 0;
      while i < |names|
        invariant 0 <= i <= |names|
        invariant FirstMatch(names, table, model, subclass) == FirstMatch(names[i..], table, model, subclass)
      {
        var entry := table[names[i]];
        assert names[i..][1..] == names[i + 1..];
        if !entry.PyType? {
          return Err(TypeError("isinstance() arg 2 must be a type"));
        }
        if subclass(model, entry.cls) {
          return Ok(names[i]);
        }
        i := i + 1;
      }
      return Err(ValueError("model is not registered"));
    }
  }

  /** What `register` returns: the stored class, or a decorator that will
      register its argument under `name` in `target`. */
  datatype Registered = Stored(obj: PyObj) | Decorator(name: string, target: Registry)

  /** The argument normalisation of `register`: the class to store (or
      `PyNone` when a decorator is wanted) and the name to store it under. */
  function Normalise(clsOrName: PyObj, name: Option<string>): (r: Result<(PyObj, string)>)
    // an explicit name leaves the first argument as it is
    ensures name.Some? ==> r == Ok((clsOrName, name.value))
    // a string in first position with no name is the name
    ensures name.None? && clsOrName.PyStr? ==> r == Ok((PyNone, clsOrName.s))
    // a first argument that is neither a class nor a string, with no name
    ensures name.None? && clsOrName.PyOther? ==> r == Err(AssertionError("name of the model must be a string"))
    // no name at all
    ensures name.None? && (clsOrName.PyNone? || clsOrName.PyType?) ==> r == Err(AssertionError("name of the model is required"))
  {
    var (cls, nm) :=
      if clsOrName != PyNone && !clsOrName.PyType? && name.None? then
        (if clsOrName.PyStr? then (PyNone, Some(clsOrName.s)) else (clsOrName, None))
      else (clsOrName, name);
    if clsOrName.PyOther? && name.None? then Err(AssertionError("name of the model must be a string"))
    else if nm.None? then Err(AssertionError("name of the model is required"))
    else Ok((cls, nm.value))
  }

  /** `saveto if saveto is not None else registry` */
  function TargetOf(saveto: Registry?, global: Registry): (t: Registry)
    ensures saveto != null ==> t == saveto
    ensures saveto == null ==> t == global
  {
    if saveto != null then saveto else global
  }

  /** `register(cls_or_name, name, saveto=saveto)`, where `global` is the
      module-level registry. */
  method Register(clsOrName: PyObj, name: Option<string>, saveto: Registry?, global: Registry)
    returns (r: Result<Registered>)
    requires TargetOf(saveto, global).Valid()
    modifies TargetOf(saveto, global)
    ensures TargetOf(saveto, global).Valid()
    ensures Normalise(clsOrName, name).Err? ==>
      r == Err(Normalise(clsOrName, name).error) && unchanged(TargetOf(saveto, global))
    ensures Normalise(clsOrName, name).Ok? && Normalise(clsOrName, name).value.0 == PyNone ==>
      r == Ok(Decorator(Normalise(clsOrName, name).value.1, TargetOf(saveto, global)))
      && unchanged(TargetOf(saveto, global))
    ensures Normalise(clsOrName, name).Ok? && Normalise(clsOrName, name).value.0 != PyNone ==>
      var (cls, n) := Normalise(clsOrName, name).value;
      var t := TargetOf(saveto, global);
      && r == Ok(Stored(cls))
      && t.table == old(t.table)[n := cls]
      && t.names == Inserted(old(t.names), n)
  {
    var target := TargetOf(saveto, global);
    var normal := Normalise(clsOrName, name);
    if normal.Err? {
      return Err(normal.error);
    }
    var (cls, n) := normal.value;
    if cls != PyNone {
      target.SetItem(n, cls);
      var stored := target.GetItem(n);
      return Ok(Stored(stored.value));
    }
    return Ok(Decorator(n, target));
  }

  /** Calling the decorator that `register` returned, on `x`. */
  method ApplyDecorator(dec: Registered, x: PyObj) returns (r: Result<Registered>)
    requires dec.Decorator? && dec.target.Valid()
    modifies dec.target
    ensures dec.target.Valid()
    ensures x == PyNone ==> r == Ok(dec) && unchanged(dec.target)
    ensures x != PyNone ==>
      && r == Ok(Stored(x))
      && dec.target.table == old(dec.target.table)[dec.name := x]
      && dec.target.names == Inserted(old(dec.target.names), dec.name)
  {
    r := Register(x, Some(dec.name), dec.target, dec.target);
  }
}
