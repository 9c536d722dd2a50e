/** The attribute-aliased dict used for optimizer options: attribute get, set
    and delete are key get, set and delete, and `repr` lists the entries one
    per line with the keys right-justified to a common width. */
module AttrDict {
  import opened PyValues

  // ---------------------------------------------------------------------
  // Python's string order: lexicographic by code point

  /** `a < b` on Python strings. */
  predicate Less(a: string, b: string)
    decreases |a|
  {
    if |a| == 0 then |b| > 0
    else if |b| == 0 then false
    else if a[0] != b[0] then a[0] < b[0]
    else Less(a[1..], b[1..])
  }

  lemma {:induction false} LessIrreflexive(a: string)
    ensures !Less(a, a)
    decreases |a|
  {
    if |a| > 0 {
      LessIrreflexive(a[1..]);
    }
  }

  lemma {:induction false} LessTransitive(a: string, b: string, c: string)
    requires Less(a, b) && Less(b, c)
    ensures Less(a, c)
    decreases |a|
  {
    if |a| > 0 && a[0] == b[0] && b[0] == c[0] {
      LessTransitive(a[1..], b[1..], c[1..]);
    }
  }

  lemma {:induction false} LessTotal(a: string, b: string)
    requires a != b
    ensures Less(a, b) || Less(b, a)
    decreases |a|
  {
    if |a| > 0 && |b| > 0 && a[0] == b[0] {
      assert a == [a[0]] + a[1..] && b == [b[0]] + b[1..];
      LessTotal(a[1..], b[1..]);
    }
  }

  lemma LessAsymmetric(a: string, b: string)
    requires Less(a, b)
    ensures !Less(b, a)
  {
    if Less(b, a) {
      LessTransitive(a, b, a);
      LessIrreflexive(a);
    }
  }

  /** `m` is the least element of `s`. */
  predicate IsLeast(m: string, s: set<string>) {
    m in s && forall k :: k in s && k != m ==> Less(m, k)
  }

  /** Every non-empty finite set of strings has a least element, and only one. */
  lemma {:induction false} LeastExists(s: set<string>)
    requires s != {}
    ensures exists m :: IsLeast(m, s)
    ensures forall m1, m2 :: IsLeast(m1, s) && IsLeast(m2, s) ==> m1 == m2
    decreases |s|
  {
    var x :| x in s;
    if s != {x} {
      var rest := s - {x};
      LeastExists(rest);
      var m :| IsLeast(m, rest);
      if Less(m, x) {
        forall k | k in s && k != m ensures Less(m, k) {
          if k == x { } else { assert k in rest; }
        }
        assert IsLeast(m, s);
      } else {
        LessTotal(m, x);
        forall k | k in s && k != x ensures Less(x, k) {
          if k != m { LessTransitive(x, m, k); }
        }
        assert IsLeast(x, s);
      }
    } else {
      assert IsLeast(x, s);
    }
    forall m1, m2 | IsLeast(m1, s) && IsLeast(m2, s) ensures m1 == m2 {
      if m1 != m2 {
        LessAsymmetric(m1, m2);
      }
    }
  }

  /** `sorted(keys)`: the keys of a dict in ascending order. */
  function SortedKeys(s: set<string>): (r: seq<string>)
    ensures |r| == |s|
    ensures forall k :: k in r <==> k in s
    ensures forall i :: 0 <= i < |r| ==> r[i] in s
    ensures forall i, j :: 0 <= i < j < |r| ==> Less(r[i], r[j])
    decreases |s|
  {
    if s == {} then []
    else
      LeastExists(s);
      var m :| IsLeast(m, s);
      var rest := SortedKeys(s - {m});
      [m] + rest
  }

  // ---------------------------------------------------------------------
  // The string operations `repr` uses

  /** `max(map(len, keys))` for a non-empty list of keys, 0 for none. */
  function MaxLen(keys: seq<string>): (n: nat)
    ensures forall i :: 0 <= i < |keys| ==> |keys[i]| <= n
    ensures |keys| > 0 ==> exists i :: 0 <= i < |keys| && |keys[i]| == n
    ensures |keys| == 0 ==> n == 0
  {
    if |keys| == 0 then 0
    else
      var rest := MaxLen(keys[1..]);
      assert forall i :: 1 <= i < |keys| ==> keys[i] == keys[1..][i - 1];
      if |keys[0]| >= rest then |keys[0]| else rest
  }

  /** `s.rjust(width)`: `s` padded on the left with spaces to `width`. */
  function RJust(s: string, width: int): (r: string)
    ensures |r| == if width > |s| then width else |s|
    ensures r[|r| - |s|..] == s
    ensures forall i :: 0 <= i < |r| - |s| ==> r[i] == ' '
  {
    if width > |s| then seq(width - |s|, _ => ' ') + s else s
  }

  /** `sep.join(lines)` for a one-character separator. */
  function Join(lines: seq<string>, sep: char): (r: string)
    ensures |lines| == 1 ==> r == lines[0]
    decreases |lines|
  {
    if |lines| == 0 then ""
    else if |lines| == 1 then lines[0]
    else lines[0] + [sep] + Join(lines[1..], sep)
  }

  /** `s.split(sep)` for a one-character separator. */
  function Split(s: string, sep: char): (r: seq<string>)
    ensures |r| >= 1
    decreases |s|
  {
    if |s| == 0 then [""]
    else if s[0] == sep then [""] + Split(s[1..], sep)
    else
      var rest := Split(s[1..], sep);
      [[s[0]] + rest[0]] + rest[1..]
  }

  /** Splitting a piece that holds no separator gives the piece back. */
  lemma {:induction false} SplitPlain(w: string, sep: char)
    requires sep !in w
    ensures Split(w, sep) == [w]
    decreases |w|
  {
    if |w| > 0 {
      SplitPlain(w[1..], sep);
      assert [w[0]] + w[1..] == w;
    }
  }

  /** Splitting at the first separator peels off the piece before it. */
  lemma {:induction false} SplitFirst(w: string, sep: char, t: string)
    requires sep !in w
    ensures Split(w + [sep] + t, sep) == [w] + Split(t, sep)
    decreases |w|
  {
    if |w| == 0 {
      assert w + [sep] + t == [sep] + t;
      assert ([sep] + t)[1..] == t;
    } else {
      var s := w + [sep] + t;
      assert s[0] == w[0] && s[1..] == w[1..] + [sep] + t;
      SplitFirst(w[1..], sep, t);
      assert [w[0]] + w[1..] == w;
    }
  }

  /** `s.split(sep)` undoes `sep.join(lines)` when no line holds the separator. */
  lemma {:induction false} SplitJoin(lines: seq<string>, sep: char)
    requires |lines| >= 1
    requires forall i :: 0 <= i < |lines| ==> sep !in lines[i]
    ensures Split(Join(lines, sep), sep) == lines
    decreases |lines|
  {
    if |lines| == 1 {
      SplitPlain(lines[0], sep);
    } else {
      SplitJoin(lines[1..], sep);
      SplitFirst(lines[0], sep, Join(lines[1..], sep));
      assert [lines[0]] + lines[1..] == lines;
    }
  }

  /** The last character of a join is the last character of its last line. */
  lemma {:induction false} JoinLast(lines: seq<string>, sep: char)
    requires |lines| >= 1 && |lines[|lines| - 1]| > 0
    ensures |Join(lines, sep)| > 0
    ensures Join(lines, sep)[|Join(lines, sep)| - 1] == lines[|lines| - 1][|lines[|lines| - 1]| - 1]
    decreases |lines|
  {
    if |lines| > 1 {
      JoinLast(lines[1..], sep);
    }
  }

  // ---------------------------------------------------------------------
  // The formatter behind `Dict.__repr__`

  /** The width every key is right-justified to: the longest key plus one. */
  function Width(items: map<string, Value>): (w: nat)
    ensures forall k :: k in items ==> |k| < w
    ensures items != map[] ==> exists k :: k in items && |k| + 1 == w
  {
    var keys := SortedKeys(items.Keys);
    var w := MaxLen(keys) + 1;
    assert items != map[] ==> exists i :: 0 <= i < |keys| && |keys[i]| + 1 == w;
    w
  }

  /** One line per key, in sorted key order: the key right-justified to
      `width`, then `": "`, then the value's repr. */
  function Lines(keys: seq<string>, width: nat, items: map<string, Value>, repr: Value -> string): (lines: seq<string>)
    requires forall k :: k in keys ==> k in items && |k| < width
    ensures |lines| == |keys|
    ensures forall i :: 0 <= i < |keys| ==>
      && |lines[i]| == width + 2 + |repr(items[keys[i]])|
      && lines[i][width - |keys[i]|..width] == keys[i]
      && (forall c :: 0 <= c < width - |keys[i]| ==> lines[i][c] == ' ')
      && lines[i][width..width + 2] == ": "
      && lines[i][width + 2..] == repr(items[keys[i]])
  {
    seq(|keys|, i requires 0 <= i < |keys| => RJust(keys[i], width) + ": " + repr(items[keys[i]]))
  }

  /** `Dict.__repr__` of a dict holding `items` whose class is `className`. */
  function Format(className: string, items: map<string, Value>, repr: Value -> string): (s: string)
    ensures items == map[] ==> s == className + "()"
  {
    if items == map[] then className + "()"
    else
      var keys := SortedKeys(items.Keys);
      Join(Lines(keys, Width(items), items, repr), '\n')
  }

  /** The repr of a non-empty dict whose keys and value reprs hold no newline
      splits back into exactly one line per key, in sorted key order, and does
      not end in a newline. */
  lemma FormatOneLinePerKey(className: string, items: map<string, Value>, repr: Value -> string)
    requires items != map[]
    requires forall k :: k in items ==> '\n' !in k && '\n' !in repr(items[k])
    ensures var keys := SortedKeys(items.Keys);
      var lines := Split(Format(className, items, repr), '\n');
      && |lines| == |items|
      && lines == Lines(keys, Width(items), items, repr)
      && Format(className, items, repr)[|Format(className, items, repr)| - 1] != '\n'
  {
    var keys := SortedKeys(items.Keys);
    var w := Width(items);
    var lines := Lines(keys, w, items, repr);
    assert |keys| >= 1 by {
      var k :| k in items;
      assert k in keys;
    }
    forall i | 0 <= i < |lines| ensures '\n' !in lines[i] {
      NoNewlineInLine(keys[i], w, repr(items[keys[i]]));
    }
    SplitJoin(lines, '\n');
    JoinLast(lines, '\n');
  }

  /** A line built from a key and a repr without newlines has none. */
  lemma NoNewlineInLine(key: string, width: nat, r: string)
    requires '\n' !in key && '\n' !in r
    ensures '\n' !in RJust(key, width) + ": " + r
  {
  }

  // ---------------------------------------------------------------------

  /** The public methods every `dict` has, which attribute access finds
      before it falls back to the keys. */
  const DictMethodNames: set<string> :=
    {"clear", "copy", "fromkeys", "get", "items", "keys", "pop", "popitem", "setdefault", "update", "values"}

  /** `Dict`, a dict whose attributes are its keys. `className` is the name of
      the concrete subclass that `repr` shows for an empty dict. */
  class Dict {
    const className: string
    var items: map<string, Value>

    /** `ClassName(initial)`: a fresh dict holding a copy of `initial`. */
    constructor (className: string, initial: map<string, Value>)
      ensures this.className == className && items == initial
    {
      this.className := className;
      items := initial;
    }

    /** `key in d` */
    function Contains(key: string): (b: bool)
      reads this
      ensures b <==> key in items
    {
      key in items
    }

    /** `d.name`: Python consults `__getattr__` only when ordinary lookup
        fails, so a method of `dict` is found first, as a bound method known
        by its name, whatever is stored under that key. Any other name gives
        the value under key `name`, and a missing key raises `KeyError`, not
        `AttributeError`. */
    function GetAttr(name: string): (r: Result<Value>)
      reads this
      ensures name in DictMethodNames ==> r == Ok(FuncV(name))
      ensures name !in DictMethodNames ==> (r.Ok? <==> name in items)
      ensures name !in DictMethodNames && r.Ok? ==> r.value == items[name]
      ensures name !in DictMethodNames && r.Err? ==> r.error == KeyError(name)
    {
      if name in DictMethodNames then Ok(FuncV(name))
      else if name in items then Ok(items[name]) else Err(KeyError(name))
    }

    /** `d[key] = value` */
    method SetItem(key: string, value: Value)
      modifies this
      ensures items == old(items)[key := value]
    {
      items := items[key := value];
    }

    /** `d.name = value`: the same as `d[name] = value`. */
    method SetAttr(name: string, value: Value)
      modifies this
      ensures items == old(items)[name := value]
      ensures name in items && items[name] == value
      ensures forall k :: k != name ==> (k in items <==> k in old(items))
      ensures forall k :: k in items && k != name ==> items[k] == old(items)[k]
    {
      SetItem(name, value);
    }

    /** `del d.name`: removes exactly key `name`, or raises `KeyError`. */
    method DelAttr(name: string) returns (o: Outcome)
      modifies this
      ensures name in old(items) ==> o == Pass && items == old(items) - {name}
      ensures name !in old(items) ==> o == Fail(KeyError(name)) && items == old(items)
    {
      if name !in items {
        return Fail(KeyError(name));
      }
      items := items - {name};
      return Pass;
    }

    /** `d.pop(key)` when `default` is `None`, `d.pop(key, default)` otherwise. */
    method Pop(key: string, default: Option<Value>) returns (r: Result<Value>)
      modifies this
      ensures key in old(items) ==> r == Ok(old(items)[key]) && items == old(items) - {key}
      ensures key !in old(items) && default.Some? ==> r == Ok(default.value) && items == old(items)
      ensures key !in old(items) && default.None? ==> r == Err(KeyError(key)) && items == old(items)
    {
      if key in items {
        r := Ok(items[key]);
        items := items - {key};
      } else if default.Some? {
        r := Ok(default.value);
      } else {
        r := Err(KeyError(key));
      }
    }

    /** `d.update(other)`: later values replace earlier ones. */
    method Update(other: map<string, Value>)
      modifies this
      ensures items == old(items) + other
    {
      items := items + other;
    }

    /** `repr(d)`, with the repr of each value given by `repr`. */
    function Repr(repr: Value -> string): (s: string)
      reads this
      ensures items == map[] ==> s == className + "()"
      ensures items != map[] ==> s == Join(Lines(SortedKeys(items.Keys), Width(items), items, repr), '\n')
    {
      Format(className, items, repr)
    }
  }
}
