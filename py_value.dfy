/**
 * The parsed YAML configuration as Python sees it: an abstract value tree,
 * Python truthiness, the `in` operator, and dict.setdefault.
 */
module PyValue {
  import opened Wrappers

  datatype Value =
    | Null
    | Bool(b: bool)
    | Int(i: int)
    | Float(x: real)
    | Str(s: string)
    | List(items: seq<Value>)
    | Dict(entries: map<string, Value>)

  /** Python's bool(v): None, False, zero, and empty containers are false. */
  predicate Truthy(v: Value)
  {
    match v
    case Null => false
    case Bool(b) => b
    case Int(i) => i != 0
    case Float(x) => x != 0.0
    case Str(s) => s != ""
    case List(items) => items != []
    case Dict(entries) => entries != map[]
  }

  /** isinstance(v, (int, float)); a bool is an int in Python. */
  predicate IsNumber(v: Value)
  {
    v.Int? || v.Float? || v.Bool?
  }

  predicate IsSubstring(k: string, s: string)
  {
    k <= s || (s != [] && IsSubstring(k, s[1..]))
  }

  /** The types on which `key in v` is defined. */
  predicate SupportsIn(v: Value)
  {
    v.Dict? || v.List? || v.Str?
  }

  /** `key in v`: a key of a dict, an element of a list, a substring of a
      string. On any other value Python raises a TypeError. */
  predicate PyIn(key: string, v: Value)
    requires SupportsIn(v)
  {
    match v
    case Dict(entries) => key in entries
    case List(items) => Str(key) in items
    case Str(s) => IsSubstring(key, s)
  }

  /** The keys of a default list, which lists each key once. */
  predicate DistinctKeys(defaults: seq<(string, Value)>)
  {
    forall i, j :: 0 <= i < j < |defaults| ==> defaults[i].0 != defaults[j].0
  }

  /** cfg.setdefault(name, {}) followed by cfg[name].setdefault(k, v) for
      each default in turn. A section that is present but not a dict has no
      setdefault: Python raises an AttributeError, here None. Otherwise the
      section keeps its entries, gains every missing default, and nothing
      else in cfg changes. */
  method DefaultSection(cfg: map<string, Value>, name: string, defaults: seq<(string, Value)>)
    returns (r: Option<map<string, Value>>)
    requires DistinctKeys(defaults)
    ensures r.Some? <==> name !in cfg || cfg[name].Dict?
    ensures r.Some? ==> Filled(cfg, r.value, name, defaults)
    ensures r.Some? ==> r.value == cfg[name := r.value[name]]
    ensures r.Some? ==> forall k :: k in r.value[name].entries ==>
              (name in cfg && k in cfg[name].entries) || exists j :: 0 <= j < |defaults| && defaults[j].0 == k
  {
    if name in cfg && !cfg[name].Dict? {
      return None;
    }
    var before: map<string, Value> := if name in cfg then cfg[name].entries else map[];
    var section := before;
    for i := 0 to |defaults|
      invariant forall k :: k in before ==> k in section && section[k] == before[k]
      invariant forall j :: 0 <= j < i ==> defaults[j].0 in section
      invariant forall j :: 0 <= j < i && defaults[j].0 !in before ==> section[defaults[j].0] == defaults[j].1
      invariant forall k :: k in section ==> k in before || exists j :: 0 <= j < i && defaults[j].0 == k
    {
      var (k, v) := defaults[i];
      if k !in section {
        section := section[k := v];
      }
    }
    return Some(cfg[name := Dict(section)]);
  }

  /** Section `name` of `after` is a dict that keeps every entry the section
      had in `before` and holds every default key, with the default value
      exactly where `before` had no entry, and no other key. */
  ghost predicate Filled(before: map<string, Value>, after: map<string, Value>, name: string, defaults: seq<(string, Value)>)
  {
    && name in after && after[name].Dict?
    && (name in before ==>
          && before[name].Dict?
          && forall k :: k in before[name].entries ==>
               k in after[name].entries && after[name].entries[k] == before[name].entries[k])
    && (forall i :: 0 <= i < |defaults| ==> defaults[i].0 in after[name].entries)
    && (forall i :: 0 <= i < |defaults| && (name !in before || defaults[i].0 !in before[name].entries) ==>
          after[name].entries[defaults[i].0] == defaults[i].1)
    && after[name].entries.Keys <= KeptKeys(before, name) + KeysOf(defaults)
  }

  /** The keys section `name` of `cfg` already holds: none when it is
      absent or not a dict. */
  function KeptKeys(cfg: map<string, Value>, name: string): set<string>
  {
    if name in cfg && cfg[name].Dict? then cfg[name].entries.Keys else {}
  }

  /** The keys a default list names. */
  function KeysOf(defaults: seq<(string, Value)>): (keys: set<string>)
    ensures forall k :: k in keys <==> exists i :: 0 <= i < |defaults| && defaults[i].0 == k
  {
    set i | 0 <= i < |defaults| :: defaults[i].0
  }

  /** Filled only looks at section `name` of both maps. */
  lemma FilledTransport(b1: map<string, Value>, a1: map<string, Value>, b2: map<string, Value>, a2: map<string, Value>,
                        name: string, defaults: seq<(string, Value)>)
    requires Filled(b1, a1, name, defaults)
    requires (name in b1 <==> name in b2) && (name in b1 ==> b1[name] == b2[name])
    requires name in a2 && a2[name] == a1[name]
    ensures Filled(b2, a2, name, defaults)
  {
  }

  /** `cfg.setdefault(name, {})` can be followed by a setdefault on the
      section: the section is absent or a dict. */
  predicate Defaultable(cfg: map<string, Value>, name: string)
  {
    name !in cfg || cfg[name].Dict?
  }

  /** A table of sections and their default lists, each section once. */
  predicate WellFormedTable(table: seq<(string, seq<(string, Value)>)>)
  {
    && (forall i, j :: 0 <= i < j < |table| ==> table[i].0 != table[j].0)
    && (forall i :: 0 <= i < |table| ==> DistinctKeys(table[i].1))
  }

  function NamesOf(table: seq<(string, seq<(string, Value)>)>, i: nat): (names: set<string>)
    requires i <= |table|
    ensures forall n :: n in names <==> exists j :: 0 <= j < i && table[j].0 == n
  {
    set j | 0 <= j < i :: table[j].0
  }

  /** before and after hold the same entries outside the given keys. */
  ghost predicate SameOutside(before: map<string, Value>, after: map<string, Value>, keys: set<string>)
  {
    forall k :: k !in keys ==> (k in before <==> k in after) && (k in before ==> after[k] == before[k])
  }

  /** Section `i` of the table could be defaulted in `current`, which
      agrees with `cfg` outside the earlier sections: it could in `cfg`
      too, and `next` agrees with `cfg` outside sections 0..i. */
  lemma DefaultStepOutside(cfg: map<string, Value>, current: map<string, Value>, next: map<string, Value>,
                           table: seq<(string, seq<(string, Value)>)>, i: nat)
    requires WellFormedTable(table) && i < |table|
    requires SameOutside(cfg, current, NamesOf(table, i))
    requires Defaultable(current, table[i].0)
    requires table[i].0 in next && next == current[table[i].0 := next[table[i].0]]
    ensures Defaultable(cfg, table[i].0)
    ensures SameOutside(cfg, next, NamesOf(table, i + 1))
  {
    assert table[i].0 !in NamesOf(table, i);
  }

  /** Filling section `i` keeps the earlier sections filled and fills
      section `i` as `cfg` had it. */
  lemma DefaultStepFilled(cfg: map<string, Value>, current: map<string, Value>, next: map<string, Value>,
                          table: seq<(string, seq<(string, Value)>)>, i: nat)
    requires WellFormedTable(table) && i < |table|
    requires forall j :: 0 <= j < i ==> Filled(cfg, current, table[j].0, table[j].1)
    requires SameOutside(cfg, current, NamesOf(table, i))
    requires Filled(current, next, table[i].0, table[i].1)
    requires next == current[table[i].0 := next[table[i].0]]
    ensures forall j :: 0 <= j < i + 1 ==> Filled(cfg, next, table[j].0, table[j].1)
  {
    assert table[i].0 !in NamesOf(table, i);
    FilledTransport(current, next, cfg, next, table[i].0, table[i].1);
    forall j | 0 <= j < i
      ensures Filled(cfg, next, table[j].0, table[j].1)
    {
      FilledTransport(cfg, current, cfg, next, table[j].0, table[j].1);
    }
  }

  /** A run of setdefault blocks, one per section of the table, in table
      order. The first section that is present but not a dict stops the
      run with an AttributeError, here Failure(name). Otherwise every
      section is filled and nothing outside the table changes. */
  method DefaultSections(cfg: map<string, Value>, table: seq<(string, seq<(string, Value)>)>)
    returns (r: Result<map<string, Value>, string>)
    requires WellFormedTable(table)
    ensures r.Success? <==> forall i :: 0 <= i < |table| ==> Defaultable(cfg, table[i].0)
    ensures r.Failure? ==> exists i :: 0 <= i < |table| && r.error == table[i].0 && !Defaultable(cfg, table[i].0) &&
                                       forall j :: 0 <= j < i ==> Defaultable(cfg, table[j].0)
    ensures r.Success? ==> forall i :: 0 <= i < |table| ==> Filled(cfg, r.value, table[i].0, table[i].1)
    ensures r.Success? ==> SameOutside(cfg, r.value, NamesOf(table, |table|))
  {
    var current := cfg;
    for i := 0 to |table|
      invariant forall j :: 0 <= j < i ==> Defaultable(cfg, table[j].0)
      invariant forall j :: 0 <= j < i ==> Filled(cfg, current, table[j].0, table[j].1)
      invariant SameOutside(cfg, current, NamesOf(table, i))
    {
      var name, defaults := table[i].0, table[i].1;
      var next := DefaultSection(current, name, defaults);
      if next.None? {
        return Failure(name);
      }
      DefaultStepOutside(cfg, current, next.value, table, i);
      DefaultStepFilled(cfg, current, next.value, table, i);
      current := next.value;
    }
    return Success(current);
  }
}
