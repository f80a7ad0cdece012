/**
 * The typed key/value configuration store (esp::core::Configuration).
 *
 * Under every key the store keeps an ordered, non-empty sequence of tagged
 * values. A scalar entry is a key holding one value; a group is a key holding
 * several. `set` writes and `get` reads the value at index 0, `addStringToGroup`
 * appends, and `removeValue` drops the value at index 0.
 */
module Core {
  import opened Geometry

  /** The C++ `int` accepted by `setInt`. */
  newtype Int32 = x: int | -0x8000_0000 <= x < 0x8000_0000

  /** One stored value, tagged with its type. */
  datatype Value =
    | BoolValue(b: bool)
    | IntValue(i: Int32)
    | FloatValue(f: Float32)
    | DoubleValue(d: Float64)
    | StringValue(s: string)
    | Vec3Value(v: Vec3)
    | QuatValue(q: Quat)

  /** The type tags, one per typed `get` of the store. */
  datatype Kind = BoolKind | IntKind | FloatKind | DoubleKind | StringKind | Vec3Kind | QuatKind

  function KindOf(v: Value): Kind {
    match v
    case BoolValue(_) => BoolKind
    case IntValue(_) => IntKind
    case FloatValue(_) => FloatKind
    case DoubleValue(_) => DoubleKind
    case StringValue(_) => StringKind
    case Vec3Value(_) => Vec3Kind
    case QuatValue(_) => QuatKind
  }

  /** The abstract content of a store: the values under each key, in order. */
  type Store = map<string, seq<Value>>

  /** A key is present exactly when it holds at least one value. */
  ghost predicate WellFormed(m: Store) {
    forall key | key in m :: m[key] != []
  }

  /** The values under `key`; an absent key holds none. */
  function ValuesAt(m: Store, key: string): seq<Value> {
    if key in m then m[key] else []
  }

  /** The number of values under `key` (Corrade's `valueCount`). */
  function ValueCount(m: Store, key: string): nat {
    |ValuesAt(m, key)|
  }

  /** The store after `set(key, v)`: value 0 at `key` becomes `v`, or is created. */
  function SetFirst(m: Store, key: string, v: Value): (r: Store)
    ensures ValueCount(r, key) == if ValueCount(m, key) == 0 then 1 else ValueCount(m, key)
    ensures ValuesAt(r, key)[0] == v
    ensures forall i | 1 <= i < ValueCount(r, key) :: ValuesAt(r, key)[i] == ValuesAt(m, key)[i]
    ensures forall k | k != key :: ValuesAt(r, k) == ValuesAt(m, k)
    ensures WellFormed(m) ==> WellFormed(r)
  {
    var previous := ValuesAt(m, key);
    m[key := [v] + (if previous == [] then [] else previous[1..])]
  }

  /** The store after `addStringToGroup(key, s)`: `s` is appended at `key`. */
  function AppendString(m: Store, key: string, s: string): (r: Store)
    ensures ValueCount(r, key) == ValueCount(m, key) + 1
    ensures ValuesAt(r, key)[..ValueCount(m, key)] == ValuesAt(m, key)
    ensures ValuesAt(r, key)[ValueCount(m, key)] == StringValue(s)
    ensures forall k | k != key :: ValuesAt(r, k) == ValuesAt(m, k)
    ensures WellFormed(m) ==> WellFormed(r)
  {
    m[key := ValuesAt(m, key) + [StringValue(s)]]
  }

  /** The store after `removeValue(key)`: value 0 at `key` is dropped, and the key with it when it was the last. */
  function RemoveFirst(m: Store, key: string): (r: Store)
    ensures ValueCount(m, key) == 0 ==> r == m
    ensures ValueCount(m, key) > 0 ==> ValuesAt(r, key) == ValuesAt(m, key)[1..]
    ensures forall k | k != key :: ValuesAt(r, k) == ValuesAt(m, k)
    ensures WellFormed(m) ==> WellFormed(r)
  {
    if ValueCount(m, key) == 0 then m
    else if ValueCount(m, key) == 1 then m - {key}
    else m[key := m[key][1..]]
  }

  /** Every value in `vs` is a string, so the group can be read back as strings. */
  predicate IsStringGroup(vs: seq<Value>) {
    forall i | 0 <= i < |vs| :: vs[i].StringValue?
  }

  /** The strings under `key`, in index order. */
  function StringGroup(m: Store, key: string): (r: seq<string>)
    requires IsStringGroup(ValuesAt(m, key))
    ensures |r| == ValueCount(m, key)
    ensures forall i | 0 <= i < |r| :: ValuesAt(m, key)[i] == StringValue(r[i])
  {
    var vs := ValuesAt(m, key);
    seq(|vs|, i requires 0 <= i < |vs| => vs[i].s)
  }

  /** The store after `addStringToGroup(key, s)` for each `s` of `ss` in turn. */
  function AppendAll(m: Store, key: string, ss: seq<string>): (r: Store)
    ensures ValueCount(r, key) == ValueCount(m, key) + |ss|
    ensures forall k | k != key :: ValuesAt(r, k) == ValuesAt(m, k)
    decreases |ss|
  {
    if ss == [] then m else AppendAll(AppendString(m, key, ss[0]), key, ss[1..])
  }

  // ---------------------------------------------------------------------
  // Properties of the store operations
  // ---------------------------------------------------------------------

  /** A second `set` on the same key replaces the first one's value. */
  lemma SetTwiceKeepsLast(m: Store, key: string, v: Value, w: Value)
    ensures SetFirst(SetFirst(m, key, v), key, w) == SetFirst(m, key, w)
  {
  }

  /** On a key with no values, `set` followed by `removeValue` restores the store. */
  lemma SetThenRemoveRestores(m: Store, key: string, v: Value)
    requires key !in m
    ensures RemoveFirst(SetFirst(m, key, v), key) == m
  {
  }

  /** On a key holding a single value, `removeValue` leaves the key without values. */
  lemma RemoveSingleEmptiesKey(m: Store, key: string)
    requires ValueCount(m, key) == 1
    ensures ValueCount(RemoveFirst(m, key), key) == 0
    ensures key !in RemoveFirst(m, key)
  {
  }

  /** Appending one string extends the string group by exactly that string. */
  lemma AppendStringGroup(m: Store, key: string, s: string)
    requires IsStringGroup(ValuesAt(m, key))
    ensures IsStringGroup(ValuesAt(AppendString(m, key, s), key))
    ensures StringGroup(AppendString(m, key, s), key) == StringGroup(m, key) + [s]
  {
  }

  /** Repeated appends to a string group yield the group followed by the appended strings, in order. */
  lemma {:induction false} AppendAllGroup(m: Store, key: string, ss: seq<string>)
    requires IsStringGroup(ValuesAt(m, key))
    ensures IsStringGroup(ValuesAt(AppendAll(m, key, ss), key))
    ensures StringGroup(AppendAll(m, key, ss), key) == StringGroup(m, key) + ss
    decreases |ss|
  {
    if ss != [] {
      var m1 := AppendString(m, key, ss[0]);
      AppendStringGroup(m, key, ss[0]);
      AppendAllGroup(m1, key, ss[1..]);
      assert [ss[0]] + ss[1..] == ss;
    }
  }

  /** A key with no values reads back as the empty group. */
  lemma AbsentKeyEmptyGroup(m: Store, key: string)
    requires key !in m
    ensures IsStringGroup(ValuesAt(m, key)) && StringGroup(m, key) == []
  {
  }

  /** On a key with no values, appending "x" and then "y" yields the group ["x", "y"]. */
  lemma AppendTwoFromFresh(m: Store, key: string)
    requires ValueCount(m, key) == 0
    ensures StringGroup(AppendString(AppendString(m, key, "x"), key, "y"), key) == ["x", "y"]
  {
  }

  // ---------------------------------------------------------------------
  // The store object
  // ---------------------------------------------------------------------

  /**
   * The store object. Its mutating methods update `cfg` in place; each one
   * performs the same update as the store function named in its ensures
   * clause, written out again here on purpose as the in-place version.
   */
  class Configuration {
    /** The wrapped Corrade configuration group, seen through its content. */
    var cfg: Store

    ghost predicate Valid()
      reads this
    {
      WellFormed(cfg)
    }

    constructor ()
      ensures Valid() && cfg == map[]
    {
      cfg := map[];
    }

    /** set<T>: writes `value` as value 0 of `key`. */
    method Set(key: string, value: Value)
      requires Valid()
      modifies this
      ensures Valid()
      ensures cfg == SetFirst(old(cfg), key, value)
    {
      var vs := ValuesAt(cfg, key);
      cfg := cfg[key := [value] + (if vs == [] then [] else vs[1..])];
    }

    method SetBool(key: string, value: bool)
      requires Valid()
      modifies this
      ensures Valid() && cfg == SetFirst(old(cfg), key, BoolValue(value))
    {
      Set(key, BoolValue(value));
    }

    method SetFloat(key: string, value: Float32)
      requires Valid()
      modifies this
      ensures Valid() && cfg == SetFirst(old(cfg), key, FloatValue(value))
    {
      Set(key, FloatValue(value));
    }

    method SetDouble(key: string, value: Float64)
      requires Valid()
      modifies this
      ensures Valid() && cfg == SetFirst(old(cfg), key, DoubleValue(value))
    {
      Set(key, DoubleValue(value));
    }

    method SetInt(key: string, value: Int32)
      requires Valid()
      modifies this
      ensures Valid() && cfg == SetFirst(old(cfg), key, IntValue(value))
    {
      Set(key, IntValue(value));
    }

    method SetString(key: string, value: string)
      requires Valid()
      modifies this
      ensures Valid() && cfg == SetFirst(old(cfg), key, StringValue(value))
    {
      Set(key, StringValue(value));
    }

    method SetVec3(key: string, value: Vec3)
      requires Valid()
      modifies this
      ensures Valid() && cfg == SetFirst(old(cfg), key, Vec3Value(value))
    {
      Set(key, Vec3Value(value));
    }

    method SetQuat(key: string, value: Quat)
      requires Valid()
      modifies this
      ensures Valid() && cfg == SetFirst(old(cfg), key, QuatValue(value))
    {
      Set(key, QuatValue(value));
    }

    /** Whether value 0 of `key` exists and carries the tag `kind`. */
    predicate Holds(key: string, kind: Kind)
      reads this
    {
      key in cfg && cfg[key] != [] && KindOf(cfg[key][0]) == kind
    }

    /** get<T>: value 0 of `key`, which must be present and of the requested type. */
    function Get(key: string, kind: Kind): (v: Value)
      reads this
      requires Holds(key, kind)
      ensures KindOf(v) == kind
      ensures ValueCount(cfg, key) > 0 && v == ValuesAt(cfg, key)[0]
    {
      cfg[key][0]
    }

    function GetBool(key: string): (b: bool)
      reads this
      requires Holds(key, BoolKind)
      ensures ValuesAt(cfg, key)[0] == BoolValue(b)
    {
      Get(key, BoolKind).b
    }

    function GetFloat(key: string): (f: Float32)
      reads this
      requires Holds(key, FloatKind)
      ensures ValuesAt(cfg, key)[0] == FloatValue(f)
    {
      Get(key, FloatKind).f
    }

    function GetDouble(key: string): (d: Float64)
      reads this
      requires Holds(key, DoubleKind)
      ensures ValuesAt(cfg, key)[0] == DoubleValue(d)
    {
      Get(key, DoubleKind).d
    }

    function GetInt(key: string): (i: Int32)
      reads this
      requires Holds(key, IntKind)
      ensures ValuesAt(cfg, key)[0] == IntValue(i)
    {
      Get(key, IntKind).i
    }

    function GetString(key: string): (s: string)
      reads this
      requires Holds(key, StringKind)
      ensures ValuesAt(cfg, key)[0] == StringValue(s)
    {
      Get(key, StringKind).s
    }

    function GetVec3(key: string): (v: Vec3)
      reads this
      requires Holds(key, Vec3Kind)
      ensures ValuesAt(cfg, key)[0] == Vec3Value(v)
    {
      Get(key, Vec3Kind).v
    }

    function GetQuat(key: string): (q: Quat)
      reads this
      requires Holds(key, QuatKind)
      ensures ValuesAt(cfg, key)[0] == QuatValue(q)
    {
      Get(key, QuatKind).q
    }

    /** Appends `value` to the group at `key` and returns the group's new size. */
    method AddStringToGroup(key: string, value: string) returns (count: int)
      requires Valid()
      modifies this
      ensures Valid()
      ensures cfg == AppendString(old(cfg), key, value)
      ensures count == ValueCount(old(cfg), key) + 1 == ValueCount(cfg, key)
    {
      cfg := cfg[key := ValuesAt(cfg, key) + [StringValue(value)]];
      count := ValueCount(cfg, key);
    }

    /** Collects the strings of the group at `key`, value by value. */
    method GetStringGroup(key: string) returns (strings: seq<string>)
      requires IsStringGroup(ValuesAt(cfg, key))
      ensures strings == StringGroup(cfg, key)
    {
      strings := [];
      var v := 0;
      while v < ValueCount(cfg, key)
        invariant 0 <= v <= ValueCount(cfg, key)
        invariant |strings| == v
        invariant forall i | 0 <= i < v :: ValuesAt(cfg, key)[i] == StringValue(strings[i])
      {
        strings := strings + [ValuesAt(cfg, key)[v].s];
        v := v + 1;
      }
    }

    /** Whether `key` holds any value. */
    function HasValue(key: string): (present: bool)
      reads this
      requires Valid()
      ensures present <==> ValueCount(cfg, key) > 0
    {
      key in cfg
    }

    /** Drops value 0 of `key`; reports whether there was one. */
    method RemoveValue(key: string) returns (removed: bool)
      requires Valid()
      modifies this
      ensures Valid()
      ensures removed <==> ValueCount(old(cfg), key) > 0
      ensures cfg == RemoveFirst(old(cfg), key)
    {
      removed := key in cfg;
      if removed {
        if |cfg[key]| == 1 {
          cfg := cfg - {key};
        } else {
          cfg := cfg[key := cfg[key][1..]];
        }
      }
    }
  }

  /** A client of the store: set then get returns the value; the second set wins; other keys are untouched. */
  method SetGetScenario(c: Configuration, key: string, other: string, v: Int32, w: Int32)
    returns (first: Int32, second: Int32)
    requires c.Valid() && key != other
    modifies c
    ensures c.Valid()
    ensures first == v && second == w
    ensures ValuesAt(c.cfg, other) == ValuesAt(old(c.cfg), other)
  {
    c.SetInt(key, v);
    first := c.GetInt(key);
    c.SetInt(key, w);
    second := c.GetInt(key);
  }

  /** A client of the store: two appends to a fresh key, read back in order. */
  method GroupScenario(c: Configuration, key: string)
    returns (n1: int, n2: int, group: seq<string>, present: bool)
    requires c.Valid() && !c.HasValue(key)
    modifies c
    ensures c.Valid()
    ensures n1 == 1 && n2 == 2 && group == ["x", "y"]
    ensures present
  {
    n1 := c.AddStringToGroup(key, "x");
    n2 := c.AddStringToGroup(key, "y");
    AppendTwoFromFresh(old(c.cfg), key);
    AppendStringGroup(old(c.cfg), key, "x");
    AppendStringGroup(AppendString(old(c.cfg), key, "x"), key, "y");
    group := c.GetStringGroup(key);
    present := c.HasValue(key);
  }
}
