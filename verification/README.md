# Configuration store and sensor layer of habitat-sim, modelled in Dafny

This project models two small, sequential parts of the habitat-sim simulator:

- **`esp::core::Configuration`** (module `Core`, `configuration.dfy`): a typed
  key/value store. Under each key it holds an ordered sequence of tagged
  values (bool, 32-bit int, float, double, string, 3-vector, quaternion).
  A scalar entry is a key with one value and a group is a key with several.
  `set` writes value 0, `get` reads value 0, `addStringToGroup` appends and
  returns the new count, `getStringGroup` reads the group back in a loop, and
  `hasValue`/`removeValue` test and drop. The store's content is the pure
  value `Store = map<string, seq<Value>>`. The class `Configuration` holds it
  in the field `cfg`, and each mutating method states its new `cfg` as a
  function of the old one (`SetFirst`, `AppendString`, `RemoveFirst`). The
  lemmas about those functions carry the store's promises: round trips,
  overwrite, append order and "other keys unchanged".
- **`esp::sensor`** (module `Sensors`, `sensor.dfy`):
  - the twelve-field `SensorSpec` record;
  - the render-sharing gate `isBorrowableType` / `canBorrowRenderingFrom`;
  - structural `==` / `!=`;
  - the `Sensor` bound to a scene node, with its placement;
  - the uuid-keyed `SensorSuite`.

  The scene node (module `SceneGraph`, `scene_graph.dfy`) is reduced to what
  the sensor touches: a role tag, and its transformation as the trace of
  operations since the last reset. A sensor's placement is therefore the trace
  `[Reset, Translate(position), RotateX(o.x), RotateY(o.y), RotateZ(o.z)]`.

`geometry.dfy` holds the opaque value types: floats as bit patterns, `Vec3`,
`Quat` and `Vec2i`. `wrappers.dfy` holds `Option`, which stands for a null
spec pointer and for a failed suite lookup.

Three behaviours of the code are worth stating outright:

- `canBorrowRenderingFrom` (src/esp/sensor/Sensor.cpp:75-79) does not compare
  the two sensor types, so with the flag set a SEMANTIC spec can borrow from
  a COLOR spec (`BorrowAcrossTypes`).
- `removeValue` (src/esp/core/Configuration.h:80) forwards to Corrade's
  `removeValue(key)`, whose default index is 0, so it drops the first value
  only (`RemoveFirst`). On a key holding a single value this leaves the key
  absent (`RemoveSingleEmptiesKey`).
- `set` (src/esp/core/Configuration.h:24-27) forwards the `bool` from
  `setValue`, and the model gives it no meaning (see Left out).

## Model

| member | source | states |
|---|---|---|
| `Core.SetFirst` | src/esp/core/Configuration.h:24-27 | after `set(k, v)`: value 0 at `k` is `v`; the count becomes max(1, old count); later values and every other key are unchanged; well-formedness is kept |
| `Core.Configuration.Set` | src/esp/core/Configuration.h:24-27 | the store becomes `SetFirst(old store, key, value)` and stays valid |
| `Core.Configuration.SetBool` | src/esp/core/Configuration.h:28 | typed `set` of a bool |
| `Core.Configuration.SetFloat` | src/esp/core/Configuration.h:29 | typed `set` of a float |
| `Core.Configuration.SetDouble` | src/esp/core/Configuration.h:30-32 | typed `set` of a double |
| `Core.Configuration.SetInt` | src/esp/core/Configuration.h:33 | typed `set` of a 32-bit int |
| `Core.Configuration.SetString` | src/esp/core/Configuration.h:34-36 | typed `set` of a string |
| `Core.Configuration.SetVec3` | src/esp/core/Configuration.h:37-39 | typed `set` of a 3-vector |
| `Core.Configuration.SetQuat` | src/esp/core/Configuration.h:41-43 | typed `set` of a quaternion |
| `Core.Configuration.Get` | src/esp/core/Configuration.h:45-48 | the key must be present with value 0 of the requested type; the result is value 0 and carries that type |
| `Core.Configuration.GetBool` | src/esp/core/Configuration.h:49 | value 0 is `BoolValue(result)` |
| `Core.Configuration.GetFloat` | src/esp/core/Configuration.h:50 | value 0 is `FloatValue(result)` |
| `Core.Configuration.GetDouble` | src/esp/core/Configuration.h:51 | value 0 is `DoubleValue(result)` |
| `Core.Configuration.GetInt` | src/esp/core/Configuration.h:52 | value 0 is `IntValue(result)` |
| `Core.Configuration.GetString` | src/esp/core/Configuration.h:53-55 | value 0 is `StringValue(result)` |
| `Core.Configuration.GetVec3` | src/esp/core/Configuration.h:56-58 | value 0 is `Vec3Value(result)` |
| `Core.Configuration.GetQuat` | src/esp/core/Configuration.h:59-61 | value 0 is `QuatValue(result)` |
| `Core.AppendString` | src/esp/core/Configuration.h:63-67 | after `addStringToGroup(k, s)`: the values at `k` are the old ones followed by `s`; the count grows by one; other keys are unchanged |
| `Core.Configuration.AddStringToGroup` | src/esp/core/Configuration.h:63-67 | the store becomes `AppendString(old store, key, value)`; the result is the old count plus one, which is also the new count |
| `Core.AppendAll` | src/esp/core/Configuration.h:63-67 | repeated appends raise the count by the number of strings and leave other keys unchanged |
| `Core.StringGroup` | src/esp/core/Configuration.h:69-76 | the group read as strings: one string per value, in index order |
| `Core.Configuration.GetStringGroup` | src/esp/core/Configuration.h:69-76 | the loop returns exactly `StringGroup(store, key)`: count(key) strings in index order; the store is not modified |
| `Core.Configuration.HasValue` | src/esp/core/Configuration.h:78 | true iff the key holds at least one value |
| `Core.RemoveFirst` | src/esp/core/Configuration.h:80 | after `removeValue(k)`: value 0 at `k` is dropped (no change when `k` has none); other keys are unchanged; well-formedness is kept |
| `Core.Configuration.RemoveValue` | src/esp/core/Configuration.h:80 | the store becomes `RemoveFirst(old store, key)`; the result is true iff the key held a value |
| `Core.SetTwiceKeepsLast` | src/esp/core/Configuration.h:25-26 | a second `set` on a key replaces the first: `set(k, v); set(k, w)` equals `set(k, w)` |
| `Core.SetThenRemoveRestores` | src/esp/core/Configuration.h:80 | on an absent key, `set` followed by `removeValue` gives back the original store |
| `Core.RemoveSingleEmptiesKey` | src/esp/core/Configuration.h:78-80 | on a key holding a single value, `removeValue` leaves the key absent, so `hasValue` is false |
| `Core.AppendStringGroup` | src/esp/core/Configuration.h:63-76 | one append extends the string group by exactly the appended string |
| `Core.AppendAllGroup` | src/esp/core/Configuration.h:63-76 | any sequence of appends reads back as the old group followed by those strings, in order |
| `Core.AbsentKeyEmptyGroup` | src/esp/core/Configuration.h:70-72 | an absent key reads back as the empty group |
| `Core.AppendTwoFromFresh` | src/esp/core/Configuration.h:63-76 | on a fresh key, appending "x" then "y" reads back as ["x", "y"] |
| `Core.SetGetScenario` | src/esp/core/Configuration.h:24-52 | through the class: `setInt` then `getInt` returns the value, a second `setInt` wins, and another key is untouched |
| `Core.GroupScenario` | src/esp/core/Configuration.h:63-78 | through the class: on a fresh key the two appends return 1 and 2, the group reads ["x", "y"], and the key is then present |
| `Sensors.IsBorrowableType` | src/esp/sensor/Sensor.cpp:51-69 | true for COLOR and DEPTH, the flag for SEMANTIC, false for every other type |
| `Sensors.BorrowableTypeMonotone` | src/esp/sensor/Sensor.cpp:61-62 | setting the flag only adds types, and the one type it adds is SEMANTIC |
| `Sensors.CanBorrowRenderingFrom` | src/esp/sensor/Sensor.cpp:72-80 | true iff both types are borrowable under the flag and the subtype, parameters, position, orientation and resolution agree |
| `Sensors.BorrowSymmetric` | src/esp/sensor/Sensor.cpp:75-79 | `a` can borrow from `b` iff `b` can borrow from `a` |
| `Sensors.BorrowTransitive` | src/esp/sensor/Sensor.cpp:75-79 | if `a` can borrow from `b` and `b` from `c`, then `a` can borrow from `c` |
| `Sensors.BorrowMonotoneInFlag` | src/esp/sensor/Sensor.cpp:72-80 | true without the flag implies true with it; without the flag, a SEMANTIC spec on either side gives false |
| `Sensors.BorrowIgnoresOutputFields` | src/esp/sensor/Sensor.cpp:75-79 | specs that agree on type and rendered view give the same answer, whatever their uuid, channels, encoding, observation space, noise model and transfer flag |
| `Sensors.BorrowAcrossTypes` | src/esp/sensor/Sensor.cpp:75-76 | the types need not match: COLOR borrows from DEPTH; SEMANTIC borrows from COLOR with the flag and not without it |
| `Sensors.BorrowNeedsSameView` | src/esp/sensor/Sensor.cpp:77-79 | a difference in subtype, parameters, position, orientation or resolution gives false |
| `Sensors.SpecEquals` | src/esp/sensor/Sensor.cpp:82-89 | `==` over the twelve fields holds iff the two specs are the same value |
| `Sensors.SpecNotEquals` | src/esp/sensor/Sensor.cpp:90-92 | `!=` holds iff the specs differ, i.e. it is exactly the negation of `==` |
| `Sensors.EqualSpecsBorrow` | src/esp/sensor/Sensor.cpp:75-88 | for equal specs, borrowing holds iff the shared type is borrowable |
| `Sensors.PlacedFrom` | src/esp/sensor/Sensor.cpp:36-48 | with a spec, the transformation becomes the spec's placement whatever it was; with a null spec, it is unchanged |
| `Sensors.PlacementIdempotent` | src/esp/sensor/Sensor.cpp:36-48 | applying placement twice from the same spec equals applying it once |
| `Sensors.PlacementDeterminedByPose` | src/esp/sensor/Sensor.cpp:42-47 | two specs give the same placement iff they have the same position and orientation |
| `Sensors.BorrowImpliesSamePlacement` | src/esp/sensor/Sensor.cpp:44-47 | specs that may share a render place their nodes identically |
| `Sensors.Sensor.constructor` | src/esp/sensor/Sensor.cpp:12-21 | requires a non-null spec; tags the node SENSOR and leaves it with exactly the spec's placement |
| `Sensors.Sensor.SetTransformationFromSpec` | src/esp/sensor/Sensor.cpp:36-48 | the node's transformation becomes `[Reset, Translate(position), RotateX(o.x), RotateY(o.y), RotateZ(o.z)]`, whatever came before; with a null spec the node is untouched |
| `Sensors.SensorSuite.Add` | src/esp/sensor/Sensor.cpp:23-26 | maps the sensor's uuid to the sensor, replacing an earlier entry; every other entry is unchanged |
| `Sensors.SensorSuite.Get` | src/esp/sensor/Sensor.cpp:28-30 | present iff the uuid is filed; the result is the filed sensor, and its spec carries that uuid |
| `Sensors.SensorSuite.Clear` | src/esp/sensor/Sensor.cpp:32-34 | the suite has no entries afterwards |
| `Sensors.SuiteOverwriteScenario` | src/esp/sensor/Sensor.cpp:23-30 | adding A then B under one uuid makes `get` return B; other entries are unchanged |
| `Sensors.PlacementScenario` | src/esp/sensor/Sensor.cpp:12-21 | two sensors built from one spec leave their two nodes with identical transformations |

## Left out

- The Corrade `ConfigurationGroup` that the store wraps is not part of this model. Its content is modelled as `map<string, seq<Value>>` with its default index 0.
- `Core.Configuration.Set` and the typed setters do not return the `bool` from Corrade's `setValue`. The code forwards it without giving it a meaning.
- `Core.Configuration.Get` and the typed getters require the key to be present with a value of the requested type. Corrade's behaviour on an absent key and its conversion between types are not modelled.
- `Core.Configuration.GetStringGroup` requires every value at the key to be a string. Corrade's conversion of other values to text is not modelled.
- `Core.Configuration.AddStringToGroup` returns the count as an unbounded integer. The narrowing of Corrade's unsigned count to `int` only matters past 2^31 - 1 values, and is not modelled.
- Floats and doubles are opaque bit patterns compared by identity, so IEEE equality is not modelled (NaN unequal to itself, +0 equal to -0). This affects `Sensors.SpecEquals` and `Sensors.CanBorrowRenderingFrom` only for such values.
- Magnum math is not modelled: rotation matrices, radians and vector arithmetic. A placement is an operation trace, so `Sensors.PlacementDeterminedByPose` compares traces, not resulting matrices.
- Sensor.h and SceneNode.h are not part of this model. The field types of `SensorSpec` are stand-ins compared only for equality, and so are the `SensorType` enumerators other than COLOR, DEPTH and SEMANTIC. `SceneGraph.SceneNode` stands in for the node and its node types.
- Attaching the sensor to the node as a scene-graph feature is not modelled, nor is node ownership or the `ESP_SMART_POINTERS` shared pointers. The virtual destructors kept for the Python bindings are left out too.
- The spec is a value held by the sensor. Mutation of a shared spec after binding is not modelled.
- The `LOG(ERROR)` diagnostics and the `ASSERT` that ends the process are not modelled. They appear only as the constructor's precondition and as the no-op on a null spec.
- The commented-out `std::variant` store is not modelled: it is dead code.
- The on-disk configuration text format is not modelled. No parser for it is in the modelled files.
