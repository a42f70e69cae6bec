# Road-survey lane stores, modelled in Dafny

This project models the two client-side stores of a road-condition dashboard:

- the **lane polyline store** (`src/stores/mqtt-store.js`). It keeps one list of
  map points for each of the eight survey lanes (L1–L4 on the left, R1–R4 on the
  right). `addMqttData` takes one telemetry message, which is a flat
  key/value object. For each lane, in table order, it reads the lane's four
  coordinate properties. If all four are JavaScript-truthy, it extends that lane:
  an empty lane gets the start point and then the end point, and a non-empty
  lane gets only the end point. Points are stored longitude first.
  `getPolylineCoordinates` returns the lanes.
- the **threshold store** (`src/stores/threshold-store.js`). It holds four quality
  limits with fixed defaults (roughness 2400, rut depth 5, cracking 5,
  ravelling 1). `setThresholds` replaces all four limits at once, without
  checking them.

The stores are modelled as plain immutable values, and their actions as pure
functions from the old state to the new one:

- `js_value.dfy` (`JsValue`): message values (`undefined`, `null`, booleans,
  numbers, `NaN`, strings, objects), JavaScript truthiness and property reads.
  An absent property reads as `undefined`.
- `lane_schema.dfy` (`LaneSchema`): the eight-entry lane table.
- `mqtt_store.dfy` (`MqttStore`): the polyline state, `addMqttData` (written as
  the `forEach` over the table that indexes lanes by `lane.id`) and the getter.
- `mqtt_properties.dfy` (`MqttProperties`): frame, append-only and invariant
  lemmas. It also gives a stream of messages an independent reference
  description, and proves that replaying the stream builds exactly that.
- `mqtt_example.dfy` (`MqttExample`): a worked two-message stream for lane L1.
- `threshold_store.dfy` (`ThresholdStore`): the threshold state, its defaults,
  `setThresholds`, and the overwrite lemmas.

The store's table lists its 32 coordinate property names as literal strings.
The model builds each name as the lane name followed by the role, for example
`"R2" + "StartLatitude"`. Eight lemmas, one per lane, show that this spells the
store's literal table letter for letter.

## Model

| member | source | states |
|---|---|---|
| `JsValue.Truthy` | src/stores/mqtt-store.js:78 | a value passes the presence test exactly when it is not one of the six falsy values `undefined`, `null`, `false`, `0`, `NaN` and the empty string |
| `JsValue.Get` | src/stores/mqtt-store.js:73-76 | a property read yields `undefined` exactly when the property is absent or holds `undefined`, and fails the presence test exactly when it is absent or its value is falsy |
| `JsValue.MissingIsFalsy` | src/stores/mqtt-store.js:73-78 | a coordinate property that the message lacks reads as `undefined` and fails the presence test |
| `LaneSchema.LaneKeysOf` | src/stores/mqtt-store.js:13-69 | table entry `i` carries id `i`, so the lane it updates is the lane at its own position |
| `LaneSchema.LaneL1Spelling` | src/stores/mqtt-store.js:14-20 | table entry 0 has id 0 and the names `L1StartLatitude`, `L1StartLongitude`, `L1EndLatitude`, `L1EndLongitude` |
| `LaneSchema.LaneL2Spelling` | src/stores/mqtt-store.js:21-27 | table entry 1 has id 1 and the names `L2StartLatitude`, `L2StartLongitude`, `L2EndLatitude`, `L2EndLongitude` |
| `LaneSchema.LaneL3Spelling` | src/stores/mqtt-store.js:28-34 | table entry 2 has id 2 and the names `L3StartLatitude`, `L3StartLongitude`, `L3EndLatitude`, `L3EndLongitude` |
| `LaneSchema.LaneL4Spelling` | src/stores/mqtt-store.js:35-41 | table entry 3 has id 3 and the names `L4StartLatitude`, `L4StartLongitude`, `L4EndLatitude`, `L4EndLongitude` |
| `LaneSchema.LaneR1Spelling` | src/stores/mqtt-store.js:42-48 | table entry 4 has id 4 and the names `R1StartLatitude`, `R1StartLongitude`, `R1EndLatitude`, `R1EndLongitude` |
| `LaneSchema.LaneR2Spelling` | src/stores/mqtt-store.js:49-55 | table entry 5 has id 5 and the names `R2StartLatitude`, `R2StartLongitude`, `R2EndLatitude`, `R2EndLongitude` |
| `LaneSchema.LaneR3Spelling` | src/stores/mqtt-store.js:56-62 | table entry 6 has id 6 and the names `R3StartLatitude`, `R3StartLongitude`, `R3EndLatitude`, `R3EndLongitude` |
| `LaneSchema.LaneR4Spelling` | src/stores/mqtt-store.js:63-69 | table entry 7 has id 7 and the names `R4StartLatitude`, `R4StartLongitude`, `R4EndLatitude`, `R4EndLongitude` |
| `LaneSchema.TableShape` | src/stores/mqtt-store.js:13-70 | each of entry `i`'s four property names starts with the `i`-th lane name of L1, L2, L3, L4, R1, R2, R3, R4 |
| `LaneSchema.KeyNamesDisjoint` | src/stores/mqtt-store.js:13-70 | two different lanes share no coordinate property name |
| `LaneSchema.KeyNamesDistinct` | src/stores/mqtt-store.js:13-70 | each lane has four different coordinate property names |
| `MqttStore.InitialState` | src/stores/mqtt-store.js:4-10 | the store starts with exactly eight lanes, and every lane is empty |
| `MqttStore.VisitFrom` | src/stores/mqtt-store.js:72-86 | visiting the table entries from `k` onwards, each updated at its own id, keeps eight lanes, leaves lanes before `k` alone, and gives each later lane its own one-lane update |
| `MqttStore.LaneAccepts` | src/stores/mqtt-store.js:78 | a lane accepts a message exactly when each of its four property names is present in the message with a truthy value |
| `MqttStore.StartPoint` | src/stores/mqtt-store.js:81 | the start point is (start longitude, start latitude), longitude first, and both are truthy when the lane accepts the message |
| `MqttStore.EndPoint` | src/stores/mqtt-store.js:84 | the end point is (end longitude, end latitude), longitude first, and both are truthy when the lane accepts the message |
| `MqttStore.StepLane` | src/stores/mqtt-store.js:73-85 | for one lane: any falsy coordinate leaves the lane as it was; otherwise an empty lane becomes [start, end] and a non-empty lane gains only [end] |
| `MqttStore.AddMqttData` | src/stores/mqtt-store.js:72-86 | a message keeps eight lanes. Lane `i` is unchanged unless all four of its own properties are truthy. If they are, an empty lane becomes exactly [(startLon, startLat), (endLon, endLat)], and a non-empty lane becomes old ++ [(endLon, endLat)] |
| `MqttStore.GetPolylineCoordinates` | src/stores/mqtt-store.js:90 | the getter hands out the stored lanes, for every state; what a reader sees through it after a stream is stated by `MqttProperties.ObservedAfterStream` |
| `MqttProperties.AddIsAppendOnly` | src/stores/mqtt-store.js:78-85 | after a message the old points of a lane are still its prefix. The lane grows by 2 exactly when it was empty and accepted the message, grows by 1 exactly when it was non-empty and accepted, and is unchanged exactly when it did not accept |
| `MqttProperties.AddKeepsNoSinglePoint` | src/stores/mqtt-store.js:80-84 | if no lane holds exactly one point before a message, none does after it |
| `MqttProperties.ZeroCoordinateIsIgnored` | src/stores/mqtt-store.js:78 | setting any one of lane `i`'s four coordinates to the number 0 leaves lane `i` unchanged |
| `MqttProperties.LaneDependsOnlyOnOwnKeys` | src/stores/mqtt-store.js:72-85 | lane `i`'s new value is determined by its old value and the values of its own four properties |
| `MqttProperties.OtherLanesKeysDoNotMatter` | src/stores/mqtt-store.js:13-85 | changing a coordinate property of lane `j` in a message does not change what another lane `i` becomes |
| `MqttProperties.RejectedMessageChangesNothing` | src/stores/mqtt-store.js:72-86 | a message that no lane accepts leaves the whole store unchanged |
| `MqttProperties.StartIgnoredOnceLaneStarted` | src/stores/mqtt-store.js:80-84 | on a non-empty lane, two accepted messages with the same end point have the same effect, whatever their start points |
| `MqttProperties.Replay` | src/stores/mqtt-store.js:4-86 | starting from the initial state at :4-10 and applying the action at :72-86 to each message in turn leaves exactly eight lanes, for any stream |
| `MqttProperties.AddUpdatesLaneByStep` | src/stores/mqtt-store.js:72-86 | each lane after a message is that lane's own one-lane update of its old value |
| `MqttProperties.ExpectedLaneStep` | src/stores/mqtt-store.js:78-85 | the reference description of a lane after a stream is the one-lane update of its description after all but the last message |
| `MqttProperties.ReplayIgnoresRejected` | src/stores/mqtt-store.js:72-86 | a message that no lane accepts can be dropped from the end of a stream without changing the resulting state |
| `MqttProperties.ReplayBuildsExpectedLane` | src/stores/mqtt-store.js:72-86 | after a stream, a lane holds nothing if it accepted no message. Otherwise it holds the start point of its first accepted message, then the end point of every accepted message in arrival order |
| `MqttProperties.ReplayLaneLength` | src/stores/mqtt-store.js:80-84 | a lane that accepted `n` messages holds 0 points when `n` is 0, and `n + 1` points otherwise |
| `MqttProperties.ReplayHasNoSinglePoint` | src/stores/mqtt-store.js:80-84 | no state reachable from the initial state has a lane with exactly one point |
| `MqttProperties.ObservedAfterStream` | src/stores/mqtt-store.js:90 | after any stream of messages the getter returns eight lanes, and lane `i` is empty if it accepted no message, otherwise its first accepted start point followed by every accepted end point in arrival order |
| `MqttExample.L1Stream` | src/stores/mqtt-store.js:78-84 | a complete L1 message makes lane 0 [(77.0, 10.0), (77.01, 10.01)] and leaves R2 empty. A following L1 message with end latitude 0 leaves lane 0 as it was |
| `MqttExample.L1SecondMessageChangesNothing` | src/stores/mqtt-store.js:72-86 | after that complete L1 message, the L1 message with end latitude 0 leaves the whole store as it was |
| `MqttExample.ZeroEndLatitudeIgnored` | src/stores/mqtt-store.js:72-86 | an L1 message whose end latitude is 0 changes no lane, after any stream: lane 0 sees a falsy coordinate and the other lanes find none of their properties |
| `ThresholdStore.InitialThresholds` | src/stores/threshold-store.js:4-9 | the defaults are roughness 2400, rut depth 5, cracking 5 and ravelling 1 |
| `ThresholdStore.SetThresholds` | src/stores/threshold-store.js:11-20 | after the action, each of the four fields equals the payload's like-named property, with no validation (`undefined` when the payload lacks it) |
| `ThresholdStore.FieldsDetermineState` | src/stores/threshold-store.js:4-9 | the four named fields make up the whole state: two states that agree on them are equal, so the state holds no other field |
| `ThresholdStore.SetThresholdsForgetsPrevious` | src/stores/threshold-store.js:17-20 | the new state does not depend on the old one, so no field keeps a stale value |
| `ThresholdStore.SetThresholdsIdempotent` | src/stores/threshold-store.js:17-20 | applying the same payload twice equals applying it once |
| `ThresholdStore.SetThresholdsLastWriteWins` | src/stores/threshold-store.js:17-20 | two successive calls give the same state as the second call alone |
| `ThresholdStore.SetThresholdsFromState` | src/stores/threshold-store.js:11-20 | a payload carrying the four fields of a state restores exactly that state |

## Left out

- Pinia's `defineStore`, reactivity and `this` binding. This is framework plumbing, so each state is a plain value and each action returns the new state.
- ThresholdStore.Field: reads only the four state fields. On the real store object, other names reach its actions and framework properties, such as `setThresholds` and `$state`, which are not modelled.
- The publish/subscribe connection, its subscription lifecycle, message parsing and map rendering. None of them is part of these two files.
- Segment metrics, threshold classification, per-lane pass/fail counters, percentages, a received-message counter and a session reset. The two stores contain none of these. The store keeps a list of points per lane, not a list of segments with metrics.
- IEEE-754 details. Coordinates and limits are only stored and truth-tested, never computed on. Numbers are therefore `real`. `-0` is the same as `0` (both falsy). `NaN` has its own constructor. The infinities are not modelled.
- MqttStore.AddMqttData: requires exactly eight lanes. The store never holds anything else, because only `addMqttData` changes the state and it keeps the count; a state changed from outside the store is not modelled. The message is always a plain object: calling `addMqttData(null)` or `addMqttData(undefined)` throws a `TypeError` at the first property read, for lane 0, before any point is pushed, so no lane changes. A message type that is a map cannot express that input, so the throw is not modelled.
- Objects and arrays: all of them are one value, `Object`. They are truthy, which is all the presence test needs. A lane that stores an object or array coordinate loses which object was pushed.
- MqttStore.GetPolylineCoordinates: the getter returns a live reference to the reactive array. With value semantics the model returns the same lanes, and the aliasing is not modelled.
- ThresholdStore.SetThresholds: models a payload that is a plain object, as a property map. Calling the action with `null` or no argument, which throws a `TypeError` during destructuring, is not modelled.
