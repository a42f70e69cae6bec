/** Properties of the lane polyline store: what one message may change, what it
    leaves alone, and what a whole stream of messages builds from the initial
    state. */
module MqttProperties {
  import opened JsValue
  import opened LaneSchema
  import opened MqttStore

  /** A message only ever appends to a lane: the old points stay in place, and
      the lane grows by nothing, by its end point, or (when it was empty) by
      its start and end points. */
  lemma AddIsAppendOnly(s: MqttState, data: Message, i: LaneId)
    requires Valid(s)
    ensures var before, after := s.polylineData[i], AddMqttData(s, data).polylineData[i];
      && |before| <= |after|
      && after[..|before|] == before
      && (|after| == |before| + 2 <==> before == [] && LaneAccepts(data, LaneKeysOf(i)))
      && (|after| == |before| + 1 <==> before != [] && LaneAccepts(data, LaneKeysOf(i)))
      && (after == before <==> !LaneAccepts(data, LaneKeysOf(i)))
  {
    var k := LaneKeysOf(i);
    var before, after := s.polylineData[i], AddMqttData(s, data).polylineData[i];
    assert LaneOutcome(before, after, k, data);
    if LaneAccepts(data, k) && before != [] {
      assert after == before + [EndPoint(data, k)];
      assert after[..|before|] == before;
    }
  }

  /** Handling a message never leaves a lane with exactly one point. */
  lemma AddKeepsNoSinglePoint(s: MqttState, data: Message)
    requires Valid(s) && NoSinglePoint(s)
    ensures NoSinglePoint(AddMqttData(s, data))
  {
  }

  /** A coordinate equal to 0 counts as missing: setting any one of lane `i`'s
      four coordinates to 0 makes the message leave that lane unchanged. */
  lemma ZeroCoordinateIsIgnored(s: MqttState, data: Message, i: LaneId, key: string)
    requires Valid(s)
    requires key in KeyNames(i)
    ensures AddMqttData(s, data[key := Num(0.0)]).polylineData[i] == s.polylineData[i]
  {
  }

  /** Lane `i`'s new polyline depends only on its old polyline and on the
      values of its own four coordinate properties. */
  lemma LaneDependsOnlyOnOwnKeys(s1: MqttState, s2: MqttState, d1: Message, d2: Message, i: LaneId)
    requires Valid(s1) && Valid(s2)
    requires s1.polylineData[i] == s2.polylineData[i]
    requires forall key :: key in KeyNames(i) ==> Get(d1, key) == Get(d2, key)
    ensures AddMqttData(s1, d1).polylineData[i] == AddMqttData(s2, d2).polylineData[i]
  {
  }

  /** Changing a coordinate property of another lane `j` in the message does not
      change what lane `i` becomes. */
  lemma OtherLanesKeysDoNotMatter(s: MqttState, data: Message, i: LaneId, j: LaneId, key: string, v: JsVal)
    requires Valid(s)
    requires i != j && key in KeyNames(j)
    ensures AddMqttData(s, data[key := v]).polylineData[i] == AddMqttData(s, data).polylineData[i]
  {
    KeyNamesDisjoint(i, j);
    forall name | name in KeyNames(i)
      ensures Get(data[key := v], name) == Get(data, name)
    {
      assert name != key;
    }
    LaneDependsOnlyOnOwnKeys(s, s, data[key := v], data, i);
  }

  /** A message that no lane accepts leaves the whole store unchanged. */
  lemma RejectedMessageChangesNothing(s: MqttState, data: Message)
    requires Valid(s)
    requires forall i: LaneId :: !LaneAccepts(data, LaneKeysOf(i))
    ensures AddMqttData(s, data) == s
  {
  }

  /** Once a lane holds points, the start coordinates of a message are not used:
      two accepted messages with the same end point extend it identically. */
  lemma StartIgnoredOnceLaneStarted(s: MqttState, d1: Message, d2: Message, i: LaneId)
    requires Valid(s) && s.polylineData[i] != []
    requires LaneAccepts(d1, LaneKeysOf(i)) && LaneAccepts(d2, LaneKeysOf(i))
    requires EndPoint(d1, LaneKeysOf(i)) == EndPoint(d2, LaneKeysOf(i))
    ensures AddMqttData(s, d1).polylineData[i] == AddMqttData(s, d2).polylineData[i]
  {
  }

  /** The store after handling `msgs` in order, starting from the initial state. */
  function Replay(msgs: seq<Message>): (s: MqttState)
    ensures Valid(s)
  {
    if |msgs| == 0 then InitialState()
    else AddMqttData(Replay(msgs[..|msgs| - 1]), msgs[|msgs| - 1])
  }

  /** The messages of `msgs` that lane `i` accepts, in arrival order. */
  function Accepted(msgs: seq<Message>, i: LaneId): (acc: seq<Message>)
  {
    if |msgs| == 0 then []
    else
      var prior := Accepted(msgs[..|msgs| - 1], i);
      if LaneAccepts(msgs[|msgs| - 1], LaneKeysOf(i)) then prior + [msgs[|msgs| - 1]] else prior
  }

  /** The end points that the messages `acc` give lane `i`, in order. */
  function EndPoints(acc: seq<Message>, i: LaneId): (ps: seq<Point>)
  {
    if |acc| == 0 then []
    else EndPoints(acc[..|acc| - 1], i) + [EndPoint(acc[|acc| - 1], LaneKeysOf(i))]
  }

  /** Independent description of a lane after a stream: nothing if it never
      accepted a message, otherwise the start point of the first accepted
      message followed by the end point of every accepted message. */
  function ExpectedLane(msgs: seq<Message>, i: LaneId): (line: Polyline)
  {
    var acc := Accepted(msgs, i);
    if acc == [] then [] else [StartPoint(acc[0], LaneKeysOf(i))] + EndPoints(acc, i)
  }

  /** A message that no lane accepts can be dropped from the end of a stream. */
  lemma ReplayIgnoresRejected(msgs: seq<Message>, data: Message)
    requires forall i: LaneId :: !LaneAccepts(data, LaneKeysOf(i))
    ensures Replay(msgs + [data]) == Replay(msgs)
  {
  }

  /** Replaying a stream builds every lane exactly as `ExpectedLane` describes:
      points are never reordered, dropped or duplicated. */
  lemma {:induction false} ReplayBuildsExpectedLane(msgs: seq<Message>, i: LaneId)
    ensures Replay(msgs).polylineData[i] == ExpectedLane(msgs, i)
  {
    if |msgs| > 0 {
      var prior, m := msgs[..|msgs| - 1], msgs[|msgs| - 1];
      ReplayBuildsExpectedLane(prior, i);
      AddUpdatesLaneByStep(Replay(prior), m, i);
      ExpectedLaneStep(msgs, i);
    }
  }

  /** Each lane of the new state is its own one-lane step. */
  lemma AddUpdatesLaneByStep(s: MqttState, data: Message, i: LaneId)
    requires Valid(s)
    ensures AddMqttData(s, data).polylineData[i] == StepLane(s.polylineData[i], LaneKeysOf(i), data)
  {
  }

  /** The reference description follows the one-lane step message by message. */
  lemma ExpectedLaneStep(msgs: seq<Message>, i: LaneId)
    requires |msgs| > 0
    ensures ExpectedLane(msgs, i)
      == StepLane(ExpectedLane(msgs[..|msgs| - 1], i), LaneKeysOf(i), msgs[|msgs| - 1])
  {
    var prior, m := msgs[..|msgs| - 1], msgs[|msgs| - 1];
    var acc := Accepted(prior, i);
    if LaneAccepts(m, LaneKeysOf(i)) {
      var acc' := acc + [m];
      assert Accepted(msgs, i) == acc';
      assert acc'[..|acc'| - 1] == acc;
      assert EndPoints(acc', i) == EndPoints(acc, i) + [EndPoint(m, LaneKeysOf(i))];
      if acc != [] {
        assert acc'[0] == acc[0];
      } else {
        assert EndPoints(acc, i) == [];
      }
    }
  }

  /** A lane that has accepted `n` messages holds `n + 1` points, or none when
      `n` is 0. */
  lemma ReplayLaneLength(msgs: seq<Message>, i: LaneId)
    ensures var n := |Accepted(msgs, i)|;
      |Replay(msgs).polylineData[i]| == if n == 0 then 0 else n + 1
  {
    ReplayBuildsExpectedLane(msgs, i);
    EndPointsLength(Accepted(msgs, i), i);
  }

  /** A lane gains exactly one end point per accepted message. */
  lemma {:induction false} EndPointsLength(acc: seq<Message>, i: LaneId)
    ensures |EndPoints(acc, i)| == |acc|
  {
    if |acc| > 0 {
      EndPointsLength(acc[..|acc| - 1], i);
    }
  }

  /** Every state the store can reach holds no single-point lane. */
  lemma ReplayHasNoSinglePoint(msgs: seq<Message>)
    ensures NoSinglePoint(Replay(msgs))
  {
    var s := Replay(msgs);
    forall i | 0 <= i < |s.polylineData|
      ensures |s.polylineData[i]| != 1
    {
      ReplayLaneLength(msgs, i);
    }
  }

  /** What the dashboard reads through the getter after a stream: eight lanes,
      each exactly as `ExpectedLane` describes it. */
  lemma ObservedAfterStream(msgs: seq<Message>, i: LaneId)
    ensures |GetPolylineCoordinates(Replay(msgs))| == LaneCount
    ensures GetPolylineCoordinates(Replay(msgs))[i] == ExpectedLane(msgs, i)
  {
    ReplayBuildsExpectedLane(msgs, i);
  }
}
