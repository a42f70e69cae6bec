/** A worked stream for lane L1: one complete message, then one whose end
    latitude is 0. */
module MqttExample {
  import opened JsValue
  import opened LaneSchema
  import opened MqttStore
  import opened MqttProperties

  /** A message carrying only lane L1's four coordinates. */
  function L1Message(startLat: real, startLon: real, endLat: real, endLon: real): (m: Message)
  {
    var k := LaneKeysOf(0);
    map[k.startLat := Num(startLat), k.startLon := Num(startLon), k.endLat := Num(endLat), k.endLon := Num(endLon)]
  }

  /** The first message gives L1 its start and end point, longitude first, and
      leaves the other lanes (here R2) empty; the second message, whose end
      latitude is 0, leaves lane 0 as it was. */
  lemma L1Stream()
    ensures var s1 := Replay([L1Message(10.0, 77.0, 10.01, 77.01)]);
      && s1.polylineData[0] == [Point(Num(77.0), Num(10.0)), Point(Num(77.01), Num(10.01))]
      && s1.polylineData[5] == []
    ensures var s2 := Replay([L1Message(10.0, 77.0, 10.01, 77.01), L1Message(10.01, 77.01, 0.0, 77.02)]);
      s2.polylineData[0] == [Point(Num(77.0), Num(10.0)), Point(Num(77.01), Num(10.01))]
  {
    var m1 := L1Message(10.0, 77.0, 10.01, 77.01);
    var m2 := L1Message(10.01, 77.01, 0.0, 77.02);
    var msgs := [m1, m2];
    assert msgs[..1] == [m1];
    assert [m1][..0] == [];
    KeyNamesDistinct(0);
    KeyNamesDisjoint(0, 5);
    var k := LaneKeysOf(0);
    assert LaneAccepts(m1, k);
    assert !Truthy(Get(m2, k.endLat));
    var k5 := LaneKeysOf(5);
    assert k5.startLat in KeyNames(5);
    assert !LaneAccepts(m1, k5);
  }

  /** The second message of the stream changes nothing at all. */
  lemma L1SecondMessageChangesNothing()
    ensures Replay([L1Message(10.0, 77.0, 10.01, 77.01), L1Message(10.01, 77.01, 0.0, 77.02)])
      == Replay([L1Message(10.0, 77.0, 10.01, 77.01)])
  {
    var m1 := L1Message(10.0, 77.0, 10.01, 77.01);
    var m2 := L1Message(10.01, 77.01, 0.0, 77.02);
    ZeroEndLatitudeIgnored([m1], 10.01, 77.01, 77.02);
    assert [m1] + [m2] == [m1, m2];
  }

  /** An L1 message whose end latitude is 0 can be dropped from the end of any
      stream: lane 0 finds a falsy coordinate, and the other lanes find none of
      their properties. */
  lemma ZeroEndLatitudeIgnored(msgs: seq<Message>, startLat: real, startLon: real, endLon: real)
    ensures Replay(msgs + [L1Message(startLat, startLon, 0.0, endLon)]) == Replay(msgs)
  {
    var m := L1Message(startLat, startLon, 0.0, endLon);
    forall i: LaneId
      ensures !LaneAccepts(m, LaneKeysOf(i))
    {
      var k := LaneKeysOf(i);
      if i == 0 {
        assert !Truthy(Get(m, k.endLat));
      } else {
        KeyNamesDisjoint(0, i);
        assert k.startLat in KeyNames(i);
        assert k.startLat !in m;
      }
    }
    ReplayIgnoresRejected(msgs, m);
  }
}
