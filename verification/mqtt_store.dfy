/** The lane polyline store: eight lists of points, one per lane, extended by
    each telemetry message whose coordinates for that lane are all present. */
module MqttStore {
  import opened JsValue
  import opened LaneSchema

  /** A stored point holds the message's raw values, longitude first. */
  datatype Point = Point(lon: JsVal, lat: JsVal)

  type Polyline = seq<Point>

  /** The store state: one polyline per lane, indexed by lane id. */
  datatype MqttState = MqttState(polylineData: seq<Polyline>)

  /** The store always holds exactly one polyline per lane. */
  predicate Valid(s: MqttState)
  {
    |s.polylineData| == LaneCount
  }

  /** No lane holds exactly one point: a lane is empty or a line of at least
      two points. */
  predicate NoSinglePoint(s: MqttState)
  {
    forall i :: 0 <= i < |s.polylineData| ==> |s.polylineData[i]| != 1
  }

  /** The state the store starts in: eight empty lanes. */
  function InitialState(): (s: MqttState)
    ensures Valid(s) && NoSinglePoint(s)
    ensures forall i :: 0 <= i < |s.polylineData| ==> s.polylineData[i] == []
  {
    MqttState(seq(LaneCount, _ => []))
  }

  /** The presence test of a lane: its four coordinates in `data` are all
      truthy, so a lane accepts a message exactly when every one of its four
      property names is present in it with a truthy value. */
  predicate LaneAccepts(data: Message, keys: LaneKeys)
    ensures LaneAccepts(data, keys) <==> forall name :: name in Names(keys) ==> name in data && Truthy(data[name])
  {
    && Truthy(Get(data, keys.startLat))
    && Truthy(Get(data, keys.startLon))
    && Truthy(Get(data, keys.endLat))
    && Truthy(Get(data, keys.endLon))
  }

  /** The start point a message gives a lane: longitude first, and both
      coordinates truthy when the lane accepts the message. */
  function StartPoint(data: Message, keys: LaneKeys): (p: Point)
    ensures p.lon == Get(data, keys.startLon) && p.lat == Get(data, keys.startLat)
    ensures LaneAccepts(data, keys) ==> Truthy(p.lon) && Truthy(p.lat)
  {
    Point(Get(data, keys.startLon), Get(data, keys.startLat))
  }

  /** The end point a message gives a lane: longitude first, and both
      coordinates truthy when the lane accepts the message. */
  function EndPoint(data: Message, keys: LaneKeys): (p: Point)
    ensures p.lon == Get(data, keys.endLon) && p.lat == Get(data, keys.endLat)
    ensures LaneAccepts(data, keys) ==> Truthy(p.lon) && Truthy(p.lat)
  {
    Point(Get(data, keys.endLon), Get(data, keys.endLat))
  }

  /** The three outcomes for one lane, stated on the lane alone: a lane that
      does not accept the message is unchanged, an empty lane that accepts it
      becomes [start, end], and a non-empty lane that accepts it gains [end]. */
  predicate LaneOutcome(before: Polyline, after: Polyline, keys: LaneKeys, data: Message)
  {
    && (!LaneAccepts(data, keys) ==> after == before)
    && (LaneAccepts(data, keys) && before == [] ==> after == [StartPoint(data, keys), EndPoint(data, keys)])
    && (LaneAccepts(data, keys) && before != [] ==> after == before + [EndPoint(data, keys)])
  }

  /** One lane's share of a message, written as the store does it: when the
      four coordinates are truthy, an empty lane first receives the start point,
      and the lane then receives the end point; otherwise nothing happens. */
  function StepLane(line: Polyline, keys: LaneKeys, data: Message): (r: Polyline)
    ensures LaneOutcome(line, r, keys, data)
  {
    if LaneAccepts(data, keys) then
      var withStart := if |line| == 0 then line + [StartPoint(data, keys)] else line;
      withStart + [EndPoint(data, keys)]
    else
      line
  }

  /** Visits the table entries `k`, `k + 1`, ..., 7 in order, updating the
      polyline at each entry's id. Entries before `k` have been visited. */
  function VisitFrom(lanes: seq<Polyline>, data: Message, k: nat): (r: seq<Polyline>)
    requires |lanes| == LaneCount && k <= LaneCount
    ensures |r| == LaneCount
    ensures forall i :: 0 <= i < k ==> r[i] == lanes[i]
    ensures forall i :: k <= i < LaneCount ==> r[i] == StepLane(lanes[i], LaneKeysOf(i), data)
    decreases LaneCount - k
  {
    if k == LaneCount then
      lanes
    else
      var lane := LaneKeysOf(k);
      VisitFrom(lanes[lane.id := StepLane(lanes[lane.id], lane, data)], data, k + 1)
  }

  /** Handles one inbound message. Lanes whose coordinates are not all truthy
      (absent, null, 0, "", false or NaN) are left alone; an accepted empty lane
      becomes its start and end point; an accepted non-empty lane gains only its
      end point. */
  function AddMqttData(s: MqttState, data: Message): (r: MqttState)
    requires Valid(s)
    ensures Valid(r)
    ensures forall i :: 0 <= i < LaneCount ==>
      LaneOutcome(s.polylineData[i], r.polylineData[i], LaneKeysOf(i), data)
  {
    MqttState(VisitFrom(s.polylineData, data, 0))
  }

  /** The getter exposes the stored lanes themselves, for every state. */
  function GetPolylineCoordinates(s: MqttState): (r: seq<Polyline>)
    ensures r == s.polylineData
  {
    s.polylineData
  }
}
