/** The fixed table of the eight survey lanes and the message property names
    that carry each lane's start and end coordinates. */
module LaneSchema {

  /** Number of lanes: L1..L4 on the left, R1..R4 on the right. */
  const LaneCount: nat := 8

  type LaneId = i: nat | i < LaneCount

  /** The lane names in table order; position `i` is the lane with id `i`. */
  const Prefixes: seq<string> := ["L1", "L2", "L3", "L4", "R1", "R2", "R3", "R4"]

  /** The four coordinate roles, as they follow the lane name in a property name. */
  const StartLatitude: string := "StartLatitude"
  const StartLongitude: string := "StartLongitude"
  const EndLatitude: string := "EndLatitude"
  const EndLongitude: string := "EndLongitude"

  /** One entry of the lane table: the lane's index into the polyline list and
      the names of its four coordinate properties. */
  datatype LaneKeys = LaneKeys(
    id: nat,
    startLat: string,
    startLon: string,
    endLat: string,
    endLon: string)

  /** The four coordinate property names of a table entry. */
  function Names(k: LaneKeys): (names: set<string>)
  {
    {k.startLat, k.startLon, k.endLat, k.endLon}
  }

  /** True when `name` begins with `p`. */
  predicate StartsWith(name: string, p: string)
  {
    |p| <= |name| && name[..|p|] == p
  }

  /** The table entry for lane `i`: the lane name followed by each coordinate
      role. Entry `i` carries id `i`, so visiting the table in order updates
      the lanes in id order. */
  function LaneKeysOf(i: LaneId): (k: LaneKeys)
    ensures k.id == i
  {
    var p := Prefixes[i];
    LaneKeys(i, p + StartLatitude, p + StartLongitude, p + EndLatitude, p + EndLongitude)
  }

  /** The four coordinate property names of lane `i`. */
  function KeyNames(i: LaneId): (names: set<string>)
  {
    Names(LaneKeysOf(i))
  }

  // Each table entry, letter for letter: the names above are the store's
  // thirty-two literal property names.

  /** Lane 0 is spelled as the store's table writes it. */
  lemma LaneL1Spelling()
    ensures LaneKeysOf(0) == LaneKeys(0, "L1StartLatitude", "L1StartLongitude", "L1EndLatitude", "L1EndLongitude")
  {
  }

  /** Lane 1 is spelled as the store's table writes it. */
  lemma LaneL2Spelling()
    ensures LaneKeysOf(1) == LaneKeys(1, "L2StartLatitude", "L2StartLongitude", "L2EndLatitude", "L2EndLongitude")
  {
  }

  /** Lane 2 is spelled as the store's table writes it. */
  lemma LaneL3Spelling()
    ensures LaneKeysOf(2) == LaneKeys(2, "L3StartLatitude", "L3StartLongitude", "L3EndLatitude", "L3EndLongitude")
  {
  }

  /** Lane 3 is spelled as the store's table writes it. */
  lemma LaneL4Spelling()
    ensures LaneKeysOf(3) == LaneKeys(3, "L4StartLatitude", "L4StartLongitude", "L4EndLatitude", "L4EndLongitude")
  {
  }

  /** Lane 4 is spelled as the store's table writes it. */
  lemma LaneR1Spelling()
    ensures LaneKeysOf(4) == LaneKeys(4, "R1StartLatitude", "R1StartLongitude", "R1EndLatitude", "R1EndLongitude")
  {
  }

  /** Lane 5 is spelled as the store's table writes it. */
  lemma LaneR2Spelling()
    ensures LaneKeysOf(5) == LaneKeys(5, "R2StartLatitude", "R2StartLongitude", "R2EndLatitude", "R2EndLongitude")
  {
  }

  /** Lane 6 is spelled as the store's table writes it. */
  lemma LaneR3Spelling()
    ensures LaneKeysOf(6) == LaneKeys(6, "R3StartLatitude", "R3StartLongitude", "R3EndLatitude", "R3EndLongitude")
  {
  }

  /** Lane 7 is spelled as the store's table writes it. */
  lemma LaneR4Spelling()
    ensures LaneKeysOf(7) == LaneKeys(7, "R4StartLatitude", "R4StartLongitude", "R4EndLatitude", "R4EndLongitude")
  {
  }

  /** Each of an entry's four property names begins with the lane name at
      that position of L1..L4, R1..R4. */
  lemma TableShape(i: LaneId)
    ensures forall name :: name in KeyNames(i) ==> StartsWith(name, Prefixes[i])
  {
  }

  /** No property name is shared between two lanes, so a message property can
      feed at most one lane. */
  lemma KeyNamesDisjoint(i: LaneId, j: LaneId)
    requires i != j
    ensures KeyNames(i) !! KeyNames(j)
  {
    TableShape(i);
    TableShape(j);
    assert |Prefixes[i]| == |Prefixes[j]| == 2;
    assert Prefixes[i] != Prefixes[j];
  }

  /** Within one lane the four property names are pairwise different. */
  lemma KeyNamesDistinct(i: LaneId)
    ensures |KeyNames(i)| == 4
  {
    var k := LaneKeysOf(i);
    assert |k.startLat| == 15 && |k.startLon| == 16 && |k.endLat| == 13 && |k.endLon| == 14;
  }
}
