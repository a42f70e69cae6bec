/** The threshold store: four quality limits with fixed defaults, replaced
    together by one action. */
module ThresholdStore {
  import opened JsValue

  /** The four limits. The action stores whatever it is given, so each field
      holds an arbitrary JavaScript value rather than a checked number. */
  datatype ThresholdState = ThresholdState(
    roughnessThreshold: JsVal,
    rutDepthThreshold: JsVal,
    crackingThreshold: JsVal,
    ravellingThreshold: JsVal)

  const RoughnessName: string := "roughnessThreshold"
  const RutDepthName: string := "rutDepthThreshold"
  const CrackingName: string := "crackingThreshold"
  const RavellingName: string := "ravellingThreshold"

  /** The names of the four state fields. */
  const FieldNames: set<string> := {RoughnessName, RutDepthName, CrackingName, RavellingName}

  /** Reading one of the four state fields by name, as a component reads
      `store[name]`. */
  function Field(t: ThresholdState, name: string): (v: JsVal)
    requires name in FieldNames
  {
    if name == RoughnessName then t.roughnessThreshold
    else if name == RutDepthName then t.rutDepthThreshold
    else if name == CrackingName then t.crackingThreshold
    else t.ravellingThreshold
  }

  /** The state the store starts in. */
  function InitialThresholds(): (t: ThresholdState)
    ensures Field(t, RoughnessName) == Num(2400.0)
    ensures Field(t, RutDepthName) == Num(5.0)
    ensures Field(t, CrackingName) == Num(5.0)
    ensures Field(t, RavellingName) == Num(1.0)
  {
    ThresholdState(Num(2400.0), Num(5.0), Num(5.0), Num(1.0))
  }

  /** Replaces all four limits with the like-named properties of `payload`,
      without any check; a property the payload lacks becomes `undefined`. */
  function SetThresholds(t: ThresholdState, payload: Message): (r: ThresholdState)
    ensures forall name :: name in FieldNames ==> Field(r, name) == Get(payload, name)
  {
    ThresholdState(
      Get(payload, RoughnessName),
      Get(payload, RutDepthName),
      Get(payload, CrackingName),
      Get(payload, RavellingName))
  }

  /** A state is determined by the values of its four named fields: it holds
      nothing else. */
  lemma FieldsDetermineState(t1: ThresholdState, t2: ThresholdState)
    requires forall name :: name in FieldNames ==> Field(t1, name) == Field(t2, name)
    ensures t1 == t2
  {
  }

  /** No field keeps a stale value: the result does not depend on the state the
      action is applied to. */
  lemma SetThresholdsForgetsPrevious(t1: ThresholdState, t2: ThresholdState, payload: Message)
    ensures SetThresholds(t1, payload) == SetThresholds(t2, payload)
  {
    FieldsDetermineState(SetThresholds(t1, payload), SetThresholds(t2, payload));
  }

  /** Applying the same payload twice gives the same state as applying it once. */
  lemma SetThresholdsIdempotent(t: ThresholdState, payload: Message)
    ensures SetThresholds(SetThresholds(t, payload), payload) == SetThresholds(t, payload)
  {
    SetThresholdsForgetsPrevious(SetThresholds(t, payload), t, payload);
  }

  /** Of two successive calls, only the second one matters. */
  lemma SetThresholdsLastWriteWins(t: ThresholdState, p1: Message, p2: Message)
    ensures SetThresholds(SetThresholds(t, p1), p2) == SetThresholds(t, p2)
  {
    SetThresholdsForgetsPrevious(SetThresholds(t, p1), t, p2);
  }

  /** A payload that carries the four fields of a state restores that state
      exactly, whatever the store held before. */
  lemma SetThresholdsFromState(t: ThresholdState, u: ThresholdState)
    ensures SetThresholds(t, map name | name in FieldNames :: Field(u, name)) == u
  {
    var payload := map name | name in FieldNames :: Field(u, name);
    FieldsDetermineState(SetThresholds(t, payload), u);
  }
}
