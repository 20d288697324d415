/** `decode_backend_properties` (qiskit_ibm_runtime/utils/backend.py): the update date
    of a calibration-properties dict, and the date of every qubit, gate-parameter and
    general record in it, become parsed timestamps in place. */
module BackendProperties {
  import opened Wire
  import opened InPlace

  /** `x["date"] = isoparse(x["date"])`. */
  function ParseDate(isoparse: IsoParser): Json -> After
  {
    x => Assign(x, "date", IsoParseWith(isoparse))
  }

  /** `for nduv in qubit: nduv["date"] = isoparse(nduv["date"])`. */
  function DecodeQubit(isoparse: IsoParser): Json -> After
  {
    qubit => Loop(qubit, ParseDate(isoparse))
  }

  /** `for param in gate["parameters"]: param["date"] = isoparse(param["date"])`. */
  function DecodeGate(isoparse: IsoParser): Json -> After
  {
    gate => LoopAt(gate, "parameters", ParseDate(isoparse))
  }

  /** `decode_backend_properties(properties)`, as the state it leaves `properties` in. */
  function BackendPropertiesAfter(properties: Json, isoparse: IsoParser): After
  {
    var s1 := Assign(properties, "last_update_date", IsoParseWith(isoparse));
    if s1.raised.Some? then s1
    else
      var s2 := LoopAt(s1.state, "qubits", DecodeQubit(isoparse));
      if s2.raised.Some? then s2
      else
        var s3 := LoopAt(s2.state, "gates", DecodeGate(isoparse));
        if s3.raised.Some? then s3
        else LoopAt(s3.state, "general", ParseDate(isoparse))
  }

  /** `for qubit in properties["qubits"]: for nduv in qubit: ...`. */
  method DecodeQubits(properties: Json, isoparse: IsoParser) returns (r: After)
    ensures r == LoopAt(properties, "qubits", DecodeQubit(isoparse))
  {
    var got := Get(properties, "qubits");
    if got.Err? {
      return After(properties, Some(got.error));
    }
    var elements := Elements(got.value);
    if elements.Err? {
      PutSame(properties, "qubits");
      return After(properties, Some(elements.error));
    }
    var qubits := elements.value;
    var done: seq<Json> := [];
    var i := 0;
    while i < |qubits|
      invariant 0 <= i <= |qubits| && |done| == i
      invariant ForEach(qubits, DecodeQubit(isoparse)) ==
        Prepend(done, ForEach(qubits[i..], DecodeQubit(isoparse)))
    {
      var s := LoopInPlace(qubits[i], ParseDate(isoparse));
      if s.raised.Some? {
        ForEachRaisedAt(qubits, i, DecodeQubit(isoparse), done, s);
        done := done + [s.state] + qubits[i + 1..];
        LoopAtFromItems(properties, "qubits", DecodeQubit(isoparse), done, s.raised);
        return After(Put(properties, "qubits", Rebuild(got.value, done)), s.raised);
      }
      ForEachCompletedAt(qubits, i, DecodeQubit(isoparse), done, s);
      done := done + [s.state];
      i := i + 1;
    }
    ForEachFinished(qubits, i, DecodeQubit(isoparse), done);
    LoopAtFromItems(properties, "qubits", DecodeQubit(isoparse), done, None);
    r := After(Put(properties, "qubits", Rebuild(got.value, done)), None);
  }

  /** `for gate in properties["gates"]: for param in gate["parameters"]: ...`. */
  method DecodeGates(properties: Json, isoparse: IsoParser) returns (r: After)
    ensures r == LoopAt(properties, "gates", DecodeGate(isoparse))
  {
    var got := Get(properties, "gates");
    if got.Err? {
      return After(properties, Some(got.error));
    }
    var elements := Elements(got.value);
    if elements.Err? {
      PutSame(properties, "gates");
      return After(properties, Some(elements.error));
    }
    var gates := elements.value;
    var done: seq<Json> := [];
    var i := 0;
    while i < |gates|
      invariant 0 <= i <= |gates| && |done| == i
      invariant ForEach(gates, DecodeGate(isoparse)) ==
        Prepend(done, ForEach(gates[i..], DecodeGate(isoparse)))
    {
      var s := LoopAtInPlace(gates[i], "parameters", ParseDate(isoparse));
      if s.raised.Some? {
        ForEachRaisedAt(gates, i, DecodeGate(isoparse), done, s);
        done := done + [s.state] + gates[i + 1..];
        LoopAtFromItems(properties, "gates", DecodeGate(isoparse), done, s.raised);
        return After(Put(properties, "gates", Rebuild(got.value, done)), s.raised);
      }
      ForEachCompletedAt(gates, i, DecodeGate(isoparse), done, s);
      done := done + [s.state];
      i := i + 1;
    }
    ForEachFinished(gates, i, DecodeGate(isoparse), done);
    LoopAtFromItems(properties, "gates", DecodeGate(isoparse), done, None);
    r := After(Put(properties, "gates", Rebuild(got.value, done)), None);
  }

  /** `decode_backend_properties(properties)`: the steps run in the source's order and
      the first exception ends the call, with the earlier rewrites in place. */
  method DecodeBackendProperties(properties: Json, isoparse: IsoParser) returns (r: After)
    ensures r == BackendPropertiesAfter(properties, isoparse)
  {
    r := Assign(properties, "last_update_date", IsoParseWith(isoparse));
    if r.raised.None? {
      r := DecodeQubits(r.state, isoparse);
    }
    if r.raised.None? {
      r := DecodeGates(r.state, isoparse);
    }
    if r.raised.None? {
      r := LoopAtInPlace(r.state, "general", ParseDate(isoparse));
    }
  }
}

/** What `decode_backend_properties` promises. */
module BackendPropertiesProperties {
  import opened Wire
  import opened InPlace
  import opened BackendProperties

  /** `x'` is the record `x` with its `date` replaced by the parse of its old string;
      `Put` keeps every other key and the key order. */
  ghost predicate DateRewritten(isoparse: IsoParser, x: Json, x': Json) {
    && HasKey(x, "date")
    && DateParsed(isoparse, Value(x, "date"), Value(x', "date"))
    && x' == Put(x, "date", Value(x', "date"))
  }

  ghost function DateRel(isoparse: IsoParser): (Json, Json) -> bool {
    (x: Json, x': Json) => DateRewritten(isoparse, x, x')
  }

  /** A qubit's list of records, each with its date parsed. */
  ghost function QubitRel(isoparse: IsoParser): (Json, Json) -> bool {
    (q: Json, q': Json) => Pointwise(q, q', DateRel(isoparse))
  }

  /** A gate whose parameter records each have their date parsed, nothing else changed. */
  ghost function GateRel(isoparse: IsoParser): (Json, Json) -> bool {
    (g: Json, g': Json) =>
      && HasKey(g, "parameters")
      && g'.JObject? && Keys(g') == Keys(g)
      && (forall k :: k != "parameters" ==> Get(g', k) == Get(g, k))
      && Pointwise(Value(g, "parameters"), Value(g', "parameters"), DateRel(isoparse))
  }

  lemma DateStepCompleted(isoparse: IsoParser)
    ensures forall x :: ParseDate(isoparse)(x).raised.None? ==>
      DateRel(isoparse)(x, ParseDate(isoparse)(x).state)
  {
  }

  lemma QubitStepCompleted(isoparse: IsoParser)
    ensures forall q :: DecodeQubit(isoparse)(q).raised.None? ==>
      QubitRel(isoparse)(q, DecodeQubit(isoparse)(q).state)
  {
    DateStepCompleted(isoparse);
    forall q | DecodeQubit(isoparse)(q).raised.None?
      ensures QubitRel(isoparse)(q, DecodeQubit(isoparse)(q).state)
    {
      LoopCompleted(q, ParseDate(isoparse), DateRel(isoparse));
    }
  }

  lemma GateStepCompleted(isoparse: IsoParser)
    ensures forall g :: DecodeGate(isoparse)(g).raised.None? ==>
      GateRel(isoparse)(g, DecodeGate(isoparse)(g).state)
  {
    DateStepCompleted(isoparse);
    forall g | DecodeGate(isoparse)(g).raised.None?
      ensures GateRel(isoparse)(g, DecodeGate(isoparse)(g).state)
    {
      LoopAtCompleted(g, "parameters", ParseDate(isoparse), DateRel(isoparse));
    }
  }

  /** After `decode_backend_properties` returns: `last_update_date` holds the parse of its
      old string; every record of every qubit, every parameter of every gate, and every
      general record has its date parsed; the lists keep their lengths; every other key
      of `properties` is untouched. */
  lemma BackendPropertiesDecoded(properties: Json, isoparse: IsoParser)
    requires BackendPropertiesAfter(properties, isoparse).raised.None?
    ensures var p' := BackendPropertiesAfter(properties, isoparse).state;
      && properties.JObject? && p'.JObject? && Keys(p') == Keys(properties)
      && (forall k :: k != "last_update_date" && k != "qubits" && k != "gates" && k != "general"
            ==> Get(p', k) == Get(properties, k))
      && DateParsed(isoparse, Value(properties, "last_update_date"), Value(p', "last_update_date"))
      && Pointwise(Value(properties, "qubits"), Value(p', "qubits"), QubitRel(isoparse))
      && Pointwise(Value(properties, "gates"), Value(p', "gates"), GateRel(isoparse))
      && Pointwise(Value(properties, "general"), Value(p', "general"), DateRel(isoparse))
  {
    CompletedStages(properties, isoparse);
  }

  /** The four intermediate states of a completed call, and what each stage did. */
  lemma CompletedStages(properties: Json, isoparse: IsoParser)
    requires BackendPropertiesAfter(properties, isoparse).raised.None?
    ensures var s1 := Assign(properties, "last_update_date", IsoParseWith(isoparse)).state;
      var s2 := LoopAt(s1, "qubits", DecodeQubit(isoparse)).state;
      var s3 := LoopAt(s2, "gates", DecodeGate(isoparse)).state;
      var p' := BackendPropertiesAfter(properties, isoparse).state;
      && properties.JObject? && p'.JObject? && Keys(p') == Keys(properties)
      && (forall k :: k != "last_update_date" && k != "qubits" && k != "gates" && k != "general"
            ==> Get(p', k) == Get(properties, k))
      && Get(p', "last_update_date") == Get(s1, "last_update_date")
      && Get(s1, "qubits") == Get(properties, "qubits") && Get(p', "qubits") == Get(s2, "qubits")
      && Get(s2, "gates") == Get(properties, "gates") && Get(p', "gates") == Get(s3, "gates")
      && Get(s3, "general") == Get(properties, "general")
      && Pointwise(Value(s1, "qubits"), Value(s2, "qubits"), QubitRel(isoparse))
      && Pointwise(Value(s2, "gates"), Value(s3, "gates"), GateRel(isoparse))
      && Pointwise(Value(s3, "general"), Value(p', "general"), DateRel(isoparse))
  {
    var s1 := Assign(properties, "last_update_date", IsoParseWith(isoparse));
    var s2 := LoopAt(s1.state, "qubits", DecodeQubit(isoparse));
    var s3 := LoopAt(s2.state, "gates", DecodeGate(isoparse));
    var s4 := LoopAt(s3.state, "general", ParseDate(isoparse));
    assert s1.raised.None? && s2.raised.None? && s3.raised.None?;
    StagesAt(properties, isoparse, s1.state, s2.state, s3.state, s4);
  }

  lemma StagesAt(properties: Json, isoparse: IsoParser, s1: Json, s2: Json, s3: Json, s4: After)
    requires Assign(properties, "last_update_date", IsoParseWith(isoparse)) == After(s1, None)
    requires LoopAt(s1, "qubits", DecodeQubit(isoparse)) == After(s2, None)
    requires LoopAt(s2, "gates", DecodeGate(isoparse)) == After(s3, None)
    requires LoopAt(s3, "general", ParseDate(isoparse)) == s4 && s4.raised.None?
    ensures var p' := s4.state;
      && properties.JObject? && p'.JObject? && Keys(p') == Keys(properties)
      && (forall k :: k != "last_update_date" && k != "qubits" && k != "gates" && k != "general"
            ==> Get(p', k) == Get(properties, k))
      && Get(p', "last_update_date") == Get(s1, "last_update_date")
      && Get(s1, "qubits") == Get(properties, "qubits") && Get(p', "qubits") == Get(s2, "qubits")
      && Get(s2, "gates") == Get(properties, "gates") && Get(p', "gates") == Get(s3, "gates")
      && Get(s3, "general") == Get(properties, "general")
      && Pointwise(Value(s1, "qubits"), Value(s2, "qubits"), QubitRel(isoparse))
      && Pointwise(Value(s2, "gates"), Value(s3, "gates"), GateRel(isoparse))
      && Pointwise(Value(s3, "general"), Value(p', "general"), DateRel(isoparse))
  {
    StagesFrame(properties, isoparse, s1, s2, s3, s4);
    StagesRewrite(properties, isoparse, s1, s2, s3, s4);
  }

  /** What the four stages of a completed call leave in place: the key order and the other keys. */
  lemma StagesFrame(properties: Json, isoparse: IsoParser, s1: Json, s2: Json, s3: Json, s4: After)
    requires Assign(properties, "last_update_date", IsoParseWith(isoparse)) == After(s1, None)
    requires LoopAt(s1, "qubits", DecodeQubit(isoparse)) == After(s2, None)
    requires LoopAt(s2, "gates", DecodeGate(isoparse)) == After(s3, None)
    requires LoopAt(s3, "general", ParseDate(isoparse)) == s4 && s4.raised.None?
    ensures var p' := s4.state;
      && properties.JObject? && p'.JObject? && Keys(p') == Keys(properties)
      && (forall k :: k != "last_update_date" && k != "qubits" && k != "gates" && k != "general"
            ==> Get(p', k) == Get(properties, k))
      && Get(p', "last_update_date") == Get(s1, "last_update_date")
      && Get(s1, "qubits") == Get(properties, "qubits") && Get(p', "qubits") == Get(s2, "qubits")
      && Get(s2, "gates") == Get(properties, "gates") && Get(p', "gates") == Get(s3, "gates")
      && Get(s3, "general") == Get(properties, "general")
  {
    LoopAtFrame(s1, "qubits", DecodeQubit(isoparse));
    LoopAtFrame(s2, "gates", DecodeGate(isoparse));
    LoopAtFrame(s3, "general", ParseDate(isoparse));
  }

  /** How each of the three loops of a completed call rewrote its list. */
  lemma StagesRewrite(properties: Json, isoparse: IsoParser, s1: Json, s2: Json, s3: Json, s4: After)
    requires LoopAt(s1, "qubits", DecodeQubit(isoparse)) == After(s2, None)
    requires LoopAt(s2, "gates", DecodeGate(isoparse)) == After(s3, None)
    requires LoopAt(s3, "general", ParseDate(isoparse)) == s4 && s4.raised.None?
    ensures Pointwise(Value(s1, "qubits"), Value(s2, "qubits"), QubitRel(isoparse))
    ensures Pointwise(Value(s2, "gates"), Value(s3, "gates"), GateRel(isoparse))
    ensures Pointwise(Value(s3, "general"), Value(s4.state, "general"), DateRel(isoparse))
  {
    QubitsStage(s1, isoparse);
    GatesStage(s2, isoparse);
    GeneralStage(s3, isoparse);
  }

  /** The loop over `qubits` of a completed call. */
  lemma QubitsStage(o: Json, isoparse: IsoParser)
    requires LoopAt(o, "qubits", DecodeQubit(isoparse)).raised.None?
    ensures var o' := LoopAt(o, "qubits", DecodeQubit(isoparse)).state;
      && o'.JObject? && Keys(o') == Keys(o)
      && (forall k :: k != "qubits" ==> Get(o', k) == Get(o, k))
      && Pointwise(Value(o, "qubits"), Value(o', "qubits"), QubitRel(isoparse))
  {
    QubitStepCompleted(isoparse);
    LoopAtCompleted(o, "qubits", DecodeQubit(isoparse), QubitRel(isoparse));
  }

  /** The loop over `gates` of a completed call. */
  lemma GatesStage(o: Json, isoparse: IsoParser)
    requires LoopAt(o, "gates", DecodeGate(isoparse)).raised.None?
    ensures var o' := LoopAt(o, "gates", DecodeGate(isoparse)).state;
      && o'.JObject? && Keys(o') == Keys(o)
      && (forall k :: k != "gates" ==> Get(o', k) == Get(o, k))
      && Pointwise(Value(o, "gates"), Value(o', "gates"), GateRel(isoparse))
  {
    GateStepCompleted(isoparse);
    LoopAtCompleted(o, "gates", DecodeGate(isoparse), GateRel(isoparse));
  }

  /** The loop over `general` of a completed call. */
  lemma GeneralStage(o: Json, isoparse: IsoParser)
    requires LoopAt(o, "general", ParseDate(isoparse)).raised.None?
    ensures var o' := LoopAt(o, "general", ParseDate(isoparse)).state;
      && o'.JObject? && Keys(o') == Keys(o)
      && (forall k :: k != "general" ==> Get(o', k) == Get(o, k))
      && Pointwise(Value(o, "general"), Value(o', "general"), DateRel(isoparse))
  {
    DateStepCompleted(isoparse);
    LoopAtCompleted(o, "general", ParseDate(isoparse), DateRel(isoparse));
  }

  /** `last_update_date` is mandatory: without it nothing is decoded. */
  lemma LastUpdateDateRequired(properties: Json, isoparse: IsoParser)
    requires properties.JObject? && !HasKey(properties, "last_update_date")
    ensures BackendPropertiesAfter(properties, isoparse) ==
      After(properties, Some(KeyError("last_update_date")))
  {
  }

  /** A `last_update_date` that is not ISO 8601 raises ValueError before anything is written. */
  lemma LastUpdateDateMalformed(properties: Json, isoparse: IsoParser)
    requires Get(properties, "last_update_date").Ok?
    requires Value(properties, "last_update_date").JStr?
    requires isoparse(Value(properties, "last_update_date").s).None?
    ensures BackendPropertiesAfter(properties, isoparse) == After(properties, Some(ValueError))
  {
  }

  /** Decoding is not transactional: with `qubits` missing, the call raises KeyError and
      `last_update_date` stays parsed. */
  lemma QubitsRequired(properties: Json, isoparse: IsoParser)
    requires properties.JObject? && !HasKey(properties, "qubits")
    requires Assign(properties, "last_update_date", IsoParseWith(isoparse)).raised.None?
    ensures var r := BackendPropertiesAfter(properties, isoparse);
      && r.raised == Some(KeyError("qubits"))
      && DateParsed(isoparse, Value(properties, "last_update_date"), Value(r.state, "last_update_date"))
  {
  }

  /** Every qubit record's `date` is mandatory: a record that is not a dict holding
      `date` makes the call raise. */
  lemma QubitDateRequired(properties: Json, isoparse: IsoParser, i: nat, j: nat)
    requires Value(properties, "qubits").JArray?
    requires i < |Value(properties, "qubits").items|
    requires var q := Value(properties, "qubits").items[i];
      q.JArray? && j < |q.items| && !HasKey(q.items[j], "date")
    ensures BackendPropertiesAfter(properties, isoparse).raised.Some?
  {
    if BackendPropertiesAfter(properties, isoparse).raised.None? {
      QubitDatesPresent(properties, isoparse, i, j);
      assert false;
    }
  }

  lemma QubitDatesPresent(properties: Json, isoparse: IsoParser, i: nat, j: nat)
    requires BackendPropertiesAfter(properties, isoparse).raised.None?
    requires Value(properties, "qubits").JArray?
    requires i < |Value(properties, "qubits").items|
    requires var q := Value(properties, "qubits").items[i]; q.JArray? && j < |q.items|
    ensures HasKey(Value(properties, "qubits").items[i].items[j], "date")
  {
    BackendPropertiesDecoded(properties, isoparse);
    var qubits' := Value(BackendPropertiesAfter(properties, isoparse).state, "qubits");
    var q := Value(properties, "qubits").items[i];
    assert QubitRel(isoparse)(q, qubits'.items[i]);
    assert DateRel(isoparse)(q.items[j], qubits'.items[i].items[j]);
  }

  /** Every gate parameter's `date` is mandatory: a parameter that is not a dict holding
      `date` makes the call raise. */
  lemma GateParameterDateRequired(properties: Json, isoparse: IsoParser, i: nat, j: nat)
    requires Value(properties, "gates").JArray?
    requires i < |Value(properties, "gates").items|
    requires var params := Value(Value(properties, "gates").items[i], "parameters");
      params.JArray? && j < |params.items| && !HasKey(params.items[j], "date")
    ensures BackendPropertiesAfter(properties, isoparse).raised.Some?
  {
    if BackendPropertiesAfter(properties, isoparse).raised.None? {
      GateDatesPresent(properties, isoparse, i, j);
      assert false;
    }
  }

  lemma GateDatesPresent(properties: Json, isoparse: IsoParser, i: nat, j: nat)
    requires BackendPropertiesAfter(properties, isoparse).raised.None?
    requires Value(properties, "gates").JArray?
    requires i < |Value(properties, "gates").items|
    requires var params := Value(Value(properties, "gates").items[i], "parameters");
      params.JArray? && j < |params.items|
    ensures HasKey(Value(Value(properties, "gates").items[i], "parameters").items[j], "date")
  {
    BackendPropertiesDecoded(properties, isoparse);
    var gates' := Value(BackendPropertiesAfter(properties, isoparse).state, "gates");
    var g := Value(properties, "gates").items[i];
    assert GateRel(isoparse)(g, gates'.items[i]);
    var params, params' := Value(g, "parameters"), Value(gates'.items[i], "parameters");
    assert DateRel(isoparse)(params.items[j], params'.items[j]);
  }

  /** Every general record's `date` is mandatory: a record that is not a dict holding
      `date` makes the call raise. */
  lemma GeneralDateRequired(properties: Json, isoparse: IsoParser, i: nat)
    requires Value(properties, "general").JArray?
    requires i < |Value(properties, "general").items|
    requires !HasKey(Value(properties, "general").items[i], "date")
    ensures BackendPropertiesAfter(properties, isoparse).raised.Some?
  {
    if BackendPropertiesAfter(properties, isoparse).raised.None? {
      BackendPropertiesDecoded(properties, isoparse);
      assert false;
    }
  }
}
