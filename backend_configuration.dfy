/** `decode_backend_configuration` (qiskit_ibm_runtime/utils/backend.py): the online
    date of a backend-configuration dict becomes a parsed timestamp and, when the
    configuration lists u-channel LOs, every LO's `scale` becomes a complex number. */
module BackendConfiguration {
  import opened Wire
  import opened InPlace
  import opened ComplexCoercer

  /** `u_channel_lo["scale"] = _to_complex(u_channel_lo["scale"])`. */
  function ScaleToComplex(lo: Json): After
  {
    Assign(lo, "scale", ToComplexJson)
  }

  /** `for u_channel_lo in u_channel_list: ...`. */
  function DecodeChannelList(list: Json): After
  {
    Loop(list, ScaleToComplex)
  }

  /** `decode_backend_configuration(config)`, as the state it leaves `config` in. */
  function BackendConfigurationAfter(config: Json, isoparse: IsoParser): After
  {
    var s := Assign(config, "online_date", IsoParseWith(isoparse));
    if s.raised.Some? then s
    else
      match Contains(s.state, "u_channel_lo")
      case Err(e) => After(s.state, Some(e))
      case Ok(false) => s
      case Ok(true) => LoopAt(s.state, "u_channel_lo", DecodeChannelList)
  }

  /** `for u_channel_list in config["u_channel_lo"]: for u_channel_lo in u_channel_list: ...`. */
  method DecodeChannelLists(config: Json) returns (r: After)
    ensures r == LoopAt(config, "u_channel_lo", DecodeChannelList)
  {
    var got := Get(config, "u_channel_lo");
    if got.Err? {
      return After(config, Some(got.error));
    }
    var elements := Elements(got.value);
    if elements.Err? {
      PutSame(config, "u_channel_lo");
      return After(config, Some(elements.error));
    }
    var lists := elements.value;
    var done: seq<Json> := [];
    var i := 0;
    while i < |lists|
      invariant 0 <= i <= |lists| && |done| == i
      invariant ForEach(lists, DecodeChannelList) ==
        Prepend(done, ForEach(lists[i..], DecodeChannelList))
    {
      var s := LoopInPlace(lists[i], ScaleToComplex);
      if s.raised.Some? {
        ForEachRaisedAt(lists, i, DecodeChannelList, done, s);
        done := done + [s.state] + lists[i + 1..];
        LoopAtFromItems(config, "u_channel_lo", DecodeChannelList, done, s.raised);
        return After(Put(config, "u_channel_lo", Rebuild(got.value, done)), s.raised);
      }
      ForEachCompletedAt(lists, i, DecodeChannelList, done, s);
      done := done + [s.state];
      i := i + 1;
    }
    ForEachFinished(lists, i, DecodeChannelList, done);
    LoopAtFromItems(config, "u_channel_lo", DecodeChannelList, done, None);
    r := After(Put(config, "u_channel_lo", Rebuild(got.value, done)), None);
  }

  /** `decode_backend_configuration(config)`. */
  method DecodeBackendConfiguration(config: Json, isoparse: IsoParser) returns (r: After)
    ensures r == BackendConfigurationAfter(config, isoparse)
  {
    r := Assign(config, "online_date", IsoParseWith(isoparse));
    if r.raised.None? {
      var hasChannels := Contains(r.state, "u_channel_lo");
      if hasChannels == Ok(true) {
        r := DecodeChannelLists(r.state);
      }
    }
  }
}

/** What `decode_backend_configuration` promises. */
module BackendConfigurationProperties {
  import opened Wire
  import opened InPlace
  import opened ComplexCoercer
  import opened BackendConfiguration

  /** `lo'` is the u-channel LO `lo` with its `scale` replaced by `_to_complex` of the
      old value; `Put` keeps every other key and the key order. */
  ghost predicate ScaleRewritten(lo: Json, lo': Json) {
    && HasKey(lo, "scale")
    && ToComplex(Value(lo, "scale")).Ok?
    && lo' == Put(lo, "scale", JComplex(ToComplex(Value(lo, "scale")).value))
  }

  /** A list of u-channel LOs, each with its scale coerced. */
  ghost predicate ChannelListDecoded(list: Json, list': Json) {
    Pointwise(list, list', ScaleRewritten)
  }

  lemma ChannelListCompleted(list: Json)
    requires DecodeChannelList(list).raised.None?
    ensures ChannelListDecoded(list, DecodeChannelList(list).state)
  {
    LoopCompleted(list, ScaleToComplex, ScaleRewritten);
  }

  /** After `decode_backend_configuration` returns: `online_date` holds the parse of its
      old string; if `u_channel_lo` is present, every LO of every list has its scale
      coerced and the lists keep their lengths; every other key is untouched. */
  lemma BackendConfigurationDecoded(config: Json, isoparse: IsoParser)
    requires BackendConfigurationAfter(config, isoparse).raised.None?
    ensures var c' := BackendConfigurationAfter(config, isoparse).state;
      && config.JObject? && c'.JObject? && Keys(c') == Keys(config)
      && (forall k :: k != "online_date" && k != "u_channel_lo" ==> Get(c', k) == Get(config, k))
      && DateParsed(isoparse, Value(config, "online_date"), Value(c', "online_date"))
      && (HasKey(config, "u_channel_lo") ==>
            Pointwise(Value(config, "u_channel_lo"), Value(c', "u_channel_lo"), ChannelListDecoded))
      && (!HasKey(config, "u_channel_lo") ==> !HasKey(c', "u_channel_lo"))
  {
    var s := Assign(config, "online_date", IsoParseWith(isoparse));
    if HasKey(config, "u_channel_lo") {
      assert Get(s.state, "u_channel_lo") == Get(config, "u_channel_lo");
      forall x | DecodeChannelList(x).raised.None?
        ensures ChannelListDecoded(x, DecodeChannelList(x).state)
      {
        ChannelListCompleted(x);
      }
      LoopAtCompleted(s.state, "u_channel_lo", DecodeChannelList, ChannelListDecoded);
    }
  }

  /** `online_date` is mandatory: without it nothing is decoded. */
  lemma OnlineDateRequired(config: Json, isoparse: IsoParser)
    requires config.JObject? && !HasKey(config, "online_date")
    ensures BackendConfigurationAfter(config, isoparse) ==
      After(config, Some(KeyError("online_date")))
  {
  }

  /** A configuration without `u_channel_lo` only has its online date rewritten. */
  lemma WithoutChannels(config: Json, isoparse: IsoParser)
    requires config.JObject? && !HasKey(config, "u_channel_lo")
    requires Get(config, "online_date").Ok?
    requires Value(config, "online_date").JStr?
    requires isoparse(Value(config, "online_date").s).Some?
    ensures BackendConfigurationAfter(config, isoparse) ==
      After(Put(config, "online_date", JTime(isoparse(Value(config, "online_date").s).value)), None)
  {
    var c' := Put(config, "online_date", JTime(isoparse(Value(config, "online_date").s).value));
    assert Get(c', "u_channel_lo") == Get(config, "u_channel_lo");
  }

  /** Every LO's `scale` must be a complex or a pair of numbers. */
  lemma ScaleRequired(config: Json, isoparse: IsoParser, i: nat, j: nat)
    requires HasKey(config, "u_channel_lo") && Value(config, "u_channel_lo").JArray?
    requires i < |Value(config, "u_channel_lo").items|
    requires var list := Value(config, "u_channel_lo").items[i];
      list.JArray? && j < |list.items| && !ToComplex(Value(list.items[j], "scale")).Ok?
    ensures BackendConfigurationAfter(config, isoparse).raised.Some?
  {
    if BackendConfigurationAfter(config, isoparse).raised.None? {
      BackendConfigurationDecoded(config, isoparse);
      assert false;
    }
  }

  /** The worked case: `{"online_date": d, "u_channel_lo": [[{"q": 0, "scale": [0.5, 0.0]}]]}`
      becomes `{"online_date": isoparse(d), "u_channel_lo": [[{"q": 0, "scale": 0.5+0j}]]}`. */
  lemma ScaleExample(d: string, isoparse: IsoParser)
    requires isoparse(d).Some?
    ensures BackendConfigurationAfter(
              JObject([("online_date", JStr(d)), ("u_channel_lo", JArray([JArray([
                JObject([("q", JNum(0.0)), ("scale", JArray([JNum(0.5), JNum(0.0)]))])])]))]),
              isoparse)
         == After(
              JObject([("online_date", JTime(isoparse(d).value)), ("u_channel_lo", JArray([JArray([
                JObject([("q", JNum(0.0)), ("scale", JComplex(Complex(0.5, 0.0)))])])]))]),
              None)
  {
    var lo := JObject([("q", JNum(0.0)), ("scale", JArray([JNum(0.5), JNum(0.0)]))]);
    var lo' := JObject([("q", JNum(0.0)), ("scale", JComplex(Complex(0.5, 0.0)))]);
    var c1 := JObject([("online_date", JTime(isoparse(d).value)), ("u_channel_lo", JArray([JArray([lo])]))]);
    OnlineDateExample(d, isoparse, JArray([JArray([lo])]));
    ChannelsExample(c1, lo, lo');
  }

  /** The online date of the worked case. */
  lemma OnlineDateExample(d: string, isoparse: IsoParser, channels: Json)
    requires isoparse(d).Some?
    ensures Assign(JObject([("online_date", JStr(d)), ("u_channel_lo", channels)]),
                   "online_date", IsoParseWith(isoparse))
         == After(JObject([("online_date", JTime(isoparse(d).value)), ("u_channel_lo", channels)]), None)
  {
  }

  /** The `u_channel_lo` step of the worked case, once the online date is parsed. */
  lemma ChannelsExample(c1: Json, lo: Json, lo': Json)
    requires lo == JObject([("q", JNum(0.0)), ("scale", JArray([JNum(0.5), JNum(0.0)]))])
    requires lo' == JObject([("q", JNum(0.0)), ("scale", JComplex(Complex(0.5, 0.0)))])
    requires c1.JObject? && |c1.fields| == 2 && c1.fields[0].0 == "online_date"
    requires c1.fields[1] == ("u_channel_lo", JArray([JArray([lo])]))
    ensures Contains(c1, "u_channel_lo") == Ok(true)
    ensures LoopAt(c1, "u_channel_lo", DecodeChannelList) ==
      After(JObject([c1.fields[0], ("u_channel_lo", JArray([JArray([lo'])]))]), None)
  {
    ChannelListExample(lo, lo');
    assert c1.fields[1..][0].0 == "u_channel_lo";
    assert Find(c1.fields, "u_channel_lo") == Some(1);
    assert c1.fields[1 := ("u_channel_lo", JArray([JArray([lo'])]))]
        == [c1.fields[0], ("u_channel_lo", JArray([JArray([lo'])]))];
  }

  /** The loop over `u_channel_lo = [[lo]]` of the worked case. */
  lemma ChannelListExample(lo: Json, lo': Json)
    requires lo == JObject([("q", JNum(0.0)), ("scale", JArray([JNum(0.5), JNum(0.0)]))])
    requires lo' == JObject([("q", JNum(0.0)), ("scale", JComplex(Complex(0.5, 0.0)))])
    ensures ForEach([JArray([lo])], DecodeChannelList) == ItemsAfter([JArray([lo'])], None)
  {
    ScaleOfExample(lo, lo');
    assert ForEach([lo], ScaleToComplex) == ItemsAfter([lo'], None);
    assert DecodeChannelList(JArray([lo])) == After(JArray([lo']), None);
  }

  /** The scale of the worked case's one LO. */
  lemma ScaleOfExample(lo: Json, lo': Json)
    requires lo == JObject([("q", JNum(0.0)), ("scale", JArray([JNum(0.5), JNum(0.0)]))])
    requires lo' == JObject([("q", JNum(0.0)), ("scale", JComplex(Complex(0.5, 0.0)))])
    ensures ScaleToComplex(lo) == After(lo', None)
  {
    PairOfReals(0.5, 0.0);
    assert lo.fields[1..][0].0 == "scale";
    assert Find(lo.fields, "scale") == Some(1);
  }
}
