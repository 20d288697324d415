/** `decode_pulse_defaults`, `_decode_pulse_library_item` and `_decode_pulse_qobj_instr`
    (qiskit_ibm_runtime/utils/backend.py): the pulse samples, instruction values and
    instruction amplitudes of a pulse-defaults dict become complex numbers in place. */
module PulseDefaults {
  import opened Wire
  import opened InPlace
  import opened ComplexCoercer

  /** `[_to_complex(x) for x in xs]`; the first element that cannot be coerced raises. */
  function ComplexAll(xs: seq<Json>): (r: Result<seq<Json>>)
    ensures r.Ok? <==> forall k :: 0 <= k < |xs| ==> ToComplex(xs[k]).Ok?
    ensures r.Ok? ==> |r.value| == |xs|
    ensures r.Ok? ==> forall k :: 0 <= k < |xs| ==> r.value[k] == JComplex(ToComplex(xs[k]).value)
  {
    if xs == [] then Ok([])
    else
      var c :- ToComplex(xs[0]);
      var rest :- ComplexAll(xs[1..]);
      assert forall k :: 0 < k < |xs| ==> xs[k] == xs[1..][k - 1];
      Ok([JComplex(c)] + rest)
  }

  /** The comprehension raises the exception of the first element that cannot be coerced. */
  lemma {:induction false} ComplexAllFailsAt(xs: seq<Json>, k: nat)
    requires k < |xs| && ToComplex(xs[k]).Err?
    requires forall j :: 0 <= j < k ==> ToComplex(xs[j]).Ok?
    ensures ComplexAll(xs) == Err(ToComplex(xs[k]).error)
  {
    if k > 0 {
      forall j | 0 <= j < k - 1 ensures ToComplex(xs[1..][j]).Ok? {
        assert xs[1..][j] == xs[j + 1];
      }
      assert xs[1..][k - 1] == xs[k];
      ComplexAllFailsAt(xs[1..], k - 1);
    }
  }

  /** The list comprehension over `item["samples"]`: a fresh list of complex numbers. */
  function SamplesToComplex(samples: Json): (r: Result<Json>)
    ensures r.Ok? <==> Elements(samples).Ok? && ComplexAll(Elements(samples).value).Ok?
    ensures r.Ok? ==> r.value == JArray(ComplexAll(Elements(samples).value).value)
  {
    var xs :- Elements(samples);
    var cs :- ComplexAll(xs);
    Ok(JArray(cs))
  }

  /** `item'` is the library item `item` with every sample coerced to complex: the
      samples list has one complex number per old sample, element k being `_to_complex`
      of old sample k, and every other key has its old value. */
  ghost predicate SamplesDecoded(item: Json, item': Json)
  {
    && HasKey(item, "samples")
    && Elements(Value(item, "samples")).Ok?
    && var old_samples := Elements(Value(item, "samples")).value;
    && item'.JObject? && Keys(item') == Keys(item)
    && (forall k :: k != "samples" ==> Get(item', k) == Get(item, k))
    && Value(item', "samples").JArray?
    && |Value(item', "samples").items| == |old_samples|
    && forall k :: 0 <= k < |old_samples| ==>
         ToComplex(old_samples[k]).Ok? &&
         Value(item', "samples").items[k] == JComplex(ToComplex(old_samples[k]).value)
  }

  /** `_decode_pulse_library_item(item)`: all samples are coerced, or the item is left
      as it was, since the new list is assigned only once it is complete. */
  function DecodePulseLibraryItem(item: Json): (r: After)
    ensures r.raised.None? <==>
      && HasKey(item, "samples")
      && Elements(Value(item, "samples")).Ok?
      && forall x :: x in Elements(Value(item, "samples")).value ==> ToComplex(x).Ok?
    ensures r.raised.None? ==> SamplesDecoded(item, r.state)
    ensures r.raised.Some? ==> r.state == item
  {
    Assign(item, "samples", SamplesToComplex)
  }

  /** `_decode_pulse_qobj_instr(instr)`: `val` is coerced if present, then
      `parameters["amp"]` if `parameters` is present and holds `amp`. */
  function DecodePulseQobjInstr(instr: Json): After
  {
    var afterVal :=
      match Contains(instr, "val")
      case Err(e) => After(instr, Some(e))
      case Ok(false) => After(instr, None)
      case Ok(true) => Assign(instr, "val", ToComplexJson);
    if afterVal.raised.Some? then afterVal
    else
      var i := afterVal.state;
      match Contains(i, "parameters")
      case Err(e) => After(i, Some(e))
      case Ok(false) => After(i, None)
      case Ok(true) =>
        match Get(i, "parameters")
        case Err(e) => After(i, Some(e))
        case Ok(params) =>
          match Contains(params, "amp")
          case Err(e) => After(i, Some(e))
          case Ok(false) => After(i, None)
          case Ok(true) =>
            var amp := Assign(params, "amp", ToComplexJson);
            if amp.raised.Some? then After(i, amp.raised)
            else After(Put(i, "parameters", amp.state), None)
  }

  /** The body of the loop over `cmd_def`: a command without `sequence` is skipped. */
  function DecodeCommand(cmd: Json): (r: After)
    ensures Contains(cmd, "sequence") == Ok(false) ==> r == After(cmd, None)
  {
    match Contains(cmd, "sequence")
    case Err(e) => After(cmd, Some(e))
    case Ok(false) => After(cmd, None)
    case Ok(true) => LoopAt(cmd, "sequence", DecodePulseQobjInstr)
  }

  /** `if "sequence" in cmd: for instr in cmd["sequence"]: _decode_pulse_qobj_instr(instr)`. */
  method DecodeCommandInPlace(cmd: Json) returns (r: After)
    ensures r == DecodeCommand(cmd)
  {
    var hasSequence := Contains(cmd, "sequence");
    if hasSequence.Err? {
      r := After(cmd, Some(hasSequence.error));
    } else if !hasSequence.value {
      r := After(cmd, None);
    } else {
      r := LoopAtInPlace(cmd, "sequence", DecodePulseQobjInstr);
    }
  }

  /** `decode_pulse_defaults(defaults)`, as the state it leaves `defaults` in. */
  function PulseDefaultsAfter(defaults: Json): After
  {
    var s := LoopAt(defaults, "pulse_library", DecodePulseLibraryItem);
    if s.raised.Some? then s
    else LoopAt(s.state, "cmd_def", DecodeCommand)
  }

  /** `for cmd in defaults["cmd_def"]: ...`, the loop holding the nested loop over each
      command's sequence. */
  method DecodeCommandDefinitions(defaults: Json) returns (r: After)
    ensures r == LoopAt(defaults, "cmd_def", DecodeCommand)
  {
    var got := Get(defaults, "cmd_def");
    if got.Err? {
      return After(defaults, Some(got.error));
    }
    var elements := Elements(got.value);
    if elements.Err? {
      PutSame(defaults, "cmd_def");
      return After(defaults, Some(elements.error));
    }
    var cmds := elements.value;
    var done: seq<Json> := [];
    var i := 0;
    while i < |cmds|
      invariant 0 <= i <= |cmds| && |done| == i
      invariant ForEach(cmds, DecodeCommand) == Prepend(done, ForEach(cmds[i..], DecodeCommand))
    {
      var s := DecodeCommandInPlace(cmds[i]);
      if s.raised.Some? {
        ForEachRaisedAt(cmds, i, DecodeCommand, done, s);
        done := done + [s.state] + cmds[i + 1..];
        LoopAtFromItems(defaults, "cmd_def", DecodeCommand, done, s.raised);
        return After(Put(defaults, "cmd_def", Rebuild(got.value, done)), s.raised);
      }
      ForEachCompletedAt(cmds, i, DecodeCommand, done, s);
      done := done + [s.state];
      i := i + 1;
    }
    ForEachFinished(cmds, i, DecodeCommand, done);
    LoopAtFromItems(defaults, "cmd_def", DecodeCommand, done, None);
    r := After(Put(defaults, "cmd_def", Rebuild(got.value, done)), None);
  }

  /** `decode_pulse_defaults(defaults)`. */
  method DecodePulseDefaults(defaults: Json) returns (r: After)
    ensures r == PulseDefaultsAfter(defaults)
  {
    r := LoopAtInPlace(defaults, "pulse_library", DecodePulseLibraryItem);
    if r.raised.None? {
      r := DecodeCommandDefinitions(r.state);
    }
  }
}

/** What the pulse-defaults decoders promise. */
module PulseDefaultsProperties {
  import opened Wire
  import opened InPlace
  import opened ComplexCoercer
  import opened PulseDefaults

  /** The instruction carries `parameters` and that is a dict holding `amp`. */
  predicate AmpPresent(instr: Json) {
    HasKey(instr, "parameters") && HasKey(Value(instr, "parameters"), "amp")
  }

  /** An instruction without `val` and without `parameters` passes untouched, without raising. */
  lemma InstructionWithoutFields(instr: Json)
    requires instr.JObject? && !HasKey(instr, "val") && !HasKey(instr, "parameters")
    ensures DecodePulseQobjInstr(instr) == After(instr, None)
  {
  }

  /** What a completed `_decode_pulse_qobj_instr` did to a dict instruction: `val` holds
      `_to_complex` of its old value if it was there, `parameters["amp"]` likewise if both
      were there, and nothing else changed; an absent field is still absent. */
  lemma InstructionDecoded(instr: Json)
    requires instr.JObject?
    requires DecodePulseQobjInstr(instr).raised.None?
    ensures var instr' := DecodePulseQobjInstr(instr).state;
      && instr'.JObject? && Keys(instr') == Keys(instr)
      && (forall k :: k != "val" && k != "parameters" ==> Get(instr', k) == Get(instr, k))
      && (HasKey(instr, "val") ==>
            && ToComplex(Value(instr, "val")).Ok?
            && Get(instr', "val") == Ok(JComplex(ToComplex(Value(instr, "val")).value)))
      && (!HasKey(instr, "val") ==> Get(instr', "val") == Get(instr, "val"))
      && (AmpPresent(instr) ==>
            var params := Value(instr, "parameters");
            && ToComplex(Value(params, "amp")).Ok?
            && Get(instr', "parameters") ==
                 Ok(Put(params, "amp", JComplex(ToComplex(Value(params, "amp")).value))))
      && (!AmpPresent(instr) ==> Get(instr', "parameters") == Get(instr, "parameters"))
  {
    var afterVal :=
      if HasKey(instr, "val") then Assign(instr, "val", ToComplexJson) else After(instr, None);
    var i := afterVal.state;
    assert i.JObject? && Keys(i) == Keys(instr);
    assert Get(i, "parameters") == Get(instr, "parameters");
    if HasKey(i, "parameters") {
      var params := Value(i, "parameters");
      if Contains(params, "amp") == Ok(true) {
        assert HasKey(params, "amp");
      }
    }
  }

  /** Decoding is not transactional: when `val` converts and `amp` does not, the
      instruction's `val` stays rewritten while `amp`'s TypeError escapes. */
  lemma InstructionPartlyDecoded(instr: Json)
    requires instr.JObject? && HasKey(instr, "val") && ToComplex(Value(instr, "val")).Ok?
    requires AmpPresent(instr) && ToComplex(Value(Value(instr, "parameters"), "amp")).Err?
    ensures DecodePulseQobjInstr(instr) ==
      After(Put(instr, "val", JComplex(ToComplex(Value(instr, "val")).value)),
            Some(ToComplex(Value(Value(instr, "parameters"), "amp")).error))
  {
    var i := Put(instr, "val", JComplex(ToComplex(Value(instr, "val")).value));
    assert Get(i, "parameters") == Get(instr, "parameters");
  }

  /** The instruction step completed and left `instr'`. */
  ghost predicate InstructionDone(instr: Json, instr': Json) {
    DecodePulseQobjInstr(instr) == After(instr', None)
  }

  /** `cmd'` is the command `cmd` once its loop body completed: without `sequence` it is
      untouched; with it, each instruction of the sequence is decoded and nothing else changed. */
  ghost predicate CommandDecoded(cmd: Json, cmd': Json) {
    && Contains(cmd, "sequence").Ok?
    && if !Contains(cmd, "sequence").value then cmd' == cmd
       else
         && HasKey(cmd, "sequence")
         && cmd'.JObject? && Keys(cmd') == Keys(cmd)
         && (forall k :: k != "sequence" ==> Get(cmd', k) == Get(cmd, k))
         && Pointwise(Value(cmd, "sequence"), Value(cmd', "sequence"), InstructionDone)
  }

  lemma CommandCompleted(cmd: Json)
    requires DecodeCommand(cmd).raised.None?
    ensures CommandDecoded(cmd, DecodeCommand(cmd).state)
  {
    if Contains(cmd, "sequence") == Ok(true) {
      LoopAtCompleted(cmd, "sequence", DecodePulseQobjInstr, InstructionDone);
    }
  }

  /** After `decode_pulse_defaults` returns: every pulse-library item has its samples
      coerced (same count, element by element), every command's sequence is decoded,
      and every other key of `defaults` is untouched. */
  lemma PulseDefaultsDecoded(defaults: Json)
    requires PulseDefaultsAfter(defaults).raised.None?
    ensures var d' := PulseDefaultsAfter(defaults).state;
      && defaults.JObject? && d'.JObject? && Keys(d') == Keys(defaults)
      && (forall k :: k != "pulse_library" && k != "cmd_def" ==> Get(d', k) == Get(defaults, k))
      && Pointwise(Value(defaults, "pulse_library"), Value(d', "pulse_library"), SamplesDecoded)
      && Pointwise(Value(defaults, "cmd_def"), Value(d', "cmd_def"), CommandDecoded)
  {
    LoopAtCompleted(defaults, "pulse_library", DecodePulseLibraryItem, SamplesDecoded);
    var d1 := LoopAt(defaults, "pulse_library", DecodePulseLibraryItem).state;
    forall x | DecodeCommand(x).raised.None?
      ensures CommandDecoded(x, DecodeCommand(x).state)
    {
      CommandCompleted(x);
    }
    LoopAtCompleted(d1, "cmd_def", DecodeCommand, CommandDecoded);
  }

  /** `pulse_library` is read unconditionally: without it nothing is decoded. */
  lemma PulseLibraryRequired(defaults: Json)
    requires defaults.JObject? && !HasKey(defaults, "pulse_library")
    ensures PulseDefaultsAfter(defaults) == After(defaults, Some(KeyError("pulse_library")))
  {
  }

  /** `cmd_def` is read unconditionally, after the pulse library: without it the call
      raises KeyError, and the pulse library stays decoded. */
  lemma CommandDefinitionsRequired(defaults: Json)
    requires defaults.JObject? && !HasKey(defaults, "cmd_def")
    requires LoopAt(defaults, "pulse_library", DecodePulseLibraryItem).raised.None?
    ensures var d' := PulseDefaultsAfter(defaults).state;
      && PulseDefaultsAfter(defaults).raised == Some(KeyError("cmd_def"))
      && Pointwise(Value(defaults, "pulse_library"), Value(d', "pulse_library"), SamplesDecoded)
  {
    LoopAtCompleted(defaults, "pulse_library", DecodePulseLibraryItem, SamplesDecoded);
  }

  /** The worked case: samples `[[1.0, 2.0], [0.0, -1.0]]` become `[1+2j, 0-1j]`. */
  lemma SamplesExample()
    ensures DecodePulseLibraryItem(JObject([("samples", JArray([
              JArray([JNum(1.0), JNum(2.0)]), JArray([JNum(0.0), JNum(-1.0)])]))]))
         == After(JObject([("samples", JArray([
              JComplex(Complex(1.0, 2.0)), JComplex(Complex(0.0, -1.0))]))]), None)
  {
    var samples := [JArray([JNum(1.0), JNum(2.0)]), JArray([JNum(0.0), JNum(-1.0)])];
    PairOfReals(1.0, 2.0);
    PairOfReals(0.0, -1.0);
    assert ToComplex(samples[0]).Ok? && ToComplex(samples[1]).Ok?;
    var r := ComplexAll(samples);
    assert r.Ok? && |r.value| == 2;
    assert r.value[0] == JComplex(Complex(1.0, 2.0)) && r.value[1] == JComplex(Complex(0.0, -1.0));
    assert r.value == [JComplex(Complex(1.0, 2.0)), JComplex(Complex(0.0, -1.0))];
  }
}
