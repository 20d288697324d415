/** `convert_reservation_data` (qiskit_ibm_runtime/utils/backend.py): raw reservation
    records become reservation values, one per record and in order. */
module Reservations {
  import opened Wire

  /** `utc_to_local` (from the converters module, which is not part of this model): a UTC
      timestamp or ISO 8601 string to a local-time timestamp, or the exception it raises. */
  type LocalTime = Json -> Result<DateTime>

  /** The fields a `BackendReservation` is constructed with; the JSON-ish fields keep
      whatever value the record holds, JSON null standing for None. */
  datatype Reservation = Reservation(
    backendName: Json,
    start: DateTime,
    end: DateTime,
    mode: Json,
    reservationId: Json,
    creation: Option<DateTime>,
    hubInfo: Json)

  /** Python `a or b`. */
  function Or(a: Json, b: Json): (r: Json)
    ensures Truthy(a) ==> r == a
    ensures !Truthy(a) ==> r == b
  {
    if Truthy(a) then a else b
  }

  /** The `backend_name` argument as the value the loop starts from. */
  function NameArgument(backendName: Option<string>): Json
  {
    match backendName
    case None => JNull
    case Some(s) => JStr(s)
  }

  /** `utc_to_local(d) if d else None`. */
  function LocalIfTruthy(d: Json, toLocal: LocalTime): (r: Result<Option<DateTime>>)
    ensures !Truthy(d) ==> r == Ok(None)
    ensures Truthy(d) && toLocal(d).Ok? ==> r == Ok(Some(toLocal(d).value))
    ensures Truthy(d) && toLocal(d).Err? ==> r == Err(toLocal(d).error)
  {
    if Truthy(d) then
      var t :- toLocal(d);
      Ok(Some(t))
    else Ok(None)
  }

  /** The one condition under which a record converts. */
  predicate Convertible(raw: Json, toLocal: LocalTime) {
    && raw.JObject?
    && LocalIfTruthy(Value(raw, "creationDate"), toLocal).Ok?
    && HasKey(raw, "initialDate") && toLocal(Value(raw, "initialDate")).Ok?
    && HasKey(raw, "endDate") && toLocal(Value(raw, "endDate")).Ok?
  }

  /** One iteration of the loop: the reservation built from `raw` when the loop carries
      `name`; its `backendName` is the value the loop carries on. */
  function ConvertOne(raw: Json, name: Json, toLocal: LocalTime): (r: Result<Reservation>)
    ensures r.Ok? <==> Convertible(raw, toLocal)
    ensures r.Ok? ==> r.value.backendName == Or(name, Value(raw, "backendName"))
  {
    var creationDate :- DictGet(raw, "creationDate");
    var creation :- LocalIfTruthy(creationDate, toLocal);
    var backendName := Or(name, Value(raw, "backendName"));
    var initialDate :- Get(raw, "initialDate");
    var start :- toLocal(initialDate);
    var endDate :- Get(raw, "endDate");
    var end :- toLocal(endDate);
    Ok(Reservation(backendName, start, end, Value(raw, "mode"), Value(raw, "id"), creation,
                   Value(raw, "hubInfo")))
  }

  /** What one record becomes: a non-dict raises AttributeError; a missing `initialDate`
      or `endDate` raises its KeyError once the steps before it succeeded; otherwise start
      and end are the local times of the two dates, the creation time is there exactly when
      `creationDate` is truthy, and mode, id and hub info are copied, None when absent. */
  lemma ConvertOneFields(raw: Json, name: Json, toLocal: LocalTime)
    ensures var r := ConvertOne(raw, name, toLocal);
      && (!raw.JObject? ==> r == Err(AttributeError))
      && ((raw.JObject? && LocalIfTruthy(Value(raw, "creationDate"), toLocal).Ok? &&
           !HasKey(raw, "initialDate")) ==> r == Err(KeyError("initialDate")))
      && ((raw.JObject? && LocalIfTruthy(Value(raw, "creationDate"), toLocal).Ok? &&
           HasKey(raw, "initialDate") && toLocal(Value(raw, "initialDate")).Ok? &&
           !HasKey(raw, "endDate")) ==> r == Err(KeyError("endDate")))
      && (r.Ok? ==>
            && r.value.start == toLocal(Value(raw, "initialDate")).value
            && r.value.end == toLocal(Value(raw, "endDate")).value
            && (r.value.creation.None? <==> !Truthy(Value(raw, "creationDate")))
            && (r.value.creation.Some? ==>
                  r.value.creation.value == toLocal(Value(raw, "creationDate")).value)
            && (HasKey(raw, "mode") ==> Get(raw, "mode") == Ok(r.value.mode))
            && (!HasKey(raw, "mode") ==> r.value.mode == JNull)
            && (HasKey(raw, "id") ==> Get(raw, "id") == Ok(r.value.reservationId))
            && (!HasKey(raw, "id") ==> r.value.reservationId == JNull)
            && (HasKey(raw, "hubInfo") ==> Get(raw, "hubInfo") == Ok(r.value.hubInfo))
            && (!HasKey(raw, "hubInfo") ==> r.value.hubInfo == JNull))
  {
  }

  /** `out` followed by the rest of the loop's output, unless the rest raised. */
  function Cons(out: seq<Reservation>, r: Result<seq<Reservation>>): Result<seq<Reservation>>
  {
    if r.Ok? then Ok(out + r.value) else r
  }

  /** `convert_reservation_data(raws, ...)` once the loop carries `name`: the first
      record that cannot be converted ends the call with its exception. */
  function Convert(raws: seq<Json>, name: Json, toLocal: LocalTime): (r: Result<seq<Reservation>>)
    ensures r.Ok? ==> |r.value| == |raws|
  {
    if raws == [] then Ok([])
    else
      match ConvertOne(raws[0], name, toLocal)
      case Err(e) => Err(e)
      case Ok(res) => Cons([res], Convert(raws[1..], res.backendName, toLocal))
  }

  /** One step of `Convert`, taken at position `i`. */
  lemma ConvertStep(raws: seq<Json>, i: nat, name: Json, toLocal: LocalTime)
    requires i < |raws|
    ensures Convert(raws[i..], name, toLocal) ==
      match ConvertOne(raws[i], name, toLocal)
      case Err(e) => Err(e)
      case Ok(res) => Cons([res], Convert(raws[i + 1..], res.backendName, toLocal))
  {
    assert raws[i..][0] == raws[i];
    assert raws[i..][1..] == raws[i + 1..];
  }

  /** The loop invariant of `convert_reservation_data`, carried over record `i` when it raised. */
  lemma ConvertRaisedAt(raws: seq<Json>, i: nat, name: Json, toLocal: LocalTime,
                        out: seq<Reservation>, e: Error)
    requires i < |raws| && ConvertOne(raws[i], name, toLocal) == Err(e)
    ensures Cons(out, Convert(raws[i..], name, toLocal)) == Err(e)
  {
    ConvertStep(raws, i, name, toLocal);
  }

  /** The loop invariant of `convert_reservation_data`, carried over record `i` when it
      converted to `res`. */
  lemma ConvertCompletedAt(raws: seq<Json>, i: nat, name: Json, toLocal: LocalTime,
                           out: seq<Reservation>, res: Reservation)
    requires i < |raws| && ConvertOne(raws[i], name, toLocal) == Ok(res)
    ensures Cons(out, Convert(raws[i..], name, toLocal)) ==
      Cons(out + [res], Convert(raws[i + 1..], res.backendName, toLocal))
  {
    ConvertStep(raws, i, name, toLocal);
    var rest := Convert(raws[i + 1..], res.backendName, toLocal);
    if rest.Ok? {
      assert out + ([res] + rest.value) == (out + [res]) + rest.value;
    }
  }

  /** The loop invariant of `convert_reservation_data` on entry and once every record is done. */
  lemma ConvertEnds(raws: seq<Json>, name: Json, toLocal: LocalTime, out: seq<Reservation>)
    ensures Convert(raws, name, toLocal) == Cons([], Convert(raws[0..], name, toLocal))
    ensures Cons(out, Convert(raws[|raws|..], name, toLocal)) == Ok(out)
  {
    assert raws[0..] == raws;
    var whole := Convert(raws, name, toLocal);
    if whole.Ok? {
      assert [] + whole.value == whole.value;
    }
    assert raws[|raws|..] == [];
    assert out + [] == out;
  }

  /** `convert_reservation_data(raw_reservations, backend_name)`: the loop appends one
      reservation per record and rebinds `backend_name` as it goes. */
  method ConvertReservationData(rawReservations: seq<Json>, backendName: Option<string>,
                                toLocal: LocalTime)
    returns (r: Result<seq<Reservation>>)
    ensures r == Convert(rawReservations, NameArgument(backendName), toLocal)
  {
    ghost var whole := Convert(rawReservations, NameArgument(backendName), toLocal);
    var reservations: seq<Reservation> := [];
    var name := NameArgument(backendName);
    ConvertEnds(rawReservations, name, toLocal, reservations);
    var i := 0;
    while i < |rawReservations|
      invariant 0 <= i <= |rawReservations|
      invariant whole == Cons(reservations, Convert(rawReservations[i..], name, toLocal))
    {
      var reservation := ConvertOne(rawReservations[i], name, toLocal);
      if reservation.Err? {
        ConvertRaisedAt(rawReservations, i, name, toLocal, reservations, reservation.error);
        return Err(reservation.error);
      }
      ConvertCompletedAt(rawReservations, i, name, toLocal, reservations, reservation.value);
      name := reservation.value.backendName;
      reservations := reservations + [reservation.value];
      i := i + 1;
    }
    ConvertEnds(rawReservations, name, toLocal, reservations);
    r := Ok(reservations);
  }
}

/** What `convert_reservation_data` promises. */
module ReservationsProperties {
  import opened Wire
  import opened Reservations

  /** Python `vs[0] or vs[1] or ... or vs[-1]`. */
  function OrAll(vs: seq<Json>): Json
    requires |vs| > 0
  {
    if |vs| == 1 || Truthy(vs[0]) then vs[0] else OrAll(vs[1..])
  }

  /** A chain of `or` is its first truthy operand, or its last one when none is truthy. */
  lemma {:induction false} OrAllIsFirstTruthy(vs: seq<Json>)
    requires |vs| > 0
    ensures forall k ::
      (0 <= k < |vs| && Truthy(vs[k]) && forall j :: 0 <= j < k ==> !Truthy(vs[j])) ==>
        OrAll(vs) == vs[k]
    ensures (forall j :: 0 <= j < |vs| ==> !Truthy(vs[j])) ==> OrAll(vs) == vs[|vs| - 1]
  {
    if |vs| > 1 && !Truthy(vs[0]) {
      OrAllIsFirstTruthy(vs[1..]);
      assert forall k :: 0 < k < |vs| ==> vs[1..][k - 1] == vs[k];
    }
  }

  /** The `backendName` each record holds, None where it has none. */
  function Names(raws: seq<Json>): (r: seq<Json>)
    ensures |r| == |raws|
    ensures forall j :: 0 <= j < |raws| ==> r[j] == Value(raws[j], "backendName")
  {
    seq(|raws|, j requires 0 <= j < |raws| => Value(raws[j], "backendName"))
  }

  lemma OrAllStep(n: Json, vs: seq<Json>)
    requires |vs| > 0
    ensures OrAll([n] + vs) == OrAll([Or(n, vs[0])] + vs[1..])
  {
    assert ([n] + vs)[1..] == vs;
    assert [vs[0]] + vs[1..] == vs;
  }

  lemma {:induction false} OrAllSnoc(vs: seq<Json>, b: Json)
    requires |vs| > 0
    ensures OrAll(vs + [b]) == Or(OrAll(vs), b)
  {
    if |vs| > 1 && !Truthy(vs[0]) {
      assert (vs + [b])[1..] == vs[1..] + [b];
      OrAllSnoc(vs[1..], b);
    }
  }

  lemma {:induction false} OrAllPrefix(vs: seq<Json>, ws: seq<Json>)
    requires |vs| > 0 && Truthy(OrAll(vs))
    ensures OrAll(vs + ws) == OrAll(vs)
  {
    if |vs| > 1 && !Truthy(vs[0]) {
      assert (vs + ws)[1..] == vs[1..] + ws;
      OrAllPrefix(vs[1..], ws);
    }
  }

  /** Skipping the first record's name into the carried value. */
  lemma NamesShift(raws: seq<Json>, n: Json, i: nat)
    requires 0 < i <= |raws|
    ensures OrAll([n] + Names(raws)[..i]) ==
      OrAll([Or(n, Value(raws[0], "backendName"))] + Names(raws[1..])[..i - 1])
  {
    OrAllStep(n, Names(raws)[..i]);
    assert Names(raws)[..i][1..] == Names(raws[1..])[..i - 1];
  }

  /** A completed call returns one reservation per record, in order; reservation `i`
      is record `i` converted when the loop carries `n or name_0 or ... or name_(i-1)`. */
  lemma {:induction false} ConvertedInOrder(raws: seq<Json>, n: Json, toLocal: LocalTime)
    requires Convert(raws, n, toLocal).Ok?
    ensures var out := Convert(raws, n, toLocal).value;
      && |out| == |raws|
      && forall i :: 0 <= i < |raws| ==>
           ConvertOne(raws[i], OrAll([n] + Names(raws)[..i]), toLocal) == Ok(out[i])
  {
    if raws != [] {
      var first := ConvertOne(raws[0], n, toLocal).value;
      var rest := Convert(raws[1..], first.backendName, toLocal);
      var out := Convert(raws, n, toLocal).value;
      assert out == [first] + rest.value;
      ConvertedInOrder(raws[1..], first.backendName, toLocal);
      forall i | 0 <= i < |raws|
        ensures ConvertOne(raws[i], OrAll([n] + Names(raws)[..i]), toLocal) == Ok(out[i])
      {
        if i > 0 {
          assert raws[1..][i - 1] == raws[i];
          assert out[i] == rest.value[i - 1];
          NamesShift(raws, n, i);
        }
      }
    }
  }

  /** A record missing `initialDate` or `endDate` makes the call raise. */
  lemma MandatoryDates(raws: seq<Json>, n: Json, toLocal: LocalTime, i: nat)
    requires i < |raws| && (!HasKey(raws[i], "initialDate") || !HasKey(raws[i], "endDate"))
    ensures Convert(raws, n, toLocal).Err?
  {
    if Convert(raws, n, toLocal).Ok? {
      ConvertedInOrder(raws, n, toLocal);
      assert false;
    }
  }

  /** Every reservation of a completed call comes from a convertible record and carries
      its defaults: mode, id and hub info None when absent, no creation time unless
      `creationDate` is truthy, and the local start and end times. */
  lemma ReservationFields(raws: seq<Json>, n: Json, toLocal: LocalTime, i: nat)
    requires Convert(raws, n, toLocal).Ok? && i < |raws|
    ensures Convertible(raws[i], toLocal)
    ensures var res := Convert(raws, n, toLocal).value[i];
      && (!HasKey(raws[i], "mode") ==> res.mode == JNull)
      && (!HasKey(raws[i], "id") ==> res.reservationId == JNull)
      && (!HasKey(raws[i], "hubInfo") ==> res.hubInfo == JNull)
      && (res.creation.None? <==> !Truthy(Value(raws[i], "creationDate")))
      && res.start == toLocal(Value(raws[i], "initialDate")).value
      && res.end == toLocal(Value(raws[i], "endDate")).value
  {
    ConvertedInOrder(raws, n, toLocal);
    ConvertOneFields(raws[i], OrAll([n] + Names(raws)[..i]), toLocal);
  }

  /** One more name in the chain of `or`. */
  lemma OrAllExtend(n: Json, names: seq<Json>, i: nat)
    requires i < |names|
    ensures OrAll([n] + names[..i + 1]) == Or(OrAll([n] + names[..i]), names[i])
  {
    OrAllSnoc([n] + names[..i], names[i]);
    assert [n] + names[..i] + [names[i]] == [n] + names[..i + 1];
  }

  /** The name of reservation `i`. */
  lemma NameOf(raws: seq<Json>, n: Json, toLocal: LocalTime, i: nat)
    requires Convert(raws, n, toLocal).Ok? && i < |raws|
    ensures Convert(raws, n, toLocal).value[i].backendName == OrAll([n] + Names(raws)[..i + 1])
  {
    ConvertedInOrder(raws, n, toLocal);
    OrAllExtend(n, Names(raws), i);
  }

  /** Reservation `i` is named `n or name_0 or ... or name_i`, because the loop rebinds
      `backend_name`: by `OrAllIsFirstTruthy`, the first truthy name among the override and
      records `0..i`, or record `i`'s own (falsy) name when there is none. */
  lemma BackendNameIsFirstTruthy(raws: seq<Json>, n: Json, toLocal: LocalTime)
    requires Convert(raws, n, toLocal).Ok?
    ensures forall i :: 0 <= i < |raws| ==>
      Convert(raws, n, toLocal).value[i].backendName == OrAll([n] + Names(raws)[..i + 1])
  {
    forall i | 0 <= i < |raws|
      ensures Convert(raws, n, toLocal).value[i].backendName == OrAll([n] + Names(raws)[..i + 1])
    {
      NameOf(raws, n, toLocal, i);
    }
  }

  /** A truthy `backend_name` argument names every reservation. */
  lemma OverrideNamesAll(raws: seq<Json>, n: Json, toLocal: LocalTime)
    requires Convert(raws, n, toLocal).Ok? && Truthy(n)
    ensures forall i :: 0 <= i < |raws| ==> Convert(raws, n, toLocal).value[i].backendName == n
  {
    forall i | 0 <= i < |raws|
      ensures Convert(raws, n, toLocal).value[i].backendName == n
    {
      NameOf(raws, n, toLocal, i);
    }
  }

  /** The name is sticky: once a reservation gets a truthy name, every later one gets it too. */
  lemma NameSticks(raws: seq<Json>, n: Json, toLocal: LocalTime, k: nat, j: nat)
    requires Convert(raws, n, toLocal).Ok? && k <= j < |raws|
    requires Truthy(Convert(raws, n, toLocal).value[k].backendName)
    ensures Convert(raws, n, toLocal).value[j].backendName ==
      Convert(raws, n, toLocal).value[k].backendName
  {
    NameOf(raws, n, toLocal, k);
    NameOf(raws, n, toLocal, j);
    OrAllSticks(n, Names(raws), k, j);
  }

  /** A chain of `or` that has reached a truthy value keeps it however it is extended. */
  lemma OrAllSticks(n: Json, names: seq<Json>, k: nat, j: nat)
    requires k <= j < |names| && Truthy(OrAll([n] + names[..k + 1]))
    ensures OrAll([n] + names[..j + 1]) == OrAll([n] + names[..k + 1])
  {
    OrAllPrefix([n] + names[..k + 1], names[k + 1..j + 1]);
    assert ([n] + names[..k + 1]) + names[k + 1..j + 1] == [n] + names[..j + 1];
  }

  /** The worked case: one record with only its two dates, converted with the override
      `"ibmq_x"`, gives one reservation named `"ibmq_x"` with no mode, id, creation time
      or hub info. */
  lemma ReservationExample(initialDate: string, endDate: string, toLocal: LocalTime)
    requires toLocal(JStr(initialDate)).Ok? && toLocal(JStr(endDate)).Ok?
    ensures Convert([JObject([("initialDate", JStr(initialDate)), ("endDate", JStr(endDate))])],
                    NameArgument(Some("ibmq_x")), toLocal)
         == Ok([Reservation(JStr("ibmq_x"), toLocal(JStr(initialDate)).value,
                            toLocal(JStr(endDate)).value, JNull, JNull, None, JNull)])
  {
    var raw := JObject([("initialDate", JStr(initialDate)), ("endDate", JStr(endDate))]);
    assert Value(raw, "creationDate") == JNull && Value(raw, "mode") == JNull;
    assert Value(raw, "id") == JNull && Value(raw, "hubInfo") == JNull;
    assert raw.fields[1..][0].0 == "endDate";
    assert Find(raw.fields, "endDate") == Some(1);
    assert Value(raw, "initialDate") == JStr(initialDate) && Value(raw, "endDate") == JStr(endDate);
    var res := Reservation(JStr("ibmq_x"), toLocal(JStr(initialDate)).value,
                           toLocal(JStr(endDate)).value, JNull, JNull, None, JNull);
    assert ConvertOne(raw, JStr("ibmq_x"), toLocal) == Ok(res);
    assert [raw][1..] == [];
    assert Convert([raw][1..], res.backendName, toLocal) == Ok([]);
    assert [res] + [] == [res];
    assert Convert([raw], JStr("ibmq_x"), toLocal) == Ok([res]);
  }
}
