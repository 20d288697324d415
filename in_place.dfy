/** The in-place statements the decoders are built from, modelled on values: each
    returns the caller's structure as it stands once the statement has finished or
    raised, together with the exception. Nothing is rolled back, so a structure
    already rewritten in part stays rewritten when a later step raises. */
module InPlace {
  import opened Wire

  /** The argument's state once a statement is over, and what it raised, if anything. */
  datatype After = After(state: Json, raised: Option<Error>)

  /** The state of a list's items once a loop over them is over. */
  datatype ItemsAfter = ItemsAfter(items: seq<Json>, raised: Option<Error>)

  /** `o[key] = conv(o[key])`: the right-hand side is complete before anything is
      written, so a failing conversion leaves `o` as it was. */
  function Assign(o: Json, key: string, conv: Json -> Result<Json>): (r: After)
    ensures r.raised.None? <==> Get(o, key).Ok? && conv(Get(o, key).value).Ok?
    ensures r.raised.None? ==> r.state == Put(o, key, conv(Get(o, key).value).value)
    ensures r.raised.Some? ==> r.state == o
    ensures !HasKey(o, key) ==> r == After(o, Some(Get(o, key).error))
  {
    match Get(o, key)
    case Err(e) => After(o, Some(e))
    case Ok(v) =>
      match conv(v)
      case Err(e) => After(o, Some(e))
      case Ok(w) => After(Put(o, key, w), None)
  }

  /** `for x in xs: body(x)` where `body` rewrites `x` in place: the items before the
      one that raised are rewritten, that one is as `body` left it, the rest are untouched. */
  function ForEach(xs: seq<Json>, body: Json -> After): (r: ItemsAfter)
    ensures |r.items| == |xs|
  {
    if xs == [] then ItemsAfter([], None)
    else
      var s := body(xs[0]);
      if s.raised.Some? then ItemsAfter([s.state] + xs[1..], s.raised)
      else Prepend([s.state], ForEach(xs[1..], body))
  }

  function Prepend(done: seq<Json>, r: ItemsAfter): ItemsAfter
  {
    ItemsAfter(done + r.items, r.raised)
  }

  /** The container once its items have been rewritten: only a list holds values a
      body can change; the strings that a string or a dict yields are immutable. */
  function Rebuild(c: Json, items: seq<Json>): Json
  {
    if c.JArray? then JArray(items) else c
  }

  /** `for x in c: body(x)`; a value that cannot be iterated raises before any step. */
  function Loop(c: Json, body: Json -> After): After
  {
    match Elements(c)
    case Err(e) => After(c, Some(e))
    case Ok(xs) =>
      var r := ForEach(xs, body);
      After(Rebuild(c, r.items), r.raised)
  }

  /** `for x in o[key]: body(x)`: the list under `key` is rewritten where it stands. */
  function LoopAt(o: Json, key: string, body: Json -> After): After
  {
    match Get(o, key)
    case Err(e) => After(o, Some(e))
    case Ok(c) =>
      var r := Loop(c, body);
      After(Put(o, key, r.state), r.raised)
  }

  /** `after` is `before` once a loop over it completed: for a list, item by item related by
      `rel`; a string or a dict is left as it is. */
  ghost predicate Pointwise(before: Json, after: Json, rel: (Json, Json) -> bool)
  {
    && Elements(before).Ok?
    && (before.JArray? ==>
          && after.JArray? && |after.items| == |before.items|
          && forall i :: 0 <= i < |before.items| ==> rel(before.items[i], after.items[i]))
    && (!before.JArray? ==> after == before)
  }

  /** A loop that raised nothing ran `body` to completion on every item, in order. */
  lemma {:induction false} ForEachCompleted(xs: seq<Json>, body: Json -> After)
    requires ForEach(xs, body).raised.None?
    ensures forall i :: 0 <= i < |xs| ==>
      body(xs[i]) == After(ForEach(xs, body).items[i], None)
  {
    if xs != [] {
      ForEachCompleted(xs[1..], body);
      forall i | 0 <= i < |xs|
        ensures body(xs[i]) == After(ForEach(xs, body).items[i], None)
      {
        if i > 0 { assert xs[i] == xs[1..][i - 1]; }
      }
    }
  }

  /** A loop completes exactly when every item's step completes. */
  lemma {:induction false} ForEachCompletes(xs: seq<Json>, body: Json -> After)
    ensures ForEach(xs, body).raised.None? <==>
      forall i :: 0 <= i < |xs| ==> body(xs[i]).raised.None?
  {
    if xs != [] {
      ForEachCompletes(xs[1..], body);
      if body(xs[0]).raised.None? {
        forall i | 0 < i < |xs| ensures body(xs[i]) == body(xs[1..][i - 1]) {
          assert xs[i] == xs[1..][i - 1];
        }
      }
    }
  }

  /** The loop is not transactional: when item `j` is the first to raise, its exception
      escapes, the items before it stay rewritten, and the items after it are untouched. */
  lemma {:induction false} ForEachStopsAt(xs: seq<Json>, body: Json -> After, j: nat)
    requires j < |xs| && body(xs[j]).raised.Some?
    requires forall k :: 0 <= k < j ==> body(xs[k]).raised.None?
    ensures ForEach(xs, body).raised == body(xs[j]).raised
    ensures forall k :: 0 <= k < j ==> ForEach(xs, body).items[k] == body(xs[k]).state
    ensures ForEach(xs, body).items[j] == body(xs[j]).state
    ensures ForEach(xs, body).items[j + 1..] == xs[j + 1..]
  {
    if j > 0 {
      forall k | 0 <= k < j - 1 ensures body(xs[1..][k]).raised.None? {
        assert xs[1..][k] == xs[k + 1];
      }
      ForEachStopsAt(xs[1..], body, j - 1);
      assert xs[1..][j - 1] == xs[j];
      assert xs[1..][j..] == xs[j + 1..];
      var r := ForEach(xs, body);
      forall k | 0 <= k < j ensures r.items[k] == body(xs[k]).state {
        if k > 0 { assert xs[k] == xs[1..][k - 1]; }
      }
    }
  }

  /** A completed loop relates each item to its rewritten self by any `rel` that every
      completed step establishes. */
  lemma LoopCompleted(c: Json, body: Json -> After, rel: (Json, Json) -> bool)
    requires Loop(c, body).raised.None?
    requires forall x :: body(x).raised.None? ==> rel(x, body(x).state)
    ensures Pointwise(c, Loop(c, body).state, rel)
  {
    var xs := Elements(c).value;
    ForEachCompleted(xs, body);
  }

  /** A loop over a list completes exactly when every item's step completes. */
  lemma LoopCompletes(c: Json, body: Json -> After)
    requires c.JArray?
    ensures Loop(c, body).raised.None? <==>
      forall i :: 0 <= i < |c.items| ==> body(c.items[i]).raised.None?
  {
    ForEachCompletes(c.items, body);
  }

  /** A completed `for x in o[key]` rewrote only `o[key]`. */
  lemma LoopAtCompleted(o: Json, key: string, body: Json -> After, rel: (Json, Json) -> bool)
    requires LoopAt(o, key, body).raised.None?
    requires forall x :: body(x).raised.None? ==> rel(x, body(x).state)
    ensures HasKey(o, key)
    ensures var o' := LoopAt(o, key, body).state;
      && o'.JObject? && Keys(o') == Keys(o)
      && (forall k :: k != key ==> Get(o', k) == Get(o, k))
      && Pointwise(Value(o, key), Value(o', key), rel)
  {
    LoopCompleted(Value(o, key), body, rel);
  }

  /** A completed `for x in d[key]` needed `key` and left the key order and every other key
      as they were. */
  lemma LoopAtFrame(o: Json, key: string, body: Json -> After)
    requires LoopAt(o, key, body).raised.None?
    ensures var o' := LoopAt(o, key, body).state;
      && HasKey(o, key) && o'.JObject? && Keys(o') == Keys(o)
      && (forall k :: k != key ==> Get(o', k) == Get(o, k))
  {
  }

  /** One step of `ForEach`, taken at position `i`. */
  lemma ForEachStep(xs: seq<Json>, i: nat, body: Json -> After)
    requires i < |xs|
    ensures ForEach(xs[i..], body) ==
      var s := body(xs[i]);
      if s.raised.Some? then ItemsAfter([s.state] + xs[i + 1..], s.raised)
      else Prepend([s.state], ForEach(xs[i + 1..], body))
  {
    assert xs[i..][0] == xs[i];
    assert xs[i..][1..] == xs[i + 1..];
  }

  /** The outcome of `for x in o[key]: body(x)` once its loop over the items is known. */
  lemma LoopAtFromItems(o: Json, key: string, body: Json -> After, done: seq<Json>, raised: Option<Error>)
    requires Get(o, key).Ok? && Elements(Value(o, key)).Ok?
    requires ForEach(Elements(Value(o, key)).value, body) == ItemsAfter(done, raised)
    ensures LoopAt(o, key, body) == After(Put(o, key, Rebuild(Value(o, key), done)), raised)
  {
  }

  /** The loop invariant of `for x in xs`, carried over item `i` when its step raised. */
  lemma ForEachRaisedAt(xs: seq<Json>, i: nat, body: Json -> After, done: seq<Json>, s: After)
    requires i < |xs| && s == body(xs[i]) && s.raised.Some?
    requires ForEach(xs, body) == Prepend(done, ForEach(xs[i..], body))
    ensures ForEach(xs, body) == ItemsAfter(done + [s.state] + xs[i + 1..], s.raised)
  {
    ForEachStep(xs, i, body);
    assert done + ([s.state] + xs[i + 1..]) == done + [s.state] + xs[i + 1..];
  }

  /** The loop invariant of `for x in xs`, carried over item `i` when its step completed. */
  lemma ForEachCompletedAt(xs: seq<Json>, i: nat, body: Json -> After, done: seq<Json>, s: After)
    requires i < |xs| && s == body(xs[i]) && s.raised.None?
    requires ForEach(xs, body) == Prepend(done, ForEach(xs[i..], body))
    ensures ForEach(xs, body) == Prepend(done + [s.state], ForEach(xs[i + 1..], body))
  {
    ForEachStep(xs, i, body);
    assert ForEach(xs[i..], body) == Prepend([s.state], ForEach(xs[i + 1..], body));
    PrependTwice(done, s.state, ForEach(xs[i + 1..], body));
  }

  /** Prepending `done` and then one more item is prepending `done + [x]`. */
  lemma PrependTwice(done: seq<Json>, x: Json, r: ItemsAfter)
    ensures Prepend(done, Prepend([x], r)) == Prepend(done + [x], r)
  {
    assert done + ([x] + r.items) == (done + [x]) + r.items;
  }

  /** The loop invariant of `for x in xs` once every item is done. */
  lemma ForEachFinished(xs: seq<Json>, i: nat, body: Json -> After, done: seq<Json>)
    requires i == |xs|
    requires ForEach(xs, body) == Prepend(done, ForEach(xs[i..], body))
    ensures ForEach(xs, body) == ItemsAfter(done, None)
  {
    assert xs[i..] == [];
    assert done + [] == done;
  }

  /** `for x in c: body(x)`, one item at a time. */
  method LoopInPlace(c: Json, body: Json -> After) returns (r: After)
    ensures r == Loop(c, body)
  {
    var elements := Elements(c);
    if elements.Err? {
      return After(c, Some(elements.error));
    }
    var xs := elements.value;
    var done: seq<Json> := [];
    var i := 0;
    while i < |xs|
      invariant 0 <= i <= |xs| && |done| == i
      invariant ForEach(xs, body) == Prepend(done, ForEach(xs[i..], body))
    {
      var s := body(xs[i]);
      if s.raised.Some? {
        ForEachRaisedAt(xs, i, body, done, s);
        return After(Rebuild(c, done + [s.state] + xs[i + 1..]), s.raised);
      }
      ForEachCompletedAt(xs, i, body, done, s);
      done := done + [s.state];
      i := i + 1;
    }
    ForEachFinished(xs, i, body, done);
    r := After(Rebuild(c, done), None);
  }

  /** `for x in o[key]: body(x)`. */
  method LoopAtInPlace(o: Json, key: string, body: Json -> After) returns (r: After)
    ensures r == LoopAt(o, key, body)
  {
    var got := Get(o, key);
    if got.Err? {
      return After(o, Some(got.error));
    }
    var inner := LoopInPlace(got.value, body);
    r := After(Put(o, key, inner.state), inner.raised);
  }
}
