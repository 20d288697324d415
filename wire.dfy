/** The loosely typed, JSON-shaped values the service sends, and the few Python
    operations on them that the decoders use: subscripting, subscript assignment,
    the `in` test, iteration, truthiness and `dict.get`. */
module Wire {

  datatype Option<T> = None | Some(value: T)

  /** A Python `complex`; its components are mathematical reals. */
  datatype Complex = Complex(re: real, im: real)

  /** Stands for a Python `datetime`: an instant and its UTC offset (None when naive).
      Its values only ever come from the date-parsing collaborators. */
  datatype DateTime = DateTime(epochMicros: int, utcOffsetMinutes: Option<int>)

  /** A wire value. JSON gives the first six kinds; `JComplex` and `JTime` are what
      the decoders write back. A dict is an association list because Python dicts
      keep insertion order, and iterating a dict yields its keys in that order. */
  datatype Json =
    | JNull
    | JBool(b: bool)
    | JNum(n: real)
    | JStr(s: string)
    | JArray(items: seq<Json>)
    | JObject(fields: seq<(string, Json)>)
    | JComplex(c: Complex)
    | JTime(t: DateTime)

  /** The exceptions that can escape the decoders. */
  datatype Error =
    | KeyError(key: string)             // a mandatory key is missing from a dict
    | TypeError                         // Python refused an operation on a value of the wrong kind
    | NotComplexFormat(value: Json)     // the TypeError `_to_complex` raises itself
    | ValueError                        // isoparse was given a string it cannot parse
    | AttributeError                    // `.get` on a value that is not a dict
    | Raised(what: string)              // any other exception, such as one `utc_to_local` raises

  datatype Result<T> = Ok(value: T) | Err(error: Error) {
    predicate IsFailure() { Err? }
    function PropagateFailure<U>(): Result<U>
      requires Err?
    {
      Err(error)
    }
    function Extract(): T
      requires Ok?
    {
      value
    }
  }

  /** The position of the first field named `key`. */
  function Find(fields: seq<(string, Json)>, key: string): (r: Option<nat>)
    ensures r.Some? ==> r.value < |fields| && fields[r.value].0 == key
    ensures r.Some? ==> forall j :: 0 <= j < r.value ==> fields[j].0 != key
    ensures r.None? ==> forall j :: 0 <= j < |fields| ==> fields[j].0 != key
  {
    if fields == [] then None
    else if fields[0].0 == key then Some(0)
    else match Find(fields[1..], key)
      case None => None
      case Some(i) => Some(i + 1)
  }

  /** The key positions alone decide where `Find` stops. */
  lemma FindByKeys(fs: seq<(string, Json)>, gs: seq<(string, Json)>, key: string)
    requires |fs| == |gs|
    requires forall i :: 0 <= i < |fs| ==> fs[i].0 == gs[i].0
    ensures Find(fs, key) == Find(gs, key)
  {
  }

  /** A field appended behind the others is found only when no earlier field has its key. */
  lemma FindAppend(fs: seq<(string, Json)>, key: string, v: Json, k: string)
    requires k != key
    ensures Find(fs + [(key, v)], k) == Find(fs, k)
  {
    var gs := fs + [(key, v)];
    var a, b := Find(gs, k), Find(fs, k);
    if a.Some? {
      assert a.value < |fs|;
      assert fs[a.value].0 == k;
    }
    if b.Some? {
      assert gs[b.value].0 == k;
    }
  }

  /** `key in d` for a dict `d`. */
  predicate HasKey(o: Json, key: string) {
    o.JObject? && Find(o.fields, key).Some?
  }

  /** The keys of a dict, in order. */
  function Keys(o: Json): seq<string>
  {
    match o
    case JObject(fs) => seq(|fs|, i requires 0 <= i < |fs| => fs[i].0)
    case _ => []
  }

  /** Python `o[key]` with a string key. */
  function Get(o: Json, key: string): (r: Result<Json>)
    ensures r.Ok? <==> HasKey(o, key)
    ensures o.JObject? && !HasKey(o, key) ==> r == Err(KeyError(key))
    ensures !o.JObject? ==> r == Err(TypeError)
  {
    match o
    case JObject(fs) =>
      (match Find(fs, key)
       case Some(i) => Ok(fs[i].1)
       case None => Err(KeyError(key)))
    case _ => Err(TypeError)
  }

  /** The value under a key, JSON null when the key is absent: `o.get(key)` on a dict. */
  function Value(o: Json, key: string): Json
  {
    if Get(o, key).Ok? then Get(o, key).value else JNull
  }

  /** Overwriting field `i` in place moves no key. */
  lemma FindUpdate(fs: seq<(string, Json)>, i: nat, key: string, v: Json)
    requires i < |fs| && fs[i].0 == key
    ensures forall k :: Find(fs[i := (key, v)], k) == Find(fs, k)
  {
    forall k { FindByKeys(fs[i := (key, v)], fs, k); }
  }

  /** A new key appended behind the others is found last, and no other key moves. */
  lemma FindAppendNew(fs: seq<(string, Json)>, key: string, v: Json)
    requires Find(fs, key).None?
    ensures Find(fs + [(key, v)], key) == Some(|fs|)
    ensures forall k :: k != key ==> Find(fs + [(key, v)], k) == Find(fs, k)
  {
    var gs := fs + [(key, v)];
    forall k | k != key { FindAppend(fs, key, v, k); }
    assert gs[|fs|].0 == key;
    assert forall j :: 0 <= j < |fs| ==> gs[j] == fs[j];
  }

  /** Python `o[key] = v` on a dict: an existing key keeps its place, a new one goes last. */
  function Put(o: Json, key: string, v: Json): (r: Json)
    ensures o.JObject? ==> r.JObject? && Get(r, key) == Ok(v)
    ensures o.JObject? ==> forall k :: k != key ==> Get(r, k) == Get(o, k)
    ensures HasKey(o, key) ==> Keys(r) == Keys(o)
    ensures !o.JObject? ==> r == o
  {
    match o
    case JObject(fs) =>
      (match Find(fs, key)
       case Some(i) =>
         FindUpdate(fs, i, key, v);
         JObject(fs[i := (key, v)])
       case None =>
         FindAppendNew(fs, key, v);
         JObject(fs + [(key, v)]))
    case _ => o
  }

  /** Writing back the value a key already holds changes nothing. */
  lemma PutSame(o: Json, key: string)
    requires Get(o, key).Ok?
    ensures Put(o, key, Get(o, key).value) == o
  {
    var i := Find(o.fields, key).value;
    assert o.fields[i := (key, o.fields[i].1)] == o.fields;
  }

  /** Whether `sub` occurs in `s` as a contiguous piece. */
  predicate IsSubstring(sub: string, s: string) {
    exists i :: 0 <= i <= |s| && sub <= s[i..]
  }

  /** Python `key in o` with a string key: dict membership, list-element equality
      or substring search; any other value is not a container. */
  function Contains(o: Json, key: string): (r: Result<bool>)
    ensures o.JObject? ==> r == Ok(HasKey(o, key))
    ensures r.Err? <==> !(o.JObject? || o.JArray? || o.JStr?)
  {
    match o
    case JObject(_) => Ok(HasKey(o, key))
    case JArray(xs) => Ok(JStr(key) in xs)
    case JStr(s) => Ok(IsSubstring(key, s))
    case _ => Err(TypeError)
  }

  /** What a Python `for` loop visits: a list's items, a string's characters as
      one-character strings, or a dict's keys. */
  function Elements(c: Json): (r: Result<seq<Json>>)
    ensures c.JArray? ==> r == Ok(c.items)
    ensures r.Ok? && !c.JArray? ==> forall x :: x in r.value ==> x.JStr?
    ensures r.Err? <==> !(c.JArray? || c.JStr? || c.JObject?)
  {
    match c
    case JArray(xs) => Ok(xs)
    case JStr(s) => Ok(seq(|s|, i requires 0 <= i < |s| => JStr([s[i]])))
    case JObject(fs) => Ok(seq(|fs|, i requires 0 <= i < |fs| => JStr(fs[i].0)))
    case _ => Err(TypeError)
  }

  /** Python truthiness. */
  predicate Truthy(v: Json) {
    match v
    case JNull => false
    case JBool(b) => b
    case JNum(n) => n != 0.0
    case JStr(s) => s != ""
    case JArray(xs) => xs != []
    case JObject(fs) => fs != []
    case JComplex(c) => c != Complex(0.0, 0.0)
    case JTime(_) => true
  }

  /** Python `o.get(key, None)`; JSON null and Python None are the same value. */
  function DictGet(o: Json, key: string): (r: Result<Json>)
    ensures r.Err? <==> !o.JObject?
    ensures HasKey(o, key) ==> r == Get(o, key)
    ensures o.JObject? && !HasKey(o, key) ==> r == Ok(JNull)
  {
    if !o.JObject? then Err(AttributeError)
    else if HasKey(o, key) then Get(o, key)
    else Ok(JNull)
  }

  /** `dateutil.parser.isoparse` on strings; its ISO 8601 grammar is not modelled. */
  type IsoParser = string -> Option<DateTime>

  /** `isoparse(v)` as the decoders call it: a string is parsed, anything else is refused. */
  function IsoParse(v: Json, isoparse: IsoParser): (r: Result<Json>)
    ensures r.Ok? <==> v.JStr? && isoparse(v.s).Some?
    ensures r.Ok? ==> r.value == JTime(isoparse(v.s).value)
    ensures v.JStr? && isoparse(v.s).None? ==> r == Err(ValueError)
  {
    match v
    case JStr(s) =>
      (match isoparse(s)
       case Some(t) => Ok(JTime(t))
       case None => Err(ValueError))
    case _ => Err(TypeError)
  }

  /** `v` was a date string and `v'` is its parse. */
  predicate DateParsed(isoparse: IsoParser, v: Json, v': Json) {
    v.JStr? && isoparse(v.s).Some? && v' == JTime(isoparse(v.s).value)
  }

  /** `IsoParse` as a one-argument conversion. */
  function IsoParseWith(isoparse: IsoParser): Json -> Result<Json>
  {
    v => IsoParse(v, isoparse)
  }
}
