/** `_to_complex` (qiskit_ibm_runtime/utils/backend.py): a two-element list
    `[re, im]` or a value that is already complex becomes a complex number;
    anything else is refused. */
module ComplexCoercer {
  import opened Wire

  /** A value Python's `complex()` accepts as a number: int or float, bool, complex. */
  predicate IsNumber(v: Json) {
    v.JNum? || v.JBool? || v.JComplex?
  }

  /** A number as a complex value (`True` is 1, `False` is 0). */
  function AsComplex(v: Json): (c: Complex)
    requires IsNumber(v)
    ensures !v.JComplex? ==> c.im == 0.0
  {
    match v
    case JNum(n) => Complex(n, 0.0)
    case JBool(b) => Complex(if b then 1.0 else 0.0, 0.0)
    case JComplex(c) => c
  }

  /** Python `complex(a, b)`, which is `a + b * 1j` also when `a` or `b` is complex;
      a string, None, a list, a dict or a datetime makes it raise TypeError. */
  function PyComplex(a: Json, b: Json): (r: Result<Complex>)
    ensures r.Ok? <==> IsNumber(a) && IsNumber(b)
    ensures r.Ok? && !a.JComplex? && !b.JComplex? ==>
      r.value == Complex(AsComplex(a).re, AsComplex(b).re)
  {
    if IsNumber(a) && IsNumber(b) then
      var x, y := AsComplex(a), AsComplex(b);
      Ok(Complex(x.re - y.im, x.im + y.re))
    else Err(TypeError)
  }

  /** The shapes `_to_complex` accepts without raising. */
  predicate IsComplexFormat(v: Json) {
    || v.JComplex?
    || (v.JArray? && |v.items| == 2 && IsNumber(v.items[0]) && IsNumber(v.items[1]))
  }

  /** `_to_complex(value)`. */
  function ToComplex(v: Json): (r: Result<Complex>)
    ensures r.Ok? <==> IsComplexFormat(v)
    ensures v.JComplex? ==> r == Ok(v.c)
    ensures !v.JComplex? && !(v.JArray? && |v.items| == 2) ==> r == Err(NotComplexFormat(v))
    ensures v.JArray? && |v.items| == 2 && !IsComplexFormat(v) ==> r == Err(TypeError)
  {
    if v.JArray? && |v.items| == 2 then PyComplex(v.items[0], v.items[1])
    else if v.JComplex? then Ok(v.c)
    else Err(NotComplexFormat(v))
  }

  /** `_to_complex` as a conversion whose result is written back into a dict. */
  function ToComplexJson(v: Json): (r: Result<Json>)
    ensures r.Ok? <==> ToComplex(v).Ok?
    ensures r.Ok? ==> r.value == JComplex(ToComplex(v).value)
    ensures r.Err? ==> r.error == ToComplex(v).error
  {
    var c :- ToComplex(v);
    Ok(JComplex(c))
  }

  /** A complex number written back as the two-element list it came from. */
  function AsPair(c: Complex): Json
  {
    JArray([JNum(c.re), JNum(c.im)])
  }

  /** `[a, b]` of two reals is `a + b j`. */
  lemma PairOfReals(a: real, b: real)
    ensures ToComplex(JArray([JNum(a), JNum(b)])) == Ok(Complex(a, b))
  {
  }

  /** Every coerced value survives being written back as a pair and coerced again. */
  lemma PairRoundTrip(v: Json)
    requires ToComplex(v).Ok?
    ensures ToComplex(AsPair(ToComplex(v).value)) == ToComplex(v)
  {
  }

  /** Coercing an already coerced value changes nothing. */
  lemma Idempotent(v: Json)
    requires ToComplex(v).Ok?
    ensures ToComplex(JComplex(ToComplex(v).value)) == ToComplex(v)
  {
  }

  /** Every shape other than a pair of numbers or a complex raises TypeError: a list of
      any other length, a scalar, a string, a dict or a datetime, and a pair holding a
      non-number. */
  lemma Rejects(v: Json)
    requires !IsComplexFormat(v)
    ensures ToComplex(v) == Err(NotComplexFormat(v)) || ToComplex(v) == Err(TypeError)
    ensures v.JArray? && |v.items| != 2 ==> ToComplex(v) == Err(NotComplexFormat(v))
    ensures (v.JNull? || v.JBool? || v.JNum? || v.JStr? || v.JObject? || v.JTime?) ==>
      ToComplex(v) == Err(NotComplexFormat(v))
  {
  }

  /** A pair holding complex numbers follows `complex(a, b) == a + b * 1j`. */
  lemma PairOfComplexes(x: Complex, y: Complex)
    ensures ToComplex(JArray([JComplex(x), JComplex(y)])) ==
      Ok(Complex(x.re - y.im, x.im + y.re))
  {
  }
}
