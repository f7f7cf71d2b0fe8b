/** JavaScript values as the app stores them, and the operators its code
    applies to them. A record (a plain object) is a map from property names
    to values; a missing property reads as `undefined`, and the spread
    `{...a, ...b}` is the map union `a + b`, later keys winning. */
module JsValue {
  import opened Optional
  import opened JsText
  import JsNumber

  /** A JavaScript value. Numbers are exact reals plus NaN. A timestamp
      string produced by `toISOString()` is kept as the instant it names,
      in milliseconds. An object literal carries its own properties. */
  datatype Value =
    | Undefined
    | Null
    | Bool(b: bool)
    | Num(n: real)
    | NaN
    | Str(s: string)
    | Iso(ms: int)
    | Obj(fields: map<string, Value>)

  type Record = map<string, Value>

  /** `r.key`, `undefined` when the property is absent. */
  function Get(r: Record, key: string): Value {
    if key in r then r[key] else Undefined
  }

  /** What `if (v)`, `!v` and `v || w` test. */
  predicate Truthy(v: Value) {
    match v
    case Undefined => false
    case Null => false
    case Bool(b) => b
    case Num(n) => n != 0.0
    case NaN => false
    case Str(s) => s != ""
    case Iso(_) => true
    case Obj(_) => true
  }

  /** `a || b` */
  function Or(a: Value, b: Value): (r: Value)
    ensures Truthy(a) ==> r == a
    ensures !Truthy(a) ==> r == b
  {
    if Truthy(a) then a else b
  }

  /** `v === undefined || v === null`, the test of `?.` and `??`. */
  predicate Nullish(v: Value) {
    v.Undefined? || v.Null?
  }

  /** `v.trim() === ""` for a value with a `trim` method, that is text (a
      timestamp is text that is never blank); None for any other value, on
      which the call throws a TypeError. */
  function TrimIsEmpty(v: Value): (r: Option<bool>)
    ensures r.Some? <==> v.Str? || v.Iso?
    ensures v.Str? ==> r == Some(Blank(v.s))
  {
    match v
    case Str(s) => Some(Blank(s))
    case Iso(_) => Some(false)
    case _ => None
  }

  /** `a === b`. NaN equals nothing. Objects compare by reference, and the
      only object the source compares is a fresh literal, so an object is
      never identical to anything here. A timestamp is only ever compared
      with another timestamp. */
  predicate StrictEq(a: Value, b: Value) {
    !a.NaN? && !a.Obj? && a == b
  }

  /** `Number(v)`: Num or NaN. */
  function ToNumber(v: Value): (r: Value)
    ensures r.Num? || r.NaN?
  {
    match v
    case Undefined => NaN
    case Null => Num(0.0)
    case Bool(b) => Num(if b then 1.0 else 0.0)
    case Num(_) => v
    case NaN => NaN
    case Str(s) => (match JsNumber.StringToNumber(s) case Some(x) => Num(x) case None => NaN)
    case Iso(_) => NaN
    case Obj(_) => NaN
  }

  /** `parseFloat(v)`: converts `v` to text and reads a leading number. A
      number gives itself back; `undefined`, `null`, booleans and objects
      give NaN. (The source never applies it to a timestamp.) */
  function ParseFloatOf(v: Value): (r: Value)
    ensures r.Num? || r.NaN?
  {
    match v
    case Num(_) => v
    case Str(s) => (match JsNumber.ParseFloat(s) case Some(x) => Num(x) case None => NaN)
    case _ => NaN
  }

  /** `v?.toLowerCase().includes(lower)` on text. Any other value, missing or
      not, includes nothing here; the `toLowerCase` call would throw on a
      present value that is not text. */
  predicate FieldHas(v: Value, lower: string) {
    v.Str? && Includes(Lower(v.s), lower)
  }

  /** `a - b` */
  function Minus(a: Value, b: Value): (r: Value)
    ensures r.Num? || r.NaN?
  {
    match (ToNumber(a), ToNumber(b))
    case (Num(x), Num(y)) => Num(x - y)
    case _ => NaN
  }

  /** `a * b` */
  function Times(a: Value, b: Value): (r: Value)
    ensures r.Num? || r.NaN?
  {
    match (ToNumber(a), ToNumber(b))
    case (Num(x), Num(y)) => Num(x * y)
    case _ => NaN
  }

  /** `(a || 0) * b` for a number or NaN `a` and a number `b`: the product,
      or 0 when `a` is NaN. */
  lemma TimesOrZero(a: Value, b: Value)
    requires a.Num? || a.NaN?
    requires b.Num?
    ensures a.Num? ==> Times(Or(a, Num(0.0)), b) == Num(a.n * b.n)
    ensures a.NaN? ==> Times(Or(a, Num(0.0)), b) == Num(0.0)
  {
  }

  /** `a + b` on numeric operands (string concatenation is not modelled). */
  function Plus(a: Value, b: Value): (r: Value)
    ensures r.Num? || r.NaN?
  {
    match (ToNumber(a), ToNumber(b))
    case (Num(x), Num(y)) => Num(x + y)
    case _ => NaN
  }

  /** Adding two numbers. */
  lemma PlusNumbers(x: real, y: real)
    ensures Plus(Num(x), Num(y)) == Num(x + y)
  {
  }

  /** `a <= b`: strings compare by code units, two timestamps by instant,
      everything else as numbers, where NaN makes it false. */
  predicate LessEq(a: Value, b: Value) {
    if a.Str? && b.Str? then LexLessEq(a.s, b.s)
    else if a.Iso? && b.Iso? then a.ms <= b.ms
    else ToNumber(a).Num? && ToNumber(b).Num? && ToNumber(a).n <= ToNumber(b).n
  }

  /** `a > b` for a number `a` against any `b`, as the stock check uses it. */
  predicate Greater(a: Value, b: Value) {
    ToNumber(a).Num? && ToNumber(b).Num? && ToNumber(a).n > ToNumber(b).n
  }

  /** Numbers compare as reals; NaN on either side makes `<=` false. */
  lemma LessEqNumbers(x: real, y: real)
    ensures LessEq(Num(x), Num(y)) <==> x <= y
    ensures !LessEq(NaN, Num(y)) && !LessEq(Num(x), NaN)
    ensures !LessEq(Undefined, Num(y))
  {
  }

  /** `undefined <= b` is false whatever `b` is. */
  lemma LessEqUndefined(b: Value)
    ensures !LessEq(Undefined, b)
  {
    assert ToNumber(Undefined) == NaN;
  }

  /** The value a property keeps after `JSON.stringify` and `JSON.parse`:
      NaN becomes `null`, properties holding `undefined` disappear, and
      nested objects are treated the same way. */
  function JsonValue(v: Value): Value {
    match v
    case NaN => Null
    case Obj(f) => Obj(map k | k in f && !f[k].Undefined? :: JsonValue(f[k]))
    case _ => v
  }

  /** A record after a JSON round trip. */
  function JsonRecord(r: Record): (j: Record)
    ensures j.Keys == set k | k in r && !r[k].Undefined?
  {
    map k | k in r && !r[k].Undefined? :: JsonValue(r[k])
  }

  /** A list of records after a JSON round trip. */
  function JsonList(l: seq<Record>): (j: seq<Record>)
    ensures |j| == |l|
    ensures forall i :: 0 <= i < |l| ==> j[i] == JsonRecord(l[i])
  {
    if l == [] then [] else [JsonRecord(l[0])] + JsonList(l[1..])
  }

  /** Values JSON keeps exactly: no NaN and no `undefined`, at any depth. */
  predicate CleanValue(v: Value) {
    match v
    case NaN => false
    case Undefined => false
    case Obj(f) => forall k | k in f :: CleanValue(f[k])
    case _ => true
  }

  predicate CleanRecord(r: Record) {
    forall k | k in r :: CleanValue(r[k])
  }

  /** A second JSON round trip changes nothing. */
  lemma {:induction false} JsonValueIdempotent(v: Value)
    ensures JsonValue(JsonValue(v)) == JsonValue(v)
  {
    match v
    case Obj(f) =>
      var g := map k | k in f && !f[k].Undefined? :: JsonValue(f[k]);
      forall k | k in g
        ensures !g[k].Undefined? && JsonValue(g[k]) == g[k]
      {
        JsonValueIdempotent(f[k]);
        JsonValueDefined(f[k]);
      }
      assert JsonValue(v) == Obj(g);
      assert (map k | k in g && !g[k].Undefined? :: JsonValue(g[k])) == g;
    case _ =>
  }

  lemma JsonValueDefined(v: Value)
    requires !v.Undefined?
    ensures !JsonValue(v).Undefined?
  {
  }

  /** JSON keeps clean values exactly. */
  lemma {:induction false} JsonValueClean(v: Value)
    requires CleanValue(v)
    ensures JsonValue(v) == v
  {
    match v
    case Obj(f) =>
      forall k | k in f {
        JsonValueClean(f[k]);
      }
    case _ =>
  }

  lemma {:induction false} JsonRecordIdempotent(r: Record)
    ensures JsonRecord(JsonRecord(r)) == JsonRecord(r)
  {
    var j := JsonRecord(r);
    forall k | k in j
      ensures !j[k].Undefined? && JsonValue(j[k]) == j[k]
    {
      JsonValueIdempotent(r[k]);
      JsonValueDefined(r[k]);
    }
  }

  lemma {:induction false} JsonRecordClean(r: Record)
    requires CleanRecord(r)
    ensures JsonRecord(r) == r
  {
    forall k | k in r {
      JsonValueClean(r[k]);
    }
  }

  /** Reading back a list that was written and read once gives the same list. */
  lemma {:induction false} JsonListIdempotent(l: seq<Record>)
    ensures JsonList(JsonList(l)) == JsonList(l)
  {
    forall i | 0 <= i < |l| {
      JsonRecordIdempotent(l[i]);
    }
  }

  /** A list of clean records survives a JSON round trip unchanged. */
  lemma {:induction false} JsonListClean(l: seq<Record>)
    requires forall i :: 0 <= i < |l| ==> CleanRecord(l[i])
    ensures JsonList(l) == l
  {
    forall i | 0 <= i < |l| {
      JsonRecordClean(l[i]);
    }
  }
}
