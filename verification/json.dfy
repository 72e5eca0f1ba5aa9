/**
 * Decoded JSON values, as `JSON.parse` hands them to the message listeners.
 * Numbers are integers; `undefined` has no JSON form, so an object field whose
 * value is `undefined` is simply absent from the object.
 */
module JsonData {
  import opened Wrappers

  datatype Json =
    | JNull
    | JBool(b: bool)
    | JNum(n: int)
    | JStr(s: string)
    | JArr(items: seq<Json>)
    | JObj(fields: map<string, Json>)

  /** `value[key]` on a parsed value: defined only for an object holding the key. */
  function Member(j: Json, key: string): (r: Option<Json>)
    ensures r.Some? <==> j.JObj? && key in j.fields
    ensures r.Some? ==> r.value == j.fields[key]
  {
    if j.JObj? && key in j.fields then Some(j.fields[key]) else None
  }

  /** Adds a field unless its value is `undefined`, which `JSON.stringify` omits. */
  function Put(m: map<string, Json>, key: string, v: Option<Json>): (r: map<string, Json>)
    ensures v.Some? ==> r == m[key := v.value]
    ensures v.None? ==> r == m
  {
    match v
    case Some(x) => m[key := x]
    case None => m
  }

  function Str(s: string): Json { JStr(s) }
  function Num(n: int): Json { JNum(n) }
  function Bool(b: bool): Json { JBool(b) }

  function OptStr(o: Option<string>): Option<Json> {
    match o case Some(s) => Some(JStr(s)) case None => None
  }

  function OptNum(o: Option<int>): Option<Json> {
    match o case Some(n) => Some(JNum(n)) case None => None
  }

  function OptBool(o: Option<bool>): Option<Json> {
    match o case Some(b) => Some(JBool(b)) case None => None
  }

  function AsString(j: Json): Option<string> {
    if j.JStr? then Some(j.s) else None
  }

  function AsInt(j: Json): Option<int> {
    if j.JNum? then Some(j.n) else None
  }

  function AsBool(j: Json): Option<bool> {
    if j.JBool? then Some(j.b) else None
  }

  function AsAny(j: Json): Option<Json> {
    Some(j)
  }

  /** A field that must be present and of the decoder's type. */
  function Required<T>(m: map<string, Json>, key: string, decode: Json -> Option<T>): Option<T> {
    if key in m then decode(m[key]) else None
  }

  /**
   * A field that may be absent (`Some(None)`); when present it must decode,
   * otherwise the whole object is rejected (`None`).
   */
  function Optional<T>(m: map<string, Json>, key: string, decode: Json -> Option<T>): Option<Option<T>> {
    if key !in m then Some(None)
    else match decode(m[key])
      case Some(v) => Some(Some(v))
      case None => None
  }

  /** The JSON array of a sequence, element by element. */
  function EncodeAll<T>(xs: seq<T>, encode: T -> Json): (r: seq<Json>)
    ensures |r| == |xs|
    ensures forall i :: 0 <= i < |xs| ==> r[i] == encode(xs[i])
  {
    if xs == [] then [] else [encode(xs[0])] + EncodeAll(xs[1..], encode)
  }

  /** Decodes every element of a JSON array, failing if any element fails. */
  function DecodeAll<T>(js: seq<Json>, decode: Json -> Option<T>): Option<seq<T>> {
    if js == [] then Some([])
    else
      var x :- decode(js[0]);
      var rest :- DecodeAll(js[1..], decode);
      Some([x] + rest)
  }

  function ArrayOf<T>(xs: seq<T>, encode: T -> Json): Json {
    JArr(EncodeAll(xs, encode))
  }

  function AsArrayOf<T>(decode: Json -> Option<T>): Json -> Option<seq<T>> {
    (j: Json) => if j.JArr? then DecodeAll(j.items, decode) else None
  }

  /** Decoding an encoded array gives back the sequence when elements round-trip. */
  lemma {:induction false} DecodeAllEncodeAll<T>(xs: seq<T>, encode: T -> Json, decode: Json -> Option<T>)
    requires forall x :: decode(encode(x)) == Some(x)
    ensures DecodeAll(EncodeAll(xs, encode), decode) == Some(xs)
  {
    if xs != [] {
      var js := EncodeAll(xs, encode);
      assert js[1..] == EncodeAll(xs[1..], encode);
      DecodeAllEncodeAll(xs[1..], encode, decode);
      assert [xs[0]] + xs[1..] == xs;
    }
  }

  /** The array form of `DecodeAllEncodeAll`. */
  lemma ArrayRoundTrip<T>(xs: seq<T>, encode: T -> Json, decode: Json -> Option<T>)
    requires forall x :: decode(encode(x)) == Some(x)
    ensures AsArrayOf(decode)(ArrayOf(xs, encode)) == Some(xs)
  {
    DecodeAllEncodeAll(xs, encode, decode);
  }

  /** JavaScript truthiness of an optional string: defined and non-empty. */
  predicate TruthyStr(o: Option<string>) {
    o.Some? && |o.value| > 0
  }

  /** `s.startsWith(prefix)`. */
  predicate StartsWith(s: string, prefix: string) {
    |prefix| <= |s| && s[..|prefix|] == prefix
  }
}
