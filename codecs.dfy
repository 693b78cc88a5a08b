/**
  The two registered codecs, gob (binary, type preserving) and json (text, numbers lose their Go type),
  as encode/decode pairs over an abstract payload.

  A payload is a sequence of framing units rather than octets: the gob type descriptor, json's brackets,
  one record per metric, and `Raw` octets that neither codec recognises. Each record frame writes the
  metric's data as a `Scalar`: gob writes the Go type with the value, json writes a bare number.
 */
module Codecs {
  import opened Wrappers
  import opened Metrics

  newtype Byte = b: int | 0 <= b < 256

  /** The wire form of a data payload. */
  datatype Scalar =
    | TypedInt(i: int)      // gob: an interface value of Go type int
    | TypedFloat(f: real)   // gob: an interface value of Go type float64
    | Number(n: real)       // json: a numeric literal, which carries no Go type
    | Text(s: string)
    | Flag(b: bool)

  datatype Frame =
    | Raw(octet: Byte)
    | GobType(name: string)
    | JsonOpen
    | JsonClose
    | Record(namespace: seq<string>, timestamp: Timestamp, source: string,
             tags: map<string, string>, config: Option<ConfigNode>, version: int, data: Scalar)

  type Payload = seq<Frame>

  datatype Codec = Gob | Json

  /** The gob type descriptor the encoder sends ahead of a `[]PluginMetricType`. */
  const GobSliceType := "[]plugin.PluginMetricType"

  const GobEmptyError := "EOF"
  const GobUnknownTypeError :=
    "gob: decoding into local type *[]plugin.PluginMetricType, received remote type unknown type"
  const GobMismatchError := "gob: type mismatch decoding plugin.PluginMetricType"
  const JsonEmptyError := "unexpected end of JSON input"
  const JsonSyntaxError := "invalid character looking for beginning of value"
  const JsonTypeError := "json: cannot unmarshal value into plugin.PluginMetricType"

  function RecordOf(m: Metric, s: Scalar): Frame
  {
    Record(m.namespace, m.timestamp, m.source, m.tags, m.config, m.version, s)
  }

  function MetricOf(f: Frame, v: Value): Metric
    requires f.Record?
  {
    Metric(f.namespace, f.timestamp, f.source, f.tags, f.config, f.version, v)
  }

  // ---------------------------------------------------------------------------------------------
  // What each codec does to a payload value: the reference the round trips are stated against.

  /** The json view of a payload: an integer becomes the float of the same magnitude, the rest is unchanged. */
  function Widen(v: Value): (w: Value)
    ensures !w.IntVal?
    ensures Magnitude(w) == Magnitude(v)
    ensures !v.IntVal? ==> w == v
  {
    match v
    case IntVal(i) => FloatVal(i as real)
    case _ => v
  }

  /** The payload a codec gives back for `v`: gob keeps the variant, json widens. */
  function Decoded(c: Codec, v: Value): Value
  {
    if c == Gob then v else Widen(v)
  }

  function WidenAll(ms: seq<Metric>): (ws: seq<Metric>)
    ensures |ws| == |ms|
  {
    if ms == [] then [] else [ms[0].(data := Widen(ms[0].data))] + WidenAll(ms[1..])
  }

  /** The batch a codec gives back for `ms`. */
  function NormalizeAll(c: Codec, ms: seq<Metric>): seq<Metric>
  {
    if c == Gob then ms else WidenAll(ms)
  }

  /** No payload of the batch is an integer: the batch is in json's normal form. */
  predicate Widened(ms: seq<Metric>)
  {
    forall i :: 0 <= i < |ms| ==> !ms[i].data.IntVal?
  }

  /** A codec round trip changes each record's payload as `Decoded` says, and nothing else. */
  lemma {:induction false} NormalizeAt(c: Codec, ms: seq<Metric>, i: int)
    requires 0 <= i < |ms|
    ensures |NormalizeAll(c, ms)| == |ms|
    ensures NormalizeAll(c, ms)[i] == ms[i].(data := Decoded(c, ms[i].data))
  {
    if c == Json && i > 0 {
      NormalizeAt(c, ms[1..], i - 1);
    }
  }

  lemma {:induction false} WidenAllWidened(ms: seq<Metric>)
    ensures Widened(WidenAll(ms))
  {
    forall i | 0 <= i < |ms| ensures !WidenAll(ms)[i].data.IntVal? {
      NormalizeAt(Json, ms, i);
    }
  }

  /** Widening leaves a batch unchanged exactly when the batch is already in json's normal form. */
  lemma {:induction false} WidenAllFixed(ms: seq<Metric>)
    ensures WidenAll(ms) == ms <==> Widened(ms)
  {
    if ms != [] {
      WidenAllFixed(ms[1..]);
      assert Widened(ms) <==> !ms[0].data.IntVal? && Widened(ms[1..]) by {
        if Widened(ms) {
          forall i | 0 <= i < |ms[1..]| ensures !ms[1..][i].data.IntVal? { assert ms[1..][i] == ms[i + 1]; }
        }
        if !ms[0].data.IntVal? && Widened(ms[1..]) {
          forall i | 0 <= i < |ms| ensures !ms[i].data.IntVal? {
            if i > 0 { assert ms[i] == ms[1..][i - 1]; }
          }
        }
      }
      if WidenAll(ms) == ms {
        assert WidenAll(ms)[0] == ms[0];
        assert WidenAll(ms)[1..] == WidenAll(ms[1..]);
      }
    }
  }

  /** Two codec round trips in a row: once json is involved the payloads are widened, otherwise untouched. */
  lemma {:induction false} NormalizeTwice(c1: Codec, c2: Codec, ms: seq<Metric>)
    ensures NormalizeAll(c2, NormalizeAll(c1, ms)) == if c1 == Json || c2 == Json then WidenAll(ms) else ms
  {
    if c1 == Json {
      WidenAllWidened(ms);
      WidenAllFixed(WidenAll(ms));
    }
  }

  // ---------------------------------------------------------------------------------------------
  // gob

  function GobValue(s: Scalar): Option<Value>
  {
    match s
    case TypedInt(i) => Some(IntVal(i))
    case TypedFloat(f) => Some(FloatVal(f))
    case Text(t) => Some(StrVal(t))
    case Flag(b) => Some(BoolVal(b))
    case Number(_) => None
  }

  function GobScalar(v: Value): Scalar
  {
    match v
    case IntVal(i) => TypedInt(i)
    case FloatVal(f) => TypedFloat(f)
    case StrVal(t) => Text(t)
    case BoolVal(b) => Flag(b)
  }

  /** gob's scalar writer and reader are inverse bijections between payloads and typed scalars. */
  lemma GobScalarInverse(v: Value, s: Scalar)
    ensures GobValue(s) == Some(v) <==> GobScalar(v) == s
  {
  }

  function GobRecords(ms: seq<Metric>): (p: Payload)
    ensures |p| == |ms|
  {
    if ms == [] then [] else [RecordOf(ms[0], GobScalar(ms[0].data))] + GobRecords(ms[1..])
  }

  /** encoding/gob's encoding of the batch: the type descriptor, then one record per metric. */
  function GobEncode(ms: seq<Metric>): (p: Payload)
    ensures |p| == |ms| + 1 && p[0] == GobType(GobSliceType)
  {
    [GobType(GobSliceType)] + GobRecords(ms)
  }

  function GobDecodeRecords(p: Payload): (r: Result<seq<Metric>, string>)
    ensures r.Ok? ==> |r.value| == |p|
  {
    if p == [] then Ok([])
    else if !p[0].Record? then Err(GobMismatchError)
    else match GobValue(p[0].data)
      case None => Err(GobMismatchError)
      case Some(v) =>
        match GobDecodeRecords(p[1..])
        case Err(e) => Err(e)
        case Ok(rest) => Ok([MetricOf(p[0], v)] + rest)
  }

  /**
    encoding/gob's decoding of a batch: no input is an error, a stream that does not open with the
    slice's type descriptor is refused with the unknown-type error, and each record after it gives one metric.
   */
  function GobDecode(p: Payload): (r: Result<seq<Metric>, string>)
    ensures p == [] ==> r == Err(GobEmptyError)
    ensures p != [] && p[0] != GobType(GobSliceType) ==> r == Err(GobUnknownTypeError)
    ensures r.Ok? ==> |r.value| == |p| - 1
  {
    if p == [] then Err(GobEmptyError)
    else if p[0] != GobType(GobSliceType) then Err(GobUnknownTypeError)
    else GobDecodeRecords(p[1..])
  }

  lemma {:induction false} GobRecordsRoundTrip(ms: seq<Metric>)
    ensures GobDecodeRecords(GobRecords(ms)) == Ok(ms)
  {
    if ms != [] {
      GobRecordsRoundTrip(ms[1..]);
      GobScalarInverse(ms[0].data, GobScalar(ms[0].data));
      var p := GobRecords(ms);
      assert p[0] == RecordOf(ms[0], GobScalar(ms[0].data)) && p[1..] == GobRecords(ms[1..]);
      assert MetricOf(p[0], ms[0].data) == ms[0];
      assert [ms[0]] + ms[1..] == ms;
    }
  }

  lemma {:induction false} GobRecordsCanonical(p: Payload)
    requires GobDecodeRecords(p).Ok?
    ensures GobRecords(GobDecodeRecords(p).value) == p
  {
    if p != [] {
      GobRecordsCanonical(p[1..]);
      var v := GobValue(p[0].data).value;
      GobScalarInverse(v, p[0].data);
      var ms := GobDecodeRecords(p).value;
      assert ms[1..] == GobDecodeRecords(p[1..]).value;
      assert [p[0]] + p[1..] == p;
    }
  }

  // ---------------------------------------------------------------------------------------------
  // json

  function JsonValue(s: Scalar): Option<Value>
  {
    match s
    case Number(n) => Some(FloatVal(n))
    case Text(t) => Some(StrVal(t))
    case Flag(b) => Some(BoolVal(b))
    case _ => None
  }

  function JsonScalar(v: Value): Scalar
  {
    match v
    case IntVal(i) => Number(i as real)
    case FloatVal(f) => Number(f)
    case StrVal(t) => Text(t)
    case BoolVal(b) => Flag(b)
  }

  /** Reading back what json wrote gives the widened payload; json reads only what it could have written. */
  lemma JsonScalarInverse(v: Value, s: Scalar)
    ensures JsonValue(JsonScalar(v)) == Some(Widen(v))
    ensures JsonValue(s) == Some(v) ==> JsonScalar(v) == s && !v.IntVal?
  {
  }

  function JsonRecords(ms: seq<Metric>): (p: Payload)
    ensures |p| == |ms|
  {
    if ms == [] then [] else [RecordOf(ms[0], JsonScalar(ms[0].data))] + JsonRecords(ms[1..])
  }

  /** encoding/json's encoding of the batch: an array of objects. */
  function JsonEncode(ms: seq<Metric>): (p: Payload)
    ensures |p| == |ms| + 2 && p[0] == JsonOpen && p[|p| - 1] == JsonClose
  {
    [JsonOpen] + JsonRecords(ms) + [JsonClose]
  }

  function JsonDecodeRecords(p: Payload): (r: Result<seq<Metric>, string>)
    ensures r.Ok? ==> |r.value| == |p|
  {
    if p == [] then Ok([])
    else if !p[0].Record? then Err(JsonSyntaxError)
    else match JsonValue(p[0].data)
      case None => Err(JsonTypeError)
      case Some(v) =>
        match JsonDecodeRecords(p[1..])
        case Err(e) => Err(e)
        case Ok(rest) => Ok([MetricOf(p[0], v)] + rest)
  }

  /**
    encoding/json's decoding of a batch: no input is an error, a document that does not open with an
    array is a syntax error, and each element of the array gives one metric.
   */
  function JsonDecode(p: Payload): (r: Result<seq<Metric>, string>)
    ensures p == [] ==> r == Err(JsonEmptyError)
    ensures p != [] && p[0] != JsonOpen ==> r == Err(JsonSyntaxError)
    ensures r.Ok? ==> |r.value| == |p| - 2
  {
    if p == [] then Err(JsonEmptyError)
    else if p[0] != JsonOpen || |p| < 2 || p[|p| - 1] != JsonClose then Err(JsonSyntaxError)
    else JsonDecodeRecords(p[1..|p| - 1])
  }

  lemma {:induction false} JsonRecordsRoundTrip(ms: seq<Metric>)
    ensures JsonDecodeRecords(JsonRecords(ms)) == Ok(WidenAll(ms))
  {
    if ms != [] {
      JsonRecordsRoundTrip(ms[1..]);
      JsonScalarInverse(ms[0].data, JsonScalar(ms[0].data));
      assert JsonRecords(ms)[1..] == JsonRecords(ms[1..]);
    }
  }

  lemma {:induction false} JsonRecordsCanonical(p: Payload)
    requires JsonDecodeRecords(p).Ok?
    ensures JsonRecords(JsonDecodeRecords(p).value) == p
    ensures Widened(JsonDecodeRecords(p).value)
  {
    if p != [] {
      JsonRecordsCanonical(p[1..]);
      var v := JsonValue(p[0].data).value;
      JsonScalarInverse(v, p[0].data);
      var ms := JsonDecodeRecords(p).value;
      var rest := JsonDecodeRecords(p[1..]).value;
      assert ms == [MetricOf(p[0], v)] + rest;
      assert ms[1..] == rest;
      assert [p[0]] + p[1..] == p;
      forall i | 0 <= i < |ms| ensures !ms[i].data.IntVal? {
        if i > 0 { assert ms[i] == rest[i - 1]; }
      }
    }
  }

  // ---------------------------------------------------------------------------------------------
  // Dispatch on a codec

  function Encode(c: Codec, ms: seq<Metric>): (p: Payload)
    ensures |p| > 0
  {
    match c
    case Gob => GobEncode(ms)
    case Json => JsonEncode(ms)
  }

  /** An accepted payload carries framing besides its records, so the empty payload is never accepted. */
  function Decode(c: Codec, p: Payload): (r: Result<seq<Metric>, string>)
    ensures p == [] ==> r.Err?
    ensures r.Ok? ==> |r.value| < |p|
  {
    match c
    case Gob => GobDecode(p)
    case Json => JsonDecode(p)
  }

  /** Decoding what a codec encoded gives the batch back, in order, with payloads as `Decoded` says. */
  lemma CodecRoundTrip(c: Codec, ms: seq<Metric>)
    ensures Decode(c, Encode(c, ms)) == Ok(NormalizeAll(c, ms))
  {
    match c
    case Gob =>
      GobRecordsRoundTrip(ms);
      assert GobEncode(ms)[1..] == GobRecords(ms);
    case Json =>
      JsonRecordsRoundTrip(ms);
      var p := JsonEncode(ms);
      assert p[1..|p| - 1] == JsonRecords(ms);
  }

  /**
    A decode succeeds only on a payload that is the encoding of its result, so every accepted payload
    comes from `Encode`; json's results are moreover in json's normal form.
   */
  lemma DecodeCanonical(c: Codec, p: Payload)
    requires Decode(c, p).Ok?
    ensures Encode(c, Decode(c, p).value) == p
    ensures c == Json ==> Widened(Decode(c, p).value)
  {
    match c
    case Gob =>
      GobRecordsCanonical(p[1..]);
      assert [p[0]] + p[1..] == p;
    case Json =>
      JsonRecordsCanonical(p[1..|p| - 1]);
      assert [p[0]] + p[1..|p| - 1] + [p[|p| - 1]] == p;
  }
}
