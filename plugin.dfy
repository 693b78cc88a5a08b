/**
  Content-type dispatch for plugin metrics: `MarshalPluginMetricTypes`, `UnmarshallPluginMetricTypes`
  and `SwapPluginMetricContentType`, over a fixed registry of named codecs.
 */
module Plugin {
  import opened Wrappers
  import opened Metrics
  import opened Codecs

  const WildcardContentType := "snap.*"
  const GobContentType := "snap.gob"
  const JsonContentType := "snap.json"

  /** The codec the wildcard stands for. */
  const DefaultContentType := GobContentType

  /** Exact identifiers only: the wildcard is an input to `Resolve`, never a key. */
  const Registry: map<string, Codec> := map[GobContentType := Gob, JsonContentType := Json]

  datatype PluginError =
    | EmptyBatch(requested: string)
    | InvalidContentType(contentType: string)
    | InvalidUnmarshalContentType(contentType: string)
    | DecodeError(message: string)   // the codec's own error, passed through unchanged
  {
    /**
      The error's message. A failure of the core itself ends with the content type as the caller gave it;
      a codec's error is its own message, passed through as it is.
     */
    function Error(): (r: string)
      ensures EmptyBatch? ==> |r| > |requested| && r[|r| - |requested|..] == requested
      ensures InvalidContentType? || InvalidUnmarshalContentType? ==>
                |r| > |contentType| && r[|r| - |contentType|..] == contentType
      ensures DecodeError? ==> r == message
    {
      match this
      case EmptyBatch(t) => "attempt to marshall empty slice of metrics: " + t
      case InvalidContentType(t) => "invalid snap content type: " + t
      case InvalidUnmarshalContentType(t) => "invalid snap content type for unmarshalling: " + t
      case DecodeError(m) => m
    }
  }

  /** The Go result `([]byte, string, error)`; `None` stands for a nil slice or a nil error. */
  datatype MarshalOut = MarshalOut(bytes: Option<Payload>, contentType: string, err: Option<PluginError>)
  {
    /** Either bytes and a content type, or an error with nil bytes and `""`. */
    predicate WellFormed()
    {
      (err.Some? <==> bytes.None?) && (err.Some? ==> contentType == "")
    }
  }

  /** The Go result `([]PluginMetricType, error)`. */
  datatype UnmarshalOut = UnmarshalOut(metrics: Option<seq<Metric>>, err: Option<PluginError>)
  {
    predicate WellFormed()
    {
      err.Some? <==> metrics.None?
    }
  }

  function MarshalFailure(e: PluginError): MarshalOut
  {
    MarshalOut(None, "", Some(e))
  }

  /** The wildcard stands for the default identifier; every other identifier stands for itself. */
  function Resolve(requested: string): (id: string)
    ensures id != WildcardContentType
    // the wildcard stands for the binary codec
    ensures requested == WildcardContentType ==> id == DefaultContentType && Registry[id] == Gob
    ensures id in Registry <==> requested == WildcardContentType || requested in Registry
    ensures requested != WildcardContentType ==> id == requested
  {
    if requested == WildcardContentType then DefaultContentType else requested
  }

  /** The registry holds the two identifiers, and json is the only one bound to the json codec. */
  lemma RegistryKeys(id: string)
    requires id in Registry
    ensures id == GobContentType || id == JsonContentType
    ensures Registry[id] == Json <==> id == JsonContentType
  {
  }

  /** Exact lookup in the registry: the wildcard is not a key. */
  function Lookup(id: string): (c: Option<Codec>)
    ensures c.Some? <==> id in Registry
    ensures c.Some? ==> Registry[id] == c.value
    ensures id == WildcardContentType ==> c.None?
  {
    if id in Registry then Some(Registry[id]) else None
  }

  /** `MarshalPluginMetricTypes(contentType, metrics)` */
  function Marshal(contentType: string, metrics: seq<Metric>): (r: MarshalOut)
    ensures r.WellFormed()
    // the empty batch is refused first, whatever the content type, naming the type as requested
    ensures r.err == Some(EmptyBatch(contentType)) <==> |metrics| == 0
    ensures |metrics| > 0 && Resolve(contentType) !in Registry ==> r.err == Some(InvalidContentType(contentType))
    ensures r.err.None? <==> |metrics| > 0 && Resolve(contentType) in Registry
    // on success the caller learns the concrete identifier used, never the wildcard
    ensures r.err.None? ==> r.contentType == Resolve(contentType) && r.contentType in Registry
    ensures r.err.None? ==> |r.bytes.value| > 0
    ensures |metrics| > 0 && contentType == WildcardContentType ==> r.contentType == GobContentType
  {
    if |metrics| == 0 then MarshalFailure(EmptyBatch(contentType))
    else match Lookup(Resolve(contentType))
      case None => MarshalFailure(InvalidContentType(contentType))
      case Some(c) => MarshalOut(Some(Encode(c, metrics)), Resolve(contentType), None)
  }

  /** `UnmarshallPluginMetricTypes(contentType, payload)` */
  function Unmarshal(contentType: string, payload: Payload): (r: UnmarshalOut)
    ensures r.WellFormed()
    // exact lookup: the wildcard and every unregistered identifier are refused before any decode
    ensures r.err == Some(InvalidUnmarshalContentType(contentType)) <==> contentType !in Registry
    // a decode failure is passed through unchanged
    ensures contentType in Registry && Decode(Registry[contentType], payload).Err? ==>
              r.err == Some(DecodeError(Decode(Registry[contentType], payload).error))
    // a registered type whose decode succeeds returns the decoded batch with a nil error
    ensures contentType in Registry && Decode(Registry[contentType], payload).Ok? ==>
              r.err.None? && r.metrics == Some(Decode(Registry[contentType], payload).value)
    // whatever is decoded is exactly what the codec would have produced for that batch
    ensures r.metrics.Some? ==> contentType in Registry && Encode(Registry[contentType], r.metrics.value) == payload
    ensures r.metrics.Some? && contentType == JsonContentType ==> Widened(r.metrics.value)
  {
    match Lookup(contentType)
    case None => UnmarshalOut(None, Some(InvalidUnmarshalContentType(contentType)))
    case Some(c) =>
      match Decode(c, payload)
      case Err(e) => UnmarshalOut(None, Some(DecodeError(e)))
      case Ok(ms) =>
        DecodeCanonical(c, payload);
        UnmarshalOut(Some(ms), None)
  }

  /** `SwapPluginMetricContentType(contentType, requestedContentType, payload)`: unmarshal, then marshal. */
  function Swap(from: string, to: string, payload: Payload): (r: MarshalOut)
    ensures r.WellFormed()
    // an unmarshal failure is returned unchanged with nil bytes; `from` is not resolved
    ensures Unmarshal(from, payload).err.Some? ==> r == MarshalFailure(Unmarshal(from, payload).err.value)
    ensures from !in Registry ==> r.err == Some(InvalidUnmarshalContentType(from))
    // a payload that decodes to an empty batch meets Marshal's empty-batch check
    ensures Unmarshal(from, payload).metrics == Some([]) ==> r.err == Some(EmptyBatch(to))
    ensures r.err.None? ==> r.contentType == Resolve(to) && r.contentType in Registry && from in Registry
    // after a successful unmarshal, Marshal's result (its errors included) is returned as it is
    ensures Unmarshal(from, payload).err.None? ==> r == Marshal(to, Unmarshal(from, payload).metrics.value)
    ensures (Unmarshal(from, payload).err.None? && |Unmarshal(from, payload).metrics.value| > 0 &&
             Resolve(to) !in Registry) ==> r == MarshalFailure(InvalidContentType(to))
  {
    var u := Unmarshal(from, payload);
    match u.err
    case Some(e) => MarshalFailure(e)
    case None => Marshal(to, u.metrics.value)
  }

  /**
    Unmarshal under the identifier Marshal reported gives back the batch: same length, same order, every
    field but the payload unchanged, and the payload as the codec's rule says (gob keeps the variant,
    json turns an integer into the float of equal magnitude).
   */
  lemma MarshalUnmarshalRoundTrip(contentType: string, ms: seq<Metric>)
    requires |ms| > 0 && Resolve(contentType) in Registry
    ensures var a := Marshal(contentType, ms);
            var u := Unmarshal(a.contentType, a.bytes.value);
            u.err.None? && |u.metrics.value| == |ms| &&
            forall i :: 0 <= i < |ms| ==>
              u.metrics.value[i] == ms[i].(data := Decoded(Registry[a.contentType], ms[i].data))
  {
    var c := Registry[Resolve(contentType)];
    CodecRoundTrip(c, ms);
    forall i | 0 <= i < |ms| ensures NormalizeAll(c, ms)[i] == ms[i].(data := Decoded(c, ms[i].data)) {
      NormalizeAt(c, ms, i);
    }
  }

  /**
    Swapping a marshalled payload to `to` succeeds, reports `to` resolved, and its output decodes to the
    original batch with payloads widened when either side was json and untouched otherwise.
   */
  lemma SwapRoundTrip(from: string, to: string, ms: seq<Metric>)
    requires |ms| > 0 && Resolve(from) in Registry && Resolve(to) in Registry
    ensures var a := Marshal(from, ms);
            var s := Swap(a.contentType, to, a.bytes.value);
            s.err.None? && s.contentType == Resolve(to) &&
            Unmarshal(s.contentType, s.bytes.value).metrics ==
              Some(if from == JsonContentType || s.contentType == JsonContentType then WidenAll(ms) else ms)
  {
    var id := Resolve(from);
    var c1, c2 := Registry[id], Registry[Resolve(to)];
    RegistryKeys(id);
    RegistryKeys(Resolve(to));
    var a := Marshal(from, ms);
    assert a.contentType == id && a.bytes.value == Encode(c1, ms);
    CodecRoundTrip(c1, ms);
    var ms1 := NormalizeAll(c1, ms);
    assert |ms1| > 0 by { if c1 == Json { assert |WidenAll(ms)| == |ms|; } }
    assert Unmarshal(id, a.bytes.value) == UnmarshalOut(Some(ms1), None);
    var s := Swap(id, to, a.bytes.value);
    assert s == Marshal(to, ms1);
    assert s.contentType == Resolve(to) && s.bytes.value == Encode(c2, ms1);
    CodecRoundTrip(c2, ms1);
    assert Unmarshal(s.contentType, s.bytes.value).metrics == Some(NormalizeAll(c2, ms1));
    NormalizeTwice(c1, c2, ms);
  }
}
