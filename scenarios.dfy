/**
  The concrete cases of `TestMetric`: a two-record batch (`foo/bar` carrying the int 1, `foo/baz` carrying
  the string "2") pushed through marshal, unmarshal and swap, and the error paths.
 */
module PluginScenarios {
  import opened Wrappers
  import opened Metrics
  import opened Codecs
  import opened Plugin

  /**
    The batch the cases build: `foo/bar` carrying the int 1 and `foo/baz` carrying `second`. The first case
    uses the int 2 as `second`, the others the string "2"; the two `time.Now()` readings are parameters.
   */
  function TestBatch(t0: Timestamp, t1: Timestamp, second: Value): seq<Metric>
  {
    [NewMetric(["foo", "bar"], t0, "", map[], None, IntVal(1)),
     NewMetric(["foo", "baz"], t1, "", map[], None, second)]
  }

  function SampleBatch(t0: Timestamp, t1: Timestamp): seq<Metric>
  {
    TestBatch(t0, t1, StrVal("2"))
  }

  /** The ten bytes `1, 0, 1, 1, 1, 1, 1, 0, 0, 1` the corrupt-data cases feed to a decoder. */
  function CorruptPayload(): (p: Payload)
    ensures |p| == 10
  {
    [Raw(1), Raw(0), Raw(1), Raw(1), Raw(1), Raw(1), Raw(1), Raw(0), Raw(0), Raw(1)]
  }

  /**
    Marshal with the unknown type "foo" fails with nil bytes and "", and the in-place updates of the
    first record that follow it read back as written.
   */
  method InvalidContentTypeThenUpdate(t0: Timestamp, t1: Timestamp)
    returns (out: MarshalOut, version: int, data: Value, config: Option<ConfigNode>)
    ensures out.err.Some? && out.err.value.Error() == "invalid snap content type: foo"
    ensures out.bytes.None? && out.contentType == ""
    ensures version == 1 && data == IntVal(3) && config.Some?
  {
    var m := new MetricSlice(TestBatch(t0, t1, IntVal(2)));
    out := Marshal("foo", m.elems);
    m.SetVersion(0, 1);
    m.AddData(0, IntVal(3));
    m.SetConfig(0, ConfigNode(map["user" := CfgStr("foo")]));
    version, data, config := m.elems[0].version, m.elems[0].data, m.elems[0].config;
  }

  /** The empty slice is refused before the (invalid) content type is looked at. */
  lemma EmptySlice()
    ensures var a := Marshal("foo", []);
            a.err.Some? && a.err.value.Error() == "attempt to marshall empty slice of metrics: foo" &&
            a.bytes.None? && a.contentType == ""
  {
  }

  /**
    Marshal with the wildcard or with "snap.gob" reports "snap.gob" and non-empty bytes; gob gives back
    the int 1 and the string "2".
   */
  lemma {:induction false} GobRoundTripKeepsVariants(requested: string, t0: Timestamp, t1: Timestamp)
    requires requested == "snap.*" || requested == "snap.gob"
    ensures var a := Marshal(requested, SampleBatch(t0, t1));
            a.err.None? && a.contentType == "snap.gob" && |a.bytes.value| > 0 &&
            var u := Unmarshal("snap.gob", a.bytes.value);
            u.err.None? && |u.metrics.value| == 2 &&
            u.metrics.value[0].namespace == ["foo", "bar"] && u.metrics.value[0].data == IntVal(1) &&
            u.metrics.value[1].namespace == ["foo", "baz"] && u.metrics.value[1].data == StrVal("2")
  {
    MarshalUnmarshalRoundTrip(requested, SampleBatch(t0, t1));
  }

  /** "snap.json" is reported back unchanged; the int 1 comes back as the float 1.0, the string stays. */
  lemma {:induction false} JsonRoundTripWidens(t0: Timestamp, t1: Timestamp)
    ensures var a := Marshal("snap.json", SampleBatch(t0, t1));
            a.err.None? && a.contentType == "snap.json" && |a.bytes.value| > 0 &&
            var u := Unmarshal("snap.json", a.bytes.value);
            u.err.None? && |u.metrics.value| == 2 &&
            u.metrics.value[0].namespace == ["foo", "bar"] && u.metrics.value[0].data == FloatVal(1.0) &&
            u.metrics.value[1].namespace == ["foo", "baz"] && u.metrics.value[1].data == StrVal("2")
  {
    MarshalUnmarshalRoundTrip("snap.json", SampleBatch(t0, t1));
  }

  /** Corrupt bytes give a non-nil decode error under either codec; gob's names the type it expected. */
  lemma CorruptPayloadRejected()
    ensures Unmarshal("snap.gob", CorruptPayload()) ==
              UnmarshalOut(None, Some(DecodeError(
                "gob: decoding into local type *[]plugin.PluginMetricType, received remote type unknown type")))
    ensures Unmarshal("snap.json", CorruptPayload()).err.Some?
    ensures Unmarshal("snap.json", CorruptPayload()).metrics.None?
  {
  }

  /** Unmarshal does no wildcard resolution and no decode for an unregistered type. */
  lemma {:induction false} UnknownUnmarshalType(t0: Timestamp, t1: Timestamp)
    ensures var a := Marshal("snap.json", SampleBatch(t0, t1));
            var u := Unmarshal("snap.wat", a.bytes.value);
            u.metrics.None? && u.err.value.Error() == "invalid snap content type for unmarshalling: snap.wat"
  {
  }

  /** gob to json: the swap reports "snap.json" and the int 1 arrives as 1.0. */
  lemma {:induction false} SwapGobToJson(t0: Timestamp, t1: Timestamp)
    ensures var a := Marshal("snap.gob", SampleBatch(t0, t1));
            var s := Swap(a.contentType, "snap.json", a.bytes.value);
            s.err.None? && s.contentType == "snap.json" &&
            var u := Unmarshal(s.contentType, s.bytes.value);
            u.err.None? && |u.metrics.value| == 2 &&
            u.metrics.value[0].namespace == ["foo", "bar"] && u.metrics.value[0].data == FloatVal(1.0) &&
            u.metrics.value[1].namespace == ["foo", "baz"] && u.metrics.value[1].data == StrVal("2")
  {
    SwapRoundTrip("snap.gob", "snap.json", SampleBatch(t0, t1));
  }

  /** json to the wildcard or to gob: the swap reports "snap.gob", and the float that json made stays a float. */
  lemma {:induction false} SwapJsonToGob(to: string, t0: Timestamp, t1: Timestamp)
    requires to == "snap.*" || to == "snap.gob"
    ensures var a := Marshal("snap.json", SampleBatch(t0, t1));
            var s := Swap(a.contentType, to, a.bytes.value);
            s.err.None? && s.contentType == "snap.gob" &&
            var u := Unmarshal(s.contentType, s.bytes.value);
            u.err.None? && |u.metrics.value| == 2 &&
            u.metrics.value[0].namespace == ["foo", "bar"] && u.metrics.value[0].data == FloatVal(1.0) &&
            u.metrics.value[1].namespace == ["foo", "baz"] && u.metrics.value[1].data == StrVal("2")
  {
    SwapRoundTrip("snap.json", to, SampleBatch(t0, t1));
  }

  /** An unregistered source type makes the swap fail with Unmarshal's error and nil bytes. */
  lemma {:induction false} SwapFromUnknownType(t0: Timestamp, t1: Timestamp)
    ensures var a := Marshal("snap.json", SampleBatch(t0, t1));
            var s := Swap("snap.wat", "snap.gob", a.bytes.value);
            s.bytes.None? && s.err.value.Error() == "invalid snap content type for unmarshalling: snap.wat"
  {
  }
}
