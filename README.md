# Plugin metric content-type dispatch (snap, `control/plugin`)

This project models how snap's plugin layer moves a batch of metric records (`PluginMetricType`)
across a process boundary. The layer has three entry points:

- `MarshalPluginMetricTypes(contentType, metrics)` encodes a batch. It returns the bytes, the concrete
  content type it used, and an error.
- `UnmarshallPluginMetricTypes(contentType, bytes)` decodes a batch.
- `SwapPluginMetricContentType(from, to, bytes)` decodes with one content type and re-encodes with another.

Two codecs are registered. `"snap.gob"` is binary, keeps each payload's Go type, and is the default.
`"snap.json"` is text; an integer payload comes back from it as a float of the same magnitude.
The wildcard `"snap.*"` is accepted only as a marshal target and resolves to `"snap.gob"`.

The implementation file `control/plugin/metric.go` is not part of this model. Its behaviour is modelled
from what `control/plugin/metric_test.go` asserts. The core's own three error texts and gob's unknown-type
text are the ones the test checks; the other codec texts are stand-ins.

Files:

- `wrappers.dfy`: `Option` (Go's nil) and `Result`.
- `metric.dfy`: the record, the constructor, and `MetricSlice`. `MetricSlice` is a slice whose elements are
  updated in place (`Version_`, `AddData`, `Config_`).
- `codecs.dfy`: the gob and json codecs as encode/decode pairs over an abstract payload, with their round
  trips. A payload is a sequence of framing units: gob's type descriptor, json's brackets, one record per
  metric, and raw octets. A record writes its data as a typed scalar (gob) or a bare number (json).
- `plugin.dfy`: the registry, wildcard resolution, Marshal, Unmarshal and Swap.
- `scenarios.dfy`: the test's concrete cases, stated as lemmas and one method.

## Model

| member | source | states |
|---|---|---|
| `Metrics.NewMetric` | control/plugin/metric_test.go:34-37 | the record reads back each argument; the version starts at Go's zero value |
| `Metrics.MetricSlice.constructor` | control/plugin/metric_test.go:34-37 | the slice holds the given records |
| `Metrics.MetricSlice.SetVersion` | control/plugin/metric_test.go:39-48 | `m[i].Version_ = v`: element i's version reads back v; no other field and no other element changes |
| `Metrics.MetricSlice.AddData` | control/plugin/metric_test.go:40-49 | `m[i].AddData(d)`: element i's data reads back d; nothing else changes |
| `Metrics.MetricSlice.SetConfig` | control/plugin/metric_test.go:41-50 | `m[i].Config_ = c`: element i's config becomes non-nil (c); nothing else changes |
| `Codecs.Widen` | control/plugin/metric_test.go:123-130 | json's payload rule: the result is never an int, has the same numeric magnitude, and leaves non-integers unchanged |
| `Codecs.NormalizeAt` | control/plugin/metric_test.go:123-130 | after a codec round trip, record i differs from the original only in its payload, which is as `Decoded` gives it (gob: unchanged, json: widened) |
| `Codecs.WidenAllWidened` | control/plugin/metric_test.go:123-130 | a widened batch holds no integer payload |
| `Codecs.WidenAllFixed` | control/plugin/metric_test.go:205-227 | widening leaves a batch unchanged exactly when it holds no integer payload |
| `Codecs.NormalizeTwice` | control/plugin/metric_test.go:181-227 | two round trips in a row widen the payloads when either codec is json, and leave them untouched otherwise |
| `Codecs.GobScalarInverse` | control/plugin/metric_test.go:95-102 | gob's scalar writer and reader are inverse: a payload comes back with its variant |
| `Codecs.JsonScalarInverse` | control/plugin/metric_test.go:123-130 | reading json's scalar gives the widened payload; json reads only what it could have written, and never an int |
| `Codecs.GobEncode` | control/plugin/metric_test.go:89-93 | the gob payload is the type descriptor followed by one frame per metric, so it is never empty |
| `Codecs.JsonEncode` | control/plugin/metric_test.go:117-121 | the json payload is an array's brackets around one frame per metric, so it is never empty |
| `Codecs.Encode` | control/plugin/metric_test.go:69-70 | every codec's encoding of any batch is non-empty |
| `Codecs.GobDecode` | control/plugin/metric_test.go:95-109 | no input is an error; a stream that does not open with the slice's type descriptor gives gob's unknown-type error (the test's text); a success has one metric per record. `Codecs.CodecRoundTrip` and `Codecs.DecodeCanonical` state what it decodes |
| `Codecs.GobRecordsRoundTrip` | control/plugin/metric_test.go:95-102 | decoding gob's records gives back the exact batch, in order |
| `Codecs.GobRecordsCanonical` | control/plugin/metric_test.go:104-109 | gob's record decoder accepts only the encoding of its own result |
| `Codecs.JsonDecode` | control/plugin/metric_test.go:123-137 | no input is an error; a document that does not open with an array is a syntax error; a success has one metric per array element. `Codecs.CodecRoundTrip` and `Codecs.DecodeCanonical` state what it decodes |
| `Codecs.JsonRecordsRoundTrip` | control/plugin/metric_test.go:123-130 | decoding json's records gives back the batch in order, with payloads widened |
| `Codecs.JsonRecordsCanonical` | control/plugin/metric_test.go:132-137 | json's record decoder accepts only the encoding of its result, and the result holds no integer payload |
| `Codecs.Decode` | control/plugin/metric_test.go:95-137 | neither codec accepts the empty payload, and an accepted payload is longer than the batch it gives. `Codecs.CodecRoundTrip` and `Codecs.DecodeCanonical` state what it decodes |
| `Codecs.CodecRoundTrip` | control/plugin/metric_test.go:95-130 | for both codecs, decode after encode gives the batch with the codec's payload rule applied |
| `Codecs.DecodeCanonical` | control/plugin/metric_test.go:104-137 | a decode succeeds only on the encoding of its result; json's results are in json's normal form |
| `Plugin.PluginError.Error` | control/plugin/metric_test.go:45-57 | an empty-batch or unknown-type message ends with the content type as the caller gave it; a codec's message is passed through as it is. The exact texts are stated by the scenarios |
| `Plugin.Lookup` | control/plugin/metric_test.go:140-155 | a codec is found exactly when the identifier is a registry key, and it is the one registered; the wildcard finds no codec |
| `Plugin.Resolve` | control/plugin/metric_test.go:62-71 | the wildcard resolves to the default identifier `"snap.gob"`, bound to the binary codec; other identifiers stand for themselves; the result is never the wildcard and is registered iff the input is the wildcard or registered |
| `Plugin.Marshal` | control/plugin/metric_test.go:33-71 | an empty batch fails first, for any content type, with the requested type in the message; an unknown type fails with `invalid snap content type`; every failure has nil bytes and `""`; a success reports the resolved, registered type (`"snap.gob"` for the wildcard) and non-empty bytes |
| `Plugin.Unmarshal` | control/plugin/metric_test.go:104-155 | an unregistered type (including the wildcard) is refused by exact lookup with a nil batch; a decode failure is passed through unchanged; a successful decode under a registered type returns that batch with a nil error; a decoded batch is one the codec would encode to exactly these bytes, and json's holds no integer payload |
| `Plugin.Swap` | control/plugin/metric_test.go:157-244 | an unmarshal failure is returned unchanged with nil bytes and `""`; `from` is not resolved; after a successful unmarshal the result is Marshal(to) of the decoded batch, errors included, so an unknown `to` gives `invalid snap content type` and an empty decoded batch gives the empty-batch error; a success reports `to` resolved |
| `Plugin.MarshalUnmarshalRoundTrip` | control/plugin/metric_test.go:62-130 | unmarshalling under the reported type gives the same number of records, in order, with every field but the payload unchanged; gob keeps the payload and json widens it |
| `Plugin.SwapRoundTrip` | control/plugin/metric_test.go:157-227 | a payload marshalled under any resolvable type (the wildcard included), swapped from the type Marshal reported to `to`, succeeds and is reported as `to` resolved; its output decodes to the original batch, widened when either side is json |
| `PluginScenarios.InvalidContentTypeThenUpdate` | control/plugin/metric_test.go:33-51 | with the batch foo/bar = 1, foo/baz = 2 (both ints), marshal with `"foo"` fails with `invalid snap content type: foo`, nil bytes and `""`; the updates then read back version 1, data 3 and a config |
| `PluginScenarios.EmptySlice` | control/plugin/metric_test.go:53-60 | the empty slice fails with `attempt to marshall empty slice of metrics: foo`, nil bytes and `""` |
| `PluginScenarios.GobRoundTripKeepsVariants` | control/plugin/metric_test.go:62-102 | `"snap.*"` and `"snap.gob"` both report `"snap.gob"` with non-empty bytes; unmarshal gives `foo/bar` with int 1 and `foo/baz` with `"2"` |
| `PluginScenarios.JsonRoundTripWidens` | control/plugin/metric_test.go:112-130 | `"snap.json"` is reported unchanged; the round trip gives float 1.0 and `"2"` |
| `PluginScenarios.CorruptPayloadRejected` | control/plugin/metric_test.go:104-137 | the corrupt ten bytes give a non-nil error under both codecs; gob's names the local type it expected |
| `PluginScenarios.UnknownUnmarshalType` | control/plugin/metric_test.go:140-155 | `"snap.wat"` gives `invalid snap content type for unmarshalling: snap.wat` and a nil batch |
| `PluginScenarios.SwapGobToJson` | control/plugin/metric_test.go:157-179 | gob to json reports `"snap.json"`; the output decodes to float 1.0 and `"2"` |
| `PluginScenarios.SwapJsonToGob` | control/plugin/metric_test.go:181-227 | json to `"snap.*"` or to `"snap.gob"` reports `"snap.gob"`; the output decodes to float 1.0 and `"2"` |
| `PluginScenarios.SwapFromUnknownType` | control/plugin/metric_test.go:229-244 | swap from `"snap.wat"` fails with Unmarshal's message and nil bytes |

## Left out

- The gob and json wire formats and the Go libraries behind them (`encoding/gob`, `encoding/json`). A
  payload is a sequence of framing units, not octets. The codecs are specified by their round trips.
- Decoders accepting only canonical encodings is a modelling assumption, not a property of the Go
  libraries. `json.Unmarshal` also accepts objects with missing fields (zero-filled), unknown fields,
  reordered keys and whitespace, and none of these is modelled. `Codecs.DecodeCanonical`,
  `Codecs.GobRecordsCanonical`, `Codecs.JsonRecordsCanonical` and `Plugin.Unmarshal`'s clause that a
  decoded batch re-encodes to the same payload all rest on this assumption. They state a property of the
  model's codecs, not of the real ones.
- Strings are `seq<char>`, which holds only valid Unicode text. A Go string is a byte string, and
  `json.Marshal` replaces invalid UTF-8 with U+FFFD. So "string data comes back unchanged" holds only for
  valid UTF-8. That claim is made by `Codecs.JsonRecordsRoundTrip`, by `Codecs.Widen` for string payloads,
  and by `Plugin.MarshalUnmarshalRoundTrip` and `Plugin.SwapRoundTrip` for string data, namespaces,
  source and tags. Byte strings that are not valid UTF-8 are not modelled.
- Decoder error texts. The gob message for an unknown type descriptor is the test's text. The other texts
  (`GobEmptyError`, `GobMismatchError`, `JsonEmptyError`, `JsonSyntaxError`, `JsonTypeError`) are stand-ins.
  For example, json's real message names the offending character. The model states only that a decode
  failure is a non-nil error passed through unchanged.
- Encode failures. The Go encoders can fail, for example on an unregistered concrete type or a NaN float.
  The closed `Value` type makes encoding total, so Marshal has no encode-error path.
- Codecs.Widen: keeps the exact magnitude of the integer. The real float64 conversion rounds integers beyond
  2^53, and Go's `int` is 64 bits wide. `IntVal` is unbounded.
- Floating point in general: payloads are `real`, so there is no NaN, infinity or IEEE rounding.
- Timestamps are an opaque `Timestamp` carried through unchanged by both codecs. The monotonic-clock reading
  that both codecs drop is not modelled.
- `cdata.Node`, `AddItem` and `ctypes.ConfigValueStr` are not part of this model. A config is an optional,
  flat `ConfigNode` that both codecs carry unchanged.
- `NewMetric`'s parameter list (namespace, timestamp, source, tags, config, data) is inferred from the test's
  call shape, and fields other than those are not modelled. The accessors `Namespace()`, `Data()`,
  `Version()` and `Config()` are the datatype's field selectors.
- A json document that is not an array (for example `null`, which Go decodes to a nil slice without an
  error) is a syntax error here.
- The registry is fixed at the two codecs the test exercises (`"snap.gob"` and `"snap.json"`, plus the
  wildcard). This set is inferred from the test. Further codecs, logging and the goconvey harness are not
  modelled.
