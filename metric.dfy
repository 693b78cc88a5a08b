/**
  The plugin metric record (`PluginMetricType`): a namespace, a timestamp, a source, tags,
  an optional config node, a version and a dynamically typed data payload.
 */
module Metrics {
  import opened Wrappers

  /** The data payload. Go stores it in an `interface{}`; here it is a closed sum of the kinds the codecs carry. */
  datatype Value =
    | IntVal(i: int)
    | FloatVal(f: real)
    | StrVal(s: string)
    | BoolVal(b: bool)

  /** The numeric magnitude of a payload, or None for a non-numeric one. */
  function Magnitude(v: Value): Option<real>
  {
    match v
    case IntVal(i) => Some(i as real)
    case FloatVal(f) => Some(f)
    case _ => None
  }

  /** A leaf of a config node; the node's tree structure is not modelled. */
  datatype ConfigValue =
    | CfgStr(s: string)
    | CfgInt(i: int)
    | CfgFloat(f: real)
    | CfgBool(b: bool)

  datatype ConfigNode = ConfigNode(items: map<string, ConfigValue>)

  /** A point in time, kept opaque: the codecs carry it through unchanged. */
  datatype Timestamp = Timestamp(unixNanos: int)

  datatype Metric = Metric(
    namespace: seq<string>,
    timestamp: Timestamp,
    source: string,
    tags: map<string, string>,
    config: Option<ConfigNode>,
    version: int,
    data: Value)

  /**
    `NewPluginMetricType(namespace, timestamp, source, tags, config, data)`: a record whose accessors
    read back exactly the arguments; the version is not an argument and starts at Go's zero value.
   */
  function NewMetric(namespace: seq<string>, timestamp: Timestamp, source: string,
                     tags: map<string, string>, config: Option<ConfigNode>, data: Value): (m: Metric)
    ensures m.namespace == namespace && m.data == data && m.version == 0
    ensures m.timestamp == timestamp && m.source == source && m.tags == tags && m.config == config
  {
    Metric(namespace, timestamp, source, tags, config, 0, data)
  }

  /**
    A slice of metric records whose elements are updated in place, as `m[i].Version_ = v`,
    `m[i].AddData(d)` and `m[i].Config_ = c` do. Each update changes one field of one element.
   */
  class MetricSlice {
    var elems: seq<Metric>

    constructor (ms: seq<Metric>)
      ensures elems == ms
    {
      elems := ms;
    }

    /** `m[i].Version_ = v` */
    method SetVersion(i: nat, v: int)
      requires i < |elems|
      modifies this
      ensures |elems| == |old(elems)|
      ensures elems[i].version == v
      ensures elems[i].(version := old(elems[i].version)) == old(elems[i])
      ensures forall j :: 0 <= j < |elems| && j != i ==> elems[j] == old(elems[j])
    {
      elems := elems[i := elems[i].(version := v)];
    }

    /** `m[i].AddData(d)`: replaces the payload; `Data()` then reads back `d`. */
    method AddData(i: nat, d: Value)
      requires i < |elems|
      modifies this
      ensures |elems| == |old(elems)|
      ensures elems[i].data == d
      ensures elems[i].(data := old(elems[i].data)) == old(elems[i])
      ensures forall j :: 0 <= j < |elems| && j != i ==> elems[j] == old(elems[j])
    {
      elems := elems[i := elems[i].(data := d)];
    }

    /** `m[i].Config_ = c`: afterwards `Config()` is non-nil. */
    method SetConfig(i: nat, c: ConfigNode)
      requires i < |elems|
      modifies this
      ensures |elems| == |old(elems)|
      ensures elems[i].config == Some(c)
      ensures elems[i].(config := old(elems[i].config)) == old(elems[i])
      ensures forall j :: 0 <= j < |elems| && j != i ==> elems[j] == old(elems[j])
    {
      elems := elems[i := elems[i].(config := Some(c))];
    }
  }
}
