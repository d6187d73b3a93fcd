/** `configForMetrics`: the host and internal metrics sources and the
    Prometheus exporter sink that publishes both. */
module Metrics {
  import opened Results
  import opened Json
  import opened Vector

  const HostMetrics: Section := map[
    "type" := Str("host_metrics"),
    "filesystem" := Obj(map[
      "devices" := Obj(map["exclude" := Arr([Str("binfmt_misc")])]),
      "filesystems" := Obj(map["exclude" := Arr([Str("binfmt_misc")])]),
      "mountpoints" := Obj(map["exclude" := Arr([Str("*/proc/sys/fs/binfmt_misc")])])
    ])
  ]

  const InternalMetrics: Section := map["type" := Str("internal_metrics")]

  const PrometheusExporter: Section := map[
    "type" := Str("prometheus_exporter"),
    "inputs" := Arr([Str("host_metrics"), Str("internal_metrics")]),
    "address" := Str("0.0.0.0:9090")
  ]

  /** The three adds in order; the first refused one ends the routine. */
  function MetricsStep(c: InternalConfig): Result<InternalConfig> {
    var c1 :- c.Add(Source, "host_metrics", HostMetrics);
    var c2 :- c1.Add(Source, "internal_metrics", InternalMetrics);
    c2.Add(Sink, "prometheus_exporter", PrometheusExporter)
  }

  /** The contents the adds leave behind: those after the last add that was
      accepted, which are stored before the next one is refused. */
  function MetricsLeft(c: InternalConfig): InternalConfig {
    match c.Add(Source, "host_metrics", HostMetrics)
    case Err(_) => c
    case Ok(c1) =>
      match c1.Add(Source, "internal_metrics", InternalMetrics)
      case Err(_) => c1
      case Ok(c2) =>
        match c2.Add(Sink, "prometheus_exporter", PrometheusExporter)
        case Err(_) => c2
        case Ok(c3) => c3
  }

  /** The routine on the builder object: on success the contents are those
      of `MetricsStep`; a refused add is reported with its panic message,
      and the adds before it stay stored. */
  method ConfigForMetrics(vCfg: Config) returns (o: Outcome)
    modifies vCfg
    ensures o.Pass? <==> MetricsStep(old(vCfg.internal)).Ok?
    ensures o.Pass? ==> vCfg.internal == MetricsStep(old(vCfg.internal)).value
    ensures o.Fail? ==> MetricsStep(old(vCfg.internal)) == Err(o.error)
    ensures o.Fail? ==> vCfg.internal == MetricsLeft(old(vCfg.internal))
  {
    o := vCfg.AddSourceUntyped("host_metrics", HostMetrics);
    if o.Fail? {
      return;
    }
    o := vCfg.AddSourceUntyped("internal_metrics", InternalMetrics);
    if o.Fail? {
      return;
    }
    o := vCfg.AddSinkUntyped("prometheus_exporter", PrometheusExporter);
  }

  /** No add is refused exactly when none of the three names is taken; the
      two source names differ, so the second add never trips over the first. */
  lemma MetricsSucceedsIff(c: InternalConfig)
    ensures MetricsStep(c).Ok? <==>
      "host_metrics" !in c.sources && "internal_metrics" !in c.sources && "prometheus_exporter" !in c.sinks
  {
    var r1 := c.Add(Source, "host_metrics", HostMetrics);
    if r1.Ok? {
      assert r1.value.sources.Keys == c.sources.Keys + {"host_metrics"};
      assert "host_metrics" != "internal_metrics";
      var r2 := r1.value.Add(Source, "internal_metrics", InternalMetrics);
      if r2.Ok? {
        assert r2.value.sinks == c.sinks;
      }
    }
  }

  /** What is left behind after a refusal extends the old contents: no
      entry is lost or changed, and secret backends and transforms are
      untouched; on success it is the routine's result. */
  lemma MetricsLeftExtends(c: InternalConfig)
    ensures MetricsStep(c).Ok? ==> MetricsLeft(c) == MetricsStep(c).value
    ensures c.sources.Items <= MetricsLeft(c).sources.Items
    ensures c.sinks.Items <= MetricsLeft(c).sinks.Items
    ensures MetricsLeft(c).secretBackends == c.secretBackends
    ensures MetricsLeft(c).transforms == c.transforms
  {
    var r1 := c.Add(Source, "host_metrics", HostMetrics);
    if r1.Ok? {
      var r2 := r1.value.Add(Source, "internal_metrics", InternalMetrics);
      if r2.Ok? {
        var r3 := r2.value.Add(Sink, "prometheus_exporter", PrometheusExporter);
      }
    }
  }

  /** On success, the routine adds exactly its two sources and its sink and
      changes nothing else: other sources and sinks keep their values, and
      secret backends and transforms are untouched. */
  lemma MetricsEffect(c: InternalConfig)
    requires MetricsStep(c).Ok?
    ensures var r := MetricsStep(c).value;
      && r.sources == c.sources["host_metrics" := HostMetrics]["internal_metrics" := InternalMetrics]
      && r.sinks == c.sinks["prometheus_exporter" := PrometheusExporter]
      && r.secretBackends == c.secretBackends
      && r.transforms == c.transforms
  {
  }

  /** Every name the exporter lists as an input is a source this routine
      itself added. */
  lemma MetricsInputsAreSources(c: InternalConfig)
    requires MetricsStep(c).Ok?
    ensures var inputs := PrometheusExporter["inputs"].items;
      forall i :: 0 <= i < |inputs| ==>
        inputs[i].Str? && inputs[i].s in {"host_metrics", "internal_metrics"} && inputs[i].s in MetricsStep(c).value.sources
  {
    var inputs := PrometheusExporter["inputs"].items;
    assert inputs == [Str("host_metrics"), Str("internal_metrics")];
  }

  /** On success, the names added are exactly the routine's own three. */
  lemma MetricsKeys(c: InternalConfig)
    requires MetricsStep(c).Ok?
    ensures MetricsStep(c).value.sources.Keys == c.sources.Keys + {"host_metrics", "internal_metrics"}
    ensures MetricsStep(c).value.sinks.Keys == c.sinks.Keys + {"prometheus_exporter"}
  {
    MetricsEffect(c);
  }

  /** Nothing in the routine's three sections is refused by the encoder. */
  lemma SectionsEncodable()
    ensures Encodable(Obj(HostMetrics))
    ensures Encodable(Obj(InternalMetrics))
    ensures Encodable(Obj(PrometheusExporter))
  {
    HostMetricsEncodable();
    assert Encodable(PrometheusExporter["inputs"]);
  }

  lemma HostMetricsEncodable()
    ensures Encodable(Obj(HostMetrics))
  {
    var fs := HostMetrics["filesystem"].fields;
    assert Encodable(fs["devices"]);
    assert Encodable(fs["filesystems"]);
    assert Encodable(fs["mountpoints"]);
  }

  /** The routine only adds sections the encoder accepts. */
  lemma MetricsKeepsEncodable(c: InternalConfig)
    requires DocumentEncodable(c) && MetricsStep(c).Ok?
    ensures DocumentEncodable(MetricsStep(c).value)
  {
    SectionsEncodable();
    var c1 := c.Add(Source, "host_metrics", HostMetrics).value;
    AddKeepsEncodable(c, Source, "host_metrics", HostMetrics);
    var c2 := c1.Add(Source, "internal_metrics", InternalMetrics).value;
    AddKeepsEncodable(c1, Source, "internal_metrics", InternalMetrics);
    AddKeepsEncodable(c2, Sink, "prometheus_exporter", PrometheusExporter);
  }
}
