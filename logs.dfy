/** `configForLogs`: the Kubernetes log source and the Loki sink that ships
    it. */
module Logs {
  import opened Results
  import opened Json
  import opened Vector
  import Metrics

  const KubernetesLogs: Section := map["type" := Str("kubernetes_logs")]

  const LokiLogs: Section := map[
    "type" := Str("loki"),
    "inputs" := Arr([Str("kubernetes_logs")]),
    "endpoint" := Str("http://loki-distributor.loki.svc.cluster.local:3100"),
    "out_of_order_action" := Str("accept"),
    "acknowledgements" := Obj(map["enabled" := Bool(true)]),
    "encoding" := Obj(map["codec" := Str("json")]),
    "request" := Obj(map["concurrency" := Str("adaptive")]),
    "labels" := Obj(map[
      "pod_labels_*" := Str("{{ kubernetes.pod_labels }}"),
      "*" := Str("{{ metadata }}"),
      "source" := Str("vector"),
      "vector_instance" := Str("inf-${HOSTNAME}"),
      "tenant_id" := Str("vector")
    ])
  ]

  /** The two adds in order; a refused first add ends the routine. */
  function LogsStep(c: InternalConfig): Result<InternalConfig> {
    var c1 :- c.Add(Source, "kubernetes_logs", KubernetesLogs);
    c1.Add(Sink, "loki_logs", LokiLogs)
  }

  /** The contents the adds leave behind: those after the last add that was
      accepted, which are stored before the next one is refused. */
  function LogsLeft(c: InternalConfig): InternalConfig {
    match c.Add(Source, "kubernetes_logs", KubernetesLogs)
    case Err(_) => c
    case Ok(c1) =>
      match c1.Add(Sink, "loki_logs", LokiLogs)
      case Err(_) => c1
      case Ok(c2) => c2
  }

  /** The routine on the builder object: on success the contents are those
      of `LogsStep`; a refused add is reported with its panic message, and
      an add before it stays stored. */
  method ConfigForLogs(vCfg: Config) returns (o: Outcome)
    modifies vCfg
    ensures o.Pass? <==> LogsStep(old(vCfg.internal)).Ok?
    ensures o.Pass? ==> vCfg.internal == LogsStep(old(vCfg.internal)).value
    ensures o.Fail? ==> LogsStep(old(vCfg.internal)) == Err(o.error)
    ensures o.Fail? ==> vCfg.internal == LogsLeft(old(vCfg.internal))
  {
    o := vCfg.AddSourceUntyped("kubernetes_logs", KubernetesLogs);
    if o.Fail? {
      return;
    }
    o := vCfg.AddSinkUntyped("loki_logs", LokiLogs);
  }

  /** What is left behind after a refusal extends the old contents: no
      entry is lost or changed, and secret backends and transforms are
      untouched; on success it is the routine's result. */
  lemma LogsLeftExtends(c: InternalConfig)
    ensures LogsStep(c).Ok? ==> LogsLeft(c) == LogsStep(c).value
    ensures c.sources.Items <= LogsLeft(c).sources.Items
    ensures c.sinks.Items <= LogsLeft(c).sinks.Items
    ensures LogsLeft(c).secretBackends == c.secretBackends
    ensures LogsLeft(c).transforms == c.transforms
  {
    var r1 := c.Add(Source, "kubernetes_logs", KubernetesLogs);
    if r1.Ok? {
      var r2 := r1.value.Add(Sink, "loki_logs", LokiLogs);
    }
  }

  /** No add is refused exactly when neither name is taken. */
  lemma LogsSucceedsIff(c: InternalConfig)
    ensures LogsStep(c).Ok? <==> "kubernetes_logs" !in c.sources && "loki_logs" !in c.sinks
  {
  }

  /** On success, the routine adds exactly its source and its sink and
      changes nothing else. */
  lemma LogsEffect(c: InternalConfig)
    requires LogsStep(c).Ok?
    ensures var r := LogsStep(c).value;
      && r.sources == c.sources["kubernetes_logs" := KubernetesLogs]
      && r.sinks == c.sinks["loki_logs" := LokiLogs]
      && r.secretBackends == c.secretBackends
      && r.transforms == c.transforms
  {
  }

  /** The Loki sink carries exactly the settings `type`, `inputs`,
      `endpoint`, `out_of_order_action`, `acknowledgements`, `encoding`,
      `request` and `labels`. */
  lemma LokiSinkKeys()
    ensures LokiLogs.Keys == {"type", "inputs", "endpoint", "out_of_order_action", "acknowledgements", "encoding", "request", "labels"}
  {
  }

  /** The Loki sink reads only the source this routine added. */
  lemma LokiInputsAreSources(c: InternalConfig)
    requires LogsStep(c).Ok?
    ensures var inputs := LokiLogs["inputs"].items;
      forall i :: 0 <= i < |inputs| ==> inputs[i] == Str("kubernetes_logs") && "kubernetes_logs" in LogsStep(c).value.sources
  {
    var inputs := LokiLogs["inputs"].items;
    assert inputs == [Str("kubernetes_logs")];
  }

  /** None of the names this routine adds is one `configForMetrics` adds, so
      running it after that routine on the same configuration is never
      refused unless it would have been refused before. */
  lemma LogsAfterMetrics(c: InternalConfig)
    requires Metrics.MetricsStep(c).Ok?
    ensures LogsStep(Metrics.MetricsStep(c).value).Ok? <==> LogsStep(c).Ok?
  {
    Metrics.MetricsKeys(c);
    LogsIgnoresMetricsNames(c, Metrics.MetricsStep(c).value);
  }

  /** Adding the names `configForMetrics` adds does not change whether this
      routine is refused. */
  lemma LogsIgnoresMetricsNames(c: InternalConfig, d: InternalConfig)
    requires d.sources.Keys == c.sources.Keys + {"host_metrics", "internal_metrics"}
    requires d.sinks.Keys == c.sinks.Keys + {"prometheus_exporter"}
    ensures LogsStep(d).Ok? <==> LogsStep(c).Ok?
  {
    assert "kubernetes_logs" in d.sources <==> "kubernetes_logs" in c.sources;
    assert "loki_logs" in d.sinks <==> "loki_logs" in c.sinks;
    LogsSucceedsIff(c);
    LogsSucceedsIff(d);
  }

  /** Nothing in the Loki sink is refused by the encoder. */
  lemma LokiLogsEncodable()
    ensures Encodable(Obj(LokiLogs))
  {
    assert Encodable(LokiLogs["labels"]);
  }

  /** The routine only adds sections the encoder accepts. */
  lemma LogsKeepsEncodable(c: InternalConfig)
    requires DocumentEncodable(c) && LogsStep(c).Ok?
    ensures DocumentEncodable(LogsStep(c).value)
  {
    LokiLogsEncodable();
    var c1 := c.Add(Source, "kubernetes_logs", KubernetesLogs).value;
    AddKeepsEncodable(c, Source, "kubernetes_logs", KubernetesLogs);
    AddKeepsEncodable(c1, Sink, "loki_logs", LokiLogs);
  }
}
