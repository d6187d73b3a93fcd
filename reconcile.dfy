/** The controller: `vectorAgentConfig` builds the agent's configuration,
    `reconcile` publishes it as a ConfigMap, and `App.Reconcile` runs
    `reconcile` on every tick while this replica leads, until cancelled. */
module Reconcile {
  import opened Results
  import opened Json
  import JsonDecode
  import opened Vector
  import opened Metrics
  import opened Logs

  // ---------------------------------------------------------------------------
  // vectorAgentConfig

  /** The contents after both routines ran on a fresh configuration. */
  const AgentConfig := InternalConfig(
    map[],
    map["host_metrics" := HostMetrics, "internal_metrics" := InternalMetrics, "kubernetes_logs" := KubernetesLogs],
    map[],
    map["prometheus_exporter" := PrometheusExporter, "loki_logs" := LokiLogs])

  /** The document the controller's test expects, written out on its own. */
  const ExpectedDocument := Obj(map[
    "sources" := Obj(map[
      "host_metrics" := Obj(map[
        "type" := Str("host_metrics"),
        "filesystem" := Obj(map[
          "devices" := Obj(map["exclude" := Arr([Str("binfmt_misc")])]),
          "filesystems" := Obj(map["exclude" := Arr([Str("binfmt_misc")])]),
          "mountpoints" := Obj(map["exclude" := Arr([Str("*/proc/sys/fs/binfmt_misc")])])
        ])
      ]),
      "internal_metrics" := Obj(map["type" := Str("internal_metrics")]),
      "kubernetes_logs" := Obj(map["type" := Str("kubernetes_logs")])
    ]),
    "sinks" := Obj(map[
      "prometheus_exporter" := Obj(map[
        "type" := Str("prometheus_exporter"),
        "inputs" := Arr([Str("host_metrics"), Str("internal_metrics")]),
        "address" := Str("0.0.0.0:9090")
      ]),
      "loki_logs" := Obj(map[
        "type" := Str("loki"),
        "inputs" := Arr([Str("kubernetes_logs")]),
        "endpoint" := Str("http://loki-distributor.loki.svc.cluster.local:3100"),
        "out_of_order_action" := Str("accept"),
        "acknowledgements" := Obj(map["enabled" := Bool(true)]),
        "encoding" := Obj(map["codec" := Str("json")]),
        "request" := Obj(map["concurrency" := Str("adaptive")]),
        "labels" := Obj(map[
          "pod_labels_*" := Str("{{ kubernetes.pod_labels }}"),
          "*" := Str("{{ metadata }}"),
          "source" := Str("vector"),
          "vector_instance" := Str("inf-${HOSTNAME}"),
          "tenant_id" := Str("vector")
        ])
      ])
    ])
  ])

  /** Metrics then logs, from a fresh configuration, is never refused and
      gives `AgentConfig`. */
  lemma AgentConfigBuilt()
    ensures MetricsStep(EmptyConfig).Ok?
    ensures LogsStep(MetricsStep(EmptyConfig).value) == Ok(AgentConfig)
  {
    MetricsSucceedsIff(EmptyConfig);
    MetricsEffect(EmptyConfig);
    var m := MetricsStep(EmptyConfig).value;
    LogsSucceedsIff(m);
    LogsEffect(m);
  }

  /** The sources section of the document is the test's. */
  lemma SourcesDocument()
    ensures TableValue(AgentConfig.sources) == ExpectedDocument.fields["sources"]
  {
  }

  /** The sinks section of the document is the test's. */
  lemma SinksDocument()
    ensures TableValue(AgentConfig.sinks) == ExpectedDocument.fields["sinks"]
  {
  }

  /** The document read back from the agent's configuration is the test's:
      three sources, two sinks, no `secret` and no `transforms`. */
  lemma AgentDocument()
    ensures DocumentValue(AgentConfig) == ExpectedDocument
  {
    DocumentWithoutOptional(AgentConfig);
    SourcesDocument();
    SinksDocument();
  }

  /** Nothing the two routines add is refused by the encoder. */
  lemma AgentConfigEncodable()
    ensures DocumentEncodable(AgentConfig)
  {
    AgentConfigBuilt();
    EmptyConfigEncodable();
    MetricsKeepsEncodable(EmptyConfig);
    LogsKeepsEncodable(MetricsStep(EmptyConfig).value);
  }

  /** `vectorAgentConfig`: a fresh configuration, metrics, logs, then the
      document. The adds are never refused, the document is always written,
      and reading it back gives the test's document. */
  method VectorAgentConfig() returns (r: Result<string>)
    ensures r == Serialize(AgentConfig)
    ensures r.Ok? && JsonDecode.Decode(r.value) == Ok(ExpectedDocument)
  {
    AgentConfigBuilt();
    AgentConfigEncodable();
    AgentDocument();
    var vCfg := new Config();
    var o := ConfigForMetrics(vCfg);
    match o {
      case Fail(e) =>
        assert false;
        return Err(e);
      case Pass =>
    }
    o := ConfigForLogs(vCfg);
    match o {
      case Fail(e) =>
        assert false;
        return Err(e);
      case Pass =>
    }
    r := vCfg.JSON();
  }

  // ---------------------------------------------------------------------------
  // reconcile

  /** The part of a `corev1.ConfigMap` that `reconcile` fills in. */
  datatype ConfigMap = ConfigMap(name: string, namespace: string, labels: map<string, string>, data: map<string, string>)

  /** The ConfigMap that carries `text`, labelled with its owner. */
  function DesiredConfigMap(appName: string, text: string): ConfigMap {
    ConfigMap("vector-agent-config", "vector", map["owner" := appName], map["config.json" := text])
  }

  /** What one `reconcile` call does: the resource it hands to the upsert
      (none when the build failed) and the error it returns. */
  datatype Attempt = Attempt(upserted: Option<ConfigMap>, err: Outcome)

  /** One `reconcile` call, given what `vectorAgentConfig` returned and what
      the Kubernetes client answered to the upsert. */
  function ReconcileStep(appName: string, build: Result<string>, upsert: Outcome): Attempt {
    match build
    case Err(e) => Attempt(None, Fail(e))
    case Ok(text) =>
      var resource := DesiredConfigMap(appName, text);
      match upsert
      case Pass => Attempt(Some(resource), Pass)
      case Fail(e) => Attempt(Some(resource), Fail("failed to upsert resource: " + e))
  }

  /** A call succeeds exactly when the build and the upsert both do; a
      failed build is returned as it is and nothing is upserted; a failed
      upsert is returned wrapped. */
  lemma AttemptOutcome(appName: string, build: Result<string>, upsert: Outcome)
    ensures var a := ReconcileStep(appName, build, upsert);
      && (a.err.Pass? <==> build.Ok? && upsert.Pass?)
      && (a.upserted.Some? <==> build.Ok?)
      && (build.Err? ==> a.err == Fail(build.error))
      && (build.Ok? && upsert.Fail? ==> a.err == Fail("failed to upsert resource: " + upsert.error))
  {
  }

  /** The upserted resource is named `vector-agent-config` in namespace
      `vector`, is labelled only with its owner, and carries only
      `config.json`, which holds the built text. */
  lemma PublishedResource(appName: string, text: string, upsert: Outcome)
    ensures var a := ReconcileStep(appName, Ok(text), upsert);
      && a.upserted.Some?
      && a.upserted.value.name == "vector-agent-config"
      && a.upserted.value.namespace == "vector"
      && a.upserted.value.labels == map["owner" := appName]
      && a.upserted.value.data.Keys == {"config.json"}
      && a.upserted.value.data["config.json"] == text
  {
  }

  /** The part of `reconcile` after the build: a failed build is returned,
      otherwise the ConfigMap is built and handed to the upsert, whose error
      is returned wrapped. */
  method ReconcileWith(appName: string, agentConfig: Result<string>, upsert: Outcome) returns (a: Attempt)
    ensures a == ReconcileStep(appName, agentConfig, upsert)
  {
    if agentConfig.Err? {
      return Attempt(None, Fail(agentConfig.error));
    }
    var resource := DesiredConfigMap(appName, agentConfig.value);
    if upsert.Fail? {
      return Attempt(Some(resource), Fail("failed to upsert resource: " + upsert.error));
    }
    a := Attempt(Some(resource), Pass);
  }

  /** `reconcile`: the agent's configuration is published, and the text
      upserted reads back as the test's document. */
  method ReconcileOnce(appName: string, upsert: Outcome) returns (a: Attempt)
    ensures a == ReconcileStep(appName, Serialize(AgentConfig), upsert)
    ensures a.upserted.Some? && JsonDecode.Decode(a.upserted.value.data["config.json"]) == Ok(ExpectedDocument)
  {
    var agentConfig := VectorAgentConfig();
    a := ReconcileWith(appName, agentConfig, upsert);
  }

  // ---------------------------------------------------------------------------
  // App.Reconcile

  /** What the loop observes, in the order its `select` took it: a tick,
      with whether this replica leads and what the upsert would answer, or
      the cancellation of its context. */
  datatype Event = Tick(isLeader: bool, upsert: Outcome) | Cancel

  /** The `reconcile` calls made so far, and whether the loop has returned. */
  datatype Trace = Trace(attempts: seq<Attempt>, closed: bool)

  /** The loop over a sequence of events, from the start. */
  function Run(appName: string, build: Result<string>, events: seq<Event>): Trace {
    if events == [] then Trace([], false)
    else
      match events[0]
      case Cancel => Trace([], true)
      case Tick(isLeader, upsert) =>
        var rest := Run(appName, build, events[1..]);
        if isLeader then Trace([ReconcileStep(appName, build, upsert)] + rest.attempts, rest.closed)
        else rest
  }

  /** The upsert answers of the leader ticks before the first cancellation. */
  function LeaderUpserts(events: seq<Event>): seq<Outcome> {
    if events == [] then []
    else
      match events[0]
      case Cancel => []
      case Tick(isLeader, upsert) => (if isLeader then [upsert] else []) + LeaderUpserts(events[1..])
  }

  /** A loop still running when the first events run out goes on with the
      rest as if from the start: no failed attempt stops it. */
  lemma {:induction false} RunAppend(appName: string, build: Result<string>, p: seq<Event>, q: seq<Event>)
    requires !Run(appName, build, p).closed
    ensures Run(appName, build, p + q) ==
      Trace(Run(appName, build, p).attempts + Run(appName, build, q).attempts, Run(appName, build, q).closed)
  {
    if p == [] {
      assert p + q == q;
    } else {
      assert (p + q)[1..] == p[1..] + q;
      RunAppend(appName, build, p[1..], q);
    }
  }

  /** Once the loop has returned, later events change nothing. */
  lemma {:induction false} RunClosed(appName: string, build: Result<string>, p: seq<Event>, q: seq<Event>)
    requires Run(appName, build, p).closed
    ensures Run(appName, build, p + q) == Run(appName, build, p)
  {
    assert p != [];
    assert (p + q)[1..] == p[1..] + q;
    if p[0].Tick? {
      RunClosed(appName, build, p[1..], q);
    }
  }

  /** The loop returns exactly when it sees a cancellation. */
  lemma {:induction false} ClosedIffCancel(appName: string, build: Result<string>, events: seq<Event>)
    ensures Run(appName, build, events).closed <==> Cancel in events
  {
    if events != [] {
      assert events == [events[0]] + events[1..];
      ClosedIffCancel(appName, build, events[1..]);
    }
  }

  /** One attempt per leader tick before the first cancellation, each with
      that tick's upsert answer and the same build; ticks while another
      replica leads make none. */
  lemma {:induction false} RunAttempts(appName: string, build: Result<string>, events: seq<Event>)
    ensures var t := Run(appName, build, events);
      && |t.attempts| == |LeaderUpserts(events)|
      && forall i :: 0 <= i < |t.attempts| ==> t.attempts[i] == ReconcileStep(appName, build, LeaderUpserts(events)[i])
  {
    if events != [] && events[0].Tick? {
      RunAttempts(appName, build, events[1..]);
    }
  }

  /** A tick while another replica leads is skipped. */
  lemma {:induction false} NotLeaderSkips(appName: string, build: Result<string>, p: seq<Event>, upsert: Outcome, q: seq<Event>)
    ensures Run(appName, build, p + [Tick(false, upsert)] + q) == Run(appName, build, p + q)
  {
    if p == [] {
      var s := p + [Tick(false, upsert)] + q;
      assert s[0] == Tick(false, upsert) && s[1..] == q;
      assert p + q == q;
    } else {
      var s, r := p + [Tick(false, upsert)] + q, p + q;
      assert s[0] == r[0] == p[0];
      assert s[1..] == p[1..] + [Tick(false, upsert)] + q;
      assert r[1..] == p[1..] + q;
      NotLeaderSkips(appName, build, p[1..], upsert, q);
    }
  }

  /** When every build succeeds, every attempt upserts the same ConfigMap;
      when it fails, no attempt upserts anything and each returns the
      build's error. */
  lemma EveryAttemptPublishes(appName: string, build: Result<string>, events: seq<Event>)
    ensures build.Ok? ==> forall a :: a in Run(appName, build, events).attempts ==>
      a.upserted == Some(DesiredConfigMap(appName, build.value))
    ensures build.Err? ==> forall a :: a in Run(appName, build, events).attempts ==>
      a == Attempt(None, Fail(build.error))
  {
    RunAttempts(appName, build, events);
  }

  /** Under `App.Reconcile`, every attempt upserts the same ConfigMap,
      whose `config.json` is the agent's text; that text reads back as the
      test's document. */
  lemma AgentRunPublishes(appName: string, events: seq<Event>)
    ensures Serialize(AgentConfig).Ok? && JsonDecode.Decode(Serialize(AgentConfig).value) == Ok(ExpectedDocument)
    ensures forall a :: a in Run(appName, Serialize(AgentConfig), events).attempts ==>
      a.upserted == Some(DesiredConfigMap(appName, Serialize(AgentConfig).value))
  {
    AgentConfigEncodable();
    AgentDocument();
    EveryAttemptPublishes(appName, Serialize(AgentConfig), events);
  }

  /** The loop of `App.Reconcile` over the events it observes, calling
      `reconcile` with the build result `agentConfig` at every leader tick;
      when the events run out before a cancellation the loop is still
      waiting. */
  method ReconcileLoop(appName: string, agentConfig: Result<string>, events: seq<Event>) returns (t: Trace)
    ensures t == Run(appName, agentConfig, events)
  {
    var attempts: seq<Attempt> := [];
    var i := 0;
    while i < |events|
      invariant 0 <= i <= |events|
      invariant Run(appName, agentConfig, events[..i]) == Trace(attempts, false)
    {
      RunAppend(appName, agentConfig, events[..i], [events[i]]);
      assert events[..i + 1] == events[..i] + [events[i]];
      match events[i] {
        case Cancel =>
          RunClosed(appName, agentConfig, events[..i + 1], events[i + 1..]);
          assert events[..i + 1] + events[i + 1..] == events;
          return Trace(attempts, true);
        case Tick(isLeader, upsert) =>
          if isLeader {
            var a := ReconcileWith(appName, agentConfig, upsert);
            attempts := attempts + [a];
          }
      }
      i := i + 1;
    }
    assert events[..i] == events;
    t := Trace(attempts, false);
  }

  /** `App.Reconcile`: every leader tick publishes the agent's
      configuration. */
  method AppReconcile(appName: string, events: seq<Event>) returns (t: Trace)
    ensures t == Run(appName, Serialize(AgentConfig), events)
  {
    var agentConfig := VectorAgentConfig();
    t := ReconcileLoop(appName, agentConfig, events);
  }
}
