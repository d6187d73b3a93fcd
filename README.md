# vector-config-controller in Dafny

This project models the core of a Kubernetes controller. The controller writes the
configuration of a Vector agent and publishes it as a ConfigMap. It has two parts:

- **The configuration builder** (`pkg/vector/config.go`). A `Config` holds four independent
  tables: secret backends, sources, transforms and sinks. Each table maps a name to
  a section, which is a Go `map[string]any`.
  - Each `Add*` method panics when the name is already in its own table. Otherwise it
    stores the section in place.
  - `JSON` writes the tables as one JSON document with Go's `encoding/json`. `secret` and
    `transforms` are left out when their tables are empty. `sources` and `sinks` are
    always written.
  - The getters return a copy of a table.
- **The controller** (`cmd/controller`).
  - `configForMetrics` and `configForLogs` add fixed sources and sinks.
  - `vectorAgentConfig` runs both on a fresh configuration and returns its JSON.
  - `reconcile` builds that text and upserts a fixed ConfigMap that carries it.
  - `App.Reconcile` calls `reconcile` on every tick while this replica is the leader,
    and returns when its context is cancelled.

Modules:

- `Results` (`results.dfy`): `Result`, `Outcome` and `Option`. A Go panic or a returned
  error becomes a failure that carries its message.
- `Json` (`json.dfy`): the part of `encoding/json` the builder uses.
  - Values are `nil`, booleans, strings, lists, string-keyed maps, and values of a type
    the encoder refuses.
  - Maps are written with their keys in sorted order, and structs with their fields in
    declaration order.
  - Strings are escaped as `json.Encoder` escapes them, with HTML escaping on.
- `JsonDecode` (`json_decode.dfy`): a reader for the subset of JSON the encoder writes.
  It reads no numbers, and it refuses surrogate `\u` escapes; Go's `json.Unmarshal`
  accepts both.
  - It is the partner of the encoder: reading back what the encoder wrote gives the
    value that was encoded.
  - It also stands for the comparison in the controller's test, which is "same JSON
    value", not "same text". The test's documents have no numbers and no escapes, so
    on them the reader agrees with `json.Unmarshal`.
- `Vector` (`vector.dfy`): the contents of the builder (`InternalConfig`), the class
  `Config` whose methods update it in place, and the document it is written as.
- `Metrics` (`metrics.dfy`) and `Logs` (`logs.dfy`): the two routines, each as a
  method on a `Config` and as a function of the contents.
- `Reconcile` (`reconcile.dfy`): `vectorAgentConfig`, `reconcile`, and the loop of
  `App.Reconcile` over the sequence of events it observes.

The Kubernetes upsert and the leadership check are inputs of the model:

- a tick says whether this replica leads, and what the upsert answers;
- the cancellation of the context is an event of its own.

## Model

| member | source | states |
|---|---|---|
| Json.LexLeqAntisymmetric | pkg/vector/config.go:77 | two names, each ordered before the other, are equal |
| Json.LexLeqTotal | pkg/vector/config.go:77 | any two names are ordered one way or the other |
| Json.LexLeqTransitive | pkg/vector/config.go:77 | the key order is transitive |
| Json.LeastKey | pkg/vector/config.go:77 | the name returned is in the set and ordered before every name of it |
| Json.SortedKeys | pkg/vector/config.go:77 | the names of a map in strictly increasing order, each exactly once, none missing |
| Json.SortedKeysUnique | pkg/vector/config.go:77 | any strictly increasing listing of a set is its sorted listing |
| Json.Entries | pkg/vector/config.go:77 | a map's members in sorted name order, each with its value, one per key |
| Json.EscapeChar | pkg/vector/config.go:77 | no contract of its own: one character as `json.Encoder` writes it with HTML escaping on; its meaning is stated by `JsonDecode.EscapeCharRoundTrip` |
| Json.Encode | pkg/vector/config.go:77-79 | no contract of its own: the encoder of a value; its meaning is stated by `Json.EncodeSucceedsIff`, `Json.EncodeObjectListed` and `JsonDecode.ValueRoundTrip` |
| Json.EncodeStruct | pkg/vector/config.go:77-79 | no contract of its own: the encoder of a struct, fields in the order given; its meaning is stated by `Json.EncodeStructSucceedsIff`, `Json.MembersListed` and `JsonDecode.DecodeEncodedStruct` |
| Json.EncodeSucceedsIff | pkg/vector/config.go:77-79 | encoding succeeds exactly when no part of the value is of a refused type |
| Json.ItemsSucceedIff | pkg/vector/config.go:77-79 | a list is encoded exactly when each element can be |
| Json.MembersSucceedIff | pkg/vector/config.go:77-79 | the members are encoded exactly when each value can be |
| Json.EncodeStructSucceedsIff | pkg/vector/config.go:77-79 | a struct is encoded exactly when each field's value can be |
| Json.MembersListed | pkg/vector/config.go:77 | the members are written as `"name":text`, comma separated, in the order given |
| Json.EncodeObjectListed | pkg/vector/config.go:77 | a map is written as `{` its members in strictly increasing name order `}`, whatever listing the caller has |
| JsonDecode.Decode | cmd/controller/reconcile_test.go:66 | no contract of its own: one whole document read, stands for `json.Unmarshal` in `require.JSONEq`; its meaning is stated by `JsonDecode.DecodeEncoded` and `JsonDecode.DecodeEncodedStruct` |
| JsonDecode.ParseValue | cmd/controller/reconcile_test.go:66 | one value read; the rest is shorter than the input |
| JsonDecode.EscapeCharRoundTrip | cmd/controller/reconcile_test.go:66 | each escaped character reads back as itself, whatever follows it |
| JsonDecode.StringRoundTrip | cmd/controller/reconcile_test.go:66 | an escaped string and its closing quote read back as the string |
| JsonDecode.MapOfEntries | cmd/controller/reconcile_test.go:66 | a map's sorted members read back as the map |
| JsonDecode.ValueRoundTrip | cmd/controller/reconcile_test.go:66 | the encoder's text of a value, followed by anything, reads back as the value with that rest left |
| JsonDecode.ItemsRoundTrip | cmd/controller/reconcile_test.go:66 | the elements' text and the closing bracket read back as the elements |
| JsonDecode.MembersRoundTrip | cmd/controller/reconcile_test.go:66 | the members' text and the closing brace read back as the members' map |
| JsonDecode.DecodeEncoded | pkg/vector/config.go:77-80 | a whole document reads back as the encoded value, with or without the encoder's final newline |
| JsonDecode.DecodeEncodedStruct | pkg/vector/config.go:77-80 | a struct's text reads back as the map of its fields, with or without the final newline |
| Vector.DuplicateMessage | pkg/vector/config.go:39-72 | no contract of its own: the panic text of each table; `Vector.InternalConfig.Add` and `Vector.AddSameKeyTwiceFails` state when it is given |
| Vector.InternalConfig.Add | pkg/vector/config.go:39-72 | refused with the table's panic text exactly when the name is in that table; otherwise that table maps the name to the section, keeps every other entry, and the other three tables are unchanged |
| Vector.AddSameKeyTwiceFails | pkg/vector/config.go:39-72 | a second add of the same name to the same table is refused with the panic text |
| Vector.SameKeyInOtherTable | pkg/vector/config.go:39-72 | a name already added to one table can be added to another exactly when that table lacks it |
| Vector.Config.constructor | pkg/vector/config.go:24-33 | `NewConfig` holds four empty tables |
| Vector.Config.AddSecretBackend | pkg/vector/config.go:39-45 | a panic with the contents unchanged exactly when `Add` refuses; otherwise the contents become those of `Add` |
| Vector.Config.AddSourceUntyped | pkg/vector/config.go:48-54 | as above, for the sources |
| Vector.Config.AddTransformUntyped | pkg/vector/config.go:57-63 | as above, for the transforms |
| Vector.Config.AddSinkUntyped | pkg/vector/config.go:66-72 | as above, for the sinks |
| Vector.Config.JSON | pkg/vector/config.go:75-81 | succeeds exactly when every stored section can be encoded; the text reads back as the document |
| Vector.Serialize | pkg/vector/config.go:75-81 | text exactly when every stored section can be encoded, and that text reads back as the document; otherwise an error starting `error encoding config: ` |
| Vector.SerializeSucceedsIff | pkg/vector/config.go:77-79 | the struct is encoded exactly when every stored section can be |
| Vector.TableEncodableIff | pkg/vector/config.go:17-20 | a table can be encoded exactly when each of its sections can |
| Vector.DocumentEncodableIff | pkg/vector/config.go:17-20 | the contents can be encoded exactly when each table can |
| Vector.Fields | pkg/vector/config.go:16-21 | no contract of its own: the struct fields written for the contents; its meaning is stated by `Vector.LayoutShape` and `Vector.FieldsInDeclarationOrder` |
| Vector.DocumentValue | pkg/vector/config.go:16-21 | no contract of its own: the JSON value the contents are written as; its meaning is stated by `Vector.DocumentShape`, `Vector.TableValueExact` and `Vector.Serialize` |
| Vector.LayoutShape | pkg/vector/config.go:16-21 | only the four field names are written; `sources` and `sinks` always, `secret` and `transforms` exactly when asked for, each with its own value |
| Vector.FieldsInDeclarationOrder | pkg/vector/config.go:16-21 | the fields are written in declaration order: `secret`, `sources`, `transforms`, `sinks` |
| Vector.DocumentShape | pkg/vector/config.go:17-31 | the document has `sources` and `sinks` always, `secret` exactly when there are secret backends, `transforms` exactly when there are transforms, and nothing else; each maps to its table |
| Vector.DocumentWithoutOptional | pkg/vector/config.go:17-20 | with no secret backends and no transforms, the document holds just `sources` and `sinks` |
| Vector.TableValueExact | pkg/vector/config.go:17-20 | each section of the document maps exactly the table's names to the stored sections |
| Vector.EmptyConfigEncodable | pkg/vector/config.go:24-33 | a fresh configuration can be encoded |
| Vector.EmptyConfigDocument | pkg/vector/config.go:24-33 | a fresh configuration reads back as `{"sources":{},"sinks":{}}` |
| Vector.AddKeepsEncodable | pkg/vector/config.go:39-72 | adding a section that can be encoded keeps the contents encodable |
| Vector.Config.Sources | pkg/vector/config.go:84-88 | returns a map equal to the sources table and changes nothing |
| Vector.Config.Transforms | pkg/vector/config.go:91-95 | returns a map equal to the transforms table and changes nothing |
| Vector.Config.Sinks | pkg/vector/config.go:98-102 | returns a map equal to the sinks table and changes nothing |
| Vector.CopyTable | pkg/vector/config.go:86 | `maps.Copy` into `dst`: every entry of `src`, and the entries of `dst` whose names are not in `src` |
| Metrics.MetricsStep | cmd/controller/metrics.go:15-49 | no contract of its own: the three adds in order, ending at the first refused one; its meaning is stated by `Metrics.MetricsSucceedsIff`, `Metrics.MetricsEffect` and `Metrics.MetricsKeys` |
| Metrics.MetricsLeftExtends | cmd/controller/metrics.go:16-41 | the contents left after a refused add keep every earlier entry and the untouched tables; on success they are the routine's result |
| Metrics.ConfigForMetrics | cmd/controller/metrics.go:15-49 | panics exactly when one of the three adds is refused, with that add's message, and the adds before it stay stored; otherwise the contents become those of the three adds in order |
| Metrics.MetricsSucceedsIff | cmd/controller/metrics.go:16-41 | no add is refused exactly when `host_metrics`, `internal_metrics` and `prometheus_exporter` are all absent from their tables |
| Metrics.MetricsEffect | cmd/controller/metrics.go:15-49 | on success, `host_metrics` and `internal_metrics` are sources with the sections as written, `prometheus_exporter` is a sink with its section, and nothing else changes |
| Metrics.MetricsKeys | cmd/controller/metrics.go:15-49 | on success, the names added are exactly the routine's three |
| Metrics.MetricsInputsAreSources | cmd/controller/metrics.go:43-46 | every input of the exporter is one of the two sources the routine added |
| Metrics.SectionsEncodable | cmd/controller/metrics.go:16-48 | the encoder refuses nothing in the three sections |
| Metrics.MetricsKeepsEncodable | cmd/controller/metrics.go:15-49 | the routine keeps the contents encodable |
| Logs.LogsStep | cmd/controller/logs.go:5-34 | no contract of its own: the two adds in order, ending at a refused first one; its meaning is stated by `Logs.LogsSucceedsIff` and `Logs.LogsEffect` |
| Logs.LogsLeftExtends | cmd/controller/logs.go:6-10 | the contents left after a refused add keep every earlier entry and the untouched tables; on success they are the routine's result |
| Logs.ConfigForLogs | cmd/controller/logs.go:5-34 | panics exactly when one of the two adds is refused, with that add's message, and an add before it stays stored; otherwise the contents become those of the two adds |
| Logs.LogsSucceedsIff | cmd/controller/logs.go:6-10 | no add is refused exactly when `kubernetes_logs` is not a source and `loki_logs` is not a sink |
| Logs.LogsEffect | cmd/controller/logs.go:5-34 | on success, `kubernetes_logs` is a source and `loki_logs` a sink with the sections as written, and nothing else changes |
| Logs.LokiSinkKeys | cmd/controller/logs.go:10-33 | the Loki sink has exactly the settings `type`, `inputs`, `endpoint`, `out_of_order_action`, `acknowledgements`, `encoding`, `request` and `labels` |
| Logs.LokiInputsAreSources | cmd/controller/logs.go:11-14 | the only input of the Loki sink is the source the routine added |
| Logs.LogsAfterMetrics | cmd/controller/logs.go:6-10 | after `configForMetrics`, the routine is refused exactly when it would have been refused before |
| Logs.LokiLogsEncodable | cmd/controller/logs.go:10-33 | the encoder refuses nothing in the Loki sink |
| Logs.LogsKeepsEncodable | cmd/controller/logs.go:5-34 | the routine keeps the contents encodable |
| Reconcile.AgentConfigBuilt | cmd/controller/reconcile.go:89-92 | metrics then logs on a fresh configuration is never refused, and gives three sources and two sinks |
| Reconcile.AgentDocument | cmd/controller/reconcile_test.go:10-62 | the document is exactly the test's: three sources, two sinks, no `secret`, no `transforms` |
| Reconcile.AgentConfigEncodable | cmd/controller/reconcile.go:88-95 | the encoder refuses nothing in the agent's configuration |
| Reconcile.VectorAgentConfig | cmd/controller/reconcile.go:88-95 | returns text, never an error, and the text reads back as the document of the controller's test |
| Reconcile.DesiredConfigMap | cmd/controller/reconcile.go:69-80 | no contract of its own: the ConfigMap `reconcile` upserts; its meaning is stated by `Reconcile.PublishedResource` |
| Reconcile.ReconcileStep | cmd/controller/reconcile.go:61-85 | no contract of its own: one `reconcile` call given the build and the upsert's answer; its meaning is stated by `Reconcile.AttemptOutcome` and `Reconcile.PublishedResource` |
| Reconcile.AttemptOutcome | cmd/controller/reconcile.go:61-85 | a call succeeds exactly when the build and the upsert do; a failed build is returned as it is and nothing is upserted; a failed upsert is returned wrapped |
| Reconcile.PublishedResource | cmd/controller/reconcile.go:66-80 | the upserted ConfigMap is `vector-agent-config` in namespace `vector`, labelled `owner: appName`, and holds exactly `config.json` with the built text |
| Reconcile.ReconcileWith | cmd/controller/reconcile.go:61-85 | the part of `reconcile` after the build, with its early returns, computes one step of the loop's specification, whose meaning `Reconcile.AttemptOutcome` and `Reconcile.PublishedResource` state |
| Reconcile.ReconcileOnce | cmd/controller/reconcile.go:51-86 | `reconcile` always upserts, and the text it upserts reads back as the test's document |
| Reconcile.Run | cmd/controller/reconcile.go:26-47 | no contract of its own: the loop over the events it observes; its meaning is stated by `Reconcile.RunAttempts`, `Reconcile.ClosedIffCancel`, `Reconcile.RunClosed` and `Reconcile.NotLeaderSkips` |
| Reconcile.RunAppend | cmd/controller/reconcile.go:26-47 | while the loop has not returned, the attempts for later events follow on, as from the start |
| Reconcile.RunClosed | cmd/controller/reconcile.go:43-46 | once the loop has returned, later events change nothing |
| Reconcile.ClosedIffCancel | cmd/controller/reconcile.go:43-46 | the loop returns exactly when it sees a cancellation |
| Reconcile.RunAttempts | cmd/controller/reconcile.go:28-42 | one attempt per leader tick before the first cancellation, in order, each with that tick's upsert answer; failed attempts do not stop the loop |
| Reconcile.NotLeaderSkips | cmd/controller/reconcile.go:29-32 | a tick while this replica does not lead changes nothing |
| Reconcile.EveryAttemptPublishes | cmd/controller/reconcile.go:61-80 | when the build succeeds every attempt upserts the same ConfigMap; when it fails none upserts and each returns the build's error |
| Reconcile.AgentRunPublishes | cmd/controller/reconcile.go:20-95 | every attempt of the controller upserts the ConfigMap with the agent's text, and that text reads back as the test's document |
| Reconcile.ReconcileLoop | cmd/controller/reconcile.go:26-47 | the loop's attempts and whether it returned are those of its specification `Run` |
| Reconcile.AppReconcile | cmd/controller/reconcile.go:20-48 | `App.Reconcile` with the agent's configuration, as `Run` |

## Left out

- Ticker, clock and timeout: `time.NewTicker`, and the 10-second `context.WithTimeout` of `reconcile`, are not modelled. A timed-out upsert is just an upsert that fails.
- Histogram and logs: the Prometheus histogram and every logging call are not modelled.
- The `select`: the loop's choice between a tick and a cancellation is given as a finite sequence of events in the order they were taken. If the events run out before a cancellation, the loop is still waiting.
- Reconcile.AppReconcile: builds the agent's configuration once, before the loop, and passes the result to each attempt. The Go code builds it anew at every leader tick. `vectorAgentConfig` reads no input and always returns the same result (`Reconcile.VectorAgentConfig`), so the attempts are the same. `Reconcile.ReconcileOnce` models one `reconcile` call with its own build.
- Kubernetes, leadership and process setup: `k8s.UpsertResource`, `IsLeader` and `KubeClient` are foreign calls. Their answers are inputs of the model. `main.go`, `controller.go` and `magefiles/` are not part of this model.
- `appName`: it is a parameter. `main.go` and `controller.go` declare it with different values.
- Json.Value: has no numbers, because the configuration uses none.
- Json.Value: a Go value of a type the encoder refuses is one constructor that carries the type's name. Its error text is `json: unsupported type: ` followed by that name.
- Json.Escape: follows Go 1.22 or later, with its `\b` and `\f` short escapes. Strings are sequences of Unicode scalar values, so invalid UTF-8 and its replacement by U+FFFD are not modelled.
- Json.LexLeq: orders keys by code point, which is the order of their UTF-8 bytes.
- nil maps: maps are never nil. `NewConfig` makes all four, and a nil section would be written as `null`, which no routine here stores.
- Vector.Config.Sources, Vector.Config.Transforms, Vector.Config.Sinks: the getters return values. Sections shared between the copy and the `Config` cannot be observed, because Dafny maps are values.
- Panics: an `Add*` panic is modelled as a failed `Outcome` carrying the panic message, and `configForMetrics`, `configForLogs` and `vectorAgentConfig` return that failure. In Go nothing recovers the panic, so it would end the whole process. The model instead returns the failure, and `Reconcile.AgentConfigBuilt` proves that it never happens here.
- Reconcile.VectorAgentConfig: the exact text is not compared with the test's string. The test compares JSON values (`require.JSONEq`), so the property is stated by reading the text back and comparing it with the expected document.
