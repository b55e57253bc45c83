# Thanos partial-response rule manager, modelled in Dafny

This project models the rule manager of Thanos Ruler (`pkg/rules/manager.go`).
The manager runs one Prometheus rule engine per *partial response strategy*
(WARN or ABORT). Each rule group in a rule file selects an engine through its
`partial_response_strategy` tag.

On every `Update`, the manager does the following:
- it clears a scratch directory under its data directory;
- it reads and parses every rule file, and buckets each file's groups by strategy;
- it writes every bucket to its own scratch file, named
  `<base>.<hex sha256 of the path>.<STRATEGY>`;
- it hands every engine its strategy's scratch files;
- it replaces the index that maps scratch files back to the files the operator wrote.

Failures on one file, bucket or engine are collected into a multi-error, and the
remaining work still runs.

The manager also has three read-only views:
- `RuleGroups` returns every engine's groups, tagged with the engine's strategy and the group's original file;
- `AlertingRules` returns every engine's alerting rules, tagged with the engine's strategy;
- the gRPC `Rules` stream projects every group onto its wire record, filters the rules by the
  requested type, and sends one message per group. It stops at the first failed send.

The modules follow the program's structure:

| module (file) | what it holds |
|---|---|
| `Strategies` (strategy.dfy) | the strategy enum, its names, and how a tag resolves to a strategy |
| `RuleConfig` (config.dfy) | `configRuleGroup` and its YAML unmarshal/marshal, and the decoding of a whole rule file |
| `Engine` (engine.dfy) | the live state of one engine: groups, rules, alerts; the engine itself is a value |
| `RulesPb` (rulespb.dfy) | the wire records |
| `Partition` (partition.dfy) | `Update`'s file loop and strategy loop, as specification functions, with their closed-form effects |
| `Projection` (projection.dfy) | `Group.ToProto` and `AlertingRule.ActiveAlertsToProto` |
| `RulesStream` (stream.dfy) | the type filter, the responses `Rules` computes, and the server stream as a class |
| `RulesManager` (manager.dfy) | the `Manager` class (fields `workDir`, `mgrs`, `ruleFiles`), its methods, and the lemmas about `Update`, `RuleGroups` and `AlertingRules` |

How each part is modelled:
- **Imperative code becomes methods with loops.** Each method is proved equal to a specification
  function; the properties are then lemmas about that function. This covers `Update`, `Rules`,
  `RuleGroups`, `AlertingRules`, `ToProto` and `ActiveAlertsToProto`. Where it helps verification,
  the body of one of their loops is a separate method.
- **Collaborators become an `Env` value.** The file system, the YAML codec, `filepath.Base`, the
  SHA-256 hex digest and the engines' own `Update` are each a deterministic outcome inside `Env`.
- **A panic in `ToProto` becomes an error.** It is returned as the `Unsupported` error, and `Rules`
  reports it as `Panicked`.
- **Go map iteration follows a fixed order.** Loops over `mgrs`, `groupsByStrategy` and
  `filesByStrategy` visit the strategies in the order WARN, then ABORT. Go leaves that order
  unspecified, so wherever a contract puts WARN before ABORT it states the model's fixed order, not a
  guarantee of the source. This affects the order of a file's marshal and write errors (`FileErrors`,
  `FileStepEffect`), the order of the engine errors (`EnginesEffect`, `UpdateErrorsClosed`), and the
  order of the groups and messages `RuleGroups`, `AlertingRules` and `Rules` produce across strategies.
  The per-strategy lemmas claim only an order the source guarantees: `RuleGroupsOfStrategy`,
  `TaggedGroupsOfStrategy`, `FoldFiles`, `BucketExact` and `BucketPositionsIncreasing`.

## Model

| member | source | states |
|---|---|---|
| Strategies.Name | pkg/rules/manager.go:223 | a strategy's canonical name is non-empty and contains no `.` or `/`, so it can end a scratch file name |
| Strategies.NameInjective | pkg/rules/manager.go:223 | distinct strategies have distinct names |
| Strategies.Upper | pkg/rules/manager.go:204 | upper-casing keeps the length and maps every character on its own |
| Strategies.Lookup | pkg/rules/manager.go:204 | the enum-value lookup finds s exactly when the name is s's canonical name |
| Strategies.ParseStrategy | pkg/rules/manager.go:204-212 | on success, either the tag is empty and the result is ABORT, or the upper-cased tag is the result's name; it fails exactly when the tag is non-empty and names no strategy, and the error carries the tag as written |
| Strategies.ParseEmptyIsAbort | pkg/rules/manager.go:206-211 | an empty or absent tag resolves to ABORT |
| Strategies.ParseCaseInsensitive | pkg/rules/manager.go:204 | any spelling whose upper-case form is a name resolves to that strategy |
| Strategies.ParseLowerName | pkg/rules/manager.go:204 | the lower-case spellings `warn` and `abort` resolve to their strategies |
| Strategies.ParseName | pkg/rules/manager.go:204 | a canonical name resolves to the strategy it names |
| Strategies.ParseDependsOnUpperOnly | pkg/rules/manager.go:204-207 | two non-empty tags with the same upper-case form resolve alike |
| RuleConfig.UnmarshalGroup | pkg/rules/manager.go:214-216 | a group that unmarshals always carries a non-nil strategy |
| RuleConfig.UnmarshalGroupOutcome | pkg/rules/manager.go:195-216 | the outcome of each branch: unmarshal succeeds exactly when both views decode and the tag resolves, and the value is then that group with the resolved strategy; a failed strategy-field decode, a failed group decode and an unknown tag each return their own error, checked in that order |
| RuleConfig.MarshalGroup | pkg/rules/manager.go:220-234 | the group is emitted unchanged; the tag is omitted exactly when the strategy is nil, and otherwise holds the canonical name |
| RuleConfig.MarshalRoundTrip | pkg/rules/manager.go:204-234 | parsing the marshalled group again gives the same group and strategy, or ABORT when the strategy was nil |
| RuleConfig.ParseGroups | pkg/rules/manager.go:260-264 | a parsed document has one group per entry |
| RuleConfig.ParseGroupsResolved | pkg/rules/manager.go:269-277 | every group that came through the custom unmarshaler has a strategy |
| RuleConfig.ParseGroupsSucceeds | pkg/rules/manager.go:260-264 | a document parses exactly when every entry unmarshals |
| RuleConfig.ParseGroupsValues | pkg/rules/manager.go:260-264 | in a parsed document, group i is entry i unmarshalled |
| RuleConfig.ParseGroupsFailure | pkg/rules/manager.go:260-264 | a document that fails reports the error of its first entry that does not unmarshal |
| RuleConfig.ParseDocumentSucceeds | pkg/rules/manager.go:260-264 | a rule file parses exactly when it is well-formed YAML and every entry unmarshals |
| RuleConfig.ParseDocumentResolved | pkg/rules/manager.go:260-277 | a parsed rule file has one group per entry, each with a strategy |
| RuleConfig.ParseDocumentValues | pkg/rules/manager.go:260-264 | group i of a parsed rule file is entry i unmarshalled |
| RuleConfig.ParseDocumentFailure | pkg/rules/manager.go:260-264 | a file that is not YAML fails with its syntax error; a YAML file fails with the error of its first entry that does not unmarshal |
| Engine.AlertingIn | pkg/rules/manager.go:182 | the alerting rules of a rule list are exactly its alerting members |
| Engine.AlertingRulesOf | pkg/rules/manager.go:182 | an engine's alerting rules are exactly the alerting rules of its groups |
| Partition.Err | pkg/rules/manager.go:315 | `errs.Err()` is nil exactly when nothing was collected, and otherwise a multi-error holding all of it in order |
| Partition.BucketExact | pkg/rules/manager.go:268-278 | the i-th group of a bucket is the file's group at the i-th bucket position |
| Partition.BucketPositionsMembers | pkg/rules/manager.go:268-278 | a file position is in the strategy's bucket exactly when its group resolved to that strategy |
| Partition.BucketPositionsIncreasing | pkg/rules/manager.go:268-278 | bucket positions strictly increase, so groups keep their relative order and none is duplicated |
| Partition.BucketsCoverFile | pkg/rules/manager.go:268-278 | the WARN and ABORT buckets together hold as many groups as the file |
| Partition.BucketMap | pkg/rules/manager.go:268-278 | `groupsByStrategy` has a key exactly for the strategies with a non-empty bucket, and maps it to that bucket |
| Partition.BucketMapStep | pkg/rules/manager.go:270-277 | one iteration appends the group to its strategy's bucket, creating the bucket when missing |
| Partition.ScratchPathsDistinctByStrategy | pkg/rules/manager.go:287 | one file split across two strategies gets two different scratch paths |
| Partition.ScratchPathInjective | pkg/rules/manager.go:287 | if the digest is 64 characters and does not collide, the scratch path determines the original path and the strategy |
| Partition.FileErrors | pkg/rules/manager.go:254-264 | a file that cannot be read or parsed contributes exactly the one error |
| Partition.BucketStepEffect | pkg/rules/manager.go:280-295 | visiting one bucket adds its scratch path to that strategy's file list, and to the index, exactly when the bucket was marshalled and written |
| Partition.FileStepEffect | pkg/rules/manager.go:253-295 | the closed-form effect of one file: its own errors are appended; each written bucket's scratch path is appended to its strategy's list and indexed to the file; nothing else changes |
| Partition.FoldErrors | pkg/rules/manager.go:253-296 | the file loop's errors are every file's own errors, file after file; no failure stops the loop |
| Partition.FoldFiles | pkg/rules/manager.go:293 | `filesByStrategy[s]` lists, in file order, the scratch file of every file whose s bucket was written, and s is a key exactly when there is one |
| Partition.FoldIndexKeys | pkg/rules/manager.go:294 | the new index holds exactly the scratch paths that were written |
| Partition.FoldIndexValues | pkg/rules/manager.go:294 | the index maps every scratch path to a file of the call that wrote it |
| Partition.IndexNamesOriginal | pkg/rules/manager.go:287-294 | if digests do not collide, every written scratch path is indexed to the file that wrote it |
| Partition.EngineStepEffect | pkg/rules/manager.go:299-311 | one iteration touches only its strategy's engine and reports the missing-engine or load error, if any |
| Partition.EnginesEffect | pkg/rules/manager.go:298-311 | only strategies with files are reconfigured; each such engine gets exactly its strategy's list and runs what it loaded, or keeps its state when the load fails; no engine is added or removed; the errors are WARN's, then ABORT's |
| Partition.NoManagerReported | pkg/rules/manager.go:300-303 | "no manager found" is reported for s exactly when s has files and no engine |
| Projection.AlertingRule.ActiveAlertsToProto | pkg/rules/manager.go:93-107 | one instance per active alert, in order; each instance carries the owning group's strategy and the alert's labels, annotations, state, activation time and value |
| Projection.LastErrorText | pkg/rules/manager.go:47-50 | LastError is "" for a nil error and the error's message otherwise |
| Projection.LastErrorEmpty | pkg/rules/manager.go:47-50 | LastError is "" exactly when the rule has no error or its message is empty |
| Projection.RuleToProto | pkg/rules/manager.go:52-82 | an alerting rule yields an Alert record and a recording rule a Recording record, with the same name; the alert's instances carry the group's strategy; any other kind yields none |
| Projection.RulesToProto | pkg/rules/manager.go:46-83 | a completed rule loop yields one record per rule |
| Projection.RulesToProtoSucceeds | pkg/rules/manager.go:46-83 | the rule loop completes exactly when no rule is of an unsupported kind |
| Projection.RulesToProtoValues | pkg/rules/manager.go:46-78 | record i is rule i's projection |
| Projection.RulesToProtoPanic | pkg/rules/manager.go:79-81 | otherwise the panic names the first unsupported rule |
| Projection.Group.ToProto | pkg/rules/manager.go:38-85 | the loop builds exactly `Group.Proto()`, or panics where it does |
| Projection.ProtoFields | pkg/rules/manager.go:39-44 | the record has the group's name, original file, interval and strategy, and the projection of its rules |
| Projection.ProtoOneToOne | pkg/rules/manager.go:46-78 | one record per live rule, in order; an alert exactly for an alerting rule and a recording rule exactly for a recording rule, with the same name; every alert instance carries the group's strategy |
| Projection.ProtoPanics | pkg/rules/manager.go:79-81 | ToProto panics exactly when a rule is of another kind, naming the first one |
| RulesStream.FilterExact | pkg/rules/manager.go:331-339 | a typed request keeps exactly the rules of its type, and never more rules than the group has |
| RulesStream.FilterAppend | pkg/rules/manager.go:331-339 | the filter works rule by rule, so kept rules keep their original order |
| RulesStream.FilterPartition | pkg/rules/manager.go:331-339 | every projected rule is kept by exactly one of ALERTING and RECORDING |
| RulesStream.FilterCounts | pkg/rules/manager.go:324-340 | for each group, the ALERTING count plus the RECORDING count is the ALL count |
| RulesStream.FilterGroup | pkg/rules/manager.go:325-340 | ALL sends the full projection; a typed request sends a fresh group whose name, file, interval and strategy are zero values and whose rules are the kept ones |
| RulesStream.Responses | pkg/rules/manager.go:322-341 | when no projection panics, there is one response per group |
| RulesStream.ResponsesSucceed | pkg/rules/manager.go:322-341 | the responses exist exactly when every group's projection succeeds |
| RulesStream.ResponsesValues | pkg/rules/manager.go:322-341 | response i is group i's projection, filtered by the request's type; groups left with no matching rules are still sent |
| RulesStream.ResponsesPanic | pkg/rules/manager.go:323-324 | when a projection panics, the panic of the first such group ends the call |
| RulesStream.Sent | pkg/rules/manager.go:343-347 | the number of messages delivered is at most the number of responses; every send before that number succeeds, and the send at it, if any, fails |
| RulesStream.RulesServer.Send | pkg/rules/manager.go:344 | a send reports the stream's outcome and delivers the message exactly when it succeeds |
| RulesManager.TaggedExact | pkg/rules/manager.go:168-174 | each of an engine's groups is tagged, in order, with the engine's strategy and its index entry, or "" when the index has no entry |
| RulesManager.TaggedGroupsMembers | pkg/rules/manager.go:163-177 | a group is reported exactly when some engine runs it, tagged with that engine's strategy and `ruleFiles[group.File()]` |
| RulesManager.TaggedGroupsOfStrategy | pkg/rules/manager.go:167-175 | over distinct strategies, the groups reported under s are exactly s's engine's groups, in that engine's order, each once |
| RulesManager.RuleGroupsOfStrategy | pkg/rules/manager.go:167-175 | the same, for the manager's own strategies |
| RulesManager.TaggedAlertsMembers | pkg/rules/manager.go:182-184 | each of an engine's alerting rules is tagged with its strategy |
| RulesManager.AlertingRulesMembers | pkg/rules/manager.go:179-187 | an alerting rule is reported exactly when it belongs to a group of some engine, tagged with that engine's strategy |
| RulesManager.UpdateRoutes | pkg/rules/manager.go:293-311 | after Update, every engine was handed exactly the scratch files written for its strategy, in file order, and runs what it loaded from them; an engine with no files, or whose load failed, is left as it was |
| RulesManager.UpdateErrorsClosed | pkg/rules/manager.go:253-315 | Update's errors are every file's own errors, file after file, then WARN's engine errors, then ABORT's |
| RulesManager.UpdateSucceeds | pkg/rules/manager.go:315 | Update returns nil exactly when no file and no engine failed |
| RulesManager.FileErrorsReported | pkg/rules/manager.go:253-296 | every error of every file is reported; one failing file hides nothing |
| RulesManager.ReloadKeepsEngines | pkg/rules/manager.go:298-311 | Update never adds or removes an engine |
| RulesManager.FileErrorsNoManager | pkg/rules/manager.go:253-296 | the file loop never reports a missing engine |
| RulesManager.NoManagerUnreachable | pkg/rules/manager.go:300-303 | with an engine for every strategy, as NewManager creates and Update keeps, Update never reports "no manager found" |
| RulesManager.NoFilesKeepsEngines | pkg/rules/manager.go:299-312 | with no rule files, no engine is reconfigured, nothing fails and the index becomes empty |
| RulesManager.GroupByStrategy | pkg/rules/manager.go:268-278 | the bucketing loop builds `groupsByStrategy` |
| RulesManager.WriteSplits | pkg/rules/manager.go:280-295 | the bucket loop has the effect of the bucket-loop function |
| RulesManager.SplitFile | pkg/rules/manager.go:253-295 | one iteration of the file loop has the effect of `FileStep` |
| RulesManager.FilterProto | pkg/rules/manager.go:330-339 | the filtering loop keeps what `FilterRules` keeps |
| RulesManager.TagGroups | pkg/rules/manager.go:168-174 | the inner loop of RuleGroups tags one engine's groups |
| RulesManager.CollectGroups | pkg/rules/manager.go:167-175 | the engine loop builds the tagged groups of every engine, engine by engine in the given order, skipping strategies without an engine; the order across strategies is the model's fixed WARN-then-ABORT order |
| RulesManager.CollectAlerts | pkg/rules/manager.go:181-185 | the engine loop builds the tagged alerting rules of every engine, engine by engine in the given order; the order across strategies is the model's fixed WARN-then-ABORT order |
| RulesManager.TagAlerts | pkg/rules/manager.go:182-184 | the inner loop of AlertingRules tags one engine's alerting rules |
| RulesManager.ProjectGroup | pkg/rules/manager.go:324-340 | one group's response is its projection filtered by type, or that projection's panic |
| RulesManager.ProjectGroups | pkg/rules/manager.go:322-341 | the projection loop computes `Responses` |
| RulesManager.SendAll | pkg/rules/manager.go:343-348 | the send loop delivers the responses in order, up to the first failed send; that send's error is returned, and no later message is sent |
| RulesManager.Answer | pkg/rules/manager.go:343-348 | a panic is reported before anything is sent; otherwise the send loop's outcome |
| RulesManager.Manager.constructor | pkg/rules/manager.go:131-149 | the scratch directory is `<dataDir>/.tmp-rules`; every strategy gets a fresh engine; the index is empty |
| RulesManager.Manager.RuleGroups | pkg/rules/manager.go:163-177 | returns every engine's groups, tagged, which the lemmas above characterise |
| RulesManager.Manager.AlertingRules | pkg/rules/manager.go:179-187 | returns every engine's alerting rules, tagged |
| RulesManager.Manager.ReloadEngines | pkg/rules/manager.go:298-311 | the strategy loop updates the engines and the errors as `ApplyEngines` says; the index is untouched |
| RulesManager.Manager.Update | pkg/rules/manager.go:239-316 | a RemoveAll or MkdirAll failure returns that error at once and leaves all engines and the index untouched; otherwise the engines are those `Reload` gives, the index is replaced by the fold's index even when some engine failed, and the result is the multi-error of everything collected; in every case the set of engines is unchanged |
| RulesManager.Manager.Rules | pkg/rules/manager.go:319-349 | a projection panic ends the call before anything is sent; otherwise one message per group returned by RuleGroups, in order, until the first failed send, whose error is returned |

## Left out

- YAML syntax and the rulefmt schema: a decoded document is a sequence of raw entries. Each entry either decodes into its strategy tag and its rulefmt group, or reports a decode error.
- `yaml.Marshal` of the rulefmt groups is an `Env` function of the bucket. The filesystem calls (`os.RemoveAll`, `os.MkdirAll`, `ioutil.ReadFile`, `ioutil.WriteFile`) are `Env` outcomes. Permissions are not modelled.
- `sha256.Sum256` with `%x` formatting, and `filepath.Base`, are uninterpreted `Env` functions. No property of the hash is assumed, except where a lemma requires a 64-character, non-colliding digest.
- `filepath.Join` is modelled as concatenation with "/". Its path cleaning is not modelled.
- The Prometheus engine (`rules.Manager`) is a value record: the last interval and file list it accepted, and the groups it runs. Its own `Update` is an `Env` loader: the loaded groups are taken to depend only on the interval and the file list; state carried over from the engine's previous groups is not modelled. When loading fails, the model leaves the engine unchanged; what a partially applied Prometheus update leaves behind is not modelled. Rule evaluation, the alert state machine, `Run` and `Stop` are not modelled.
- Engines are values in a map field, not shared pointers. Aliasing between engines is not modelled.
- `NewManager`'s registerer wrapping, its query functions and its context are left out. The model keeps the scratch directory, one engine per strategy and the empty index.
- The `sync.RWMutex` is left out: every operation is atomic and sequential.
- Go map iteration order over `mgrs`, `groupsByStrategy` and `filesByStrategy` is unspecified. The model fixes it to WARN, then ABORT. The WARN-before-ABORT order in `FileErrors`, `EnginesEffect`, `UpdateErrorsClosed`, `Manager.RuleGroups`, `Manager.AlertingRules` and `Manager.Rules` is this fixed order, not a promise of the source; only the per-strategy order lemmas state an order the source guarantees.
- `strings.ToUpper` is modelled on ASCII letters. No other character upper-cases onto a letter of `WARN` or `ABORT`, so lookups have the same outcome.
- Floating-point fields are opaque values: the alert `Value` passed through `strconv.FormatFloat`, and the durations converted with `Seconds()`. The `%T` and `%q` formatting of the panic message is reduced to the rule's name.
- A panic in `ToProto` becomes the `Panicked` error of `Rules`. Go's recovery in the API layer is not modelled.
- `RulesRequest` types other than ALL, ALERTING and RECORDING are not modelled.
- Where the intended behaviour might be read differently, the model follows the code:
  - a group whose scratch file has no index entry is reported with original file "";
  - a type-filtered group has zero name, file, interval and strategy;
  - a strategy with no scratch files is not reconfigured;
  - RemoveAll and MkdirAll failures return early instead of being collected.
- `pkg/rules/api/v1.go` and the tests are not part of this model.
- The wire `RuleGroup` omits the deprecated partial-response-strategy field, which `ToProto` leaves at its zero value.
- The strategy enum, with WARN as its zero value, comes from the store's protobuf package, which is not part of this model. It is restated in `Strategies`. The zero strategy of a type-filtered group (`FilterGroup`) depends on it.
- RuleConfig.ParseGroupsResolved: a raw entry always goes through the custom unmarshaler. The YAML library can instead skip the unmarshaler for a null entry (`groups: [~]` or a bare `-`) and store a zero group with a nil strategy. Bucketing such a group at pkg/rules/manager.go:270 would then dereference nil and panic inside `Update`. The model has no null entry, so it does not capture that panic.
- RulesManager.Manager.RuleGroups and RulesManager.Manager.AlertingRules: these contracts say the result equals a specification function. Membership and per-strategy order are stated as lemmas about that function (`TaggedGroupsMembers`, `RuleGroupsOfStrategy`, `AlertingRulesMembers`), not in the methods' own ensures.
