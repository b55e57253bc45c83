/**
 * The partial-response-strategy rule manager of pkg/rules/manager.go: one
 * evaluation engine per strategy, a scratch directory the rule files are
 * re-split into, the index from scratch files back to the files the
 * operator wrote, and the Rules stream that serves the engines' groups.
 */
module RulesManager {
  import opened Wrappers
  import opened Strategies
  import opened RuleConfig
  import opened Engine
  import opened RulesPb
  import opened Projection
  import opened Partition
  import opened RulesStream

  /** The scratch directory's name under the data directory. */
  const TmpRuleDir: string := ".tmp-rules"

  // ------------------------------------------------------ RuleGroups view

  /** The groups an engine runs; a strategy without an engine contributes none. */
  function EngineGroups(mgrs: map<Strategy, EngineState>, s: Strategy): seq<LiveGroup> {
    if s in mgrs then mgrs[s].groups else []
  }

  /** One engine's groups tagged with its strategy and their original file (lines 168-174). */
  function Tagged(groups: seq<LiveGroup>, s: Strategy, rf: map<Path, Path>): seq<Group> {
    if groups == [] then []
    else
      var last := groups[|groups| - 1];
      Tagged(groups[..|groups| - 1], s, rf) + [Group(last, MapGet(rf, last.file, ""), s)]
  }

  /** The groups of all engines, engine by engine in `order`. */
  function TaggedGroups(mgrs: map<Strategy, EngineState>, rf: map<Path, Path>, order: seq<Strategy>): seq<Group> {
    if order == [] then []
    else
      var s := order[|order| - 1];
      TaggedGroups(mgrs, rf, order[..|order| - 1]) + Tagged(EngineGroups(mgrs, s), s, rf)
  }

  /**
   * Tagging keeps every group, in order, with its strategy, and names as
   * original file what the index holds for the group's scratch file, or
   * "" when the index has no entry for it.
   */
  lemma {:induction false} TaggedExact(groups: seq<LiveGroup>, s: Strategy, rf: map<Path, Path>)
    ensures |Tagged(groups, s, rf)| == |groups|
    ensures forall i :: 0 <= i < |groups| ==>
      Tagged(groups, s, rf)[i] == Group(groups[i], MapGet(rf, groups[i].file, ""), s)
  {
    if groups != [] {
      TaggedExact(groups[..|groups| - 1], s, rf);
    }
  }

  /**
   * A group is reported exactly when some engine of `order` runs it; it is
   * tagged with that engine's strategy and its original file.
   */
  lemma {:induction false} TaggedGroupsMembers(mgrs: map<Strategy, EngineState>, rf: map<Path, Path>, order: seq<Strategy>)
    ensures forall g :: g in TaggedGroups(mgrs, rf, order) <==>
      && g.strategy in order && g.strategy in mgrs && g.live in mgrs[g.strategy].groups
      && g.originalFile == MapGet(rf, g.live.file, "")
  {
    if order != [] {
      var front := order[..|order| - 1];
      var s := order[|order| - 1];
      TaggedGroupsMembers(mgrs, rf, front);
      TaggedExact(EngineGroups(mgrs, s), s, rf);
      var tagged := Tagged(EngineGroups(mgrs, s), s, rf);
      forall g ensures g in tagged <==>
        g.strategy == s && s in mgrs && g.live in mgrs[s].groups && g.originalFile == MapGet(rf, g.live.file, "")
      {
        if g in tagged {
          var i :| 0 <= i < |tagged| && tagged[i] == g;
        }
        if g.strategy == s && s in mgrs && g.live in mgrs[s].groups && g.originalFile == MapGet(rf, g.live.file, "") {
          var i :| 0 <= i < |mgrs[s].groups| && mgrs[s].groups[i] == g.live;
          assert tagged[i] == g;
        }
      }
      assert forall t :: t in order <==> t in front || t == s;
    }
  }

  /** The groups of one strategy, in order. */
  function OfStrategy(gs: seq<Group>, s: Strategy): seq<Group> {
    if gs == [] then []
    else
      var last := gs[|gs| - 1];
      OfStrategy(gs[..|gs| - 1], s) + (if last.strategy == s then [last] else [])
  }

  lemma {:induction false} OfStrategyAppend(a: seq<Group>, b: seq<Group>, s: Strategy)
    ensures OfStrategy(a + b, s) == OfStrategy(a, s) + OfStrategy(b, s)
  {
    if b == [] {
      assert a + b == a;
    } else {
      assert (a + b)[..|a + b| - 1] == a + b[..|b| - 1];
      OfStrategyAppend(a, b[..|b| - 1], s);
    }
  }

  lemma {:induction false} OfStrategyTagged(groups: seq<LiveGroup>, t: Strategy, rf: map<Path, Path>, s: Strategy)
    ensures OfStrategy(Tagged(groups, t, rf), s) == if t == s then Tagged(groups, t, rf) else []
  {
    if groups != [] {
      var front := groups[..|groups| - 1];
      OfStrategyTagged(front, t, rf, s);
      var last := groups[|groups| - 1];
      OfStrategyAppend(Tagged(front, t, rf), [Group(last, MapGet(rf, last.file, ""), t)], s);
      assert OfStrategy([Group(last, MapGet(rf, last.file, ""), t)], s) ==
        if t == s then [Group(last, MapGet(rf, last.file, ""), t)] else [];
    }
  }

  /** No strategy occurs twice in `order`. */
  predicate Distinct(order: seq<Strategy>) {
    order != [] ==> Distinct(order[..|order| - 1]) && order[|order| - 1] !in order[..|order| - 1]
  }

  /**
   * Over a list of distinct strategies, the groups reported with strategy s
   * are exactly the groups of s's engine, in that engine's order, each once.
   */
  lemma {:induction false} TaggedGroupsOfStrategy(mgrs: map<Strategy, EngineState>, rf: map<Path, Path>,
                                                  order: seq<Strategy>, s: Strategy)
    requires Distinct(order)
    ensures OfStrategy(TaggedGroups(mgrs, rf, order), s) ==
      if s in order then Tagged(EngineGroups(mgrs, s), s, rf) else []
  {
    if order != [] {
      var front := order[..|order| - 1];
      var t := order[|order| - 1];
      var earlier := TaggedGroups(mgrs, rf, front);
      var mine := Tagged(EngineGroups(mgrs, t), t, rf);
      assert OfStrategy(TaggedGroups(mgrs, rf, order), s) == OfStrategy(earlier, s) + OfStrategy(mine, s) by {
        OfStrategyAppend(earlier, mine, s);
      }
      assert OfStrategy(mine, s) == if t == s then mine else [] by {
        OfStrategyTagged(EngineGroups(mgrs, t), t, rf, s);
      }
      assert OfStrategy(earlier, s) == if s in front then Tagged(EngineGroups(mgrs, s), s, rf) else [] by {
        TaggedGroupsOfStrategy(mgrs, rf, front, s);
      }
      assert s in order <==> s in front || s == t by {
        assert order == front + [t];
      }
      if s == t {
        assert [] + mine == mine;
      } else {
        assert OfStrategy(earlier, s) + [] == OfStrategy(earlier, s);
      }
    }
  }

  /** With the engines visited in the canonical order, RuleGroups reports each engine's groups under its strategy. */
  lemma RuleGroupsOfStrategy(mgrs: map<Strategy, EngineState>, rf: map<Path, Path>, s: Strategy)
    ensures OfStrategy(TaggedGroups(mgrs, rf, AllStrategies), s) == Tagged(EngineGroups(mgrs, s), s, rf)
  {
    assert Distinct(AllStrategies) by {
      assert AllStrategies[..1] == [WARN];
      assert [WARN][..0] == [];
    }
    TaggedGroupsOfStrategy(mgrs, rf, AllStrategies, s);
    AllStrategiesComplete();
  }

  // --------------------------------------------------- AlertingRules view

  /** One engine's alerting rules tagged with its strategy (line 183). */
  function TaggedAlerts(rules: seq<AlertingRuleState>, s: Strategy): seq<AlertingRule> {
    if rules == [] then []
    else TaggedAlerts(rules[..|rules| - 1], s) + [AlertingRule(rules[|rules| - 1], s)]
  }

  /** The alerting rules of all engines, engine by engine in `order`. */
  function StrategyAlertingRules(mgrs: map<Strategy, EngineState>, order: seq<Strategy>): seq<AlertingRule> {
    if order == [] then []
    else
      var s := order[|order| - 1];
      StrategyAlertingRules(mgrs, order[..|order| - 1]) + TaggedAlerts(AlertingRulesOf(EngineGroups(mgrs, s)), s)
  }

  lemma {:induction false} TaggedAlertsMembers(rules: seq<AlertingRuleState>, s: Strategy)
    ensures |TaggedAlerts(rules, s)| == |rules|
    ensures forall a :: a in TaggedAlerts(rules, s) <==> a.strategy == s && a.rule in rules
  {
    if rules != [] {
      TaggedAlertsMembers(rules[..|rules| - 1], s);
      assert forall r :: r in rules <==> r in rules[..|rules| - 1] || r == rules[|rules| - 1];
    }
  }

  /**
   * An alerting rule is reported exactly when it belongs to a group of
   * the engine of some strategy of `order`, and it is tagged with that
   * strategy.
   */
  lemma {:induction false} AlertingRulesMembers(mgrs: map<Strategy, EngineState>, order: seq<Strategy>)
    ensures forall a :: a in StrategyAlertingRules(mgrs, order) <==>
      && a.strategy in order && a.strategy in mgrs
      && exists i :: 0 <= i < |mgrs[a.strategy].groups| && Alerting(a.rule) in mgrs[a.strategy].groups[i].rules
  {
    if order != [] {
      var front := order[..|order| - 1];
      var s := order[|order| - 1];
      AlertingRulesMembers(mgrs, front);
      TaggedAlertsMembers(AlertingRulesOf(EngineGroups(mgrs, s)), s);
      assert forall t :: t in order <==> t in front || t == s;
    }
  }

  // ------------------------------------------------------ Update's outcome

  /** The engines and the engine errors after Update's strategy loop. */
  function Reload(mgrs: map<Strategy, EngineState>, workDir: Path, interval: Duration,
                  files: seq<Path>, env: Env): EngineOutcome
  {
    ApplyEngines(mgrs, Fold(workDir, files, env).filesByStrategy, interval, env, AllStrategies)
  }

  /** Every error Update collects once the scratch directory is in place, in the order it collects them. */
  function UpdateErrors(mgrs: map<Strategy, EngineState>, workDir: Path, interval: Duration,
                        files: seq<Path>, env: Env): seq<UpdateError>
  {
    Fold(workDir, files, env).errs + Reload(mgrs, workDir, interval, files, env).errs
  }

  /** What the strategy loop reports for s, in terms of the scratch files written for s. */
  function ReloadErrors(mgrs: map<Strategy, EngineState>, workDir: Path, interval: Duration,
                        files: seq<Path>, env: Env, s: Strategy): seq<UpdateError>
  {
    var fs := WrittenFiles(workDir, files, s, env);
    if fs == [] then []
    else if s !in mgrs then [NoManager(s)]
    else if env.load(interval, fs).Failure? then [EngineFailed(s, env.load(interval, fs).error)]
    else []
  }

  /**
   * After Update, the engine of every strategy is handed exactly the
   * scratch files written for that strategy, in file order, and runs what
   * it loaded from them; an engine whose strategy got no scratch file, or
   * whose load fails, keeps what it ran before. No engine appears or
   * disappears.
   */
  lemma UpdateRoutes(mgrs: map<Strategy, EngineState>, workDir: Path, interval: Duration,
                     files: seq<Path>, env: Env, s: Strategy)
    requires s in mgrs
    ensures Reload(mgrs, workDir, interval, files, env).mgrs.Keys == mgrs.Keys
    ensures var fs := WrittenFiles(workDir, files, s, env);
      Reload(mgrs, workDir, interval, files, env).mgrs[s] ==
        if fs != [] && env.load(interval, fs).Success?
        then EngineState(interval, fs, env.load(interval, fs).value)
        else mgrs[s]
  {
    var fbs := Fold(workDir, files, env).filesByStrategy;
    FoldFiles(workDir, files, env, s);
    EnginesEffect(mgrs, fbs, interval, env);
  }

  /**
   * Update's errors, in closed form: first every file's own read, parse,
   * marshal and write errors, file after file, then the engine errors of
   * WARN and of ABORT.
   */
  lemma UpdateErrorsClosed(mgrs: map<Strategy, EngineState>, workDir: Path, interval: Duration,
                           files: seq<Path>, env: Env)
    ensures UpdateErrors(mgrs, workDir, interval, files, env) ==
      AllFileErrors(workDir, files, env) +
      ReloadErrors(mgrs, workDir, interval, files, env, WARN) +
      ReloadErrors(mgrs, workDir, interval, files, env, ABORT)
  {
    var fe := AllFileErrors(workDir, files, env);
    var w := ReloadErrors(mgrs, workDir, interval, files, env, WARN);
    var x := ReloadErrors(mgrs, workDir, interval, files, env, ABORT);
    assert Fold(workDir, files, env).errs == fe by {
      FoldErrors(workDir, files, env);
    }
    assert Reload(mgrs, workDir, interval, files, env).errs == w + x by {
      var fbs := Fold(workDir, files, env).filesByStrategy;
      FoldFiles(workDir, files, env, WARN);
      FoldFiles(workDir, files, env, ABORT);
      EnginesEffect(mgrs, fbs, interval, env);
      assert EngineErrors(mgrs, fbs, interval, env, WARN) == w;
      assert EngineErrors(mgrs, fbs, interval, env, ABORT) == x;
    }
    ConcatAssoc(fe, w, x);
  }

  /** Update reports success exactly when no file and no engine failed. */
  lemma UpdateSucceeds(mgrs: map<Strategy, EngineState>, workDir: Path, interval: Duration,
                       files: seq<Path>, env: Env)
    ensures Err(UpdateErrors(mgrs, workDir, interval, files, env)).None? <==>
      && AllFileErrors(workDir, files, env) == []
      && ReloadErrors(mgrs, workDir, interval, files, env, WARN) == []
      && ReloadErrors(mgrs, workDir, interval, files, env, ABORT) == []
  {
    UpdateErrorsClosed(mgrs, workDir, interval, files, env);
  }

  /** One file's failure does not hide another's: every error of every file is reported. */
  lemma {:induction false} FileErrorsReported(workDir: Path, files: seq<Path>, env: Env, i: int)
    requires 0 <= i < |files|
    ensures forall e :: e in FileErrors(workDir, files[i], env) ==> e in AllFileErrors(workDir, files, env)
  {
    var front := files[..|files| - 1];
    if i < |files| - 1 {
      assert front[i] == files[i];
      FileErrorsReported(workDir, front, env, i);
    }
  }

  /** With no rule files, Update reconfigures no engine: the groups they ran stay live. */
  lemma NoFilesKeepsEngines(mgrs: map<Strategy, EngineState>, workDir: Path, interval: Duration, env: Env)
    ensures Reload(mgrs, workDir, interval, [], env).mgrs == mgrs
    ensures UpdateErrors(mgrs, workDir, interval, [], env) == []
    ensures Fold(workDir, [], env).ruleFiles == map[]
  {
    EnginesEffect(mgrs, map[], interval, env);
  }

  /** Update never adds or removes an engine. */
  lemma ReloadKeepsEngines(mgrs: map<Strategy, EngineState>, workDir: Path, interval: Duration,
                           files: seq<Path>, env: Env)
    ensures Reload(mgrs, workDir, interval, files, env).mgrs.Keys == mgrs.Keys
  {
    EnginesEffect(mgrs, Fold(workDir, files, env).filesByStrategy, interval, env);
  }

  /** One file's own errors are never a missing engine. */
  lemma OneFileNoManager(workDir: Path, fn: Path, env: Env)
    ensures forall e :: e in FileErrors(workDir, fn, env) ==> !e.NoManager?
  {
    match FileGroups(fn, env)
    case Failure(_) =>
    case Success(gs) =>
      var a := BucketErrors(workDir, fn, WARN, Bucket(gs, WARN), env);
      var c := BucketErrors(workDir, fn, ABORT, Bucket(gs, ABORT), env);
      assert forall e :: e in a ==> !e.NoManager?;
      assert forall e :: e in c ==> !e.NoManager?;
      assert FileErrors(workDir, fn, env) == a + c;
  }

  /** The file loop itself never reports a missing engine. */
  lemma {:induction false} FileErrorsNoManager(workDir: Path, files: seq<Path>, env: Env)
    ensures forall e :: e in AllFileErrors(workDir, files, env) ==> !e.NoManager?
  {
    if files != [] {
      var front := AllFileErrors(workDir, files[..|files| - 1], env);
      var last := FileErrors(workDir, files[|files| - 1], env);
      FileErrorsNoManager(workDir, files[..|files| - 1], env);
      OneFileNoManager(workDir, files[|files| - 1], env);
      assert AllFileErrors(workDir, files, env) == front + last;
    }
  }

  /**
   * With an engine for every strategy, as NewManager creates and Update
   * keeps, Update never reports "no manager found": that branch is dead.
   */
  lemma NoManagerUnreachable(mgrs: map<Strategy, EngineState>, workDir: Path, interval: Duration,
                             files: seq<Path>, env: Env)
    requires forall s :: s in mgrs
    ensures forall e :: e in UpdateErrors(mgrs, workDir, interval, files, env) ==> !e.NoManager?
  {
    UpdateErrorsClosed(mgrs, workDir, interval, files, env);
    FileErrorsNoManager(workDir, files, env);
  }

  /** The reason Rules ends early. */
  datatype RulesError =
    | Panicked(cause: Unsupported)  // ToProto panicked; the API layer recovers it
    | SendFailed(msg: string)       // the stream's Send returned an error

  // ------------------------------------------------ steps of Update and Rules

  /** The bucketing loop of one file (lines 268-278): groupsByStrategy. */
  method GroupByStrategy(gs: seq<ConfigGroup>) returns (groupsByStrategy: map<Strategy, seq<RuleGroupDef>>)
    requires AllResolved(gs)
    ensures groupsByStrategy == BucketMap(gs)
  {
    groupsByStrategy := map[];
    for j := 0 to |gs|
      invariant groupsByStrategy == BucketMap(gs[..j])
    {
      var s := gs[j].strategy.value;
      BucketMapStep(gs, j);
      groupsByStrategy := groupsByStrategy[s := MapGet(groupsByStrategy, s, []) + [gs[j].group]];
    }
    assert gs[..|gs|] == gs;
  }

  /** The loop writing one file's buckets to scratch files (lines 280-295). */
  method WriteSplits(st: FoldState, workDir: Path, fn: Path, groupsByStrategy: map<Strategy, seq<RuleGroupDef>>, env: Env)
    returns (st': FoldState)
    ensures st' == WriteBuckets(st, workDir, fn, groupsByStrategy, AllStrategies, env)
  {
    var errs, filesByStrategy, index := st.errs, st.filesByStrategy, st.ruleFiles;
    for k := 0 to |AllStrategies|
      invariant FoldState(errs, filesByStrategy, index) ==
        WriteBuckets(st, workDir, fn, groupsByStrategy, AllStrategies[..k], env)
    {
      var s := AllStrategies[k];
      assert AllStrategies[..k + 1][..k] == AllStrategies[..k];
      if s !in groupsByStrategy {
        continue;
      }
      var b := env.encode(groupsByStrategy[s]);
      if b.Failure? {
        errs := errs + [MarshalFailed(fn, b.error)];
        continue;
      }
      var newFn := workDir + "/" + env.baseName(fn) + "." + env.sha256Hex(fn) + "." + Name(s);
      var werr := env.writeFile(newFn, b.value);
      if werr.Some? {
        errs := errs + [WriteFailed(newFn, werr.value)];
        continue;
      }
      filesByStrategy := filesByStrategy[s := MapGet(filesByStrategy, s, []) + [newFn]];
      index := index[newFn := fn];
    }
    assert AllStrategies[..|AllStrategies|] == AllStrategies;
    st' := FoldState(errs, filesByStrategy, index);
  }

  /** One iteration of Update's file loop (lines 253-295). */
  method SplitFile(st: FoldState, workDir: Path, fn: Path, env: Env) returns (st': FoldState)
    ensures st' == FileStep(st, workDir, fn, env)
  {
    var read := env.readFile(fn);
    if read.Failure? {
      return st.(errs := st.errs + [ReadFailed(fn, read.error)]);
    }
    var rg := ParseDocument(env.decode(read.value));
    if rg.Failure? {
      return st.(errs := st.errs + [ParseFailed(fn, rg.error)]);
    }
    ParseGroupsResolved(env.decode(read.value).value);
    var groupsByStrategy := GroupByStrategy(rg.value);
    st' := WriteSplits(st, workDir, fn, groupsByStrategy, env);
  }

  /** The rules of one projected group a typed request keeps (lines 330-339). */
  method FilterProto(rules: seq<Rule>, req: RuleType) returns (filtered: seq<Rule>)
    ensures filtered == FilterRules(rules, req)
  {
    filtered := [];
    for j := 0 to |rules|
      invariant filtered == FilterRules(rules[..j], req)
    {
      var rule := rules[j];
      assert rules[..j + 1][..j] == rules[..j];
      if rule.RuleAlert? && req == ALERTING {
        filtered := filtered + [rule];
        continue;
      }
      if rule.RuleRecording? && req == RECORDING {
        filtered := filtered + [rule];
      }
    }
    assert rules[..|rules|] == rules;
  }

  /** The inner loop of RuleGroups (lines 168-174): tag one engine's groups. */
  method TagGroups(groups: seq<LiveGroup>, s: Strategy, ruleFiles: map<Path, Path>) returns (res: seq<Group>)
    ensures res == Tagged(groups, s, ruleFiles)
  {
    res := [];
    for j := 0 to |groups|
      invariant res == Tagged(groups[..j], s, ruleFiles)
    {
      assert groups[..j + 1][..j] == groups[..j];
      res := res + [Group(groups[j], MapGet(ruleFiles, groups[j].file, ""), s)];
    }
    assert groups[..|groups|] == groups;
  }

  /** The inner loop of AlertingRules (lines 182-184): tag one engine's alerting rules. */
  method TagAlerts(rules: seq<AlertingRuleState>, s: Strategy) returns (res: seq<AlertingRule>)
    ensures res == TaggedAlerts(rules, s)
  {
    res := [];
    for j := 0 to |rules|
      invariant res == TaggedAlerts(rules[..j], s)
    {
      assert rules[..j + 1][..j] == rules[..j];
      res := res + [AlertingRule(rules[j], s)];
    }
    assert rules[..|rules|] == rules;
  }

  /** One iteration of the projection loop of Rules (lines 324-340). */
  method ProjectGroup(g: Group, req: RuleType) returns (r: Result<RuleGroup, Unsupported>)
    ensures r.Success? <==> g.Proto().Success?
    ensures r.Success? ==> r.value == FilterGroup(g.Proto().value, req)
    ensures r.Failure? ==> r.error == g.Proto().error
  {
    var pGroup := g.ToProto();
    if pGroup.Failure? {
      return Failure(pGroup.error);
    }
    if req == ALL {
      var again := g.ToProto();
      return Success(again.value);
    }
    var filtered := FilterProto(pGroup.value.rules, req);
    r := Success(EmptyGroup.(rules := filtered));
  }

  /** The projection loop of Rules (lines 322-341), up to the first panic. */
  method ProjectGroups(groups: seq<Group>, req: RuleType) returns (r: Result<seq<RuleGroup>, Unsupported>)
    ensures r == Responses(groups, req)
  {
    var pgs: seq<RuleGroup> := [];
    for i := 0 to |groups|
      invariant Responses(groups[..i], req) == Success(pgs)
    {
      var pg := ProjectGroup(groups[i], req);
      if pg.Failure? {
        assert groups[..i + 1][..i] == groups[..i];
        ResponsesPanicSticks(groups, i + 1, req);
        return Failure(pg.error);
      }
      ResponsesStep(groups, i, req, pgs, groups[i].Proto().value);
      pgs := pgs + [pg.value];
    }
    assert groups[..|groups|] == groups;
    r := Success(pgs);
  }

  /** The send loop of Rules (lines 343-347): send in order, stop at the first failed send. */
  method SendAll(srv: RulesServer, pgs: seq<RuleGroup>) returns (err: Option<string>)
    modifies srv
    ensures var n := Sent(srv.transport, |old(srv.delivered)|, pgs);
      && srv.delivered == old(srv.delivered) + pgs[..n]
      && (err.None? <==> n == |pgs|)
      && (err.Some? ==> n < |pgs| && err == srv.transport(|old(srv.delivered)| + n))
  {
    ghost var base := |srv.delivered|;
    ghost var n := Sent(srv.transport, base, pgs);
    for k := 0 to |pgs|
      invariant srv.delivered == old(srv.delivered) + pgs[..k]
      invariant forall j :: base <= j < base + k ==> srv.transport(j).None?
      invariant k <= n
    {
      assert pgs[..k + 1] == pgs[..k] + [pgs[k]];
      var e := srv.Send(pgs[k]);
      if e.Some? {
        assert n == k;
        return e;
      }
    }
    assert pgs[..|pgs|] == pgs;
    return None;
  }

  /**
   * After sending pgs in order on a stream that held `before`, the stream
   * holds `after` and the call reports err: the sends up to the first
   * failed one are delivered, and that send's error, if any, is reported.
   */
  ghost predicate Delivered(transport: nat -> Option<string>, before: seq<RuleGroup>, pgs: seq<RuleGroup>,
                            after: seq<RuleGroup>, err: Option<RulesError>)
  {
    var n := Sent(transport, |before|, pgs);
    && after == before + pgs[..n]
    && (n == |pgs| ==> err.None?)
    && (n < |pgs| ==> err == Some(SendFailed(transport(|before| + n).value)))
  }

  /** The end of Rules: report the panic, or send the projected groups (lines 343-348). */
  method Answer(srv: RulesServer, projected: Result<seq<RuleGroup>, Unsupported>) returns (err: Option<RulesError>)
    modifies srv
    ensures projected.Failure? ==> err == Some(Panicked(projected.error)) && srv.delivered == old(srv.delivered)
    ensures projected.Success? ==> Delivered(srv.transport, old(srv.delivered), projected.value, srv.delivered, err)
  {
    match projected {
      case Failure(u) =>
        err := Some(Panicked(u));
      case Success(pgs) =>
        var sendErr := SendAll(srv, pgs);
        err := if sendErr.Some? then Some(SendFailed(sendErr.value)) else None;
    }
  }

  /** The outer loop of RuleGroups (lines 167-175), over the engines in the given order. */
  method CollectGroups(mgrs: map<Strategy, EngineState>, ruleFiles: map<Path, Path>, order: seq<Strategy>)
    returns (res: seq<Group>)
    ensures res == TaggedGroups(mgrs, ruleFiles, order)
  {
    res := [];
    for k := 0 to |order|
      invariant res == TaggedGroups(mgrs, ruleFiles, order[..k])
    {
      var s := order[k];
      assert order[..k + 1][..k] == order[..k];
      if s !in mgrs {
        continue;
      }
      var tagged := TagGroups(mgrs[s].groups, s, ruleFiles);
      res := res + tagged;
    }
    assert order[..|order|] == order;
  }

  /** The outer loop of AlertingRules (lines 181-185), over the engines in the given order. */
  method CollectAlerts(mgrs: map<Strategy, EngineState>, order: seq<Strategy>) returns (res: seq<AlertingRule>)
    ensures res == StrategyAlertingRules(mgrs, order)
  {
    res := [];
    for k := 0 to |order|
      invariant res == StrategyAlertingRules(mgrs, order[..k])
    {
      var s := order[k];
      assert order[..k + 1][..k] == order[..k];
      if s !in mgrs {
        continue;
      }
      var tagged := TagAlerts(AlertingRulesOf(mgrs[s].groups), s);
      res := res + tagged;
    }
    assert order[..|order|] == order;
  }

  // ------------------------------------------------------------- Manager

  class Manager {
    /** The scratch directory the rule files are re-split into. */
    const workDir: Path
    /** The engine of each strategy. */
    var mgrs: map<Strategy, EngineState>
    /** Scratch file -> the rule file it was split from. */
    var ruleFiles: map<Path, Path>

    /** NewManager: one fresh engine per strategy, an empty index. */
    constructor (dataDir: Path)
      ensures workDir == dataDir + "/" + TmpRuleDir
      ensures forall s :: s in mgrs && mgrs[s] == Fresh
      ensures ruleFiles == map[]
    {
      workDir := dataDir + "/" + TmpRuleDir;
      ruleFiles := map[];
      var engines: map<Strategy, EngineState> := map[];
      for i := 0 to |AllStrategies|
        invariant forall s :: s in engines <==> s in AllStrategies[..i]
        invariant forall s :: s in engines ==> engines[s] == Fresh
      {
        assert AllStrategies[..i + 1] == AllStrategies[..i] + [AllStrategies[i]];
        engines := engines[AllStrategies[i] := Fresh];
      }
      assert AllStrategies[..|AllStrategies|] == AllStrategies;
      AllStrategiesComplete();
      mgrs := engines;
    }

    /** The groups RuleGroups reports for the current engines and index. */
    function AllGroups(): seq<Group>
      reads this
    {
      TaggedGroups(mgrs, ruleFiles, AllStrategies)
    }

    /** Manager.RuleGroups: every engine's groups, tagged. */
    method RuleGroups() returns (res: seq<Group>)
      ensures res == AllGroups()
    {
      res := CollectGroups(mgrs, ruleFiles, AllStrategies);
    }

    /** Manager.AlertingRules: every engine's alerting rules, tagged with its strategy. */
    method AlertingRules() returns (res: seq<AlertingRule>)
      ensures res == StrategyAlertingRules(mgrs, AllStrategies)
    {
      res := CollectAlerts(mgrs, AllStrategies);
    }

    /** Update's strategy loop (lines 298-311): reconfigure every engine that has files. */
    method ReloadEngines(evalInterval: Duration, filesByStrategy: map<Strategy, seq<Path>>, env: Env)
      returns (errs: seq<UpdateError>)
      modifies this
      ensures mgrs == ApplyEngines(old(mgrs), filesByStrategy, evalInterval, env, AllStrategies).mgrs
      ensures errs == ApplyEngines(old(mgrs), filesByStrategy, evalInterval, env, AllStrategies).errs
      ensures ruleFiles == old(ruleFiles)
    {
      errs := [];
      for k := 0 to |AllStrategies|
        invariant mgrs == ApplyEngines(old(mgrs), filesByStrategy, evalInterval, env, AllStrategies[..k]).mgrs
        invariant errs == ApplyEngines(old(mgrs), filesByStrategy, evalInterval, env, AllStrategies[..k]).errs
        invariant ruleFiles == old(ruleFiles)
      {
        var s := AllStrategies[k];
        assert AllStrategies[..k + 1][..k] == AllStrategies[..k];
        if s !in filesByStrategy {
          continue;
        }
        if s !in mgrs {
          errs := errs + [NoManager(s)];
          continue;
        }
        var loaded := env.load(evalInterval, filesByStrategy[s]);
        if loaded.Failure? {
          errs := errs + [EngineFailed(s, loaded.error)];
          continue;
        }
        mgrs := mgrs[s := EngineState(evalInterval, filesByStrategy[s], loaded.value)];
      }
      assert AllStrategies[..|AllStrategies|] == AllStrategies;
    }

    /**
     * Manager.Update: re-split the rule files into the scratch directory by
     * strategy, hand every engine its strategy's scratch files, and replace
     * the index. A failure to clear or create the scratch directory ends
     * the call before anything changes; every other failure is collected.
     */
    method Update(evalInterval: Duration, files: seq<Path>, env: Env) returns (err: Option<UpdateError>)
      modifies this
      ensures env.removeAll.Some? ==>
        err == Some(RemoveFailed(workDir, env.removeAll.value)) && mgrs == old(mgrs) && ruleFiles == old(ruleFiles)
      ensures env.removeAll.None? && env.mkdirAll.Some? ==>
        err == Some(MkdirFailed(workDir, env.mkdirAll.value)) && mgrs == old(mgrs) && ruleFiles == old(ruleFiles)
      ensures env.removeAll.None? && env.mkdirAll.None? ==>
        && mgrs == Reload(old(mgrs), workDir, evalInterval, files, env).mgrs
        && ruleFiles == Fold(workDir, files, env).ruleFiles
        && err == Err(UpdateErrors(old(mgrs), workDir, evalInterval, files, env))
      ensures mgrs.Keys == old(mgrs).Keys
    {
      if env.removeAll.Some? {
        return Some(RemoveFailed(workDir, env.removeAll.value));
      }
      if env.mkdirAll.Some? {
        return Some(MkdirFailed(workDir, env.mkdirAll.value));
      }
      var st := Init;
      for i := 0 to |files|
        invariant st == Fold(workDir, files[..i], env)
        invariant mgrs == old(mgrs)
      {
        assert files[..i + 1][..i] == files[..i];
        st := SplitFile(st, workDir, files[i], env);
      }
      assert files[..|files|] == files;
      var errs, filesByStrategy, index := st.errs, st.filesByStrategy, st.ruleFiles;

      var engineErrs := ReloadEngines(evalInterval, filesByStrategy, env);
      errs := errs + engineErrs;
      ReloadKeepsEngines(old(mgrs), workDir, evalInterval, files, env);
      ruleFiles := index;
      err := Err(errs);
    }

    /**
     * Manager.Rules: project every group, filter it by the request's type,
     * and send the results in order. A panicking projection ends the call
     * before anything is sent; a failed send ends it after the groups
     * before it were delivered.
     */
    method Rules(req: RuleType, srv: RulesServer) returns (err: Option<RulesError>)
      modifies srv
      ensures Responses(AllGroups(), req).Failure? ==>
        err == Some(Panicked(Responses(AllGroups(), req).error)) && srv.delivered == old(srv.delivered)
      ensures Responses(AllGroups(), req).Success? ==>
        Delivered(srv.transport, old(srv.delivered), Responses(AllGroups(), req).value, srv.delivered, err)
    {
      var groups := RuleGroups();
      var projected := ProjectGroups(groups, req);
      err := Answer(srv, projected);
    }
  }
}
