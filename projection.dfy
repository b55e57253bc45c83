/**
 * Wire projection of live engine state (pkg/rules/manager.go, Group.ToProto
 * and AlertingRule.ActiveAlertsToProto, lines 31-107).
 */
module Projection {
  import opened Wrappers
  import opened Strategies
  import opened Engine
  import opened RulesPb

  /** The panic ToProto raises on a rule that is neither alerting nor recording. */
  datatype Unsupported = Unsupported(ruleName: string)

  function InstanceProto(a: LiveAlert, s: Strategy): AlertInstance {
    AlertInstance(s, a.labels, a.annotations, a.state, a.activeAt, a.value)
  }

  /** The instances ActiveAlertsToProto builds for a list of active alerts. */
  function InstancesProto(active: seq<LiveAlert>, s: Strategy): (r: seq<AlertInstance>)
    ensures |r| == |active|
    ensures forall i :: 0 <= i < |active| ==> r[i] == InstanceProto(active[i], s)
  {
    seq(|active|, i requires 0 <= i < |active| => InstanceProto(active[i], s))
  }

  /** manager.AlertingRule: an alerting rule tagged with its engine's strategy. */
  datatype AlertingRule = AlertingRule(rule: AlertingRuleState, strategy: Strategy) {

    /**
     * One instance per active alert, in order, each carrying the rule's
     * strategy and the alert's labels, annotations, state, activation time
     * and value.
     */
    method ActiveAlertsToProto() returns (r: seq<AlertInstance>)
      ensures |r| == |rule.active|
      ensures forall i :: 0 <= i < |r| ==>
        r[i].strategy == strategy && r[i].labels == rule.active[i].labels &&
        r[i].annotations == rule.active[i].annotations && r[i].state == rule.active[i].state &&
        r[i].activeAt == rule.active[i].activeAt && r[i].value == rule.active[i].value
      ensures r == InstancesProto(rule.active, strategy)
    {
      var active := rule.active;
      var ret := new AlertInstance[|active|];
      for i := 0 to |active|
        invariant forall j :: 0 <= j < i ==> ret[j] == InstanceProto(active[j], strategy)
      {
        ret[i] := InstanceProto(active[i], strategy);
      }
      r := ret[..];
    }
  }

  /** The LastError field: "" for a nil error, its message otherwise. */
  function LastErrorText(info: EvalInfo): (r: string)
    ensures info.lastError.None? ==> r == ""
    ensures info.lastError.Some? ==> r == info.lastError.value
  {
    if info.lastError.Some? then info.lastError.value else ""
  }

  lemma LastErrorEmpty(info: EvalInfo)
    ensures LastErrorText(info) == "" <==> info.lastError.None? || info.lastError.value == ""
  {
  }

  function AlertProto(a: AlertingRuleState, s: Strategy): Alert {
    Alert(a.state, a.name, a.query, a.holdDuration, a.labels, a.annotations,
          InstancesProto(a.active, s), a.info.health, LastErrorText(a.info),
          a.info.evalDuration, a.info.lastEvaluation)
  }

  function RecordingProto(r: RecordingRuleState): RecordingRule {
    RecordingRule(r.name, r.query, r.labels, r.info.health, LastErrorText(r.info),
                  r.info.evalDuration, r.info.lastEvaluation)
  }

  /** One live rule's record: an Alert for an alerting rule, a Recording for a recording rule, none otherwise. */
  function RuleToProto(r: LiveRule, s: Strategy): (p: Option<Rule>)
    ensures p.None? <==> r.Other?
    ensures r.Alerting? ==> p.Some? && p.value.RuleAlert? && p.value.alert.name == r.alerting.name
    ensures r.Alerting? ==> |p.value.alert.alerts| == |r.alerting.active|
    ensures r.Alerting? ==> forall i :: 0 <= i < |p.value.alert.alerts| ==> p.value.alert.alerts[i].strategy == s
    ensures r.Recording? ==> p.Some? && p.value.RuleRecording? && p.value.recording.name == r.recording.name
  {
    match r
    case Alerting(a) => Some(RuleAlert(AlertProto(a, s)))
    case Recording(rr) => Some(RuleRecording(RecordingProto(rr)))
    case Other(_) => None
  }

  /** Rule k is the first rule the projection refuses. */
  ghost predicate FirstUnsupported(rules: seq<LiveRule>, k: int)
    requires 0 <= k < |rules|
  {
    rules[k].Other? && forall j :: 0 <= j < k ==> !rules[j].Other?
  }

  /**
   * The rule loop of Group.ToProto: one record per rule, in order, or the
   * panic raised by the first rule of another kind.
   */
  function RulesToProto(rules: seq<LiveRule>, s: Strategy): (r: Result<seq<Rule>, Unsupported>)
    ensures r.Success? ==> |r.value| == |rules|
  {
    if rules == [] then Success([])
    else
      match RulesToProto(rules[..|rules| - 1], s)
      case Failure(e) => Failure(e)
      case Success(ps) =>
        match RuleToProto(rules[|rules| - 1], s)
        case None => Failure(Unsupported(rules[|rules| - 1].Name()))
        case Some(p) => Success(ps + [p])
  }

  /** The rule loop completes exactly when no rule is of another kind. */
  lemma {:induction false} RulesToProtoSucceeds(rules: seq<LiveRule>, s: Strategy)
    ensures RulesToProto(rules, s).Success? <==> forall i :: 0 <= i < |rules| ==> !rules[i].Other?
  {
    if rules != [] {
      var front := rules[..|rules| - 1];
      RulesToProtoSucceeds(front, s);
      assert forall i :: 0 <= i < |front| ==> front[i] == rules[i];
    }
  }

  /** When it completes, record i is the projection of rule i. */
  lemma {:induction false} RulesToProtoValues(rules: seq<LiveRule>, s: Strategy, i: int)
    requires RulesToProto(rules, s).Success? && 0 <= i < |rules|
    ensures Some(RulesToProto(rules, s).value[i]) == RuleToProto(rules[i], s)
  {
    var front := rules[..|rules| - 1];
    if i < |rules| - 1 {
      assert front[i] == rules[i];
      RulesToProtoValues(front, s, i);
    }
  }

  /** Otherwise the panic names the first rule of another kind. */
  lemma {:induction false} RulesToProtoPanic(rules: seq<LiveRule>, s: Strategy, k: int)
    requires 0 <= k < |rules| && FirstUnsupported(rules, k)
    ensures RulesToProto(rules, s) == Failure(Unsupported(rules[k].Name()))
  {
    var front := rules[..|rules| - 1];
    if k < |rules| - 1 {
      assert FirstUnsupported(front, k) by {
        assert forall j :: 0 <= j < |front| ==> front[j] == rules[j];
      }
      RulesToProtoPanic(front, s, k);
    } else {
      RulesToProtoSucceeds(front, s);
      assert forall j :: 0 <= j < |front| ==> front[j] == rules[j];
    }
  }

  lemma RulesToProtoStep(rules: seq<LiveRule>, s: Strategy, i: int, ps: seq<Rule>, p: Rule)
    requires 0 <= i < |rules|
    requires RulesToProto(rules[..i], s) == Success(ps)
    requires RuleToProto(rules[i], s) == Some(p)
    ensures RulesToProto(rules[..i + 1], s) == Success(ps + [p])
  {
    assert rules[..i + 1][..i] == rules[..i];
  }

  /** manager.Group: a live group tagged with its engine's strategy and its original file. */
  datatype Group = Group(live: LiveGroup, originalFile: Path, strategy: Strategy) {

    /** The record ToProto builds, or its panic. */
    function Proto(): Result<RuleGroup, Unsupported> {
      match RulesToProto(live.rules, strategy)
      case Failure(e) => Failure(e)
      case Success(rules) => Success(RuleGroup(live.name, originalFile, live.interval, strategy, rules))
    }

    /** Group.ToProto. */
    method ToProto() returns (r: Result<RuleGroup, Unsupported>)
      ensures r == Proto()
    {
      var rules: seq<Rule> := [];
      for i := 0 to |live.rules|
        invariant RulesToProto(live.rules[..i], strategy) == Success(rules)
      {
        var lastError := "";
        var p: Rule;
        match live.rules[i] {
          case Alerting(a) =>
            if a.info.lastError.Some? {
              lastError := a.info.lastError.value;
            }
            var alerts := AlertingRule(a, strategy).ActiveAlertsToProto();
            p := RuleAlert(Alert(
              a.state, a.name, a.query, a.holdDuration, a.labels, a.annotations, alerts,
              a.info.health, lastError, a.info.evalDuration, a.info.lastEvaluation));
          case Recording(rr) =>
            if rr.info.lastError.Some? {
              lastError := rr.info.lastError.value;
            }
            p := RuleRecording(RecordingRule(
              rr.name, rr.query, rr.labels, rr.info.health, lastError,
              rr.info.evalDuration, rr.info.lastEvaluation));
          case Other(name) =>
            RulesToProtoSucceeds(live.rules[..i], strategy);
            assert FirstUnsupported(live.rules, i);
            RulesToProtoPanic(live.rules, strategy, i);
            return Failure(Unsupported(name));
        }
        RulesToProtoStep(live.rules, strategy, i, rules, p);
        rules := rules + [p];
      }
      assert live.rules[..|live.rules|] == live.rules;
      r := Success(RuleGroup(live.name, originalFile, live.interval, strategy, rules));
    }
  }

  /**
   * The projected group carries the live group's name and interval, its
   * original file and its strategy, and the projection of its rules; it
   * panics exactly when the rules' projection does.
   */
  lemma ProtoFields(g: Group)
    ensures g.Proto().Success? <==> RulesToProto(g.live.rules, g.strategy).Success?
    ensures g.Proto().Success? ==>
      var p := g.Proto().value;
      && p.name == g.live.name && p.file == g.originalFile
      && p.interval == g.live.interval && p.strategy == g.strategy
      && p.rules == RulesToProto(g.live.rules, g.strategy).value
    ensures g.Proto().Failure? ==> g.Proto().error == RulesToProto(g.live.rules, g.strategy).error
  {
  }

  /**
   * A projected group holds exactly one record per live rule, in order,
   * of the same kind and name, every alert instance tagged with the
   * group's strategy.
   */
  lemma ProtoOneToOne(g: Group, i: int)
    requires g.Proto().Success? && 0 <= i < |g.live.rules|
    ensures |g.Proto().value.rules| == |g.live.rules|
    ensures g.Proto().value.rules[i].RuleAlert? <==> g.live.rules[i].Alerting?
    ensures g.Proto().value.rules[i].RuleRecording? <==> g.live.rules[i].Recording?
    ensures g.Proto().value.rules[i].RuleAlert? ==>
      g.Proto().value.rules[i].alert.name == g.live.rules[i].Name() &&
      forall j :: 0 <= j < |g.Proto().value.rules[i].alert.alerts| ==>
        g.Proto().value.rules[i].alert.alerts[j].strategy == g.strategy
    ensures g.Proto().value.rules[i].RuleRecording? ==>
      g.Proto().value.rules[i].recording.name == g.live.rules[i].Name()
  {
    RulesToProtoValues(g.live.rules, g.strategy, i);
  }

  /** ToProto panics exactly when some rule is of another kind, naming the first such rule. */
  lemma ProtoPanics(g: Group, k: int)
    requires 0 <= k < |g.live.rules| && FirstUnsupported(g.live.rules, k)
    ensures g.Proto() == Failure(Unsupported(g.live.rules[k].Name()))
  {
    RulesToProtoPanic(g.live.rules, g.strategy, k);
  }
}
