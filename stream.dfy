/**
 * The server side of the Rules gRPC stream (pkg/rules/manager.go, lines
 * 318-349): the per-type filter applied to projected groups, and the
 * stream the responses are sent on.
 */
module RulesStream {
  import opened Wrappers
  import opened Strategies
  import opened Engine
  import opened RulesPb
  import opened Projection

  /** A projected rule is kept for a request of type t: alerts for ALERTING, recording rules for RECORDING. */
  predicate Keep(r: Rule, t: RuleType) {
    || (r.RuleAlert? && t == ALERTING)
    || (r.RuleRecording? && t == RECORDING)
  }

  /** The rules of a projected group that a typed request keeps, in order (lines 331-339). */
  function FilterRules(rules: seq<Rule>, t: RuleType): seq<Rule> {
    if rules == [] then []
    else
      var last := rules[|rules| - 1];
      FilterRules(rules[..|rules| - 1], t) + (if Keep(last, t) then [last] else [])
  }

  /**
   * The filter keeps exactly the rules of the requested type: every kept
   * rule comes from the group and has that type, and every rule of that
   * type is kept.
   */
  lemma {:induction false} FilterExact(rules: seq<Rule>, t: RuleType)
    ensures |FilterRules(rules, t)| <= |rules|
    ensures forall r :: r in FilterRules(rules, t) <==> r in rules && Keep(r, t)
  {
    if rules != [] {
      FilterExact(rules[..|rules| - 1], t);
      assert forall r :: r in rules <==> r in rules[..|rules| - 1] || r == rules[|rules| - 1];
    }
  }

  /**
   * Every projected rule is an alert or a recording rule and never both,
   * so the ALERTING and the RECORDING answers together hold as many rules
   * as the group.
   */
  lemma {:induction false} FilterPartition(rules: seq<Rule>)
    ensures |FilterRules(rules, ALERTING)| + |FilterRules(rules, RECORDING)| == |rules|
  {
    if rules != [] {
      FilterPartition(rules[..|rules| - 1]);
    }
  }

  /**
   * The filter works rule by rule: filtering a concatenation filters each
   * part, so the kept rules stay in their original order.
   */
  lemma {:induction false} FilterAppend(a: seq<Rule>, b: seq<Rule>, t: RuleType)
    ensures FilterRules(a + b, t) == FilterRules(a, t) + FilterRules(b, t)
  {
    if b == [] {
      assert a + b == a;
    } else {
      assert (a + b)[..|a + b| - 1] == a + b[..|b| - 1];
      FilterAppend(a, b[..|b| - 1], t);
      var fa, fb, fl := FilterRules(a, t), FilterRules(b[..|b| - 1], t),
                        if Keep(b[|b| - 1], t) then [b[|b| - 1]] else [];
      ConcatAssoc(fa, fb, fl);
    }
  }

  /**
   * What is sent for one projected group: the group itself for ALL; for a
   * typed request a fresh RuleGroup holding only the kept rules, so its
   * name, file, interval and strategy are the proto zero values.
   */
  function FilterGroup(pg: RuleGroup, t: RuleType): (r: RuleGroup)
    ensures t == ALL ==> r == pg
    ensures t != ALL ==> r.name == "" && r.file == "" && r.interval == Duration(0) && r.strategy == Zero
    ensures t != ALL ==> forall x :: x in r.rules <==> x in pg.rules && Keep(x, t)
  {
    FilterExact(pg.rules, t);
    if t == ALL then pg else EmptyGroup.(rules := FilterRules(pg.rules, t))
  }

  /** Per group, the ALERTING answer and the RECORDING answer together hold as many rules as the ALL answer. */
  lemma FilterCounts(pg: RuleGroup)
    ensures |FilterGroup(pg, ALERTING).rules| + |FilterGroup(pg, RECORDING).rules| == |FilterGroup(pg, ALL).rules|
  {
    FilterPartition(pg.rules);
  }

  /** The first group whose projection panics is at position k. */
  ghost predicate FirstPanic(groups: seq<Group>, k: int)
    requires 0 <= k < |groups|
  {
    && groups[k].Proto().Failure?
    && forall i :: 0 <= i < k ==> groups[i].Proto().Success?
  }

  /**
   * The responses Rules sends for `groups` and request type t, or the
   * panic of the first group whose projection panics.
   */
  function Responses(groups: seq<Group>, t: RuleType): (r: Result<seq<RuleGroup>, Unsupported>)
    ensures r.Success? ==> |r.value| == |groups|
  {
    if groups == [] then Success([])
    else
      match Responses(groups[..|groups| - 1], t)
      case Failure(u) => Failure(u)
      case Success(ps) =>
        match groups[|groups| - 1].Proto()
        case Failure(u) => Failure(u)
        case Success(pg) => Success(ps + [FilterGroup(pg, t)])
  }

  /** Rules answers exactly when every group's projection succeeds. */
  lemma {:induction false} ResponsesSucceed(groups: seq<Group>, t: RuleType)
    ensures Responses(groups, t).Success? <==> forall i :: 0 <= i < |groups| ==> groups[i].Proto().Success?
  {
    if groups != [] {
      var front := groups[..|groups| - 1];
      var last := groups[|groups| - 1];
      ResponsesSucceed(front, t);
      assert forall i :: 0 <= i < |front| ==> front[i] == groups[i];
      if Responses(front, t).Success? && last.Proto().Success? {
        assert Responses(groups, t).Success?;
      } else {
        assert Responses(groups, t).Failure?;
      }
    }
  }

  /**
   * A successful answer holds one response per group, in order: the
   * group's projection filtered by the request's type.
   */
  lemma {:induction false} ResponsesValues(groups: seq<Group>, t: RuleType, i: int)
    requires Responses(groups, t).Success? && 0 <= i < |groups|
    ensures groups[i].Proto().Success?
    ensures Responses(groups, t).value[i] == FilterGroup(groups[i].Proto().value, t)
  {
    var front := groups[..|groups| - 1];
    if i < |groups| - 1 {
      assert front[i] == groups[i];
      ResponsesValues(front, t, i);
    }
  }

  /** When some group panics, Rules answers with the panic of the first such group. */
  lemma {:induction false} ResponsesPanic(groups: seq<Group>, t: RuleType, k: int)
    requires 0 <= k < |groups| && FirstPanic(groups, k)
    ensures Responses(groups, t) == Failure(groups[k].Proto().error)
  {
    var front := groups[..|groups| - 1];
    if k < |groups| - 1 {
      assert FirstPanic(front, k) by {
        assert forall i :: 0 <= i < |front| ==> front[i] == groups[i];
      }
      ResponsesPanic(front, t, k);
    } else {
      ResponsesSucceed(front, t);
      assert forall i :: 0 <= i < |front| ==> front[i] == groups[i];
    }
  }

  lemma ResponsesStep(groups: seq<Group>, i: int, t: RuleType, ps: seq<RuleGroup>, pg: RuleGroup)
    requires 0 <= i < |groups|
    requires Responses(groups[..i], t) == Success(ps)
    requires groups[i].Proto() == Success(pg)
    ensures Responses(groups[..i + 1], t) == Success(ps + [FilterGroup(pg, t)])
  {
    assert groups[..i + 1][..i] == groups[..i];
  }

  /** Once a prefix of the groups panics, the whole answer is that panic. */
  lemma {:induction false} ResponsesPanicSticks(groups: seq<Group>, i: int, t: RuleType)
    requires 0 <= i <= |groups| && Responses(groups[..i], t).Failure?
    ensures Responses(groups, t) == Responses(groups[..i], t)
  {
    if i < |groups| {
      var front := groups[..|groups| - 1];
      assert front[..i] == groups[..i];
      ResponsesPanicSticks(front, i, t);
    } else {
      assert groups[..i] == groups;
    }
  }

  /**
   * How many of `pgs` a stream whose sends from position `base` on report
   * `transport` delivers before the first failed send: every send before
   * it succeeds, and the one at it, if any, fails.
   */
  function Sent(transport: nat -> Option<string>, base: nat, pgs: seq<RuleGroup>): (n: nat)
    ensures n <= |pgs|
    ensures forall k :: base <= k < base + n ==> transport(k).None?
    ensures n < |pgs| ==> transport(base + n).Some?
    decreases |pgs|
  {
    if pgs == [] then 0
    else if transport(base).Some? then 0
    else 1 + Sent(transport, base + 1, pgs[1..])
  }

  /** rulespb.Rules_RulesServer: the stream of RulesResponse messages to one client. */
  class RulesServer {
    /** The groups the client has received, in order. */
    var delivered: seq<RuleGroup>
    /** The outcome of the n-th Send on this stream: nil or its error. */
    const transport: nat -> Option<string>

    constructor (transport: nat -> Option<string>)
      ensures this.transport == transport && delivered == []
    {
      this.transport := transport;
      delivered := [];
    }

    /** Send one RulesResponse carrying group g. */
    method Send(g: RuleGroup) returns (err: Option<string>)
      modifies this
      ensures err == transport(|old(delivered)|)
      ensures delivered == if err.None? then old(delivered) + [g] else old(delivered)
    {
      err := transport(|delivered|);
      if err.None? {
        delivered := delivered + [g];
      }
    }
  }
}
