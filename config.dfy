/**
 * Rule-group configuration as read from a rule file (pkg/rules/manager.go,
 * configRuleGroup and its UnmarshalYAML / MarshalYAML, lines 109-117 and
 * 189-235). YAML syntax and the rulefmt schema are abstract: a decoded
 * document is a sequence of raw group nodes, and each node either decodes
 * its two views (the strategy tag and the rulefmt group) or reports why not.
 */
module RuleConfig {
  import opened Wrappers
  import opened Strategies

  /** A rulefmt rule definition; the query text is kept unparsed. */
  datatype RuleDef =
    | AlertingDef(alert: string, expr: string, forDuration: int)
    | RecordingDef(record: string, expr: string)

  /** rulefmt.RuleGroup: name, optional interval, ordered rules. */
  datatype RuleGroupDef = RuleGroupDef(name: string, interval: Option<int>, rules: seq<RuleDef>)

  /**
   * One `groups:` entry as the YAML decoder sees it. `tag` is the result of
   * decoding the `partial_response_strategy` field into a string (an
   * absent field decodes as ""), `body` the result of decoding the entry
   * into a rulefmt.RuleGroup.
   */
  datatype RawGroup = RawGroup(tag: Result<string, string>, body: Result<RuleGroupDef, string>)

  /** configRuleGroup: a rulefmt group plus a possibly nil strategy pointer. */
  datatype ConfigGroup = ConfigGroup(group: RuleGroupDef, strategy: Option<Strategy>)

  /** Why decoding a rule file failed. */
  datatype DecodeError =
    | SyntaxError(msg: string)            // the document is not YAML of the expected shape
    | StrategyFieldError(msg: string)     // lines 195-197
    | GroupFieldError(msg: string)        // lines 200-202
    | BadStrategy(e: StrategyError)       // lines 205-208

  /** configRuleGroup.UnmarshalYAML. */
  function UnmarshalGroup(raw: RawGroup): (r: Result<ConfigGroup, DecodeError>)
    ensures r.Success? ==> r.value.strategy.Some?
  {
    if raw.tag.Failure? then Failure(StrategyFieldError(raw.tag.error))
    else if raw.body.Failure? then Failure(GroupFieldError(raw.body.error))
    else
      match ParseStrategy(raw.tag.value)
      case Failure(e) => Failure(BadStrategy(e))
      case Success(s) => Success(ConfigGroup(raw.body.value, Some(s)))
  }

  /**
   * An entry unmarshals when both of its views decode and its tag names a
   * strategy (or is empty); otherwise the first failing step's error is
   * returned, an unknown tag reported as given.
   */
  lemma UnmarshalGroupOutcome(raw: RawGroup)
    ensures UnmarshalGroup(raw).Success? <==>
      raw.tag.Success? && raw.body.Success? && ParseStrategy(raw.tag.value).Success?
    ensures UnmarshalGroup(raw).Success? ==>
      UnmarshalGroup(raw).value == ConfigGroup(raw.body.value, Some(ParseStrategy(raw.tag.value).value))
    ensures raw.tag.Failure? ==> UnmarshalGroup(raw) == Failure(StrategyFieldError(raw.tag.error))
    ensures raw.tag.Success? && raw.body.Failure? ==> UnmarshalGroup(raw) == Failure(GroupFieldError(raw.body.error))
    ensures raw.tag.Success? && raw.body.Success? && ParseStrategy(raw.tag.value).Failure? ==>
      UnmarshalGroup(raw) == Failure(BadStrategy(InvalidStrategy(raw.tag.value)))
  {
  }

  /** The value MarshalYAML hands to the YAML encoder: the group inline, the tag omitted when nil. */
  datatype MarshalledGroup = MarshalledGroup(group: RuleGroupDef, tag: Option<string>)

  /** configRuleGroup.MarshalYAML. */
  function MarshalGroup(c: ConfigGroup): (m: MarshalledGroup)
    ensures m.group == c.group
    ensures m.tag.None? <==> c.strategy.None?
    ensures c.strategy.Some? ==> m.tag == Some(Name(c.strategy.value))
  {
    MarshalledGroup(c.group, if c.strategy.Some? then Some(Name(c.strategy.value)) else None)
  }

  /** Decoding the encoder's output again: an omitted tag reads back as "". */
  function Reparse(m: MarshalledGroup): RawGroup {
    RawGroup(Success(m.tag.GetOr("")), Success(m.group))
  }

  /**
   * Marshal then parse gives back the group with the same strategy, or
   * with ABORT when the strategy was nil and the field was omitted.
   */
  lemma MarshalRoundTrip(c: ConfigGroup)
    ensures UnmarshalGroup(Reparse(MarshalGroup(c))) ==
            Success(ConfigGroup(c.group, Some(c.strategy.GetOr(ABORT))))
  {
    match c.strategy
    case None =>
      ParseEmptyIsAbort();
    case Some(s) =>
      ParseName(s);
  }

  /** A parsed group always carries a strategy. */
  ghost predicate AllResolved(gs: seq<ConfigGroup>) {
    forall i :: 0 <= i < |gs| ==> gs[i].strategy.Some?
  }

  /**
   * yaml.Unmarshal of a `groups:` list into configRuleGroups: every entry
   * is unmarshalled in order and the first entry that fails aborts the
   * whole document with that entry's error.
   */
  function ParseGroups(raws: seq<RawGroup>): (r: Result<seq<ConfigGroup>, DecodeError>)
    ensures r.Success? ==> |r.value| == |raws|
  {
    if raws == [] then Success([])
    else
      match UnmarshalGroup(raws[0])
      case Failure(e) => Failure(e)
      case Success(g) =>
        match ParseGroups(raws[1..])
        case Failure(e) => Failure(e)
        case Success(gs) => Success([g] + gs)
  }

  /** Every group of a parsed document carries a strategy. */
  lemma {:induction false} ParseGroupsResolved(raws: seq<RawGroup>)
    requires ParseGroups(raws).Success?
    ensures AllResolved(ParseGroups(raws).value)
  {
    if raws != [] {
      ParseGroupsResolved(raws[1..]);
      var gs := ParseGroups(raws[1..]).value;
      var g := UnmarshalGroup(raws[0]).value;
      var r := ParseGroups(raws).value;
      assert r == [g] + gs;
      forall i | 0 <= i < |r| ensures r[i].strategy.Some? {
        if i > 0 {
          assert r[i] == gs[i - 1];
        }
      }
    }
  }

  /** The document parses exactly when every entry unmarshals. */
  lemma {:induction false} ParseGroupsSucceeds(raws: seq<RawGroup>)
    ensures ParseGroups(raws).Success? <==> forall i :: 0 <= i < |raws| ==> UnmarshalGroup(raws[i]).Success?
  {
    if raws != [] {
      ParseGroupsSucceeds(raws[1..]);
      assert forall i :: 1 <= i < |raws| ==> raws[i] == raws[1..][i - 1];
    }
  }

  /** When it parses, entry i of the result is entry i unmarshalled. */
  lemma {:induction false} ParseGroupsValues(raws: seq<RawGroup>, i: int)
    requires ParseGroups(raws).Success? && 0 <= i < |raws|
    ensures UnmarshalGroup(raws[i]).Success? && ParseGroups(raws).value[i] == UnmarshalGroup(raws[i]).value
  {
    if i > 0 {
      assert raws[i] == raws[1..][i - 1];
      ParseGroupsValues(raws[1..], i - 1);
    }
  }

  /** Otherwise the document fails with the error of the first entry that does not unmarshal. */
  lemma {:induction false} ParseGroupsFailure(raws: seq<RawGroup>, k: int)
    requires 0 <= k < |raws| && FirstFailure(raws, k)
    ensures ParseGroups(raws) == Failure(UnmarshalGroup(raws[k]).error)
  {
    if k > 0 {
      assert UnmarshalGroup(raws[0]).Success?;
      assert FirstFailure(raws[1..], k - 1) by {
        assert forall j :: 1 <= j < |raws| ==> raws[j] == raws[1..][j - 1];
      }
      ParseGroupsFailure(raws[1..], k - 1);
    }
  }

  /** Entry k is the first entry that fails to unmarshal. */
  ghost predicate FirstFailure(raws: seq<RawGroup>, k: int)
    requires 0 <= k < |raws|
  {
    UnmarshalGroup(raws[k]).Failure? && forall j :: 0 <= j < k ==> UnmarshalGroup(raws[j]).Success?
  }

  /** yaml.Unmarshal of a whole rule file: a syntax failure or the group list. */
  function ParseDocument(doc: Result<seq<RawGroup>, string>): Result<seq<ConfigGroup>, DecodeError> {
    match doc
    case Failure(e) => Failure(SyntaxError(e))
    case Success(raws) => ParseGroups(raws)
  }

  /** A rule file parses exactly when it is well-formed YAML and every entry unmarshals. */
  lemma ParseDocumentSucceeds(doc: Result<seq<RawGroup>, string>)
    ensures ParseDocument(doc).Success? <==>
      doc.Success? && forall i :: 0 <= i < |doc.value| ==> UnmarshalGroup(doc.value[i]).Success?
  {
    if doc.Success? {
      ParseGroupsSucceeds(doc.value);
    }
  }

  /** A parsed rule file holds one group per entry, each with a strategy. */
  lemma ParseDocumentResolved(doc: Result<seq<RawGroup>, string>)
    requires ParseDocument(doc).Success?
    ensures doc.Success? && |ParseDocument(doc).value| == |doc.value|
    ensures AllResolved(ParseDocument(doc).value)
  {
    ParseGroupsResolved(doc.value);
  }

  /** Group i of a parsed rule file is entry i unmarshalled. */
  lemma ParseDocumentValues(doc: Result<seq<RawGroup>, string>, i: int)
    requires ParseDocument(doc).Success? && 0 <= i < |ParseDocument(doc).value|
    ensures doc.Success? && UnmarshalGroup(doc.value[i]).Success?
    ensures ParseDocument(doc).value[i] == UnmarshalGroup(doc.value[i]).value
  {
    ParseGroupsValues(doc.value, i);
  }

  /**
   * A rule file that is not YAML fails with the syntax error; one that is
   * fails with the error of its first entry that does not unmarshal.
   */
  lemma ParseDocumentFailure(doc: Result<seq<RawGroup>, string>, k: int)
    requires doc.Success? ==> 0 <= k < |doc.value| && FirstFailure(doc.value, k)
    ensures doc.Failure? ==> ParseDocument(doc) == Failure(SyntaxError(doc.error))
    ensures doc.Success? ==> ParseDocument(doc) == Failure(UnmarshalGroup(doc.value[k]).error)
  {
    if doc.Success? {
      ParseGroupsFailure(doc.value, k);
    }
  }
}
