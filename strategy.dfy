/**
 * The partial response strategy enum and the lookup that resolves the
 * `partial_response_strategy` tag of a rule group (pkg/rules/manager.go,
 * configRuleGroup.UnmarshalYAML, lines 204-216).
 */
module Strategies {
  import opened Wrappers

  /** storepb.PartialResponseStrategy; WARN is the proto enum's zero value. */
  datatype Strategy = WARN | ABORT

  const AllStrategies: seq<Strategy> := [WARN, ABORT]
  const Zero: Strategy := WARN

  lemma AllStrategiesComplete()
    ensures forall s: Strategy :: s in AllStrategies
  {
    forall s: Strategy ensures s in AllStrategies {
      match s
      case WARN =>
      case ABORT =>
    }
  }

  /** Strategy.String(): the canonical (upper-case) enum name. */
  function Name(s: Strategy): (r: string)
    ensures r != [] && '.' !in r && '/' !in r
  {
    match s
    case WARN => "WARN"
    case ABORT => "ABORT"
  }

  lemma NameInjective(s: Strategy, t: Strategy)
    ensures Name(s) == Name(t) <==> s == t
  {
  }

  /** strings.ToUpper, on the ASCII letters. */
  function UpperChar(c: char): char {
    if 'a' <= c <= 'z' then (c as int - 32) as char else c
  }

  function LowerChar(c: char): char {
    if 'A' <= c <= 'Z' then (c as int + 32) as char else c
  }

  function Upper(s: string): (r: string)
    ensures |r| == |s|
    ensures forall i :: 0 <= i < |s| ==> r[i] == UpperChar(s[i])
  {
    if s == [] then [] else [UpperChar(s[0])] + Upper(s[1..])
  }

  function Lower(s: string): (r: string)
    ensures |r| == |s|
    ensures forall i :: 0 <= i < |s| ==> r[i] == LowerChar(s[i])
  {
    if s == [] then [] else [LowerChar(s[0])] + Lower(s[1..])
  }

  /** storepb.PartialResponseStrategy_value: enum name to member. */
  function Lookup(name: string): (r: Option<Strategy>)
    ensures forall s :: r == Some(s) <==> Name(s) == name
  {
    if name == "WARN" then Some(WARN)
    else if name == "ABORT" then Some(ABORT)
    else None
  }

  /** The error UnmarshalYAML returns for a tag naming no strategy; it carries the tag. */
  datatype StrategyError = InvalidStrategy(got: string)

  /**
   * Resolve a tag: its upper-case form is looked up; a miss on the
   * empty tag (the field absent or empty) defaults to ABORT; any other
   * miss is an error carrying the tag as given.
   */
  function ParseStrategy(tag: string): (r: Result<Strategy, StrategyError>)
    ensures r.Success? ==> (tag == [] && r.value == ABORT) || Upper(tag) == Name(r.value)
    ensures r.Failure? <==> tag != [] && forall s :: Upper(tag) != Name(s)
    ensures r.Failure? ==> r.error == InvalidStrategy(tag)
  {
    match Lookup(Upper(tag))
    case Some(s) => Success(s)
    case None => if tag != [] then Failure(InvalidStrategy(tag)) else Success(ABORT)
  }

  lemma ParseEmptyIsAbort()
    ensures ParseStrategy("") == Success(ABORT)
  {
  }

  /** Matching is case-insensitive: any spelling whose upper-case form is a name resolves to it. */
  lemma ParseCaseInsensitive(tag: string, s: Strategy)
    requires Upper(tag) == Name(s)
    ensures ParseStrategy(tag) == Success(s)
  {
  }

  lemma {:induction false} UpperOfLower(s: string)
    requires forall i :: 0 <= i < |s| ==> 'A' <= s[i] <= 'Z'
    ensures Upper(Lower(s)) == s
  {
    var l := Lower(s);
    var u := Upper(l);
    forall i | 0 <= i < |s|
      ensures u[i] == s[i]
    {
      assert l[i] == LowerChar(s[i]);
      assert 'A' <= s[i] <= 'Z';
      assert 'a' <= l[i] <= 'z';
      assert u[i] == UpperChar(l[i]);
    }
  }

  /** The lower-case spelling used in configuration files, e.g. `warn`, resolves to its member. */
  lemma ParseLowerName(s: Strategy)
    ensures ParseStrategy(Lower(Name(s))) == Success(s)
  {
    UpperOfLower(Name(s));
  }

  /** A canonical name re-parses to the member it names. */
  lemma ParseName(s: Strategy)
    ensures ParseStrategy(Name(s)) == Success(s)
  {
    var n := Name(s);
    assert Upper(n) == n by {
      forall i | 0 <= i < |n| ensures Upper(n)[i] == n[i] {
        assert 'A' <= n[i] <= 'Z';
      }
    }
  }

  /** Two tags with the same upper-case form resolve alike when both succeed. */
  lemma ParseDependsOnUpperOnly(t1: string, t2: string)
    requires t1 != [] && t2 != [] && Upper(t1) == Upper(t2)
    ensures ParseStrategy(t1).Success? <==> ParseStrategy(t2).Success?
    ensures ParseStrategy(t1).Success? ==> ParseStrategy(t1) == ParseStrategy(t2)
  {
  }
}
