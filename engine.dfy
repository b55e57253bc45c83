/**
 * The live state of one rule evaluation engine (prometheus rules.Manager),
 * a collaborator that is not part of this model: only what the
 * orchestrator reads from it and the one reconfiguration it asks of it.
 * Floating-point quantities (durations in seconds, sample values) are
 * carried as opaque values; their conversion and formatting are not modelled.
 */
module Engine {
  import opened Wrappers

  type Path = string
  type Labels = seq<(string, string)>

  /** A time.Duration, in nanoseconds. */
  datatype Duration = Duration(nanos: int)
  /** A time.Time. */
  datatype Timestamp = Timestamp(unixNanos: int)
  /** A float64 sample value, by its IEEE-754 bits. */
  datatype Float64 = Float64(bits: bv64)

  datatype AlertState = Inactive | Pending | Firing

  /** rules.Alert: one active alert instance of an alerting rule. */
  datatype LiveAlert = LiveAlert(
    labels: Labels, annotations: Labels, state: AlertState, activeAt: Timestamp, value: Float64)

  /** What a rule reports about its last evaluation; `lastError` is None for a nil error. */
  datatype EvalInfo = EvalInfo(
    health: string, lastError: Option<string>, evalDuration: Duration, lastEvaluation: Timestamp)

  /** rules.AlertingRule; `active` is what ActiveAlerts() returns. */
  datatype AlertingRuleState = AlertingRuleState(
    name: string, query: string, holdDuration: Duration, labels: Labels, annotations: Labels,
    state: AlertState, active: seq<LiveAlert>, info: EvalInfo)

  /** rules.RecordingRule. */
  datatype RecordingRuleState = RecordingRuleState(
    name: string, query: string, labels: Labels, info: EvalInfo)

  /**
   * rules.Rule: an alerting rule, a recording rule, or any other
   * implementation of the interface (which the projection refuses).
   */
  datatype LiveRule =
    | Alerting(alerting: AlertingRuleState)
    | Recording(recording: RecordingRuleState)
    | Other(otherName: string)
  {
    /** rules.Rule.Name(). */
    function Name(): string {
      match this
      case Alerting(a) => a.name
      case Recording(r) => r.name
      case Other(n) => n
    }
  }

  /** rules.Group: `file` is the scratch file the engine loaded it from. */
  datatype LiveGroup = LiveGroup(name: string, file: Path, interval: Duration, rules: seq<LiveRule>)

  /** One engine: the last interval and file list it accepted and the groups it runs. */
  datatype EngineState = EngineState(interval: Duration, files: seq<Path>, groups: seq<LiveGroup>)

  /** A freshly created engine runs nothing. */
  const Fresh: EngineState := EngineState(Duration(0), [], [])

  /** The alerting rules of a rule list, in order. */
  function AlertingIn(rules: seq<LiveRule>): (r: seq<AlertingRuleState>)
    ensures |r| <= |rules|
    ensures forall a :: a in r <==> Alerting(a) in rules
  {
    if rules == [] then []
    else
      var last := rules[|rules| - 1];
      AlertingIn(rules[..|rules| - 1]) + (if last.Alerting? then [last.alerting] else [])
  }

  /** rules.Manager.AlertingRules(): the alerting rules of all its groups, group by group. */
  function AlertingRulesOf(groups: seq<LiveGroup>): (r: seq<AlertingRuleState>)
    ensures forall a :: a in r <==> exists i :: 0 <= i < |groups| && Alerting(a) in groups[i].rules
  {
    if groups == [] then []
    else
      var front := groups[..|groups| - 1];
      var r := AlertingRulesOf(front) + AlertingIn(groups[|groups| - 1].rules);
      assert forall i :: 0 <= i < |front| ==> front[i] == groups[i];
      r
  }
}
