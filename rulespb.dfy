/**
 * The wire records of the rules API (rulespb): what one engine's live
 * groups, rules and alerts are projected onto. Unset fields of a fresh
 * record hold the proto zero values.
 */
module RulesPb {
  import opened Strategies
  import opened Engine

  datatype AlertInstance = AlertInstance(
    strategy: Strategy, labels: Labels, annotations: Labels, state: AlertState,
    activeAt: Timestamp, value: Float64)

  datatype Alert = Alert(
    state: AlertState, name: string, query: string, duration: Duration,
    labels: Labels, annotations: Labels, alerts: seq<AlertInstance>,
    health: string, lastError: string, evaluationDuration: Duration, lastEvaluation: Timestamp)

  datatype RecordingRule = RecordingRule(
    name: string, query: string, labels: Labels,
    health: string, lastError: string, evaluationDuration: Duration, lastEvaluation: Timestamp)

  /** rulespb.Rule: its Result oneof is an alert or a recording rule. */
  datatype Rule = RuleAlert(alert: Alert) | RuleRecording(recording: RecordingRule)

  datatype RuleGroup = RuleGroup(
    name: string, file: Path, interval: Duration, strategy: Strategy, rules: seq<Rule>)

  /** `&rulespb.RuleGroup{}`: every field at its zero value (the zero strategy is WARN). */
  const EmptyGroup: RuleGroup := RuleGroup("", "", Duration(0), Zero, [])

  /** rulespb.RulesRequest_Type. */
  datatype RuleType = ALL | ALERTING | RECORDING
}
