/** Values shared by the threshold evaluator, the console report and the
    polling loop: battery snapshots, durations, notifications and the
    thresholds the agent is configured with. */
module Battery {

  datatype Option<+T> = None | Some(value: T)

  const MinDuration: int := -0x8000_0000_0000_0000
  const MaxDuration: int := 0x7FFF_FFFF_FFFF_FFFF

  /** A duration in nanoseconds, a signed 64-bit integer. */
  type Duration = d: int | MinDuration <= d <= MaxDuration

  /** One tenth of a duration, rounded toward zero as integer division
      does on a signed 64-bit duration (`critical / 10`, `warn / 10`). */
  function Tenth(d: Duration): (r: Duration)
    ensures d >= 0 ==> 0 <= d - 10 * r < 10
    ensures d < 0 ==> -10 < d - 10 * r <= 0
  {
    if d >= 0 then d / 10 else -((-(d as int)) / 10)
  }

  /** The operating state the power source reports. The six named states are
      the ones the agent distinguishes; every other value the source can
      report (its "unknown" state, the zero value among them) is
      `Unrecognized`, carrying the raw code. By convention `code` is never
      the code of one of the six named states: a reading in a named state is
      always the named constructor, so equal states are equal values. */
  datatype BatteryState =
    | Charging
    | Discharging
    | Empty
    | FullCharged
    | PendingCharge
    | PendingDischarge
    | Unrecognized(code: int)

  /** One reading of the power source. The percentage is a floating-point
      value in the source; it is only ever carried along, never compared. */
  datatype Snapshot = Snapshot(
    state: BatteryState,
    percentage: real,
    timeToEmpty: Duration,
    timeToFull: Duration)

  /** The zero-valued snapshot the loop compares its first reading against. */
  const ZeroSnapshot: Snapshot := Snapshot(Unrecognized(0), 0.0, 0, 0)

  /** Urgency levels of the notification sink. */
  datatype Severity = Low | Normal | Critical

  /** The body of a notification: a fixed text, or one of the agent's
      messages with the values it interpolates. */
  datatype Body =
    | Text(text: string)
    | NowState(state: BatteryState)               // we are now <state>
    | GettingCritical(remaining: Duration)        // <remaining> to go
    | JuiceLeft(remaining: Duration)              // only <remaining> of juice
    | BatteryDead(remaining: Duration)            // battery is dead, <remaining> to go
    | SomethingWrong(error: string)               // the poll failed with <error>

  datatype Notification = Notification(severity: Severity, title: string, body: Body)

  /** The thresholds and switches the agent runs with. */
  datatype Config = Config(critical: Duration, warn: Duration, report: bool)

  /** The agent's default thresholds: 10 minutes critical, 20 minutes warn,
      console report off. */
  const Minute: int := 60 * 1_000_000_000
  const DefaultConfig: Config := Config(10 * Minute, 20 * Minute, false)
}
