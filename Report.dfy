/** The console report (`print`): one line per evaluated reading, whose
    format depends on the battery state, and the marker the loop writes
    when a poll fails. Lines are kept as tagged values carrying what they
    show; the textual rendering of numbers and durations is not modelled. */
module Report {
  import opened Battery

  datatype Line =
    | ChargingLine(percentage: real, timeToFull: Duration)      // C(<pct>%):<timeToFull>
    | DischargingLine(percentage: real, timeToEmpty: Duration)  // D(<pct>%):<timeToEmpty>
    | DeadLine                                                  // DEAD!
    | FullLine(percentage: real)                                // F:<pct>%
    | PendingChargeLine                                         // PC
    | PendingDischargeLine                                      // PD
    | UnknownLine(state: BatteryState)                          // UNKN(<state>)
    | ErrorMarker                                               // ERROR!!

  /** The battery state a report line stands for; the error marker stands
      for none. */
  function ShownState(line: Line): Option<BatteryState> {
    match line
    case ChargingLine(_, _) => Some(Charging)
    case DischargingLine(_, _) => Some(Discharging)
    case DeadLine => Some(Empty)
    case FullLine(_) => Some(FullCharged)
    case PendingChargeLine => Some(PendingCharge)
    case PendingDischargeLine => Some(PendingDischarge)
    case UnknownLine(s) => Some(s)
    case ErrorMarker => None
  }

  /** The charge percentage a line shows, if it shows one. */
  function ShownPercentage(line: Line): Option<real> {
    match line
    case ChargingLine(p, _) => Some(p)
    case DischargingLine(p, _) => Some(p)
    case FullLine(p) => Some(p)
    case _ => None
  }

  /** The remaining time a line shows, if it shows one. */
  function ShownDuration(line: Line): Option<Duration> {
    match line
    case ChargingLine(_, t) => Some(t)
    case DischargingLine(_, t) => Some(t)
    case _ => None
  }

  /** `print`: a total mapping from a snapshot to its report line. The line
      identifies the state, shows the percentage only while charging,
      discharging or full, and shows the remaining time that belongs to the
      state: time to full while charging, time to empty while discharging.
      Only a state outside the six named ones gets the `UNKN` line. */
  function Format(b: Snapshot): (line: Line)
    ensures ShownState(line) == Some(b.state)
    ensures line.UnknownLine? <==> b.state.Unrecognized?
    ensures ShownPercentage(line) ==
              if b.state in {Charging, Discharging, FullCharged} then Some(b.percentage) else None
    ensures ShownDuration(line) ==
              if b.state == Charging then Some(b.timeToFull)
              else if b.state == Discharging then Some(b.timeToEmpty)
              else None
  {
    match b.state
    case Charging => ChargingLine(b.percentage, b.timeToFull)
    case Discharging => DischargingLine(b.percentage, b.timeToEmpty)
    case Empty => DeadLine
    case FullCharged => FullLine(b.percentage)
    case PendingCharge => PendingChargeLine
    case PendingDischarge => PendingDischargeLine
    case Unrecognized(_) => UnknownLine(b.state)
  }

  /** Readings that agree on the fields their state makes meaningful get
      the same line: the report ignores everything else. */
  lemma FormatIgnoresUnshownFields(a: Snapshot, b: Snapshot)
    requires a.state == b.state
    requires a.state in {Charging, Discharging, FullCharged} ==> a.percentage == b.percentage
    requires a.state == Charging ==> a.timeToFull == b.timeToFull
    requires a.state == Discharging ==> a.timeToEmpty == b.timeToEmpty
    ensures Format(a) == Format(b)
  {
  }
}
