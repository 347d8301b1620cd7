/** The threshold evaluator (`sendNotify`): from one battery snapshot, the
    "state changed" flag and the configured thresholds it decides which
    notifications fire, in which order, and how long the loop then sleeps. */
module Evaluator {
  import opened Battery

  const PowerChangeTitle: string := "Power Change."

  /** The informational notification announcing the state just entered. */
  function PowerChange(s: BatteryState): Notification {
    Notification(Normal, PowerChangeTitle, NowState(s))
  }

  function BatteryLow(remaining: Duration): Notification {
    Notification(Critical, "BATTERY LOW!", GettingCritical(remaining))
  }

  function HeadsUp(remaining: Duration): Notification {
    Notification(Normal, "Heads up!!", JuiceLeft(remaining))
  }

  function BatteryDeadAlert(remaining: Duration): Notification {
    Notification(Critical, "BATTERY DEAD!", BatteryDead(remaining))
  }

  const CannotTell: Notification :=
    Notification(Critical, "Oh Noosss!", Text("I can't figure out battery state!"))

  /** A state-change notification, as opposed to a severity notification. */
  predicate IsStateChange(n: Notification) {
    n.title == PowerChangeTitle
  }

  /** The states whose only possible output is the state-change notification. */
  predicate Quiet(s: BatteryState) {
    s == Charging || s == FullCharged || s == PendingCharge || s == PendingDischarge
  }

  /** The severity notifications among `notes`, in order. */
  function Alerts(notes: seq<Notification>): (r: seq<Notification>)
    ensures |r| <= |notes|
    ensures forall n | n in r :: n in notes && !IsStateChange(n)
  {
    if notes == [] then []
    else if IsStateChange(notes[0]) then Alerts(notes[1..])
    else [notes[0]] + Alerts(notes[1..])
  }

  /** What one evaluation emits, and the pause the loop takes after it. */
  datatype Outcome = Outcome(notes: seq<Notification>, sleep: Option<Duration>)

  /** The severity part of the evaluation: a switch on the snapshot's state,
      with the critical threshold tested before the warn threshold. */
  function SeverityAlert(b: Snapshot, cfg: Config): (r: Outcome)
    ensures |r.notes| <= 1
    ensures forall n | n in r.notes :: !IsStateChange(n)
    ensures r.sleep.Some? ==> r.notes != []
  {
    match b.state
    case Discharging =>
      if b.timeToEmpty < cfg.critical then
        Outcome([BatteryLow(b.timeToEmpty)], Some(Tenth(cfg.critical)))
      else if b.timeToEmpty < cfg.warn then
        Outcome([HeadsUp(b.timeToEmpty)], Some(Tenth(cfg.warn)))
      else
        Outcome([], None)
    case Empty => Outcome([BatteryDeadAlert(b.timeToEmpty)], None)
    case Charging => Outcome([], None)
    case FullCharged => Outcome([], None)
    case PendingCharge => Outcome([], None)
    case PendingDischarge => Outcome([], None)
    case Unrecognized(_) => Outcome([CannotTell], None)
  }

  /** `sendNotify`: a state-change notification first when `changed`, then
      at most one severity notification decided by the current state alone. */
  function SendNotify(b: Snapshot, changed: bool, cfg: Config): (r: Outcome)
    // order: the state-change notification, if any, comes first
    ensures r.notes == (if changed then [PowerChange(b.state)] else []) + Alerts(r.notes)
    ensures changed ==> |r.notes| >= 1 && r.notes[0] == PowerChange(b.state)
    ensures !changed ==> forall n | n in r.notes :: !IsStateChange(n)
    // at most two notifications, at most one of them a severity notification
    ensures |r.notes| <= 2 && |Alerts(r.notes)| <= 1
    // Discharging: critical is tested first, then warn
    ensures b.state == Discharging && b.timeToEmpty < cfg.critical ==>
              Alerts(r.notes) == [BatteryLow(b.timeToEmpty)] && r.sleep == Some(Tenth(cfg.critical))
    ensures b.state == Discharging && cfg.critical <= b.timeToEmpty < cfg.warn ==>
              Alerts(r.notes) == [HeadsUp(b.timeToEmpty)] && r.sleep == Some(Tenth(cfg.warn))
    ensures b.state == Discharging && b.timeToEmpty >= cfg.critical && b.timeToEmpty >= cfg.warn ==>
              Alerts(r.notes) == [] && r.sleep == None
    // Empty: always dead, whatever the durations
    ensures b.state == Empty ==> Alerts(r.notes) == [BatteryDeadAlert(b.timeToEmpty)] && r.sleep == None
    ensures Quiet(b.state) ==> Alerts(r.notes) == [] && r.sleep == None
    ensures b.state.Unrecognized? ==> Alerts(r.notes) == [CannotTell] && r.sleep == None
    // the loop pauses exactly after a low-battery alert
    ensures r.sleep.Some? <==>
              b.state == Discharging && (b.timeToEmpty < cfg.critical || b.timeToEmpty < cfg.warn)
  {
    var alert := SeverityAlert(b, cfg);
    var prefix := if changed then [PowerChange(b.state)] else [];
    NoStateChangeAlerts(alert.notes);
    AlertsAfterStateChange(b.state, alert.notes);
    Outcome(prefix + alert.notes, alert.sleep)
  }

  /** Filtering leaves a sequence of severity notifications as it is. */
  lemma {:induction false} NoStateChangeAlerts(notes: seq<Notification>)
    requires forall n | n in notes :: !IsStateChange(n)
    ensures Alerts(notes) == notes
  {
    if notes != [] {
      assert notes[0] in notes;
      NoStateChangeAlerts(notes[1..]);
    }
  }

  /** Filtering drops a leading state-change notification. */
  lemma AlertsAfterStateChange(s: BatteryState, notes: seq<Notification>)
    ensures Alerts([PowerChange(s)] + notes) == Alerts(notes)
  {
    assert ([PowerChange(s)] + notes)[1..] == notes;
  }

  /** The warn notification fires only strictly between the two thresholds:
      when `critical > warn` it never fires at all. */
  lemma WarnOnlyBetweenThresholds(b: Snapshot, changed: bool, cfg: Config)
    requires HeadsUp(b.timeToEmpty) in SendNotify(b, changed, cfg).notes
    ensures b.state == Discharging && cfg.critical <= b.timeToEmpty < cfg.warn
  {
    var r := SendNotify(b, changed, cfg);
    assert HeadsUp(b.timeToEmpty) in Alerts(r.notes) by {
      if changed {
        assert r.notes == [PowerChange(b.state)] + Alerts(r.notes);
      }
    }
  }
}
