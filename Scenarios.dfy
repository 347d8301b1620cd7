/** Worked examples of the agent's behaviour, each on concrete readings. */
module Scenarios {
  import opened Battery
  import opened Evaluator
  import opened Report
  import opened Monitor

  /** Discharging from 25 to 8 minutes left, with the default thresholds:
      one Critical low-battery notification, no state-change notification,
      and a pause of one tenth of the critical threshold (one minute). */
  lemma DischargingBelowCritical(changed: ChangedTest)
    requires changed(Snapshot(Discharging, 15.0, 8 * Minute, 0), Snapshot(Discharging, 50.0, 25 * Minute, 0))
    ensures var e := TickEffect(Snapshot(Discharging, 50.0, 25 * Minute, 0),
                                Poll(Snapshot(Discharging, 15.0, 8 * Minute, 0), None),
                                DefaultConfig, changed);
            e.notes == [BatteryLow(8 * Minute)] && e.sleep == Some(Minute)
  {
  }

  /** From charging to fully charged: the state-change notification only. */
  lemma ChargingToFull(changed: ChangedTest)
    requires changed(Snapshot(FullCharged, 100.0, 0, 0), Snapshot(Charging, 99.0, 0, 0))
    ensures var e := TickEffect(Snapshot(Charging, 99.0, 0, 0),
                                Poll(Snapshot(FullCharged, 100.0, 0, 0), None),
                                DefaultConfig, changed);
            e.notes == [PowerChange(FullCharged)] && e.sleep == None
  {
  }

  /** A failed poll whose reading the power source does not consider changed:
      exactly one Critical notification, the console marker, and the
      reading still becomes the baseline of the next tick. */
  lemma FailedPoll(previous: Snapshot, reading: Snapshot, err: string, changed: ChangedTest)
    requires !changed(reading, previous)
    ensures var e := TickEffect(previous, Poll(reading, Some(err)), DefaultConfig, changed);
            e.notes == [PollFailure(err)] && e.notes[0].severity == Critical &&
            e.console == [ErrorMarker] && e.sleep == None
    ensures Run(previous, [Poll(reading, Some(err))], DefaultConfig, changed).last == reading
  {
  }

  /** The first tick after start-up compares against the zero reading, so a
      first reading in any named state that the power source reports as
      changed announces that state. */
  lemma FirstTickAnnouncesState(p: Poll, cfg: Config, changed: ChangedTest)
    requires p.err.None? && !p.update.state.Unrecognized?
    requires changed(p.update, ZeroSnapshot)
    ensures var e := TickEffect(ZeroSnapshot, p, cfg, changed);
            |e.notes| >= 1 && e.notes[0] == PowerChange(p.update.state)
  {
  }

  /** With the console report on, the reading's line follows the evaluation. */
  lemma ReportedLine(previous: Snapshot, p: Poll, changed: ChangedTest)
    requires p.err.None? && changed(p.update, previous)
    ensures TickEffect(previous, p, Config(10 * Minute, 20 * Minute, true), changed).console
            == [Format(p.update)]
  {
  }
}
