/** The polling loop of the agent: on every tick it polls the power source,
    reports a failed poll, runs the threshold evaluator when the reading
    differs from the previous one, optionally mirrors the reading on the
    console, and keeps the reading as the baseline for the next tick. */
module Monitor {
  import opened Battery
  import opened Evaluator
  import opened Report

  /** What one poll of the power source gives back: a reading and, when the
      poll failed, the error. The loop goes on to use the reading even when
      an error came with it. */
  datatype Poll = Poll(update: Snapshot, err: Option<string>)

  /** The power source's own test of whether `update` differs from `old`
      (`update.Changed(old)`), which the agent does not define. */
  type ChangedTest = (Snapshot, Snapshot) -> bool

  function PollFailure(err: string): Notification {
    Notification(Critical, "Oh Noosss!", SomethingWrong(err))
  }

  /** A notification that reports a failed poll. */
  predicate IsPollFailure(n: Notification) {
    n.body.SomethingWrong?
  }

  function CountFailures(notes: seq<Notification>): nat {
    if notes == [] then 0
    else (if IsPollFailure(notes[0]) then 1 else 0) + CountFailures(notes[1..])
  }

  function CountErrors(polls: seq<Poll>): nat {
    if polls == [] then 0
    else (if polls[0].err.Some? then 1 else 0) + CountErrors(polls[1..])
  }

  function SleepList(sleep: Option<Duration>): seq<Duration> {
    if sleep.Some? then [sleep.value] else []
  }

  /** What one tick emits: notifications, console lines, and the pause. */
  datatype Effect = Effect(notes: seq<Notification>, console: seq<Line>, sleep: Option<Duration>)

  /** One tick against the previous reading. A poll error is reported first,
      by one Critical notification and the console marker; the evaluator
      then runs only if the power source says the reading changed, with the
      "changed" flag meaning that the state itself differs. */
  function TickEffect(previous: Snapshot, p: Poll, cfg: Config, changed: ChangedTest): (e: Effect)
    ensures p.err.Some? ==>
              |e.notes| >= 1 && e.notes[0] == PollFailure(p.err.value) &&
              |e.console| >= 1 && e.console[0] == ErrorMarker
    ensures CountFailures(e.notes) == (if p.err.Some? then 1 else 0)
    ensures !changed(p.update, previous) ==>
              e.notes == (if p.err.Some? then [PollFailure(p.err.value)] else []) &&
              e.console == (if p.err.Some? then [ErrorMarker] else []) &&
              e.sleep == None
    ensures changed(p.update, previous) ==>
              var r := SendNotify(p.update, previous.state != p.update.state, cfg);
              e.notes == (if p.err.Some? then [PollFailure(p.err.value)] else []) + r.notes &&
              e.console == (if p.err.Some? then [ErrorMarker] else []) +
                           (if cfg.report then [Format(p.update)] else []) &&
              e.sleep == r.sleep
    ensures |e.notes| <= 3 && |e.console| <= 2
  {
    var failed := if p.err.Some? then [PollFailure(p.err.value)] else [];
    var marker := if p.err.Some? then [ErrorMarker] else [];
    if changed(p.update, previous) then
      var r := SendNotify(p.update, previous.state != p.update.state, cfg);
      var line := if cfg.report then [Format(p.update)] else [];
      EvaluatorReportsNoPollFailure(p.update, previous.state != p.update.state, cfg);
      CountFailuresAppend(failed, r.notes);
      assert CountFailures(failed) == |failed| by {
        if failed != [] { assert failed[1..] == []; }
      }
      Effect(failed + r.notes, marker + line, r.sleep)
    else
      assert failed != [] ==> failed[1..] == [];
      Effect(failed, marker, None)
  }

  lemma {:induction false} CountFailuresAppend(a: seq<Notification>, b: seq<Notification>)
    ensures CountFailures(a + b) == CountFailures(a) + CountFailures(b)
  {
    if a != [] {
      assert (a + b)[1..] == a[1..] + b;
      CountFailuresAppend(a[1..], b);
    } else {
      assert a + b == b;
    }
  }

  /** The evaluator never emits a poll-failure notification. */
  lemma EvaluatorReportsNoPollFailure(b: Snapshot, changedState: bool, cfg: Config)
    ensures CountFailures(SendNotify(b, changedState, cfg).notes) == 0
  {
    var r := SendNotify(b, changedState, cfg);
    assert forall n | n in Alerts(r.notes) :: !IsPollFailure(n);
    assert forall n | n in r.notes :: !IsPollFailure(n) by {
      if changedState {
        assert r.notes == [PowerChange(b.state)] + Alerts(r.notes);
      }
    }
    NoPollFailureCounted(r.notes);
  }

  lemma {:induction false} NoPollFailureCounted(notes: seq<Notification>)
    requires forall n | n in notes :: !IsPollFailure(n)
    ensures CountFailures(notes) == 0
  {
    if notes != [] {
      assert notes[0] in notes;
      NoPollFailureCounted(notes[1..]);
    }
  }

  /** The outcome of a run of ticks: the final baseline reading and
      everything emitted, tick after tick. */
  datatype Trace = Trace(last: Snapshot, notes: seq<Notification>, console: seq<Line>, sleeps: seq<Duration>)

  /** The loop over a finite sequence of polls, starting from `previous`. */
  function Run(previous: Snapshot, polls: seq<Poll>, cfg: Config, changed: ChangedTest): (t: Trace)
    // after every tick, errors included, the baseline is that tick's reading
    ensures t.last == if polls == [] then previous else polls[|polls| - 1].update
    // every failed poll is reported exactly once
    ensures CountFailures(t.notes) == CountErrors(polls)
    ensures |t.notes| <= 3 * |polls| && |t.console| <= 2 * |polls| && |t.sleeps| <= |polls|
    decreases |polls|
  {
    if polls == [] then Trace(previous, [], [], [])
    else
      var e := TickEffect(previous, polls[0], cfg, changed);
      var rest := Run(polls[0].update, polls[1..], cfg, changed);
      CountFailuresAppend(e.notes, rest.notes);
      Trace(rest.last, e.notes + rest.notes, e.console + rest.console, SleepList(e.sleep) + rest.sleeps)
  }

  /** A run of ticks extended by one more tick. */
  function Extend(t: Trace, p: Poll, e: Effect): Trace {
    Trace(p.update, t.notes + e.notes, t.console + e.console, t.sleeps + SleepList(e.sleep))
  }

  /** Running one more poll is one more tick against the run's last reading. */
  lemma {:induction false} RunSnoc(previous: Snapshot, polls: seq<Poll>, p: Poll, cfg: Config, changed: ChangedTest)
    ensures var t := Run(previous, polls, cfg, changed);
            Run(previous, polls + [p], cfg, changed) == Extend(t, p, TickEffect(t.last, p, cfg, changed))
    decreases |polls|
  {
    if polls == [] {
      assert polls + [p] == [p];
      assert [p][1..] == [];
    } else {
      var q, tail := polls[0], polls[1..];
      var e := TickEffect(previous, q, cfg, changed);
      var rest := Run(q.update, tail, cfg, changed);
      var e' := TickEffect(rest.last, p, cfg, changed);
      var longer := Run(q.update, tail + [p], cfg, changed);
      assert Run(previous, polls + [p], cfg, changed)
          == Trace(longer.last, e.notes + longer.notes, e.console + longer.console,
                   SleepList(e.sleep) + longer.sleeps) by {
        assert (polls + [p])[0] == q;
        assert (polls + [p])[1..] == tail + [p];
      }
      assert Run(previous, polls, cfg, changed)
          == Trace(rest.last, e.notes + rest.notes, e.console + rest.console,
                   SleepList(e.sleep) + rest.sleeps);
      RunSnoc(q.update, tail, p, cfg, changed);
      PrependExtend(e, rest, p, e');
    }
  }

  /** One tick in front of a run, then one behind it, in either grouping. */
  lemma PrependExtend(e: Effect, t: Trace, p: Poll, e': Effect)
    ensures var x := Extend(t, p, e');
            Trace(x.last, e.notes + x.notes, e.console + x.console, SleepList(e.sleep) + x.sleeps)
            == Extend(Trace(t.last, e.notes + t.notes, e.console + t.console, SleepList(e.sleep) + t.sleeps), p, e')
  {
    assert e.notes + (t.notes + e'.notes) == (e.notes + t.notes) + e'.notes;
    assert e.console + (t.console + e'.console) == (e.console + t.console) + e'.console;
  }

  /** The run over the first `i + 1` polls is the run over the first `i`
      extended by tick `i`. */
  lemma RunPrefixStep(previous: Snapshot, polls: seq<Poll>, i: nat, cfg: Config, changed: ChangedTest)
    requires i < |polls|
    ensures var t := Run(previous, polls[..i], cfg, changed);
            Run(previous, polls[..i + 1], cfg, changed)
            == Extend(t, polls[i], TickEffect(t.last, polls[i], cfg, changed))
  {
    assert polls[..i + 1] == polls[..i] + [polls[i]];
    RunSnoc(previous, polls[..i], polls[i], cfg, changed);
  }

  lemma AppendAssoc<T>(a: seq<T>, b: seq<T>, c: seq<T>)
    ensures (a + b) + c == a + (b + c)
  {
  }

  /** Output so far, then a run, then one more tick, in either grouping. */
  lemma AppendExtend(notes0: seq<Notification>, console0: seq<Line>, sleeps0: seq<Duration>, t: Trace, p: Poll, e: Effect)
    ensures var x := Extend(t, p, e);
            (notes0 + t.notes) + e.notes == notes0 + x.notes &&
            (console0 + t.console) + e.console == console0 + x.console &&
            (sleeps0 + t.sleeps) + SleepList(e.sleep) == sleeps0 + x.sleeps
  {
  }

  /** The agent's running state: the configuration, the power source's
      change test, the previous reading, and what has been emitted so far. */
  class Agent {
    const cfg: Config
    const changed: ChangedTest
    var previous: Snapshot
    var notes: seq<Notification>
    var console: seq<Line>
    var sleeps: seq<Duration>

    /** Start-up: one Low notification with the configured title and
        message; the baseline is the zero reading, not the reading taken
        at start-up. */
    constructor (cfg: Config, changed: ChangedTest, startTitle: string, startMessage: string)
      ensures this.cfg == cfg && this.changed == changed
      ensures previous == ZeroSnapshot
      ensures notes == [Notification(Low, startTitle, Text(startMessage))]
      ensures console == [] && sleeps == []
    {
      this.cfg := cfg;
      this.changed := changed;
      previous := ZeroSnapshot;
      notes := [Notification(Low, startTitle, Text(startMessage))];
      console := [];
      sleeps := [];
    }

    /** The agent's state is the outcome of run `t` appended to the given
        earlier output. */
    ghost predicate Follows(notes0: seq<Notification>, console0: seq<Line>, sleeps0: seq<Duration>, t: Trace)
      reads this
    {
      previous == t.last && notes == notes0 + t.notes &&
      console == console0 + t.console && sleeps == sleeps0 + t.sleeps
    }

    /** One iteration of the polling loop. */
    method Tick(p: Poll)
      modifies this
      ensures previous == p.update
      ensures var e := TickEffect(old(previous), p, cfg, changed);
              notes == old(notes) + e.notes &&
              console == old(console) + e.console &&
              sleeps == old(sleeps) + SleepList(e.sleep)
    {
      ghost var notes0, console0, sleeps0 := notes, console, sleeps;
      var failed := if p.err.Some? then [PollFailure(p.err.value)] else [];
      var marker := if p.err.Some? then [ErrorMarker] else [];
      notes := notes + failed;
      console := console + marker;
      if changed(p.update, previous) {
        var r := SendNotify(p.update, previous.state != p.update.state, cfg);
        var line := if cfg.report then [Format(p.update)] else [];
        notes := notes + r.notes;
        sleeps := sleeps + SleepList(r.sleep);
        console := console + line;
        AppendAssoc(notes0, failed, r.notes);
        AppendAssoc(console0, marker, line);
      }
      previous := p.update;
    }

    /** The polling loop over the given polls, one tick each. */
    method RunTicks(polls: seq<Poll>)
      modifies this
      ensures var t := Run(old(previous), polls, cfg, changed);
              previous == t.last &&
              notes == old(notes) + t.notes &&
              console == old(console) + t.console &&
              sleeps == old(sleeps) + t.sleeps
    {
      ghost var start, notes0, console0, sleeps0 := previous, notes, console, sleeps;
      for i := 0 to |polls|
        invariant Follows(notes0, console0, sleeps0, Run(start, polls[..i], cfg, changed))
      {
        ghost var t := Run(start, polls[..i], cfg, changed);
        ghost var e := TickEffect(t.last, polls[i], cfg, changed);
        RunPrefixStep(start, polls, i, cfg, changed);
        Tick(polls[i]);
        AppendExtend(notes0, console0, sleeps0, t, polls[i], e);
      }
      assert polls[..|polls|] == polls;
    }
  }
}
