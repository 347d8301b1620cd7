# upower-notify: battery threshold evaluator and polling loop

upower-notify is a desktop agent. It polls the UPower power-management
service for the battery's state and raises desktop notifications when that
state changes or the remaining time crosses the configured thresholds. This
project models the decision logic of `main.go` and proves what it does:

- **Threshold evaluator** (`sendNotify`), module `Evaluator`. A pure function
  takes a battery snapshot, the "state changed" flag and the thresholds. It
  returns the notifications that fire, in order, and the pause the loop then
  takes. A notification records its severity, its title and a tagged body
  that carries the values the message interpolates.
- **Console report** (`print`), module `Report`. A total mapping from a
  snapshot to a tagged report line. The loop's `ERROR!!` marker is modelled
  as one more line.
- **Polling loop** (the body of `for range time.Tick` in `main`), module
  `Monitor`:
  - `TickEffect` states one tick as a function.
  - `Run` folds `TickEffect` over a finite sequence of polls.
  - The class `Agent` holds the previous reading and the output so far.
    Its `Tick` and `RunTicks` methods update them in place and are proved
    against `TickEffect` and `Run`.
  - The constructor sends the start-up notification and sets the baseline
    to the zero reading.
- Module `Battery` holds the shared values: the seven-way state, snapshots,
  signed 64-bit durations in nanoseconds, severities and notifications.
  Module `Scenarios` works through concrete readings.

Modelling decisions:

- The power source's poll (`up.Get`) is a `Poll` value: the reading plus an
  optional error. In Go both come back together, and the loop uses the
  reading even when an error came with it.
- The power source's change test (`update.Changed(old)`) belongs to the
  `upower` package, which is not part of this model. It is a function-valued
  parameter, `ChangedTest`, and nothing is assumed about it.
- Notifications are appended to an output sequence instead of being sent.
  The sleep after an alert is returned as data, and `Agent` logs it.
- `critical / 10` and `warn / 10` are Go integer division on `int64`, which
  truncates toward zero. `Battery.Tenth` states this, including for negative
  thresholds.
- The six named states are the cases the code switches on. Every other state
  value, including the zero value that the first comparison uses, is
  `Unrecognized(code)`.

On a failed poll the loop does not stop (`main.go:84-95`):

- After reporting the error, the loop still evaluates the reading returned
  with the error: if the power source reports a change, the evaluator runs
  on that reading.
- The reading returned with the error becomes the baseline, as on every
  other tick.

The reading taken at start-up (`main.go:66`) is overwritten by the first
tick's poll (`main.go:84`) and is never compared. The first tick compares
against the zero reading (`main.go:81`).

The model does not say whether alerting on the reading returned with an
error is harmful. That depends on what the `upower` package returns
alongside an error.

## Model

| member | source | states |
|---|---|---|
| Battery.Tenth | main.go:130 | the pause length is the threshold divided by ten, rounded toward zero for negative thresholds as well as positive ones |
| Evaluator.SeverityAlert | main.go:123-143 | the severity part emits at most one notification and never a state-change one, and a pause only comes with a notification |
| Evaluator.SendNotify | main.go:118-144 | when changed, the first notification is the Normal "Power Change." for the new state, and when not changed there is no state-change notification at all; at most two notifications, at most one a severity one; Discharging below critical gives exactly Critical "BATTERY LOW!" and a pause of critical/10; from critical up to below warn it gives exactly Normal "Heads up!!" and a pause of warn/10; at or above both thresholds it gives nothing and no pause; Empty always gives Critical "BATTERY DEAD!"; Charging, FullCharged, PendingCharge and PendingDischarge give nothing; any other state gives Critical "Oh Noosss!"; a pause happens exactly when discharging below one of the thresholds |
| Evaluator.WarnOnlyBetweenThresholds | main.go:127-133 | the warn notification fires only while discharging with critical <= time-to-empty < warn, because the critical test comes first; so it never fires when critical > warn |
| Report.Format | main.go:99-116 | every state has a line that identifies it, and only a state outside the six named ones gets the `UNKN` line, so Empty, PendingCharge and PendingDischarge get `DEAD!`, `PC` and `PD`; the line shows the percentage exactly for Charging, Discharging and FullCharged, time to full for Charging and time to empty for Discharging |
| Report.FormatIgnoresUnshownFields | main.go:99-116 | two readings that agree on the state and on the fields the state's line shows produce the same line |
| Monitor.TickEffect | main.go:84-95 | a poll error gives one Critical poll-failure notification and the console marker, first; without a reported change, nothing else happens; with one, the evaluator runs with the flag "state differs from the previous state", and the report line follows when reporting is on; exactly one poll-failure notification per failed poll; at most three notifications and two console lines per tick |
| Monitor.EvaluatorReportsNoPollFailure | main.go:118-144 | the evaluator never emits a poll-failure notification, so failures in the output come from the loop alone |
| Monitor.Run | main.go:83-96 | after a run of ticks, the baseline is the last poll's reading, errors included; exactly one poll-failure notification per failed poll; at most three notifications, two console lines and one pause per tick |
| Monitor.RunSnoc | main.go:83-96 | running one more poll is one more tick against the previous run's last reading |
| Monitor.Agent.constructor | main.go:76-81 | start-up sends one Low notification with the configured title and message; the baseline is the zero reading and the other logs start empty |
| Monitor.Agent.Tick | main.go:84-95 | one loop iteration appends exactly that tick's notifications, console lines and pause, and the baseline becomes the tick's reading |
| Monitor.Agent.RunTicks | main.go:83-96 | running the loop over a sequence of polls leaves the agent in the state `Run` describes for that sequence |
| Scenarios.DischargingBelowCritical | main.go:127-130 | with the default thresholds, going from 25 to 8 minutes left while discharging gives exactly one Critical "BATTERY LOW!" and a one-minute pause |
| Scenarios.ChargingToFull | main.go:119-125 | going from Charging to FullCharged gives exactly the state-change notification |
| Scenarios.FailedPoll | main.go:85-95 | a failed poll with no reported change gives exactly one Critical notification and the console marker, and its reading still becomes the baseline |
| Scenarios.FirstTickAnnouncesState | main.go:81-90 | the first tick compares against the zero reading, so a first reading in a named state that the power source reports as changed is announced |
| Scenarios.ReportedLine | main.go:89-93 | with reporting on and no error, a changed reading's report line is the tick's only console output |

## Left out

- Configuration loading (`main.go:30-49`) is not modelled: the home directory lookup, the INI file and the fallbacks for the start-up title and message. The constructor receives the title and message as parameters.
- Flag parsing and the conversion of the expiry to milliseconds (`main.go:51-59`) are not modelled. The thresholds come in as a `Config` value, and `DefaultConfig` records the default thresholds. The expiry is the same for every notification, so notifications do not record it.
- Acquiring the power source, taking the start-up reading and creating the notifier (`main.go:60-74`) are not modelled, and neither are the fatal exits when these or the start-up notification fail. They are calls into the UPower and notification packages, which are not part of this model.
- `Update.Changed` is a parameter of the model, not a definition, because its code belongs to the `upower` package, which is not part of this model.
- The timer (`time.Tick`) and blocking in `time.Sleep` are not modelled. The loop runs over a given finite sequence of polls, and the pause is recorded as a duration.
- String formatting is not modelled: the state name, the durations and the floating-point percentage in notification bodies and report lines. Bodies and lines are tagged values that carry what they would show. Whether a report line ends in a newline is not modelled either.
- The battery percentage is a `real`, with no floating-point arithmetic. The logic only passes it along.

