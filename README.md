# talking-airplane: the per-sample alert pipeline in Dafny

talking-airplane reads the simulator's telemetry about once a second
(indicated altitude, indicated airspeed, bank, pitch) and turns it into
spoken alerts. This project models the part of it that has logic:

- the moving average of vertical speed (`src/moving_average.rs`). It is an
  O(1)-memory running mean whose divisor stops growing at `max_counter`, so
  from then on it behaves as an exponential moving average;
- one call of `report_data` (`talking-airplane/src/main.rs`). This call:
  - estimates the vertical speed from the previous altitude and time;
  - discards implausible rates;
  - runs the one-shot countdown timer, the maximum airspeed, bank and pitch
    warnings and the one-way minimum-speed latch through the shared
    five-second gate of `History::say_or_suppress`;
  - infers the flight phase (Cruise with a baseline, Climb, Descent);
  - announces crossings of a thousand-foot boundary;
- the initial `History` built in `main`.

Files and modules:

- `numerics.dfy`, module `RustNumerics`: the Rust numeric operations the
  step uses, written out explicitly:
  - `f64::round`, which rounds halfway cases away from zero;
  - the saturating `f64 as i32` cast;
  - `i32` division and remainder, which truncate toward zero.
- `moving_average.dfy`, module `MovingAverages`:
  - the value view `Filter` and its update `Added`;
  - `AddAll`, the fold of `Added` over a sequence, with its lemmas;
  - the class `MovingAverage`, whose `Add` updates its fields in place and
    is proved equal to `Added`.
- `talking_airplane.dfy`, module `TalkingAirplane`:
  - the data types (`Data`, `Opts`, `FlightPhase`, `CruisePhase`, `Alert`,
    `HistoryState`);
  - the gated warnings a sample warrants, listed in the order the code
    requests them (`Candidates`). The gate lets through only the first of
    them, and only when it is open (`Gated`);
  - the pure specification `Report` of one call of `report_data`, built
    from stage functions, one per block of the Rust function;
  - the classes `History`, `VoiceBox` and `AppState` holding the same
    state as the Rust structs;
  - the method `ReportData`, which updates that state in place, one helper
    method per block, and is proved to produce exactly `Report`.
- `runs.dfy`, module `FlightRuns`: `Run`, which applies `report_data` to a
  stream of samples, and the properties that span several samples.
- `scenarios.dfy`, module `FlightScenarios`: small concrete situations.

Abstractions:

- Time is an integer number of milliseconds. The caller passes it in as
  `now`, replacing `Instant::now()`.
- `f64` quantities are `real`.
- The voice is a `VoiceBox` that appends `Alert` values to the sequence
  `spoken`. Each `Alert` carries the integer or real payload of its message.

The model keeps these quirks of the code:

- The "Timer elapsed" message goes through the five-second gate, like the
  threshold warnings. It is dropped if the gate is closed, but the timer is
  cleared anyway.
- The altitude announced while cruising is the altitude cut back toward
  zero to a multiple of 500 (`altitude_int - altitude_int % 500`). It is
  not rounded to the nearest 500.
- The thousands compared for a crossing differ in how they are computed:
  - the previous altitude is truncated by `as i32`;
  - the current one is rounded first;
  - both are then divided by 1000 with truncation, not floor.

  As a result, a climb holding at 999.6 ft announces "Passing 1 thousand
  feet" on every sample while the inferred phase is still Climb. Holding
  altitude feeds rates of 0 ft/min, so the average decays and the phase
  eventually levels off. `FlightScenarios.HoldingJustBelowAThousand` shows
  the crossing check on its own.
- From Cruise, a rate below the descent threshold is checked first and wins
  even if the rate is also above the climb threshold.
- The code has no explicit guard for zero elapsed time. In `f64` the
  division gives an infinity or NaN, which fails the `<` discard test. The
  model treats elapsed time ≤ 0 as "no measurement": the sample is
  discarded.

## Model

| member | source | states |
|---|---|---|
| `RustNumerics.Round` | talking-airplane/src/main.rs:64 | the result is within 1/2 of x, and a halfway case goes away from zero |
| `RustNumerics.AsI32` | talking-airplane/src/main.rs:65 | the result is the truncation toward zero when that fits in i32; otherwise it is i32::MAX above the range and i32::MIN below it. It keeps the sign of x |
| `RustNumerics.RoundToI32` | talking-airplane/src/main.rs:64 | the result is the rounded value when that fits in i32; otherwise it is i32::MAX above the range and i32::MIN below it |
| `RustNumerics.Quot` | talking-airplane/src/main.rs:65-66 | the quotient rounds toward zero: q·b lies between 0 and a, less than b away from a |
| `RustNumerics.Rem` | talking-airplane/src/main.rs:67 | a = Quot(a,b)·b + r, and the remainder has the dividend's sign and magnitude below b |
| `MovingAverages.Filter.Divisor` | src/moving_average.rs:25-30 | the divisor is min(counter + 1, max_counter) |
| `MovingAverages.Fresh` | src/moving_average.rs:14-20 | a new instance is valid, holds the given cap and counter 0, and the first value added becomes the average |
| `MovingAverages.Added` | src/moving_average.rs:22-41 | needs max_counter ≥ 1 (a cap of 0 divides by zero). max_counter is unchanged, and counter ≤ max_counter is kept. counter becomes min(counter + 1, max_counter). The new average is ((n−1)·average + x)/n, the derived identity, and lies between the old average and x. The first add, or any add with a cap of 1, gives x |
| `MovingAverages.BlendIdentity` | src/moving_average.rs:31-40 | average + (x − average)/n = ((n−1)·average + x)/n for n ≥ 1 |
| `MovingAverages.AddAll` | src/moving_average.rs:22-41 | any number of calls of `add` keeps the instance valid with its cap, and the counter never decreases |
| `MovingAverages.AddAllCounter` | src/moving_average.rs:25-30 | adding any number of values keeps the filter valid and its cap, and the counter becomes min(counter + k, max_counter) |
| `MovingAverages.CounterAfterCalls` | src/moving_average.rs:25-30 | after k calls on a fresh instance, counter = min(k, max_counter) |
| `MovingAverages.DivisorOfCall` | src/moving_average.rs:25-30 | the k-th call on a fresh instance divides by min(k, max_counter) |
| `MovingAverages.ExactMeanBeforeCap` | src/moving_average.rs:31-40 | while k ≤ max_counter, the average after k calls is the exact mean of the k values |
| `MovingAverages.WindowOfOne` | src/moving_average.rs:25-40 | with max_counter = 1, the average is always the last value added |
| `MovingAverages.AddAllBounded` | src/moving_average.rs:40 | if the start average and every value added lie in [−B, B], so does the final average |
| `MovingAverages.MovingAverage.constructor` | src/moving_average.rs:14-20 | a new instance has counter 0, average 0.0 and the given max_counter |
| `MovingAverages.MovingAverage.Add` | src/moving_average.rs:22-41 | the fields after `add(x)` are exactly `Added` of the fields before |
| `TalkingAirplane.WarnGate` | talking-airplane/src/main.rs:228-234 | the message is said, and last_warning set to now, only when now − last_warning > 5 s. Otherwise nothing changes, and nothing other than last_warning ever changes |
| `TalkingAirplane.History.SayOrSuppress` | talking-airplane/src/main.rs:228-234 | the in-place gate: the new last_warning and speech are those of `WarnGate` |
| `TalkingAirplane.SayAllGated` | talking-airplane/src/main.rs:228-234 | requesting several warnings one after another at the same instant says only the first, and only if the gate is open; the gate restarts exactly when something is said |
| `TalkingAirplane.LimitCandidates` | talking-airplane/src/main.rs:95-126 | lists exactly the airspeed, bank and pitch warnings whose configured limit the sample exceeds, in that order |
| `TalkingAirplane.LowSpeedCandidates` | talking-airplane/src/main.rs:129-143 | lists exactly the low-speed warning, when the latch is set and the airspeed is below the minimum |
| `TalkingAirplane.Candidates` | talking-airplane/src/main.rs:85-143 | lists exactly the gated warnings the sample warrants, in the order the code requests them |
| `TalkingAirplane.GatedWarning` | talking-airplane/src/main.rs:85-143 | at most one gated warning is said per sample. One is said iff the gate is open and some warning is warranted, and it is the warranted one requested first |
| `TalkingAirplane.VerticalSpeed` | talking-airplane/src/main.rs:69-72 | a rate exists exactly when time has elapsed; then rate × elapsed ms = Δaltitude × 60000 (feet per minute) |
| `TalkingAirplane.Measure` | talking-airplane/src/main.rs:69-79 | last_altitude is always set. An accepted rate sets last_time := now and feeds the average; a rejected one leaves both untouched. Nothing is said and nothing else changes |
| `TalkingAirplane.CheckTimer` | talking-airplane/src/main.rs:85-93 | a due timer is cleared even when the gate suppresses its message. "Timer elapsed" is said exactly when the timer is due and the gate is open, and then the gate restarts. If nothing is due, nothing happens |
| `TalkingAirplane.CheckLimits` | talking-airplane/src/main.rs:95-126 | when the gate is open, the first exceeded limit (airspeed, then bank, then pitch) is said with the `as i32` value of its reading, and the others are suppressed. With the gate closed nothing is said. Only last_warning changes |
| `TalkingAirplane.CheckMinSpeed` | talking-airplane/src/main.rs:128-143 | the latch becomes latch ∨ (airspeed > minimum) and never resets. "Airspeed below" is said exactly when the latch was already set (so not on the sample that sets it), the airspeed is below the minimum, and the gate is open |
| `TalkingAirplane.CheckWarnings` | talking-airplane/src/main.rs:85-143 | of the warnings the sample warrants, the first in source order is said if the gate is open, and none otherwise. The timer is cleared when due, the latch is updated, and nothing else changes |
| `TalkingAirplane.AltitudeToNearest500` | talking-airplane/src/main.rs:67 | the result is a multiple of 500 on the zero side of the altitude, less than 500 away |
| `TalkingAirplane.Transition` | talking-airplane/src/main.rs:147-185 | Cruise is entered iff the rate is in the band. From Cruise, Descent iff below the descent threshold (this wins), Climb iff only above the climb threshold. Climb or Descent outside the band stay, silently. Each announcement is said exactly on its transition, at most one per sample, and is never gated. Within cruise, the baseline moves and "Now cruising" is said iff airspeed drifted > 10 kt or altitude > 500 ft. After the step, a Cruise baseline is within 10 kt and 500 ft of the sample |
| `TalkingAirplane.Boundary` | talking-airplane/src/main.rs:187-201 | something is said iff the thousands changed and the phase is not Cruise: a Climb names the new thousands, a Descent the old |
| `TalkingAirplane.Report` | talking-airplane/src/main.rs:62-202 | last_altitude is always set. An accepted rate (elapsed > 0 and abs(rate) < discard threshold) sets last_time := now and feeds the average; a rejected one leaves both untouched. The timer is cleared exactly when due, and the latch is one-way. Earlier speech is kept. Then comes the first warranted warning if the gate is open, which restarts it, then the phase announcement, then the crossing announcement |
| `TalkingAirplane.History.constructor` | talking-airplane/src/main.rs:246-260 | the initial history: Cruise(0, 0), altitude 0. last_time and last_warning are the start time, and the latch is off. The average is fresh for the window size, and a timer is set to start + minutes·60000 ms when configured |
| `TalkingAirplane.InitialHistory` | talking-airplane/src/main.rs:246-260 | the history is valid iff the window is ≥ 1. It holds a fresh average, altitude 0, last_time and last_warning at the start time, Cruise(0, 0) and no latch. The timer is due exactly from `minute_timer` minutes after start, and no warning passes the gate in the first five seconds |
| `TalkingAirplane.VoiceBox.Say` | talking-airplane/src/voice_box.rs:22-29 | the message is appended to what has been said |
| `TalkingAirplane.AppState.constructor` | talking-airplane/src/main.rs:245-263 | the state `main` builds: the initial history, nothing said yet, and a valid moving average with the configured window (≥ 1) |
| `TalkingAirplane.ReportData` | talking-airplane/src/main.rs:62-202 | the history and speech after the in-place step are exactly `Report` of those before, and validity is kept |
| `TalkingAirplane.CheckAllWarnings` | talking-airplane/src/main.rs:85-143 | the in-place timer and threshold checks equal `CheckWarnings` |
| `TalkingAirplane.UpdateVerticalSpeed` | talking-airplane/src/main.rs:69-79 | the in-place discard gate and altitude update equal the `Measure` stage |
| `TalkingAirplane.RunTimer` | talking-airplane/src/main.rs:85-93 | the in-place timer check equals `CheckTimer` |
| `TalkingAirplane.WarnLimits` | talking-airplane/src/main.rs:95-126 | the in-place maximum airspeed, bank and pitch checks equal `CheckLimits` |
| `TalkingAirplane.LatchMinSpeed` | talking-airplane/src/main.rs:128-143 | the in-place latch and low-speed check equal `CheckMinSpeed` |
| `TalkingAirplane.InferPhase` | talking-airplane/src/main.rs:147-185 | the in-place phase match sets the phase, and says what `Transition` gives |
| `TalkingAirplane.AnnounceThousands` | talking-airplane/src/main.rs:187-201 | the in-place crossing check says what `Boundary` gives |
| `FlightRuns.Run` | talking-airplane/src/main.rs:265-280 | over a stream of samples, earlier speech is kept, and the average stays valid with its window |
| `FlightRuns.ReportWarningsComeFirst` | talking-airplane/src/main.rs:85-201 | in one sample's speech, "Timer elapsed" and "Airspeed below" can only come first. "Timer elapsed" needs the timer to be due, and "Airspeed below" needs the latch to be already set |
| `FlightRuns.AnnouncementsAreNotWarnings` | talking-airplane/src/main.rs:147-201 | phase and crossing announcements are never the timer or low-speed message |
| `FlightRuns.TimerFiresAtMostOnce` | talking-airplane/src/main.rs:85-93 | over any run, "Timer elapsed" is said at most once, and never once the timer is cleared |
| `FlightRuns.LatchIsOneWay` | talking-airplane/src/main.rs:129-135 | once set, the minimum-speed latch stays set over any run |
| `FlightRuns.NoLowSpeedWarningBeforeLatch` | talking-airplane/src/main.rs:129-143 | while the airspeed has never exceeded the minimum, no low-speed warning is said and the latch stays off |
| `FlightRuns.SmoothedRateWithinDiscard` | talking-airplane/src/main.rs:70-78 | the smoothed vertical speed stays within the discard threshold over any run |
| `FlightRuns.ReportKeepsRateWithinDiscard` | talking-airplane/src/main.rs:70-78 | one sample keeps the smoothed vertical speed within the discard threshold |
| `FlightRuns.SmoothedRateBoundedFromStart` | talking-airplane/src/main.rs:246-259 | from start-up, with a non-negative threshold, abs(smoothed rate) ≤ discard threshold after any run |
| `FlightScenarios.GateSpacing` | talking-airplane/src/main.rs:230 | two warnings 3 s apart give one message; 6 s apart give two |
| `FlightScenarios.OverspeedOutranksBank` | talking-airplane/src/main.rs:95-114 | with the gate open, 260.4 kt over a 250 kt limit and a 45° bank over 30° say only "Airspeed too high: 260 knots" |
| `FlightScenarios.HundredFeetPerMinute` | talking-airplane/src/main.rs:70-72 | 100 ft over 60 s is 100 ft/min; zero elapsed time gives no rate |
| `FlightScenarios.StartedDescentOnce` | talking-airplane/src/main.rs:152-155 | starting from Cruise(0, 0): −300 ft/min starts a descent with one announcement; −250 ft/min afterwards says nothing |
| `FlightScenarios.PassingTenThousand` | talking-airplane/src/main.rs:187-192 | the climb 9800, 9850, 9900, 10050 ft announces ten thousand feet once, at the last step |
| `FlightScenarios.HoldingJustBelowAThousand` | talking-airplane/src/main.rs:64-66 | holding at 999.6 ft while climbing announces one thousand feet on every sample |
| `FlightScenarios.CruiseAltitudeTruncates` | talking-airplane/src/main.rs:67 | 9999 ft is announced as 9500 and −700 ft as −500 |

## Left out

- Speech synthesis and playback (`talking-airplane/src/voice_box.rs`,
  `src/voice_box.rs`): they are foreign Windows APIs plus a fixed 2000 ms
  sleep. `say` is only an append to `VoiceBox.spoken`.
- The plumbing in `main`: option parsing with clap, the SimConnect
  connection, the callback that dispatches samples, the shared
  `Rc<RefCell<…>>` state and the dispatch/sleep loop. These are I/O and
  foreign calls. `Run` stands in for the stream of calls to `report_data`.
- The simulator bindings on `Data` (`#[data_definition]`, names, epsilons):
  `Data` is a plain record.
- The option defaults. Clap supplies 1000.0, −200.0, 200.0 and 30; the
  model takes any `Opts` value.
- IEEE-754 behaviour. Values are exact reals, with no rounding error,
  infinities or NaN. The NaN case of `as i32` (which gives 0) does not
  arise.
- The clock. `Instant::now()` is read once in `report_data` and again in
  every `say_or_suppress` call. The model uses the single `now` passed to
  the step for all of them. It also uses one `start` for the clock readings
  in `main`.
- `Instant` arithmetic and the u64 overflow of `mins * 60`: time is an
  unbounded integer.
- `format!` texts and the `println!` line when the latch is set: each
  message is an `Alert` carrying only its numbers.
- `TalkingAirplane.AppState.constructor` requires
  `vertical_speed_window_size ≥ 1`. With a window of 0, the source divides
  by zero inside `add` and the average becomes infinite or NaN. The model
  does not cover that configuration.
