/** The per-sample decision step of talking-airplane/src/main.rs: from one
    telemetry sample and the running `History`, estimate the vertical speed,
    feed it to the moving average, run the countdown timer and the threshold
    warnings through the five-second gate, infer the flight phase and announce
    thousand-foot crossings.

    The pure functions below (`Report` and its stages) specify one call of
    `report_data` on values; the classes at the end hold the same state as the
    Rust structs and `ReportData` updates it in place, proved equal to
    `Report`. Time is a number of milliseconds handed in by the caller, and
    what the voice says is a sequence of `Alert` values. */
module TalkingAirplane {
  import opened RustNumerics
  import opened MovingAverages

  datatype Option<T> = None | Some(value: T)

  /** One telemetry sample: indicated altitude (feet), indicated airspeed
      (knots), bank and pitch (degrees). */
  datatype Data = Data(altitude: real, airspeedIndicated: real, bankDegrees: real, pitchDegrees: real)

  /** The command-line options, resolved once at start-up. */
  datatype Opts = Opts(
    minspeedWarning: Option<real>,
    maxspeedWarning: Option<real>,
    maxbankWarning: Option<real>,
    maxpitchWarning: Option<real>,
    minuteTimer: Option<nat>,
    verticalSpeedDiscardThreshold: real,
    descentThreshold: real,
    climbThreshold: real,
    verticalSpeedWindowSize: nat)

  /** The airspeed and altitude at which the current cruise was announced. */
  datatype CruisePhase = CruisePhase(airspeed: real, altitude: real)

  datatype FlightPhase = Cruise(baseline: CruisePhase) | Climb | Descent

  /** What the voice is asked to say, with the numbers each message carries. */
  datatype Alert =
    | TimerElapsed
    | AirspeedTooHigh(knots: int)
    | BankTooHigh(degrees: int)
    | PitchTooHigh(degrees: int)
    | AirspeedBelow(minimum: real)
    | StartedDescent
    | Climbing
    | NowCruising(feet: int, knots: int)
    | LevelingOff
    | Passing(thousands: int)

  /** Warnings closer together than this are suppressed. */
  const WarningGapMs: int := 5000
  const MsPerMinute: int := 60000
  /** A cruise is re-announced when airspeed or altitude drift this far. */
  const CruiseAirspeedDrift: real := 10.0
  const CruiseAltitudeDrift: real := 500.0

  /** The value of the Rust `History` struct. */
  datatype HistoryState = HistoryState(
    lastAltitude: real,
    lastTime: int,
    lastWarning: int,
    averageVertSpeed: Filter,
    minspeedEverExceeded: bool,
    inferredPhase: FlightPhase,
    timer: Option<int>)
  {
    /** The moving average is valid and has a positive window. */
    predicate Valid() { averageVertSpeed.Valid() && averageVertSpeed.maxCounter >= 1 }
  }

  /** A history part-way through one sample, with what has been said so far. */
  datatype Progress = Progress(history: HistoryState, said: seq<Alert>)

  /** The `History` that `main` builds at time `start`. */
  function InitialHistory(opts: Opts, start: int): (h: HistoryState)
    ensures h.Valid() <==> opts.verticalSpeedWindowSize >= 1
    ensures h.averageVertSpeed == Fresh(opts.verticalSpeedWindowSize)
    ensures h.lastAltitude == 0.0 && h.lastTime == start && h.lastWarning == start
    ensures h.inferredPhase == Cruise(CruisePhase(0.0, 0.0)) && !h.minspeedEverExceeded
    // The countdown is due exactly from `minute_timer` minutes after start.
    ensures forall now :: Due(h.timer, now) <==>
              opts.minuteTimer.Some? && now >= start + opts.minuteTimer.value * MsPerMinute
    // Starting the gate at `start` keeps every warning quiet for the first
    // five seconds.
    ensures forall now, msg | now <= start + WarningGapMs :: WarnGate(Progress(h, []), now, msg).said == []
  {
    HistoryState(
      0.0, start, start, Fresh(opts.verticalSpeedWindowSize), false,
      Cruise(CruisePhase(0.0, 0.0)),
      match opts.minuteTimer
      case None => None
      case Some(mins) => Some(start + mins * MsPerMinute))
  }

  // ---------------------------------------------------------------------
  // The five-second gate

  /** `History::say_or_suppress`: say `msg` and restart the gate only when
      more than five seconds have passed since the last warning. */
  function WarnGate(p: Progress, now: int, msg: Alert): (q: Progress)
    ensures q.history.(lastWarning := p.history.lastWarning) == p.history
    ensures now - p.history.lastWarning > WarningGapMs ==>
              q.said == p.said + [msg] && q.history.lastWarning == now
    ensures now - p.history.lastWarning <= WarningGapMs ==> q == p
  {
    if now - p.history.lastWarning > WarningGapMs
    then Progress(p.history.(lastWarning := now), p.said + [msg])
    else p
  }

  /** Of the warnings requested one after another at the same instant `now`,
      the gate lets through the first one only, and only when it is open:
      that one restarts the gate, which then stays shut for the rest. */
  function Gated(c: seq<Alert>, lastWarning: int, now: int): seq<Alert>
  {
    if c != [] && now - lastWarning > WarningGapMs then [c[0]] else []
  }

  /** `say_or_suppress` called for each of `c` in turn at the instant `now`. */
  function SayAll(p: Progress, now: int, c: seq<Alert>): Progress
    decreases |c|
  {
    if c == [] then p else SayAll(WarnGate(p, now, c[0]), now, c[1..])
  }

  /** `q` follows `p` by what the gate lets through of the requests `c` at
      `now`, and the gate was restarted exactly when something was said. */
  predicate Says(p: Progress, q: Progress, c: seq<Alert>, now: int)
  {
    var g := Gated(c, p.history.lastWarning, now);
    && q.said == p.said + g
    && q.history.lastWarning == (if g == [] then p.history.lastWarning else now)
  }

  /** Calling the gate for each of `c` at one instant says exactly what
      `Gated` gives, and changes nothing but the gate. */
  lemma {:induction false} SayAllGated(p: Progress, now: int, c: seq<Alert>)
    ensures Says(p, SayAll(p, now, c), c, now)
    ensures SayAll(p, now, c).history == p.history.(lastWarning := SayAll(p, now, c).history.lastWarning)
    decreases |c|
  {
    if c != [] {
      SayAllGated(WarnGate(p, now, c[0]), now, c[1..]);
    }
  }

  /** Two runs of requests at one instant are gated as one run. */
  lemma SaysChain(p: Progress, q: Progress, r: Progress, c1: seq<Alert>, c2: seq<Alert>, now: int)
    requires Says(p, q, c1, now) && Says(q, r, c2, now)
    ensures Says(p, r, c1 + c2, now)
  {
    if c1 != [] {
      assert (c1 + c2)[0] == c1[0];
    }
  }

  /** The conditions under which each gated warning may be requested: the
      timer is due, a configured limit is exceeded (and for the low-speed
      warning the latch is set), with the payload taken from the sample. */
  predicate Warranted(a: Alert, opts: Opts, data: Data, due: bool, latched: bool)
  {
    match a
    case TimerElapsed => due
    case AirspeedTooHigh(knots) =>
      opts.maxspeedWarning.Some? && data.airspeedIndicated > opts.maxspeedWarning.value
      && knots == AsI32(data.airspeedIndicated)
    case BankTooHigh(degrees) =>
      opts.maxbankWarning.Some? && Abs(data.bankDegrees) > opts.maxbankWarning.value
      && degrees == AsI32(data.bankDegrees)
    case PitchTooHigh(degrees) =>
      opts.maxpitchWarning.Some? && Abs(data.pitchDegrees) > opts.maxpitchWarning.value
      && degrees == AsI32(data.pitchDegrees)
    case AirspeedBelow(minimum) =>
      latched && opts.minspeedWarning == Some(minimum) && data.airspeedIndicated < minimum
    case _ => false
  }

  /** The position at which lines 85-143 request each gated warning. */
  function Rank(a: Alert): nat
  {
    match a
    case TimerElapsed => 0
    case AirspeedTooHigh(_) => 1
    case BankTooHigh(_) => 2
    case PitchTooHigh(_) => 3
    case AirspeedBelow(_) => 4
    case _ => 5
  }

  predicate InSourceOrder(c: seq<Alert>)
  {
    forall i, j | 0 <= i < j < |c| :: Rank(c[i]) < Rank(c[j])
  }

  /** Two runs of requests in source order, the first all ranked before the
      second, make one. */
  lemma InSourceOrderAppend(c1: seq<Alert>, c2: seq<Alert>)
    requires InSourceOrder(c1) && InSourceOrder(c2)
    requires forall a, b | a in c1 && b in c2 :: Rank(a) < Rank(b)
    ensures InSourceOrder(c1 + c2)
  {
    var c := c1 + c2;
    forall i, j | 0 <= i < j < |c|
      ensures Rank(c[i]) < Rank(c[j])
    {
      if j < |c1| {
        assert c[i] == c1[i] && c[j] == c1[j];
      } else if i >= |c1| {
        assert c[i] == c2[i - |c1|] && c[j] == c2[j - |c1|];
      } else {
        assert c[i] in c1 && c[j] in c2;
      }
    }
  }

  /** Lines 95-126: the exceeded limits, in the order they are checked. */
  function LimitCandidates(opts: Opts, data: Data): (c: seq<Alert>)
    ensures forall a :: a in c <==> 1 <= Rank(a) <= 3 && Warranted(a, opts, data, false, false)
    ensures InSourceOrder(c)
  {
    var speed := if opts.maxspeedWarning.Some? && data.airspeedIndicated > opts.maxspeedWarning.value
                 then [AirspeedTooHigh(AsI32(data.airspeedIndicated))] else [];
    var bank := if opts.maxbankWarning.Some? && Abs(data.bankDegrees) > opts.maxbankWarning.value
                then [BankTooHigh(AsI32(data.bankDegrees))] else [];
    var pitch := if opts.maxpitchWarning.Some? && Abs(data.pitchDegrees) > opts.maxpitchWarning.value
                 then [PitchTooHigh(AsI32(data.pitchDegrees))] else [];
    var c := speed + bank + pitch;
    forall a
      ensures a in c <==> 1 <= Rank(a) <= 3 && Warranted(a, opts, data, false, false)
    {
      if Rank(a) == 1 {
        assert a !in bank && a !in pitch;
      } else if Rank(a) == 2 {
        assert a !in speed && a !in pitch;
      } else if Rank(a) == 3 {
        assert a !in speed && a !in bank;
      } else {
        assert a !in speed && a !in bank && a !in pitch;
      }
    }
    InSourceOrderAppend(speed, bank);
    InSourceOrderAppend(speed + bank, pitch);
    c
  }

  /** Lines 136-141: the low-speed warning, once the latch is set. */
  function LowSpeedCandidates(opts: Opts, data: Data, latched: bool): (c: seq<Alert>)
    ensures forall a :: a in c <==> Rank(a) == 4 && Warranted(a, opts, data, false, latched)
    ensures |c| <= 1
  {
    if latched && opts.minspeedWarning.Some? && data.airspeedIndicated < opts.minspeedWarning.value
    then [AirspeedBelow(opts.minspeedWarning.value)]
    else []
  }

  /** Every gated warning a sample warrants, in the order lines 85-143
      request them. */
  function Candidates(opts: Opts, data: Data, due: bool, latched: bool): (c: seq<Alert>)
    ensures forall a :: a in c <==> Warranted(a, opts, data, due, latched)
    ensures InSourceOrder(c)
  {
    var t, l, m := (if due then [TimerElapsed] else []), LimitCandidates(opts, data),
                   LowSpeedCandidates(opts, data, latched);
    var c := t + l + m;
    forall a
      ensures a in c <==> Warranted(a, opts, data, due, latched)
    {
      if Rank(a) == 0 {
        assert a !in l && a !in m;
      } else if Rank(a) <= 3 {
        assert a !in t && a !in m;
        assert Warranted(a, opts, data, due, latched) == Warranted(a, opts, data, false, false);
      } else if Rank(a) == 4 {
        assert a !in t && a !in l;
        assert Warranted(a, opts, data, due, latched) == Warranted(a, opts, data, false, latched);
      } else {
        assert a !in t && a !in l && a !in m;
      }
    }
    InSourceOrderAppend(t, l);
    InSourceOrderAppend(t + l, m);
    c
  }

  /** The gated warning said for a sample: when the gate is open and some
      warning is warranted, the first warranted one in source order (timer,
      airspeed, bank, pitch, low speed); otherwise none. */
  lemma GatedWarning(opts: Opts, data: Data, due: bool, latched: bool, lastWarning: int, now: int)
    ensures var g := Gated(Candidates(opts, data, due, latched), lastWarning, now);
      && |g| <= 1
      && (g != [] <==> now - lastWarning > WarningGapMs && exists a :: Warranted(a, opts, data, due, latched))
      && (g != [] ==> Warranted(g[0], opts, data, due, latched)
                      && forall a :: Warranted(a, opts, data, due, latched) ==> Rank(g[0]) <= Rank(a))
  {
    var c := Candidates(opts, data, due, latched);
    if c != [] {
      assert Warranted(c[0], opts, data, due, latched);
      forall a | Warranted(a, opts, data, due, latched)
        ensures Rank(c[0]) <= Rank(a)
      {
        var i :| 0 <= i < |c| && c[i] == a;
      }
    }
  }

  // ---------------------------------------------------------------------
  // Vertical speed

  /** The instantaneous vertical speed in feet per minute, absent when no
      time has elapsed since `lastTime` (where the floating-point division
      of the source yields an infinity or NaN). */
  function VerticalSpeed(lastAltitude: real, lastTime: int, altitude: real, now: int): (v: Option<real>)
    ensures v.Some? <==> lastTime < now
    ensures v.Some? ==> v.value * (now - lastTime) as real == (altitude - lastAltitude) * MsPerMinute as real
  {
    if now <= lastTime then None
    else
      var seconds := (now - lastTime) as real / 1000.0;
      var v := (altitude - lastAltitude) / seconds * 60.0;
      assert v * seconds == (altitude - lastAltitude) * 60.0;
      Some(v)
  }

  /** A vertical speed is fed to the average only when it is present and
      strictly below the discard threshold in magnitude. */
  predicate Accepted(v: Option<real>, discardThreshold: real)
  {
    v.Some? && Abs(v.value) < discardThreshold
  }

  /** Lines 70-79: gate the vertical speed and advance the measurements. */
  function Measure(p: Progress, opts: Opts, data: Data, now: int): (q: Progress)
    requires p.history.Valid()
    ensures q.history.Valid()
    ensures q.history.averageVertSpeed.maxCounter == p.history.averageVertSpeed.maxCounter
    ensures q.said == p.said
    // The altitude is recorded on every sample, discarded or not.
    ensures q.history.lastAltitude == data.altitude
    // The discard gate: only an accepted vertical speed moves the time of
    // the last measurement and reaches the moving average.
    ensures var h, v := p.history, VerticalSpeed(p.history.lastAltitude, p.history.lastTime, data.altitude, now);
      if Accepted(v, opts.verticalSpeedDiscardThreshold)
      then q.history.lastTime == now && q.history.averageVertSpeed == Added(h.averageVertSpeed, v.value)
      else q.history.lastTime == h.lastTime && q.history.averageVertSpeed == h.averageVertSpeed
    ensures q.history.(lastAltitude := p.history.lastAltitude, lastTime := p.history.lastTime,
                       averageVertSpeed := p.history.averageVertSpeed) == p.history
  {
    var h := p.history;
    var v := VerticalSpeed(h.lastAltitude, h.lastTime, data.altitude, now);
    var h' :=
      if Accepted(v, opts.verticalSpeedDiscardThreshold)
      then h.(lastTime := now, averageVertSpeed := Added(h.averageVertSpeed, v.value))
      else h;
    Progress(h'.(lastAltitude := data.altitude), p.said)
  }

  // ---------------------------------------------------------------------
  // Countdown timer and threshold warnings

  /** The countdown deadline is set and has been reached. */
  predicate Due(timer: Option<int>, now: int)
  {
    timer.Some? && now >= timer.value
  }

  /** Lines 85-93: a due timer is cleared whether or not the gate lets its
      message through; a cleared timer does nothing. */
  function CheckTimer(p: Progress, now: int): (q: Progress)
    ensures Says(p, q, if Due(p.history.timer, now) then [TimerElapsed] else [], now)
    ensures q.history.timer == if Due(p.history.timer, now) then None else p.history.timer
    ensures q.history.(timer := p.history.timer, lastWarning := p.history.lastWarning) == p.history
  {
    match p.history.timer
    case None => p
    case Some(t) =>
      if now >= t then
        var q := WarnGate(p, now, TimerElapsed);
        q.(history := q.history.(timer := None))
      else p
  }

  /** Lines 95-126: the maximum airspeed, bank and pitch warnings. The first
      exceeded limit is said when the gate is open; it then shuts the gate
      on the others. */
  function CheckLimits(p: Progress, opts: Opts, data: Data, now: int): (q: Progress)
    ensures Says(p, q, LimitCandidates(opts, data), now)
    ensures q.history.(lastWarning := p.history.lastWarning) == p.history
  {
    var p1 :=
      match opts.maxspeedWarning
      case Some(maxspeed) =>
        if data.airspeedIndicated > maxspeed
        then WarnGate(p, now, AirspeedTooHigh(AsI32(data.airspeedIndicated)))
        else p
      case None => p;
    var p2 :=
      match opts.maxbankWarning
      case Some(maxbank) =>
        if Abs(data.bankDegrees) > maxbank
        then WarnGate(p1, now, BankTooHigh(AsI32(data.bankDegrees)))
        else p1
      case None => p1;
    match opts.maxpitchWarning
    case Some(maxpitch) =>
      if Abs(data.pitchDegrees) > maxpitch
      then WarnGate(p2, now, PitchTooHigh(AsI32(data.pitchDegrees)))
      else p2
    case None => p2
  }

  /** Lines 129-143: the one-way minimum-speed latch. The sample that sets
      the latch says nothing; once set, airspeed below the minimum is a
      gated warning. */
  function CheckMinSpeed(p: Progress, opts: Opts, data: Data, now: int): (q: Progress)
    ensures Says(p, q, LowSpeedCandidates(opts, data, p.history.minspeedEverExceeded), now)
    ensures q.history.minspeedEverExceeded ==
              (p.history.minspeedEverExceeded
               || (opts.minspeedWarning.Some? && data.airspeedIndicated > opts.minspeedWarning.value))
    ensures q.history.(minspeedEverExceeded := p.history.minspeedEverExceeded,
                       lastWarning := p.history.lastWarning) == p.history
  {
    match opts.minspeedWarning
    case None => p
    case Some(minspeed) =>
      if !p.history.minspeedEverExceeded then
        if data.airspeedIndicated > minspeed
        then p.(history := p.history.(minspeedEverExceeded := true))
        else p
      else if data.airspeedIndicated < minspeed
      then WarnGate(p, now, AirspeedBelow(minspeed))
      else p
  }

  // ---------------------------------------------------------------------
  // Flight phase and altitude crossings

  /** `altitude_to_nearest_500`: despite its name, the multiple of 500 next
      to the altitude toward zero. */
  function AltitudeToNearest500(altitudeInt: int): (r: int)
    ensures Rem(r, 500) == 0
    ensures altitudeInt >= 0 ==> 0 <= r <= altitudeInt < r + 500
    ensures altitudeInt < 0 ==> r - 500 < altitudeInt <= r <= 0
  {
    var r := altitudeInt - Rem(altitudeInt, 500);
    assert r == Quot(altitudeInt, 500) * 500;
    assert Quot(r, 500) == Quot(altitudeInt, 500);
    r
  }

  predicate BelowDescent(averageVertSpeed: real, opts: Opts) { averageVertSpeed < opts.descentThreshold }
  predicate AboveClimb(averageVertSpeed: real, opts: Opts) { averageVertSpeed > opts.climbThreshold }

  /** Lines 147-185: the phase transition and the announcement it makes;
      these announcements do not go through the gate. Cruise is entered
      exactly when the smoothed rate is inside the band; from Cruise a rate
      below the descent threshold wins over one above the climb threshold;
      Climb and Descent outside the band stay as they are, silently. */
  function Transition(phase: FlightPhase, averageVertSpeed: real, opts: Opts, data: Data): (r: (FlightPhase, seq<Alert>))
    ensures var below, above := BelowDescent(averageVertSpeed, opts), AboveClimb(averageVertSpeed, opts);
      && (r.0.Cruise? <==> !below && !above)
      && (r.0.Descent? <==> (phase.Cruise? && below) || (phase.Descent? && (below || above)))
      && (r.0.Climb? <==> (phase.Cruise? && !below && above) || (phase.Climb? && (below || above)))
      && (r.1 == [StartedDescent] <==> phase.Cruise? && r.0.Descent?)
      && (r.1 == [Climbing] <==> phase.Cruise? && r.0.Climb?)
      && (r.1 == [LevelingOff] <==> !phase.Cruise? && r.0.Cruise?)
      && (!phase.Cruise? && (below || above) ==> r == (phase, []))
    // Staying in cruise: the baseline moves, and the cruise is announced,
    // exactly when airspeed or altitude drifted far enough from it.
    ensures phase.Cruise? && r.0.Cruise? ==>
      var drifted := Abs(data.airspeedIndicated - phase.baseline.airspeed) > CruiseAirspeedDrift
                     || Abs(data.altitude - phase.baseline.altitude) > CruiseAltitudeDrift;
      && (drifted ==> r.1 == [NowCruising(AltitudeToNearest500(RoundToI32(data.altitude)),
                                          RoundToI32(data.airspeedIndicated))])
      && (!drifted <==> r == (phase, []))
    // Whenever the baseline is set anew it is the current sample, so after a
    // transition into or within cruise the baseline is close to the sample.
    ensures r.0.Cruise? && r.0 != phase ==>
      r.0.baseline == CruisePhase(data.airspeedIndicated, data.altitude)
    ensures r.0.Cruise? ==>
      Abs(data.airspeedIndicated - r.0.baseline.airspeed) <= CruiseAirspeedDrift
      && Abs(data.altitude - r.0.baseline.altitude) <= CruiseAltitudeDrift
    ensures |r.1| <= 1
  {
    match (phase, BelowDescent(averageVertSpeed, opts), AboveClimb(averageVertSpeed, opts))
    case (Cruise(_), true, _) => (Descent, [StartedDescent])
    // The source writes `_` for the first flag here; the case above has
    // already taken every sample where it is true.
    case (Cruise(_), false, true) => (Climb, [Climbing])
    case (Cruise(cruisePhase), false, false) =>
      if Abs(data.airspeedIndicated - cruisePhase.airspeed) > CruiseAirspeedDrift
         || Abs(data.altitude - cruisePhase.altitude) > CruiseAltitudeDrift
      then
        (Cruise(CruisePhase(data.airspeedIndicated, data.altitude)),
         [NowCruising(AltitudeToNearest500(RoundToI32(data.altitude)), RoundToI32(data.airspeedIndicated))])
      else (phase, [])
    case (_, false, false) => (Cruise(CruisePhase(data.airspeedIndicated, data.altitude)), [LevelingOff])
    case _ => (phase, [])
  }

  /** Lines 187-201: a change of thousands is announced only outside cruise;
      a climb names the new thousands, a descent the old ones. */
  function Boundary(lastThousands: int, thousands: int, phase: FlightPhase): (b: seq<Alert>)
    ensures b != [] <==> lastThousands != thousands && !phase.Cruise?
    ensures b != [] ==> b == [Passing(if phase.Climb? then thousands else lastThousands)]
  {
    if lastThousands == thousands then []
    else
      match phase
      case Cruise(_) => []
      case Climb => [Passing(thousands)]
      case Descent => [Passing(lastThousands)]
  }

  /** The thousands compared at lines 64-66: the previous altitude is
      truncated, the current one rounded, before the truncating division. */
  function LastThousands(h: HistoryState): int { Quot(AsI32(h.lastAltitude), 1000) }
  function Thousands(data: Data): int { Quot(RoundToI32(data.altitude), 1000) }

  // ---------------------------------------------------------------------
  // One call of report_data

  /** The gated warning said for a sample taken at `now` with history `h`. */
  function WarningSaid(h: HistoryState, opts: Opts, data: Data, now: int): seq<Alert>
  {
    Gated(Candidates(opts, data, Due(h.timer, now), h.minspeedEverExceeded), h.lastWarning, now)
  }

  /** The phase and crossing announcements for a sample, given the smoothed
      vertical speed after it. */
  function Announced(h: HistoryState, averageVertSpeed: real, opts: Opts, data: Data): seq<Alert>
  {
    var t := Transition(h.inferredPhase, averageVertSpeed, opts, data);
    t.1 + Boundary(LastThousands(h), Thousands(data), t.0)
  }

  /** `report_data` on values: from the history and what has been said so
      far, the new history and everything said after this sample. */
  function Report(p: Progress, opts: Opts, data: Data, now: int): (r: Progress)
    requires p.history.Valid()
    ensures r.history.Valid()
    ensures r.history.averageVertSpeed.maxCounter == p.history.averageVertSpeed.maxCounter
    // Nothing said before is taken back.
    ensures |p.said| <= |r.said| && r.said[..|p.said|] == p.said
    // The altitude is recorded on every sample, discarded or not.
    ensures r.history.lastAltitude == data.altitude
    // The discard gate: only an accepted vertical speed moves the time of
    // the last measurement and reaches the moving average.
    ensures var h, v := p.history, VerticalSpeed(p.history.lastAltitude, p.history.lastTime, data.altitude, now);
      if Accepted(v, opts.verticalSpeedDiscardThreshold)
      then r.history.lastTime == now
           && r.history.averageVertSpeed == Added(h.averageVertSpeed, v.value)
      else r.history.lastTime == h.lastTime && r.history.averageVertSpeed == h.averageVertSpeed
    // The countdown timer is cleared by the first sample at or after its
    // deadline, even when the gate suppresses its message.
    ensures r.history.timer == if Due(p.history.timer, now) then None else p.history.timer
    // The minimum-speed latch only ever goes from false to true.
    ensures r.history.minspeedEverExceeded ==
              (p.history.minspeedEverExceeded
               || (opts.minspeedWarning.Some? && data.airspeedIndicated > opts.minspeedWarning.value))
    // What is said: the first warranted warning if the gate is open (which
    // restarts it), then the phase announcement and the crossing
    // announcement, which are not gated.
    ensures r.history.inferredPhase ==
              Transition(p.history.inferredPhase, r.history.averageVertSpeed.average, opts, data).0
    ensures r.said == p.said + WarningSaid(p.history, opts, data, now)
                     + Announced(p.history, r.history.averageVertSpeed.average, opts, data)
    ensures r.history.lastWarning ==
              if WarningSaid(p.history, opts, data, now) == [] then p.history.lastWarning else now
  {
    var p1 := Measure(p, opts, data, now);
    var p2 := CheckWarnings(p1, opts, data, now);
    var t := Transition(p2.history.inferredPhase, p2.history.averageVertSpeed.average, opts, data);
    var b := Boundary(LastThousands(p.history), Thousands(data), t.0);
    var w := WarningSaid(p.history, opts, data, now);
    assert p2.said == p.said + w;
    assert t.1 + b == Announced(p.history, p2.history.averageVertSpeed.average, opts, data);
    assert (p.said + w + (t.1 + b))[..|p.said|] == p.said;
    Progress(p2.history.(inferredPhase := t.0), p.said + w + (t.1 + b))
  }

  /** Lines 85-143: the countdown timer and the threshold warnings share the
      gate, so of the warnings the sample warrants only the first in source
      order can be said. */
  function CheckWarnings(p: Progress, opts: Opts, data: Data, now: int): (q: Progress)
    ensures Says(p, q, Candidates(opts, data, Due(p.history.timer, now), p.history.minspeedEverExceeded), now)
    ensures q.history == p.history.(
              lastWarning := q.history.lastWarning,
              timer := if Due(p.history.timer, now) then None else p.history.timer,
              minspeedEverExceeded :=
                p.history.minspeedEverExceeded
                || (opts.minspeedWarning.Some? && data.airspeedIndicated > opts.minspeedWarning.value))
  {
    var p1 := CheckTimer(p, now);
    var p2 := CheckLimits(p1, opts, data, now);
    var q := CheckMinSpeed(p2, opts, data, now);
    SaysChain(p, p1, p2, if Due(p.history.timer, now) then [TimerElapsed] else [], LimitCandidates(opts, data), now);
    SaysChain(p, p2, q, (if Due(p.history.timer, now) then [TimerElapsed] else []) + LimitCandidates(opts, data),
              LowSpeedCandidates(opts, data, p.history.minspeedEverExceeded), now);
    q
  }

  // ---------------------------------------------------------------------
  // The state, updated in place

  /** The speech collaborator: it only records what it is asked to say. */
  class VoiceBox {
    var spoken: seq<Alert>

    constructor ()
      ensures spoken == []
    {
      spoken := [];
    }

    method Say(msg: Alert)
      modifies this
      ensures spoken == old(spoken) + [msg]
    {
      spoken := spoken + [msg];
    }
  }

  /** The Rust `History` struct; the moving average is owned by it. */
  class History {
    var lastAltitude: real
    var lastTime: int
    var lastWarning: int
    const averageVertSpeed: MovingAverage
    var minspeedEverExceeded: bool
    var inferredPhase: FlightPhase
    var timer: Option<int>

    function View(): HistoryState
      reads this, averageVertSpeed
    {
      HistoryState(lastAltitude, lastTime, lastWarning, averageVertSpeed.View(),
                   minspeedEverExceeded, inferredPhase, timer)
    }

    /** The `History` that `main` builds, with `start` for every reading of
        the clock. */
    constructor (opts: Opts, start: int)
      ensures View() == InitialHistory(opts, start)
      ensures fresh(averageVertSpeed)
    {
      timer := match opts.minuteTimer
        case None => None
        case Some(mins) => Some(start + mins * MsPerMinute);
      inferredPhase := Cruise(CruisePhase(0.0, 0.0));
      lastAltitude := 0.0;
      lastTime := start;
      lastWarning := start;
      minspeedEverExceeded := false;
      averageVertSpeed := new MovingAverage(opts.verticalSpeedWindowSize);
    }

    /** `History::say_or_suppress`. */
    method SayOrSuppress(s: VoiceBox, msg: Alert, now: int)
      modifies this`lastWarning, s
      ensures Progress(View(), s.spoken) == WarnGate(Progress(old(View()), old(s.spoken)), now, msg)
    {
      if now - lastWarning > WarningGapMs {
        lastWarning := now;
        s.Say(msg);
      }
    }
  }

  /** The state `report_data` works on. */
  class AppState {
    const history: History
    const opts: Opts
    const voiceBox: VoiceBox

    ghost predicate Valid()
      reads this, history, history.averageVertSpeed
    {
      history.View().Valid() && history.averageVertSpeed.maxCounter == opts.verticalSpeedWindowSize
    }

    /** What is said so far, with the history. */
    ghost function Now(): Progress
      reads this, history, history.averageVertSpeed, voiceBox
    {
      Progress(history.View(), voiceBox.spoken)
    }

    /** The state `main` builds before connecting to the simulator. */
    constructor (opts: Opts, start: int)
      requires opts.verticalSpeedWindowSize >= 1
      ensures Valid() && this.opts == opts
      ensures Now() == Progress(InitialHistory(opts, start), [])
      ensures fresh(history) && fresh(history.averageVertSpeed) && fresh(voiceBox)
    {
      history := new History(opts, start);
      voiceBox := new VoiceBox();
      this.opts := opts;
    }
  }

  /** `report_data`: process one sample taken at time `now`. */
  method ReportData(s: AppState, data: Data, now: int)
    requires s.Valid()
    modifies s.history, s.history.averageVertSpeed, s.voiceBox
    ensures s.Valid()
    ensures s.Now() == Report(old(s.Now()), s.opts, data, now)
  {
    ghost var p0 := s.Now();
    var altitudeInt := RoundToI32(data.altitude);
    var lastAltitudeThousands := Quot(AsI32(s.history.lastAltitude), 1000);
    var altitudeThousands := Quot(altitudeInt, 1000);
    var altitudeToNearest500 := altitudeInt - Rem(altitudeInt, 500);

    UpdateVerticalSpeed(s, data, now);
    ghost var p1 := s.Now();
    var averageVertSpeed := s.history.averageVertSpeed.average;
    CheckAllWarnings(s, data, now);
    ghost var p4 := s.Now();
    ghost var w := WarningSaid(p0.history, s.opts, data, now);
    assert p4.said == p0.said + w;
    InferPhase(s, data, averageVertSpeed, altitudeToNearest500);
    ghost var t := Transition(p4.history.inferredPhase, averageVertSpeed, s.opts, data);
    assert s.history.inferredPhase == t.0 && s.voiceBox.spoken == p4.said + t.1;
    AnnounceThousands(s, lastAltitudeThousands, altitudeThousands);
    ghost var b := Boundary(LastThousands(p0.history), Thousands(data), t.0);
    assert s.voiceBox.spoken == p4.said + t.1 + b;
    AppendAssociates(p4.said, t.1, b);
  }

  /** Lines 69-79 of `report_data`. */
  method UpdateVerticalSpeed(s: AppState, data: Data, now: int)
    requires s.Valid()
    modifies s.history, s.history.averageVertSpeed
    ensures s.Valid()
    ensures s.Now() == Measure(old(s.Now()), s.opts, data, now)
  {
    var h := s.history;
    // In feet per minute; with no elapsed time there is no measurement.
    var elapsedMs := now - h.lastTime;
    if elapsedMs > 0 {
      var instantaneousVertSpeed := (data.altitude - h.lastAltitude) / (elapsedMs as real / 1000.0) * 60.0;
      if Abs(instantaneousVertSpeed) < s.opts.verticalSpeedDiscardThreshold {
        // The time of the last measurement moves only for an accepted one.
        h.lastTime := now;
        h.averageVertSpeed.Add(instantaneousVertSpeed);
      }
    }
    h.lastAltitude := data.altitude;
  }

  lemma AppendAssociates(a: seq<Alert>, b: seq<Alert>, c: seq<Alert>)
    ensures a + b + c == a + (b + c)
  {
  }

  /** Lines 85-143 of `report_data`: the timer and the threshold warnings. */
  method CheckAllWarnings(s: AppState, data: Data, now: int)
    modifies s.history, s.voiceBox
    ensures s.Now() == CheckWarnings(old(s.Now()), s.opts, data, now)
  {
    RunTimer(s, now);
    WarnLimits(s, data, now);
    LatchMinSpeed(s, data, now);
  }

  /** Lines 85-93 of `report_data`. */
  method RunTimer(s: AppState, now: int)
    modifies s.history, s.voiceBox
    ensures s.Now() == CheckTimer(old(s.Now()), now)
  {
    match s.history.timer {
      case None =>
      case Some(t) =>
        if now >= t {
          s.history.SayOrSuppress(s.voiceBox, TimerElapsed, now);
          s.history.timer := None;
        }
    }
  }

  /** Lines 95-126 of `report_data`. */
  method WarnLimits(s: AppState, data: Data, now: int)
    modifies s.history, s.voiceBox
    ensures s.Now() == CheckLimits(old(s.Now()), s.opts, data, now)
  {
    match s.opts.maxspeedWarning {
      case Some(maxspeedWarning) =>
        if data.airspeedIndicated > maxspeedWarning {
          s.history.SayOrSuppress(s.voiceBox, AirspeedTooHigh(AsI32(data.airspeedIndicated)), now);
        }
      case None =>
    }
    match s.opts.maxbankWarning {
      case Some(bankWarning) =>
        if Abs(data.bankDegrees) > bankWarning {
          s.history.SayOrSuppress(s.voiceBox, BankTooHigh(AsI32(data.bankDegrees)), now);
        }
      case None =>
    }
    match s.opts.maxpitchWarning {
      case Some(pitchWarning) =>
        if Abs(data.pitchDegrees) > pitchWarning {
          s.history.SayOrSuppress(s.voiceBox, PitchTooHigh(AsI32(data.pitchDegrees)), now);
        }
      case None =>
    }
  }

  /** Lines 128-143 of `report_data`. */
  method LatchMinSpeed(s: AppState, data: Data, now: int)
    modifies s.history, s.voiceBox
    ensures s.Now() == CheckMinSpeed(old(s.Now()), s.opts, data, now)
  {
    match s.opts.minspeedWarning {
      case Some(minspeedWarning) =>
        if !s.history.minspeedEverExceeded {
          if data.airspeedIndicated > minspeedWarning {
            s.history.minspeedEverExceeded := true;
          }
        } else {
          if data.airspeedIndicated < minspeedWarning {
            s.history.SayOrSuppress(s.voiceBox, AirspeedBelow(minspeedWarning), now);
          }
        }
      case None =>
    }
  }

  /** Lines 147-185 of `report_data`. */
  method InferPhase(s: AppState, data: Data, averageVertSpeed: real, altitudeToNearest500: int)
    requires altitudeToNearest500 == AltitudeToNearest500(RoundToI32(data.altitude))
    modifies s.history, s.voiceBox
    ensures var t := Transition(old(s.history.inferredPhase), averageVertSpeed, s.opts, data);
      s.Now() == Progress(old(s.history.View()).(inferredPhase := t.0), old(s.voiceBox.spoken) + t.1)
  {
    var h, opts, voiceBox := s.history, s.opts, s.voiceBox;
    match (h.inferredPhase, averageVertSpeed < opts.descentThreshold, averageVertSpeed > opts.climbThreshold) {
      case (Cruise(_), true, _) =>
        h.inferredPhase := Descent;
        voiceBox.Say(StartedDescent);
      case (Cruise(_), false, true) =>
        h.inferredPhase := Climb;
        voiceBox.Say(Climbing);
      case (Cruise(cruisePhase), false, false) =>
        if Abs(data.airspeedIndicated - cruisePhase.airspeed) > CruiseAirspeedDrift
           || Abs(data.altitude - cruisePhase.altitude) > CruiseAltitudeDrift
        {
          h.inferredPhase := Cruise(CruisePhase(data.airspeedIndicated, data.altitude));
          voiceBox.Say(NowCruising(altitudeToNearest500, RoundToI32(data.airspeedIndicated)));
        }
      case (_, false, false) =>
        h.inferredPhase := Cruise(CruisePhase(data.airspeedIndicated, data.altitude));
        voiceBox.Say(LevelingOff);
      case _ =>
        // Strange readings: nothing to say.
    }
  }

  /** Lines 187-201 of `report_data`. */
  method AnnounceThousands(s: AppState, lastAltitudeThousands: int, altitudeThousands: int)
    modifies s.voiceBox
    ensures s.voiceBox.spoken ==
              old(s.voiceBox.spoken) + Boundary(lastAltitudeThousands, altitudeThousands, s.history.inferredPhase)
  {
    if lastAltitudeThousands != altitudeThousands {
      match s.history.inferredPhase {
        case Cruise(_) =>
        case Climb => s.voiceBox.Say(Passing(altitudeThousands));
        case Descent => s.voiceBox.Say(Passing(lastAltitudeThousands));
      }
    }
  }
}
