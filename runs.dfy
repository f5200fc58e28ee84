/** Properties of `report_data` over a whole stream of samples: the
    countdown fires at most once, the minimum-speed latch never resets, no
    low-speed warning is said before the latch is set, and the smoothed
    vertical speed stays within the discard threshold. */
module FlightRuns {
  import opened RustNumerics
  import opened MovingAverages
  import opened TalkingAirplane

  /** A sample together with the time it was taken, in milliseconds. */
  datatype Sample = Sample(data: Data, now: int)

  /** `report_data` applied to each sample in turn. Everything said before the
      run is kept, and the moving average keeps its window. */
  function Run(p: Progress, opts: Opts, samples: seq<Sample>): (r: Progress)
    requires p.history.Valid()
    ensures r.history.Valid()
    ensures r.history.averageVertSpeed.maxCounter == p.history.averageVertSpeed.maxCounter
    ensures |p.said| <= |r.said| && r.said[..|p.said|] == p.said
    decreases |samples|
  {
    if samples == [] then p
    else Run(Report(p, opts, samples[0].data, samples[0].now), opts, samples[1..])
  }

  /** In what one sample adds to the speech, the countdown message can only
      come first and only when the timer is due, and the low-speed warning can
      only come first and only once the latch is set: the announcements that
      follow the gated warning are never either of them. */
  lemma ReportWarningsComeFirst(p: Progress, opts: Opts, data: Data, now: int)
    requires p.history.Valid()
    ensures var r := Report(p, opts, data, now);
      && (forall i | |p.said| <= i < |r.said| ::
            r.said[i] == TimerElapsed ==> i == |p.said| && Due(p.history.timer, now))
      && (forall i | |p.said| <= i < |r.said| ::
            r.said[i].AirspeedBelow? ==> i == |p.said| && p.history.minspeedEverExceeded)
  {
    var r := Report(p, opts, data, now);
    var h := p.history;
    var due, latched := Due(h.timer, now), h.minspeedEverExceeded;
    var g := WarningSaid(h, opts, data, now);
    GatedWarning(opts, data, due, latched, h.lastWarning, now);
    AnnouncementsAreNotWarnings(h, r.history.averageVertSpeed.average, opts, data);
    WarningFirstInSpeech(p.said, g, Announced(h, r.history.averageVertSpeed.average, opts, data), due, latched);
  }

  /** The layout of one sample's speech: at most one gated warning, then
      announcements that are neither the timer nor the low-speed message. */
  lemma WarningFirstInSpeech(said: seq<Alert>, g: seq<Alert>, tail: seq<Alert>, due: bool, latched: bool)
    requires |g| <= 1
    requires g != [] ==> (g[0] == TimerElapsed ==> due) && (g[0].AirspeedBelow? ==> latched)
    requires forall a | a in tail :: !a.TimerElapsed? && !a.AirspeedBelow?
    ensures var r := said + g + tail;
      && (forall i | |said| <= i < |r| :: r[i] == TimerElapsed ==> i == |said| && due)
      && (forall i | |said| <= i < |r| :: r[i].AirspeedBelow? ==> i == |said| && latched)
  {
    var r, n := said + g + tail, |said|;
    forall i | n <= i < |r|
      ensures r[i] == TimerElapsed ==> i == n && due
      ensures r[i].AirspeedBelow? ==> i == n && latched
    {
      if i < n + |g| {
        assert r[i] == g[0];
      } else {
        assert r[i] == tail[i - n - |g|];
      }
    }
  }

  /** Neither the phase announcement nor the crossing announcement is the
      countdown message or the low-speed warning. */
  lemma AnnouncementsAreNotWarnings(h: HistoryState, averageVertSpeed: real, opts: Opts, data: Data)
    ensures forall a | a in Announced(h, averageVertSpeed, opts, data) :: !a.TimerElapsed? && !a.AirspeedBelow?
  {
  }

  /** The countdown timer is said at most once over any run, and not at all
      once it has been cleared. */
  lemma {:induction false} TimerFiresAtMostOnce(p: Progress, opts: Opts, samples: seq<Sample>)
    requires p.history.Valid()
    ensures var r := Run(p, opts, samples);
      && multiset(r.said)[TimerElapsed] <=
           multiset(p.said)[TimerElapsed] + (if p.history.timer.Some? then 1 else 0)
      && (p.history.timer.None? ==> r.history.timer.None?)
    decreases |samples|
  {
    if samples != [] {
      var s := samples[0];
      var q := Report(p, opts, s.data, s.now);
      TimerFiresAtMostOnce(q, opts, samples[1..]);
      ReportWarningsComeFirst(p, opts, s.data, s.now);
      TimerSaidAtMostOnceBySample(p, q, Due(p.history.timer, s.now));
    }
  }

  /** Counting `TimerElapsed` in what one sample adds. */
  lemma TimerSaidAtMostOnceBySample(p: Progress, q: Progress, due: bool)
    requires |p.said| <= |q.said| && q.said[..|p.said|] == p.said
    requires forall i | |p.said| <= i < |q.said| :: q.said[i] == TimerElapsed ==> i == |p.said| && due
    ensures multiset(q.said)[TimerElapsed] <= multiset(p.said)[TimerElapsed] + (if due then 1 else 0)
  {
    var n := |p.said|;
    var rest := q.said[n..];
    assert q.said == p.said + rest;
    if rest != [] {
      assert rest == [rest[0]] + rest[1..];
      assert forall i | 0 <= i < |rest[1..]| :: rest[1..][i] == q.said[n + 1 + i];
      assert TimerElapsed !in rest[1..];
      assert rest[0] == TimerElapsed ==> due;
    }
  }

  /** The minimum-speed latch never goes back to false. */
  lemma {:induction false} LatchIsOneWay(p: Progress, opts: Opts, samples: seq<Sample>)
    requires p.history.Valid()
    requires p.history.minspeedEverExceeded
    ensures Run(p, opts, samples).history.minspeedEverExceeded
    decreases |samples|
  {
    if samples != [] {
      LatchIsOneWay(Report(p, opts, samples[0].data, samples[0].now), opts, samples[1..]);
    }
  }

  /** The airspeed never exceeds the configured minimum in `samples`. */
  predicate NeverAboveMinimum(opts: Opts, samples: seq<Sample>)
  {
    opts.minspeedWarning.Some? ==>
      forall i | 0 <= i < |samples| :: samples[i].data.airspeedIndicated <= opts.minspeedWarning.value
  }

  /** As long as the airspeed has never exceeded the minimum, no low-speed
      warning is said, however low the airspeed is, and the latch stays off. */
  lemma {:induction false} NoLowSpeedWarningBeforeLatch(p: Progress, opts: Opts, samples: seq<Sample>)
    requires p.history.Valid()
    requires !p.history.minspeedEverExceeded
    requires NeverAboveMinimum(opts, samples)
    ensures var r := Run(p, opts, samples);
      && !r.history.minspeedEverExceeded
      && forall i | |p.said| <= i < |r.said| :: !r.said[i].AirspeedBelow?
    decreases |samples|
  {
    if samples != [] {
      var s := samples[0];
      var q := Report(p, opts, s.data, s.now);
      ReportWarningsComeFirst(p, opts, s.data, s.now);
      assert NeverAboveMinimum(opts, samples[1..]) by {
        forall i | 0 <= i < |samples[1..]|
          ensures opts.minspeedWarning.Some? ==> samples[1..][i].data.airspeedIndicated <= opts.minspeedWarning.value
        {
          assert samples[1..][i] == samples[i + 1];
        }
      }
      NoLowSpeedWarningBeforeLatch(q, opts, samples[1..]);
      var r := Run(q, opts, samples[1..]);
      forall i | |p.said| <= i < |r.said|
        ensures !r.said[i].AirspeedBelow?
      {
        if i < |q.said| {
          assert r.said[i] == r.said[..|q.said|][i] == q.said[i];
        }
      }
    }
  }

  /** Only speeds below the discard threshold in magnitude reach the average,
      and each update lands between the old average and the new speed, so the
      smoothed vertical speed stays within the threshold. */
  lemma {:induction false} SmoothedRateWithinDiscard(p: Progress, opts: Opts, samples: seq<Sample>)
    requires p.history.Valid()
    requires Abs(p.history.averageVertSpeed.average) <= opts.verticalSpeedDiscardThreshold
    ensures Abs(Run(p, opts, samples).history.averageVertSpeed.average) <= opts.verticalSpeedDiscardThreshold
    decreases |samples|
  {
    if samples != [] {
      var s := samples[0];
      var q := Report(p, opts, s.data, s.now);
      ReportKeepsRateWithinDiscard(p, opts, s.data, s.now);
      SmoothedRateWithinDiscard(q, opts, samples[1..]);
    }
  }

  /** One sample keeps the smoothed vertical speed within the discard
      threshold. */
  lemma ReportKeepsRateWithinDiscard(p: Progress, opts: Opts, data: Data, now: int)
    requires p.history.Valid()
    requires Abs(p.history.averageVertSpeed.average) <= opts.verticalSpeedDiscardThreshold
    ensures Abs(Report(p, opts, data, now).history.averageVertSpeed.average) <= opts.verticalSpeedDiscardThreshold
  {
    var f := p.history.averageVertSpeed;
    var v := VerticalSpeed(p.history.lastAltitude, p.history.lastTime, data.altitude, now);
    if Accepted(v, opts.verticalSpeedDiscardThreshold) {
      var g := Added(f, v.value);
      assert MinR(f.average, v.value) <= g.average <= MaxR(f.average, v.value);
    }
  }

  /** From start-up the smoothed vertical speed never reaches past the discard
      threshold (a non-negative threshold: a negative one discards everything
      and the average stays 0). */
  lemma SmoothedRateBoundedFromStart(opts: Opts, start: int, samples: seq<Sample>)
    requires opts.verticalSpeedWindowSize >= 1
    requires opts.verticalSpeedDiscardThreshold >= 0.0
    ensures Abs(Run(Progress(InitialHistory(opts, start), []), opts, samples).history.averageVertSpeed.average)
              <= opts.verticalSpeedDiscardThreshold
  {
    SmoothedRateWithinDiscard(Progress(InitialHistory(opts, start), []), opts, samples);
  }
}
