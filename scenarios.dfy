/** Concrete situations worked through the model of `report_data`. */
module FlightScenarios {
  import opened RustNumerics
  import opened TalkingAirplane

  /** Two warnings three seconds apart: only the first is said. Six seconds
      apart: both are. */
  lemma GateSpacing(h: HistoryState, first: Alert, second: Alert)
    requires h.lastWarning == 0
    ensures var p := WarnGate(Progress(h, []), 10000, first);
      && WarnGate(p, 13000, second).said == [first]
      && WarnGate(p, 16000, second).said == [first, second]
  {
  }

  /** With the gate open, an overspeed and a steep bank in the same sample:
      the airspeed warning, checked first, is said, and it shuts the gate on
      the bank warning. */
  lemma OverspeedOutranksBank(h: HistoryState, opts: Opts, data: Data, now: int)
    requires !Due(h.timer, now) && now - h.lastWarning > WarningGapMs
    requires opts.maxspeedWarning == Some(250.0) && opts.maxbankWarning == Some(30.0)
    requires data.airspeedIndicated == 260.4 && data.bankDegrees == -45.0
    ensures WarningSaid(h, opts, data, now) == [AirspeedTooHigh(260)]
  {
  }

  /** Altitude rising 100 feet over 60 seconds is 100 feet per minute; no
      elapsed time gives no measurement at all. */
  lemma HundredFeetPerMinute(lastAltitude: real, t: int)
    ensures VerticalSpeed(lastAltitude, t, lastAltitude + 100.0, t + 60000) == Some(100.0)
    ensures VerticalSpeed(lastAltitude, t, lastAltitude + 100.0, t) == None
  {
    var v := VerticalSpeed(lastAltitude, t, lastAltitude + 100.0, t + 60000);
    assert v.value * 60000.0 == 100.0 * 60000.0;
  }

  /** From the initial cruise a smoothed rate of -300 with a descent threshold
      of -200 starts a descent with a single announcement; a following rate
      of -250 says nothing more. */
  lemma StartedDescentOnce(opts: Opts, data: Data)
    requires opts.descentThreshold == -200.0 && opts.climbThreshold == 200.0
    ensures Transition(Cruise(CruisePhase(0.0, 0.0)), -300.0, opts, data) == (Descent, [StartedDescent])
    ensures Transition(Descent, -250.0, opts, data) == (Descent, [])
  {
  }

  /** Climbing through 9800, 9850, 9900 and 10050 feet announces ten thousand
      feet once, on the sample where the thousands change from 9 to 10. */
  lemma PassingTenThousand()
    ensures Boundary(Quot(AsI32(9800.0), 1000), Quot(RoundToI32(9850.0), 1000), Climb) == []
    ensures Boundary(Quot(AsI32(9850.0), 1000), Quot(RoundToI32(9900.0), 1000), Climb) == []
    ensures Boundary(Quot(AsI32(9900.0), 1000), Quot(RoundToI32(10050.0), 1000), Climb) == [Passing(10)]
  {
  }

  /** The previous altitude is truncated and the current one rounded: a climb
      holding at 999.6 feet compares 0 with 1 thousand on every sample, so it
      announces one thousand feet again and again. */
  lemma HoldingJustBelowAThousand()
    ensures Boundary(Quot(AsI32(999.6), 1000), Quot(RoundToI32(999.6), 1000), Climb) == [Passing(1)]
  {
  }

  /** The announced cruise altitude is cut back to a multiple of 500, not
      rounded: 9 999 feet is announced as 9 500. */
  lemma CruiseAltitudeTruncates()
    ensures AltitudeToNearest500(RoundToI32(9999.0)) == 9500
    ensures AltitudeToNearest500(RoundToI32(-700.0)) == -500
  {
  }
}
