/**
 * Properties of the reconciler across whole log lines and runs of log lines:
 * when the event expires, when it is held, and two worked scenarios.
 */
module LogcatNaviProperties {
  import opened Decimal
  import opened LogcatNavi

  /** The map-enable flag is re-read only on a log line at least 5 seconds after the last re-read. */
  lemma MapEnableCadence(s: ReconcilerState, entry: LogEntry, speed: real, mapEnableParam: int)
    ensures var s' := Next(s, entry, speed, mapEnableParam);
      if entry.tvSec - s.lastTime >= 5 then
        s'.lastTime == entry.tvSec && s'.event.mapEnable == mapEnableParam
      else
        s'.lastTime == s.lastTime && s'.event.mapEnable == s.event.mapEnable
  {
  }

  /** A log line with an unknown tag leaves the tag-fed fields, the event time and the flag's activity alone. */
  lemma UnknownTagKeepsTelemetry(s: ReconcilerState, entry: LogEntry, speed: real, mapEnableParam: int)
    requires entry.tag !in RecognisedTags
    ensures var s' := Next(s, entry, speed, mapEnableParam);
      SameTelemetry(s'.event, s.event) && s'.event.eventSec == s.event.eventSec &&
      (s.opkr == 0 ==> s'.opkr == 0)
  {
  }

  /** Only a sign-type line moves the event time, and then to the line's own time. */
  lemma OnlySignTypeRestartsEvent(s: ReconcilerState, entry: LogEntry, speed: real, mapEnableParam: int)
    ensures var s' := Next(s, entry, speed, mapEnableParam);
      if entry.tag == TagSignType then s'.event.eventSec == CurrentTime(entry)
      else s'.event.eventSec == s.event.eventSec
  {
  }

  /** Moving, an event whose sign-type line is more than 3 seconds old is hidden, whatever its distance. */
  lemma StaleEventExpires(s: ReconcilerState, entry: LogEntry, speed: real, mapEnableParam: int)
    requires entry.tag != TagSignType && speed > 1.0
    requires CurrentTime(entry) - s.event.eventSec > 3.0
    ensures !Next(s, entry, speed, mapEnableParam).event.mapValid
  {
  }

  /** Moving, an event less than 2 seconds from its projected arrival is hidden. */
  lemma ImminentEventExpires(s: ReconcilerState, entry: LogEntry, speed: real, mapEnableParam: int)
    requires entry.tag != TagSignType && speed > 1.0
    requires s.event.hideTimeSec - CurrentTime(entry) < 2.0
    ensures !Next(s, entry, speed, mapEnableParam).event.mapValid
  {
  }

  /**
   * Moving, a sign-type line shows its event unless it is under 2 seconds away; the
   * projections are then the arrival time and distance of `update_event`.
   */
  lemma SignTypeWhileMoving(s: ReconcilerState, entry: LogEntry, speed: real, mapEnableParam: int)
    requires entry.tag == TagSignType && speed > 1.0
    ensures var s' := Next(s, entry, speed, mapEnableParam);
      var d := EffectiveDistance(s.event.(safetySign := Atoi(entry.message) as real));
      s'.event.safetySign == Atoi(entry.message) as real &&
      (d > 10.0 ==>
        s'.stopSec == ArrivalTime(d, speed) && s'.event.arrivalTimeSec == ArrivalTime(d, speed) &&
        s'.event.arrivalDistance == d &&
        (s'.event.mapValid <==> ArrivalTime(d, speed) >= 2.0)) &&
      (d <= 10.0 ==> s'.stopSec == 3.0 && s'.event.mapValid)
  {
    var now := CurrentTime(entry);
    var s1 := RefreshClock(s, entry.tvSec, mapEnableParam);
    assert s1.event.(tvSec := s.event.tvSec, mapEnable := s.event.mapEnable) == s.event;
    SignTypeThenHide(s1, entry.message, now, speed);
  }

  /** The dispatch of a sign-type line: the new code, flag 4, the event restarted and `update_event` applied. */
  lemma SignTypeDispatched(s1: ReconcilerState, message: string, now: real, speed: real)
    ensures var s2 := Dispatch(s1, TagSignType, message, now, speed);
      var d := EffectiveDistance(s1.event.(safetySign := Atoi(message) as real));
      s2.event.safetySign == Atoi(message) as real && s2.opkr == 4 && s2.event.eventSec == now &&
      (d > 10.0 ==> s2.event.hideTimeSec - now == ArrivalTime(d, speed)) &&
      (d <= 10.0 ==> s2.event.hideTimeSec - now == 3.0)
  {
    var e := WithField(s1.event, SafetySign, Atoi(message)).(eventSec := now);
    assert EffectiveDistance(e) == EffectiveDistance(s1.event.(safetySign := Atoi(message) as real));
  }

  /** The hide process right after a sign-type line, while moving. */
  lemma HideAfterSignType(s2: ReconcilerState, now: real, speed: real, d: real)
    requires speed > 1.0 && s2.opkr == 4 && s2.event.eventSec == now
    requires d > 10.0 ==> s2.event.hideTimeSec - now == ArrivalTime(d, speed)
    requires d <= 10.0 ==> s2.event.hideTimeSec - now == 3.0
    ensures var s3 := Hide(s2, now, speed);
      s3.event.safetySign == s2.event.safetySign && s3.opkr in {0, 4} &&
      (d > 10.0 ==>
        s3.stopSec == ArrivalTime(d, speed) && s3.event.arrivalTimeSec == ArrivalTime(d, speed) &&
        s3.event.arrivalDistance == d &&
        (s3.opkr != 0 <==> ArrivalTime(d, speed) >= 2.0)) &&
      (d <= 10.0 ==> s3.stopSec == 3.0 && s3.opkr != 0)
  {
    var s3 := Hide(s2, now, speed);
    assert s3.event.arrivalDistance == s3.stopSec * speed;
    if d > 10.0 {
      assert ArrivalTime(d, speed) * speed == d;
    }
  }

  /** The dispatch and hide process of a sign-type line while moving. */
  lemma SignTypeThenHide(s1: ReconcilerState, message: string, now: real, speed: real)
    requires speed > 1.0
    ensures var s3 := Hide(Dispatch(s1, TagSignType, message, now, speed), now, speed);
      var d := EffectiveDistance(s1.event.(safetySign := Atoi(message) as real));
      s3.event.safetySign == Atoi(message) as real && s3.opkr in {0, 4} &&
      (d > 10.0 ==>
        s3.stopSec == ArrivalTime(d, speed) && s3.event.arrivalTimeSec == ArrivalTime(d, speed) &&
        s3.event.arrivalDistance == d &&
        (s3.opkr != 0 <==> ArrivalTime(d, speed) >= 2.0)) &&
      (d <= 10.0 ==> s3.stopSec == 3.0 && s3.opkr != 0)
  {
    SignTypeDispatched(s1, message, now, speed);
    HideAfterSignType(Dispatch(s1, TagSignType, message, now, speed), now, speed,
                      EffectiveDistance(s1.event.(safetySign := Atoi(message) as real)));
  }

  /**
   * Stationary, a sign-type line keeps its event shown, and the hide time `update_event`
   * just computed is replaced by the line's time plus the carried-over stop time.
   */
  lemma SignTypeWhileStationary(s: ReconcilerState, entry: LogEntry, speed: real, mapEnableParam: int)
    requires entry.tag == TagSignType && speed <= 1.0
    ensures var s' := Next(s, entry, speed, mapEnableParam);
      s'.event.mapValid && s'.opkr == 4 &&
      s'.event.hideTimeSec == CurrentTime(entry) + s.stopSec && s'.stopSec == s.stopSec
  {
  }

  /** One stationary log line never clears an active event nor drains its remaining time. */
  lemma StationaryStep(s: ReconcilerState, c: Cycle)
    requires s.opkr != 0 && c.speed <= 1.0
    ensures var s' := Next(s, c.entry, c.speed, c.mapEnableParam);
      s'.opkr != 0 && s'.event.mapValid && s'.stopSec == s.stopSec &&
      s'.event.hideTimeSec == CurrentTime(c.entry) + s.stopSec
  {
    TagsDistinct();
  }

  predicate Stationary(cycles: seq<Cycle>) {
    forall i :: 0 <= i < |cycles| ==> cycles[i].speed <= 1.0
  }

  /**
   * While the vehicle stands, an active event stays shown however many log lines arrive,
   * and its hide time keeps the same distance ahead of the latest line.
   */
  lemma {:induction false} StationaryKeepsEventVisible(s: ReconcilerState, cycles: seq<Cycle>)
    requires s.opkr != 0 && Stationary(cycles)
    ensures Run(s, cycles).opkr != 0 && Run(s, cycles).stopSec == s.stopSec
    ensures cycles != [] ==>
      Run(s, cycles).event.mapValid &&
      Run(s, cycles).event.hideTimeSec == CurrentTime(cycles[|cycles| - 1].entry) + s.stopSec
    decreases |cycles|
  {
    if cycles != [] {
      var earlier := cycles[..|cycles| - 1];
      assert Stationary(earlier) by {
        forall i | 0 <= i < |earlier| ensures earlier[i].speed <= 1.0 {
          assert earlier[i] == cycles[i];
        }
      }
      StationaryKeepsEventVisible(s, earlier);
      StationaryStep(Run(s, earlier), cycles[|cycles| - 1]);
    }
  }

  // The payloads of the scenarios below, read back through the "%d" round trip.

  lemma Payload60()
    ensures Atoi("60") == 60
  {
    assert Digits(6) == "6";
    assert DecimalString(60) == Digits(6) + [DigitChar(0)] == "60";
    AtoiOfDecimalString(60);
  }

  lemma Payload500()
    ensures Atoi("500") == 500
  {
    assert Digits(5) == "5";
    assert Digits(50) == Digits(5) + [DigitChar(0)] == "50";
    assert DecimalString(500) == Digits(50) + [DigitChar(0)] == "500";
    AtoiOfDecimalString(500);
  }

  lemma Payload131()
    ensures Atoi("131") == 131
  {
    assert Digits(1) == "1";
    assert Digits(13) == Digits(1) + [DigitChar(3)] == "13";
    assert DecimalString(131) == Digits(13) + [DigitChar(1)] == "131";
    AtoiOfDecimalString(131);
  }

  lemma Payload124()
    ensures Atoi("124") == 124
  {
    assert Digits(1) == "1";
    assert Digits(12) == Digits(1) + [DigitChar(2)] == "12";
    assert DecimalString(124) == Digits(12) + [DigitChar(4)] == "124";
    AtoiOfDecimalString(124);
  }

  lemma CameraScenarioLimit()
    ensures var s1 := Next(Initial, LogEntry(TagSpdLimit, "60", 100, 0), 20.0, 1);
      s1.event.speedLimit == 60.0 && s1.event.safetySign == 0.0 && s1.event.mapEnable == 1 &&
      s1.lastTime == 100
  {
    Payload60();
  }

  lemma CameraScenarioDistance(s1: ReconcilerState)
    requires s1.event.speedLimit == 60.0 && s1.event.safetySign == 0.0 && s1.event.mapEnable == 1
    requires s1.lastTime == 100
    ensures var s2 := Next(s1, LogEntry(TagSpdDist, "500", 100, 0), 20.0, 1);
      s2.event.speedLimit == 60.0 && s2.event.safetySign == 0.0 && s2.event.mapEnable == 1 &&
      s2.event.speedLimitDistance == 500.0 && s2.lastTime == 100 && TrafficType(s2) == 0
  {
    Payload500();
    TagsDistinct();
  }

  lemma CameraScenarioSign(s2: ReconcilerState)
    requires s2.event.speedLimit == 60.0 && s2.event.safetySign == 0.0 && s2.event.mapEnable == 1
    requires s2.event.speedLimitDistance == 500.0 && s2.lastTime == 100
    ensures var s3 := Next(s2, LogEntry(TagSignType, "131", 100, 0), 20.0, 1);
      s3.event.mapValid && s3.event.arrivalTimeSec == 25.0 && s3.event.arrivalDistance == 500.0 &&
      s3.event.speedLimit == 60.0 && s3.event.mapEnable == 1 &&
      s3.event.safetySign == 131.0 && s3.event.speedLimitDistance == 500.0 && s3.event.eventSec == 100.0 &&
      TrafficType(s3) == 1
  {
    Payload131();
    var entry := LogEntry(TagSignType, "131", 100, 0);
    assert CurrentTime(entry) == 100.0;
    SignTypeWhileMoving(s2, entry, 20.0, 1);
    assert TruncToInt(131.0) == 131;
  }

  /**
   * Speed limit 60, then distance 500 m, then a signal camera (131) at 20 m/s: the camera
   * is shown 25 s and 500 m ahead. Its `trafficType` of 1 is published one line later,
   * because `trafficType` is taken before the line's tag is applied; a line 26 s later
   * finds the event stale and hides it.
   */
  lemma CameraScenario()
    ensures
      var s1 := Next(Initial, LogEntry(TagSpdLimit, "60", 100, 0), 20.0, 1);
      var s2 := Next(s1, LogEntry(TagSpdDist, "500", 100, 0), 20.0, 1);
      var s3 := Next(s2, LogEntry(TagSignType, "131", 100, 0), 20.0, 1);
      var s4 := Next(s3, LogEntry("foo", "", 126, 0), 20.0, 1);
      s3.event.mapValid && s3.event.arrivalTimeSec == 25.0 && s3.event.arrivalDistance == 500.0 &&
      s3.event.speedLimit == 60.0 && s3.event.mapEnable == 1 &&
      TrafficType(s2) == 0 && TrafficType(s3) == 1 && !s4.event.mapValid
  {
    var s1 := Next(Initial, LogEntry(TagSpdLimit, "60", 100, 0), 20.0, 1);
    CameraScenarioLimit();
    var s2 := Next(s1, LogEntry(TagSpdDist, "500", 100, 0), 20.0, 1);
    CameraScenarioDistance(s1);
    var s3 := Next(s2, LogEntry(TagSignType, "131", 100, 0), 20.0, 1);
    CameraScenarioSign(s2);
    var late := LogEntry("foo", "", 126, 0);
    assert late.tag != TagSignType by {
      assert |late.tag| != |TagSignType|;
    }
    assert CurrentTime(late) == 126.0;
    StaleEventExpires(s3, late, 20.0, 1);
  }

  /** A speed bump (124) with no distance is projected 200 m ahead: 20 s at 10 m/s. */
  lemma SpeedBumpScenario()
    ensures
      var s' := Next(Initial, LogEntry(TagSignType, "124", 100, 0), 10.0, 0);
      s'.event.mapValid && s'.event.arrivalTimeSec == 20.0 && s'.event.arrivalDistance == 200.0 &&
      s'.event.hideTimeSec == 120.0
  {
    Payload124();
    assert CurrentTime(LogEntry(TagSignType, "124", 100, 0)) == 100.0;
  }
}
