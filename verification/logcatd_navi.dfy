/**
 * The navigation-event reconciler of logcatd_navi: one `LiveNaviDataResult` record that
 * tag-keyed log lines from the map application overwrite field by field, and the
 * visibility state machine (`opkr`, the event and hide times, the carried-over stop
 * time) that decides `mapValid` and the arrival projections after every log line.
 *
 * Floats and doubles are modelled as `real` (no rounding); C's float-to-int conversion
 * and integer division are written out as truncation toward zero.
 */
module LogcatNavi {
  import opened Decimal

  /** The six tags the reconciler recognises (exact, case-sensitive match). */
  const TagSpdDist := "opkrspddist"
  const TagSpdLimit := "opkrspdlimit"
  const TagCurvAngle := "opkrcurvangle"
  const TagSignType := "opkrsigntype"
  const TagTurnInfo := "opkrturninfo"
  const TagDistanceToTurn := "opkrdistancetoturn"

  /** The tags that (re)activate the event flag `opkr`. */
  const ActivatingTags := {TagSpdDist, TagSpdLimit, TagCurvAngle, TagSignType}
  const RecognisedTags := ActivatingTags + {TagTurnInfo, TagDistanceToTurn}

  /** No two recognised tags are equal. */
  lemma TagsDistinct()
    ensures |RecognisedTags| == 6
  {
    assert TagSpdDist[4] == 's' && TagSpdDist[5] == 'p' && TagSpdDist[7] == 'd' && |TagSpdDist| == 11;
    assert TagSpdLimit[4] == 's' && TagSpdLimit[5] == 'p' && TagSpdLimit[7] == 'l' && |TagSpdLimit| == 12;
    assert TagCurvAngle[4] == 'c' && |TagCurvAngle| == 13;
    assert TagSignType[4] == 's' && TagSignType[5] == 'i' && |TagSignType| == 12;
    assert TagTurnInfo[4] == 't' && |TagTurnInfo| == 12;
    assert TagDistanceToTurn[4] == 'd' && |TagDistanceToTurn| == 18;
  }

  /** Sign code of a speed bump. */
  const SpeedBump := 124

  /** `LiveNaviDataResult`: the one navigation record, published after every log line. */
  datatype LiveNaviData = LiveNaviData(
    speedLimit: real,
    speedLimitDistance: real,
    safetySign: real,
    roadCurvature: real,
    turnInfo: int,
    distanceToTurn: int,
    mapValid: bool,
    mapEnable: int,
    arrivalDistance: real,  // metres
    arrivalTimeSec: real,   // seconds
    eventSec: real,
    hideTimeSec: real,
    tvSec: int)

  /** The record at start-up: every field zero (the source leaves it uninitialised). */
  const ZeroEvent := LiveNaviData(0.0, 0.0, 0.0, 0.0, 0, 0, false, 0, 0.0, 0.0, 0.0, 0.0, 0)

  /** The fields only the tags write (everything but the timers and derived values). */
  predicate SameTelemetry(a: LiveNaviData, b: LiveNaviData) {
    a.speedLimit == b.speedLimit && a.speedLimitDistance == b.speedLimitDistance &&
    a.safetySign == b.safetySign && a.roadCurvature == b.roadCurvature &&
    a.turnInfo == b.turnInfo && a.distanceToTurn == b.distanceToTurn
  }

  /** One entry read from the Android log: its tag, message and timestamp. */
  datatype LogEntry = LogEntry(tag: string, message: string, tvSec: int, tvNsec: int)

  /** C's conversion of a floating-point value to `int`: truncation toward zero. */
  function TruncToInt(x: real): (n: int)
    ensures 0.0 <= x ==> 0 <= n && n as real <= x < n as real + 1.0
    ensures x < 0.0 ==> n <= 0 && n as real - 1.0 < x <= n as real
  {
    if x >= 0.0 then x.Floor else -((-x).Floor)
  }

  /** C's `long` division by 1000000, which truncates toward zero. */
  function DivMillion(a: int): (q: int)
    ensures 0 <= a ==> 0 <= q && q * 1000000 <= a < (q + 1) * 1000000
    ensures a < 0 ==> q <= 0 && (q - 1) * 1000000 < a <= q * 1000000
  {
    if a >= 0 then a / 1000000 else -((-a) / 1000000)
  }

  /** `traffic_camera`: 1 when the sign code is an enforcement camera the driver should be warned about. */
  function TrafficCamera(signalType: int, distance: real): (r: int)
    ensures r == 0 || r == 1
    ensures r == 1 <==> signalType in {131, 200, 231, 248} || (signalType == 165 && distance < 800.0)
  {
    match signalType
    case 131 => 1
    case 248 => 1
    case 200 => 1
    case 231 => 1
    case 165 => if distance < 800.0 then 1 else 0
    case _ => 0
  }

  /** `nsec2msec`: the log timestamp in whole milliseconds. */
  function Nsec2Msec(tvSec: int, tvNsec: int): (msec: int)
    ensures 0 <= tvNsec ==>
      msec * 1000000 <= tvSec * 1000000000 + tvNsec < (msec + 1) * 1000000
    ensures 0 <= tvNsec < 1000000000 ==> tvSec * 1000 <= msec <= tvSec * 1000 + 999
  {
    tvSec * 1000 + DivMillion(tvNsec)
  }

  /** `dCurTime`: the log timestamp in seconds, at millisecond resolution. */
  function CurrentTime(entry: LogEntry): (now: real)
    ensures 0 <= entry.tvNsec < 1000000000 ==>
      entry.tvSec as real <= now < entry.tvSec as real + 1.0
  {
    Nsec2Msec(entry.tvSec, entry.tvNsec) as real / 1000.0
  }

  /**
   * `arrival_time`: seconds to cover `distance` at `speed`; at speed exactly zero the
   * distance itself is returned instead of dividing by zero.
   */
  function ArrivalTime(distance: real, speed: real): (t: real)
    ensures speed == 0.0 ==> t == distance
    ensures speed != 0.0 ==> t * speed == distance
  {
    if speed != 0.0 then distance / speed else distance
  }

  /** The distance `update_event` projects to: a speed bump without a usable distance counts as 200 m. */
  function EffectiveDistance(e: LiveNaviData): (d: real)
    ensures d == e.speedLimitDistance || d == 200.0
    ensures d != e.speedLimitDistance ==> e.speedLimitDistance <= 10.0 && e.safetySign == SpeedBump as real
    ensures d > 10.0 <==> e.speedLimitDistance > 10.0 || e.safetySign == SpeedBump as real
  {
    if e.speedLimitDistance > 10.0 then e.speedLimitDistance
    else if e.safetySign == SpeedBump as real then 200.0
    else e.speedLimitDistance
  }

  /** The record after `update_event`: only the hide time and the arrival projections change. */
  function UpdatedEvent(e: LiveNaviData, speed: real): (e': LiveNaviData)
    ensures e' == e.(hideTimeSec := e'.hideTimeSec, arrivalTimeSec := e'.arrivalTimeSec,
                     arrivalDistance := e'.arrivalDistance)
    ensures EffectiveDistance(e) > 10.0 ==>
      e'.arrivalDistance == EffectiveDistance(e) &&
      e'.arrivalTimeSec == ArrivalTime(EffectiveDistance(e), speed) &&
      e'.hideTimeSec == e.eventSec + e'.arrivalTimeSec
    ensures EffectiveDistance(e) <= 10.0 ==>
      e'.hideTimeSec == e.eventSec + 3.0 &&
      e'.arrivalTimeSec == e.arrivalTimeSec && e'.arrivalDistance == e.arrivalDistance
  {
    var distance := EffectiveDistance(e);
    if distance > 10.0 then
      var arrival := ArrivalTime(distance, speed);
      e.(hideTimeSec := e.eventSec + arrival, arrivalTimeSec := arrival, arrivalDistance := distance)
    else
      e.(hideTimeSec := e.eventSec + 3.0)
  }

  /** The variables of `main` that carry over from one log line to the next. */
  datatype ReconcilerState = ReconcilerState(event: LiveNaviData, opkr: int, stopSec: real, lastTime: int)

  const Initial := ReconcilerState(ZeroEvent, 0, 1.0, 0)

  /** Step 1 of a log line: stamp the record and re-read the map-enable flag at most every 5 seconds. */
  function RefreshClock(s: ReconcilerState, tvSec: int, mapEnableParam: int): (s': ReconcilerState)
    ensures s'.event.tvSec == tvSec
    ensures tvSec - s.lastTime >= 5 ==> s'.lastTime == tvSec && s'.event.mapEnable == mapEnableParam
    ensures tvSec - s.lastTime < 5 ==> s'.lastTime == s.lastTime && s'.event.mapEnable == s.event.mapEnable
    ensures s'.opkr == s.opkr && s'.stopSec == s.stopSec
    ensures s'.event == s.event.(tvSec := tvSec, mapEnable := s'.event.mapEnable)
  {
    var e := s.event.(tvSec := tvSec);
    if tvSec - s.lastTime >= 5 then
      s.(event := e.(mapEnable := mapEnableParam), lastTime := tvSec)
    else
      s.(event := e)
  }

  /** The tag-fed field a recognised tag overwrites. */
  datatype Field = SpeedLimitDistance | SpeedLimit | RoadCurvature | SafetySign | TurnInfo | DistanceToTurn

  function WithField(e: LiveNaviData, f: Field, v: int): LiveNaviData {
    match f
    case SpeedLimitDistance => e.(speedLimitDistance := v as real)
    case SpeedLimit => e.(speedLimit := v as real)
    case RoadCurvature => e.(roadCurvature := v as real)
    case SafetySign => e.(safetySign := v as real)
    case TurnInfo => e.(turnInfo := v)
    case DistanceToTurn => e.(distanceToTurn := v)
  }

  /** Step 2 of a log line: apply the tag to the record by exact match. */
  function Dispatch(s: ReconcilerState, tag: string, message: string, now: real, speed: real): (s': ReconcilerState)
    ensures s'.stopSec == s.stopSec && s'.lastTime == s.lastTime
    ensures tag !in RecognisedTags ==> s' == s
    ensures tag == TagSpdDist ==> s'.opkr == 1
    ensures tag == TagSpdLimit ==> s'.opkr == 2
    ensures tag == TagCurvAngle ==> s'.opkr == 3
    ensures tag == TagSignType ==> s'.opkr == 4
    ensures tag !in ActivatingTags ==> s'.opkr == s.opkr
    ensures tag == TagSpdDist ==> s'.event == WithField(s.event, SpeedLimitDistance, Atoi(message))
    ensures tag == TagSpdLimit ==> s'.event == WithField(s.event, SpeedLimit, Atoi(message))
    ensures tag == TagCurvAngle ==> s'.event == WithField(s.event, RoadCurvature, Atoi(message))
    ensures tag == TagTurnInfo ==> s'.event == WithField(s.event, TurnInfo, Atoi(message))
    ensures tag == TagDistanceToTurn ==> s'.event == WithField(s.event, DistanceToTurn, Atoi(message))
    ensures tag == TagSignType ==>
      s'.event == UpdatedEvent(WithField(s.event, SafetySign, Atoi(message)).(eventSec := now), speed)
    ensures s'.event.eventSec != s.event.eventSec ==> tag == TagSignType && s'.event.eventSec == now
    ensures tag != TagSignType ==>
      s'.event.hideTimeSec == s.event.hideTimeSec && s'.event.arrivalTimeSec == s.event.arrivalTimeSec &&
      s'.event.arrivalDistance == s.event.arrivalDistance
  {
    TagsDistinct();
    var value := Atoi(message);
    if tag == TagSpdDist then
      s.(event := s.event.(speedLimitDistance := value as real), opkr := 1)
    else if tag == TagSpdLimit then
      s.(event := s.event.(speedLimit := value as real), opkr := 2)
    else if tag == TagCurvAngle then
      s.(event := s.event.(roadCurvature := value as real), opkr := 3)
    else if tag == TagSignType then
      var e := s.event.(safetySign := value as real, eventSec := now);
      s.(event := UpdatedEvent(e, speed), opkr := 4)
    else if tag == TagTurnInfo then
      s.(event := s.event.(turnInfo := value))
    else if tag == TagDistanceToTurn then
      s.(event := s.event.(distanceToTurn := value))
    else
      s
  }

  /** Step 3 of a log line: the hide process that keeps, freezes or ends the visibility window. */
  function Hide(s: ReconcilerState, now: real, speed: real): (s': ReconcilerState)
    ensures s'.lastTime == s.lastTime && SameTelemetry(s'.event, s.event)
    ensures s'.event.eventSec == s.event.eventSec && s'.event.tvSec == s.event.tvSec
    ensures s'.event.mapEnable == s.event.mapEnable && s'.event.mapValid == s.event.mapValid
    ensures s'.opkr == 0 || s'.opkr == s.opkr
    // moving: the projections count down from the hide time, and the event ends when stale or imminent
    ensures s.opkr != 0 && speed > 1.0 ==>
      s'.stopSec == s.event.hideTimeSec - now &&
      s'.event.arrivalTimeSec == s'.stopSec && s'.event.arrivalDistance == s'.stopSec * speed &&
      s'.event.hideTimeSec == s.event.hideTimeSec &&
      (s'.opkr == 0 <==> now - s.event.eventSec > 3.0 || s'.stopSec < 2.0)
    // stationary: the event stays and the remaining time is carried forward unchanged
    ensures s.opkr != 0 && speed <= 1.0 ==>
      s'.opkr == s.opkr && s'.stopSec == s.stopSec && s'.event.hideTimeSec == now + s.stopSec
    // inactive: a rolling three-second window
    ensures s.opkr == 0 ==> s'.opkr == 0 && s'.stopSec == s.stopSec && s'.event.hideTimeSec == now + 3.0
    ensures s.opkr == 0 || speed <= 1.0 ==>
      s'.event.arrivalTimeSec == s.event.arrivalTimeSec && s'.event.arrivalDistance == s.event.arrivalDistance
  {
    if s.opkr != 0 then
      if speed > 1.0 then
        var elapsed := now - s.event.eventSec;
        var stop := s.event.hideTimeSec - now;
        var e := s.event.(arrivalTimeSec := stop, arrivalDistance := stop * speed);
        var opkr := if elapsed > 3.0 then 0 else if e.arrivalTimeSec < 2.0 then 0 else s.opkr;
        s.(event := e, opkr := opkr, stopSec := stop)
      else
        s.(event := s.event.(hideTimeSec := now + s.stopSec))
    else
      s.(event := s.event.(hideTimeSec := now + 3.0))
  }

  /** One log line through the reconciler: clock, tag, hide process, then `mapValid`. */
  function Next(s: ReconcilerState, entry: LogEntry, speed: real, mapEnableParam: int): (s': ReconcilerState)
    ensures s'.event.mapValid <==> s'.opkr != 0
    ensures s'.event.tvSec == entry.tvSec
  {
    var now := CurrentTime(entry);
    var s1 := RefreshClock(s, entry.tvSec, mapEnableParam);
    var s2 := Dispatch(s1, entry.tag, entry.message, now, speed);
    var s3 := Hide(s2, now, speed);
    s3.(event := s3.event.(mapValid := s3.opkr != 0))
  }

  /** The `trafficType` published with a log line, from the record as it was before the line. */
  function TrafficType(s: ReconcilerState): (t: int)
    ensures t == 0 || t == 1
    ensures t == 1 <==>
      TruncToInt(s.event.safetySign) in {131, 200, 231, 248} ||
      (TruncToInt(s.event.safetySign) == 165 && s.event.speedLimitDistance < 800.0)
  {
    TrafficCamera(TruncToInt(s.event.safetySign), s.event.speedLimitDistance)
  }

  /** What the loop sees per log line besides the entry: the vehicle speed and the stored map-enable flag. */
  datatype Cycle = Cycle(entry: LogEntry, speed: real, mapEnableParam: int)

  /** The state after a run of log lines, read in order. */
  function Run(s: ReconcilerState, cycles: seq<Cycle>): (s': ReconcilerState)
    ensures cycles == [] ==> s' == s
    ensures cycles != [] ==>
      s'.event.tvSec == cycles[|cycles| - 1].entry.tvSec && (s'.event.mapValid <==> s'.opkr != 0)
    decreases |cycles|
  {
    if cycles == [] then s
    else
      var c := cycles[|cycles| - 1];
      Next(Run(s, cycles[..|cycles| - 1]), c.entry, c.speed, c.mapEnableParam)
  }

  /** One more log line read extends the run by that line. */
  lemma RunOneMore(s0: ReconcilerState, cycles: seq<Cycle>, i: nat, before: ReconcilerState, after: ReconcilerState)
    requires i < |cycles| && before == Run(s0, cycles[..i])
    requires after == Next(before, cycles[i].entry, cycles[i].speed, cycles[i].mapEnableParam)
    ensures after == Run(s0, cycles[..i + 1])
  {
    assert cycles[..i + 1][..i] == cycles[..i];
  }

  /** The `trafficType` of one more log line extends the published sequence. */
  lemma TrafficTypesOneMore(s0: ReconcilerState, cycles: seq<Cycle>, i: nat, trafficTypes: seq<int>, trafficType: int)
    requires i < |cycles| && |trafficTypes| == i
    requires forall k :: 0 <= k < i ==> trafficTypes[k] == TrafficType(Run(s0, cycles[..k]))
    requires trafficType == TrafficType(Run(s0, cycles[..i]))
    ensures forall k :: 0 <= k < i + 1 ==>
      (trafficTypes + [trafficType])[k] == TrafficType(Run(s0, cycles[..k]))
  {
  }

  /**
   * The loop variables of `main` (`event`, `opkr`, `dStopSec`, `nLastTime`) and the
   * in-place operations on them.
   */
  class NaviReconciler {
    var event: LiveNaviData
    var opkr: int
    var stopSec: real
    var lastTime: int

    function State(): ReconcilerState
      reads this
    {
      ReconcilerState(event, opkr, stopSec, lastTime)
    }

    constructor ()
      ensures State() == Initial
    {
      event := ZeroEvent;
      opkr := 0;
      stopSec := 1.0;
      lastTime := 0;
    }

    /** `update_event`, applied to the record in place. */
    method UpdateEvent(speed: real)
      modifies this`event
      ensures event == UpdatedEvent(old(event), speed)
    {
      var distance := event.speedLimitDistance;
      if distance > 10.0 {
      } else if event.safetySign == SpeedBump as real {
        distance := 200.0;
      }
      if distance > 10.0 {
        var arrival := ArrivalTime(distance, speed);
        event := event.(hideTimeSec := event.eventSec + arrival);
        event := event.(arrivalTimeSec := arrival, arrivalDistance := distance);
      } else {
        event := event.(hideTimeSec := event.eventSec + 3.0);
      }
    }

    /** The map-data part of a step: apply the entry's tag to the record and the event flag. */
    method ApplyTag(tag: string, message: string, now: real, speed: real)
      modifies this
      ensures State() == Dispatch(old(State()), tag, message, now, speed)
    {
      TagsDistinct();
      if tag == TagSpdDist {
        event := event.(speedLimitDistance := Atoi(message) as real);
        opkr := 1;
      } else if tag == TagSpdLimit {
        event := event.(speedLimit := Atoi(message) as real);
        opkr := 2;
      } else if tag == TagCurvAngle {
        event := event.(roadCurvature := Atoi(message) as real);
        opkr := 3;
      } else if tag == TagSignType {
        event := event.(safetySign := Atoi(message) as real);
        opkr := 4;
        event := event.(eventSec := now);
        UpdateEvent(speed);
      } else if tag == TagTurnInfo {
        event := event.(turnInfo := Atoi(message));
      } else if tag == TagDistanceToTurn {
        event := event.(distanceToTurn := Atoi(message));
      }
    }

    /** The hide part of a step: keep, freeze or end the visibility window. */
    method HideProcess(now: real, speed: real)
      modifies this
      ensures State() == Hide(old(State()), now, speed)
    {
      if opkr != 0 {
        if speed > 1.0 {
          var elapsed := now - event.eventSec;
          stopSec := event.hideTimeSec - now;
          event := event.(arrivalTimeSec := stopSec);
          event := event.(arrivalDistance := event.arrivalTimeSec * speed);
          if elapsed > 3.0 {
            opkr := 0;
          } else if event.arrivalTimeSec < 2.0 {
            opkr := 0;
          }
        } else {
          event := event.(hideTimeSec := now + stopSec);
        }
      } else {
        event := event.(hideTimeSec := now + 3.0);
      }
    }

    /** The body of the inner read loop for one log entry; returns the published `trafficType`. */
    method Step(entry: LogEntry, speed: real, mapEnableParam: int) returns (trafficType: int)
      modifies this
      ensures State() == Next(old(State()), entry, speed, mapEnableParam)
      ensures trafficType == TrafficType(old(State()))
      ensures event.mapValid <==> opkr != 0
    {
      ghost var s0 := State();
      // The line's time, and the rate-limited map-enable refresh.
      var now := CurrentTime(entry);
      event := event.(tvSec := entry.tvSec);
      if entry.tvSec - lastTime >= 5 {
        lastTime := entry.tvSec;
        event := event.(mapEnable := mapEnableParam);
      }

      ghost var s1 := State();
      assert s1 == RefreshClock(s0, entry.tvSec, mapEnableParam);

      // The camera flag of the record before this line, then the tag.
      trafficType := TrafficCamera(TruncToInt(event.safetySign), event.speedLimitDistance);
      ApplyTag(entry.tag, entry.message, now, speed);
      ghost var s2 := State();

      // The visibility window.
      HideProcess(now, speed);
      assert State() == Hide(s2, now, speed) && s2 == Dispatch(s1, entry.tag, entry.message, now, speed);

      event := event.(mapValid := opkr != 0);
    }

    /**
     * The inner read loop over the log entries it is given, in order; returns the
     * `trafficType` published with each of them.
     */
    method ReadAll(cycles: seq<Cycle>) returns (trafficTypes: seq<int>)
      modifies this
      ensures State() == Run(old(State()), cycles)
      ensures |trafficTypes| == |cycles|
      ensures forall i :: 0 <= i < |cycles| ==> trafficTypes[i] == TrafficType(Run(old(State()), cycles[..i]))
    {
      ghost var s0 := State();
      trafficTypes := [];
      var i := 0;
      while i < |cycles|
        invariant 0 <= i <= |cycles|
        invariant State() == Run(s0, cycles[..i])
        invariant |trafficTypes| == i
        invariant forall k :: 0 <= k < i ==> trafficTypes[k] == TrafficType(Run(s0, cycles[..k]))
      {
        var c := cycles[i];
        ghost var before := State();
        var trafficType := Step(c.entry, c.speed, c.mapEnableParam);
        RunOneMore(s0, cycles, i, before, State());
        TrafficTypesOneMore(s0, cycles, i, trafficTypes, trafficType);
        trafficTypes := trafficTypes + [trafficType];
        i := i + 1;
      }
      assert cycles[..|cycles|] == cycles;
    }
  }
}
