/**
 * How the overlay follows the reconciler: it is drawn exactly while the published
 * record is valid, and it stays up while the vehicle stands.
 */
module NaviProperties {
  import opened LogcatNavi
  import opened LogcatNaviProperties
  import opened NaviUi

  /** After any log line the overlay is drawn iff the reconciler's event flag is set. */
  lemma OverlayFollowsEventFlag(s: ReconcilerState, entry: LogEntry, speed: real, mapEnableParam: int)
    ensures var s' := Next(s, entry, speed, mapEnableParam);
      NaviOverlay(s'.event).Some? <==> s'.opkr != 0
  {
  }

  /** While the vehicle stands, an overlay that is up stays up through every further log line. */
  lemma StationaryOverlayPersists(s: ReconcilerState, cycles: seq<Cycle>)
    requires s.opkr != 0 && Stationary(cycles) && cycles != []
    ensures NaviOverlay(Run(s, cycles).event).Some?
  {
    StationaryKeepsEventVisible(s, cycles);
  }

  /**
   * The record of the camera scenario (signal camera 131, limit 60, 500 m ahead) is drawn
   * with the 60 image, a metre caption and the signal-violation label at the small font.
   */
  lemma CameraOverlay(e: LiveNaviData)
    requires e.mapValid && e.safetySign == 131.0 && e.speedLimit == 60.0 && e.speedLimitDistance == 500.0
    ensures NaviOverlay(e) == Some(Overlay(
      TrafficSign(Some("speed_60"), Some(Metres(500.0)), Label("신호위반", 26)),
      e.arrivalTimeSec, e.arrivalDistance))
  {
    assert TruncToInt(131.0) == 131;
    assert SpeedBucket(60.0) == 60;
  }
}
