# Navigation-event reconciler (logcatd_navi) and navigation overlay — Dafny model

`logcatd_navi` reads log lines that the map application writes with six fixed tags
(`opkrspddist`, `opkrspdlimit`, `opkrcurvangle`, `opkrsigntype`, `opkrturninfo`,
`opkrdistancetoturn`). It folds them into one `LiveNaviDataResult` record: each tag
overwrites its own field with the `atoi` of the message. A small visibility state machine
then decides, after every line, whether the current navigation event is still shown
(`mapValid`). It also projects the arrival time and distance from these inputs:
- the event flag `opkr`,
- the event and hide times,
- the stop time carried over from the previous line,
- the vehicle speed.

The overlay (`navi.h`) draws the sign image, a distance caption and a label for the
published record, and only while it is valid.

Files:
- `decimal.dfy` (module `Decimal`): `atoi` as a decimal-prefix parser and the `%d`
  conversion, with the round trip between them.
- `logcatd_navi.dfy` (module `LogcatNavi`): the record, `traffic_camera`, `nsec2msec`,
  `arrival_time` and `update_event`. It also holds the per-line step as pure functions
  (`RefreshClock`, `Dispatch`, `Hide`, `Next`) and the class `NaviReconciler`. That class
  keeps `main`'s loop variables (`event`, `opkr`, `dStopSec`, `nLastTime`) as fields, and
  its methods `UpdateEvent`, `ApplyTag`, `HideProcess` and `Step` update them in place.
  Each method is proved equal to its pure function.
- `logcatd_navi_props.dfy` (module `LogcatNaviProperties`): properties of whole log lines
  and of runs of log lines, plus two worked scenarios.
- `navi.dfy` (module `NaviUi`): the image, caption and label decision tables and the
  `mapValid` gate.
- `navi_props.dfy` (module `NaviProperties`): how the overlay follows the reconciler.

Behaviour of the code that the model keeps, though it is easy to misread:
- `trafficType` is computed from the record as it was *before* the line's tag is applied
  (`logcatd_navi.cc:226`). A camera sign's `trafficType` of 1 is therefore published one
  line late; `CameraScenario` shows this.
- Four tags set the event flag, not only the sign-type tag: spddist, spdlimit and
  curvangle set `opkr` to 1, 2 and 3, and signtype sets it to 4. Only the sign-type tag
  restarts the event time and runs `update_event`.
- `mapValid` is exactly `opkr != 0` after the hide process. It is not a function of the
  timestamps alone.
- The hide time is not only ever advanced. While the vehicle stands it is set to
  `now + dStopSec`, and `dStopSec` may be below 2 s or negative. This also overwrites the
  hide time `update_event` computed on the same line (`SignTypeWhileStationary`).
- `atoi` reads the longest digit prefix. "12abc" gives 12, not "ignore" and not 0.
- `traffic_camera` does not flag codes 135 and 150.

## Model

| member | source | states |
|---|---|---|
| `Decimal.Atoi` | selfdrive/logcatd/logcatd_navi.cc:229-256 | the payload parse is total: a message with no digit at all reads as 0 |
| `Decimal.DecimalString` | selfdrive/ui/navi.h:137 | "%d" text of a code is non-empty, starts with '-' exactly for negative codes, and is otherwise all digits with no leading zero (except for 0 itself) |
| `Decimal.AtoiOfDecimalString` | selfdrive/ui/navi.h:137 | parsing the "%d" text of any integer gives the integer back |
| `LogcatNavi.TagsDistinct` | selfdrive/logcatd/logcatd_navi.cc:227-257 | the six tag strings of the dispatch chain are pairwise different, so each line matches at most one branch |
| `LogcatNavi.TruncToInt` | selfdrive/ui/navi.h:43 | float-to-int conversion truncates toward zero: the result is within 1 of the value, on the zero side |
| `LogcatNavi.DivMillion` | selfdrive/logcatd/logcatd_navi.cc:118 | the nanoseconds-to-milliseconds division truncates toward zero, as C long division does |
| `LogcatNavi.TrafficCamera` | selfdrive/logcatd/logcatd_navi.cc:92-112 | result is 0 or 1; 1 exactly for 131, 200, 231, 248 at any distance and for 165 closer than 800 m; 0 for every other code, 124, 135 and 150 included |
| `LogcatNavi.Nsec2Msec` | selfdrive/logcatd/logcatd_navi.cc:114-121 | the result is the whole number of milliseconds in the timestamp; for a nanosecond part in [0, 10^9) it lies in [tv_sec*1000, tv_sec*1000+999] |
| `LogcatNavi.CurrentTime` | selfdrive/logcatd/logcatd_navi.cc:211-213 | the line's time in seconds lies in [tv_sec, tv_sec+1) |
| `LogcatNavi.ArrivalTime` | selfdrive/logcatd/logcatd_navi.cc:124-133 | at speed 0 the distance itself is returned; otherwise time × speed = distance |
| `LogcatNavi.EffectiveDistance` | selfdrive/logcatd/logcatd_navi.cc:138-145 | the projected distance is the sign distance, except that a speed bump whose sign distance is at most 10 m is projected 200 m; it exceeds 10 m iff the sign distance does or the sign is a speed bump |
| `LogcatNavi.UpdatedEvent` | selfdrive/logcatd/logcatd_navi.cc:136-160 | only the hide time and the two projections change. Beyond 10 m: arrival time = arrival_time(effective distance, speed) (so the distance itself at speed 0), hide = event time + arrival time, projected distance = effective distance. Otherwise: hide = event time + 3 and the projections are kept |
| `LogcatNavi.RefreshClock` | selfdrive/logcatd/logcatd_navi.cc:214-222 | stamps the record with tv_sec. mapEnable and the refresh mark change iff at least 5 s passed since the mark; nothing else changes |
| `LogcatNavi.Dispatch` | selfdrive/logcatd/logcatd_navi.cc:227-257 | an unknown tag changes nothing. Each known tag overwrites exactly its own field with atoi(message). spddist/spdlimit/curvangle/signtype set the flag to 1/2/3/4; the other tags keep it. Only signtype moves the event time (to now) and applies update_event, and only signtype touches the hide time and projections |
| `LogcatNavi.Hide` | selfdrive/logcatd/logcatd_navi.cc:262-282 | active and moving: stop time = hide − now, projections = (stop, stop × speed), and the flag clears iff the event is over 3 s old or under 2 s away. Active and stationary: flag, stop time and remaining time are kept (hide = now + stop). Inactive: hide = now + 3. Tag-fed fields are never touched |
| `LogcatNavi.Next` | selfdrive/logcatd/logcatd_navi.cc:211-287 | after every line mapValid ⇔ flag ≠ 0, and the record carries the line's tv_sec |
| `LogcatNavi.TrafficType` | selfdrive/logcatd/logcatd_navi.cc:226 | the published trafficType is 0 or 1, and 1 exactly when the record's truncated sign code is 131, 200, 231 or 248, or 165 with a sign distance under 800 m |
| `LogcatNavi.Run` | selfdrive/logcatd/logcatd_navi.cc:192-317 | lines are applied in order; with no lines the state is unchanged, and after at least one line the record carries the last line's tv_sec and mapValid ⇔ flag ≠ 0 |
| `LogcatNavi.NaviReconciler.constructor` | selfdrive/logcatd/logcatd_navi.cc:164-176 | start state: all-zero record, flag 0, stop time 1, refresh mark 0 |
| `LogcatNavi.NaviReconciler.UpdateEvent` | selfdrive/logcatd/logcatd_navi.cc:136-160 | the in-place update leaves the record equal to `UpdatedEvent` of the old record and touches only the record |
| `LogcatNavi.NaviReconciler.ApplyTag` | selfdrive/logcatd/logcatd_navi.cc:225-257 | the in-place tag dispatch leaves the loop state equal to `Dispatch` of the old state |
| `LogcatNavi.NaviReconciler.HideProcess` | selfdrive/logcatd/logcatd_navi.cc:262-282 | the in-place hide process leaves the loop state equal to `Hide` of the old state |
| `LogcatNavi.NaviReconciler.Step` | selfdrive/logcatd/logcatd_navi.cc:211-304 | one loop iteration moves the state to `Next` of the old state. The published trafficType is `TrafficType` of the state *before* the line's tag. mapValid ⇔ flag ≠ 0 |
| `LogcatNavi.NaviReconciler.ReadAll` | selfdrive/logcatd/logcatd_navi.cc:192-317 | the read loop over a sequence of decoded entries leaves the state equal to `Run` over them, and publishes for the i-th entry the `TrafficType` of the state after the first i entries |
| `LogcatNaviProperties.MapEnableCadence` | selfdrive/logcatd/logcatd_navi.cc:217-222 | over a whole line, mapEnable is re-read and the mark set to tv_sec iff tv_sec − mark ≥ 5; otherwise both are unchanged |
| `LogcatNaviProperties.UnknownTagKeepsTelemetry` | selfdrive/logcatd/logcatd_navi.cc:227-257 | an unknown tag leaves the six tag-fed fields and the event time unchanged and never activates the flag |
| `LogcatNaviProperties.OnlySignTypeRestartsEvent` | selfdrive/logcatd/logcatd_navi.cc:243-249 | the event time becomes the line's time on a signtype line and is unchanged on every other line |
| `LogcatNaviProperties.StaleEventExpires` | selfdrive/logcatd/logcatd_navi.cc:265-271 | moving, a non-signtype line more than 3 s after the event hides it, whatever the remaining distance |
| `LogcatNaviProperties.ImminentEventExpires` | selfdrive/logcatd/logcatd_navi.cc:265-272 | moving, a non-signtype line less than 2 s before the hide time hides the event |
| `LogcatNaviProperties.SignTypeWhileMoving` | selfdrive/logcatd/logcatd_navi.cc:243-273 | moving, a signtype line with effective distance d > 10 gives arrival time arrival_time(d, speed) and distance d, and is shown iff that time is ≥ 2 s. With d ≤ 10 it is shown with a 3 s stop time |
| `LogcatNaviProperties.SignTypeDispatched` | selfdrive/logcatd/logcatd_navi.cc:243-249 | a signtype line stores the new code, sets the flag to 4, restarts the event at now, and sets the hide time arrival_time(d, speed) ahead beyond 10 m, else 3 s ahead |
| `LogcatNaviProperties.HideAfterSignType` | selfdrive/logcatd/logcatd_navi.cc:263-273 | moving, right after a signtype line the projections are arrival_time(d, speed) and d, and the event stays iff that time is ≥ 2 s (always within 10 m) |
| `LogcatNaviProperties.SignTypeWhileStationary` | selfdrive/logcatd/logcatd_navi.cc:243-277 | stationary, a signtype line is shown with flag 4, and its hide time becomes now + the carried-over stop time; the value update_event computed is overwritten |
| `LogcatNaviProperties.StationaryStep` | selfdrive/logcatd/logcatd_navi.cc:227-287 | one stationary line never clears an active flag and never changes the stop time; hide = now + stop time |
| `LogcatNaviProperties.StationaryKeepsEventVisible` | selfdrive/logcatd/logcatd_navi.cc:263-287 | through any number of stationary lines an active event stays valid, the stop time is unchanged, and the hide time stays that far ahead of the last line |
| `LogcatNaviProperties.CameraScenario` | selfdrive/logcatd/logcatd_navi.cc:211-304 | limit 60, distance 500, camera 131 at 20 m/s gives arrival 25 s / 500 m and mapValid. Published trafficType is 0 on the camera line and 1 on the next. A line 26 s later hides the event |
| `LogcatNaviProperties.SpeedBumpScenario` | selfdrive/logcatd/logcatd_navi.cc:136-160 | a speed bump with no distance at 10 m/s is projected 200 m and 20 s ahead and shown |
| `NaviUi.SpeedBucket` | selfdrive/ui/navi.h:49-58 | the band's limit is the least multiple of 10 that is ≥ the speed limit and ≥ 30, and at most 110 for limits up to 110 |
| `NaviUi.SignImage` | selfdrive/ui/navi.h:43-64 | 113/195/246/124 give traf_turn/speed_var/bus_only/speed_bump whatever the limit. Any other code with a limit in (10, 110] gets the speed image of its band. Otherwise a nonzero code gets img_space and code 0 no image |
| `NaviUi.DistanceCaption` | selfdrive/ui/navi.h:73-79 | a caption exists iff distance ≥ 5 m; it is in km (distance / 1000) iff distance ≥ 1000 m, otherwise in metres |
| `NaviUi.SignLabel` | selfdrive/ui/navi.h:103-138 | a code of the first table gets that table's text at font 26; otherwise a code of the second table gets its text at font 30; every other code is written as its "%d" text at font 73 |
| `NaviUi.FirstLabel` | selfdrive/ui/navi.h:103-109 | the first chain names a code iff it is one of the seven in its table, with that table's text (131 "신호위반" … 113 "굽은도로") |
| `NaviUi.SecondLabel` | selfdrive/ui/navi.h:122-132 | the second chain names a code iff it is one of the eleven in its table, with that table's text (111 "우측커브" … 250 "갓길단속") |
| `NaviUi.NumberLabelReadsBack` | selfdrive/ui/navi.h:133-138 | a code written as a number reads back (atoi) as that code |
| `NaviUi.DrawTrafficSign` | selfdrive/ui/navi.h:35-141 | image and label are chosen from the truncated sign code (and the limit); the caption is the distance caption of the ahead distance, present iff it is ≥ 5 m |
| `NaviUi.NaviOverlay` | selfdrive/ui/navi.h:143-170 | something is drawn iff mapValid. The sign drawn is that of the record's sign code, speed limit and sign distance, and the AT/AD readouts are the record's arrival time and distance |
| `NaviProperties.OverlayFollowsEventFlag` | selfdrive/ui/navi.h:159 | after any reconciler line the overlay is drawn iff the event flag is set |
| `NaviProperties.StationaryOverlayPersists` | selfdrive/ui/navi.h:159-170 | an overlay that is up stays up through any run of stationary lines |
| `NaviProperties.CameraOverlay` | selfdrive/ui/navi.h:43-138 | a valid record with camera 131, limit 60 and 500 m shows speed_60, a 500 m caption and the signal-violation label at font 26 |

## Left out

- Android log reading: allocating and opening the logger, the read loop's break on
  exhaustion, the reconnect with its 500 ms sleep, records skipped because they do not
  decode, and the `assert`s. Each decoded record is an input (`LogEntry`) to `Step`; `ReadAll` reads a finite sequence of them, where the source loops until the log is exhausted or it is told to exit.
- Publishing and subscribing (`PubMaster`, `SubMaster`, `MessageBuilder`). The vehicle
  speed is a parameter of `Step`. The published message is the record after the step
  plus `Step`'s `trafficType`; the log message id is not modelled.
- The `OpkrMapEnable` parameter read: its value is the `mapEnableParam` parameter.
- `printf` diagnostics, the unused `dSpeed_kph`, `setpriority` and `last_log_time`.
- Atoi: integer overflow of `atoi` is not modelled (integers are unbounded).
- Nsec2Msec: the 64-bit arithmetic of `tv_sec * 1000ULL` is not modelled, so it is exact
  for every input rather than wrapping around.
- Floating point: floats and doubles are reals. Narrowing `atoi` results to `float`,
  rounding in `d / v`, and `tv_msec * 0.001` (taken as an exact division by 1000) are exact.
- The record declared without an initializer is assumed all-zero at start-up; `dStopSec`
  starts at 1 as in the source.
- All drawing: `ui_text`, `ui_print` (and the buffer it leaks), rectangles, images,
  alignment, positions, and the whole of `ui_draw_debug1`.
- DistanceCaption: the caption carries the value to print, not the text. The rounding of
  "%.1fkm" and "%.0f" is not modelled.
- SignImage: the speed images are named through the source's name table, indexed by band.
  The model does not prove that each table entry's text spells its limit.
- `selfdrive/ui/qt/sidebar.cc` is not part of this model: it is a Qt widget with no
  reconciliation logic.
