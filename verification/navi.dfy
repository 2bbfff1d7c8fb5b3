/**
 * The decision tables of the on-road navigation overlay: which sign image to show,
 * whether and how to caption the distance, which label text and font size to use,
 * and the `mapValid` gate in front of all of it. The drawing itself is not modelled:
 * each function returns what would be drawn.
 */
module NaviUi {
  import opened Decimal
  import opened LogcatNavi

  datatype Option<T> = None | Some(value: T)

  /** `name_sped`: the speed-image names, indexed as the overlay indexes them. */
  const SpeedImages := ["speed_var", "traf_turn", "img_space", "speed_30", "speed_40", "speed_50",
                        "speed_60", "speed_70", "speed_80", "speed_90", "speed_100", "speed_110"]
  /** `name_sign` */
  const SignImages := ["speed_bump", "bus_only"]

  /** Sign codes whose image does not depend on the speed limit. */
  const ImageCodes := {113, 195, 246, 124}

  /**
   * The limit a speed image shows: the least multiple of 10 at or above the limit, and at
   * least 30; `SpeedImages[b / 10]` is the image "speed_<b>".
   */
  function SpeedBucket(speedLimit: real): (b: int)
    ensures b % 10 == 0 && 30 <= b && speedLimit <= b as real
    ensures b > 30 ==> (b - 10) as real < speedLimit
    ensures speedLimit <= 110.0 ==> b <= 110
  {
    if speedLimit <= 30.0 then 30 else -((-speedLimit / 10.0).Floor) * 10
  }

  /**
   * The image `ui_draw_traffic_sign` shows for a sign code and speed limit: by code first,
   * then by speed band, then a blank plate for any other nonzero code.
   */
  function SignImage(sign: int, speedLimit: real): (img: Option<string>)
    ensures sign == 113 ==> img == Some("traf_turn")
    ensures sign == 195 ==> img == Some("speed_var")
    ensures sign == 246 ==> img == Some("bus_only")
    ensures sign == 124 ==> img == Some("speed_bump")
    ensures sign !in ImageCodes && 10.0 < speedLimit <= 110.0 ==>
      img == Some(SpeedImages[SpeedBucket(speedLimit) / 10])
    ensures sign !in ImageCodes && !(10.0 < speedLimit <= 110.0) ==>
      img == if sign != 0 then Some("img_space") else None
  {
    var chosen :=
      if sign == 113 then Some(SpeedImages[1])
      else if sign == 195 then Some(SpeedImages[0])
      else if sign == 246 then Some(SignImages[1])
      else if sign == 124 then Some(SignImages[0])
      else if speedLimit <= 10.0 then None
      else if speedLimit <= 30.0 then Some(SpeedImages[3])
      else if speedLimit <= 40.0 then Some(SpeedImages[4])
      else if speedLimit <= 50.0 then Some(SpeedImages[5])
      else if speedLimit <= 60.0 then Some(SpeedImages[6])
      else if speedLimit <= 70.0 then Some(SpeedImages[7])
      else if speedLimit <= 80.0 then Some(SpeedImages[8])
      else if speedLimit <= 90.0 then Some(SpeedImages[9])
      else if speedLimit <= 100.0 then Some(SpeedImages[10])
      else if speedLimit <= 110.0 then Some(SpeedImages[11])
      else None;
    if sign != 0 && chosen == None then Some(SpeedImages[2]) else chosen
  }

  /** The distance caption: kilometres (printed with one decimal) from 1000 m, whole metres below. */
  datatype Caption = Kilometres(km: real) | Metres(m: real)

  function DistanceCaption(distance: real): (c: Option<Caption>)
    ensures c.Some? <==> distance >= 5.0
    ensures c.Some? ==> (c.value.Kilometres? <==> distance >= 1000.0)
    ensures c.Some? && c.value.Kilometres? ==> c.value.km * 1000.0 == distance
    ensures c.Some? && c.value.Metres? ==> c.value.m == distance
  {
    if distance >= 5.0 then
      if distance >= 1000.0 then Some(Kilometres(distance * 0.001)) else Some(Metres(distance))
    else
      None
  }

  /** A label over the sign image and its font size. */
  datatype Label = Label(text: string, fontSize: int)

  /** The first (small-font) label table: sign code to label text. */
  const FirstLabels: map<int, string> := map[
    131 := "신호위반", 165 := "구간단속", 195 := "가변구간", 200 := "이동식",
    231 := "카메라", 248 := "교통정보", 113 := "굽은도로"]
  /** The second label table, consulted only for codes the first one does not name. */
  const SecondLabels: map<int, string> := map[
    111 := "우측커브", 112 := "좌측커브", 123 := "철길건널목", 124 := "과속방지턱",
    129 := "주정차금지", 118 := "어린이보호", 127 := "어린이보호", 122 := "좁아지는도로",
    246 := "버스전용차로", 249 := "추월금지구간", 250 := "갓길단속"]

  /** The first chain of `ui_draw_traffic_sign`'s label choice: a name, or none. */
  function FirstLabel(sign: int): (name: Option<string>)
    ensures name.Some? <==> sign in FirstLabels
    ensures name.Some? ==> name.value == FirstLabels[sign]
  {
    if sign == 131 then Some("신호위반")
    else if sign == 165 then Some("구간단속")
    else if sign == 195 then Some("가변구간")
    else if sign == 200 then Some("이동식")
    else if sign == 231 then Some("카메라")
    else if sign == 248 then Some("교통정보")
    else if sign == 113 then Some("굽은도로")
    else None
  }

  /** The second chain, reached when the first names nothing. */
  function SecondLabel(sign: int): (name: Option<string>)
    ensures name.Some? <==> sign in SecondLabels
    ensures name.Some? ==> name.value == SecondLabels[sign]
  {
    if sign == 111 then Some("우측커브")
    else if sign == 112 then Some("좌측커브")
    else if sign == 123 then Some("철길건널목")
    else if sign == 124 then Some("과속방지턱")
    else if sign == 129 then Some("주정차금지")
    else if sign == 118 then Some("어린이보호")
    else if sign == 127 then Some("어린이보호")
    else if sign == 122 then Some("좁아지는도로")
    else if sign == 246 then Some("버스전용차로")
    else if sign == 249 then Some("추월금지구간")
    else if sign == 250 then Some("갓길단속")
    else None
  }

  /** The label `ui_draw_traffic_sign` writes for a sign code: first table at 26, second at 30, else the number at 73. */
  function SignLabel(sign: int): (l: Label)
    ensures sign in FirstLabels ==> l == Label(FirstLabels[sign], 26)
    ensures sign !in FirstLabels && sign in SecondLabels ==> l == Label(SecondLabels[sign], 30)
    ensures sign !in FirstLabels && sign !in SecondLabels ==> l == Label(DecimalString(sign), 73)
  {
    match FirstLabel(sign)
    case Some(name) => Label(name, 26)
    case None =>
      match SecondLabel(sign)
      case Some(name) => Label(name, 30)
      case None => Label(DecimalString(sign), 73)
  }

  /** A code shown as a number reads back as that code. */
  lemma NumberLabelReadsBack(sign: int)
    requires SignLabel(sign).fontSize == 73
    ensures Atoi(SignLabel(sign).text) == sign
  {
    AtoiOfDecimalString(sign);
  }

  /** What `ui_draw_traffic_sign` draws: an optional image, an optional distance caption, a label. */
  datatype TrafficSign = TrafficSign(image: Option<string>, caption: Option<Caption>, legend: Label)

  function DrawTrafficSign(mapSign: real, speedLimit: real, aheadDistance: real): (t: TrafficSign)
    ensures t.caption == DistanceCaption(aheadDistance)
    ensures t.caption.Some? <==> aheadDistance >= 5.0
    ensures t.legend == SignLabel(TruncToInt(mapSign))
    ensures t.image == SignImage(TruncToInt(mapSign), speedLimit)
  {
    var code := TruncToInt(mapSign);
    TrafficSign(SignImage(code, speedLimit), DistanceCaption(aheadDistance), SignLabel(code))
  }

  /** What `ui_draw_navi` draws: the sign and the "AT"/"AD" arrival readouts. */
  datatype Overlay = Overlay(sign: TrafficSign, arrivalSec: real, arrivalDistance: real)

  /** Nothing is drawn unless the published record is valid. */
  function NaviOverlay(data: LiveNaviData): (o: Option<Overlay>)
    ensures o.Some? <==> data.mapValid
    ensures o.Some? ==>
      o.value.arrivalSec == data.arrivalTimeSec && o.value.arrivalDistance == data.arrivalDistance &&
      o.value.sign == DrawTrafficSign(data.safetySign, data.speedLimit, data.speedLimitDistance)
  {
    if data.mapValid then
      Some(Overlay(DrawTrafficSign(data.safetySign, data.speedLimit, data.speedLimitDistance),
                   data.arrivalTimeSec, data.arrivalDistance))
    else
      None
  }
}
