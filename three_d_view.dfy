/** The horizon view of one observation: the sun's position in a 100 x 60 view box, the
    occluding disk, the darkening overlay, and the timeline slider. */
module ThreeDView {
  import opened Wrappers
  import opened EclipseTypes

  /** A point of the overlay's view box (0..100 across, 0..60 down). */
  datatype ViewPoint = ViewPoint(x: real, y: real)

  /** A sun position in degrees. */
  datatype SkyPosition = SkyPosition(azimuth: real, altitude: real)

  const ViewWidth: real := 100.0
  const ViewHeight: real := 60.0
  const HorizonY: real := 24.0
  const CentreX: real := 50.0
  const Scale: real := 2.0
  /** The heading used when the observation has no (or a zero) azimuth. */
  const FallbackHeading: real := 286.0
  const OcclusionScale: real := 5.2
  const MaxOpacity: real := 0.9

  /** JavaScript's `x || d` on a number: zero counts as missing. */
  function OrNumber(x: real, d: real): real {
    if x != 0.0 then x else d
  }

  /** The heading the view looks along: the observation's azimuth, or 286 when that is 0. */
  function ReferenceAzimuth(pointAzimuth: real): (heading: real)
    ensures heading != 0.0
    ensures pointAzimuth != 0.0 ==> heading == pointAzimuth
  {
    OrNumber(pointAzimuth, FallbackHeading)
  }

  /** Where the sun is drawn: two units per degree right of the centre for azimuth past the
      heading, two units per degree above the horizon line for altitude. */
  function SunXY(azimuth: real, altitude: real, pointAzimuth: real): (p: ViewPoint)
    ensures SkyAt(p, pointAzimuth) == SkyPosition(azimuth, altitude)
  {
    ViewPoint(CentreX + (azimuth - ReferenceAzimuth(pointAzimuth)) * Scale, HorizonY - altitude * Scale)
  }

  /** The inverse mapping: the sun position that is drawn at `p`. */
  function SkyAt(p: ViewPoint, pointAzimuth: real): SkyPosition {
    SkyPosition((p.x - CentreX) / Scale + ReferenceAzimuth(pointAzimuth), (HorizonY - p.y) / Scale)
  }

  /** Projection and its inverse undo each other, so distinct sun positions are drawn at
      distinct points. */
  lemma SunXYInverse(azimuth: real, altitude: real, pointAzimuth: real, p: ViewPoint)
    ensures SkyAt(SunXY(azimuth, altitude, pointAzimuth), pointAzimuth) == SkyPosition(azimuth, altitude)
    ensures SunXY(SkyAt(p, pointAzimuth).azimuth, SkyAt(p, pointAzimuth).altitude, pointAzimuth) == p
  {
  }

  /** The sun on the heading is drawn at the centre; the sun on the horizon on the horizon
      line; a zero observation azimuth falls back to heading 286. */
  lemma SunXYLandmarks(azimuth: real, altitude: real, pointAzimuth: real)
    ensures azimuth == ReferenceAzimuth(pointAzimuth) ==> SunXY(azimuth, altitude, pointAzimuth).x == CentreX
    ensures altitude == 0.0 ==> SunXY(azimuth, altitude, pointAzimuth).y == HorizonY
    ensures pointAzimuth == 0.0 ==> SunXY(azimuth, altitude, pointAzimuth) == SunXY(azimuth, altitude, FallbackHeading)
  {
  }

  /** A higher sun is drawn higher (smaller y); a sun further clockwise is drawn further right. */
  lemma SunXYMonotone(az1: real, az2: real, alt1: real, alt2: real, pointAzimuth: real)
    ensures az1 < az2 ==> SunXY(az1, alt1, pointAzimuth).x < SunXY(az2, alt2, pointAzimuth).x
    ensures alt1 < alt2 ==> SunXY(az1, alt1, pointAzimuth).y > SunXY(az2, alt2, pointAzimuth).y
  {
  }

  /** The sun is inside the 100 x 60 view box exactly when it is within 25 degrees of the
      heading and between 18 degrees below and 12 degrees above the horizon. */
  lemma SunInViewBox(azimuth: real, altitude: real, pointAzimuth: real)
    ensures 0.0 <= SunXY(azimuth, altitude, pointAzimuth).x <= ViewWidth
        <==> -25.0 <= azimuth - ReferenceAzimuth(pointAzimuth) <= 25.0
    ensures 0.0 <= SunXY(azimuth, altitude, pointAzimuth).y <= ViewHeight
        <==> -18.0 <= altitude <= 12.0
  {
  }

  /** A worked example: azimuth 290, altitude 15, heading 286 is drawn at (58, -6). */
  lemma SunXYExample()
    ensures SunXY(290.0, 15.0, 286.0) == ViewPoint(58.0, -6.0)
  {
  }

  /** How far left of the sun the occluding disk is drawn. */
  function DiskOffset(coverage: real): (offset: real)
    ensures 0.0 <= coverage <= 1.0 ==> 0.0 <= offset <= OcclusionScale
  {
    (1.0 - coverage) * OcclusionScale
  }

  /** The disks coincide at full coverage and are 5.2 apart at none; more coverage brings
      them closer, and a coverage in [0, 1] keeps the offset in [0, 5.2]. */
  lemma DiskOffsetLaws(c1: real, c2: real)
    ensures DiskOffset(1.0) == 0.0 && DiskOffset(0.0) == OcclusionScale
    ensures c1 < c2 ==> DiskOffset(c1) > DiskOffset(c2)
    ensures 0.0 <= c1 <= 1.0 ==> 0.0 <= DiskOffset(c1) <= OcclusionScale
  {
  }

  /** The opacity of the darkening overlay. */
  function OverlayOpacity(coverage: real): (opacity: real)
    ensures opacity <= MaxOpacity
    ensures 0.0 <= coverage ==> 0.0 <= opacity
  {
    var scaled := coverage * 0.95;
    if MaxOpacity <= scaled then MaxOpacity else scaled
  }

  /** The overlay never exceeds 0.9, is never negative for a non-negative coverage, and does
      not lighten as coverage grows. */
  lemma OverlayOpacityLaws(c1: real, c2: real)
    ensures OverlayOpacity(c1) <= MaxOpacity
    ensures 0.0 <= c1 ==> 0.0 <= OverlayOpacity(c1)
    ensures c1 <= c2 ==> OverlayOpacity(c1) <= OverlayOpacity(c2)
    ensures OverlayOpacity(1.0) == MaxOpacity
  {
  }

  // ---------------------------------------------------------------------------------------
  // Timeline state

  /** The index the view opens on, and the one the "maximum phase" button returns to. */
  const InitialIndex: int := 5

  /** The sample shown when the observation has no timeline. */
  function FallbackState(point: ObservationPoint): (s: TimelinePoint)
    ensures s.coverage == 1.0 && s.altitude != 0.0
    ensures s.azimuth == ReferenceAzimuth(point.azimuth)
  {
    TimelinePoint(Some("20:30"), 1.0, OrNumber(point.altitude, 10.0), OrNumber(point.azimuth, FallbackHeading))
  }

  /** The sample shown for slider index `index`: the fallback for an empty timeline, else the
      sample at that index. The index is not clamped: outside the timeline the read comes out
      undefined, which is `None` here. */
  function StateAt(point: ObservationPoint, index: int): (r: Option<TimelinePoint>)
    ensures r.Some? <==> |point.timeline| == 0 || 0 <= index < |point.timeline|
    ensures |point.timeline| == 0 ==> r == Some(FallbackState(point))
    ensures 0 <= index < |point.timeline| ==> r == Some(point.timeline[index])
  {
    if |point.timeline| > 0 then
      if 0 <= index < |point.timeline| then Some(point.timeline[index]) else None
    else Some(FallbackState(point))
  }

  /** The slider's largest value. */
  function SliderMax(timelineLength: nat): (max: nat)
    ensures timelineLength > 0 ==> max < timelineLength
    ensures max + 1 >= timelineLength
  {
    if timelineLength >= 1 then timelineLength - 1 else 0
  }

  /** Every value the slider can produce selects a defined sample. */
  lemma SliderIndexInRange(point: ObservationPoint, value: int)
    requires 0 <= value <= SliderMax(|point.timeline|)
    ensures StateAt(point, value).Some?
  {
  }

  /** Without a timeline the fallback puts the sun on the view's centre line (its azimuth is
      the heading itself), fully covered, under the darkest overlay; an altitude of 0 is
      replaced by 10. */
  lemma FallbackDrawing(point: ObservationPoint)
    requires |point.timeline| == 0
    ensures StateAt(point, InitialIndex) == Some(FallbackState(point))
    ensures SunXY(FallbackState(point).azimuth, FallbackState(point).altitude, point.azimuth).x == CentreX
    ensures DiskOffset(FallbackState(point).coverage) == 0.0
    ensures OverlayOpacity(FallbackState(point).coverage) == MaxOpacity
    ensures point.altitude == 0.0 ==> FallbackState(point).altitude == 10.0
  {
  }

  /** As written, the opening index 5 is past the end of every non-empty timeline with at
      most five samples: the view then has no sample to draw. */
  lemma InitialIndexUndefined(point: ObservationPoint)
    requires 0 < |point.timeline| <= InitialIndex
    ensures StateAt(point, InitialIndex) == None
  {
  }

  /** Clamp `index` into `[0, length - 1]`. */
  function Clamp(index: int, length: nat): (r: int)
    requires length > 0
    ensures 0 <= r < length
    ensures 0 <= index < length ==> r == index
  {
    if index < 0 then 0 else if index >= length then length - 1 else index
  }

  /** The sample the view evidently means to show: the index clamped into the timeline. */
  function ClampedState(point: ObservationPoint, index: int): (s: TimelinePoint)
    ensures |point.timeline| == 0 ==> s == FallbackState(point)
    ensures |point.timeline| > 0 ==> s in point.timeline
  {
    if |point.timeline| == 0 then FallbackState(point)
    else point.timeline[Clamp(index, |point.timeline|)]
  }

  /** The clamp law: below the range reads as index 0, above as the last index; and wherever
      the unclamped read is defined it agrees with the clamped one. */
  lemma ClampLaw(point: ObservationPoint, index: int)
    ensures index < 0 ==> ClampedState(point, index) == ClampedState(point, 0)
    ensures |point.timeline| > 0 && index >= |point.timeline| ==>
      ClampedState(point, index) == ClampedState(point, |point.timeline| - 1)
    ensures StateAt(point, index).Some? ==> StateAt(point, index) == Some(ClampedState(point, index))
  {
  }

  /** The view's state: the observation it shows and the slider position. */
  class HorizonView {
    const point: ObservationPoint
    var timelineIndex: int

    /** Opening the view: the slider starts at index 5. */
    constructor (p: ObservationPoint)
      ensures point == p && timelineIndex == InitialIndex
    {
      point := p;
      timelineIndex := InitialIndex;
    }

    /** The sample on display, undefined when the index is past the timeline. */
    function CurrentState(): (r: Option<TimelinePoint>)
      reads this
      ensures r.Some? <==> |point.timeline| == 0 || 0 <= timelineIndex < |point.timeline|
    {
      StateAt(point, timelineIndex)
    }

    /** Where the sun of the sample on display is drawn. */
    function SunPosition(): (r: Option<ViewPoint>)
      reads this
      ensures r.Some? <==> CurrentState().Some?
    {
      match CurrentState()
      case Some(s) => Some(SunXY(s.azimuth, s.altitude, point.azimuth))
      case None => None
    }

    /** Moving the slider to `value`. A value the slider can produce selects a defined sample. */
    method SliderChange(value: int)
      modifies this
      ensures timelineIndex == value
      ensures 0 <= value <= SliderMax(|point.timeline|) ==> CurrentState().Some?
    {
      timelineIndex := value;
    }

    /** The "maximum phase" button. */
    method ResetToMaximum()
      modifies this
      ensures timelineIndex == InitialIndex
    {
      timelineIndex := InitialIndex;
    }
  }
}
