/** The defaulting applied to the location service's parsed answer before the view sees it.
    The request to the service itself is not modelled: its parsed answer is the input here. */
module GeminiService {
  import opened Wrappers
  import opened EclipseTypes
  import opened Text

  /** One timeline entry as parsed from the answer: every field may be missing. */
  datatype RawTimelinePoint = RawTimelinePoint(
    time: Option<string>, coverage: Option<real>, altitude: Option<real>, azimuth: Option<real>)

  /** The parsed answer: every field may be missing, and it may carry its own lat/lng. */
  datatype RawObservation = RawObservation(
    lat: Option<real>,
    lng: Option<real>,
    name: Option<string>,
    duration: Option<string>,
    altitude: Option<real>,
    azimuth: Option<real>,
    timeline: Option<seq<RawTimelinePoint>>)

  const Hint2026 := "For the Aug 12, 2026 eclipse in Spain, the sun is very low (approx 10-12 degrees) and in the West-Northwest (approx 285 degrees) as it occurs near sunset."
  const Hint2027 := "For the Aug 2, 2027 eclipse in North Africa/Spain, the sun is approx 15-20 degrees high and in the West-Northwest (approx 290 degrees)."

  /** The extra sentence put into the request for the two eclipses the service knows about. */
  function ContextHint(date: string): (r: string)
    ensures r != "" <==> Contains(date, "2026") || Contains(date, "2027")
  {
    if Contains(date, "2026") then Hint2026
    else if Contains(date, "2027") then Hint2027
    else ""
  }

  /** "2026" takes precedence: a date mentioning both years gets the 2026 hint; the 2027 hint
      only goes to dates without "2026". */
  lemma ContextHintPrecedence(date: string)
    ensures Contains(date, "2026") ==> ContextHint(date) == Hint2026
    ensures ContextHint(date) == Hint2027 <==> !Contains(date, "2026") && Contains(date, "2027")
  {
  }

  /** The sun position assumed when the answer gives none. */
  function DefaultAltitude(date: string): (altitude: real)
    ensures 10.0 <= altitude <= 20.0
  {
    if Contains(date, "2026") then 11.0 else 18.0
  }

  function DefaultAzimuth(date: string): (azimuth: real)
    ensures 285.0 <= azimuth <= 290.0
  {
    if Contains(date, "2026") then 285.0 else 290.0
  }

  /** The assumed sun position lies in the range the hint for that year announces. */
  lemma DefaultsAgreeWithHint(date: string)
    ensures ContextHint(date) == Hint2026 ==> 10.0 <= DefaultAltitude(date) <= 12.0 && DefaultAzimuth(date) == 285.0
    ensures ContextHint(date) == Hint2027 ==> 15.0 <= DefaultAltitude(date) <= 20.0 && DefaultAzimuth(date) == 290.0
  {
  }

  /** JavaScript's `s || d` on an optional string: missing and empty both give `d`. */
  function OrString(s: Option<string>, d: string): (r: string)
    ensures d != "" ==> r != ""
    ensures s.Some? && s.value != "" ==> r == s.value
  {
    if s.Some? && s.value != "" then s.value else d
  }

  /** One timeline entry with its missing numbers set to 0 (`??`, so a present 0 stays). */
  function SanitisePoint(t: RawTimelinePoint): (r: TimelinePoint)
    ensures r.time == t.time
    ensures t.coverage.Some? ==> r.coverage == t.coverage.value
    ensures t.altitude.Some? ==> r.altitude == t.altitude.value
    ensures t.azimuth.Some? ==> r.azimuth == t.azimuth.value
  {
    TimelinePoint(t.time, t.coverage.GetOr(0.0), t.altitude.GetOr(0.0), t.azimuth.GetOr(0.0))
  }

  /** The entry-by-entry `map` over the timeline. */
  function SanitiseTimeline(ts: seq<RawTimelinePoint>): (r: seq<TimelinePoint>)
    ensures |r| == |ts|
  {
    if ts == [] then [] else [SanitisePoint(ts[0])] + SanitiseTimeline(ts[1..])
  }

  /** The timeline keeps its length and order, and entry `i` is entry `i` sanitised. */
  lemma {:induction false} SanitiseTimelineAt(ts: seq<RawTimelinePoint>)
    ensures |SanitiseTimeline(ts)| == |ts|
    ensures forall i :: 0 <= i < |ts| ==> SanitiseTimeline(ts)[i] == SanitisePoint(ts[i])
  {
    if ts != [] {
      SanitiseTimelineAt(ts[1..]);
    }
  }

  /** Sanitising a timeline entry: present values are kept, missing numbers become 0, and the
      time is copied through. */
  lemma SanitisePointLaws(t: RawTimelinePoint)
    ensures SanitisePoint(t).time == t.time
    ensures SanitisePoint(t).coverage == if t.coverage.Some? then t.coverage.value else 0.0
    ensures SanitisePoint(t).altitude == if t.altitude.Some? then t.altitude.value else 0.0
    ensures SanitisePoint(t).azimuth == if t.azimuth.Some? then t.azimuth.value else 0.0
  {
  }

  /** The record returned to the caller: the caller's coordinate, the answer's fields with
      their defaults, and the sanitised timeline (empty when the answer has none). */
  function Sanitise(raw: RawObservation, lat: real, lng: real, date: string): (o: ObservationPoint)
    ensures o.duration != ""
  {
    ObservationPoint(
      lat, lng, raw.name,
      OrString(raw.duration, "1:30"),
      raw.altitude.GetOr(DefaultAltitude(date)),
      raw.azimuth.GetOr(DefaultAzimuth(date)),
      SanitiseTimeline(raw.timeline.GetOr([])))
  }

  /** The defaulting table of the returned record. */
  lemma SanitiseFields(raw: RawObservation, lat: real, lng: real, date: string)
    ensures Sanitise(raw, lat, lng, date).lat == lat && Sanitise(raw, lat, lng, date).lng == lng
    ensures Sanitise(raw, lat, lng, date).name == raw.name
    ensures Sanitise(raw, lat, lng, date).altitude ==
      if raw.altitude.Some? then raw.altitude.value else if Contains(date, "2026") then 11.0 else 18.0
    ensures Sanitise(raw, lat, lng, date).azimuth ==
      if raw.azimuth.Some? then raw.azimuth.value else if Contains(date, "2026") then 285.0 else 290.0
    ensures Sanitise(raw, lat, lng, date).duration ==
      if raw.duration == None || raw.duration == Some("") then "1:30" else raw.duration.value
    ensures raw.timeline == None ==> Sanitise(raw, lat, lng, date).timeline == []
  {
  }

  /** The timeline of the returned record has the answer's entries, in order, each sanitised. */
  lemma SanitisedTimeline(raw: RawObservation, lat: real, lng: real, date: string)
    requires raw.timeline.Some?
    ensures |Sanitise(raw, lat, lng, date).timeline| == |raw.timeline.value|
    ensures forall i :: 0 <= i < |raw.timeline.value| ==>
      Sanitise(raw, lat, lng, date).timeline[i] == SanitisePoint(raw.timeline.value[i])
  {
    SanitiseTimelineAt(raw.timeline.value);
  }

  /** A sanitised entry read back as a parsed entry, every field present. */
  function EmbedPoint(t: TimelinePoint): RawTimelinePoint {
    RawTimelinePoint(t.time, Some(t.coverage), Some(t.altitude), Some(t.azimuth))
  }

  function EmbedTimeline(ts: seq<TimelinePoint>): seq<RawTimelinePoint> {
    if ts == [] then [] else [EmbedPoint(ts[0])] + EmbedTimeline(ts[1..])
  }

  /** A sanitised record read back as a parsed answer. */
  function Embed(o: ObservationPoint): RawObservation {
    RawObservation(Some(o.lat), Some(o.lng), o.name, Some(o.duration),
                   Some(o.altitude), Some(o.azimuth), Some(EmbedTimeline(o.timeline)))
  }

  lemma {:induction false} SanitiseEmbedTimeline(ts: seq<TimelinePoint>)
    ensures SanitiseTimeline(EmbedTimeline(ts)) == ts
  {
    if ts != [] {
      SanitiseEmbedTimeline(ts[1..]);
    }
  }

  /** Every record with a non-empty duration is left as it is by sanitising it again with its
      own coordinate, whatever the date. */
  lemma SanitiseFixedPoint(o: ObservationPoint, date: string)
    requires o.duration != ""
    ensures Sanitise(Embed(o), o.lat, o.lng, date) == o
  {
    SanitiseEmbedTimeline(o.timeline);
  }

  /** Sanitising is idempotent: doing it twice with the same coordinate and date gives the
      record doing it once gives. */
  lemma SanitiseIdempotent(raw: RawObservation, lat: real, lng: real, date: string)
    ensures Sanitise(Embed(Sanitise(raw, lat, lng, date)), lat, lng, date) == Sanitise(raw, lat, lng, date)
  {
    SanitiseFixedPoint(Sanitise(raw, lat, lng, date), date);
  }
}
