/** The fixed list of eclipses shown on the landing page, in display order. */
module Catalog {
  import opened EclipseTypes

  const Eclipses: seq<EclipseEvent> := [
    EclipseEvent(
      "2026", "Total Eclipse 2026", "12. August 2026",
      "The first total eclipse in mainland Europe for decades, passing through northern Spain at sunset.",
      "Spain, Iceland, Greenland",
      LatLng(41.5, -2.0), 6, [],
      [LatLng(45.5, -10.0), LatLng(44.5, -5.0), LatLng(43.3, -3.0), LatLng(42.6, -0.2), LatLng(40.5, 3.3), LatLng(39.0, 6.0)],
      [LatLng(43.5, -11.0), LatLng(42.5, -6.3), LatLng(41.3, -4.4), LatLng(40.7, -1.5), LatLng(38.6, 2.0), LatLng(37.0, 4.5)],
      [LatLng(44.5, -10.5), LatLng(43.54, -5.66), LatLng(42.34, -3.70), LatLng(41.65, -0.88), LatLng(39.57, 2.65), LatLng(38.0, 5.25)]),
    EclipseEvent(
      "2027", "Total Eclipse 2027", "2. August 2027",
      "One of the longest eclipses of the century, passing directly over the Valley of the Kings in Egypt.",
      "North Africa, Spain, Gibraltar",
      LatLng(30.0, 15.0), 4, [],
      [LatLng(37.5, -8.0), LatLng(36.8, 0.0), LatLng(35.0, 10.0), LatLng(31.5, 25.0), LatLng(26.0, 40.0)],
      [LatLng(35.5, -9.0), LatLng(34.8, -1.0), LatLng(33.0, 9.0), LatLng(29.5, 24.0), LatLng(24.0, 39.0)],
      [LatLng(36.5, -8.5), LatLng(35.8, -0.5), LatLng(34.0, 9.5), LatLng(30.5, 24.5), LatLng(25.0, 39.5)]),
    EclipseEvent(
      "2028", "Total Eclipse 2028", "22. July 2028",
      "A spectacular path crossing the entire Australian continent and passing directly over Sydney Harbour.",
      "Australia, New Zealand",
      LatLng(-25.0, 133.0), 4, [],
      [LatLng(-12.0, 120.0), LatLng(-18.0, 130.0), LatLng(-28.0, 140.0), LatLng(-34.0, 151.0)],
      [LatLng(-14.0, 118.0), LatLng(-20.0, 128.0), LatLng(-30.0, 138.0), LatLng(-36.0, 149.0)],
      [LatLng(-13.0, 119.0), LatLng(-19.0, 129.0), LatLng(-29.0, 139.0), LatLng(-35.0, 150.0)]),
    EclipseEvent(
      "2030", "Total Eclipse 2030", "25. November 2030",
      "Crossing the Southern Ocean from Africa to the Australian outback.",
      "South Africa, Australia",
      LatLng(-32.0, 50.0), 3, [],
      [LatLng(-28.0, 15.0), LatLng(-32.0, 30.0), LatLng(-38.0, 80.0), LatLng(-33.0, 140.0)],
      [LatLng(-30.0, 14.0), LatLng(-34.0, 29.0), LatLng(-40.0, 79.0), LatLng(-35.0, 139.0)],
      [LatLng(-29.0, 14.5), LatLng(-33.0, 29.5), LatLng(-39.0, 79.5), LatLng(-34.0, 139.5)])
  ]

  /** The ids of `es`, in order (the React keys of the landing-page cards). */
  function Ids(es: seq<EclipseEvent>): (r: seq<string>)
    ensures |r| == |es|
    ensures forall i :: 0 <= i < |es| ==> r[i] == es[i].id
  {
    if es == [] then [] else [es[0].id] + Ids(es[1..])
  }

  predicate DistinctIds(es: seq<EclipseEvent>) {
    forall i, j :: 0 <= i < j < |es| ==> es[i].id != es[j].id
  }

  /** A coordinate on the globe: latitude in [-90, 90], longitude in [-180, 180]. */
  predicate OnGlobe(p: LatLng) {
    -90.0 <= p.lat <= 90.0 && -180.0 <= p.lng <= 180.0
  }

  predicate AllOnGlobe(ps: seq<LatLng>) {
    forall k :: 0 <= k < |ps| ==> OnGlobe(ps[k])
  }

  /** The well-formedness every catalog entry has: both limit lines present, the three
      lines of equal length, no precomputed polygon, and every coordinate on the globe. */
  predicate WellFormed(e: EclipseEvent) {
    && |e.northernLimit| > 0
    && |e.southernLimit| > 0
    && |e.northernLimit| == |e.southernLimit| == |e.centerLine|
    && e.pathPolygon == []
    && OnGlobe(e.center)
    && AllOnGlobe(e.northernLimit)
    && AllOnGlobe(e.southernLimit)
    && AllOnGlobe(e.centerLine)
  }

  /** Four events, ids "2026", "2027", "2028", "2030" in display order, all distinct. */
  lemma CatalogIds()
    ensures |Eclipses| == 4
    ensures Ids(Eclipses) == ["2026", "2027", "2028", "2030"]
    ensures DistinctIds(Eclipses)
  {
  }

  /** Every catalog entry is well formed. */
  lemma CatalogWellFormed()
    ensures forall i :: 0 <= i < |Eclipses| ==> WellFormed(Eclipses[i])
  {
  }

  /** The lines of the four events have 6, 5, 4 and 4 points. */
  lemma CatalogLineLengths()
    ensures |Eclipses| == 4
    ensures |Eclipses[0].centerLine| == 6
    ensures |Eclipses[1].centerLine| == 5
    ensures |Eclipses[2].centerLine| == 4
    ensures |Eclipses[3].centerLine| == 4
  {
  }
}
