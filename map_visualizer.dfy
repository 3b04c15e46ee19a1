/** The map view of the selected eclipse: the totality band, the limit and centre lines with
    their time markers, the "is this point in totality" test, and the persisted map theme. */
module MapVisualizer {
  import opened Wrappers
  import opened EclipseTypes
  import opened Text
  import Catalog

  // ---------------------------------------------------------------------------------------
  // Path geometry

  /** `s` in reverse order (the `reverse()` applied to a copy of the southern limit). */
  function Reversed<T>(s: seq<T>): (r: seq<T>)
    ensures |r| == |s|
  {
    if s == [] then [] else Reversed(s[1..]) + [s[0]]
  }

  lemma {:induction false} ReversedAt<T>(s: seq<T>, k: nat)
    requires k < |s|
    ensures Reversed(s)[k] == s[|s| - 1 - k]
  {
    if k < |s| - 1 {
      ReversedAt(s[1..], k);
    }
  }

  /** Reversing twice gives back the original sequence. */
  lemma ReversedTwice<T>(s: seq<T>)
    ensures Reversed(Reversed(s)) == s
  {
    forall k | 0 <= k < |s| ensures Reversed(Reversed(s))[k] == s[k] {
      ReversedAt(Reversed(s), k);
      ReversedAt(s, |s| - 1 - k);
    }
  }

  /** The outline of the totality band: the northern limit followed by the southern limit
      walked backwards, so that the outline closes. */
  function TotalityBand(north: seq<LatLng>, south: seq<LatLng>): (r: seq<LatLng>)
    ensures |r| == |north| + |south|
    ensures r[..|north|] == north
  {
    north + Reversed(south)
  }

  /** The band has `|north| + |south|` points; the first `|north|` are the northern limit in
      order, the rest are the southern limit last point first, and reading that tail backwards
      gives the southern limit back unchanged. */
  lemma TotalityBandShape(north: seq<LatLng>, south: seq<LatLng>)
    ensures |TotalityBand(north, south)| == |north| + |south|
    ensures TotalityBand(north, south)[..|north|] == north
    ensures TotalityBand(north, south)[|north|..] == Reversed(south)
    ensures forall k :: 0 <= k < |south| ==> Reversed(south)[k] == south[|south| - 1 - k]
    ensures Reversed(TotalityBand(north, south)[|north|..]) == south
  {
    var band := TotalityBand(north, south);
    assert band[|north|..] == Reversed(south);
    forall k | 0 <= k < |south| ensures Reversed(south)[k] == south[|south| - 1 - k] {
      ReversedAt(south, k);
    }
    ReversedTwice(south);
  }

  /** A worked example: two-point limits give the four-point outline N0, N1, S1, S0. */
  lemma TotalityBandExample()
    ensures TotalityBand([LatLng(45.5, -10.0), LatLng(44.5, -5.0)], [LatLng(43.5, -11.0), LatLng(42.5, -6.3)])
         == [LatLng(45.5, -10.0), LatLng(44.5, -5.0), LatLng(42.5, -6.3), LatLng(43.5, -11.0)]
  {
  }

  // ---------------------------------------------------------------------------------------
  // Map layers

  /** What the view puts into its layer group. */
  datatype Layer =
    | BandPolygon(outline: seq<LatLng>)
    | LimitLine(points: seq<LatLng>)          // dashed northern or southern limit
    | CentreLine(points: seq<LatLng>)
    | TimeMarker(at: LatLng, caption: string) // "<caption> UTC" label on a centre-line point

  /** The fixed UTC labels put on the first centre-line points. */
  const TimeLabels: seq<string> := ["18:30", "19:00", "19:30", "20:00", "20:30"]

  function Min(a: int, b: int): int {
    if a <= b then a else b
  }

  /** The band and its two dashed limits, drawn only when both limits have points. */
  function BandLayers(e: EclipseEvent): (r: seq<Layer>)
    ensures r != [] <==> |e.northernLimit| > 0 && |e.southernLimit| > 0
    ensures r != [] ==> |r| == 3 && r[0].BandPolygon? && r[1] == LimitLine(e.northernLimit) && r[2] == LimitLine(e.southernLimit)
  {
    if |e.northernLimit| > 0 && |e.southernLimit| > 0 then
      [BandPolygon(TotalityBand(e.northernLimit, e.southernLimit)),
       LimitLine(e.northernLimit), LimitLine(e.southernLimit)]
    else []
  }

  /** The time markers for centre line `c`: point `i` gets `TimeLabels[i]` while labels last. */
  function Markers(c: seq<LatLng>): (r: seq<Layer>)
    ensures |r| == Min(|c|, |TimeLabels|)
  {
    if c == [] then []
    else
      var k := |c| - 1;
      Markers(c[..k]) + (if k < |TimeLabels| then [TimeMarker(c[k], TimeLabels[k])] else [])
  }

  /** There are `min(|c|, 5)` markers, and marker `k` sits on point `k` with label `k`. */
  lemma {:induction false} MarkersAt(c: seq<LatLng>)
    ensures |Markers(c)| == Min(|c|, |TimeLabels|)
    ensures forall k :: 0 <= k < |Markers(c)| ==> Markers(c)[k] == TimeMarker(c[k], TimeLabels[k])
  {
    if c != [] {
      var k := |c| - 1;
      MarkersAt(c[..k]);
      assert forall j :: 0 <= j < k ==> c[..k][j] == c[j];
    }
  }

  /** One more centre-line point adds a marker exactly when a label is left for it. */
  lemma MarkersStep(c: seq<LatLng>, i: nat)
    requires i < |c|
    ensures Markers(c[..i + 1]) == Markers(c[..i]) + (if i < |TimeLabels| then [TimeMarker(c[i], TimeLabels[i])] else [])
  {
    assert c[..i + 1][..i] == c[..i];
  }

  /** The centre line and its markers, drawn only when the centre line has points. */
  function CentreLayers(e: EclipseEvent): (r: seq<Layer>)
    ensures |r| == if |e.centerLine| > 0 then 1 + Min(|e.centerLine|, |TimeLabels|) else 0
    ensures forall k :: 0 <= k < |r| ==> r[k].CentreLine? || r[k].TimeMarker?
  {
    MarkersAt(e.centerLine);
    if |e.centerLine| > 0 then [CentreLine(e.centerLine)] + Markers(e.centerLine) else []
  }

  /** Everything drawn for `e`, in drawing order. */
  function Overlays(e: EclipseEvent): (r: seq<Layer>)
    ensures |r| == (if |e.northernLimit| > 0 && |e.southernLimit| > 0 then 3 else 0)
                 + (if |e.centerLine| > 0 then 1 + Min(|e.centerLine|, |TimeLabels|) else 0)
  {
    BandLayers(e) + CentreLayers(e)
  }

  /** The band polygon is drawn iff both limits have points, and so are the dashed limits. */
  lemma BandDrawnIff(e: EclipseEvent)
    ensures (exists l :: l in Overlays(e) && l.BandPolygon?) <==> |e.northernLimit| > 0 && |e.southernLimit| > 0
    ensures (exists l :: l in Overlays(e) && l.LimitLine?) <==> |e.northernLimit| > 0 && |e.southernLimit| > 0
  {
    MarkersAt(e.centerLine);
    var ls := Overlays(e);
    if |e.northernLimit| > 0 && |e.southernLimit| > 0 {
      assert ls[0] in ls && ls[1] in ls;
    } else {
      assert forall l :: l in ls ==> l.CentreLine? || l.TimeMarker?;
    }
  }

  /** The centre-line part of the drawing: nothing for an empty centre line; otherwise the
      line, then `min(|c|, 5)` markers that follow the line's order, marker `k` on point `k`
      labelled `TimeLabels[k]`. */
  lemma CentreLayersShape(e: EclipseEvent)
    ensures |e.centerLine| == 0 ==> CentreLayers(e) == []
    ensures |e.centerLine| > 0 ==>
      && |CentreLayers(e)| == 1 + Min(|e.centerLine|, |TimeLabels|)
      && CentreLayers(e)[0] == CentreLine(e.centerLine)
      && forall k :: 0 <= k < Min(|e.centerLine|, |TimeLabels|) ==>
           CentreLayers(e)[1 + k] == TimeMarker(e.centerLine[k], TimeLabels[k])
  {
    MarkersAt(e.centerLine);
  }

  /** For the catalog: every event gets its band, and only the first event (2026, whose centre
      line has six points) has a centre-line point left without a time label. */
  lemma CatalogDrawing()
    ensures forall i :: 0 <= i < |Catalog.Eclipses| ==> BandLayers(Catalog.Eclipses[i]) != []
    ensures forall i :: 0 <= i < |Catalog.Eclipses| ==>
      (|Markers(Catalog.Eclipses[i].centerLine)| < |Catalog.Eclipses[i].centerLine| <==> i == 0)
  {
    Catalog.CatalogLineLengths();
    Catalog.CatalogWellFormed();
    forall i | 0 <= i < |Catalog.Eclipses|
      ensures |Markers(Catalog.Eclipses[i].centerLine)| < |Catalog.Eclipses[i].centerLine| <==> i == 0
    {
      MarkersAt(Catalog.Eclipses[i].centerLine);
    }
  }

  // ---------------------------------------------------------------------------------------
  // Popup classification

  /** The popup's "total" badge: the duration text is non-empty and its lower-case form
      mentions "total" or "totality". */
  predicate IsTotal(duration: string)
    ensures IsTotal(duration) ==> |duration| >= |"total"|
  {
    duration != "" && (Contains(Lower(duration), "total") || Contains(Lower(duration), "totality"))
  }

  /** The "totality" test adds nothing: the badge shows iff the text is non-empty and
      mentions "total" in any letter case. */
  lemma IsTotalIff(duration: string)
    ensures IsTotal(duration) <==> duration != "" && Contains(Lower(duration), "total")
  {
    if Contains(Lower(duration), "totality") {
      assert "totality" == "total" + "ity";
      ContainsPrefixOf(Lower(duration), "total", "ity");
    }
  }

  // ---------------------------------------------------------------------------------------
  // Map theme

  /** The local-storage key under which the theme is kept. */
  const ThemeKey := "mapTheme"
  const DarkUrl := "https://cartodb-basemaps-{s}.global.ssl.fastly.net/dark_all/{z}/{x}/{y}.png"
  const LightUrl := "https://tile.openstreetmap.org/{z}/{x}/{y}.png"

  /** `localStorage.getItem(key)`: the stored value, or none. */
  function Lookup(storage: map<string, string>, key: string): Option<string> {
    if key in storage then Some(storage[key]) else None
  }

  /** Reading the theme: dark unless the stored value is exactly "light". */
  function ThemeFromStorage(stored: Option<string>): (dark: bool)
    ensures stored == None ==> dark
  {
    stored != Some("light")
  }

  /** The value written for a theme. */
  function StoredTheme(dark: bool): (value: string)
    ensures ThemeFromStorage(Some(value)) == dark
  {
    if dark then "dark" else "light"
  }

  function TileUrl(dark: bool): (url: string)
    ensures url == DarkUrl || url == LightUrl
    ensures (url == DarkUrl) == dark
  {
    if dark then DarkUrl else LightUrl
  }

  /** Reading back what was written gives the theme that was written, and the only stored
      value that reads as light is "light". */
  lemma ThemeRoundTrip(dark: bool, stored: Option<string>)
    ensures ThemeFromStorage(Some(StoredTheme(dark))) == dark
    ensures !ThemeFromStorage(stored) <==> stored == Some(StoredTheme(false))
  {
  }

  /** The map view's mutable state: local storage, the theme flag, the tile layer (absent
      until the map is created) and the layer group of overlays. */
  class MapView {
    var storage: map<string, string>
    var isDarkMode: bool
    var mounted: bool
    var tileUrl: Option<string>
    var layers: seq<Layer>

    /** The theme flag always agrees with what a fresh read of local storage would give, and
        the tile layer, once there, shows the tiles of that theme. */
    ghost predicate Valid()
      reads this
    {
      && isDarkMode == ThemeFromStorage(Lookup(storage, ThemeKey))
      && (mounted <==> tileUrl.Some?)
      && (mounted ==> tileUrl == Some(TileUrl(isDarkMode)))
      && (!mounted ==> layers == [])
    }

    /** The component's first render: the theme is read from local storage. */
    constructor (initialStorage: map<string, string>)
      ensures Valid()
      ensures storage == initialStorage
      ensures isDarkMode == ThemeFromStorage(Lookup(initialStorage, ThemeKey))
      ensures !mounted && tileUrl == None && layers == []
    {
      storage := initialStorage;
      isDarkMode := ThemeFromStorage(Lookup(initialStorage, ThemeKey));
      mounted := false;
      tileUrl := None;
      layers := [];
    }

    /** Creating the map (first time only): a tile layer for the current theme and an empty
        layer group. */
    method Mount()
      requires Valid()
      modifies this
      ensures Valid()
      ensures mounted && tileUrl == Some(TileUrl(isDarkMode))
      ensures storage == old(storage) && isDarkMode == old(isDarkMode)
      ensures layers == old(layers)
    {
      if !mounted {
        tileUrl := Some(TileUrl(isDarkMode));
        mounted := true;
      }
    }

    /** Flip the theme, store the new one, and switch the tile layer if there is one. */
    method ToggleTheme()
      requires Valid()
      modifies this
      ensures Valid()
      ensures isDarkMode == !old(isDarkMode)
      ensures storage == old(storage)[ThemeKey := StoredTheme(isDarkMode)]
      ensures ThemeFromStorage(Lookup(storage, ThemeKey)) == isDarkMode
      ensures tileUrl == if old(tileUrl).Some? then Some(TileUrl(isDarkMode)) else None
      ensures mounted == old(mounted) && layers == old(layers)
    {
      var newTheme := !isDarkMode;
      isDarkMode := newTheme;
      storage := storage[ThemeKey := StoredTheme(newTheme)];
      if tileUrl.Some? {
        tileUrl := Some(TileUrl(newTheme));
      }
    }

    /** Redraw for the selected eclipse: clear the layer group, then add the band and its
        limits, the centre line, and one marker per labelled centre-line point. Without a
        map, nothing happens. */
    method Redraw(e: EclipseEvent)
      requires Valid()
      modifies this`layers
      ensures Valid()
      ensures layers == if mounted then Overlays(e) else old(layers)
    {
      if !mounted {
        return;
      }
      layers := [];
      var northern, southern := e.northernLimit, e.southernLimit;
      if |northern| > 0 && |southern| > 0 {
        var polygonPoints := northern + Reversed(southern);
        layers := layers + [BandPolygon(polygonPoints)];
        layers := layers + [LimitLine(northern)];
        layers := layers + [LimitLine(southern)];
      }
      assert layers == BandLayers(e);
      var centre := e.centerLine;
      if |centre| > 0 {
        layers := layers + [CentreLine(centre)];
        AddTimeMarkers(centre);
      }
    }

    /** The `forEach` over the centre line: a marker for each point that still has a label. */
    method AddTimeMarkers(centre: seq<LatLng>)
      requires Valid() && mounted
      modifies this`layers
      ensures Valid()
      ensures layers == old(layers) + Markers(centre)
    {
      ghost var before := layers;
      var index := 0;
      while index < |centre|
        invariant 0 <= index <= |centre|
        invariant layers == before + Markers(centre[..index])
      {
        MarkersStep(centre, index);
        if index < |TimeLabels| {
          layers := layers + [TimeMarker(centre[index], TimeLabels[index])];
        }
        index := index + 1;
      }
      assert centre[..|centre|] == centre;
    }
  }
}
