# Solar eclipse finder: verified model of its deterministic core

The eclipse finder is a browser app. It lists upcoming total solar eclipses, draws each one's
path of totality on a map, asks a generative-model service for the local circumstances at a
clicked point, and shows a simple horizon view of the sun at that point. This project models
in Dafny the parts of that app that are plain logic, and proves properties about them:

- **Eclipse catalog** (`catalog.dfy`, module `Catalog`). The four hand-authored events,
  including their northern, southern and centre lines, as a constant. Lemmas cover ids,
  display order, line lengths, and coordinate ranges.
- **Map view** (`map_visualizer.dfy`, module `MapVisualizer`). It covers:
  - the totality-band outline: the northern limit, then the southern limit reversed;
  - the dashed limit lines and the centre line;
  - the five fixed UTC time markers, paired with centre-line points by index;
  - the popup's "total" test;
  - the dark/light map theme kept in local storage.

  The view's mutable state is the class `MapView`. Its `Redraw` clears the layer group and
  refills it; `AddTimeMarkers` is the loop over the centre line. Together they are proved
  to leave exactly `Overlays(e)`.
- **Horizon view** (`three_d_view.dfy`, module `ThreeDView`). It covers:
  - the linear projection of (azimuth, altitude) into the 100 x 60 view box, relative to the
    observation's heading;
  - the occluding-disk offset and the darkening overlay's opacity;
  - the fallback sample used when there is no timeline;
  - the slider index, held by the class `HorizonView`.
- **Response sanitiser** (`gemini_service.dfy`, module `GeminiService`). It covers:
  - the date-dependent context hint;
  - the defaulting applied to the service's parsed answer;
  - idempotence of that defaulting.

  JavaScript's `??` replaces only an absent value; it is `Option.GetOr`. JavaScript's `||` also
  replaces `""` or `0`; it is `OrString` and `OrNumber`.

Shared records are in `types.dfy`: `LatLng`, `EclipseEvent`, `TimelinePoint` and
`ObservationPoint`. `wrappers.dfy` holds `Option`. `text.dfy` holds `Lower` (`toLowerCase`)
and `Contains` (`includes`). Coordinates, angles, coverage and opacity are `real`, since every
computation on them here is exact linear arithmetic. The zoom level and the slider index are
integers.

Three behaviours of the code that the model keeps as they are:
- The timeline index is not clamped. The view reads `timeline[timelineIndex]` as is, and
  `StateAt` returns `None` outside the timeline: the read is `undefined`, and the render that
  follows fails.
- An empty duration also becomes "1:30", because the code uses `||`, not `??`.
- `types.ts` declares `name` and each timeline entry's `time` as strings. The sanitiser copies
  them from the answer with an object spread, so an absent value stays absent. The model
  keeps both as `Option<string>`.

## Model

| member | source | states |
|---|---|---|
| `Catalog.Eclipses` | components/LandingPage.tsx:5-58 | the catalog constant: the four events with every field, line and coordinate as authored |
| `Catalog.CatalogIds` | components/LandingPage.tsx:5-58 | the catalog holds exactly four events, ids "2026", "2027", "2028", "2030" in display order, all distinct |
| `Catalog.CatalogWellFormed` | components/LandingPage.tsx:12-56 | every event: both limit lines non-empty; northern, southern and centre lines of equal length; empty `pathPolygon`; every coordinate (centre included) with latitude in [-90, 90] and longitude in [-180, 180] |
| `Catalog.CatalogLineLengths` | components/LandingPage.tsx:15-56 | the centre lines have 6, 5, 4 and 4 points |
| `Catalog.Ids` | components/LandingPage.tsx:77-79 | the card keys are the events' ids, one per event, in order |
| `MapVisualizer.Reversed` | components/MapVisualizer.tsx:89 | the reversed copy of the southern limit; it has the same length as the original |
| `MapVisualizer.TotalityBand` | components/MapVisualizer.tsx:87-90 | the band outline (northern limit, then the southern limit reversed); its length is the two lengths together and it starts with the northern limit |
| `MapVisualizer.ReversedAt` | components/MapVisualizer.tsx:89 | position `k` of the reversed copy is position `length - 1 - k` of the original |
| `MapVisualizer.ReversedTwice` | components/MapVisualizer.tsx:89 | reversing the copy twice gives the southern limit back |
| `MapVisualizer.TotalityBandShape` | components/MapVisualizer.tsx:87-90 | the outline has as many points as both limits together; its first points, as many as the northern limit has, are the northern limit in order; the rest are the southern limit last-first, and reversing that tail gives the southern limit unchanged |
| `MapVisualizer.TotalityBandExample` | components/MapVisualizer.tsx:87-90 | limits [N0,N1] and [S0,S1] give the outline [N0,N1,S1,S0] |
| `MapVisualizer.BandLayers` | components/MapVisualizer.tsx:86-102 | the band part of the drawing: non-empty iff both limits are; then exactly the polygon, the dashed northern limit and the dashed southern limit |
| `MapVisualizer.Markers` | components/MapVisualizer.tsx:111-122 | the time markers of a centre line; there are as many as the smaller of its length and 5 |
| `MapVisualizer.CentreLayers` | components/MapVisualizer.tsx:104-122 | the centre-line part of the drawing: nothing for an empty line, else the line plus one marker per labelled point; it holds only the line and time markers |
| `MapVisualizer.Overlays` | components/MapVisualizer.tsx:86-122 | everything drawn for an eclipse: 3 band layers when both limits exist, plus the line and its markers when the centre line exists |
| `MapVisualizer.MarkersAt` | components/MapVisualizer.tsx:111-122 | there are as many time markers as the smaller of the centre line's length and 5; marker `k` is on centre-line point `k` and carries `times[k]` |
| `MapVisualizer.MarkersStep` | components/MapVisualizer.tsx:112-121 | one more `forEach` step adds a marker iff its index is below 5 |
| `MapVisualizer.BandDrawnIff` | components/MapVisualizer.tsx:86-102 | the band polygon is among the drawn layers iff both limits are non-empty, and so are the dashed limit lines |
| `MapVisualizer.CentreLayersShape` | components/MapVisualizer.tsx:104-122 | an empty centre line draws nothing; otherwise the line comes first, then one marker for each of the first (at most 5) points, in centre-line order |
| `MapVisualizer.CatalogDrawing` | components/MapVisualizer.tsx:86-122 | every catalog event gets its band; only the 2026 event (index 0) has a centre-line point without a time label |
| `MapVisualizer.IsTotal` | components/MapVisualizer.tsx:129 | the popup's badge test; it holds only for a duration text of at least five characters |
| `MapVisualizer.IsTotalIff` | components/MapVisualizer.tsx:129 | the "total" badge shows iff the duration is non-empty and its lower-case form contains "total"; the "totality" test is subsumed |
| `MapVisualizer.ThemeFromStorage` | components/MapVisualizer.tsx:29-31 | reading the stored theme; with nothing stored the map is dark |
| `MapVisualizer.StoredTheme` | components/MapVisualizer.tsx:40 | the value written on toggle; reading it back gives the theme that was written |
| `MapVisualizer.TileUrl` | components/MapVisualizer.tsx:34-42 | the tile URL for a theme: the dark URL exactly for the dark theme, else the light one |
| `MapVisualizer.ThemeRoundTrip` | components/MapVisualizer.tsx:29-40 | reading back the stored value gives the theme that was written; the only stored value that reads as light is "light" |
| `MapVisualizer.MapView.constructor` | components/MapVisualizer.tsx:29-31 | the theme is dark unless local storage holds exactly "light" under `mapTheme`; there is no map and no layer yet |
| `MapVisualizer.MapView.Mount` | components/MapVisualizer.tsx:49-63 | creating the map adds a tile layer for the current theme and an empty layer group; theme and storage unchanged |
| `MapVisualizer.MapView.ToggleTheme` | components/MapVisualizer.tsx:37-44 | the theme flips; storage gets "dark"/"light" to match, and a re-read gives the new theme; an existing tile layer switches to the new theme's URL; no other key changes; the layers stay as they were |
| `MapVisualizer.MapView.Redraw` | components/MapVisualizer.tsx:82-124 | with a map, the layer group is cleared and then holds exactly the current eclipse's overlays (band and limits, centre line, markers); without a map, nothing changes |
| `MapVisualizer.MapView.AddTimeMarkers` | components/MapVisualizer.tsx:111-122 | the `forEach` over the centre line appends exactly the time markers, in centre-line order, to what the layer group already holds |
| `ThreeDView.ReferenceAzimuth` | components/ThreeDView.tsx:36 | the heading the view uses: never 0, and the observation's azimuth whenever that is non-zero |
| `ThreeDView.SunXY` | components/ThreeDView.tsx:34-40 | the sun's view-box point; `SkyAt` maps it back to the exact azimuth and altitude |
| `ThreeDView.SunInViewBox` | components/ThreeDView.tsx:30-40 | the sun is inside the 100 x 60 view box iff it is within 25 degrees of the heading and its altitude is from -18 to 12 degrees |
| `ThreeDView.SunXYInverse` | components/ThreeDView.tsx:34-40 | the projection has an inverse (`SkyAt`) on both sides, so distinct sun positions are drawn at distinct points |
| `ThreeDView.SunXYLandmarks` | components/ThreeDView.tsx:34-40 | azimuth equal to the heading gives x = 50; altitude 0 gives y = 24; an observation azimuth of 0 falls back to heading 286 |
| `ThreeDView.SunXYMonotone` | components/ThreeDView.tsx:37-38 | x strictly increases with azimuth; y strictly decreases with altitude |
| `ThreeDView.SunXYExample` | components/ThreeDView.tsx:34-40 | azimuth 290, altitude 15, heading 286 is drawn at (58, -6) |
| `ThreeDView.DiskOffset` | components/ThreeDView.tsx:94 | the occluding disk's offset; for a coverage in [0, 1] it lies in [0, 5.2] |
| `ThreeDView.DiskOffsetLaws` | components/ThreeDView.tsx:94 | the offset is 0 at coverage 1 and 5.2 at coverage 0; it strictly decreases as coverage grows; for coverage in [0, 1] it stays in [0, 5.2] |
| `ThreeDView.OverlayOpacity` | components/ThreeDView.tsx:83 | the overlay opacity; never above 0.9, and never negative for a non-negative coverage |
| `ThreeDView.OverlayOpacityLaws` | components/ThreeDView.tsx:83 | opacity never exceeds 0.9; it is non-negative for non-negative coverage and monotone in coverage; it is 0.9 at coverage 1 |
| `ThreeDView.FallbackState` | components/ThreeDView.tsx:15-20 | the sample for an empty timeline: coverage 1, a non-zero altitude, and the view's own heading as azimuth |
| `ThreeDView.StateAt` | components/ThreeDView.tsx:14-20 | an empty timeline gives the fallback sample; otherwise the sample at the index, defined iff the index is inside the timeline (no clamp) |
| `ThreeDView.SliderMax` | components/ThreeDView.tsx:107 | the slider's largest value: below the timeline length when there is a timeline, and never more than one below it |
| `ThreeDView.SliderIndexInRange` | components/ThreeDView.tsx:106-107 | every slider value from 0 up to `max(0, timeline.length - 1)` selects a defined sample |
| `ThreeDView.FallbackDrawing` | components/ThreeDView.tsx:15-20 | without a timeline the fallback is shown; its azimuth equals the heading, so the sun is at x = 50; the disks coincide; the overlay is at 0.9; an altitude of 0 is replaced by 10 |
| `ThreeDView.InitialIndexUndefined` | components/ThreeDView.tsx:11-15 | a non-empty timeline of at most five samples has no sample at the opening index 5 |
| `ThreeDView.Clamp` | components/ThreeDView.tsx:107 | the clamped index is inside the timeline, and an index already inside is kept |
| `ThreeDView.ClampedState` | components/ThreeDView.tsx:15 | the corrected read: the fallback for an empty timeline, else always one of the timeline's samples |
| `ThreeDView.ClampLaw` | components/ThreeDView.tsx:15 | clamped reads: an index below 0 reads as 0; an index past the end reads as the last; wherever the unclamped read is defined, both agree |
| `ThreeDView.HorizonView.constructor` | components/ThreeDView.tsx:10-11 | the view opens on its observation with the slider at index 5 |
| `ThreeDView.HorizonView.CurrentState` | components/ThreeDView.tsx:14-20 | the sample on display is defined iff the timeline is empty or the index is inside it |
| `ThreeDView.HorizonView.SunPosition` | components/ThreeDView.tsx:42 | the sun is drawn exactly when there is a sample on display |
| `ThreeDView.HorizonView.SliderChange` | components/ThreeDView.tsx:22-24 | the slider index becomes the chosen value; a value the slider can produce gives a defined sample |
| `ThreeDView.HorizonView.ResetToMaximum` | components/ThreeDView.tsx:116 | the "maximum phase" button sets the index back to 5 |
| `GeminiService.ContextHint` | services/geminiService.ts:9-14 | the hint is non-empty iff the date mentions "2026" or "2027" |
| `GeminiService.ContextHintPrecedence` | services/geminiService.ts:9-14 | a date with "2026" gets the 2026 hint, even if it also has "2027"; the 2027 hint goes exactly to dates with "2027" and without "2026" |
| `GeminiService.DefaultAltitude` | services/geminiService.ts:57 | the altitude assumed when the answer has none; it is between 10 and 20 degrees |
| `GeminiService.DefaultAzimuth` | services/geminiService.ts:58 | the azimuth assumed when the answer has none; it is between 285 and 290 degrees |
| `GeminiService.OrString` | services/geminiService.ts:59 | JavaScript's or-operator on an optional string: a present non-empty value is kept, and a non-empty default makes the result non-empty |
| `GeminiService.SanitisePoint` | services/geminiService.ts:60-65 | one sanitised timeline entry: its time and every present value are kept |
| `GeminiService.SanitiseTimeline` | services/geminiService.ts:60-65 | the `map` over the timeline; it keeps the length |
| `GeminiService.DefaultsAgreeWithHint` | services/geminiService.ts:57-58 | the assumed altitude and azimuth lie in the ranges the same year's hint announces |
| `GeminiService.Sanitise` | services/geminiService.ts:53-66 | the returned duration is never empty |
| `GeminiService.SanitiseFields` | services/geminiService.ts:53-60 | lat/lng are the caller's, overriding the answer; `name` passes through; absent altitude/azimuth become 11/285 for a "2026" date, else 18/290; present values, 0 included, are kept; a missing or empty duration becomes "1:30"; a missing timeline becomes empty |
| `GeminiService.SanitiseTimelineAt` | services/geminiService.ts:60-65 | the timeline `map` keeps length and order; entry `i` is entry `i` sanitised |
| `GeminiService.SanitisedTimeline` | services/geminiService.ts:60-65 | the returned timeline has the answer's entries, in order, each sanitised |
| `GeminiService.SanitisePointLaws` | services/geminiService.ts:61-64 | each entry keeps its time and its present values; absent coverage, altitude or azimuth becomes 0 |
| `GeminiService.SanitiseEmbedTimeline` | services/geminiService.ts:60-65 | re-sanitising a sanitised timeline leaves it unchanged |
| `GeminiService.SanitiseFixedPoint` | services/geminiService.ts:53-66 | any record with a non-empty duration is unchanged when sanitised again with its own coordinate, whatever the date |
| `GeminiService.SanitiseIdempotent` | services/geminiService.ts:53-66 | sanitising twice with the same lat/lng/date gives the same record as sanitising once |
| `Text.Lower` | components/MapVisualizer.tsx:129 | `toLowerCase` keeps the length and lower-cases each character |
| `Text.Contains` | services/geminiService.ts:10 | `includes`; it holds only when the substring is no longer than the string |
| `Text.ContainsIff` | services/geminiService.ts:10 | `includes` holds iff the substring occurs at some offset |

## Findings

| source | as written | input that shows it | evidently intended | confidence | as-written member | corrected member |
|---|---|---|---|---|---|---|
| components/ThreeDView.tsx:11-15 | The slider index starts at 5 (and the reset button returns it to 5). The sample is read as `timeline[timelineIndex]` with no bound check. | An answer whose timeline has 3 samples. On opening, index 5 reads `undefined`, and `currentState.azimuth` then fails. | The index is clamped into `[0, timeline.length - 1]`, as the slider's own range is. | medium; not executed | `ThreeDView.InitialIndexUndefined` | `ThreeDView.ClampLaw` |

`HorizonView` keeps the as-written read, because it models the code. `ClampedState` is the
corrected read, and `ClampLaw` proves that it agrees with the as-written read wherever that
read is defined.

## Left out

- Leaflet itself is not modelled, because it is UI in a foreign library. This covers map
  creation options, `setView`, the zoom control, the tile attribution text, the polygon and
  line styles, the marker HTML, and the popup and its 3D button wiring.
  `MapView.Mount` keeps only the tile layer and the layer group.
- The place search is not modelled, because it is network I/O. This covers the Nominatim
  fetch, `parseFloat` of its answer, and the search marker.
- The request to the generative-model service is not modelled, because it is an external
  call. This covers the client, the prompt, the response schema and `JSON.parse`. The
  sanitiser starts from the parsed answer. Fields of the answer beyond the declared ones
  (`sunPath`, for one) pass through the spread untyped; they are not modelled.
- The Street View image URL and its `onError` fallback image are not modelled: they are an
  external service.
- Number-to-text formatting (`toFixed`, percentages) is not modelled: it is rendering.
- App.tsx is not modelled. It wires the views together and awaits the service. Two
  overlapping clicks can resolve out of order, and the later result wins; that is concurrency.
- InfoPanel.tsx, Sidebar.tsx and components/Sidebar.tsx are not modelled: they are purely
  presentational.
- Floating point is not modelled: numbers are exact reals. NaN, which `||` also treats as
  missing, is not covered.
- Text.Lower: lower-cases ASCII letters only; JavaScript's `toLowerCase` also folds other
  Unicode letters.
- ThreeDView.SunXY: takes numbers. The source's `az ?? 286` and `alt ?? 0` never fire here,
  because every sample in the model, sanitised or fallback, has a numeric azimuth and altitude.
  For the same reason the view's `point.timeline || []` and `coverage ?? 0` are left out.
- ThreeDView.HorizonView.SliderChange: takes the slider's value as an integer. The
  `parseInt` of the input's text is not modelled.
- The sanitiser keeps a present azimuth of 0 (`??`), but the horizon view then replaces a
  heading of 0 by 286 (`||`). Each half is proved in its own module
  (`GeminiService.SanitiseFields`, `ThreeDView.SunXYLandmarks`); no lemma joins the two.
