# quakeVis decision logic in Dafny

quakeVis shows the USGS earthquake summary feed on a Google map. This project
models the part of it that decides what is shown:

- the **magnitude colour scale** (`getMagnitudeColor`) and the two legend tables
  beside the map (`magnitudeLevels`, `clusterCountLevels`);
- the **marker style** (`getMagnitudeStyle`: tier colour plus a size clamped to
  [12, 50]) and the list of circle markers built on each map refresh, one per
  feature the map's bounds contain;
- the **viewport filter** of the visible-earthquakes hook, including boxes that
  wrap across the date line;
- the **magnitude-range filter** applied to each fetched feed, and the table of
  feed URLs per time period.

All of it is pure, so it is modelled as functions over `seq<Feature>` with
lemmas. JavaScript's `Array.prototype.filter` and `map` are the generic
`Seqs.Filter` and `Seqs.Map`. Their contracts say the filter keeps exactly the
elements that pass, in order, with multiplicity, as an order-preserving
subsequence (`Seqs.IsSubsequence`). Magnitudes and coordinates are `real`,
because the code only compares them and computes one affine expression.

Modules, one per source file:

| module | file | source |
|---|---|---|
| `Seqs` | seqs.dfy | `Array.prototype.filter` / `map` as used throughout |
| `Earthquake` | earthquake.dfy | src/types/earthquake.ts |
| `EarthquakeHelpers` | earthquake_helpers.dfy | src/lib/earthquake-helpers.ts |
| `UseEarthquakes` | use_earthquakes.dfy | src/hooks/use-earthquakes.ts |
| `VisibleEarthquakes` | use_visible_earthquakes.dfy | src/hooks/use-visible-earthquakes.ts |
| `QuakeMap` | quake_map.dfy | src/components/quake-map.tsx |

Modelling decisions:

- A feature's `mag` is `Option<real>`, because the feed carries `null` for
  events without a magnitude. The marker code reads `mag` as a number. When it
  gets `null`, JavaScript turns it into 0 for both the comparison and the
  arithmetic. `Earthquake.MagnitudeNumber` makes that explicit. A `null`
  magnitude therefore gives a green marker of size 12. In the running
  application this cannot happen, because the magnitude filter removes such
  features first (`QuakeMap.MarkersOfFilteredFeatures`).
- `coordinates` is the GeoJSON triple `(longitude, latitude, depth)`. Latitude is
  component 1 and longitude is component 0.
- The map SDK's `LatLngBounds.contains` is a parameter `contains: LatLng -> bool`.
  `map.getBounds()` returning `undefined` is an `Option`. In the hook it leaves
  the visible list as it was. In the map component nothing is handed to the
  clusterer.
- The `API_URLS` table is written as the common USGS summary-feed prefix
  followed by each file name. The four strings are the same as the source's.
- Magnitudes below 0 are green, because the first test is `m < 3`.
- A viewport wider than 360° gets no special case, because the code only
  compares `minLng > maxLng`.
- The range filter itself drops `null` magnitudes.

## Model

| member | source | states |
|---|---|---|
| `Seqs.Filter` | src/hooks/use-visible-earthquakes.ts:23-31 | the kept elements are exactly those passing the test, each as often as in the input, and form an order-preserving subsequence of it |
| `Seqs.Map` | src/components/quake-map.tsx:192 | one output per input, in order, each the image of the input at the same index |
| `Seqs.FilterAbsorbs` | src/hooks/use-earthquakes.ts:31-36 | filtering with a stricter test after a looser one equals filtering with the stricter test alone |
| `EarthquakeHelpers.MagnitudeColor` | src/lib/earthquake-helpers.ts:1-6 | the colour is the tier colour of the number of thresholds (3, 5, 7) the magnitude has reached |
| `EarthquakeHelpers.Tier` | src/lib/earthquake-helpers.ts:1-6 | every magnitude falls in one of exactly four tiers |
| `EarthquakeHelpers.TierBands` | src/lib/earthquake-helpers.ts:2-5 | the tier is 0 below 3, 1 on [3, 5), 2 on [5, 7) and 3 from 7 on |
| `EarthquakeHelpers.MagnitudeColorIsTierColor` | src/lib/earthquake-helpers.ts:1-6 | the function is total and returns one of `#4caf50`, `#ffc107`, `#ff9800`, `#f44336` |
| `EarthquakeHelpers.TierColorsDistinct` | src/lib/earthquake-helpers.ts:2-5 | the four colours are pairwise distinct |
| `EarthquakeHelpers.MagnitudeBands` | src/lib/earthquake-helpers.ts:2-5 | below 3 green, [3, 5) amber, [5, 7) orange, 7 and above red |
| `EarthquakeHelpers.MagnitudeColorIff` | src/lib/earthquake-helpers.ts:2-5 | each colour occurs exactly on its band, in both directions |
| `EarthquakeHelpers.BandEdges` | src/lib/earthquake-helpers.ts:2-4 | lower edges are inclusive: 3 is amber, 2.9999 is green, 5 orange, 7 red |
| `EarthquakeHelpers.ReachedMonotone` | src/lib/earthquake-helpers.ts:2-4 | the number of thresholds reached never decreases as the magnitude grows |
| `EarthquakeHelpers.TierMonotone` | src/lib/earthquake-helpers.ts:1-6 | m1 <= m2 implies tier(m1) <= tier(m2) |
| `EarthquakeHelpers.MagnitudeLevelsMatchTiers` | src/lib/earthquake-helpers.ts:8-17 | four legend rows; row i's colour is computed from representative magnitude i (2, 4, 6, 8), which lies in tier i, so the row shows tier i's colour; the colours are distinct |
| `EarthquakeHelpers.ClusterCountLevelsShape` | src/lib/earthquake-helpers.ts:19-40 | four count bands in descending order "Over 50", "21 - 50", "6 - 20", "1 - 5", with pairwise distinct colours and descriptions |
| `UseEarthquakes.FeedUrl` | src/hooks/use-earthquakes.ts:9-14 | the URL for a period is the USGS summary feed `all_<period>.geojson` |
| `UseEarthquakes.ApiUrlsTotalAndDistinct` | src/hooks/use-earthquakes.ts:7-14 | the table has an entry for each of hour, day, week and month, and no two periods share a URL |
| `UseEarthquakes.FilterByMagnitude` | src/hooks/use-earthquakes.ts:31-36 | a feature is kept iff its magnitude is non-null and lo <= mag <= hi; the result is an order-preserving subsequence keeping every passing feature |
| `UseEarthquakes.NullMagnitudeDropped` | src/hooks/use-earthquakes.ts:33 | a feature with a null magnitude is never kept, whatever the range |
| `UseEarthquakes.EmptyRange` | src/hooks/use-earthquakes.ts:34-35 | lo > hi keeps nothing |
| `UseEarthquakes.NarrowerRange` | src/hooks/use-earthquakes.ts:34-35 | a narrower range's result equals the wider result filtered again, so it is a subsequence of the wider result |
| `UseEarthquakes.FilterByMagnitudeIdempotent` | src/hooks/use-earthquakes.ts:31-36 | re-filtering with the same range changes nothing |
| `VisibleEarthquakes.FilterVisible` | src/hooks/use-visible-earthquakes.ts:19-31 | a feature is kept iff it passes the box test, with multiplicity, as an order-preserving subsequence |
| `VisibleEarthquakes.Update` | src/hooks/use-visible-earthquakes.ts:12-33 | without bounds the visible list is unchanged; with bounds it becomes exactly the viewport filter's result: the features inside them, in order, with multiplicity |
| `VisibleEarthquakes.NonWrappingBox` | src/hooks/use-visible-earthquakes.ts:26-29 | when minLng <= maxLng a feature is kept iff minLat <= lat <= maxLat and minLng <= lng <= maxLng, with lat from coordinates[1] and lng from coordinates[0] |
| `VisibleEarthquakes.WrappingBox` | src/hooks/use-visible-earthquakes.ts:21-28 | when minLng > maxLng a feature is kept iff its latitude is in range and lng >= minLng or lng <= maxLng |
| `VisibleEarthquakes.WrappingBoxIsTwoBoxes` | src/hooks/use-visible-earthquakes.ts:21-29 | for longitudes in [-180, 180] a wrapping box shows exactly what its two non-wrapping halves on either side of the date line show |
| `VisibleEarthquakes.DateLineExample` | src/hooks/use-visible-earthquakes.ts:27-28 | with minLng 170 and maxLng -170, a feature at 175 is kept and one at 0 is dropped |
| `VisibleEarthquakes.InvertedLatitudes` | src/hooks/use-visible-earthquakes.ts:26 | minLat > maxLat keeps nothing |
| `VisibleEarthquakes.FilterVisibleIdempotent` | src/hooks/use-visible-earthquakes.ts:23-31 | re-filtering the result with the same bounds returns it unchanged |
| `QuakeMap.StyleFor` | src/components/quake-map.tsx:20-24 | the size is always within [12, 50] and the colour is the magnitude's tier colour |
| `QuakeMap.SizeClamp` | src/components/quake-map.tsx:22 | the size equals (m+1)*4 exactly when 2 <= m <= 11.5; it is 12 below and 50 above |
| `QuakeMap.StyleMonotone` | src/components/quake-map.tsx:21-22 | size and tier never decrease as the magnitude grows |
| `QuakeMap.VisibleQuakes` | src/components/quake-map.tsx:176-183 | the visible features are the order-preserving subsequence, with multiplicity, of those whose position (coordinates[1], coordinates[0]) the bounds contain |
| `QuakeMap.MarkerFor` | src/components/quake-map.tsx:193-212 | the marker sits at (coordinates[1], coordinates[0]), is a circle whose fill and stroke are the colour of the feature's magnitude (null read as 0), has radius a third of that magnitude's style size, and selects its own feature on click |
| `QuakeMap.BuildMarkers` | src/components/quake-map.tsx:192-213 | exactly one marker per visible feature, in the same order, each selecting its own feature on click |
| `QuakeMap.UpdateMarkers` | src/components/quake-map.tsx:172-216 | without bounds nothing is handed over; otherwise the click targets of the markers handed over are exactly the visible features, in order, each marker is the one built for its feature, and every marker belongs to a fetched feature and lies inside the bounds |
| `QuakeMap.MarkersShowTheirFeatures` | src/components/quake-map.tsx:192-207 | marker i sits at (coordinates[1], coordinates[0]); fill and stroke are both the style colour; scale is size/3, hence within [4, 50/3] |
| `QuakeMap.MarkersRoundTrip` | src/components/quake-map.tsx:192-213 | reading back the click targets of the markers in order gives exactly the visible features |
| `QuakeMap.SameVisibleSet` | src/components/quake-map.tsx:176-183 | with the hook's box test as `contains`, the map component's visible set equals the hook's |
| `QuakeMap.MarkersOfFilteredFeatures` | src/components/quake-map.tsx:192-206 | after the magnitude filter every marker's feature has a magnitude in range and lies in the bounds; its colour comes from that magnitude and its size lies between the styles of the range ends |
| `QuakeMap.EndToEndExample` | src/hooks/use-earthquakes.ts:31-36 | magnitudes 2.1, 5.3 and 7.8 with range [5, 10] give two markers, for 5.3 (orange) and 7.8 (red) |

## Left out

- Fetching the feed, the `response.ok` check, JSON parsing, the error message and
  the toast (src/hooks/use-earthquakes.ts:22-53). These are network I/O and async
  plumbing. The feed's contents are the input `features`.
- React state and effects: `useState`, `useEffect`, `setVisible`,
  `setEarthquakes`, the loading and error flags and the initial-load flag. Only
  the value each update computes is modelled.
- Google Maps SDK behaviour: `getBounds`, `LatLngBounds.contains` (a parameter
  here), `LatLngBounds.extend` and `fitBounds` in `MapUpdater`, marker objects,
  `addListener`, `removeListener` and `clearListeners`. These are foreign library
  code.
- The clusterer (`MarkerClusterer`, `clearMarkers`, `addMarkers`). It is a
  third-party library whose code is not part of this model. Only the marker list
  handed to it is modelled. No clustering, density classification by count or
  marker reconciliation exists in this repository's own code.
- The `console.log` of the total and visible counts
  (src/components/quake-map.tsx:185-190).
- The marker title `Mag … - …`, `toFixed` and `toLocaleString` formatting, the
  InfoWindow and its pixel offset, the legend and page JSX. These are display
  only.
- Floating-point behaviour: NaN, infinities and rounding. Numbers are `real`.
- EarthquakeHelpers.ClusterCountLevelsShape: states the count bands only as
  their labels. The source never maps a count to a band (the clusterer draws its
  own badges), so there is no numeric band function to check them against.
