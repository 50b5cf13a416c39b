/**
  The marker side of the map component: the style of a marker for a
  magnitude, and the list of markers built on each refresh from the features
  the map's bounds contain. The marker list is what is handed to the
  clustering layer; the layer itself is a third-party library and is not
  part of this model.
*/
module QuakeMap {
  import opened Seqs
  import opened Earthquake
  import opened EarthquakeHelpers
  import UseEarthquakes
  import VisibleEarthquakes

  const MinSize: real := 12.0
  const MaxSize: real := 50.0

  /** The style of a marker: its colour and its diameter in pixels. */
  datatype MagnitudeStyle = MagnitudeStyle(color: string, size: real)

  function Min(a: real, b: real): real { if a <= b then a else b }
  function Max(a: real, b: real): real { if a >= b then a else b }

  /** `getMagnitudeStyle`: the tier colour, and `(m + 1) * 4` clamped to
      [12, 50]. */
  function StyleFor(m: real): (s: MagnitudeStyle)
    ensures MinSize <= s.size <= MaxSize
    ensures s.color == TierColors[Tier(m)]
  {
    MagnitudeStyle(MagnitudeColor(m), Max(MinSize, Min(MaxSize, (m + 1.0) * 4.0)))
  }

  /** The size follows `(m + 1) * 4` exactly on [2, 11.5] and is clamped
      outside it. */
  lemma SizeClamp(m: real)
    ensures StyleFor(m).size == (m + 1.0) * 4.0 <==> 2.0 <= m <= 11.5
    ensures m < 2.0 ==> StyleFor(m).size == MinSize
    ensures m > 11.5 ==> StyleFor(m).size == MaxSize
  {
  }

  /** A stronger earthquake never gets a smaller marker, nor a lower tier. */
  lemma StyleMonotone(m1: real, m2: real)
    requires m1 <= m2
    ensures StyleFor(m1).size <= StyleFor(m2).size
    ensures Tier(m1) <= Tier(m2)
  {
    TierMonotone(m1, m2);
  }

  /** The map SDK's circle symbol, the only icon shape used. */
  datatype SymbolPath = Circle

  datatype Icon = Icon(
    path: SymbolPath,
    fillColor: string,
    fillOpacity: real,
    strokeColor: string,
    strokeWeight: real,
    scale: real)

  /** A marker on the map. `selects` is the feature its click listener hands
      to the selection callback. */
  datatype Marker = Marker(position: LatLng, icon: Icon, selects: Feature)

  /** The marker built for one visible feature. The magnitude is taken as
      JavaScript takes it: a `null` magnitude counts as 0. */
  function MarkerFor(q: Feature): (m: Marker)
    ensures m.position == Position(q)
    ensures m.icon.path == Circle
    ensures m.icon.fillColor == m.icon.strokeColor == MagnitudeColor(MagnitudeNumber(q.mag))
    ensures m.icon.scale * 3.0 == StyleFor(MagnitudeNumber(q.mag)).size
    ensures m.selects == q
  {
    var style := StyleFor(MagnitudeNumber(q.mag));
    Marker(
      LatLng(q.coordinates.1, q.coordinates.0),
      Icon(Circle, style.color, 0.7, style.color, 2.0, style.size / 3.0),
      q)
  }

  /** The features the map's bounds contain, in their original order;
      `contains` stands for the map SDK's `LatLngBounds.contains`. */
  function VisibleQuakes(quakes: seq<Feature>, contains: LatLng -> bool): (r: seq<Feature>)
    ensures forall q :: q in r <==> q in quakes && contains(Position(q))
    ensures forall q :: multiset(r)[q] == if contains(Position(q)) then multiset(quakes)[q] else 0
    ensures IsSubsequence(r, quakes)
  {
    Filter(q => contains(Position(q)), quakes)
  }

  /** One marker per visible feature, in the same order. */
  function BuildMarkers(visible: seq<Feature>): (ms: seq<Marker>)
    ensures |ms| == |visible|
    ensures forall i :: 0 <= i < |ms| ==> ms[i].selects == visible[i]
  {
    Map(MarkerFor, visible)
  }

  /** One refresh: without bounds nothing is handed to the clustering layer;
      otherwise it receives one marker per feature the bounds contain. */
  function UpdateMarkers(quakes: seq<Feature>, bounds: Option<LatLng -> bool>): (r: Option<seq<Marker>>)
    ensures bounds.None? <==> r.None?
    ensures r.Some? ==> |r.value| <= |quakes|
    ensures r.Some? ==> forall i :: 0 <= i < |r.value| ==>
      r.value[i].selects in quakes && bounds.value(r.value[i].position)
    ensures r.Some? ==> Map((m: Marker) => m.selects, r.value) == VisibleQuakes(quakes, bounds.value)
    ensures r.Some? ==> forall i :: 0 <= i < |r.value| ==> r.value[i] == MarkerFor(r.value[i].selects)
  {
    match bounds
    case None => None
    case Some(contains) => Some(BuildMarkers(VisibleQuakes(quakes, contains)))
  }

  /** What each marker shows: it sits at the feature's latitude and longitude
      (swapped from the GeoJSON order), its fill and stroke share the
      feature's tier colour, and its radius is a third of the style size. */
  lemma MarkersShowTheirFeatures(visible: seq<Feature>, i: int)
    requires 0 <= i < |visible|
    ensures BuildMarkers(visible)[i].position.lat == visible[i].coordinates.1
    ensures BuildMarkers(visible)[i].position.lng == visible[i].coordinates.0
    ensures BuildMarkers(visible)[i].icon.fillColor == BuildMarkers(visible)[i].icon.strokeColor
         == MagnitudeColor(MagnitudeNumber(visible[i].mag))
    ensures BuildMarkers(visible)[i].icon.scale * 3.0 == StyleFor(MagnitudeNumber(visible[i].mag)).size
    ensures 4.0 <= BuildMarkers(visible)[i].icon.scale <= 50.0 / 3.0
  {
  }

  /** Reading back the click targets of the markers, in order, gives exactly
      the visible features: no feature is dropped, repeated or reordered. */
  lemma MarkersRoundTrip(visible: seq<Feature>)
    ensures Map((m: Marker) => m.selects, BuildMarkers(visible)) == visible
  {
  }

  /** When the bounds' `contains` is the viewport test of the
      visible-earthquakes hook, the markers are built for exactly the
      features that hook reports as visible. */
  lemma SameVisibleSet(quakes: seq<Feature>, b: VisibleEarthquakes.LatLngBounds)
    ensures VisibleQuakes(quakes, (p: LatLng) => VisibleEarthquakes.InBox(b, p.lat, p.lng))
      == VisibleEarthquakes.FilterVisible(quakes, b)
  {
    var contains := (p: LatLng) => VisibleEarthquakes.InBox(b, p.lat, p.lng);
    forall i | 0 <= i < |quakes|
      ensures contains(Position(quakes[i])) == VisibleEarthquakes.IsVisible(quakes[i], b)
    {
      var p := Position(quakes[i]);
      assert p.lat == Lat(quakes[i]) && p.lng == Lng(quakes[i]);
    }
    FilterCongruent(q => contains(Position(q)), q => VisibleEarthquakes.IsVisible(q, b), quakes);
  }

  /** After the magnitude filter every feature has a magnitude, so every
      marker's colour and size come from the feature's real magnitude, which
      lies in the range; sizes are bounded by the styles of the range's
      ends. */
  lemma MarkersOfFilteredFeatures(features: seq<Feature>, range: UseEarthquakes.MagnitudeRange,
                                  contains: LatLng -> bool)
    ensures var ms := BuildMarkers(VisibleQuakes(UseEarthquakes.FilterByMagnitude(features, range), contains));
      forall m | m in ms ::
        && m.selects in features && m.selects.mag.Some? && range.0 <= m.selects.mag.value <= range.1
        && contains(m.position)
        && m.icon.fillColor == MagnitudeColor(m.selects.mag.value)
        && StyleFor(range.0).size <= m.icon.scale * 3.0 <= StyleFor(range.1).size
  {
    var visible := VisibleQuakes(UseEarthquakes.FilterByMagnitude(features, range), contains);
    var ms := BuildMarkers(visible);
    forall m | m in ms
      ensures && m.selects in features && m.selects.mag.Some? && range.0 <= m.selects.mag.value <= range.1
              && contains(m.position)
              && m.icon.fillColor == MagnitudeColor(m.selects.mag.value)
              && StyleFor(range.0).size <= m.icon.scale * 3.0 <= StyleFor(range.1).size
    {
      var i :| 0 <= i < |ms| && ms[i] == m;
      var q := visible[i];
      assert q in visible;
      MarkersShowTheirFeatures(visible, i);
      StyleMonotone(range.0, q.mag.value);
      StyleMonotone(q.mag.value, range.1);
    }
  }

  /** Bounds that contain every feature show them all. */
  lemma ContainedByAll(quakes: seq<Feature>, contains: LatLng -> bool)
    requires forall i :: 0 <= i < |quakes| ==> contains(Position(quakes[i]))
    ensures VisibleQuakes(quakes, contains) == quakes
  {
    FilterAll(q => contains(Position(q)), quakes);
  }

  /** A feed with magnitudes 2.1, 5.3 and 7.8 and the range [5, 10]:
      only the 5.3 and 7.8 features get markers, orange and red. */
  lemma EndToEndExample(a: Feature, b: Feature, c: Feature)
    requires a.mag == Some(2.1) && b.mag == Some(5.3) && c.mag == Some(7.8)
    ensures var ms := BuildMarkers(VisibleQuakes(
        UseEarthquakes.FilterByMagnitude([a, b, c], (5.0, 10.0)), (p: LatLng) => true));
      |ms| == 2 && ms[0].selects == b && ms[1].selects == c
      && ms[0].icon.fillColor == Orange && ms[1].icon.fillColor == Red
  {
    var range := (5.0, 10.0);
    var inRange := q => UseEarthquakes.InMagnitudeRange(q, range);
    assert [a, b, c][1..] == [b, c] && [b, c][1..] == [c] && [c][1..] == [];
    assert Filter(inRange, [c]) == [c];
    assert Filter(inRange, [b, c]) == [b, c];
    var filtered := UseEarthquakes.FilterByMagnitude([a, b, c], range);
    assert filtered == [b, c];
    var visible := VisibleQuakes(filtered, (p: LatLng) => true);
    ContainedByAll(filtered, (p: LatLng) => true);
    assert visible == [b, c];
    MarkersShowTheirFeatures(visible, 0);
    MarkersShowTheirFeatures(visible, 1);
    EarthquakeHelpers.MagnitudeBands(5.3);
    EarthquakeHelpers.MagnitudeBands(7.8);
  }
}
