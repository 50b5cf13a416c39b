/**
  The viewport filter of the visible-earthquakes hook: on every idle event
  the map's bounds are read and the features inside them are kept.
*/
module VisibleEarthquakes {
  import opened Seqs
  import opened Earthquake

  /** The map's bounds as the map widget reports them: the south-west and
      north-east corners. When the box crosses the date line the south-west
      longitude is the larger of the two. */
  datatype LatLngBounds = LatLngBounds(sw: LatLng, ne: LatLng)

  function MinLat(b: LatLngBounds): real { b.sw.lat }
  function MaxLat(b: LatLngBounds): real { b.ne.lat }
  function MinLng(b: LatLngBounds): real { b.sw.lng }
  function MaxLng(b: LatLngBounds): real { b.ne.lng }

  /** The box wraps from +180 to -180 degrees of longitude. */
  predicate CrossesDateLine(b: LatLngBounds)
  {
    MinLng(b) > MaxLng(b)
  }

  /** The box test, with every edge included. */
  predicate InBox(b: LatLngBounds, lat: real, lng: real)
  {
    var inLat := lat >= MinLat(b) && lat <= MaxLat(b);
    var inLng :=
      if CrossesDateLine(b) then lng >= MinLng(b) || lng <= MaxLng(b)
      else lng >= MinLng(b) && lng <= MaxLng(b);
    inLat && inLng
  }

  /** The filter's test: the feature's latitude and longitude are in the box. */
  predicate IsVisible(q: Feature, b: LatLngBounds)
  {
    InBox(b, Lat(q), Lng(q))
  }

  /** The features inside the bounds, in their original order. */
  function FilterVisible(quakes: seq<Feature>, b: LatLngBounds): (r: seq<Feature>)
    ensures forall q :: q in r <==> q in quakes && IsVisible(q, b)
    ensures forall q :: multiset(r)[q] == if IsVisible(q, b) then multiset(quakes)[q] else 0
    ensures IsSubsequence(r, quakes)
  {
    Filter(q => IsVisible(q, b), quakes)
  }

  /** One idle event: when the map has no bounds yet the visible list stays as
      it was, otherwise it becomes the features inside the bounds. */
  function Update(visible: seq<Feature>, quakes: seq<Feature>, bounds: Option<LatLngBounds>): (r: seq<Feature>)
    ensures bounds.None? ==> r == visible
    ensures bounds.Some? ==> r == FilterVisible(quakes, bounds.value)
  {
    match bounds
    case None => visible
    case Some(b) => FilterVisible(quakes, b)
  }

  /** A box that does not wrap keeps exactly the features whose latitude and
      longitude lie between its edges, edges included. */
  lemma NonWrappingBox(quakes: seq<Feature>, b: LatLngBounds, q: Feature)
    requires b.sw.lng <= b.ne.lng
    ensures q in FilterVisible(quakes, b) <==>
      q in quakes
      && b.sw.lat <= q.coordinates.1 <= b.ne.lat
      && b.sw.lng <= q.coordinates.0 <= b.ne.lng
  {
  }

  /** A box that wraps keeps the features with latitude in range whose
      longitude is east of its west edge or west of its east edge. */
  lemma WrappingBox(quakes: seq<Feature>, b: LatLngBounds, q: Feature)
    requires b.sw.lng > b.ne.lng
    ensures q in FilterVisible(quakes, b) <==>
      q in quakes
      && b.sw.lat <= q.coordinates.1 <= b.ne.lat
      && (q.coordinates.0 >= b.sw.lng || q.coordinates.0 <= b.ne.lng)
  {
  }

  /** The part of a wrapping box east of its west edge, up to +180. */
  function EastPart(b: LatLngBounds): LatLngBounds
  {
    LatLngBounds(b.sw, LatLng(b.ne.lat, 180.0))
  }

  /** The part of a wrapping box west of its east edge, from -180. */
  function WestPart(b: LatLngBounds): LatLngBounds
  {
    LatLngBounds(LatLng(b.sw.lat, -180.0), b.ne)
  }

  /** For longitudes in [-180, 180], a box that wraps shows the same features
      as its two halves on either side of the date line, neither of which
      wraps. */
  lemma WrappingBoxIsTwoBoxes(quakes: seq<Feature>, b: LatLngBounds)
    requires CrossesDateLine(b) && -180.0 <= b.ne.lng && b.sw.lng <= 180.0
    requires forall i :: 0 <= i < |quakes| ==> -180.0 <= Lng(quakes[i]) <= 180.0
    ensures !CrossesDateLine(EastPart(b)) && !CrossesDateLine(WestPart(b))
    ensures forall q :: q in FilterVisible(quakes, b) <==>
      q in FilterVisible(quakes, EastPart(b)) || q in FilterVisible(quakes, WestPart(b))
  {
  }

  /** A viewport at the date line, from 170 east to 170 west: a feature at
      175 is shown and one at 0 is not. */
  lemma DateLineExample(q1: Feature, q2: Feature)
    requires Lng(q1) == 175.0 && Lng(q2) == 0.0
    requires -10.0 <= Lat(q1) <= 10.0 && -10.0 <= Lat(q2) <= 10.0
    ensures FilterVisible([q1, q2], LatLngBounds(LatLng(-10.0, 170.0), LatLng(10.0, -170.0))) == [q1]
  {
  }

  /** A box whose south edge is north of its north edge shows nothing. */
  lemma InvertedLatitudes(quakes: seq<Feature>, b: LatLngBounds)
    requires b.sw.lat > b.ne.lat
    ensures FilterVisible(quakes, b) == []
  {
  }

  /** Filtering the visible features again with the same bounds changes
      nothing. */
  lemma FilterVisibleIdempotent(quakes: seq<Feature>, b: LatLngBounds)
    ensures FilterVisible(FilterVisible(quakes, b), b) == FilterVisible(quakes, b)
  {
    FilterIdempotent(q => IsVisible(q, b), quakes);
  }
}
