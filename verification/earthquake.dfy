/**
  The earthquake record of the USGS GeoJSON summary feed, reduced to the
  fields the application reads.
*/
module Earthquake {

  datatype Option<+T> = None | Some(value: T)

  /** A point on the map, latitude first, as the map widget takes it. */
  datatype LatLng = LatLng(lat: real, lng: real)

  /** One feature of the feed. `coordinates` is the GeoJSON triple
      `[longitude, latitude, depth]`; `mag` is `null` (here `None`) for events
      the feed has not yet assigned a magnitude. */
  datatype Feature = Feature(
    id: string,
    mag: Option<real>,
    place: string,
    time: int,
    url: string,
    title: string,
    coordinates: (real, real, real))

  /** Latitude is the second coordinate of the GeoJSON point. */
  function Lat(q: Feature): real
  {
    q.coordinates.1
  }

  /** Longitude is the first coordinate of the GeoJSON point. */
  function Lng(q: Feature): real
  {
    q.coordinates.0
  }

  /** The position of a feature on the map: `(coordinates[1], coordinates[0])`. */
  function Position(q: Feature): LatLng
  {
    LatLng(Lat(q), Lng(q))
  }

  /** The number JavaScript makes of a magnitude used in arithmetic or in a
      comparison: `null` becomes 0. */
  function MagnitudeNumber(mag: Option<real>): real
  {
    match mag
    case Some(m) => m
    case None => 0.0
  }
}
