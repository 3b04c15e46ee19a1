/** The records shared by the catalog, the map view, the horizon view and the data service. */
module EclipseTypes {
  import opened Wrappers

  /** A `[lat, lng]` pair, in degrees. */
  datatype LatLng = LatLng(lat: real, lng: real)

  /** One eclipse of the catalog. */
  datatype EclipseEvent = EclipseEvent(
    id: string,
    title: string,
    date: string,
    description: string,
    region: string,
    center: LatLng,
    zoom: int,
    pathPolygon: seq<LatLng>,
    northernLimit: seq<LatLng>,
    southernLimit: seq<LatLng>,
    centerLine: seq<LatLng>)

  /** One timeline sample of a sanitised observation. `time` is copied through from the
      service's answer, so it may be absent. */
  datatype TimelinePoint = TimelinePoint(time: Option<string>, coverage: real, altitude: real, azimuth: real)

  /** The observation record handed to the map popup and the horizon view. `name` is copied
      through from the service's answer, so it may be absent. */
  datatype ObservationPoint = ObservationPoint(
    lat: real,
    lng: real,
    name: Option<string>,
    duration: string,
    altitude: real,
    azimuth: real,
    timeline: seq<TimelinePoint>)
}
