/** The value types shared by the catalog and the route builder. */
module Models {

  datatype Option<T> = None | Some(value: T)

  /** A catalogued place. `double` coordinates are modelled as reals. */
  datatype HeritageObject = HeritageObject(
    id: string,
    name: string,
    latitude: real,
    longitude: real,
    category: string,
    shortDescription: string,
    history: string,
    interestingFacts: seq<string>,
    yearBuilt: Option<int>,
    isUnescoSite: bool,
    imageUrl: string,
    district: string,
    address: string,
    protectionCategory: string,
    registrationNumber: string)

  /** One stop of a route: the object, the leg length in metres and the 1-based order. */
  datatype RoutePoint = RoutePoint(heritageObject: HeritageObject, distanceFromPrevious: real, order: int)

  /** A walking route; `totalDistance` is in metres. */
  datatype TourRoute = TourRoute(
    startLatitude: real,
    startLongitude: real,
    points: seq<RoutePoint>,
    totalDistance: real,
    description: string,
    yandexMapsUrl: string)

  /** The great-circle distance in kilometres, `(lat1, lon1, lat2, lon2)`; left abstract. */
  type DistanceFn = (real, real, real, real) -> real

  /** Distance in km from a position to an object. */
  function LegKm(dist: DistanceFn, latitude: real, longitude: real, o: HeritageObject): real
  {
    dist(latitude, longitude, o.latitude, o.longitude)
  }

  /** A number formatter (`ToString()`, `F0`, `F2`); left abstract. */
  type Formatter = real -> string
}
