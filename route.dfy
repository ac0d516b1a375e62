/** `RouteService.BuildRouteAsync`: the walking route over the catalog objects near a start
    point, put in greedy nearest-neighbour order, with its text description and its Yandex
    Maps link. */
module Route {
  import opened Models
  import Heritage
  import opened NearestNeighbour
  import opened RouteText

  /** Radius, in km, of the catalog query a route is built from. */
  const NearbyRadiusKm: real := 2.0

  /** `Enumerable.Take`: the first `count` elements, none for a count below one. */
  function Take(s: seq<HeritageObject>, count: int): (r: seq<HeritageObject>)
    ensures |r| <= |s| && r == s[..|r|]
    ensures count >= 0 ==> |r| == if count < |s| then count else |s|
    ensures count < 0 ==> r == []
  {
    if count <= 0 then [] else if count >= |s| then s else s[..count]
  }

  /** `BuildRouteAsync`: the nearby objects within 2 km, at most `maxPoints` of them in
      nearest-first order, ordered greedily; `None` when nothing is nearby. */
  method BuildRoute(catalog: seq<HeritageObject>, dist: DistanceFn, startLatitude: real, startLongitude: real,
                    maxPoints: int, fixed2: Formatter, fixed0: Formatter, show: Formatter)
    returns (result: Option<TourRoute>)
    ensures result.None? <==> |Heritage.GetNearbyObjects(catalog, dist, startLatitude, startLongitude, NearbyRadiusKm)| == 0
    ensures result.Some? ==>
              var selected := Take(Heritage.GetNearbyObjects(catalog, dist, startLatitude, startLongitude, NearbyRadiusKm), maxPoints);
              && result.value.startLatitude == startLatitude && result.value.startLongitude == startLongitude
              && result.value.points == Visit(dist, startLatitude, startLongitude, selected, 1)
              && multiset(VisitedObjects(result.value.points)) == multiset(selected)
              && (maxPoints >= 0 ==> |result.value.points| <= maxPoints)
              && result.value.totalDistance == SumLegs(result.value.points)
    ensures result.Some? && |result.value.points| == 0 ==>
              result.value.description == EmptyRouteText && result.value.yandexMapsUrl == ""
    ensures result.Some? && |result.value.points| > 0 ==>
              result.value.description == Header(|result.value.points|, result.value.totalDistance, fixed2) + PointBlocks(result.value.points, fixed0)
              && result.value.yandexMapsUrl == GenerateYandexMapsUrl(result.value, show)
  {
    var nearbyObjects := Heritage.GetNearbyObjects(catalog, dist, startLatitude, startLongitude, NearbyRadiusKm);
    if |nearbyObjects| == 0 {
      return None;
    }
    var selectedObjects := Take(nearbyObjects, maxPoints);
    var route := BuildOptimalRoute(dist, startLatitude, startLongitude, selectedObjects);
    OptimalRouteStops(dist, startLatitude, startLongitude, selectedObjects);
    var description := GenerateRouteDescription(route, fixed2, fixed0);
    route := route.(description := description);
    route := route.(yandexMapsUrl := GenerateYandexMapsUrl(route, show));
    return Some(route);
  }
}
