/** The greedy nearest-neighbour ordering `RouteService.BuildOptimalRoute` puts the chosen
    objects in, and what it guarantees. */
module NearestNeighbour {
  import opened Models
  import opened Seqs

  /** The element `OrderBy(distance).First()` picks: the first of the nearest ones
      (`NearestIndexMinimal`). */
  function NearestIndex(dist: DistanceFn, latitude: real, longitude: real, unvisited: seq<HeritageObject>): (k: nat)
    requires |unvisited| > 0
    ensures k < |unvisited|
    decreases |unvisited|
  {
    if |unvisited| == 1 then 0
    else
      var k := NearestIndex(dist, latitude, longitude, unvisited[1..]);
      if LegKm(dist, latitude, longitude, unvisited[0]) <= LegKm(dist, latitude, longitude, unvisited[1 + k]) then 0
      else 1 + k
  }

  /** `OrderBy` is a stable sort, so `First()` is the nearest object and, among equally near
      ones, the earliest in the list. */
  lemma {:induction false} NearestIndexMinimal(dist: DistanceFn, latitude: real, longitude: real, unvisited: seq<HeritageObject>)
    requires |unvisited| > 0
    ensures var k := NearestIndex(dist, latitude, longitude, unvisited);
            && (forall j :: 0 <= j < |unvisited| ==>
                  LegKm(dist, latitude, longitude, unvisited[k]) <= LegKm(dist, latitude, longitude, unvisited[j]))
            && (forall j :: 0 <= j < k ==>
                  LegKm(dist, latitude, longitude, unvisited[k]) < LegKm(dist, latitude, longitude, unvisited[j]))
    decreases |unvisited|
  {
    if |unvisited| > 1 {
      NearestIndexMinimal(dist, latitude, longitude, unvisited[1..]);
      var k := NearestIndex(dist, latitude, longitude, unvisited[1..]);
      assert unvisited[1..][k] == unvisited[1 + k];
      forall j | 1 <= j < |unvisited|
        ensures LegKm(dist, latitude, longitude, unvisited[1 + k]) <= LegKm(dist, latitude, longitude, unvisited[j])
      {
        assert unvisited[j] == unvisited[1..][j - 1];
      }
      forall j | 1 <= j < 1 + k
        ensures LegKm(dist, latitude, longitude, unvisited[1 + k]) < LegKm(dist, latitude, longitude, unvisited[j])
      {
        assert unvisited[j] == unvisited[1..][j - 1];
      }
    }
  }

  /** `List.Remove`: drops the first occurrence of `x`, if any. */
  function RemoveFirst(s: seq<HeritageObject>, x: HeritageObject): (r: seq<HeritageObject>)
    ensures |s| - 1 <= |r| <= |s|
    decreases |s|
  {
    if |s| == 0 then []
    else if s[0] == x then s[1..]
    else [s[0]] + RemoveFirst(s[1..], x)
  }

  /** Removing a listed object shortens the list by exactly one. */
  lemma {:induction false} RemoveFirstLength(s: seq<HeritageObject>, x: HeritageObject)
    requires x in s
    ensures |RemoveFirst(s, x)| == |s| - 1
    decreases |s|
  {
    if s[0] != x {
      RemoveFirstLength(s[1..], x);
    }
  }

  /** Removing an object that is not listed changes nothing. */
  lemma {:induction false} RemoveFirstAbsent(s: seq<HeritageObject>, x: HeritageObject)
    requires x !in s
    ensures RemoveFirst(s, x) == s
    decreases |s|
  {
    if |s| > 0 {
      RemoveFirstAbsent(s[1..], x);
      assert [s[0]] + s[1..] == s;
    }
  }

  /** `Remove` takes away exactly one copy of `x`, or nothing when `x` is absent. */
  lemma {:induction false} RemoveFirstMultiset(s: seq<HeritageObject>, x: HeritageObject)
    ensures multiset(RemoveFirst(s, x)) == multiset(s) - multiset{x}
    decreases |s|
  {
    if |s| > 0 {
      assert s == [s[0]] + s[1..];
      if s[0] != x {
        RemoveFirstMultiset(s[1..], x);
      }
    }
  }

  /** Removing the first occurrence of `s[k]` removes position `k`. */
  lemma {:induction false} RemoveFirstAt(s: seq<HeritageObject>, k: nat)
    requires k < |s|
    requires forall j :: 0 <= j < k ==> s[j] != s[k]
    ensures RemoveFirst(s, s[k]) == s[..k] + s[k + 1..]
    decreases k
  {
    if k > 0 {
      RemoveFirstAt(s[1..], k - 1);
      assert s[1..][..k - 1] + s[1..][k..] == s[1..k] + s[k + 1..];
      assert [s[0]] + s[1..k] == s[..k];
    }
  }

  /** The stops the greedy loop appends, from the given position, list and order counter. */
  function Visit(dist: DistanceFn, latitude: real, longitude: real, unvisited: seq<HeritageObject>, order: int)
    : (points: seq<RoutePoint>)
    ensures |points| == |unvisited|
    decreases |unvisited|
  {
    if |unvisited| == 0 then []
    else
      var nearest := unvisited[NearestIndex(dist, latitude, longitude, unvisited)];
      RemoveFirstLength(unvisited, nearest);
      [RoutePoint(nearest, LegKm(dist, latitude, longitude, nearest) * 1000.0, order)]
        + Visit(dist, nearest.latitude, nearest.longitude, RemoveFirst(unvisited, nearest), order + 1)
  }

  /** The objects of the stops, in visiting order. */
  function VisitedObjects(points: seq<RoutePoint>): (objects: seq<HeritageObject>)
    ensures |objects| == |points|
    decreases |points|
  {
    if |points| == 0 then [] else [points[0].heritageObject] + VisitedObjects(points[1..])
  }

  lemma VisitedObjectsCons(first: RoutePoint, rest: seq<RoutePoint>)
    ensures VisitedObjects([first] + rest) == [first.heritageObject] + VisitedObjects(rest)
  {
    assert ([first] + rest)[1..] == rest;
  }

  /** Sum of the leg distances, accumulated in visiting order. */
  function SumLegs(points: seq<RoutePoint>): real
    decreases |points|
  {
    if |points| == 0 then 0.0 else points[0].distanceFromPrevious + SumLegs(points[1..])
  }

  /** Distance in km from where leg `i` starts (the start point for the first stop, the
      previous stop otherwise) to `o`. */
  function FromLegStart(dist: DistanceFn, latitude: real, longitude: real, points: seq<RoutePoint>, i: nat, o: HeritageObject): real
    requires i < |points|
  {
    if i == 0 then LegKm(dist, latitude, longitude, o)
    else LegKm(dist, points[i - 1].heritageObject.latitude, points[i - 1].heritageObject.longitude, o)
  }

  /** Leg `i` of `[first] + rest` is leg `i - 1` of `rest` started at `first`. */
  lemma FromLegStartShift(dist: DistanceFn, latitude: real, longitude: real, first: RoutePoint, rest: seq<RoutePoint>,
                          i: nat, o: HeritageObject)
    requires 1 <= i <= |rest|
    ensures FromLegStart(dist, latitude, longitude, [first] + rest, i, o)
         == FromLegStart(dist, first.heritageObject.latitude, first.heritageObject.longitude, rest, i - 1, o)
  {
    if i > 1 {
      assert ([first] + rest)[i - 1] == rest[i - 2];
    }
  }

  /** One step of the greedy loop, unfolded: the nearest object comes first, with its leg,
      and the rest is visited from there. */
  lemma VisitStep(dist: DistanceFn, latitude: real, longitude: real, unvisited: seq<HeritageObject>, order: int,
                  nearest: HeritageObject, first: RoutePoint, rest: seq<RoutePoint>)
    requires |unvisited| > 0
    requires nearest == unvisited[NearestIndex(dist, latitude, longitude, unvisited)]
    requires first == RoutePoint(nearest, LegKm(dist, latitude, longitude, nearest) * 1000.0, order)
    requires rest == Visit(dist, nearest.latitude, nearest.longitude, RemoveFirst(unvisited, nearest), order + 1)
    ensures Visit(dist, latitude, longitude, unvisited, order) == [first] + rest
  {
  }

  /** Every object is visited exactly as often as it occurs in the list. */
  lemma {:induction false} VisitPermutation(dist: DistanceFn, latitude: real, longitude: real, unvisited: seq<HeritageObject>, order: int)
    ensures multiset(VisitedObjects(Visit(dist, latitude, longitude, unvisited, order))) == multiset(unvisited)
    decreases |unvisited|
  {
    if |unvisited| > 0 {
      var nearest := unvisited[NearestIndex(dist, latitude, longitude, unvisited)];
      var remaining := RemoveFirst(unvisited, nearest);
      var rest := Visit(dist, nearest.latitude, nearest.longitude, remaining, order + 1);
      var first := RoutePoint(nearest, LegKm(dist, latitude, longitude, nearest) * 1000.0, order);
      VisitStep(dist, latitude, longitude, unvisited, order, nearest, first, rest);
      VisitPermutation(dist, nearest.latitude, nearest.longitude, remaining, order + 1);
      VisitedObjectsCons(first, rest);
      RemoveFirstMultiset(unvisited, nearest);
      assert nearest in multiset(unvisited);
    }
  }

  lemma ConsOrders(first: RoutePoint, rest: seq<RoutePoint>, order: int)
    requires first.order == order
    requires forall i :: 0 <= i < |rest| ==> rest[i].order == order + 1 + i
    ensures forall i :: 0 <= i < |[first] + rest| ==> ([first] + rest)[i].order == order + i
  {
  }

  /** The stops are numbered `order`, `order + 1`, ... without gaps or repeats. */
  lemma {:induction false} VisitOrders(dist: DistanceFn, latitude: real, longitude: real, unvisited: seq<HeritageObject>, order: int)
    ensures var points := Visit(dist, latitude, longitude, unvisited, order);
            forall i :: 0 <= i < |points| ==> points[i].order == order + i
    decreases |unvisited|
  {
    if |unvisited| > 0 {
      var nearest := unvisited[NearestIndex(dist, latitude, longitude, unvisited)];
      var rest := Visit(dist, nearest.latitude, nearest.longitude, RemoveFirst(unvisited, nearest), order + 1);
      var first := RoutePoint(nearest, LegKm(dist, latitude, longitude, nearest) * 1000.0, order);
      VisitStep(dist, latitude, longitude, unvisited, order, nearest, first, rest);
      VisitOrders(dist, nearest.latitude, nearest.longitude, RemoveFirst(unvisited, nearest), order + 1);
      ConsOrders(first, rest, order);
    }
  }

  /** Leg `i` is measured, in metres, from the start point (first leg) or the previous stop. */
  lemma {:induction false} VisitLegs(dist: DistanceFn, latitude: real, longitude: real, unvisited: seq<HeritageObject>, order: int)
    ensures var points := Visit(dist, latitude, longitude, unvisited, order);
            forall i :: 0 <= i < |points| ==>
              points[i].distanceFromPrevious == FromLegStart(dist, latitude, longitude, points, i, points[i].heritageObject) * 1000.0
    decreases |unvisited|
  {
    if |unvisited| > 0 {
      var points := Visit(dist, latitude, longitude, unvisited, order);
      var nearest := unvisited[NearestIndex(dist, latitude, longitude, unvisited)];
      var rest := Visit(dist, nearest.latitude, nearest.longitude, RemoveFirst(unvisited, nearest), order + 1);
      var first := RoutePoint(nearest, LegKm(dist, latitude, longitude, nearest) * 1000.0, order);
      VisitStep(dist, latitude, longitude, unvisited, order, nearest, first, rest);
      VisitLegs(dist, nearest.latitude, nearest.longitude, RemoveFirst(unvisited, nearest), order + 1);
      forall i | 1 <= i < |points|
        ensures points[i].distanceFromPrevious == FromLegStart(dist, latitude, longitude, points, i, points[i].heritageObject) * 1000.0
      {
        FromLegStartShift(dist, latitude, longitude, points[0], rest, i, points[i].heritageObject);
      }
    }
  }

  lemma {:induction false} RemoveFirstMembers(s: seq<HeritageObject>, x: HeritageObject)
    ensures forall y :: y in RemoveFirst(s, x) ==> y in s
    decreases |s|
  {
    if |s| > 0 && s[0] != x {
      RemoveFirstMembers(s[1..], x);
    }
  }

  lemma ConsMembers(first: RoutePoint, rest: seq<RoutePoint>, remaining: seq<HeritageObject>, unvisited: seq<HeritageObject>)
    requires first.heritageObject in unvisited
    requires forall y :: y in remaining ==> y in unvisited
    requires forall i :: 0 <= i < |rest| ==> rest[i].heritageObject in remaining
    ensures forall i :: 0 <= i < |[first] + rest| ==> ([first] + rest)[i].heritageObject in unvisited
  {
  }

  /** Every stop is one of the listed objects. */
  lemma {:induction false} VisitMembers(dist: DistanceFn, latitude: real, longitude: real, unvisited: seq<HeritageObject>, order: int)
    ensures var points := Visit(dist, latitude, longitude, unvisited, order);
            forall i :: 0 <= i < |points| ==> points[i].heritageObject in unvisited
    decreases |unvisited|
  {
    if |unvisited| > 0 {
      var nearest := unvisited[NearestIndex(dist, latitude, longitude, unvisited)];
      var remaining := RemoveFirst(unvisited, nearest);
      var rest := Visit(dist, nearest.latitude, nearest.longitude, remaining, order + 1);
      var first := RoutePoint(nearest, LegKm(dist, latitude, longitude, nearest) * 1000.0, order);
      VisitStep(dist, latitude, longitude, unvisited, order, nearest, first, rest);
      VisitMembers(dist, nearest.latitude, nearest.longitude, remaining, order + 1);
      RemoveFirstMembers(unvisited, nearest);
      ConsMembers(first, rest, remaining, unvisited);
    }
  }

  /** Greedy choice: each stop is at least as close to where its leg starts as every stop
      visited after it. */
  ghost predicate Greedy(dist: DistanceFn, latitude: real, longitude: real, points: seq<RoutePoint>)
  {
    forall i, j :: 0 <= i <= j < |points| ==>
      FromLegStart(dist, latitude, longitude, points, i, points[i].heritageObject)
      <= FromLegStart(dist, latitude, longitude, points, i, points[j].heritageObject)
  }

  lemma ConsGreedy(dist: DistanceFn, latitude: real, longitude: real, first: RoutePoint, rest: seq<RoutePoint>,
                   unvisited: seq<HeritageObject>)
    requires forall m :: 0 <= m < |unvisited| ==>
               LegKm(dist, latitude, longitude, first.heritageObject) <= LegKm(dist, latitude, longitude, unvisited[m])
    requires forall i :: 0 <= i < |rest| ==> rest[i].heritageObject in unvisited
    requires Greedy(dist, first.heritageObject.latitude, first.heritageObject.longitude, rest)
    ensures Greedy(dist, latitude, longitude, [first] + rest)
  {
    var points := [first] + rest;
    forall i, j | 0 <= i <= j < |points|
      ensures FromLegStart(dist, latitude, longitude, points, i, points[i].heritageObject)
              <= FromLegStart(dist, latitude, longitude, points, i, points[j].heritageObject)
    {
      if i == 0 {
        if j > 0 {
          var m :| 0 <= m < |unvisited| && unvisited[m] == points[j].heritageObject;
        }
      } else {
        FromLegStartShift(dist, latitude, longitude, first, rest, i, points[i].heritageObject);
        FromLegStartShift(dist, latitude, longitude, first, rest, i, points[j].heritageObject);
      }
    }
  }

  /** The route is greedy from its start point. */
  lemma {:induction false} VisitGreedy(dist: DistanceFn, latitude: real, longitude: real, unvisited: seq<HeritageObject>, order: int)
    ensures Greedy(dist, latitude, longitude, Visit(dist, latitude, longitude, unvisited, order))
    decreases |unvisited|
  {
    if |unvisited| > 0 {
      var k := NearestIndex(dist, latitude, longitude, unvisited);
      var nearest := unvisited[k];
      var remaining := RemoveFirst(unvisited, nearest);
      var rest := Visit(dist, nearest.latitude, nearest.longitude, remaining, order + 1);
      var first := RoutePoint(nearest, LegKm(dist, latitude, longitude, nearest) * 1000.0, order);
      VisitStep(dist, latitude, longitude, unvisited, order, nearest, first, rest);
      NearestIndexMinimal(dist, latitude, longitude, unvisited);
      VisitGreedy(dist, nearest.latitude, nearest.longitude, remaining, order + 1);
      VisitMembers(dist, nearest.latitude, nearest.longitude, remaining, order + 1);
      RemoveFirstMembers(unvisited, nearest);
      ConsGreedy(dist, latitude, longitude, first, rest, unvisited);
    }
  }

  /** Position of the first occurrence of `x`. */
  function IndexOf(s: seq<HeritageObject>, x: HeritageObject): (k: nat)
    requires x in s
    ensures k < |s| && s[k] == x
    ensures forall j :: 0 <= j < k ==> s[j] != x
    decreases |s|
  {
    if s[0] == x then 0 else 1 + IndexOf(s[1..], x)
  }

  /** `u` lists objects of `objects` in the order they have there. */
  ghost predicate InOrderOf(u: seq<HeritageObject>, objects: seq<HeritageObject>)
  {
    (forall x :: x in u ==> x in objects)
    && forall p, q :: 0 <= p < q < |u| ==> IndexOf(objects, u[p]) < IndexOf(objects, u[q])
  }

  lemma InOrderOfRemove(u: seq<HeritageObject>, k: nat, objects: seq<HeritageObject>)
    requires k < |u| && InOrderOf(u, objects)
    ensures InOrderOf(u[..k] + u[k + 1..], objects)
  {
    var v := u[..k] + u[k + 1..];
    forall p, q | 0 <= p < q < |v| ensures IndexOf(objects, v[p]) < IndexOf(objects, v[q]) {
      var p' := if p < k then p else p + 1;
      var q' := if q < k then q else q + 1;
      assert v[p] == u[p'] && v[q] == u[q'];
    }
  }

  /** Ties go to the earlier object: when a later stop is exactly as close to where leg `i`
      starts as stop `i`, stop `i` comes first in `objects`. */
  ghost predicate TiesInOrder(dist: DistanceFn, latitude: real, longitude: real, points: seq<RoutePoint>,
                              objects: seq<HeritageObject>)
  {
    (forall i :: 0 <= i < |points| ==> points[i].heritageObject in objects)
    && forall i, j :: 0 <= i < j < |points|
         && FromLegStart(dist, latitude, longitude, points, i, points[j].heritageObject)
            == FromLegStart(dist, latitude, longitude, points, i, points[i].heritageObject)
         ==> IndexOf(objects, points[i].heritageObject) < IndexOf(objects, points[j].heritageObject)
  }

  lemma ConsTiesInOrder(dist: DistanceFn, latitude: real, longitude: real, first: RoutePoint, rest: seq<RoutePoint>,
                        unvisited: seq<HeritageObject>, k: nat, objects: seq<HeritageObject>)
    requires k < |unvisited| && first.heritageObject == unvisited[k]
    requires forall j :: 0 <= j < k ==>
               LegKm(dist, latitude, longitude, unvisited[k]) < LegKm(dist, latitude, longitude, unvisited[j])
    requires InOrderOf(unvisited, objects)
    requires forall i :: 0 <= i < |rest| ==> rest[i].heritageObject in unvisited[..k] + unvisited[k + 1..]
    requires TiesInOrder(dist, first.heritageObject.latitude, first.heritageObject.longitude, rest, objects)
    ensures TiesInOrder(dist, latitude, longitude, [first] + rest, objects)
  {
    var points := [first] + rest;
    assert forall i :: 0 <= i < |points| ==> points[i].heritageObject in objects by {
      forall i | 0 <= i < |points| ensures points[i].heritageObject in objects {
        if i > 0 {
        }
      }
    }
    forall i, j | 0 <= i < j < |points|
      && FromLegStart(dist, latitude, longitude, points, i, points[j].heritageObject)
         == FromLegStart(dist, latitude, longitude, points, i, points[i].heritageObject)
      ensures IndexOf(objects, points[i].heritageObject) < IndexOf(objects, points[j].heritageObject)
    {
      if i == 0 {
        assert points[j].heritageObject in unvisited[..k] + unvisited[k + 1..];
        var m :| 0 <= m < |unvisited| && m != k && unvisited[m] == points[j].heritageObject;
        assert k < m;
      } else {
        FromLegStartShift(dist, latitude, longitude, first, rest, i, points[i].heritageObject);
        FromLegStartShift(dist, latitude, longitude, first, rest, i, points[j].heritageObject);
      }
    }
  }

  /** Ties are broken in the order of `objects` whenever the unvisited list follows that order. */
  lemma {:induction false} VisitTieBreak(dist: DistanceFn, latitude: real, longitude: real, unvisited: seq<HeritageObject>, order: int, objects: seq<HeritageObject>)
    requires InOrderOf(unvisited, objects)
    ensures TiesInOrder(dist, latitude, longitude, Visit(dist, latitude, longitude, unvisited, order), objects)
    decreases |unvisited|
  {
    if |unvisited| > 0 {
      var k := NearestIndex(dist, latitude, longitude, unvisited);
      var nearest := unvisited[k];
      var remaining := RemoveFirst(unvisited, nearest);
      var rest := Visit(dist, nearest.latitude, nearest.longitude, remaining, order + 1);
      var first := RoutePoint(nearest, LegKm(dist, latitude, longitude, nearest) * 1000.0, order);
      VisitStep(dist, latitude, longitude, unvisited, order, nearest, first, rest);
      NearestIndexMinimal(dist, latitude, longitude, unvisited);
      RemoveFirstAt(unvisited, k);
      InOrderOfRemove(unvisited, k, objects);
      VisitTieBreak(dist, nearest.latitude, nearest.longitude, remaining, order + 1, objects);
      VisitMembers(dist, nearest.latitude, nearest.longitude, remaining, order + 1);
      ConsTiesInOrder(dist, latitude, longitude, first, rest, unvisited, k, objects);
    }
  }

  /** For a list without repeated objects, ties are broken by position in that list. */
  lemma BuildTieBreak(dist: DistanceFn, latitude: real, longitude: real, objects: seq<HeritageObject>)
    requires forall p, q :: 0 <= p < q < |objects| ==> objects[p] != objects[q]
    ensures TiesInOrder(dist, latitude, longitude, Visit(dist, latitude, longitude, objects, 1), objects)
  {
    forall p | 0 <= p < |objects| ensures IndexOf(objects, objects[p]) == p {
      var k := IndexOf(objects, objects[p]);
      if k < p {
        assert objects[k] == objects[p];
      }
    }
    VisitTieBreak(dist, latitude, longitude, objects, 1, objects);
  }

  /** Appending a stop adds its leg to the total. */
  lemma {:induction false} SumLegsSnoc(points: seq<RoutePoint>, p: RoutePoint)
    ensures SumLegs(points + [p]) == SumLegs(points) + p.distanceFromPrevious
    decreases |points|
  {
    if |points| == 0 {
      AppendEmpty([p]);
    } else {
      AppendTail(points, [p]);
      SumLegsSnoc(points[1..], p);
    }
  }

  /** The loop invariant of `BuildOptimalRoute`: the stops placed so far followed by the
      greedy visit of what is left is the greedy visit of every object, and the running
      total is the sum of the legs placed so far. */
  ghost predicate OnGreedyPath(dist: DistanceFn, startLat: real, startLon: real, objects: seq<HeritageObject>,
                               currentLat: real, currentLon: real, unvisited: seq<HeritageObject>, order: int,
                               placed: seq<RoutePoint>, totalDistance: real)
  {
    && placed + Visit(dist, currentLat, currentLon, unvisited, order) == Visit(dist, startLat, startLon, objects, 1)
    && totalDistance == SumLegs(placed)
  }

  /** One iteration of the loop keeps `OnGreedyPath`: the nearest unvisited object is placed
      with its leg, becomes the current position and leaves the unvisited list. */
  lemma LoopStep(dist: DistanceFn, startLat: real, startLon: real, objects: seq<HeritageObject>,
                 currentLat: real, currentLon: real, unvisited: seq<HeritageObject>, order: int,
                 placed: seq<RoutePoint>, totalDistance: real, nearest: HeritageObject, distanceMeters: real,
                 nextUnvisited: seq<HeritageObject>, nextPlaced: seq<RoutePoint>, nextTotal: real)
    requires OnGreedyPath(dist, startLat, startLon, objects, currentLat, currentLon, unvisited, order, placed, totalDistance)
    requires |unvisited| > 0
    requires nearest == unvisited[NearestIndex(dist, currentLat, currentLon, unvisited)]
    requires distanceMeters == LegKm(dist, currentLat, currentLon, nearest) * 1000.0
    requires nextUnvisited == RemoveFirst(unvisited, nearest)
    requires nextPlaced == placed + [RoutePoint(nearest, distanceMeters, order)]
    requires nextTotal == totalDistance + distanceMeters
    ensures OnGreedyPath(dist, startLat, startLon, objects, nearest.latitude, nearest.longitude, nextUnvisited, order + 1,
                         nextPlaced, nextTotal)
  {
    var first := RoutePoint(nearest, distanceMeters, order);
    var rest := Visit(dist, nearest.latitude, nearest.longitude, nextUnvisited, order + 1);
    VisitStep(dist, currentLat, currentLon, unvisited, order, nearest, first, rest);
    AppendAssoc(placed, [first], rest);
    SumLegsSnoc(placed, first);
  }

  /** `BuildOptimalRoute`: the greedy nearest-neighbour loop. */
  method BuildOptimalRoute(dist: DistanceFn, startLat: real, startLon: real, objects: seq<HeritageObject>)
    returns (route: TourRoute)
    ensures route.startLatitude == startLat && route.startLongitude == startLon
    ensures route.points == Visit(dist, startLat, startLon, objects, 1)
    ensures route.totalDistance == SumLegs(route.points)
    ensures route.description == "" && route.yandexMapsUrl == ""
  {
    route := TourRoute(startLat, startLon, [], 0.0, "", "");
    if |objects| == 0 {
      return;
    }
    AppendEmpty(Visit(dist, startLat, startLon, objects, 1));

    var unvisited := objects;
    var currentLat, currentLon := startLat, startLon;
    var order := 1;
    var totalDistance := 0.0;

    while |unvisited| > 0
      invariant OnGreedyPath(dist, startLat, startLon, objects, currentLat, currentLon, unvisited, order, route.points, totalDistance)
      invariant route.startLatitude == startLat && route.startLongitude == startLon
      invariant route.description == "" && route.yandexMapsUrl == ""
      decreases |unvisited|
    {
      var nearest := unvisited[NearestIndex(dist, currentLat, currentLon, unvisited)];
      var distanceMeters := LegKm(dist, currentLat, currentLon, nearest) * 1000.0;
      var nextUnvisited := RemoveFirst(unvisited, nearest);
      var nextPoints := route.points + [RoutePoint(nearest, distanceMeters, order)];
      LoopStep(dist, startLat, startLon, objects, currentLat, currentLon, unvisited, order, route.points, totalDistance,
               nearest, distanceMeters, nextUnvisited, nextPoints, totalDistance + distanceMeters);
      route := route.(points := nextPoints);
      totalDistance := totalDistance + distanceMeters;
      order := order + 1;
      currentLat, currentLon := nearest.latitude, nearest.longitude;
      unvisited := nextUnvisited;
    }

    AppendEmpty(route.points);
    route := route.(totalDistance := totalDistance);
  }

  /** The route built from `objects`: one stop per object, numbered from 1, visiting every
      object as often as it is listed. */
  lemma OptimalRouteStops(dist: DistanceFn, startLat: real, startLon: real, objects: seq<HeritageObject>)
    ensures var points := Visit(dist, startLat, startLon, objects, 1);
            && |points| == |objects|
            && multiset(VisitedObjects(points)) == multiset(objects)
            && (forall i :: 0 <= i < |points| ==> points[i].order == i + 1)
  {
    VisitPermutation(dist, startLat, startLon, objects, 1);
    VisitOrders(dist, startLat, startLon, objects, 1);
  }
}
