/** The text side of `RouteService`: the description of a built route and its Yandex Maps
    link. */
module RouteText {
  import opened Models
  import opened Strings
  import opened Seqs

  const EmptyRouteText := "Маршрут пуст"
  const MapsPrefix := "https://yandex.ru/maps/?rtext="
  const MapsSuffix := "&rtt=pd"

  /** One `AppendLine`, with `\n` as the line terminator. */
  function Line(s: string): (line: string)
    ensures |line| == |s| + 1 && line[|s|] == '\n'
  {
    s + "\n"
  }

  /** The three header lines of a non-empty description: the number of stops and the total
      distance in km. */
  function Header(stops: int, totalDistance: real, fixed2: Formatter): (text: string)
    ensures |text| >= 2 && text[|text| - 1] == '\n' && text[|text| - 2] == '\n'
  {
    Line("📍 Маршрут включает " + IntToString(stops) + " объектов:")
    + Line("📏 Общая протяженность: " + fixed2(totalDistance / 1000.0) + " км")
    + Line("")
  }

  /** The block written for one stop; the leg line only after the first stop. */
  function PointBlock(point: RoutePoint, fixed0: Formatter): (text: string)
    ensures |text| >= 2 && text[|text| - 1] == '\n' && text[|text| - 2] == '\n'
    ensures |IntToString(point.order)| <= |text| && text[..|IntToString(point.order)|] == IntToString(point.order)
  {
    Line(IntToString(point.order) + ". " + point.heritageObject.name)
    + Line("   📂 " + point.heritageObject.category)
    + (if point.order > 1 then Line("   🚶 " + fixed0(point.distanceFromPrevious) + " м от предыдущей точки") else "")
    + Line("")
  }

  /** The blocks of all stops, in visiting order. */
  function PointBlocks(points: seq<RoutePoint>, fixed0: Formatter): (text: string)
    ensures |text| == 0 <==> |points| == 0
    decreases |points|
  {
    if |points| == 0 then "" else PointBlocks(points[..|points| - 1], fixed0) + PointBlock(points[|points| - 1], fixed0)
  }

  /** The blocks of the first `i + 1` stops are those of the first `i` and then stop `i`'s. */
  lemma PointBlocksSnoc(points: seq<RoutePoint>, i: nat, fixed0: Formatter)
    requires i < |points|
    ensures PointBlocks(points[..i + 1], fixed0) == PointBlocks(points[..i], fixed0) + PointBlock(points[i], fixed0)
  {
    TakeSnoc(points, i);
  }

  /** `GenerateRouteDescription`: a `StringBuilder` filled by a loop over the stops. */
  method GenerateRouteDescription(route: TourRoute, fixed2: Formatter, fixed0: Formatter) returns (text: string)
    ensures |route.points| == 0 ==> text == EmptyRouteText
    ensures |route.points| > 0 ==> text == Header(|route.points|, route.totalDistance, fixed2) + PointBlocks(route.points, fixed0)
  {
    if |route.points| == 0 {
      return EmptyRouteText;
    }

    var sb := "";
    sb := sb + Line("📍 Маршрут включает " + IntToString(|route.points|) + " объектов:");
    sb := sb + Line("📏 Общая протяженность: " + fixed2(route.totalDistance / 1000.0) + " км");
    sb := sb + Line("");
    ghost var header := Header(|route.points|, route.totalDistance, fixed2);
    AppendEmpty(sb);
    assert sb == header + PointBlocks(route.points[..0], fixed0);

    for i := 0 to |route.points|
      invariant sb == header + PointBlocks(route.points[..i], fixed0)
    {
      var point := route.points[i];
      ghost var before := sb;
      sb := sb + Line(IntToString(point.order) + ". " + point.heritageObject.name);
      sb := sb + Line("   📂 " + point.heritageObject.category);
      if point.order > 1 {
        sb := sb + Line("   🚶 " + fixed0(point.distanceFromPrevious) + " м от предыдущей точки");
      } else {
        AppendEmpty(sb);
      }
      sb := sb + Line("");
      AppendFour(before, Line(IntToString(point.order) + ". " + point.heritageObject.name),
                 Line("   📂 " + point.heritageObject.category),
                 if point.order > 1 then Line("   🚶 " + fixed0(point.distanceFromPrevious) + " м от предыдущей точки") else "",
                 Line(""));
      PointBlocksSnoc(route.points, i, fixed0);
      AppendAssoc(header, PointBlocks(route.points[..i], fixed0), PointBlock(point, fixed0));
    }
    assert route.points[..|route.points|] == route.points;
    text := sb;
  }

  /** `s` fits on one line. */
  predicate NoLineBreak(s: string)
  {
    '\n' !in s
  }

  /** A stop's block has three lines, four when it has a leg line (order above one). */
  lemma PointBlockLines(point: RoutePoint, fixed0: Formatter)
    requires NoLineBreak(point.heritageObject.name) && NoLineBreak(point.heritageObject.category)
    requires NoLineBreak(fixed0(point.distanceFromPrevious))
    ensures Count('\n', PointBlock(point, fixed0)) == if point.order > 1 then 4 else 3
  {
    var a := IntToString(point.order) + ". " + point.heritageObject.name;
    var b := "   📂 " + point.heritageObject.category;
    var c := "   🚶 " + fixed0(point.distanceFromPrevious) + " м от предыдущей точки";
    LineCount(a);
    LineCount(b);
    LineCount(c);
    LineCount("");
    CountAbsent('\n', "");
    var legLine := if point.order > 1 then Line(c) else "";
    assert Count('\n', legLine) == if point.order > 1 then 1 else 0;
    CountAppend('\n', Line(a), Line(b));
    CountAppend('\n', Line(a) + Line(b), legLine);
    CountAppend('\n', Line(a) + Line(b) + legLine, Line(""));
  }

  lemma {:induction false} PointBlocksLines(points: seq<RoutePoint>, fixed0: Formatter)
    requires forall i :: 0 <= i < |points| ==> points[i].order == i + 1
    requires forall p :: p in points ==> NoLineBreak(p.heritageObject.name) && NoLineBreak(p.heritageObject.category)
                                          && NoLineBreak(fixed0(p.distanceFromPrevious))
    ensures Count('\n', PointBlocks(points, fixed0)) == if |points| == 0 then 0 else 4 * |points| - 1
    decreases |points|
  {
    if |points| > 0 {
      var last := points[|points| - 1];
      PointBlocksLines(points[..|points| - 1], fixed0);
      PointBlockLines(last, fixed0);
      CountAppend('\n', PointBlocks(points[..|points| - 1], fixed0), PointBlock(last, fixed0));
    }
  }

  /** A line of text without a break is one line. */
  lemma LineCount(s: string)
    requires NoLineBreak(s)
    ensures Count('\n', Line(s)) == 1
  {
    CountAbsent('\n', s);
    assert Count('\n', "\n") == 1;
    CountAppend('\n', s, "\n");
  }

  /** The header is three lines. */
  lemma HeaderLines(stops: int, totalDistance: real, fixed2: Formatter)
    requires NoLineBreak(fixed2(totalDistance / 1000.0))
    ensures Count('\n', Header(stops, totalDistance, fixed2)) == 3
  {
    var a := "📍 Маршрут включает " + IntToString(stops) + " объектов:";
    var b := "📏 Общая протяженность: " + fixed2(totalDistance / 1000.0) + " км";
    LineCount(a);
    LineCount(b);
    LineCount("");
    CountAppend('\n', Line(a), Line(b));
    CountAppend('\n', Line(a) + Line(b), Line(""));
  }

  /** For a route numbered 1..n the description has 4n + 2 lines: three header lines, three
      per stop, and a leg line for every stop but the first. */
  lemma DescriptionLines(route: TourRoute, fixed2: Formatter, fixed0: Formatter)
    requires |route.points| > 0
    requires forall i :: 0 <= i < |route.points| ==> route.points[i].order == i + 1
    requires forall p :: p in route.points ==> NoLineBreak(p.heritageObject.name) && NoLineBreak(p.heritageObject.category)
                                                && NoLineBreak(fixed0(p.distanceFromPrevious))
    requires NoLineBreak(fixed2(route.totalDistance / 1000.0))
    ensures Count('\n', Header(|route.points|, route.totalDistance, fixed2) + PointBlocks(route.points, fixed0)) == 4 * |route.points| + 2
  {
    HeaderLines(|route.points|, route.totalDistance, fixed2);
    PointBlocksLines(route.points, fixed0);
    CountAppend('\n', Header(|route.points|, route.totalDistance, fixed2), PointBlocks(route.points, fixed0));
  }

  /** A position as the link writes it: `lat,lon` with the default number format. */
  function CoordinatePair(show: Formatter, latitude: real, longitude: real): (pair: string)
    ensures |pair| == |show(latitude)| + 1 + |show(longitude)|
    ensures pair[..|show(latitude)|] == show(latitude) && pair[|show(latitude)|] == ','
    ensures pair[|show(latitude)| + 1..] == show(longitude)
    ensures '~' !in show(latitude) && '~' !in show(longitude) ==> '~' !in pair
  {
    show(latitude) + "," + show(longitude)
  }

  /** One `lat,lon` pair per stop, in visiting order. */
  function StopPairs(points: seq<RoutePoint>, show: Formatter): (pairs: seq<string>)
    ensures |pairs| == |points|
  {
    seq(|points|, i requires 0 <= i < |points| =>
      CoordinatePair(show, points[i].heritageObject.latitude, points[i].heritageObject.longitude))
  }

  /** `GenerateYandexMapsUrl`: the start and every stop, joined by `~`; empty without stops. */
  function GenerateYandexMapsUrl(route: TourRoute, show: Formatter): (url: string)
    ensures url == "" <==> |route.points| == 0
  {
    if |route.points| == 0 then ""
    else
      var pairs := [CoordinatePair(show, route.startLatitude, route.startLongitude)] + StopPairs(route.points, show);
      MapsPrefix + Join("~", pairs) + MapsSuffix
  }

  /** The link is the prefix, the start pair, `~pair` for each stop in order, and the suffix. */
  lemma MapsUrlShape(route: TourRoute, show: Formatter)
    requires |route.points| > 0
    ensures GenerateYandexMapsUrl(route, show)
            == MapsPrefix + CoordinatePair(show, route.startLatitude, route.startLongitude)
               + Prefixed("~", StopPairs(route.points, show)) + MapsSuffix
  {
    JoinUnfold("~", CoordinatePair(show, route.startLatitude, route.startLongitude), StopPairs(route.points, show));
  }

  lemma {:induction false} PrefixedCount(parts: seq<string>)
    requires forall i :: 0 <= i < |parts| ==> '~' !in parts[i]
    ensures Count('~', Prefixed("~", parts)) == |parts|
    decreases |parts|
  {
    if |parts| > 0 {
      PrefixedCount(parts[1..]);
      CountAbsent('~', parts[0]);
      assert Count('~', "~") == 1;
      CountAppend('~', "~", parts[0]);
      CountAppend('~', "~" + parts[0], Prefixed("~", parts[1..]));
    }
  }

  /** No coordinate pair holds a `~` when no number renders with one. */
  lemma StopPairsNoTilde(points: seq<RoutePoint>, show: Formatter)
    requires forall x :: '~' !in show(x)
    ensures forall i :: 0 <= i < |points| ==> '~' !in StopPairs(points, show)[i]
  {
    forall i | 0 <= i < |points| ensures '~' !in StopPairs(points, show)[i] {
      var p := points[i].heritageObject;
      assert StopPairs(points, show)[i] == show(p.latitude) + "," + show(p.longitude);
    }
  }

  /** The fixed text before the pairs holds no `~`. */
  lemma MapsPrefixNoTilde()
    ensures Count('~', MapsPrefix) == 0
  {
    assert '~' !in MapsPrefix;
    CountAbsent('~', MapsPrefix);
  }

  /** The fixed text after the pairs holds no `~`. */
  lemma MapsSuffixNoTilde()
    ensures Count('~', MapsSuffix) == 0
  {
    assert '~' !in MapsSuffix;
    CountAbsent('~', MapsSuffix);
  }

  /** When numbers never render with a `~`, the link holds one separator per stop,
      so n + 1 coordinate pairs. */
  lemma MapsUrlSeparators(route: TourRoute, show: Formatter)
    requires forall x :: '~' !in show(x)
    ensures Count('~', GenerateYandexMapsUrl(route, show)) == |route.points|
  {
    if |route.points| > 0 {
      var start := CoordinatePair(show, route.startLatitude, route.startLongitude);
      var pairs := StopPairs(route.points, show);
      MapsUrlShape(route, show);
      StopPairsNoTilde(route.points, show);
      PrefixedCount(pairs);
      MapsPrefixNoTilde();
      MapsSuffixNoTilde();
      CountAbsent('~', start);
      CountAppend4('~', MapsPrefix, start, Prefixed("~", pairs), MapsSuffix);
    } else {
      assert GenerateYandexMapsUrl(route, show) == "";
    }
  }
}
