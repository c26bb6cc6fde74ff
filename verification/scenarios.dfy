/** Two documents worked through the converter: a single track with two points, and a document
    holding both a route and a track. */
module Scenarios {
  import opened Basics
  import opened Gpx
  import opened TreeWalk
  import opened CoordinateExtraction
  import opened Kml
  import opened Convert

  /** A track point as the XML parser delivers it: its attributes under the `$` key. */
  function Point(lat: string, lon: string): Node {
    Map([("$", Map([("lat", Scalar(lat)), ("lon", Scalar(lon))]))])
  }

  /** A track as the XML parser delivers it: a name and one segment holding two points. */
  function Track(name: string, p1: Node, p2: Node): Node {
    Map([("name", List([Scalar(name)])), ("trkseg", List([Map([("trkpt", List([p1, p2]))])]))])
  }

  /** An object with a single key other than `lon` and `lat` is no coordinate node. */
  lemma SingleKeyIsNoCoordinate(key: string, v: Node)
    requires key != "lon" && key != "lat"
    ensures !IsCoordinateNode(Map([(key, v)]))
  {
    var es := [(key, v)];
    assert es[1..] == [];
    assert Lookup(es, "lon") == Lookup(es[1..], "lon");
  }

  /** Below a node with one child that is no coordinate node, the coordinate nodes are the child's. */
  lemma OneChildCoordinates(n: Node)
    requires |Children(n)| == 1 && !IsCoordinateNode(Children(n)[0])
    ensures CoordinateNodes(Walk(n)) == CoordinateNodes(Walk(Children(n)[0]))
  {
    WalkOneChild(n);
    CoordinateNodesAppend([Children(n)[0]], Walk(Children(n)[0]));
  }

  /** Below a node with two children that are no coordinate nodes: the first child's coordinate
      nodes, then the second's. */
  lemma TwoChildrenCoordinates(n: Node)
    requires |Children(n)| == 2 && !IsCoordinateNode(Children(n)[0]) && !IsCoordinateNode(Children(n)[1])
    ensures CoordinateNodes(Walk(n)) == CoordinateNodes(Walk(Children(n)[0])) + CoordinateNodes(Walk(Children(n)[1]))
  {
    var c0, c1 := Children(n)[0], Children(n)[1];
    WalkTwoChildren(n);
    CoordinateNodesAppend([c0] + Walk(c0) + [c1], Walk(c1));
    CoordinateNodesAppend([c0] + Walk(c0), [c1]);
    CoordinateNodesAppend([c0], Walk(c0));
  }

  /** A point's only coordinate node is its attribute object. */
  lemma WalkOfPoint(lat: string, lon: string)
    ensures CoordinateNodes(Walk(Point(lat, lon))) == [Point(lat, lon).entries[0].1]
  {
    var p := Point(lat, lon);
    var attrs := p.entries[0].1;
    WalkTwoChildren(attrs);
    WalkOneChild(p);
    assert Walk(attrs) == [Scalar(lat), Scalar(lon)];
    assert IsCoordinateNode(attrs) by {
      LookupFirst(attrs.entries, 1);
    }
    assert CoordinateNodes([Scalar(lat), Scalar(lon)]) == [];
    assert Walk(p) == [attrs] + [Scalar(lat), Scalar(lon)];
    CoordinateNodesAppend([attrs], [Scalar(lat), Scalar(lon)]);
  }

  /** The coordinate nodes below two points: their attribute objects, in order. */
  lemma PointsCoordinateNodes(lat1: string, lon1: string, lat2: string, lon2: string)
    ensures CoordinateNodes(Walk(List([Point(lat1, lon1), Point(lat2, lon2)]))) ==
      [Point(lat1, lon1).entries[0].1, Point(lat2, lon2).entries[0].1]
  {
    var p1, p2 := Point(lat1, lon1), Point(lat2, lon2);
    WalkOfPoint(lat1, lon1);
    WalkOfPoint(lat2, lon2);
    SingleKeyIsNoCoordinate("$", p1.entries[0].1);
    SingleKeyIsNoCoordinate("$", p2.entries[0].1);
    TwoChildrenCoordinates(List([p1, p2]));
  }

  /** The name and the segment wrappers of a track hold no coordinate node of their own. */
  lemma TrackWrappers(name: string, p1: Node, p2: Node)
    ensures CoordinateNodes(Walk(Track(name, p1, p2))) == CoordinateNodes(Walk(List([p1, p2])))
  {
    var points := List([p1, p2]);
    var segment := Map([("trkpt", points)]);
    var segments := List([segment]);
    var title := List([Scalar(name)]);
    OneChildCoordinates(segment);
    SingleKeyIsNoCoordinate("trkpt", points);
    OneChildCoordinates(segments);
    WalkOneChild(title);
    assert CoordinateNodes(Walk(title)) == [] by {
      assert Walk(title) == [Scalar(name)];
    }
    TwoChildrenCoordinates(Track(name, p1, p2));
  }

  /** A point's attribute object yields the token `fmt(lon),fmt(lat) `. */
  lemma PointToken(lat: string, lon: string, fmt: string -> string)
    ensures Token(Point(lat, lon).entries[0].1, fmt) == fmt(lon) + "," + fmt(lat) + " "
  {
    LookupFirst(Point(lat, lon).entries[0].1.entries, 1);
  }

  /** The coordinate string of a two-point track: the first point's token, then the second's. */
  lemma TwoPointTrackCoordinates(name: string, lat1: string, lon1: string, lat2: string, lon2: string,
                                 fmt: string -> string)
    ensures Coordinates(Track(name, Point(lat1, lon1), Point(lat2, lon2)), fmt) ==
      fmt(lon1) + "," + fmt(lat1) + " " + fmt(lon2) + "," + fmt(lat2) + " "
  {
    PointsCoordinateNodes(lat1, lon1, lat2, lon2);
    TrackWrappers(name, Point(lat1, lon1), Point(lat2, lon2));
    var track := Track(name, Point(lat1, lon1), Point(lat2, lon2));
    var a1, a2 := Point(lat1, lon1).entries[0].1, Point(lat2, lon2).entries[0].1;
    assert CoordinateNodes(Walk(track)) == [a1, a2];
    assert Coordinates(track, fmt) == Tokens([a1, a2], fmt);
    PointToken(lat1, lon1, fmt);
    PointToken(lat2, lon2, fmt);
    TwoTokens(a1, a2, fmt);
  }

  /** Two points' tokens: the first, then the second. */
  lemma TwoTokens(a1: Node, a2: Node, fmt: string -> string)
    ensures Tokens([a1, a2], fmt) == Token(a1, fmt) + Token(a2, fmt)
  {
    assert [a1, a2][1..] == [a2] && [a2][1..] == [];
    assert Tokens([a1, a2], fmt) == Token(a1, fmt) + Token(a2, fmt) + Tokens([], fmt);
  }

  /** A document whose only route is one track: the combined document equals the track's part. */
  lemma SingleTrackDocument(route: Node, colour: string, width: Atom, fmt: string -> string)
    ensures var gpx := Map([("trk", List([route]))]);
      && Routes(gpx) == [route]
      && Combined(gpx, colour, width, fmt) == Part(route, colour, width, fmt)
      && PlacemarkValue(Placemarks(Routes(gpx), fmt)[0], ["name"]) == Some(Str(Cdata(PropertyString(route, "name"))))
  {
    var gpx := Map([("trk", List([route]))]);
    assert Routes(gpx) == [route] by {
      assert gpx.entries[1..] == [];
      assert Lookup(gpx.entries, "rte") == Lookup(gpx.entries[1..], "rte");
    }
    PartsMatchCombined(gpx, colour, width, fmt, 0);
    PlacemarksOfRoutes(Routes(gpx), fmt);
  }

  /** The name of a track reads back as written (`String(["Stage 1"])` is `"Stage 1"`). */
  lemma TrackName(name: string, p1: Node, p2: Node)
    ensures PropertyString(Track(name, p1, p2), "name") == name
  {
  }

  /** A document whose one track has two points, such as the track `Stage 1` with the points
      (lon -8.5, lat 51.9) and (lon -8.4, lat 51.8): its coordinate string is `lon,lat lon,lat `,
      the combined document is the same document as its single part, and the one Placemark is
      named `<![CDATA[` + name + `]]>`. */
  lemma TwoPointTrackScenario(name: string, lat1: string, lon1: string, lat2: string, lon2: string,
                              colour: string, width: Atom, fmt: string -> string)
    ensures var track := Track(name, Point(lat1, lon1), Point(lat2, lon2));
      Coordinates(track, fmt) == fmt(lon1) + "," + fmt(lat1) + " " + fmt(lon2) + "," + fmt(lat2) + " "
    ensures var track := Track(name, Point(lat1, lon1), Point(lat2, lon2));
      var gpx := Map([("trk", List([track]))]);
      && Routes(gpx) == [track]
      && Combined(gpx, colour, width, fmt) == Part(track, colour, width, fmt)
      && PlacemarkValue(Placemarks(Routes(gpx), fmt)[0], ["name"]) == Some(Str(CdataOpen + name + CdataClose))
  {
    var track := Track(name, Point(lat1, lon1), Point(lat2, lon2));
    TwoPointTrackCoordinates(name, lat1, lon1, lat2, lon2, fmt);
    SingleTrackDocument(track, colour, width, fmt);
    TrackName(name, Point(lat1, lon1), Point(lat2, lon2));
  }

  /** A document listing a track `B` before a route `A`: the route list still starts with the route. */
  lemma RouteBeforeTrackRoutes(a: Node, b: Node)
    ensures Routes(Map([("trk", List([b])), ("rte", List([a]))])) == [a, b]
  {
    var gpx := Map([("trk", List([b])), ("rte", List([a]))]);
    LookupFirst(gpx.entries, 1);
  }

  /** The name of a route given as `<name>text</name>` reads back as `text`. */
  lemma NamedRoute(text: string)
    ensures PropertyString(Map([("name", List([Scalar(text)]))]), "name") == text
  {
  }

  /** A route `A` and a track `B`: the Placemarks name `A` then `B`, even when the document lists
      its `trk` element before its `rte` element. */
  lemma RouteBeforeTrackScenario(fmt: string -> string)
    ensures var gpx := Map([("trk", List([Map([("name", List([Scalar("B")]))])])),
                            ("rte", List([Map([("name", List([Scalar("A")]))])]))]);
      && |Placemarks(Routes(gpx), fmt)| == 2
      && PlacemarkRouteName(Placemarks(Routes(gpx), fmt)[0]) == Some("A")
      && PlacemarkRouteName(Placemarks(Routes(gpx), fmt)[1]) == Some("B")
  {
    var a, b := Map([("name", List([Scalar("A")]))]), Map([("name", List([Scalar("B")]))]);
    RouteBeforeTrackRoutes(a, b);
    NamedRoute("A");
    NamedRoute("B");
    PlacemarksOfRoutes([a, b], fmt);
  }
}
