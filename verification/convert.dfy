/** The two converters of main.js: `GPXtoKMLParts`, one KML document per route, and `GPXtoKML`,
    one KML document holding every route. Both collect the routes, extract each route's
    coordinate string and build its Placemark; they differ only in how Placemarks are wrapped. */
module Convert {
  import opened Basics
  import opened Gpx
  import opened TreeWalk
  import opened CoordinateExtraction
  import opened Kml

  // Specification.

  /** `acc.concat(v)`: an array is spread into its elements, any other value is one entry. */
  function Concat(acc: seq<Node>, v: Node): seq<Node> {
    if v.List? then acc + v.items else acc + [v]
  }

  /** `concat` keeps the list it extends and then adds an array's elements, or any other value
      as one element. */
  lemma ConcatAppends(acc: seq<Node>, v: Node)
    ensures |Concat(acc, v)| == |acc| + (if v.List? then |v.items| else 1)
    ensures Concat(acc, v)[..|acc|] == acc
    ensures v.List? ==> Concat(acc, v)[|acc|..] == v.items
    ensures !v.List? ==> Concat(acc, v)[|acc|..] == [v]
  {
  }

  /** What the `gpx` property `key` contributes to the route list: nothing when it is absent. */
  function Entries(gpx: Node, key: string): seq<Node> {
    match Property(gpx, key)
    case None => []
    case Some(v) => Concat([], v)
  }

  /** How many routes the `gpx` property `key` holds: none when absent, the length of an array,
      and one for any other value. */
  function EntryCount(gpx: Node, key: string): nat {
    match Property(gpx, key)
    case None => 0
    case Some(List(items)) => |items|
    case Some(_) => 1
  }

  /** The routes to convert: the `rte` entries followed by the `trk` entries. */
  function Routes(gpx: Node): seq<Node> {
    Entries(gpx, "rte") + Entries(gpx, "trk")
  }

  /** The Placemark of one route: its `name` property as text, and its coordinate string. */
  function RoutePlacemark(route: Node, fmt: string -> string): Kml {
    Placemark(PropertyString(route, "name"), Coordinates(route, fmt))
  }

  /** One Placemark per route, in route order. */
  function Placemarks(routes: seq<Node>, fmt: string -> string): seq<Kml> {
    seq(|routes|, i requires 0 <= i < |routes| => RoutePlacemark(routes[i], fmt))
  }

  /** The part document of one route: the skeleton whose folder ends in a one-element array
      holding that route's Placemark. */
  function Part(route: Node, colour: string, width: Atom, fmt: string -> string): Kml {
    Skeleton(colour, width, Items([RoutePlacemark(route, fmt)]))
  }

  /** One part per route, in route order. */
  function Parts(routes: seq<Node>, colour: string, width: Atom, fmt: string -> string): seq<Kml> {
    seq(|routes|, i requires 0 <= i < |routes| => Part(routes[i], colour, width, fmt))
  }

  /** The combined document: the skeleton whose folder ends in the array of all Placemarks. */
  function Combined(gpx: Node, colour: string, width: Atom, fmt: string -> string): Kml {
    Skeleton(colour, width, Items(Placemarks(Routes(gpx), fmt)))
  }

  // The converter, step by step.

  /** Builds the route list by two conditional `concat` reassignments. */
  method CollectRoutes(gpx: Node) returns (routes: seq<Node>)
    ensures routes == Routes(gpx)
  {
    routes := [];
    if HasOwnProperty(gpx, "rte") {
      routes := Concat(routes, Property(gpx, "rte").value);
    }
    if HasOwnProperty(gpx, "trk") {
      routes := Concat(routes, Property(gpx, "trk").value);
    }
  }

  /** Walks the route and appends one token per visited node owning both `lon` and `lat`. */
  method RouteCoordinates(route: Node, fmt: string -> string) returns (coords: string)
    ensures coords == Coordinates(route, fmt)
  {
    var visited := Walk(route);
    coords := "";
    for i := 0 to |visited|
      invariant coords == Tokens(CoordinateNodes(visited[..i]), fmt)
    {
      var node := visited[i];
      TokensExtend(visited, i, fmt);
      if HasOwnProperty(node, "lon") && HasOwnProperty(node, "lat") {
        coords := coords + Token(node, fmt);
      }
    }
    assert visited[..|visited|] == visited;
  }

  /** One iteration's work: the route's coordinate string, then its Placemark literal. */
  method BuildPlacemark(route: Node, fmt: string -> string) returns (placemark: Kml)
    ensures placemark == RoutePlacemark(route, fmt)
  {
    var coords := RouteCoordinates(route, fmt);
    placemark := Placemark(PropertyString(route, "name"), coords);
  }

  /** `GPXtoKMLParts`: one complete document per route, in route order. */
  method GpxToKmlParts(gpx: Node, colour: string, width: Atom, fmt: string -> string) returns (parts: seq<Kml>)
    ensures |parts| == |Routes(gpx)|
    ensures forall i :: 0 <= i < |parts| ==> parts[i] == Part(Routes(gpx)[i], colour, width, fmt)
  {
    var routes := CollectRoutes(gpx);
    var tracks: seq<Kml> := [];
    for i := 0 to |routes|
      invariant tracks == Parts(routes[..i], colour, width, fmt)
    {
      var placemark := BuildPlacemark(routes[i], fmt);
      PartsExtend(routes, i, colour, width, fmt);
      tracks := tracks + [Skeleton(colour, width, Items([placemark]))];
    }
    assert routes[..|routes|] == routes;
    parts := tracks;
  }

  /** `GPXtoKML`: every route's Placemark, in route order, in the one folder of one document. */
  method GpxToKml(gpx: Node, colour: string, width: Atom, fmt: string -> string) returns (kml: Kml)
    ensures kml == Combined(gpx, colour, width, fmt)
  {
    var routes := CollectRoutes(gpx);
    var tracks: seq<Kml> := [];
    for i := 0 to |routes|
      invariant tracks == Placemarks(routes[..i], fmt)
    {
      var placemark := BuildPlacemark(routes[i], fmt);
      PlacemarksExtend(routes, i, fmt);
      tracks := tracks + [placemark];
    }
    assert routes[..|routes|] == routes;
    kml := Skeleton(colour, width, Items(tracks));
  }

  lemma PlacemarksExtend(routes: seq<Node>, i: nat, fmt: string -> string)
    requires i < |routes|
    ensures Placemarks(routes[..i + 1], fmt) == Placemarks(routes[..i], fmt) + [RoutePlacemark(routes[i], fmt)]
  {
    assert routes[..i + 1] == routes[..i] + [routes[i]];
  }

  lemma PartsExtend(routes: seq<Node>, i: nat, colour: string, width: Atom, fmt: string -> string)
    requires i < |routes|
    ensures Parts(routes[..i + 1], colour, width, fmt) == Parts(routes[..i], colour, width, fmt) + [Part(routes[i], colour, width, fmt)]
  {
    assert routes[..i + 1] == routes[..i] + [routes[i]];
  }

  // Properties.

  /** The route list holds every `rte` entry and then every `trk` entry, each group in document
      order whatever the order of the keys; a value that is not an array adds exactly one route;
      with neither key there are no routes. */
  lemma RouteList(gpx: Node)
    ensures |Routes(gpx)| == EntryCount(gpx, "rte") + EntryCount(gpx, "trk")
    ensures Routes(gpx)[..EntryCount(gpx, "rte")] == Entries(gpx, "rte")
    ensures Routes(gpx)[EntryCount(gpx, "rte")..] == Entries(gpx, "trk")
    ensures forall key :: Property(gpx, key).Some? && Property(gpx, key).value.List? ==>
      Entries(gpx, key) == Property(gpx, key).value.items
    ensures forall key :: Property(gpx, key).Some? && !Property(gpx, key).value.List? ==>
      Entries(gpx, key) == [Property(gpx, key).value]
    ensures !HasOwnProperty(gpx, "rte") && !HasOwnProperty(gpx, "trk") ==> Routes(gpx) == []
  {
  }

  /** Every route yields exactly one Placemark, in route order, naming that route in CDATA and
      carrying that route's coordinate string (empty when the route has no coordinate node). */
  lemma PlacemarksOfRoutes(routes: seq<Node>, fmt: string -> string)
    ensures |Placemarks(routes, fmt)| == |routes|
    ensures forall i :: 0 <= i < |routes| ==>
      && PlacemarkRouteName(Placemarks(routes, fmt)[i]) == Some(PropertyString(routes[i], "name"))
      && PlacemarkValue(Placemarks(routes, fmt)[i], ["name"]) == Some(Str(Cdata(PropertyString(routes[i], "name"))))
      && PlacemarkValue(Placemarks(routes, fmt)[i], ["MultiGeometry", "LineString", "coordinates"])
         == Some(Str(Coordinates(routes[i], fmt)))
  {
    forall i | 0 <= i < |routes|
      ensures && PlacemarkRouteName(Placemarks(routes, fmt)[i]) == Some(PropertyString(routes[i], "name"))
              && PlacemarkValue(Placemarks(routes, fmt)[i], ["name"]) == Some(Str(Cdata(PropertyString(routes[i], "name"))))
              && PlacemarkValue(Placemarks(routes, fmt)[i], ["MultiGeometry", "LineString", "coordinates"])
                 == Some(Str(Coordinates(routes[i], fmt)))
    {
      PlacemarkContents(PropertyString(routes[i], "name"), Coordinates(routes[i], fmt));
    }
  }

  /** The combined document: the folder's children are its name `Tracks`, visibility 1, open 0 and
      then one array holding exactly one Placemark per route, in route order. */
  lemma CombinedFolder(gpx: Node, colour: string, width: Atom, fmt: string -> string)
    ensures FolderChildren(Combined(gpx, colour, width, fmt)) ==
      Some([TextElement("name", Str("Tracks")), TextElement("visibility", Num(1)), TextElement("open", Num(0)),
            Items(Placemarks(Routes(gpx), fmt))])
    ensures |Placemarks(Routes(gpx), fmt)| == EntryCount(gpx, "rte") + EntryCount(gpx, "trk")
    ensures !HasOwnProperty(gpx, "rte") && !HasOwnProperty(gpx, "trk") ==>
      FolderContents(Combined(gpx, colour, width, fmt)) == Some(Items([]))
  {
    SkeletonFolder(colour, width, Items(Placemarks(Routes(gpx), fmt)));
    RouteList(gpx);
  }

  /** The i-th part holds exactly the i-th Placemark of the combined folder, in a skeleton with
      the same style; with a single route, the part and the combined document are equal. */
  lemma PartsMatchCombined(gpx: Node, colour: string, width: Atom, fmt: string -> string, i: nat)
    requires i < |Routes(gpx)|
    ensures var combined := FolderContents(Combined(gpx, colour, width, fmt));
      && combined.Some? && combined.value.Items? && i < |combined.value.items|
      && FolderContents(Part(Routes(gpx)[i], colour, width, fmt)) == Some(Items([combined.value.items[i]]))
    ensures |Routes(gpx)| == 1 ==> Part(Routes(gpx)[0], colour, width, fmt) == Combined(gpx, colour, width, fmt)
  {
    var routes := Routes(gpx);
    SkeletonFolder(colour, width, Items(Placemarks(routes, fmt)));
    SkeletonFolder(colour, width, Items([RoutePlacemark(routes[i], fmt)]));
    if |routes| == 1 {
      assert Placemarks(routes, fmt) == [RoutePlacemark(routes[0], fmt)];
    }
  }
}
