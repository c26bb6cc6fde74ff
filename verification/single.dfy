/** single.js: a stand-alone copy of the combined converter, written as one function whose
    route collection, coordinate loop and Placemark list are inline. */
module Single {
  import opened Gpx
  import opened TreeWalk
  import opened CoordinateExtraction
  import opened Kml
  import Convert

  /** `GPXtoKML` of single.js: builds exactly the document main.js's `GPXtoKML` builds. */
  method GpxToKml(gpx: Node, colour: string, width: Atom, fmt: string -> string) returns (kml: Kml)
    ensures kml == Convert.Combined(gpx, colour, width, fmt)
  {
    var routes: seq<Node> := [];
    var tracks: seq<Kml> := [];
    if HasOwnProperty(gpx, "rte") {
      routes := Convert.Concat(routes, Property(gpx, "rte").value);
    }
    if HasOwnProperty(gpx, "trk") {
      routes := Convert.Concat(routes, Property(gpx, "trk").value);
    }
    assert routes == Convert.Routes(gpx);
    for r := 0 to |routes|
      invariant tracks == Convert.Placemarks(routes[..r], fmt)
    {
      var route := routes[r];
      var coords := "";
      var visited := Walk(route);
      for i := 0 to |visited|
        invariant coords == Tokens(CoordinateNodes(visited[..i]), fmt)
      {
        var node := visited[i];
        TokensExtend(visited, i, fmt);
        if HasOwnProperty(node, "lon") && HasOwnProperty(node, "lat") {
          coords := coords + Token(node, fmt);
        }
      }
      assert visited[..|visited|] == visited;
      var placemark := Placemark(PropertyString(route, "name"), coords);
      assert placemark == Convert.RoutePlacemark(route, fmt);
      Convert.PlacemarksExtend(routes, r, fmt);
      tracks := tracks + [placemark];
    }
    assert routes[..|routes|] == routes;
    kml := Skeleton(colour, width, Items(tracks));
  }
}
