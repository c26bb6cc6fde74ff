# GPX to KML conversion, modelled in Dafny

This project models the conversion core of a small GPX-to-KML converter. The converter takes
a GPX document already parsed into a generic tree. It collects the document's routes (`rte`)
and tracks (`trk`) into one list, walks each route depth-first, and builds a coordinate string
holding one `lon,lat ` token per node that owns both a `lon` and a `lat` property. It then wraps
each route in a KML `Placemark`. There are two outputs:

- `GPXtoKML` (main.js, and its copy in single.js) builds one KML document. Its `Tracks` folder
  holds every Placemark.
- `GPXtoKMLParts` (main.js) builds one complete KML document per route. Each document's folder
  holds that route's Placemark alone.

Modules, one per component:

- `Basics`: the `Option` type and lookup of a key in an ordered entry list.
- `Gpx`: the parsed tree (`Node = Map | List | Scalar`). It also models the JavaScript
  operations the converter applies to that tree: property access (`route.name`),
  `hasOwnProperty`, and `String(v)` (so `String(["Stage 1"])` is `"Stage 1"` and a missing
  property reads as `"undefined"`).
- `TreeWalk`: the depth-first walk assumed for the route iterator. It visits every node strictly
  below the route, each node before its descendants, a list's items in index order and an
  object's entries in the order they are held. The route node itself is not visited.
- `CoordinateExtraction`: selecting the coordinate nodes, building the coordinate string, and
  reading that string back.
- `Kml`: the element tree handed to the XML serialiser, the Placemark literal and the
  `kml`/`Document`/`Style`/`Folder` skeleton, plus functions that read a tree back.
- `Convert`: the two converters of main.js, written as methods with loops and proved against
  specification functions (`Routes`, `Coordinates`, `Placemarks`, `Part`, `Parts`, `Combined`).
- `Single`: the `GPXtoKML` of single.js. It is written as one method with inline loops and is
  proved to build exactly `Convert.Combined`.
- `Scenarios`: worked documents. One is a two-point track. The other holds a route and a track,
  with the track listed first in the document.

`parseFloat(x).toFixed(9)` is the function parameter `fmt`. It is applied to `String(node.lon)`
and `String(node.lat)`. The line colour and width are parameters. The width is an `Atom`
because the configured value is the number 4 or a string taken from the environment.

The route name is wrapped in CDATA markers with no escaping. `Kml.CdataClosesEarly` shows
that a name containing `]]>` closes the CDATA section early, which makes the serialised XML
malformed. The model keeps the code's behaviour here.

The model follows the code as written, including where its behaviour may surprise a reader:

- A route without a `name` yields the name `<![CDATA[undefined]]>`. It does not raise a
  validation error.
- A non-numeric `lon`/`lat` is handed to `fmt` like any other text. No error is raised.
- Both outputs wrap the `kml` element in a one-element array.
- In a part, the folder's last child is a one-element array holding the Placemark, not the
  Placemark itself.

## Model

| member | source | states |
|---|---|---|
| `Gpx.JsString` | main.js:39 | `String(v)`: a string is itself, an array its elements' strings joined by commas, any other object `[object Object]`; an empty array gives the empty string, and a one-element array (the parser's shape for an element's text) gives its element's string |
| `Gpx.PropertyString` | main.js:83 | `String(node.key)`: a missing property gives `undefined`; a property holding a one-element array gives that element's string, so `<name>text</name>` reads as `text` |
| `Convert.ConcatAppends` | main.js:26 | `routes.concat(v)` (`Convert.Concat`) keeps the list it extends and then adds an array's elements in order, or any other value as one element; the length grows by the array's length or by one |
| `TreeWalk.Walk` | main.js:36-37 | the nodes the route iterator yields, in order: each child of the route, then everything below that child, then the next child; the walk is never shorter than the route's list of children |
| `TreeWalk.WalkVisitsDescendants` | main.js:36-37 | the route iterator visits a node if and only if it lies strictly below the route: no descendant is skipped and nothing outside the route's subtree is visited |
| `TreeWalk.WalkSkipsRoot` | main.js:36-37 | the route node itself is never yielded, since no node lies strictly below itself |
| `TreeWalk.WalkStartsAtFirstChild` | main.js:36-37 | the walk is empty exactly when the route has no children; it starts with the route's first child (pre-order); a string route yields nothing |
| `CoordinateExtraction.CoordinateNodes` | main.js:37-38 | the nodes that contribute are exactly the visited nodes owning both `lon` and `lat`, in both directions; a node with only one of the two contributes nothing; there are never more of them than visited nodes |
| `CoordinateExtraction.TokensExtend` | main.js:37-40 | each visited node extends the accumulated string by `fmt(lon),fmt(lat) ` if it owns both `lon` and `lat`, and leaves it unchanged otherwise |
| `CoordinateExtraction.TokensShape` | main.js:39 | the accumulated tokens are empty exactly when there is no coordinate node; otherwise the string ends in a space |
| `CoordinateExtraction.SplitTokens` | main.js:39 | when the formatting writes no spaces, splitting the coordinate string at its spaces gives back one `fmt(lon),fmt(lat)` pair per coordinate node, in order (the inverse of the accumulation) |
| `CoordinateExtraction.CoordinatesOfRoute` | main.js:34-41 | a route's coordinate string is empty if and only if no node below the route owns both `lon` and `lat`; when non-empty it ends in a space; read back, it holds one pair per coordinate node of the walk, in walk order |
| `Kml.CdataRoundTrip` | main.js:83 | the Placemark name `<![CDATA[` + name + `]]>` gives back the raw route name exactly, whatever characters it holds |
| `Kml.CdataClosesEarly` | main.js:83 | a route name containing `]]>` puts a CDATA terminator before the appended one, because the name is not escaped |
| `Kml.Placemark` | main.js:81-92 | the Placemark literal: name `<![CDATA[` + name + `]]>`, styleUrl `#track`, and MultiGeometry/LineString with tessellate 1, altitudeMode `clampToGround` and the coordinates; the result is a `Placemark` element with no attributes |
| `Kml.Skeleton` | main.js:151-189 | the output template: a one-element array holding the `kml` element, which holds the Document with its settings, the `track` style and the `Tracks` folder ending in the given contents |
| `Kml.PlacemarkContents` | main.js:81-92 | a Placemark reads back as: name `<![CDATA[` + name + `]]>` (the route name is recoverable), styleUrl `#track`, and a LineString with tessellate 1, altitudeMode `clampToGround` and the route's coordinates, which are present even when empty |
| `Kml.SkeletonLayout` | main.js:151-189 | the document skeleton reads back as: the KML 2.2 namespace; the Document's children are exactly three, in order: the settings object with two fields, the `Style` element and the `Folder` element; Document visibility 1 and open 1; style id `track` with LineStyle color = route colour and width = route width; folder id `Tracks` whose children are name `Tracks`, visibility 1, open 0, then the folder contents unchanged |
| `Kml.SkeletonDiffersOnlyInFolder` | main.js:52-79 | two skeletons with the same colour and width are equal if and only if their folder contents are equal, so the parts skeleton and the combined skeleton differ only in what the folder holds |
| `Convert.CollectRoutes` | main.js:22-31 | the two conditional `concat` reassignments produce the route list `Routes(gpx)`: the `rte` entries followed by the `trk` entries |
| `Convert.RouteCoordinates` | main.js:34-41 | the `coords +=` loop over the walk produces exactly the coordinate string of the route (one token per coordinate node, in walk order) |
| `Convert.BuildPlacemark` | main.js:121-145 | one iteration of the route loop yields the route's Placemark: its name property as text and its coordinate string |
| `Convert.GpxToKmlParts` | main.js:20-105 | returns exactly one part per route, in route order; part i is the full skeleton whose folder ends in a one-element array holding route i's Placemark |
| `Convert.GpxToKml` | main.js:107-194 | returns the skeleton whose folder ends in the array of all Placemarks, one per route, in route order |
| `Convert.RouteList` | main.js:109-118 | the route count is the `rte` count plus the `trk` count; the list is the `rte` entries followed by the `trk` entries; an array adds its elements and any other value adds exactly one entry; with neither key there are no routes |
| `Convert.PlacemarksOfRoutes` | main.js:132-145 | exactly one Placemark per route, in route order; each is named by its own route in CDATA and carries that route's coordinate string, whether or not the string is empty |
| `Convert.CombinedFolder` | main.js:177-186 | the combined folder's children are name `Tracks`, visibility 1, open 0, then the Placemark array; that array has one Placemark per `rte` and `trk` entry; with neither key the folder ends in an empty array |
| `Convert.PartsMatchCombined` | main.js:45-96 | part i's folder holds exactly the i-th Placemark of the combined folder; with a single route, the part and the combined document are equal |
| `Scenarios.TwoPointTrackScenario` | main.js:107-145 | for a GPX whose only entry is one `trk` with two `trkpt` points (any name, any coordinate texts): coordinates `fmt(lon1),fmt(lat1) fmt(lon2),fmt(lat2) `; one Placemark named in CDATA; the combined document equals the single part |
| `Scenarios.RouteBeforeTrackScenario` | main.js:112-118 | a document with a route `A` and a track `B` gives Placemarks named `A` then `B`, even when `trk` comes before `rte` in the document |
| `Single.GpxToKml` | single.js:1-88 | the single.js converter, with its own concat reassignments, walk loop and push loop, builds exactly the combined document of main.js's `GPXtoKML`, so every property of `Convert.Combined` holds for it |

## Left out

- Reading the GPX file and writing `kml.kml` and `kmlPart-<i>.kml`: file I/O (main.js:18, 196-217).
- Parsing the XML: the model starts from the parsed tree. The ignored parse error (main.js:21, 108) is not modelled, and neither is a missing `gpx` element, which would make the code throw.
- Serialising the element tree to XML text, including the standalone-header option: the serialiser is not part of this model.
- The iterator library's internals are not part of this model. Its walk is defined here (see `TreeWalk`). Any depth limit and circular-reference handling it may have are left out. The parsed tree has no cycles, and GPX nesting is shallow.
- `parseFloat(x).toFixed(9)`: floating-point formatting stays the uninterpreted parameter `fmt`.
- The order in which the iterator library steps into an object's keys is not part of this model: a `Map`'s children are assumed to be visited in entry order. The library might sort or otherwise reorder keys, which would reorder the coordinate tokens of nodes that are siblings under one object.
- The enumeration order of JavaScript object keys is not modelled: a `Map` keeps its entries in the order given. JavaScript would list integer-like keys first, but GPX element names never are.
- Properties inherited through the JavaScript prototype chain: property access sees an object's own entries only.
- `async.forEach`: its callbacks run synchronously, so it is modelled as a sequential loop. Its error callback, and the `cb(err)` that can be followed by `cb(null, ...)`, are not modelled (main.js:98-103, 147-149).
- `console.info` logging (main.js:43, 130).
- Configuration lookup from the environment (main.js:8-12): colour and width are parameters, and the storage-bucket name is unused by the conversion.
- single.js uses names it never defines (`xml2Js`, `async`, `config`, `jsonToXml`, `jsonToXmlOpts`, `RecursiveIterator`). The model gives them main.js's meaning.
- `CoordinateExtraction.SplitTokens`: stated only for formatting that writes no spaces, which holds for `toFixed` output.
