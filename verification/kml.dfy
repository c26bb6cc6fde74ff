/** The KML element tree the converter hands to the XML serialiser, and the two literals it
    builds: the Placemark of one route and the kml/Document/Style/Folder skeleton. */
module Kml {
  import opened Basics

  /** A scalar value in the literal: a string or a number. */
  datatype Atom = Str(s: string) | Num(n: int)

  /** The serialiser's input, shaped as the converter's object literals:
      `Element` is `{name, attrs, children}` (an element without attributes has `attrs == []`),
      `TextElement` is `{name, text}`, `Fields` is a plain object whose keys name child elements,
      `Items` is an array, `Leaf` is a string or number value. */
  datatype Kml =
    | Element(name: string, attrs: seq<(string, string)>, children: Kml)
    | TextElement(name: string, text: Atom)
    | Fields(fields: seq<(string, Kml)>)
    | Items(items: seq<Kml>)
    | Leaf(value: Atom)

  const CdataOpen := "<![CDATA["
  const CdataClose := "]]>"
  const KmlNamespace := "http://www.opengis.net/kml/2.2"

  /** A route name wrapped verbatim in CDATA markers, with no escaping. */
  function Cdata(name: string): string {
    CdataOpen + name + CdataClose
  }

  /** The text inside CDATA markers, or None when `s` is not wrapped in them. */
  function Uncdata(s: string): Option<string> {
    if |s| >= |CdataOpen| + |CdataClose| && s[..|CdataOpen|] == CdataOpen && s[|s| - |CdataClose|..] == CdataClose
    then Some(s[|CdataOpen|..|s| - |CdataClose|])
    else None
  }

  /** The wrapped name is recovered exactly, whatever characters it holds. */
  lemma CdataRoundTrip(name: string)
    ensures Uncdata(Cdata(name)) == Some(name)
  {
  }

  /** Because the name is not escaped, a name holding "]]>" closes the CDATA section before
      the closing marker the builder appends: the serialised XML is then malformed. */
  lemma CdataClosesEarly(name: string, i: nat)
    requires i + |CdataClose| <= |name| && name[i..i + |CdataClose|] == CdataClose
    ensures var w := Cdata(name);
      |CdataOpen| + i + |CdataClose| < |w| && w[|CdataOpen| + i..|CdataOpen| + i + |CdataClose|] == CdataClose
  {
  }

  /** The Placemark of one route: its name, the shared track style and a clamped, tessellated line. */
  function Placemark(name: string, coordinates: string): (r: Kml)
    ensures r.Element? && r.name == "Placemark" && r.attrs == []
  {
    Element("Placemark", [], Fields([
      ("name", Leaf(Str(Cdata(name)))),
      ("styleUrl", Leaf(Str("#track"))),
      ("MultiGeometry", Fields([
        ("LineString", Fields([
          ("tessellate", Leaf(Num(1))),
          ("altitudeMode", Leaf(Str("clampToGround"))),
          ("coordinates", Leaf(Str(coordinates)))]))]))]))
  }

  /** The output document: a one-element array holding the `kml` element, whose Document holds the
      visibility/open settings, the `track` style and the `Tracks` folder, whose last child is
      `folderTail`. */
  function Skeleton(colour: string, width: Atom, folderTail: Kml): (r: Kml)
    ensures r.Items? && |r.items| == 1 && r.items[0].Element? && r.items[0].name == "kml"
  {
    Items([Element("kml", [("xmlns", KmlNamespace)], Items([
      Element("Document", [], Items([
        Fields([("visibility", Leaf(Num(1))), ("open", Leaf(Num(1)))]),
        Element("Style", [("id", "track")], Fields([
          ("LineStyle", Fields([("color", Leaf(Str(colour))), ("width", Leaf(width))]))])),
        Element("Folder", [("id", "Tracks")], Items([
          TextElement("name", Str("Tracks")),
          TextElement("visibility", Num(1)),
          TextElement("open", Num(0)),
          folderTail]))]))]))])
  }

  // Reading a tree back.

  /** The value reached from `k` by following `path` through plain-object keys. */
  function FieldAt(k: Kml, path: seq<string>): Option<Kml>
    decreases |path|
  {
    if path == [] then Some(k)
    else match k
      case Fields(fs) =>
        (match Lookup<Kml>(fs, path[0])
         case None => None
         case Some(v) => FieldAt(v, path[1..]))
      case _ => None
  }

  /** The scalar found at `path` inside a Placemark's children. */
  function PlacemarkValue(p: Kml, path: seq<string>): Option<Atom> {
    if p.Element? && p.name == "Placemark" then
      match FieldAt(p.children, path)
      case Some(Leaf(a)) => Some(a)
      case _ => None
    else None
  }

  /** The route name a Placemark carries, taken out of its CDATA section. */
  function PlacemarkRouteName(p: Kml): Option<string> {
    match PlacemarkValue(p, ["name"])
    case Some(Str(s)) => Uncdata(s)
    case _ => None
  }

  /** The element of a one-element array, when it is an element named `name`. */
  function OnlyElement(k: Kml, name: string): Option<Kml> {
    if k.Items? && |k.items| == 1 && k.items[0].Element? && k.items[0].name == name
    then Some(k.items[0]) else None
  }

  /** The first element named `name` among `ks`. */
  function FindElement(ks: seq<Kml>, name: string): (r: Option<Kml>)
    ensures r.Some? ==> r.value.Element? && r.value.name == name
  {
    if ks == [] then None
    else if ks[0].Element? && ks[0].name == name then Some(ks[0])
    else FindElement(ks[1..], name)
  }

  /** The `kml` root element of an output document. */
  function Root(out: Kml): Option<Kml> {
    OnlyElement(out, "kml")
  }

  /** The children of the output's Document element. */
  function DocumentChildren(out: Kml): Option<seq<Kml>> {
    match Root(out)
    case None => None
    case Some(root) =>
      match OnlyElement(root.children, "Document")
      case Some(Element(_, _, Items(ds))) => Some(ds)
      case _ => None
  }

  /** A Document-level setting, read from the plain object that opens the Document. */
  function DocumentSetting(out: Kml, key: string): Option<Atom> {
    match DocumentChildren(out)
    case Some(ds) =>
      if |ds| > 0 && ds[0].Fields? then
        match Lookup<Kml>(ds[0].fields, key)
        case Some(Leaf(a)) => Some(a)
        case _ => None
      else None
    case None => None
  }

  /** A Document child element by name. */
  function DocumentElement(out: Kml, name: string): Option<Kml> {
    match DocumentChildren(out)
    case Some(ds) => FindElement(ds, name)
    case None => None
  }

  /** An attribute of a Document child element. */
  function ElementAttribute(out: Kml, name: string, attr: string): Option<string> {
    match DocumentElement(out, name)
    case Some(e) => Lookup(e.attrs, attr)
    case None => None
  }

  /** A `LineStyle` property of the Style element. */
  function LineStyle(out: Kml, key: string): Option<Atom> {
    match DocumentElement(out, "Style")
    case Some(e) =>
      (match FieldAt(e.children, ["LineStyle", key])
       case Some(Leaf(a)) => Some(a)
       case _ => None)
    case None => None
  }

  /** The children of the Folder element. */
  function FolderChildren(out: Kml): Option<seq<Kml>> {
    match DocumentElement(out, "Folder")
    case Some(Element(_, _, Items(fs))) => Some(fs)
    case _ => None
  }

  /** What the Folder holds after its own settings: its last child. */
  function FolderContents(out: Kml): Option<Kml> {
    match FolderChildren(out)
    case Some(fs) => if |fs| > 0 then Some(fs[|fs| - 1]) else None
    case None => None
  }

  /** Every field of a Placemark as read back: the name in CDATA (recovering the route name
      exactly), the `#track` style, and a LineString with tessellate 1, altitudeMode
      `clampToGround` and the given coordinates, which stay present even when empty. */
  lemma PlacemarkContents(name: string, coordinates: string)
    ensures var p := Placemark(name, coordinates);
      && PlacemarkValue(p, ["name"]) == Some(Str(CdataOpen + name + CdataClose))
      && PlacemarkRouteName(p) == Some(name)
      && PlacemarkValue(p, ["styleUrl"]) == Some(Str("#track"))
      && PlacemarkValue(p, ["MultiGeometry", "LineString", "tessellate"]) == Some(Num(1))
      && PlacemarkValue(p, ["MultiGeometry", "LineString", "altitudeMode"]) == Some(Str("clampToGround"))
      && PlacemarkValue(p, ["MultiGeometry", "LineString", "coordinates"]) == Some(Str(coordinates))
  {
    var p := Placemark(name, coordinates);
    assert FieldAt(p.children, ["name"]) == Some(Leaf(Str(Cdata(name))));
    CdataRoundTrip(name);
    LookupFirst(p.children.fields, 1);
    LineStringField(name, coordinates, 0);
    LineStringField(name, coordinates, 1);
    LineStringField(name, coordinates, 2);
  }

  /** The `i`-th LineString field of a Placemark is found by its path. */
  lemma LineStringField(name: string, coordinates: string, i: nat)
    requires i < 3
    ensures var line := Placemark(name, coordinates).children.fields[2].1.fields[0].1.fields;
      FieldAt(Placemark(name, coordinates).children, ["MultiGeometry", "LineString", line[i].0]) == Some(line[i].1)
  {
    var fs := Placemark(name, coordinates).children.fields;
    var geometry := fs[2].1;
    var line := geometry.fields[0].1;
    LookupFirst(fs, 2);
    LookupFirst(line.fields, i);
    var path := ["MultiGeometry", "LineString", line.fields[i].0];
    assert path[1..] == ["LineString", line.fields[i].0];
    assert path[1..][1..] == [line.fields[i].0];
    assert FieldAt(line, path[1..][1..]) == Some(line.fields[i].1);
  }

  /** The skeleton as read back: the KML namespace; Document visibility 1 and open 1; style `track`
      with the given line colour and width; folder `Tracks` whose children are its name, visibility 1,
      open 0 and then the folder contents, which are returned intact. */
  lemma SkeletonLayout(colour: string, width: Atom, folderTail: Kml)
    ensures var out := Skeleton(colour, width, folderTail);
      && Root(out).Some? && Lookup(Root(out).value.attrs, "xmlns") == Some(KmlNamespace)
      && DocumentChildren(out).Some? && |DocumentChildren(out).value| == 3
      && DocumentChildren(out).value[0].Fields? && |DocumentChildren(out).value[0].fields| == 2
      && DocumentChildren(out).value[1].Element? && DocumentChildren(out).value[1].name == "Style"
      && DocumentChildren(out).value[2].Element? && DocumentChildren(out).value[2].name == "Folder"
      && DocumentSetting(out, "visibility") == Some(Num(1))
      && DocumentSetting(out, "open") == Some(Num(1))
      && ElementAttribute(out, "Style", "id") == Some("track")
      && LineStyle(out, "color") == Some(Str(colour))
      && LineStyle(out, "width") == Some(width)
      && ElementAttribute(out, "Folder", "id") == Some("Tracks")
      && FolderChildren(out) == Some([TextElement("name", Str("Tracks")), TextElement("visibility", Num(1)),
                                      TextElement("open", Num(0)), folderTail])
      && FolderContents(out) == Some(folderTail)
  {
    var out := Skeleton(colour, width, folderTail);
    var ds := DocumentChildren(out).value;
    assert ds[1..][1..] == [ds[2]];
    LookupFirst(ds[0].fields, 1);
    assert DocumentElement(out, "Style") == Some(ds[1]) by {
      assert FindElement(ds[1..], "Style") == Some(ds[1]);
    }
    assert DocumentElement(out, "Folder") == Some(ds[2]) by {
      assert FindElement(ds[1..][1..], "Folder") == Some(ds[2]);
      assert FindElement(ds[1..], "Folder") == FindElement(ds[1..][1..], "Folder");
      assert FindElement(ds, "Folder") == FindElement(ds[1..], "Folder");
    }
    var lineStyle := ds[1].children.fields[0].1;
    LookupFirst(lineStyle.fields, 1);
    assert ["LineStyle", "color"][1..] == ["color"];
    assert ["LineStyle", "width"][1..] == ["width"];
    assert FieldAt(lineStyle, ["color"]) == Some(Leaf(Str(colour)));
    assert FieldAt(lineStyle, ["width"]) == Some(Leaf(width));
  }

  /** The folder part of the skeleton's layout alone, for callers that need nothing else. */
  lemma SkeletonFolder(colour: string, width: Atom, folderTail: Kml)
    ensures FolderChildren(Skeleton(colour, width, folderTail)) ==
      Some([TextElement("name", Str("Tracks")), TextElement("visibility", Num(1)), TextElement("open", Num(0)),
            folderTail])
    ensures FolderContents(Skeleton(colour, width, folderTail)) == Some(folderTail)
  {
    SkeletonLayout(colour, width, folderTail);
  }

  /** Two skeletons with the same style are equal exactly when their folder contents are:
      the folder contents are the only place where outputs built with one style can differ. */
  lemma SkeletonDiffersOnlyInFolder(colour: string, width: Atom, a: Kml, b: Kml)
    ensures Skeleton(colour, width, a) == Skeleton(colour, width, b) <==> a == b
  {
  }
}
