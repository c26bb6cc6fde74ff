/** The coordinate extractor: what one route contributes to its `coordinates` string. */
module CoordinateExtraction {
  import opened Gpx
  import opened TreeWalk

  /** A visited node owning both a `lon` and a `lat` property; a node with only one of them adds nothing. */
  predicate IsCoordinateNode(n: Node) {
    HasOwnProperty(n, "lon") && HasOwnProperty(n, "lat")
  }

  /** `fmt` stands for `x => parseFloat(x).toFixed(9)`, applied to `String(node.lon)` and `String(node.lat)`. */
  function Pair(n: Node, fmt: string -> string): string {
    fmt(PropertyString(n, "lon")) + "," + fmt(PropertyString(n, "lat"))
  }

  /** What one coordinate node appends to the accumulator: the pair followed by one space. */
  function Token(n: Node, fmt: string -> string): string {
    Pair(n, fmt) + " "
  }

  /** The coordinate nodes among `visited`, in visiting order. */
  function CoordinateNodes(visited: seq<Node>): (r: seq<Node>)
    ensures |r| <= |visited|
    ensures forall m :: m in r <==> m in visited && IsCoordinateNode(m)
  {
    if visited == [] then []
    else (if IsCoordinateNode(visited[0]) then [visited[0]] else []) + CoordinateNodes(visited[1..])
  }

  /** The tokens of `points`, concatenated in order; each token holds at least its comma and space. */
  function Tokens(points: seq<Node>, fmt: string -> string): (r: string)
    ensures |r| >= 2 * |points|
  {
    if points == [] then "" else Token(points[0], fmt) + Tokens(points[1..], fmt)
  }

  /** The pair of each point, in order. */
  function Pairs(points: seq<Node>, fmt: string -> string): seq<string> {
    if points == [] then [] else [Pair(points[0], fmt)] + Pairs(points[1..], fmt)
  }

  /** The coordinate string of one route: one token per coordinate node of its walk. */
  function Coordinates(route: Node, fmt: string -> string): (r: string)
    ensures |r| >= 2 * |CoordinateNodes(Walk(route))|
  {
    Tokens(CoordinateNodes(Walk(route)), fmt)
  }

  /** The number formatting never writes a space (true of `toFixed`, which yields digits, a sign,
      a point, or "NaN"/"Infinity"). */
  ghost predicate SpaceFree(fmt: string -> string) {
    forall x :: ' ' !in fmt(x)
  }

  /** The index of the first space in `s`, or `|s|` when there is none. */
  function FirstSpace(s: string): (k: nat)
    ensures k <= |s|
    ensures forall j :: 0 <= j < k ==> s[j] != ' '
    ensures k < |s| ==> s[k] == ' '
  {
    if s == [] || s[0] == ' ' then 0 else 1 + FirstSpace(s[1..])
  }

  /** How a reader of a `coordinates` string takes it apart: the pieces between single spaces,
      the final space ending the last piece. */
  function Split(s: string): seq<string>
    decreases |s|
  {
    if s == [] then []
    else
      var k := FirstSpace(s);
      if k == |s| then [s] else [s[..k]] + Split(s[k + 1..])
  }

  lemma SplitFirst(t: string, rest: string)
    requires ' ' !in t
    ensures Split(t + " " + rest) == [t] + Split(rest)
  {
    var s := t + " " + rest;
    var k := FirstSpace(s);
    assert s[|t|] == ' ';
    assert forall j :: 0 <= j < |t| ==> s[j] == t[j];
    assert k == |t|;
    assert s[..k] == t;
    assert s[k + 1..] == rest;
  }

  /** Filtering a walk split in two filters each part: the loop may accumulate node by node. */
  lemma {:induction false} CoordinateNodesAppend(a: seq<Node>, b: seq<Node>)
    ensures CoordinateNodes(a + b) == CoordinateNodes(a) + CoordinateNodes(b)
  {
    if a == [] {
      assert a + b == b;
    } else {
      assert (a + b)[1..] == a[1..] + b;
      CoordinateNodesAppend(a[1..], b);
    }
  }

  lemma {:induction false} TokensAppend(a: seq<Node>, b: seq<Node>, fmt: string -> string)
    ensures Tokens(a + b, fmt) == Tokens(a, fmt) + Tokens(b, fmt)
  {
    if a == [] {
      assert a + b == b;
    } else {
      assert (a + b)[1..] == a[1..] + b;
      TokensAppend(a[1..], b, fmt);
    }
  }

  /** One more visited node extends the accumulated string by its token, if it is a coordinate node. */
  lemma TokensExtend(visited: seq<Node>, i: nat, fmt: string -> string)
    requires i < |visited|
    ensures Tokens(CoordinateNodes(visited[..i + 1]), fmt) ==
      Tokens(CoordinateNodes(visited[..i]), fmt) + (if IsCoordinateNode(visited[i]) then Token(visited[i], fmt) else "")
  {
    var node := visited[i];
    assert visited[..i + 1] == visited[..i] + [node];
    CoordinateNodesAppend(visited[..i], [node]);
    TokensAppend(CoordinateNodes(visited[..i]), CoordinateNodes([node]), fmt);
    if IsCoordinateNode(node) {
      assert Tokens([node], fmt) == Token(node, fmt) + Tokens([], fmt);
    }
  }

  /** The tokens are empty exactly when there is no point, and otherwise end in a single space. */
  lemma {:induction false} TokensShape(points: seq<Node>, fmt: string -> string)
    ensures Tokens(points, fmt) == "" <==> points == []
    ensures points != [] ==> |Tokens(points, fmt)| > 0 && Tokens(points, fmt)[|Tokens(points, fmt)| - 1] == ' '
  {
    if points != [] {
      TokensShape(points[1..], fmt);
      var head, tail := Token(points[0], fmt), Tokens(points[1..], fmt);
      assert Tokens(points, fmt) == head + tail;
      assert head[|head| - 1] == ' ';
    }
  }

  lemma PairSpaceFree(n: Node, fmt: string -> string)
    requires SpaceFree(fmt)
    ensures ' ' !in Pair(n, fmt)
  {
  }

  /** Reading the tokens back gives each point's pair, in order: one piece per point. */
  lemma {:induction false} SplitTokens(points: seq<Node>, fmt: string -> string)
    requires SpaceFree(fmt)
    ensures Split(Tokens(points, fmt)) == Pairs(points, fmt)
  {
    if points != [] {
      var p := Pair(points[0], fmt);
      PairSpaceFree(points[0], fmt);
      SplitFirst(p, Tokens(points[1..], fmt));
      SplitTokens(points[1..], fmt);
    }
  }

  /** The coordinate string of a route: empty exactly when no node below the route owns both
      `lon` and `lat`; otherwise ending in one space; and read back, one `lon,lat` pair per
      coordinate node of the walk, in walking order. */
  lemma CoordinatesOfRoute(route: Node, fmt: string -> string)
    ensures Coordinates(route, fmt) == "" <==> forall m :: Descendant(m, route) ==> !IsCoordinateNode(m)
    ensures Coordinates(route, fmt) != "" ==> Coordinates(route, fmt)[|Coordinates(route, fmt)| - 1] == ' '
    ensures SpaceFree(fmt) ==> Split(Coordinates(route, fmt)) == Pairs(CoordinateNodes(Walk(route)), fmt)
  {
    var points := CoordinateNodes(Walk(route));
    TokensShape(points, fmt);
    if SpaceFree(fmt) {
      SplitTokens(points, fmt);
    }
    if points == [] {
      forall m | Descendant(m, route) ensures !IsCoordinateNode(m) {
        WalkVisitsDescendants(route, m);
      }
    } else {
      WalkVisitsDescendants(route, points[0]);
    }
  }
}
