/** The walk assumed for the iterator the converter runs over each route (the recursive-iterator
    library in its default depth-first mode): every node strictly below the root, each node before
    its own descendants, a list's items in index order and an object's entries in the order they
    are held. The root itself is not visited. */
module TreeWalk {
  import opened Gpx

  /** The nodes visited when walking `n`, in visiting order. */
  function Walk(n: Node): (r: seq<Node>)
    ensures |r| >= |Children(n)|
    decreases n, 1
  {
    WalkFrom(n, 0)
  }

  /** The nodes visited below the children of `n` from index `i` on: each child, then its own walk. */
  function WalkFrom(n: Node, i: nat): (r: seq<Node>)
    ensures |r| + i >= |Children(n)|
    decreases n, 0, |Children(n)| - i
  {
    if i >= |Children(n)| then []
    else
      var c := Children(n)[i];
      [c] + Walk(c) + WalkFrom(n, i + 1)
  }

  /** `m` lies strictly below `n`: it is a child of `n` or lies below one. */
  ghost predicate Descendant(m: Node, n: Node)
    decreases n
  {
    exists j :: 0 <= j < |Children(n)| && (m == Children(n)[j] || Descendant(m, Children(n)[j]))
  }

  /** The walk visits exactly the descendants of its root: nothing is skipped, nothing
      outside the subtree (and not the root) is visited. */
  lemma {:induction false} WalkVisitsDescendants(n: Node, m: Node)
    ensures m in Walk(n) <==> Descendant(m, n)
    decreases n, 1
  {
    WalkFromVisits(n, 0, m);
  }

  /** The route itself is never visited: the walk yields only nodes strictly below it. */
  lemma WalkSkipsRoot(n: Node)
    ensures n !in Walk(n)
  {
    WalkVisitsDescendants(n, n);
    if Descendant(n, n) {
      DescendantIsSmaller(n, n);
    }
  }

  /** A descendant is strictly smaller than the node it lies below, so no node lies below itself. */
  lemma {:induction false} DescendantIsSmaller(m: Node, n: Node)
    requires Descendant(m, n)
    ensures m < n
    decreases n
  {
    var j :| 0 <= j < |Children(n)| && (m == Children(n)[j] || Descendant(m, Children(n)[j]));
    if m != Children(n)[j] {
      DescendantIsSmaller(m, Children(n)[j]);
    }
  }

  lemma {:induction false} WalkFromVisits(n: Node, i: nat, m: Node)
    ensures m in WalkFrom(n, i) <==>
      exists j :: i <= j < |Children(n)| && (m == Children(n)[j] || Descendant(m, Children(n)[j]))
    decreases n, 0, |Children(n)| - i
  {
    if i < |Children(n)| {
      var c := Children(n)[i];
      WalkVisitsDescendants(c, m);
      WalkFromVisits(n, i + 1, m);
      assert WalkFrom(n, i) == [c] + Walk(c) + WalkFrom(n, i + 1);
    }
  }

  /** Pre-order: the first node visited is the root's first child, and a string has nothing below it. */
  lemma WalkStartsAtFirstChild(n: Node)
    ensures |Walk(n)| == 0 <==> |Children(n)| == 0
    ensures |Children(n)| > 0 ==> Walk(n)[0] == Children(n)[0]
    ensures n.Scalar? ==> Walk(n) == []
  {
  }

  /** The walk of a node with one child: that child, then its walk. */
  lemma WalkOneChild(n: Node)
    requires |Children(n)| == 1
    ensures Walk(n) == [Children(n)[0]] + Walk(Children(n)[0])
  {
    assert WalkFrom(n, 1) == [];
  }

  /** The walk of a node with two children: each child followed by its walk, in order. */
  lemma WalkTwoChildren(n: Node)
    requires |Children(n)| == 2
    ensures Walk(n) == [Children(n)[0]] + Walk(Children(n)[0]) + [Children(n)[1]] + Walk(Children(n)[1])
  {
    assert WalkFrom(n, 2) == [];
    assert WalkFrom(n, 1) == [Children(n)[1]] + Walk(Children(n)[1]);
  }
}
