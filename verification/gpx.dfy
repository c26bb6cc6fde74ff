/** The parsed GPX document: the generic tree the XML parser hands to the converter,
    and the few JavaScript operations the converter applies to it. */
module Gpx {
  import opened Basics

  /** A parsed value: an object (its entries in key order), an array, or a string. */
  datatype Node = Map(entries: seq<(string, Node)>) | List(items: seq<Node>) | Scalar(text: string)

  /** `node.key`: the property of an object; arrays and strings have none of the keys used here. */
  function Property(n: Node, key: string): (r: Option<Node>)
    ensures r.Some? ==> n.Map?
  {
    if n.Map? then Lookup(n.entries, key) else None
  }

  /** `node.hasOwnProperty(key)`. */
  predicate HasOwnProperty(n: Node, key: string) {
    Property(n, key).Some?
  }

  /** `String(v)`: a string is itself, an array is its elements' strings joined by commas
      (Array.prototype.toString), any other object is "[object Object]". */
  function JsString(n: Node): (r: string)
    ensures n.List? && n.items == [] ==> r == ""
    ensures n.List? && |n.items| == 1 ==> r == JsString(n.items[0])
    decreases n, 1
  {
    match n
    case Scalar(s) => s
    case Map(_) => "[object Object]"
    case List(items) =>
      assert |items| == 1 ==> JoinFrom(n, 1) == "";
      JoinFrom(n, 0)
  }

  /** The comma-joined strings of the array elements from index `i` on. */
  function JoinFrom(n: Node, i: nat): string
    requires n.List?
    decreases n, 0, |n.items| - i
  {
    if i >= |n.items| then ""
    else (if i == 0 then "" else ",") + JsString(n.items[i]) + JoinFrom(n, i + 1)
  }

  /** `String(node.key)`, which is "undefined" when the property is missing. */
  function PropertyString(n: Node, key: string): (r: string)
    ensures !HasOwnProperty(n, key) ==> r == "undefined"
    ensures var v := Property(n, key);
      v.Some? && v.value.List? && |v.value.items| == 1 ==> r == JsString(v.value.items[0])
  {
    match Property(n, key)
    case None => "undefined"
    case Some(v) => JsString(v)
  }

  /** The values of an object's entries, in key order. */
  function Values(entries: seq<(string, Node)>): (r: seq<Node>)
    ensures |r| == |entries|
    ensures forall i :: 0 <= i < |entries| ==> r[i] == entries[i].1
  {
    if entries == [] then [] else [entries[0].1] + Values(entries[1..])
  }

  /** The nodes directly below `n`, in key or index order (what `Object.keys` enumerates). */
  function Children(n: Node): (r: seq<Node>)
    ensures forall i :: 0 <= i < |r| ==> r[i] < n
    ensures n.Scalar? ==> r == []
    ensures n.List? ==> r == n.items
    ensures n.Map? ==> |r| == |n.entries| && forall i :: 0 <= i < |r| ==> r[i] == n.entries[i].1
  {
    match n
    case Map(entries) =>
      var r := Values(entries);
      assert forall i :: 0 <= i < |r| ==> r[i] < n by {
        forall i | 0 <= i < |r| ensures r[i] < n {
          assert entries[i] in entries;
        }
      }
      r
    case List(items) => items
    case Scalar(_) => []
  }
}
