/** Small shared vocabulary: an optional value and lookup in an ordered list of named entries. */
module Basics {

  datatype Option<+T> = None | Some(value: T)

  /** The value of the first entry named `key`, or None when no entry has that name.
      An ordered entry list is how both the parsed GPX objects and the KML field
      mappings are represented; their keys are distinct in practice. */
  function Lookup<V>(entries: seq<(string, V)>, key: string): Option<V> {
    if entries == [] then None
    else if entries[0].0 == key then Some(entries[0].1)
    else Lookup(entries[1..], key)
  }

  /** With distinct keys before it, an entry is what its key looks up. */
  lemma {:induction false} LookupFirst<V>(entries: seq<(string, V)>, i: nat)
    requires i < |entries|
    requires forall j :: 0 <= j < i ==> entries[j].0 != entries[i].0
    ensures Lookup(entries, entries[i].0) == Some(entries[i].1)
  {
    if i > 0 {
      LookupFirst(entries[1..], i - 1);
    }
  }
}
