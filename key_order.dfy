/**
 * A JavaScript `Map` as the app uses it: the keys in insertion order and the
 * entries by key. Listing its values walks the keys in that order.
 */
module KeyOrder {

  /** The entries of the listed keys, in the keys' order; unknown keys are skipped. */
  function ValuesIn<V>(order: seq<string>, entries: map<string, V>): seq<V>
  {
    if order == [] then []
    else
      var last := order[|order| - 1];
      ValuesIn(order[..|order| - 1], entries) + (if last in entries then [entries[last]] else [])
  }

  /** When every listed key has an entry, the i-th value is the i-th key's entry. */
  lemma {:induction false} ValuesOfKeys<V>(order: seq<string>, entries: map<string, V>)
    requires forall k :: k in order ==> k in entries
    ensures |ValuesIn(order, entries)| == |order|
    ensures forall i :: 0 <= i < |order| ==> ValuesIn(order, entries)[i] == entries[order[i]]
    decreases |order|
  {
    if order != [] {
      ValuesOfKeys(order[..|order| - 1], entries);
    }
  }
}
