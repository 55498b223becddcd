/** A table of "when was this hash last seen", pruned as it goes. Both the engine's deduplication
    window and the scorer's recency window are such tables. */
module Recency {

  function Prune<K>(seen: map<K, int>, now: int, window: nat): map<K, int> {
    map h | h in seen && now - seen[h] <= window :: seen[h]
  }

  /** The pruned table agrees with the full log wherever it still has an entry, and what it has
      dropped is older than the window. */
  ghost predicate Covers<K>(pruned: map<K, int>, full: map<K, int>, now: int, window: nat) {
    && (forall h :: h in pruned ==> h in full && pruned[h] == full[h])
    && (forall h :: h in full && h !in pruned ==> now - full[h] > window)
  }

  lemma CoversPrune<K>(pruned: map<K, int>, full: map<K, int>, before: int, now: int, window: nat)
    requires Covers(pruned, full, before, window) && before <= now
    ensures Covers(Prune(pruned, now, window), full, now, window)
  {
  }

  /** Visit every entry, in any order, and delete it if it is older than the window. */
  method PruneInPlace<K(==)>(seen: map<K, int>, now: int, window: nat) returns (left: map<K, int>)
    ensures left == Prune(seen, now, window)
  {
    left := seen;
    var todo := seen.Keys;
    while todo != {}
      invariant todo <= seen.Keys
      invariant forall h :: h in left <==> h in seen && (h in todo || now - seen[h] <= window)
      invariant forall h :: h in left ==> left[h] == seen[h]
      decreases todo
    {
      var h :| h in todo;
      if now - seen[h] > window {
        left := left - {h};
      }
      todo := todo - {h};
    }
  }
}
