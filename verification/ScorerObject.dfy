/** The mutable `PriorityScorer`, each method proved against its step in module Scorer. */
module ScorerObject {
  import opened Observations
  import opened Scorer
  import Recency
  import StableSort

  class PriorityScorer {
    var recentActionHashes: ActionTable

    constructor ()
      ensures recentActionHashes == map[]
    {
      recentActionHashes := map[];
    }

    method ScoreAll(observations: seq<Observation>, matches: seq<nat>, now: int) returns (scored: seq<Observation>)
      requires |observations| == |matches|
      modifies this
      ensures recentActionHashes == Pruned(old(recentActionHashes), now)
      ensures scored == Ranked(observations, matches, recentActionHashes, now)
      ensures |scored| == |observations| && StableSort.Descending(scored)
      ensures Ids(scored) == Ids(observations)
      ensures OnlyScored(observations, matches, old(recentActionHashes), now, scored)
    {
      recentActionHashes := Recency.PruneInPlace(recentActionHashes, now, RECENT_ACTION_WINDOW_MS);
      scored := [];
      var i := 0;
      while i < |observations|
        invariant 0 <= i <= |observations|
        invariant scored == ScoreEach(observations, matches, i, recentActionHashes, now)
      {
        var o := observations[i];
        var priority := o.priority;
        if matches[i] >= 3 {
          priority := priority + 15;
        } else if matches[i] >= 2 {
          priority := priority + 12;
        } else if matches[i] >= 1 {
          priority := priority + 8;
        }
        priority := priority + Severity(o.source);
        var h := ActionHash(o);
        if h in recentActionHashes && recentActionHashes[h] != 0 {
          var elapsed := now - recentActionHashes[h];
          if elapsed < 60_000 {
            priority := priority - 30;
          } else if elapsed < 180_000 {
            priority := priority - 20;
          } else if elapsed < RECENT_ACTION_WINDOW_MS {
            priority := priority - 10;
          }
        }
        if o.actionable && priority > 50 {
          priority := priority + 5;
        }
        scored := scored + [o.(priority := Clamp(priority))];
        i := i + 1;
      }
      scored := StableSort.Sort(scored);
      RankedTold(observations, matches, old(recentActionHashes), now, scored);
    }

    method RecordAction(o: Observation, now: int)
      modifies this
      ensures recentActionHashes == Scorer.RecordAction(old(recentActionHashes), o, now)
    {
      recentActionHashes := recentActionHashes[ActionHash(o) := now];
      recentActionHashes := Recency.PruneInPlace(recentActionHashes, now, RECENT_ACTION_WINDOW_MS);
    }
  }
}
