/** The mutable `ObservationEngine`, each method proved against its step in module Engine. */
module EngineObject {
  import opened Observations
  import opened Engine
  import Collecting
  import OrderedMaps
  import Recency
  import StableSort

  class ObservationEngine {
    var recentHashes: map<Fingerprint, int>
    var history: seq<Observation>
    var pendingInjections: seq<Observation>
    var deferredItems: OrderedMaps.OrderedMap<Deferral>

    function State(): EngineState
      reads this
    {
      EngineState(recentHashes, history, pendingInjections, deferredItems)
    }

    ghost predicate Valid()
      reads this
    {
      deferredItems.Valid()
    }

    constructor ()
      ensures Valid() && State() == NEW_ENGINE
    {
      recentHashes, history, pendingInjections, deferredItems := map[], [], [], OrderedMaps.OrderedMap([], map[]);
    }

    method Inject(o: Observation)
      modifies this
      ensures State() == Engine.Inject(old(State()), o)
      ensures old(Valid()) ==> Valid()
    {
      if |pendingInjections| >= MAX_PENDING_INJECTIONS {
        pendingInjections := pendingInjections[1..];
      }
      pendingInjections := pendingInjections + [o];
    }

    method Defer(o: Observation, minutes: int, now: int)
      requires Valid()
      modifies this
      ensures Valid() && State() == Engine.Defer(old(State()), o, minutes, now)
    {
      var recheckAt := now + minutes * MS_PER_MINUTE;
      OrderedMaps.SetValid(deferredItems, o.id, Deferral(o, recheckAt));
      deferredItems := deferredItems.Set(o.id, Deferral(o, recheckAt));
    }

    /** Move what is due to the end of the injection queue, whatever its length. */
    method DrainDue(now: int)
      requires Valid()
      modifies this`pendingInjections, this`deferredItems
      ensures Valid()
      ensures pendingInjections == old(pendingInjections) + Due(old(deferredItems), now)
      ensures deferredItems == Drained(old(deferredItems), now)
    {
      ghost var table := deferredItems;
      var keys, items := deferredItems.keys, deferredItems.items;
      var i := 0;
      while i < |keys|
        invariant 0 <= i <= |keys|
        invariant pendingInjections == old(pendingInjections) + DueAmong(keys, i, items, now)
        invariant deferredItems == DrainedUpTo(table, i, now)
      {
        if IsDue(items, keys[i], now) {
          pendingInjections := pendingInjections + [items[keys[i]].observation];
          deferredItems := deferredItems.Delete(keys[i]);
        }
        i := i + 1;
      }
      DrainExact(table, now);
    }

    /** The filter of `collect`, which writes the hash table as it reads it. */
    method Sieve(all: seq<Observation>, now: int) returns (kept: seq<Observation>)
      modifies this`recentHashes
      ensures kept == Sift(all, old(recentHashes), now).kept
      ensures recentHashes == Sift(all, old(recentHashes), now).hashes
    {
      kept := [];
      var i := 0;
      assert all[..0] == [];
      while i < |all|
        invariant 0 <= i <= |all|
        invariant kept == Sift(all[..i], old(recentHashes), now).kept
        invariant recentHashes == Sift(all[..i], old(recentHashes), now).hashes
      {
        assert all[..i + 1][..i] == all[..i];
        var h := DedupHash(all[i]);
        if !(h in recentHashes && recentHashes[h] != 0 && now - recentHashes[h] < DEDUP_WINDOW_MS) {
          recentHashes := recentHashes[h := now];
          kept := kept + [all[i]];
        }
        i := i + 1;
      }
      assert all[..i] == all;
    }

    method CollectReports(all: seq<Observation>, reports: seq<Option<seq<Observation>>>)
      returns (more: seq<Observation>)
      ensures more == all + Gathered(reports)
      ensures exists starts: seq<nat> :: Collecting.LaidOut(more[|all|..], reports, starts)
    {
      more := all;
      var i := 0;
      assert reports[..0] == [];
      while i < |reports|
        invariant 0 <= i <= |reports|
        invariant more == all + Gathered(reports[..i])
      {
        assert reports[..i + 1][..i] == reports[..i];
        if reports[i].Some? {
          more := more + reports[i].value;
        }
        i := i + 1;
      }
      assert reports[..i] == reports;
      ghost var starts := Collecting.GatheredExactly(reports);
      assert more[|all|..] == Gathered(reports);
    }

    method Collect(reports: seq<Option<seq<Observation>>>, now: int) returns (batch: seq<Observation>)
      requires Valid()
      modifies this
      ensures Valid()
      ensures batch == Engine.Collect(old(State()), reports, now).batch
      ensures State() == Engine.Collect(old(State()), reports, now).engine
    {
      DrainDue(now);
      var all := pendingInjections;
      pendingInjections := [];
      all := CollectReports(all, reports);
      assert all == Arrivals(old(State()), reports, now);
      recentHashes := Recency.PruneInPlace(recentHashes, now, DEDUP_WINDOW_MS);
      batch := Sieve(all, now);
      batch := StableSort.Sort(batch);
      history := history + batch;
      if |history| > MAX_HISTORY {
        history := history[|history| - MAX_HISTORY..];
      }
    }

    /** The newest `limit` of the history, as the reasoning prompt is shown them; asked for none, the
        slice from minus zero is the whole of it. */
    method GetHistory(limit: nat) returns (recent: seq<Observation>)
      ensures |recent| == (if limit == 0 || |history| <= limit then |history| else limit)
      ensures recent == history[|history| - |recent|..]
    {
      if limit == 0 {
        return history;
      }
      recent := LastN(history, limit);
    }
  }
}
