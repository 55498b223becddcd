/** `ObservationEngine`: a lossy mailbox. `collect` empties it, so whatever a tick then drops is gone. */
module Engine {
  import opened Observations
  import opened OrderedMaps
  import Recency
  import StableSort

  const DEDUP_WINDOW_MS: nat := 60_000
  const MAX_HISTORY: nat := 100
  const MAX_PENDING_INJECTIONS: nat := 100
  const DEDUP_HASH_CHARS: nat := 100
  const MS_PER_MINUTE: nat := 60_000

  datatype Deferral = Deferral(observation: Observation, recheckAt: int)

  datatype EngineState = EngineState(
    recentHashes: map<Fingerprint, int>,
    history: seq<Observation>,
    pending: seq<Observation>,
    deferred: OrderedMap<Deferral>)

  const NEW_ENGINE := EngineState(map[], [], [], OrderedMap([], map[]))

  function DedupHash(o: Observation): Fingerprint { Print(o, DEDUP_HASH_CHARS) }

  // ---------- what each operation does to the state ----------

  function Inject(e: EngineState, o: Observation): EngineState {
    e.(pending := (if |e.pending| >= MAX_PENDING_INJECTIONS then e.pending[1..] else e.pending) + [o])
  }

  function Defer(e: EngineState, o: Observation, minutes: int, now: int): EngineState {
    e.(deferred := e.deferred.Set(o.id, Deferral(o, now + minutes * MS_PER_MINUTE)))
  }

  predicate IsDue(items: map<string, Deferral>, k: string, now: int) {
    k in items && now >= items[k].recheckAt
  }

  /** The deferred observations among the first n keys whose time has passed, in table order. */
  function DueAmong(keys: seq<string>, n: nat, items: map<string, Deferral>, now: int): seq<Observation>
    requires n <= |keys|
  {
    if n == 0 then []
    else
      var k := keys[n - 1];
      DueAmong(keys, n - 1, items, now) + (if IsDue(items, k, now) then [items[k].observation] else [])
  }

  /** The table once the first n keys have been looked at. */
  function DrainedUpTo(table: OrderedMap<Deferral>, n: nat, now: int): OrderedMap<Deferral>
    requires n <= |table.keys|
  {
    if n == 0 then table
    else
      var r := DrainedUpTo(table, n - 1, now);
      if IsDue(table.items, table.keys[n - 1], now) then r.Delete(table.keys[n - 1]) else r
  }

  function Due(table: OrderedMap<Deferral>, now: int): seq<Observation> {
    DueAmong(table.keys, |table.keys|, table.items, now)
  }

  function Drained(table: OrderedMap<Deferral>, now: int): OrderedMap<Deferral> {
    DrainedUpTo(table, |table.keys|, now)
  }

  /** What the observers have to say; one that throws says nothing. */
  function Gathered(reports: seq<Option<seq<Observation>>>): seq<Observation> {
    if reports == [] then []
    else
      var last := reports[|reports| - 1];
      Gathered(reports[..|reports| - 1]) + (if last.Some? then last.value else [])
  }

  /** Returned less than a window ago; an entry made at time 0 counts as none. */
  predicate SeenRecently(hashes: map<Fingerprint, int>, h: Fingerprint, now: int) {
    h in hashes && hashes[h] != 0 && now - hashes[h] < DEDUP_WINDOW_MS
  }

  datatype Sieve = Sieve(kept: seq<Observation>, suppressed: seq<Observation>, hashes: map<Fingerprint, int>)

  function Sift(all: seq<Observation>, hashes: map<Fingerprint, int>, now: int): Sieve {
    if all == [] then Sieve([], [], hashes)
    else
      var r := Sift(all[..|all| - 1], hashes, now);
      var o := all[|all| - 1];
      if SeenRecently(r.hashes, DedupHash(o), now) then r.(suppressed := r.suppressed + [o])
      else Sieve(r.kept + [o], r.suppressed, r.hashes[DedupHash(o) := now])
  }

  datatype Harvest = Harvest(batch: seq<Observation>, suppressed: seq<Observation>, engine: EngineState)

  function Arrivals(e: EngineState, reports: seq<Option<seq<Observation>>>, now: int): seq<Observation>
  {
    e.pending + Due(e.deferred, now) + Gathered(reports)
  }

  /** `collect` after the hashes have been pruned (or not): everything but the pruning. */
  function Reap(e: EngineState, hashes: map<Fingerprint, int>, reports: seq<Option<seq<Observation>>>,
      now: int): Harvest
  {
    var sieve := Sift(Arrivals(e, reports, now), hashes, now);
    var batch := StableSort.Sort(sieve.kept);
    Harvest(batch, sieve.suppressed,
            EngineState(sieve.hashes, LastN(e.history + batch, MAX_HISTORY), [], Drained(e.deferred, now)))
  }

  function Collect(e: EngineState, reports: seq<Option<seq<Observation>>>, now: int): Harvest
  {
    Reap(e, Recency.Prune(e.recentHashes, now, DEDUP_WINDOW_MS), reports, now)
  }

  // ---------- the drain loses nothing and keeps the rest ----------

  lemma {:induction false} DueMembers(keys: seq<string>, n: nat, items: map<string, Deferral>, now: int)
    requires n <= |keys|
    ensures forall i :: 0 <= i < n && IsDue(items, keys[i], now) ==>
              items[keys[i]].observation in DueAmong(keys, n, items, now)
    ensures forall o :: o in DueAmong(keys, n, items, now) ==>
              exists i :: 0 <= i < n && IsDue(items, keys[i], now) && items[keys[i]].observation == o
  {
    if n > 0 {
      DueMembers(keys, n - 1, items, now);
    }
  }

  lemma {:induction false} DrainedValid(table: OrderedMap<Deferral>, n: nat, now: int)
    requires table.Valid() && n <= |table.keys|
    ensures DrainedUpTo(table, n, now).Valid()
  {
    if n > 0 {
      DrainedValid(table, n - 1, now);
      DeleteValid(DrainedUpTo(table, n - 1, now), table.keys[n - 1]);
    }
  }

  lemma {:induction false} DrainedMembers(table: OrderedMap<Deferral>, n: nat, now: int)
    requires n <= |table.keys|
    ensures var r := DrainedUpTo(table, n, now).items;
            && (forall k :: k in r ==> k in table.items && r[k] == table.items[k])
            && (forall k :: k in table.items && !IsDue(table.items, k, now) ==> k in r)
            && (forall i :: 0 <= i < n && IsDue(table.items, table.keys[i], now) ==> table.keys[i] !in r)
  {
    if n > 0 {
      DrainedMembers(table, n - 1, now);
    }
  }

  /** At the first drain at or after its recheck time a deferral leaves the table and arrives; until
      then it stays, untouched. */
  lemma DrainExact(table: OrderedMap<Deferral>, now: int)
    requires table.Valid()
    ensures Drained(table, now).Valid()
    ensures forall k :: k in Drained(table, now).items <==> k in table.items && now < table.items[k].recheckAt
    ensures forall k :: k in Drained(table, now).items ==> Drained(table, now).items[k] == table.items[k]
    ensures forall o :: o in Due(table, now)
              <==> exists k :: k in table.items && now >= table.items[k].recheckAt && table.items[k].observation == o
  {
    var keys, items := table.keys, table.items;
    DrainedValid(table, |keys|, now);
    DrainedMembers(table, |keys|, now);
    DueMembers(keys, |keys|, items, now);
    forall k | k in items && now >= items[k].recheckAt
      ensures items[k].observation in Due(table, now) && k !in Drained(table, now).items {
      assert k in keys;
      var i :| 0 <= i < |keys| && keys[i] == k;
      assert IsDue(items, keys[i], now);
    }
    forall o | o in Due(table, now)
      ensures exists k :: k in items && now >= items[k].recheckAt && items[k].observation == o {
      var i :| 0 <= i < |keys| && IsDue(items, keys[i], now) && items[keys[i]].observation == o;
      assert keys[i] in items;
    }
  }

  // ---------- who survives the deduplication ----------

  /** The independent reading of the filter: an observation is returned when its hash was not seen
      within the window before this collect and nothing ahead of it in the same collect has it. */
  ghost predicate Survives(all: seq<Observation>, i: nat, hashes: map<Fingerprint, int>, now: int)
    requires i < |all|
  {
    && !SeenRecently(hashes, DedupHash(all[i]), now)
    && forall j :: 0 <= j < i ==> DedupHash(all[j]) != DedupHash(all[i])
  }

  ghost function Survivors(all: seq<Observation>, n: nat, hashes: map<Fingerprint, int>, now: int): seq<Observation>
    requires n <= |all|
  {
    if n == 0 then []
    else Survivors(all, n - 1, hashes, now) + (if Survives(all, n - 1, hashes, now) then [all[n - 1]] else [])
  }

  ghost function HashesOf(all: seq<Observation>): set<Fingerprint> {
    if all == [] then {} else HashesOf(all[..|all| - 1]) + {DedupHash(all[|all| - 1])}
  }

  lemma {:induction false} HashesOfMembers(all: seq<Observation>)
    ensures forall j :: 0 <= j < |all| ==> DedupHash(all[j]) in HashesOf(all)
    ensures forall h :: h in HashesOf(all) ==> exists j :: 0 <= j < |all| && DedupHash(all[j]) == h
  {
    if all != [] {
      var front := all[..|all| - 1];
      HashesOfMembers(front);
      forall h | h in HashesOf(all) ensures exists j :: 0 <= j < |all| && DedupHash(all[j]) == h {
        if h in HashesOf(front) {
          var j :| 0 <= j < |front| && DedupHash(front[j]) == h;
          assert DedupHash(all[j]) == h;
        } else {
          assert DedupHash(all[|all| - 1]) == h;
        }
      }
    }
  }

  lemma {:induction false} SiftHashes(all: seq<Observation>, hashes: map<Fingerprint, int>, now: int)
    requires now > 0
    ensures var r := Sift(all, hashes, now);
            && (forall h :: SeenRecently(r.hashes, h, now) <==> SeenRecently(hashes, h, now) || h in HashesOf(all))
            && (forall h :: h in hashes ==> h in r.hashes)
            && (forall h :: h in r.hashes ==> r.hashes[h] == now || (h in hashes && hashes[h] == r.hashes[h]))
  {
    if all != [] {
      SiftHashes(all[..|all| - 1], hashes, now);
    }
  }

  lemma {:induction false} SurvivorsOfPrefix(all: seq<Observation>, more: seq<Observation>, n: nat,
      hashes: map<Fingerprint, int>, now: int)
    requires n <= |all|
    ensures Survivors(all + more, n, hashes, now) == Survivors(all, n, hashes, now)
  {
    if n > 0 {
      SurvivorsOfPrefix(all, more, n - 1, hashes, now);
      assert forall j :: 0 <= j < n ==> (all + more)[j] == all[j];
    }
  }

  lemma {:induction false} SiftExact(all: seq<Observation>, hashes: map<Fingerprint, int>, now: int)
    requires now > 0
    ensures Sift(all, hashes, now).kept == Survivors(all, |all|, hashes, now)
  {
    if all != [] {
      var front, last := all[..|all| - 1], all[|all| - 1];
      assert all == front + [last];
      SiftExact(front, hashes, now);
      SiftHashes(front, hashes, now);
      SurvivorsOfPrefix(front, [last], |front|, hashes, now);
      HashesOfMembers(front);
    }
  }

  /** The filter splits what arrived: nothing is in both halves and nothing is in neither. */
  lemma {:induction false} SiftSplits(all: seq<Observation>, hashes: map<Fingerprint, int>, now: int)
    ensures var r := Sift(all, hashes, now);
            multiset(all) == multiset(r.kept) + multiset(r.suppressed)
  {
    if all != [] {
      assert all == all[..|all| - 1] + [all[|all| - 1]];
      SiftSplits(all[..|all| - 1], hashes, now);
    }
  }
}
