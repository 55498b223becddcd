/** What stands behind the fates in the ledger: a superseded observation really had a rival, a
    dropped one really scored low, and no fate is ever taken back. */
module Evidence {
  import opened Observations
  import opened Engine
  import opened Core
  import opened Inventory
  import opened Gate
  import opened Daemon
  import opened Ledger
  import Decisions
  import EngineRuns
  import Recency
  import Scorer

  // ---------- the last return of every hash ----------

  lemma {:induction false} ReturnsAfterExact(last: map<Fingerprint, Return>, batch: seq<Observation>, n: nat, now: int)
    requires n <= |batch| && EngineRuns.DistinctHashes(batch)
    ensures var r := ReturnsAfter(last, batch, n, now);
            && (forall i :: 0 <= i < n ==>
                 DedupHash(batch[i]) in r && r[DedupHash(batch[i])] == Return(batch[i].id, now))
            && (forall h :: h in last ==> h in r)
            && (forall h :: h in r ==>
                 (h in last && r[h] == last[h]) || exists i :: 0 <= i < n && DedupHash(batch[i]) == h)
  {
    if n > 0 {
      ReturnsAfterExact(last, batch, n - 1, now);
      assert DedupHash(batch[n - 1]) == DedupHash(batch[n - 1]);
    }
  }

  /** The hash table knows the time of the last return of every hash it still holds. */
  ghost predicate Tracks(hashes: map<Fingerprint, int>, last: map<Fingerprint, Return>) {
    forall h :: h in hashes ==> h in last && last[h].at == hashes[h]
  }

  ghost predicate LastSound(last: map<Fingerprint, Return>, issued: map<string, Observation>, clock: int) {
    forall h :: h in last ==> last[h].at <= clock && last[h].id in issued && DedupHash(issued[last[h].id]) == h
  }

  /** A deferral outlives the deduplication window of its own last return. */
  ghost predicate NotItsOwnRival(table: Table, issued: map<string, Observation>, last: map<Fingerprint, Return>) {
    forall k :: k in table && k in issued && DedupHash(issued[k]) in last && last[DedupHash(issued[k])].id == k ==>
      last[DedupHash(issued[k])].at + 60_000 <= table[k].recheckAt
  }

  ghost predicate Backed(k: string, f: Fate, issued: map<string, Observation>, minimum: int) {
    match f
    case BelowMinimum(boosted, unboosted) => boosted < minimum && unboosted < minimum
    case Superseded(rival, returnedAt, at) =>
      && rival != k && rival in issued && k in issued
      && DedupHash(issued[rival]) == DedupHash(issued[k])
      && 0 <= at - returnedAt < 60_000
    case _ => true
  }

  ghost predicate AllBacked(fate: map<string, Fate>, issued: map<string, Observation>, minimum: int) {
    forall k :: k in fate ==> Backed(k, fate[k], issued, minimum)
  }

  ghost predicate Evident(s: System, b: Books) {
    && Tracks(s.core.engine.recentHashes, b.last)
    && LastSound(b.last, s.issued, s.clock)
    && NotItsOwnRival(s.core.engine.deferred.items, s.issued, b.last)
    && AllBacked(b.fate, s.issued, s.core.config.minObservationPriority)
  }

  // ---------- a collect ----------

  lemma SnocHashes(s: seq<Observation>, o: Observation)
    ensures HashesOf(s + [o]) == HashesOf(s) + {DedupHash(o)}
  {
  }

  /** An entry of the table after the filter is this collect's, or the one that stood there before. */
  ghost predicate EntryFrom(g: Fingerprint, after: map<Fingerprint, int>, kept: set<Fingerprint>,
      before: map<Fingerprint, int>, now: int)
    requires g in after
  {
    if g in kept then after[g] == now else g in before && after[g] == before[g]
  }

  ghost predicate TableFrom(r: Sieve, before: map<Fingerprint, int>, now: int) {
    forall g :: g in r.hashes ==> EntryFrom(g, r.hashes, HashesOf(r.kept), before, now)
  }

  lemma {:induction false} SiftTable(all: seq<Observation>, hashes: map<Fingerprint, int>, now: int)
    ensures TableFrom(Sift(all, hashes, now), hashes, now)
  {
    if all != [] {
      var front, last := all[..|all| - 1], all[|all| - 1];
      SiftTable(front, hashes, now);
      var r, r' := Sift(front, hashes, now), Sift(all, hashes, now);
      SnocHashes(r.kept, last);
      assert TableFrom(r, hashes, now);
      forall g | g in r'.hashes ensures EntryFrom(g, r'.hashes, HashesOf(r'.kept), hashes, now) {
        if g != DedupHash(last) {
          assert EntryFrom(g, r.hashes, HashesOf(r.kept), hashes, now);
        }
      }
    }
  }

  lemma SameHashes(s: seq<Observation>, t: seq<Observation>)
    requires forall o :: o in s <==> o in t
    ensures HashesOf(s) == HashesOf(t)
  {
    HashesOfMembers(s);
    HashesOfMembers(t);
    forall g | g in HashesOf(s) ensures g in HashesOf(t) {
      var i :| 0 <= i < |s| && DedupHash(s[i]) == g;
      assert s[i] in t;
    }
    forall g | g in HashesOf(t) ensures g in HashesOf(s) {
      var i :| 0 <= i < |t| && DedupHash(t[i]) == g;
      assert t[i] in s;
    }
  }

  /** The hash table after a collect, read off the batch it returned. */
  lemma CollectTable(e: EngineState, reports: seq<Option<seq<Observation>>>, now: int, h: Harvest)
    requires h == Collect(e, reports, now) && now > 0
    ensures EngineRuns.DistinctHashes(h.batch)
    ensures forall g :: g in h.engine.recentHashes ==>
              EntryFrom(g, h.engine.recentHashes, HashesOf(h.batch), e.recentHashes, now)
  {
    var all, pruned := Arrivals(e, reports, now), Recency.Prune(e.recentHashes, now, DEDUP_WINDOW_MS);
    var r := Sift(all, pruned, now);
    SiftTable(all, pruned, now);
    EngineRuns.SiftKeptDistinct(all, pruned, now);
    EngineRuns.SortKeepsDistinctHashes(r.kept);
    SameHashes(r.kept, h.batch);
    forall g | g in h.engine.recentHashes
      ensures EntryFrom(g, h.engine.recentHashes, HashesOf(h.batch), e.recentHashes, now) {
      assert EntryFrom(g, r.hashes, HashesOf(r.kept), pruned, now);
    }
  }

  lemma ArrivalsSeen(e: EngineState, reports: seq<Option<seq<Observation>>>, now: int, h: Harvest, x: Observation)
    requires h == Collect(e, reports, now) && now > 0 && x in Arrivals(e, reports, now)
    ensures SeenRecently(h.engine.recentHashes, DedupHash(x), now)
  {
    var all, pruned := Arrivals(e, reports, now), Recency.Prune(e.recentHashes, now, DEDUP_WINDOW_MS);
    SiftHashes(all, pruned, now);
    HashesOfMembers(all);
    var i :| 0 <= i < |all| && all[i] == x;
    assert DedupHash(all[i]) in HashesOf(all);
  }

  /** The books' last returns after the batch is booked: this collect's, or what stood there before. */
  lemma BookedReturns(last: map<Fingerprint, Return>, batch: seq<Observation>, now: int,
      last': map<Fingerprint, Return>)
    requires EngineRuns.DistinctHashes(batch) && last' == ReturnsAfter(last, batch, |batch|, now)
    ensures forall g :: g in last ==> g in last'
    ensures forall g :: g in HashesOf(batch) ==>
              g in last' && last'[g].at == now && exists o :: o in batch && DedupHash(o) == g && o.id == last'[g].id
    ensures forall g :: g in last' && g !in HashesOf(batch) ==> g in last && last'[g] == last[g]
  {
    ReturnsAfterExact(last, batch, |batch|, now);
    HashesOfMembers(batch);
    forall g | g in HashesOf(batch)
      ensures g in last' && last'[g].at == now && exists o :: o in batch && DedupHash(o) == g && o.id == last'[g].id {
      var i :| 0 <= i < |batch| && DedupHash(batch[i]) == g;
      assert batch[i] in batch;
    }
  }

  lemma TracksAfterCollect(e: EngineState, reports: seq<Option<seq<Observation>>>, now: int,
      last: map<Fingerprint, Return>, h: Harvest, last': map<Fingerprint, Return>)
    requires h == Collect(e, reports, now) && now > 0 && Tracks(e.recentHashes, last)
    requires last' == ReturnsAfter(last, h.batch, |h.batch|, now)
    ensures Tracks(h.engine.recentHashes, last')
  {
    CollectTable(e, reports, now, h);
    BookedReturns(last, h.batch, now, last');
    forall g | g in h.engine.recentHashes ensures g in last' && last'[g].at == h.engine.recentHashes[g] {
      assert EntryFrom(g, h.engine.recentHashes, HashesOf(h.batch), e.recentHashes, now);
    }
  }

  lemma {:induction false} LastAfterCollect(issued: map<string, Observation>, clock: int,
      last: map<Fingerprint, Return>, batch: seq<Observation>, now: int, last': map<Fingerprint, Return>)
    requires EngineRuns.DistinctHashes(batch) && clock <= now
    requires forall o :: o in batch ==> o.id in issued && Scorer.SameButPriority(issued[o.id], o)
    requires LastSound(last, issued, clock) && last' == ReturnsAfter(last, batch, |batch|, now)
    ensures LastSound(last', issued, now)
  {
    BookedReturns(last, batch, now, last');
    forall g | g in last' ensures last'[g].at <= now && last'[g].id in issued && DedupHash(issued[last'[g].id]) == g {
      if g in HashesOf(batch) {
        var o :| o in batch && DedupHash(o) == g && o.id == last'[g].id;
        assert Scorer.SameButPriority(issued[o.id], o);
      }
    }
  }

  /** k has a rival: another observation of its hash, returned less than a minute before now. */
  ghost predicate HasRival(k: string, issued: map<string, Observation>, last: map<Fingerprint, Return>, now: int) {
    && k in issued && DedupHash(issued[k]) in last
    && var r := last[DedupHash(issued[k])];
       r.id != k && 0 <= now - r.at < 60_000
  }

  lemma DueOrNew(e: EngineState, reports: seq<Option<seq<Observation>>>, now: int, issued: map<string, Observation>,
      x: Observation)
    requires e.deferred.Valid() && Placed(e.pending, e.deferred.items, [], issued)
    requires Ids(Gathered(reports)) !! e.deferred.items.Keys
    requires x in Arrivals(e, reports, now) && x.id in e.deferred.items
    ensures e.deferred.items[x.id].observation == x && now >= e.deferred.items[x.id].recheckAt
  {
    IdsExact(e.pending);
    IdsExact(Gathered(reports));
    assert x in Due(e.deferred, now);
    DueIds(e.deferred, now);
  }

  /** What a collect suppresses although it had been handed over before has a rival: it is never
      suppressed by its own earlier return. */
  lemma SuppressedHasRival(e: EngineState, reports: seq<Option<seq<Observation>>>, now: int, clock: int,
      issued: map<string, Observation>, last: map<Fingerprint, Return>, h: Harvest, last': map<Fingerprint, Return>,
      x: Observation)
    requires e.deferred.Valid() && Placed(e.pending, e.deferred.items, [], issued)
    requires Ids(Gathered(reports)) !! e.deferred.items.Keys
    requires x in Arrivals(e, reports, now) && x.id in e.deferred.items && x.id !in Ids(h.batch)
    requires Tracks(e.recentHashes, last) && LastSound(last, issued, clock)
             && NotItsOwnRival(e.deferred.items, issued, last)
    requires 0 < clock <= now
    requires h == Collect(e, reports, now) && last' == ReturnsAfter(last, h.batch, |h.batch|, now)
    ensures HasRival(x.id, issued, last', now)
  {
    var g := DedupHash(x);
    DueOrNew(e, reports, now, issued, x);
    assert DedupHash(issued[x.id]) == g by {
      assert Scorer.SameButPriority(issued[x.id], x);
    }
    ArrivalsSeen(e, reports, now, h, x);
    TracksAfterCollect(e, reports, now, last, h, last');
    CollectTable(e, reports, now, h);
    BookedReturns(last, h.batch, now, last');
    if g in HashesOf(h.batch) {
      var o :| o in h.batch && DedupHash(o) == g && o.id == last'[g].id;
      IdsExact(h.batch);
    } else {
      assert last'[g] == last[g];
    }
  }

  lemma RivalsAfterCollect(e: EngineState, now: int, issued: map<string, Observation>, last: map<Fingerprint, Return>,
      h: Harvest, last': map<Fingerprint, Return>)
    requires e.deferred.Valid() && h.engine.deferred == Drained(e.deferred, now)
    requires h.engine.deferred.items.Keys !! Ids(h.batch)
    requires EngineRuns.DistinctHashes(h.batch) && last' == ReturnsAfter(last, h.batch, |h.batch|, now)
    requires NotItsOwnRival(e.deferred.items, issued, last)
    ensures NotItsOwnRival(h.engine.deferred.items, issued, last')
  {
    BookedReturns(last, h.batch, now, last');
    DrainExact(e.deferred, now);
    forall k | k in h.engine.deferred.items && k in issued && DedupHash(issued[k]) in last'
               && last'[DedupHash(issued[k])].id == k
      ensures last'[DedupHash(issued[k])].at + 60_000 <= h.engine.deferred.items[k].recheckAt {
      var g := DedupHash(issued[k]);
      if g in HashesOf(h.batch) {
        var o :| o in h.batch && DedupHash(o) == g && o.id == k;
        IdsExact(h.batch);
        assert false;
      }
    }
  }

  // ---------- every event keeps the evidence ----------

  lemma IssuedGrows(s: System, b: Books, issued: map<string, Observation>)
    requires forall k :: k in s.issued ==> k in issued && issued[k] == s.issued[k]
    requires s.core.engine.deferred.items.Keys <= s.issued.Keys
    requires LastSound(b.last, s.issued, s.clock) && NotItsOwnRival(s.core.engine.deferred.items, s.issued, b.last)
    requires AllBacked(b.fate, s.issued, s.core.config.minObservationPriority)
    ensures LastSound(b.last, issued, s.clock) && NotItsOwnRival(s.core.engine.deferred.items, issued, b.last)
    ensures AllBacked(b.fate, issued, s.core.config.minObservationPriority)
  {
  }

  /** What was owed and is suppressed is superseded for a reason. */
  lemma SupersededBacked(e: EngineState, env: Surroundings, clock: int, issued: map<string, Observation>, b: Books,
      h: Harvest, last': map<Fingerprint, Return>, minimum: int)
    requires e.deferred.Valid() && Placed(e.pending, e.deferred.items, [], issued)
    requires Balanced(b.owed, b.fate.Keys, e.pending, e.deferred.items, [], issued)
    requires Distinct(Gathered(env.reports)) && Ids(Gathered(env.reports)) !! b.fate.Keys
    requires Ids(Gathered(env.reports)) !! Ids(e.pending) && Ids(Gathered(env.reports)) !! e.deferred.items.Keys
    requires Tracks(e.recentHashes, b.last) && LastSound(b.last, issued, clock)
             && NotItsOwnRival(e.deferred.items, issued, b.last)
    requires LastSound(last', issued, env.now) && 0 < clock <= env.now
    requires h == Collect(e, env.reports, env.now) && last' == ReturnsAfter(b.last, h.batch, |h.batch|, env.now)
    ensures AllBacked(SupersededNow(b, h, last', issued, env.now), issued, minimum)
  {
    var all := Arrivals(e, env.reports, env.now);
    ArrivalsDistinct(e, env.reports, env.now, issued, all);
    CollectSplits(e, env.reports, env.now);
    forall k | k in ActionableIds(h.suppressed) * b.owed ensures HasRival(k, issued, last', env.now) {
      IdsExact(h.suppressed);
      var x :| x in h.suppressed && x.id == k && x.actionable;
      OwedIsTabled(b.owed, b.fate.Keys, e, issued, env, h, k);
      SuppressedHasRival(e, env.reports, env.now, clock, issued, b.last, h, last', x);
    }
    RivalsBack(b, h, last', issued, env.now, minimum);
  }

  lemma RivalsBack(b: Books, h: Harvest, last: map<Fingerprint, Return>, issued: map<string, Observation>, now: int,
      minimum: int)
    requires LastSound(last, issued, now)
    requires forall k :: k in ActionableIds(h.suppressed) * b.owed ==> HasRival(k, issued, last, now)
    ensures AllBacked(SupersededNow(b, h, last, issued, now), issued, minimum)
  {
    var fates := SupersededNow(b, h, last, issued, now);
    FatesExact(h.suppressed, b.owed, Repeat(last, issued, now), fates);
    forall k | k in fates ensures Backed(k, fates[k], issued, minimum) {
      assert HasRival(k, issued, last, now);
    }
  }

  /** An owed id among the arrivals comes from the deferral table. */
  lemma OwedIsTabled(owed: set<string>, fated: set<string>, e: EngineState, issued: map<string, Observation>,
      env: Surroundings, h: Harvest, k: string)
    requires Balanced(owed, fated, e.pending, e.deferred.items, [], issued) && k in owed
    requires e.deferred.Valid() && Placed(e.pending, e.deferred.items, [], issued)
    requires Ids(h.batch) + Ids(h.suppressed) == Ids(Arrivals(e, env.reports, env.now)) && k in Ids(h.suppressed)
    requires Ids(Arrivals(e, env.reports, env.now))
          == Ids(e.pending) + Ids(Due(e.deferred, env.now)) + Ids(Gathered(env.reports))
    requires Ids(Gathered(env.reports)) !! fated
    ensures k in e.deferred.items
  {
    DueIds(e.deferred, env.now);
    assert ActionableIds([]) == {};
    assert TableWork(e.deferred.items) <= e.deferred.items.Keys;
  }

  lemma ObserveEvident(s: System, b: Books, env: Surroundings, s': System, b': Books)
    requires Sound(s) && BalancedSystem(s, b) && Evident(s, b) && Plausible(s, env) && Flight(s.phase) == []
    requires s' == Looked(s, LookingCore(s), env)
    requires b' == if Collects(LookingCore(s), env)
                   then CollectedBooks(b, Harvested(LookingCore(s), env), s'.issued, env.now) else b
    ensures Evident(s', b')
  {
    var core := LookingCore(s);
    ObserveShape(core, env, Observe(core, env));
    SweptBalanced(b.owed, b.fate.Keys, core, env, s.issued, s'.issued);
    RegisterAll(s.issued, Newcomers(core, env), s'.issued);
    PlacedFlight(s.core.engine.pending, s.core.engine.deferred.items, [], s.issued);
    IssuedGrows(s, b, s'.issued);
    if Collects(core, env) {
      CollectEvident(s, b, env, SweptEngine(core, env), Harvested(core, env), s', b');
    }
  }

  lemma {:induction false} CollectEvident(s: System, b: Books, env: Surroundings, e: EngineState, h: Harvest,
      s': System, b': Books)
    requires e.deferred.Valid() && Placed(e.pending, e.deferred.items, [], s'.issued)
    requires Balanced(b.owed, b.fate.Keys, e.pending, e.deferred.items, [], s'.issued)
    requires Distinct(Gathered(env.reports)) && Ids(Gathered(env.reports)) !! b.fate.Keys
    requires forall o :: o in Gathered(env.reports) ==> o.id in s'.issued && s'.issued[o.id] == o
    requires Ids(Gathered(env.reports)) !! Ids(e.pending) && Ids(Gathered(env.reports)) !! e.deferred.items.Keys
    requires Tracks(e.recentHashes, b.last) && LastSound(b.last, s'.issued, s.clock)
    requires NotItsOwnRival(e.deferred.items, s'.issued, b.last)
    requires AllBacked(b.fate, s'.issued, s'.core.config.minObservationPriority)
    requires 0 < s.clock <= env.now == s'.clock
    requires h == Collect(e, env.reports, env.now) && s'.core.engine == h.engine
    requires b' == CollectedBooks(b, h, s'.issued, env.now)
    ensures Evident(s', b')
  {
    var last', minimum := ReturnsAfter(b.last, h.batch, |h.batch|, env.now), s'.core.config.minObservationPriority;
    TracksAfterCollect(e, env.reports, env.now, b.last, h, last');
    ReturnsAfterCollect(e, env, s.clock, s'.issued, b.last, h, last');
    SupersededBacked(e, env, s.clock, s'.issued, b, h, last', minimum);
    MoreBacked(b.fate, SupersededNow(b, h, last', s'.issued, env.now), s'.issued, minimum);
  }

  lemma MoreBacked(fate: map<string, Fate>, more: map<string, Fate>, issued: map<string, Observation>, minimum: int)
    requires AllBacked(fate, issued, minimum) && AllBacked(more, issued, minimum)
    ensures AllBacked(fate + more, issued, minimum)
  {
  }

  /** What the books say of the last returns is true after a collect, and no deferral is its own rival. */
  lemma ReturnsAfterCollect(e: EngineState, env: Surroundings, clock: int, issued: map<string, Observation>,
      last: map<Fingerprint, Return>, h: Harvest, last': map<Fingerprint, Return>)
    requires e.deferred.Valid() && Placed(e.pending, e.deferred.items, [], issued)
    requires Distinct(Gathered(env.reports)) && 0 < clock <= env.now
    requires forall o :: o in Gathered(env.reports) ==> o.id in issued && issued[o.id] == o
    requires Ids(Gathered(env.reports)) !! Ids(e.pending) && Ids(Gathered(env.reports)) !! e.deferred.items.Keys
    requires LastSound(last, issued, clock) && NotItsOwnRival(e.deferred.items, issued, last)
    requires h == Collect(e, env.reports, env.now) && last' == ReturnsAfter(last, h.batch, |h.batch|, env.now)
    ensures LastSound(last', issued, env.now) && NotItsOwnRival(h.engine.deferred.items, issued, last')
  {
    CollectPlaced(e, env.reports, env.now, issued, h);
    CollectTable(e, env.reports, env.now, h);
    LastAfterCollect(issued, clock, last, h.batch, env.now, last');
    RivalsAfterCollect(e, env.now, issued, last, h, last');
  }

  lemma LeavesEvident(s: System, b: Books, s': System, b': Books, settled: set<string>, back: Table, now: int,
      fates: map<string, Fate>)
    requires Sound(s) && Evident(s, b) && Leaves(s, s', settled, back, now) && s.clock <= now && s.clock <= s'.clock
    requires s'.core.config == s.core.config
    requires b' == b.(fate := b.fate + fates) && AllBacked(fates, s.issued, s.core.config.minObservationPriority)
    ensures Evident(s', b')
  {
  }

  lemma DroppedBacked(batch: seq<Observation>, o: Orientation, issued: map<string, Observation>)
    requires Distinct(batch) && RankingOf(batch, o.ranked) && RankingOf(batch, o.scored)
    ensures AllBacked(DroppedNow(batch, o), issued, o.core.config.minObservationPriority)
  {
    var fates := DroppedNow(batch, o);
    IdsExact(batch);
    PrioritiesExact(o.ranked, |o.ranked|);
    PrioritiesExact(o.scored, |o.scored|);
    FatesExact(batch, DroppedIds(batch, o),
               TooLow(PrioritiesUpTo(o.ranked, |o.ranked|), PrioritiesUpTo(o.scored, |o.scored|)), fates);
    forall k | k in fates ensures Backed(k, fates[k], issued, o.core.config.minObservationPriority) {
      var x :| x in batch && x.id == k;
      DroppedScoredLow(batch, o, x);
      var r :| r in o.ranked && r.id == k && r.priority < o.core.config.minObservationPriority;
      var u :| u in o.scored && u.id == k && u.priority < o.core.config.minObservationPriority;
      var i :| 0 <= i < |o.ranked| && o.ranked[i] == r;
      var j :| 0 <= j < |o.scored| && o.scored[j] == u;
      assert PrioritiesUpTo(o.ranked, |o.ranked|)[o.ranked[i].id] == r.priority;
      assert PrioritiesUpTo(o.scored, |o.scored|)[o.scored[j].id] == u.priority;
    }
  }

  lemma GateEvident(s: System, b: Books, e: Event)
    requires Sound(s) && Evident(s, b) && e.Scored? && Enabled(s, e)
    ensures Evident(Next(s, e), Book(b, s, e))
  {
    var batch := s.phase.batch;
    var o := Oriented(s.core, batch, s.phase.scoredAt, e.matches, e.now);
    if !PassesGate(o) {
      var kept := SilencedBy(o, batch);
      var back := Back(kept, |kept|, 5, e.now);
      GateLeaves(s, e, o, kept, back);
      OrientedIsRanking(s.core, batch, s.phase.scoredAt, e.matches, e.now, o);
      DroppedBacked(batch, o, s.issued);
      LeavesEvident(s, b, Next(s, e), Book(b, s, e), DroppedIds(batch, o), back, e.now, DroppedNow(batch, o));
    }
  }

  lemma FailEvident(s: System, b: Books, e: Event, s': System)
    requires Sound(s) && Evident(s, b) && (e.ScoringFailed? || e.ReplyFailed?) && Enabled(s, e)
    requires s' == Next(s, e)
    ensures Evident(s', b)
  {
    FailLeaves(s, e);
    var none: map<string, Fate> := map[];
    assert b.fate + none == b.fate;
    assert s'.core.config == s.core.config && s'.clock == e.now;
    LeavesEvident(s, b, s', b, {}, Back(s.phase.batch, |s.phase.batch|, 1, e.now), e.now, none);
  }

  lemma {:induction false} ActEvident(s: System, b: Books, e: Event, v: Decisions.Verdict, s': System, b': Books)
    requires Sound(s) && Evident(s, b) && e.Replied? && Enabled(s, e) && v == VerdictOf(s, e)
    requires s' == Next(s, e) && b' == b.(fate := b.fate + ActedNow(s.phase.batch, v))
    ensures Evident(s', b')
  {
    var batch := s.phase.batch;
    if v.Spoke? {
      SpokeMovesNothing(s, e, v, s');
      FatesOfAct(batch, v);
      assert b'.fate == b.fate;
    } else {
      var back := ActBack(s.core.unparsedRounds, batch, s.phase.ranked, v, e.now);
      ActLeaves(s, e, v, back);
      ActFrame(s.core, batch, s.phase.ranked, v, e.now);
      FatesOfAct(batch, v);
      LeavesEvident(s, b, s', b', SettledIds(batch, v), back, e.now, ActedNow(batch, v));
    }
  }

  lemma SentEvident(s: System, b: Books, e: Event)
    requires Sound(s) && Evident(s, b) && e.MessageSent? && Enabled(s, e)
    ensures Evident(Next(s, e), Book(b, s, e))
  {
    FatesOfTold(s.phase.batch);
  }

  lemma QuietEvident(s: System, b: Books, e: Event)
    requires Sound(s) && Evident(s, b) && Enabled(s, e) && Quiet(s, e)
    ensures Evident(Next(s, e), b)
  {
    QuietMovesNothing(s, e);
  }

  lemma InjectEvident(s: System, b: Books, o: Observation)
    requires Sound(s) && Evident(s, b) && Enabled(s, Injected(o))
    ensures Evident(Next(s, Injected(o)), b)
  {
  }

  lemma {:induction false} NextEvident(s: System, b: Books, e: Event)
    requires Sound(s) && BalancedSystem(s, b) && Evident(s, b) && Enabled(s, e)
    ensures Evident(Next(s, e), Book(b, s, e))
  {
    if LooksAround(s, e) {
      ObserveEvident(s, b, e.env, Next(s, e), Book(b, s, e));
    } else if Quiet(s, e) {
      QuietEvident(s, b, e);
    } else {
      match e
      case Injected(o) => InjectEvident(s, b, o);
      case Scored(_, _) => GateEvident(s, b, e);
      case ScoringFailed(_) => FailEvident(s, b, e, Next(s, e));
      case Replied(_, _, _, _) => ActEvident(s, b, e, VerdictOf(s, e), Next(s, e), Book(b, s, e));
      case ReplyFailed(_) => FailEvident(s, b, e, Next(s, e));
      case MessageSent => SentEvident(s, b, e);
    }
  }

  /** After any run every fate is backed: what was superseded had a rival, another observation of the
      same source and summary, returned less than a minute before (never its own earlier return); and
      what was dropped at the gate scored below the configured minimum, boosted and unboosted. */
  lemma {:induction false} FatesAreBacked(config: Config, t0: int, run: Run)
    requires t0 > 0 && Legal(config, t0, run)
    ensures Evident(After(config, t0, run), BooksAfter(config, t0, run))
  {
    if run != [] {
      var before := run[..|run| - 1];
      FatesAreBacked(config, t0, before);
      LedgerBalances(config, t0, before);
      NextEvident(After(config, t0, before), BooksAfter(config, t0, before), run[|run| - 1]);
    }
  }
}
