/** What the engine does over a whole run of injections, deferrals and collects. */
module EngineRuns {
  import opened Observations
  import opened Engine
  import OrderedMaps
  import Recency
  import StableSort

  datatype Op =
    | Injected(o: Observation)
    | Deferred(o: Observation, minutes: int, at: int)
    | Collected(reports: seq<Option<seq<Observation>>>, at: int)

  type Run = seq<Op>

  /** The engine as written: the hash table is pruned before every filter. */
  function Apply(e: EngineState, op: Op): (r: EngineState)
    requires e.deferred.Valid()
    ensures r.deferred.Valid()
  {
    match op
    case Injected(o) => Inject(e, o)
    case Deferred(o, minutes, at) =>
      OrderedMaps.SetValid(e.deferred, o.id, Deferral(o, at + minutes * MS_PER_MINUTE));
      Defer(e, o, minutes, at)
    case Collected(reports, at) =>
      DrainExact(e.deferred, at);
      Collect(e, reports, at).engine
  }

  function After(run: Run): (e: EngineState)
    ensures e.deferred.Valid()
  {
    if run == [] then NEW_ENGINE else Apply(After(run[..|run| - 1]), run[|run| - 1])
  }

  /** The engine as meant: a table of the last return time of every hash ever seen. */
  ghost function ApplyUnpruned(e: EngineState, op: Op): (r: EngineState)
    requires e.deferred.Valid()
    ensures r.deferred.Valid()
  {
    match op
    case Collected(reports, at) =>
      DrainExact(e.deferred, at);
      Reap(e, e.recentHashes, reports, at).engine
    case _ => Apply(e, op)
  }

  ghost function AfterUnpruned(run: Run): (e: EngineState)
    ensures e.deferred.Valid()
  {
    if run == [] then NEW_ENGINE else ApplyUnpruned(AfterUnpruned(run[..|run| - 1]), run[|run| - 1])
  }

  /** Every batch returned so far, end to end. */
  ghost function Returned(run: Run): seq<Observation> {
    if run == [] then []
    else
      var before, op := run[..|run| - 1], run[|run| - 1];
      if op.Collected? then Returned(before) + Collect(After(before), op.reports, op.at).batch
      else Returned(before)
  }

  ghost function ReturnedUnpruned(run: Run): seq<Observation> {
    if run == [] then []
    else
      var before, op := run[..|run| - 1], run[|run| - 1];
      if op.Collected? then
        ReturnedUnpruned(before)
        + Reap(AfterUnpruned(before), AfterUnpruned(before).recentHashes, op.reports, op.at).batch
      else ReturnedUnpruned(before)
  }

  /** The injections no collect has drained yet. */
  ghost function InjectedSince(run: Run): seq<Observation> {
    if run == [] || run[|run| - 1].Collected? then []
    else
      var op := run[|run| - 1];
      InjectedSince(run[..|run| - 1]) + (if op.Injected? then [op.o] else [])
  }

  ghost function ClockAfter(run: Run): int {
    if run == [] then 1
    else
      var op := run[|run| - 1];
      if op.Collected? then op.at else ClockAfter(run[..|run| - 1])
  }

  /** Collects happen on a positive clock that never runs back. */
  ghost predicate Timely(run: Run) {
    run == [] ||
    (Timely(run[..|run| - 1]) &&
     (run[|run| - 1].Collected? ==> run[|run| - 1].at >= ClockAfter(run[..|run| - 1])))
  }

  lemma {:induction false} ClockPositive(run: Run)
    requires Timely(run)
    ensures ClockAfter(run) > 0
  {
    if run != [] {
      ClockPositive(run[..|run| - 1]);
    }
  }

  // ---------- pruning is invisible ----------

  lemma {:induction false} SiftRefines(all: seq<Observation>, pruned: map<Fingerprint, int>,
      full: map<Fingerprint, int>, now: int)
    requires Recency.Covers(pruned, full, now, DEDUP_WINDOW_MS)
    ensures Sift(all, pruned, now).kept == Sift(all, full, now).kept
    ensures Recency.Covers(Sift(all, pruned, now).hashes, Sift(all, full, now).hashes, now, DEDUP_WINDOW_MS)
  {
    if all != [] {
      SiftRefines(all[..|all| - 1], pruned, full, now);
    }
  }

  lemma {:induction false} PruningInvisibleStep(run: Run)
    requires Timely(run)
    ensures var e, u := After(run), AfterUnpruned(run);
            && e.(recentHashes := u.recentHashes) == u
            && Recency.Covers(e.recentHashes, u.recentHashes, ClockAfter(run), DEDUP_WINDOW_MS)
    ensures Returned(run) == ReturnedUnpruned(run)
  {
    if run != [] {
      var before, op := run[..|run| - 1], run[|run| - 1];
      PruningInvisibleStep(before);
      var e, u := After(before), AfterUnpruned(before);
      if op.Collected? {
        var pruned := Recency.Prune(e.recentHashes, op.at, DEDUP_WINDOW_MS);
        Recency.CoversPrune(e.recentHashes, u.recentHashes, ClockAfter(before), op.at, DEDUP_WINDOW_MS);
        SiftRefines(Arrivals(e, op.reports, op.at), pruned, u.recentHashes, op.at);
      }
    }
  }

  /** Over any run, the lazily pruned table returns exactly what a table of every hash ever seen
      would: the same batches, the same queue, history and deferrals. */
  lemma {:induction false} PruningIsInvisible(run: Run)
    requires Timely(run)
    ensures Returned(run) == ReturnedUnpruned(run)
    ensures After(run).pending == AfterUnpruned(run).pending
    ensures After(run).history == AfterUnpruned(run).history
    ensures After(run).deferred == AfterUnpruned(run).deferred
  {
    PruningInvisibleStep(run);
  }

  // ---------- the queue and the history are exact suffixes ----------

  /** Between calls the queue is the newest 100 injections since the last collect, and the history
      is the newest 100 of all that was ever returned. */
  lemma {:induction false} QueueAndHistoryAreSuffixes(run: Run)
    ensures After(run).pending == LastN(InjectedSince(run), 100)
    ensures After(run).history == LastN(Returned(run), 100)
  {
    if run != [] {
      var before, op := run[..|run| - 1], run[|run| - 1];
      QueueAndHistoryAreSuffixes(before);
      match op
      case Injected(o) =>
        LastNCompose(InjectedSince(before), [o], MAX_PENDING_INJECTIONS);
      case Deferred(_, _, _) =>
      case Collected(reports, at) =>
        LastNCompose(Returned(before), Collect(After(before), reports, at).batch, MAX_HISTORY);
    }
  }

  // ---------- two returns of one hash are a minute apart ----------

  datatype Return = Return(hash: Fingerprint, at: int)

  ghost function ReturnsOf(batch: seq<Observation>, at: int): seq<Return> {
    seq(|batch|, i requires 0 <= i < |batch| => Return(DedupHash(batch[i]), at))
  }

  /** Every return over the run, stamped with the time of its collect. */
  ghost function ReturnLog(run: Run): seq<Return> {
    if run == [] then []
    else
      var before, op := run[..|run| - 1], run[|run| - 1];
      if op.Collected? then ReturnLog(before) + ReturnsOf(Collect(After(before), op.reports, op.at).batch, op.at)
      else ReturnLog(before)
  }

  ghost predicate DistinctHashes(batch: seq<Observation>) {
    forall i, j :: 0 <= i < j < |batch| ==> DedupHash(batch[i]) != DedupHash(batch[j])
  }

  lemma {:induction false} SiftKeptDistinct(all: seq<Observation>, hashes: map<Fingerprint, int>, now: int)
    requires now > 0
    ensures var r := Sift(all, hashes, now);
            && DistinctHashes(r.kept)
            && (forall o :: o in r.kept ==> !SeenRecently(hashes, DedupHash(o), now))
            && (forall o :: o in r.kept ==> DedupHash(o) in r.hashes && r.hashes[DedupHash(o)] == now)
            && (forall h :: h in hashes ==> h in r.hashes && (r.hashes[h] == hashes[h] || r.hashes[h] == now))
  {
    if all != [] {
      SiftKeptDistinct(all[..|all| - 1], hashes, now);
    }
  }

  lemma {:induction false} InsertKeepsDistinctHashes(s: seq<Observation>, x: Observation)
    requires DistinctHashes(s) && forall o :: o in s ==> DedupHash(o) != DedupHash(x)
    ensures DistinctHashes(StableSort.Insert(s, x))
    ensures forall o :: o in StableSort.Insert(s, x) <==> o in s || o == x
  {
    if s == [] || s[|s| - 1].priority >= x.priority {
    } else {
      var last, front := s[|s| - 1], s[..|s| - 1];
      assert s == front + [last];
      InsertKeepsDistinctHashes(front, x);
      assert forall i :: 0 <= i < |front| ==> DedupHash(front[i]) != DedupHash(last);
      assert forall i :: 0 <= i <= |front| ==> StableSort.Insert(front, x)[i] in StableSort.Insert(front, x);
    }
  }

  lemma {:induction false} SortKeepsDistinctHashes(s: seq<Observation>)
    requires DistinctHashes(s)
    ensures DistinctHashes(StableSort.Sort(s))
    ensures forall o :: o in StableSort.Sort(s) <==> o in s
  {
    if s != [] {
      var front, x := s[..|s| - 1], s[|s| - 1];
      assert s == front + [x];
      SortKeepsDistinctHashes(front);
      InsertKeepsDistinctHashes(StableSort.Sort(front), x);
    }
  }

  /** Every return on the log is remembered in the unpruned table at its time or a later one. */
  ghost predicate Remembered(log: seq<Return>, full: map<Fingerprint, int>, clock: int) {
    forall i :: 0 <= i < |log| ==>
      log[i].hash in full && 0 < log[i].at <= full[log[i].hash] <= clock
  }

  ghost predicate Spaced(log: seq<Return>) {
    forall i, j :: 0 <= i < j < |log| && log[i].hash == log[j].hash ==>
      log[j].at - log[i].at >= 60_000
  }

  /** The returns of one collect: hashes all different, none seen within the window, all remembered. */
  ghost predicate FreshReturns(added: seq<Return>, before: map<Fingerprint, int>, after: map<Fingerprint, int>,
      now: int) {
    && (forall a, b :: 0 <= a < b < |added| ==> added[a].hash != added[b].hash)
    && (forall a :: 0 <= a < |added| ==>
         added[a].at == now && !SeenRecently(before, added[a].hash, now)
         && added[a].hash in after && after[added[a].hash] == now)
    && (forall h :: h in before ==> h in after && (after[h] == before[h] || after[h] == now))
  }

  lemma CollectReturns(full: map<Fingerprint, int>, all: seq<Observation>, now: int, r: Sieve, added: seq<Return>)
    requires now > 0 && r == Sift(all, full, now) && added == ReturnsOf(StableSort.Sort(r.kept), now)
    ensures FreshReturns(added, full, r.hashes, now)
  {
    SiftKeptDistinct(all, full, now);
    SortKeepsDistinctHashes(r.kept);
    BatchReturns(StableSort.Sort(r.kept), r.kept, full, r.hashes, now, added);
  }

  lemma BatchReturns(batch: seq<Observation>, kept: seq<Observation>, before: map<Fingerprint, int>,
      after: map<Fingerprint, int>, now: int, added: seq<Return>)
    requires DistinctHashes(batch) && (forall o :: o in batch ==> o in kept) && added == ReturnsOf(batch, now)
    requires forall o :: o in kept ==>
               !SeenRecently(before, DedupHash(o), now) && DedupHash(o) in after && after[DedupHash(o)] == now
    requires forall h :: h in before ==> h in after && (after[h] == before[h] || after[h] == now)
    ensures FreshReturns(added, before, after, now)
  {
    forall a | 0 <= a < |added|
      ensures added[a].at == now && !SeenRecently(before, added[a].hash, now)
      ensures added[a].hash in after && after[added[a].hash] == now {
      assert batch[a] in batch;
    }
  }

  lemma CollectSpaced(log: seq<Return>, full: map<Fingerprint, int>, clock: int, now: int, added: seq<Return>,
      after: map<Fingerprint, int>)
    requires Remembered(log, full, clock) && Spaced(log) && 0 < clock <= now
    requires FreshReturns(added, full, after, now)
    ensures Remembered(log + added, after, now) && Spaced(log + added)
  {
  }

  lemma {:induction false} ReturnsSpacedStep(run: Run)
    requires Timely(run)
    ensures Remembered(ReturnLog(run), AfterUnpruned(run).recentHashes, ClockAfter(run))
    ensures Spaced(ReturnLog(run))
  {
    if run != [] {
      var before, op := run[..|run| - 1], run[|run| - 1];
      ReturnsSpacedStep(before);
      if op.Collected? {
        var e, u := After(before), AfterUnpruned(before);
        PruningInvisibleStep(before);
        ClockPositive(before);
        var pruned := Recency.Prune(e.recentHashes, op.at, DEDUP_WINDOW_MS);
        Recency.CoversPrune(e.recentHashes, u.recentHashes, ClockAfter(before), op.at, DEDUP_WINDOW_MS);
        SiftRefines(Arrivals(e, op.reports, op.at), pruned, u.recentHashes, op.at);
        var r := Sift(Arrivals(e, op.reports, op.at), u.recentHashes, op.at);
        var added := ReturnsOf(StableSort.Sort(r.kept), op.at);
        CollectReturns(u.recentHashes, Arrivals(e, op.reports, op.at), op.at, r, added);
        CollectSpaced(ReturnLog(before), u.recentHashes, ClockAfter(before), op.at, added, r.hashes);
      }
    }
  }

  /** Over any run no hash is returned twice within a minute, and so never twice in one batch. */
  lemma ReturnsAreAMinuteApart(run: Run, i: nat, j: nat)
    requires Timely(run)
    requires i < j < |ReturnLog(run)| && ReturnLog(run)[i].hash == ReturnLog(run)[j].hash
    ensures ReturnLog(run)[j].at - ReturnLog(run)[i].at >= 60_000
  {
    ReturnsSpacedStep(run);
  }
}
