/** Where observations are: in the injection queue, in the deferral table, or in the batch of the
    running tick. These lemmas say what each stretch of a tick moves where. */
module Inventory {
  import opened Observations
  import opened OrderedMaps
  import opened Engine
  import opened Decisions
  import opened Core
  import Scorer
  import StableSort

  type Table = map<string, Deferral>

  ghost function TableWork(t: Table): set<string> {
    set k | k in t && t[k].observation.actionable
  }

  // ---------- putting back ----------

  /** What requeueing the first n of a batch writes into the deferral table. */
  ghost function Back(batch: seq<Observation>, n: nat, minutes: int, now: int): Table
    requires n <= |batch|
  {
    if n == 0 then map[]
    else
      var o, r := batch[n - 1], Back(batch, n - 1, minutes, now);
      if o.actionable then r[o.id := Deferral(o, now + minutes * MS_PER_MINUTE)] else r
  }

  lemma {:induction false} PutBackItems(e: EngineState, batch: seq<Observation>, n: nat, minutes: int, now: int)
    requires n <= |batch|
    ensures PutBack(e, batch, n, minutes, now).deferred.items == e.deferred.items + Back(batch, n, minutes, now)
  {
    if n > 0 {
      PutBackItems(e, batch, n - 1, minutes, now);
    }
  }

  lemma {:induction false} PutBackFrame(e: EngineState, batch: seq<Observation>, n: nat, minutes: int, now: int)
    requires n <= |batch|
    ensures var r := PutBack(e, batch, n, minutes, now);
            r.recentHashes == e.recentHashes && r.history == e.history && r.pending == e.pending
  {
    if n > 0 {
      PutBackFrame(e, batch, n - 1, minutes, now);
    }
  }

  lemma {:induction false} PutBackValid(e: EngineState, batch: seq<Observation>, n: nat, minutes: int, now: int)
    requires n <= |batch| && e.deferred.Valid()
    ensures PutBack(e, batch, n, minutes, now).deferred.Valid()
  {
    if n > 0 {
      PutBackValid(e, batch, n - 1, minutes, now);
      var o := batch[n - 1];
      SetValid(PutBack(e, batch, n - 1, minutes, now).deferred, o.id, Deferral(o, now + minutes * MS_PER_MINUTE));
    }
  }

  /** Requeueing writes Back into the deferral table and touches nothing else of the engine. */
  ghost predicate Gains(before: EngineState, after: EngineState, back: Table) {
    && after.recentHashes == before.recentHashes && after.history == before.history && after.pending == before.pending
    && after.deferred.Valid()
    && after.deferred.items == before.deferred.items + back
  }

  lemma PutBackTable(e: EngineState, batch: seq<Observation>, minutes: int, now: int)
    requires e.deferred.Valid()
    ensures Gains(e, PutBack(e, batch, |batch|, minutes, now), Back(batch, |batch|, minutes, now))
  {
    PutBackItems(e, batch, |batch|, minutes, now);
    PutBackFrame(e, batch, |batch|, minutes, now);
    PutBackValid(e, batch, |batch|, minutes, now);
  }

  lemma {:induction false} BackHas(batch: seq<Observation>, n: nat, i: nat, minutes: int, now: int)
    requires i < n <= |batch| && batch[i].actionable
    ensures batch[i].id in Back(batch, n, minutes, now)
  {
    if i < n - 1 {
      BackHas(batch, n - 1, i, minutes, now);
    }
  }

  /** An entry of what goes back. */
  ghost predicate EntryOf(batch: seq<Observation>, k: string, d: Deferral, at: int) {
    d.recheckAt == at && d.observation in batch && d.observation.id == k && d.observation.actionable
  }

  lemma {:induction false} BackIsFrom(batch: seq<Observation>, n: nat, minutes: int, now: int, k: string)
    requires n <= |batch| && k in Back(batch, n, minutes, now)
    ensures EntryOf(batch, k, Back(batch, n, minutes, now)[k], now + minutes * MS_PER_MINUTE)
  {
    if batch[n - 1].actionable && batch[n - 1].id == k {
      assert batch[n - 1] in batch;
    } else {
      BackIsFrom(batch, n - 1, minutes, now, k);
    }
  }

  lemma BackExact(batch: seq<Observation>, minutes: int, now: int)
    ensures var b := Back(batch, |batch|, minutes, now);
            && b.Keys == ActionableIds(batch) && TableWork(b) == ActionableIds(batch)
            && (forall k :: k in b ==>
                 && b[k].recheckAt == now + minutes * MS_PER_MINUTE
                 && b[k].observation in batch && b[k].observation.id == k && b[k].observation.actionable)
  {
    var b := Back(batch, |batch|, minutes, now);
    IdsExact(batch);
    forall k | k in b ensures EntryOf(batch, k, b[k], now + minutes * MS_PER_MINUTE) && k in ActionableIds(batch) {
      BackIsFrom(batch, |batch|, minutes, now, k);
    }
    forall k | k in ActionableIds(batch) ensures k in b {
      var o :| o in batch && o.id == k && o.actionable;
      var i :| 0 <= i < |batch| && batch[i] == o;
      BackHas(batch, |batch|, i, minutes, now);
    }
  }

  lemma OutsideIds(batch: seq<Observation>, ids: set<string>)
    ensures ActionableIds(Outside(batch, ids)) == ActionableIds(batch) - ids
    ensures forall o :: o in Outside(batch, ids) ==> o in batch && o.id !in ids
  {
    KeepMembers(batch, |batch|, ids, false);
    IdsExact(batch);
    IdsExact(Outside(batch, ids));
    assert forall o :: o in batch && o.id !in ids ==> o in Outside(batch, ids);
  }

  // ---------- collect ----------

  lemma {:induction false} SiftKeepsIds(all: seq<Observation>, hashes: map<Fingerprint, int>, now: int)
    ensures var r := Sift(all, hashes, now);
            && Ids(r.kept) + Ids(r.suppressed) == Ids(all)
            && ActionableIds(r.kept) + ActionableIds(r.suppressed) == ActionableIds(all)
            && (forall o :: o in r.kept || o in r.suppressed <==> o in all)
  {
    if all != [] {
      var front, last := all[..|all| - 1], all[|all| - 1];
      assert all == front + [last];
      SiftKeepsIds(front, hashes, now);
      SnocIds(front, last);
      var f := Sift(front, hashes, now);
      SnocIds(f.kept, last);
      SnocIds(f.suppressed, last);
    }
  }

  lemma {:induction false} SiftDistinct(all: seq<Observation>, hashes: map<Fingerprint, int>, now: int)
    requires Distinct(all)
    ensures var r := Sift(all, hashes, now);
            Distinct(r.kept) && Distinct(r.suppressed) && Ids(r.kept) !! Ids(r.suppressed)
  {
    if all != [] {
      var front, last := all[..|all| - 1], all[|all| - 1];
      assert all == front + [last];
      SnocDistinct(front, last);
      SiftDistinct(front, hashes, now);
      SiftKeepsIds(front, hashes, now);
      var f := Sift(front, hashes, now);
      SnocIds(f.kept, last);
      SnocIds(f.suppressed, last);
      SnocDistinct(f.kept, last);
      SnocDistinct(f.suppressed, last);
    }
  }

  /** Every key of the table is the id of the observation under it. */
  ghost predicate Keyed(t: Table) {
    forall k :: k in t ==> t[k].observation.id == k
  }

  lemma OneMoreDue(keys: seq<string>, n: nat, items: Table, now: int)
    requires 0 < n <= |keys| && Keyed(items)
    ensures Ids(DueAmong(keys, n, items, now)) ==
            Ids(DueAmong(keys, n - 1, items, now)) + (if IsDue(items, keys[n - 1], now) then {keys[n - 1]} else {})
  {
    var before := DueAmong(keys, n - 1, items, now);
    if IsDue(items, keys[n - 1], now) {
      SnocIds(before, items[keys[n - 1]].observation);
    } else {
      assert before + [] == before;
    }
  }

  lemma {:induction false} DueKeyUpTo(keys: seq<string>, n: nat, items: Table, now: int, k: string)
    requires n <= |keys| && Keyed(items) && k in Ids(DueAmong(keys, n, items, now))
    ensures exists i :: 0 <= i < n && keys[i] == k
  {
    if n > 0 {
      OneMoreDue(keys, n, items, now);
      if k in Ids(DueAmong(keys, n - 1, items, now)) {
        DueKeyUpTo(keys, n - 1, items, now, k);
      }
    }
  }

  lemma {:induction false} DueDistinctUpTo(keys: seq<string>, n: nat, items: Table, now: int)
    requires n <= |keys| && NoRepeats(keys) && Keyed(items)
    ensures Distinct(DueAmong(keys, n, items, now))
  {
    if n > 0 {
      DueDistinctUpTo(keys, n - 1, items, now);
      if IsDue(items, keys[n - 1], now) {
        if keys[n - 1] in Ids(DueAmong(keys, n - 1, items, now)) {
          DueKeyUpTo(keys, n - 1, items, now, keys[n - 1]);
        }
        SnocDistinct(DueAmong(keys, n - 1, items, now), items[keys[n - 1]].observation);
      }
    }
  }

  /** The due observations carry exactly the keys that leave the table. */
  lemma DueIds(t: OrderedMap<Deferral>, now: int)
    requires t.Valid() && Keyed(t.items)
    ensures Distinct(Due(t, now))
    ensures Ids(Due(t, now)) == t.items.Keys - Drained(t, now).items.Keys
    ensures ActionableIds(Due(t, now)) == TableWork(t.items) - TableWork(Drained(t, now).items)
    ensures forall o :: o in Due(t, now) ==>
              o.id in t.items && t.items[o.id].observation == o && now >= t.items[o.id].recheckAt
  {
    DueDistinctUpTo(t.keys, |t.keys|, t.items, now);
    DrainExact(t, now);
    IdsExact(Due(t, now));
    var d, left := Due(t, now), Drained(t, now).items;
    forall k | k in t.items.Keys - left.Keys ensures k in Ids(d) {
      assert t.items[k].observation in d;
    }
    forall k | k in TableWork(t.items) - TableWork(left) ensures k in ActionableIds(d) {
      assert t.items[k].observation in d;
    }
  }

  /** A collect over distinct arrivals: the batch and what it suppressed are those arrivals, split. */
  lemma CollectSplits(e: EngineState, reports: seq<Option<seq<Observation>>>, now: int)
    requires e.deferred.Valid() && Keyed(e.deferred.items)
    requires Distinct(Arrivals(e, reports, now))
    ensures var h := Collect(e, reports, now);
            && h.engine.pending == [] && h.engine.deferred == Drained(e.deferred, now)
            && Distinct(h.batch) && Distinct(h.suppressed) && Ids(h.batch) !! Ids(h.suppressed)
            && Ids(h.batch) + Ids(h.suppressed) == Ids(Arrivals(e, reports, now))
            && ActionableIds(h.batch) + ActionableIds(h.suppressed) == ActionableIds(Arrivals(e, reports, now))
            && (forall o :: o in h.batch || o in h.suppressed <==> o in Arrivals(e, reports, now))
  {
    var hashes := Recency.Prune(e.recentHashes, now, DEDUP_WINDOW_MS);
    var all := Arrivals(e, reports, now);
    SiftKeepsIds(all, hashes, now);
    SiftDistinct(all, hashes, now);
    StableSort.SortKeepsIds(Sift(all, hashes, now).kept);
  }

  import Recency

  // ---------- decide and act ----------

  ghost function PutOffBack(batch: seq<Observation>, top: Observation, minutes: int, restMinutes: int,
      now: int): Table {
    var rest := Outside(batch, {top.id});
    map[top.id := Deferral(top, now + minutes * MS_PER_MINUTE)] + Back(rest, |rest|, restMinutes, now)
  }

  /** What the reply puts into the deferral table. */
  ghost function ActBack(rounds: map<string, nat>, batch: seq<Observation>, ranked: seq<Observation>, v: Verdict,
      now: int): Table
    requires ranked != []
  {
    match v
    case Unusable | Unreadable(_) =>
      Back(batch, |batch|, if ChargeUnparsed(rounds, batch).exhausted then 60 else 1, now)
    case Refused(_) | SubmitFailed => Back(batch, |batch|, 1, now)
    case Submitted(_, credited, _) =>
      var rest := Outside(batch, Ids(credited));
      Back(rest, |rest|, 1, now)
    case Postponed => PutOffBack(batch, ranked[0], 5, 5, now)
    case PutOff(minutes) => PutOffBack(batch, ranked[0], minutes, 1, now)
    case Spoke(_) | Adjusted(_) | Waited => map[]
  }

  lemma DeferTable(e: EngineState, o: Observation, minutes: int, now: int)
    requires e.deferred.Valid()
    ensures Gains(e, Engine.Defer(e, o, minutes, now), map[o.id := Deferral(o, now + minutes * MS_PER_MINUTE)])
  {
    SetValid(e.deferred, o.id, Deferral(o, now + minutes * MS_PER_MINUTE));
  }

  lemma GainsTwice(a: EngineState, b: EngineState, c: EngineState, m: Table, n: Table)
    requires Gains(a, b, m) && Gains(b, c, n)
    ensures Gains(a, c, m + n)
  {
    MergeTwice(a.deferred.items, m, n);
  }

  lemma MergeTwice(a: Table, m: Table, n: Table)
    ensures a + m + n == a + (m + n)
  {
  }

  lemma PutOffTopTable(c: CoreState, batch: seq<Observation>, ranked: seq<Observation>, top: int, rest: int, now: int)
    requires ranked != [] && c.engine.deferred.Valid()
    ensures Gains(c.engine, PutOffTop(c, batch, ranked, top, rest, now).engine,
                  PutOffBack(batch, ranked[0], top, rest, now))
  {
    var e := Engine.Defer(c.engine, ranked[0], top, now);
    var left := Outside(batch, {ranked[0].id});
    var put := map[ranked[0].id := Deferral(ranked[0], now + top * MS_PER_MINUTE)];
    DeferTable(c.engine, ranked[0], top, now);
    PutBackTable(e, left, rest, now);
    GainsTwice(c.engine, e, PutBack(e, left, |left|, rest, now), put, Back(left, |left|, rest, now));
  }

  /** The reply touches nothing of the engine but the deferral table, which gains exactly ActBack. */
  lemma ActTable(c: CoreState, batch: seq<Observation>, ranked: seq<Observation>, v: Verdict, now: int)
    requires ranked != [] && c.engine.deferred.Valid()
    ensures Gains(c.engine, Act(c, batch, ranked, v, now).core.engine, ActBack(c.unparsedRounds, batch, ranked, v, now))
  {
    match v
    case Unusable | Unreadable(_) =>
      PutBackTable(c.engine, batch, if ChargeUnparsed(c.unparsedRounds, batch).exhausted then 60 else 1, now);
    case Refused(_) | SubmitFailed => PutBackTable(c.engine, batch, 1, now);
    case Submitted(_, credited, _) => PutBackTable(c.engine, Outside(batch, Ids(credited)), 1, now);
    case Postponed => PutOffTopTable(c, batch, ranked, 5, 5, now);
    case PutOff(minutes) => PutOffTopTable(c, batch, ranked, minutes, 1, now);
    case Spoke(_) | Adjusted(_) | Waited =>
  }

  /** The ids a verdict settles for good: their observations do not go back. */
  ghost function SettledIds(batch: seq<Observation>, v: Verdict): set<string> {
    match v
    case Submitted(_, credited, _) => Ids(credited)
    case Adjusted(_) | Waited => Ids(batch)
    case _ => {}
  }

  /** The top of the ranking is a scored copy of a batch member. */
  ghost predicate TopFromBatch(batch: seq<Observation>, ranked: seq<Observation>) {
    ranked != [] && exists o :: o in batch && Scorer.SameButPriority(o, ranked[0])
  }

  /** Of the batch's actionable observations, each goes back or is settled, and none does both; what
      goes back is a batch member (but for its score) and waits at least a minute. */
  ghost predicate Conserves(batch: seq<Observation>, settled: set<string>, back: Table, now: int) {
    && TableWork(back) == ActionableIds(batch) - settled
    && back.Keys <= Ids(batch) && back.Keys !! settled
    && Keyed(back)
    && (forall k :: k in back ==> back[k].recheckAt >= now + MS_PER_MINUTE)
    && (forall k :: k in back ==> exists o :: o in batch && Scorer.SameButPriority(o, back[k].observation))
  }

  lemma RequeueConserves(batch: seq<Observation>, settled: set<string>, minutes: int, now: int)
    requires minutes >= 1
    ensures var rest := Outside(batch, settled);
            Conserves(batch, settled, Back(rest, |rest|, minutes, now), now)
  {
    var rest := Outside(batch, settled);
    var back := Back(rest, |rest|, minutes, now);
    BackExact(rest, minutes, now);
    OutsideIds(batch, settled);
    IdsExact(batch);
    forall k | k in back
      ensures k in Ids(batch) && k !in settled
      ensures exists o :: o in batch && Scorer.SameButPriority(o, back[k].observation) {
      assert back[k].observation in rest;
      assert Scorer.SameButPriority(back[k].observation, back[k].observation);
    }
  }

  lemma RequeueAllConserves(batch: seq<Observation>, minutes: int, now: int)
    requires minutes >= 1
    ensures Conserves(batch, {}, Back(batch, |batch|, minutes, now), now)
  {
    RequeueConserves(batch, {}, minutes, now);
    OutsideNothing(batch);
  }

  lemma {:induction false} KeepAll(s: seq<Observation>, n: nat)
    requires n <= |s|
    ensures Keep(s, n, {}, false) == s[..n]
  {
    if n > 0 {
      KeepAll(s, n - 1);
    }
  }

  lemma OutsideNothing(s: seq<Observation>)
    ensures Outside(s, {}) == s
  {
    KeepAll(s, |s|);
    assert s[..|s|] == s;
  }

  lemma DistinctById(batch: seq<Observation>, a: Observation, b: Observation)
    requires Distinct(batch) && a in batch && b in batch && a.id == b.id
    ensures a == b
  {
  }

  lemma TopAndRestConserve(batch: seq<Observation>, o: Observation, top: Observation, at: int, others: Table,
      back: Table, now: int)
    requires Distinct(batch) && o in batch && Scorer.SameButPriority(o, top)
    requires Conserves(batch, {top.id}, others, now) && at >= now + MS_PER_MINUTE
    requires back == map[top.id := Deferral(top, at)] + others
    ensures Conserves(batch, {}, back, now)
  {
    var id := top.id;
    assert o.id == id && o.actionable == top.actionable;
    assert back.Keys == others.Keys + {id} && id !in others;
    assert TableWork(back) == TableWork(others) + (if top.actionable then {id} else {});
    IdsExact(batch);
    assert id in ActionableIds(batch) <==> top.actionable by {
      if id in ActionableIds(batch) {
        var p :| p in batch && p.id == id && p.actionable;
        DistinctById(batch, o, p);
      }
    }
  }

  lemma PutOffConserves(batch: seq<Observation>, ranked: seq<Observation>, top: int, rest: int, back: Table, now: int)
    requires TopFromBatch(batch, ranked) && Distinct(batch) && top >= 1 && rest >= 1
    requires back == PutOffBack(batch, ranked[0], top, rest, now)
    ensures Conserves(batch, {}, back, now)
  {
    var left := Outside(batch, {ranked[0].id});
    RequeueConserves(batch, {ranked[0].id}, rest, now);
    var o :| o in batch && Scorer.SameButPriority(o, ranked[0]);
    TopAndRestConserve(batch, o, ranked[0], now + top * MS_PER_MINUTE, Back(left, |left|, rest, now), back, now);
  }

  lemma DischargeConserves(batch: seq<Observation>, now: int)
    ensures Conserves(batch, Ids(batch), map[], now)
  {
  }

  lemma EndedActConserves(rounds: map<string, nat>, batch: seq<Observation>, ranked: seq<Observation>, v: Verdict,
      now: int)
    requires TopFromBatch(batch, ranked) && Distinct(batch)
    requires !v.Spoke? && (v.PutOff? ==> v.minutes >= 1)
    ensures Conserves(batch, SettledIds(batch, v), ActBack(rounds, batch, ranked, v, now), now)
  {
    if v.Postponed? || v.PutOff? {
      PutOffConserves(batch, ranked, if v.PutOff? then v.minutes else 5, if v.PutOff? then 1 else 5,
                      ActBack(rounds, batch, ranked, v, now), now);
    } else if v.Adjusted? || v.Waited? {
      DischargeConserves(batch, now);
    } else if v.Submitted? {
      RequeueConserves(batch, Ids(v.credited), 1, now);
    } else {
      var charged := v.Unusable? || v.Unreadable?;
      RequeueAllConserves(batch, if charged && ChargeUnparsed(rounds, batch).exhausted then 60 else 1, now);
    }
  }

  /** What stays with the tick: while a message is on its way, the whole batch. */
  ghost function StayingIds(batch: seq<Observation>, v: Verdict): set<string> {
    if v.Spoke? then Ids(batch) else {}
  }

  /** ONE-TICK CONSERVATION, on every arm: each actionable observation of the batch goes back, is settled
      or stays with the tick, and what goes back does neither of the others. */
  lemma ActConserves(rounds: map<string, nat>, batch: seq<Observation>, ranked: seq<Observation>, v: Verdict, now: int)
    requires TopFromBatch(batch, ranked) && Distinct(batch) && (v.PutOff? ==> v.minutes >= 1)
    ensures Conserves(batch, SettledIds(batch, v) + StayingIds(batch, v), ActBack(rounds, batch, ranked, v, now), now)
    ensures SettledIds(batch, v) !! StayingIds(batch, v)
    ensures StayingIds(batch, v) != {} ==>
              forall c: CoreState :: Act(c, batch, ranked, v, now).phase == Notifying(batch)
  {
    if v.Spoke? {
      DischargeConserves(batch, now);
      assert {} + Ids(batch) == Ids(batch);
    } else {
      EndedActConserves(rounds, batch, ranked, v, now);
      assert SettledIds(batch, v) + {} == SettledIds(batch, v);
    }
  }
}
