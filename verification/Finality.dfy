/** What a tick is done with stays done with, and what it put off comes back. */
module Finality {
  import opened Observations
  import opened Engine
  import opened Decisions
  import opened Core
  import opened Inventory
  import opened Daemon
  import opened Ledger
  import opened Evidence
  import EngineRuns
  import Gate
  import Recency
  import Scorer
  import StableSort

  /** The ids that are anywhere at all. */
  ghost function Places(s: System): set<string> {
    Ids(s.core.engine.pending) + s.core.engine.deferred.items.Keys + Ids(Flight(s.phase))
  }

  // ---------- nothing comes back from nowhere ----------

  lemma {:induction false} CollectBringsNothingBack(e: EngineState, reports: seq<Option<seq<Observation>>>, now: int,
      issued: map<string, Observation>, h: Harvest)
    requires e.deferred.Valid() && Placed(e.pending, e.deferred.items, [], issued)
    requires Distinct(Gathered(reports))
    requires Ids(Gathered(reports)) !! Ids(e.pending) && Ids(Gathered(reports)) !! e.deferred.items.Keys
    requires h == Collect(e, reports, now)
    ensures Ids(h.batch) + h.engine.deferred.items.Keys
            <= Ids(e.pending) + e.deferred.items.Keys + Ids(Gathered(reports))
    ensures Ids(h.engine.pending) == {}
  {
    ArrivalsDistinct(e, reports, now, issued, Arrivals(e, reports, now));
    CollectSplits(e, reports, now);
    DueIds(e.deferred, now);
    DrainExact(e.deferred, now);
  }

  lemma ObserveBringsNothingBack(s: System, env: Surroundings, s': System)
    requires Sound(s) && Plausible(s, env) && Flight(s.phase) == []
    requires s' == Looked(s, LookingCore(s), env)
    ensures s.issued.Keys <= s'.issued.Keys
    ensures Places(s') * s.issued.Keys <= Places(s)
  {
    var core := LookingCore(s);
    var news := Newcomers(core, env);
    ObserveShape(core, env, Observe(core, env));
    RegisterAll(s.issued, news, s'.issued);
    SweptPlaced(core, env, s.issued, s'.issued);
    ConcatIds(Outcomes(core.tracked.keys, env.tasks, |env.tasks|, env.now), Gathered(env.reports));
    ConcatDistinct(Outcomes(core.tracked.keys, env.tasks, |env.tasks|, env.now), Gathered(env.reports));
    PlacedFlight(s.core.engine.pending, s.core.engine.deferred.items, [], s.issued);
    assert Ids([]) == {};
    if Collects(core, env) {
      CollectBringsNothingBack(SweptEngine(core, env), env.reports, env.now, s'.issued, Harvested(core, env));
    }
  }

  lemma LeavesBringsNothingBack(s: System, s': System, settled: set<string>, back: Table, now: int)
    requires Leaves(s, s', settled, back, now)
    ensures Places(s') <= Places(s)
  {
  }

  lemma ActBringsNothingBack(s: System, e: Event, v: Verdict)
    requires Sound(s) && e.Replied? && Enabled(s, e) && v == VerdictOf(s, e)
    ensures Places(Next(s, e)) <= Places(s)
  {
    if v.Spoke? {
      SpokeMovesNothing(s, e, v, Next(s, e));
    } else {
      var back := ActBack(s.core.unparsedRounds, s.phase.batch, s.phase.ranked, v, e.now);
      ActLeaves(s, e, v, back);
      LeavesBringsNothingBack(s, Next(s, e), SettledIds(s.phase.batch, v), back, e.now);
    }
  }

  lemma GateBringsNothingBack(s: System, e: Event)
    requires Sound(s) && e.Scored? && Enabled(s, e)
    ensures Places(Next(s, e)) <= Places(s)
  {
    var o := Oriented(s.core, s.phase.batch, s.phase.scoredAt, e.matches, e.now);
    if !PassesGate(o) {
      var kept := SilencedBy(o, s.phase.batch);
      var back := Back(kept, |kept|, 5, e.now);
      GateLeaves(s, e, o, kept, back);
      LeavesBringsNothingBack(s, Next(s, e), Gate.DroppedIds(s.phase.batch, o), back, e.now);
    }
  }

  lemma InjectBringsNothingBack(s: System, o: Observation)
    requires Sound(s) && o.id !in s.issued
    ensures Places(Next(s, Injected(o))) <= Places(s) + {o.id}
  {
    assert o.id !in Ids(s.core.engine.pending) by { IdsExact(s.core.engine.pending); }
    InjectIds(s.core.engine, o, Inject(s.core.engine, o).pending);
  }

  /** An observation that has entered and is nowhere now will be nowhere ever after. */
  lemma GoneStaysGone(s: System, e: Event)
    requires Sound(s) && Enabled(s, e)
    ensures s.issued.Keys <= Next(s, e).issued.Keys
    ensures Places(Next(s, e)) * s.issued.Keys <= Places(s)
  {
    if LooksAround(s, e) {
      ObserveBringsNothingBack(s, e.env, Next(s, e));
    } else if Quiet(s, e) {
      QuietMovesNothing(s, e);
    } else {
      match e
      case Injected(o) => InjectBringsNothingBack(s, o);
      case Scored(_, _) => GateBringsNothingBack(s, e);
      case ScoringFailed(now) =>
        FailLeaves(s, e);
        LeavesBringsNothingBack(s, Next(s, e), {}, Back(s.phase.batch, |s.phase.batch|, 1, now), now);
      case Replied(_, _, _, _) => ActBringsNothingBack(s, e, VerdictOf(s, e));
      case ReplyFailed(now) =>
        FailLeaves(s, e);
        LeavesBringsNothingBack(s, Next(s, e), {}, Back(s.phase.batch, |s.phase.batch|, 1, now), now);
      case MessageSent =>
        SentLeaves(s, e, s.clock);
        LeavesBringsNothingBack(s, Next(s, e), Ids(s.phase.batch), map[], s.clock);
    }
  }

  /** GONE IS GONE. However a run goes on, an observation that had entered and was nowhere stays nowhere. */
  lemma {:induction false} GoneForGood(config: Config, t0: int, run: Run, more: Run, k: string)
    requires t0 > 0 && Legal(config, t0, run) && Legal(config, t0, run + more)
    requires k in After(config, t0, run).issued && k !in Places(After(config, t0, run))
    ensures k in After(config, t0, run + more).issued && k !in Places(After(config, t0, run + more))
  {
    if more == [] {
      assert run + more == run;
    } else {
      var front := more[..|more| - 1];
      WasLegal(config, t0, run, more, |more| - 1);
      GoneForGood(config, t0, run, front, k);
      AlwaysSound(config, t0, run + front);
      var s := After(config, t0, run + front);
      var e := GoesOn(config, t0, run, more, s);
      GoneStaysGone(s, e);
    }
  }

  // ---------- at most one goal per answered observation ----------

  ghost function CreditedBy(s: System, e: Event): set<string>
    requires Enabled(s, e)
  {
    if e.Replied? && VerdictOf(s, e).Submitted? then Ids(VerdictOf(s, e).credited) else {}
  }

  /** Every id a submitted goal has been credited with so far. */
  ghost function CreditedAfter(config: Config, t0: int, run: Run): set<string>
    requires Legal(config, t0, run)
  {
    if run == [] then {}
    else
      var before := run[..|run| - 1];
      CreditedAfter(config, t0, before) + CreditedBy(After(config, t0, before), run[|run| - 1])
  }

  lemma CreditedFromBatch(s: System, e: Event)
    requires Sound(s) && Enabled(s, e) && e.Replied? && VerdictOf(s, e).Submitted?
    ensures CreditedBy(s, e) <= Ids(s.phase.batch)
  {
    CreditedExactly(e.d, s.phase.ranked, e.foreground, e.submit);
    IdsExact(VerdictOf(s, e).credited);
    IdsExact(s.phase.ranked);
  }

  lemma CreditedLeave(s: System, e: Event)
    requires Sound(s) && Enabled(s, e)
    ensures CreditedBy(s, e) <= s.issued.Keys
    ensures CreditedBy(s, e) !! Places(Next(s, e))
  {
    if e.Replied? && VerdictOf(s, e).Submitted? {
      var batch, v := s.phase.batch, VerdictOf(s, e);
      var back := ActBack(s.core.unparsedRounds, batch, s.phase.ranked, v, e.now);
      CreditedFromBatch(s, e);
      ActLeaves(s, e, v, back);
      PlacedFlight(s.core.engine.pending, s.core.engine.deferred.items, batch, s.issued);
      assert Ids([]) == {};
    }
  }

  lemma {:induction false} CreditedAreGone(config: Config, t0: int, run: Run)
    requires t0 > 0 && Legal(config, t0, run)
    ensures Sound(After(config, t0, run))
    ensures CreditedAfter(config, t0, run) <= After(config, t0, run).issued.Keys
    ensures CreditedAfter(config, t0, run) !! Places(After(config, t0, run))
  {
    AlwaysSound(config, t0, run);
    if run != [] {
      var before, e := run[..|run| - 1], run[|run| - 1];
      var s := After(config, t0, before);
      CreditedAreGone(config, t0, before);
      GoneStaysGone(s, e);
      CreditedLeave(s, e);
    }
  }

  /** AT MOST ONE GOAL PER ANSWERED OBSERVATION. Over any run, no submitted goal is credited with an
      observation, actionable or not, that an earlier goal was credited with. */
  lemma {:induction false} AtMostOneGoal(config: Config, t0: int, run: Run, s: System, e: Event, credited: set<string>)
    requires t0 > 0 && Legal(config, t0, run) && s == After(config, t0, run) && Enabled(s, e)
    requires credited == CreditedAfter(config, t0, run)
    ensures CreditedBy(s, e) !! credited
  {
    CreditedAreGone(config, t0, run);
    if e.Replied? && VerdictOf(s, e).Submitted? {
      CreditedFromBatch(s, e);
    }
  }

  // ---------- a goal answers real work ----------

  lemma GoalNamesWork(batch: seq<Observation>, ranked: seq<Observation>, d: Decision, foreground: int,
      submit: Option<string>)
    requires Gate.RankingOf(batch, ranked) && Distinct(batch)
    requires Judge(d, ranked, foreground, submit).Submitted?
    ensures || (exists o :: o in batch && o.id in d.named && o.actionable)
            || (d.named == [] && AllActionable(batch))
  {
    GoalAllowedIff(ranked, d.named);
    WhoseIds(batch, ranked, d.named);
  }

  lemma NoneSettledGoesBack(s: System, s': System, back: Table, now: int)
    requires Leaves(s, s', {}, back, now) && AllActionable(Flight(s.phase))
    ensures Ids(Flight(s.phase)) <= s'.core.engine.deferred.items.Keys
  {
    AllActionableIds(Flight(s.phase));
    assert TableWork(back) <= back.Keys;
  }

  lemma UncreditedGoesBack(s: System, e: Event, v: Verdict)
    requires Sound(s) && Enabled(s, e) && e.Replied? && v == VerdictOf(s, e)
    requires v.Submitted? && Ids(v.credited) == {} && AllActionable(s.phase.batch)
    ensures Ids(s.phase.batch) <= Next(s, e).core.engine.deferred.items.Keys
  {
    var back := ActBack(s.core.unparsedRounds, s.phase.batch, s.phase.ranked, v, e.now);
    ActLeaves(s, e, v, back);
    assert SettledIds(s.phase.batch, v) == {};
    NoneSettledGoesBack(s, Next(s, e), back, e.now);
  }

  /** Every goal that is submitted names an actionable observation of its batch, or names nothing and
      its batch is all actionable. It is credited with nothing exactly when it names nothing and
      there is more than one to choose from; then the whole batch goes back, to be decided again. */
  lemma {:induction false} GoalsAnswerRealWork(s: System, e: Event, v: Verdict, batch: seq<Observation>)
    requires Sound(s) && Enabled(s, e) && e.Replied? && v == VerdictOf(s, e) && v.Submitted? && batch == s.phase.batch
    ensures || (exists o :: o in batch && o.id in e.d.named && o.actionable)
            || (e.d.named == [] && AllActionable(batch))
    ensures Ids(v.credited) == {} <==> e.d.named == [] && |batch| >= 2
    ensures Ids(v.credited) == {} ==> Ids(batch) <= Next(s, e).core.engine.deferred.items.Keys
  {
    GoalNamesWork(batch, s.phase.ranked, e.d, e.foreground, e.submit);
    CreditedNone(e.d, s.phase.ranked, e.foreground, e.submit);
    if Ids(v.credited) == {} {
      UncreditedGoesBack(s, e, v);
    }
  }

  lemma CreditedNone(d: Decision, ranked: seq<Observation>, foreground: int, submit: Option<string>)
    requires Judge(d, ranked, foreground, submit).Submitted?
    ensures Ids(Judge(d, ranked, foreground, submit).credited) == {} <==> d.named == [] && |ranked| >= 2
  {
    var credited := Judge(d, ranked, foreground, submit).credited;
    GoalAllowedIff(ranked, d.named);
    CreditedExactly(d, ranked, foreground, submit);
    IdsExact(credited);
    if d.named != [] {
      var o :| o in ranked && o.id in d.named && o.actionable;
      assert o in credited;
    } else if |ranked| == 1 {
      assert ranked[0] in credited;
    }
  }

  lemma AllActionableIds(s: seq<Observation>)
    requires AllActionable(s)
    ensures ActionableIds(s) == Ids(s)
  {
  }

  /** Reading a ranking is reading the batch. */
  lemma WhoseIds(batch: seq<Observation>, ranked: seq<Observation>, named: seq<string>)
    requires Gate.RankingOf(batch, ranked)
    ensures (exists o :: o in ranked && o.id in named && o.actionable)
              <==> (exists o :: o in batch && o.id in named && o.actionable)
    ensures Distinct(batch) && AllActionable(ranked) ==> AllActionable(batch)
  {
    IdsExact(batch);
    IdsExact(ranked);
    if o :| o in batch && o.id in named && o.actionable {
      assert o.id in ActionableIds(ranked);
    }
    if o :| o in ranked && o.id in named && o.actionable {
      assert o.id in ActionableIds(batch);
    }
    if Distinct(batch) && AllActionable(ranked) {
      AllActionableIds(ranked);
      forall o | o in batch ensures o.actionable {
        assert o.id in ActionableIds(batch);
        var p :| p in batch && p.id == o.id && p.actionable;
        DistinctById(batch, o, p);
      }
    }
  }

  // ---------- a decision that asks for nothing still consumes the batch ----------

  /** A readable "wait", an "escalate" without a question and an "adjust" without adjustments settle every
      observation of the batch: none of them goes back. */
  lemma NothingAskedConsumes(s: System, e: Event, v: Verdict, batch: seq<Observation>)
    requires Sound(s) && Enabled(s, e) && e.Replied? && v == VerdictOf(s, e) && v.Waited? && batch == s.phase.batch
    ensures Ids(batch) !! Places(Next(s, e))
    ensures Next(s, e).core.engine == s.core.engine
  {
  }

  // ---------- what was put off comes back ----------

  lemma {:induction false} SurvivorIn(all: seq<Observation>, n: nat, i: nat, hashes: map<Fingerprint, int>, now: int)
    requires i < n <= |all| && Survives(all, i, hashes, now)
    ensures all[i] in Survivors(all, n, hashes, now)
  {
    if i < n - 1 {
      SurvivorIn(all, n - 1, i, hashes, now);
    }
  }

  lemma {:induction false} SurvivorFrom(all: seq<Observation>, n: nat, o: Observation, hashes: map<Fingerprint, int>,
      now: int) returns (i: nat)
    requires n <= |all| && o in Survivors(all, n, hashes, now)
    ensures i < n && all[i] == o && Survives(all, i, hashes, now)
  {
    if o in Survivors(all, n - 1, hashes, now) {
      i := SurvivorFrom(all, n - 1, o, hashes, now);
    } else {
      i := n - 1;
    }
  }

  lemma SurvivorIds(all: seq<Observation>, i: nat, hashes: map<Fingerprint, int>, now: int, kept: seq<Observation>)
    requires Distinct(all) && i < |all| && kept == Survivors(all, |all|, hashes, now)
    ensures all[i].id in Ids(kept) <==> Survives(all, i, hashes, now)
  {
    IdsExact(kept);
    if Survives(all, i, hashes, now) {
      SurvivorIn(all, |all|, i, hashes, now);
    }
    if all[i].id in Ids(kept) {
      var o :| o in kept && o.id == all[i].id;
      var j := SurvivorFrom(all, |all|, o, hashes, now);
      assert i == j;
    }
  }

  lemma PruningKeepsSeen(hashes: map<Fingerprint, int>, now: int, h: Fingerprint)
    ensures SeenRecently(Recency.Prune(hashes, now, DEDUP_WINDOW_MS), h, now) <==> SeenRecently(hashes, h, now)
  {
  }

  /** Whether a collect returns an arrival, read off the arrivals and the table as they stand before. */
  lemma ReturnedIff(e: EngineState, reports: seq<Option<seq<Observation>>>, now: int, all: seq<Observation>, i: nat,
      h: Harvest)
    requires now > 0 && all == Arrivals(e, reports, now) && Distinct(all) && i < |all|
    requires h == Collect(e, reports, now)
    ensures all[i].id in Ids(h.batch) <==> Survives(all, i, e.recentHashes, now)
  {
    var pruned := Recency.Prune(e.recentHashes, now, DEDUP_WINDOW_MS);
    var kept := Sift(all, pruned, now).kept;
    SiftExact(all, pruned, now);
    StableSort.SortKeepsIds(kept);
    SurvivorIds(all, i, pruned, now, kept);
    PruningKeepsSeen(e.recentHashes, now, DedupHash(all[i]));
  }

  /** A hash an earlier return still blocks was returned for another observation than the one waiting. */
  lemma BlockedByAnother(e: EngineState, issued: map<string, Observation>, last: map<Fingerprint, Return>, clock: int,
      now: int, k: string)
    requires Tracks(e.recentHashes, last) && LastSound(last, issued, clock)
             && NotItsOwnRival(e.deferred.items, issued, last)
    requires k in e.deferred.items && k in issued && now >= e.deferred.items[k].recheckAt
    requires SeenRecently(e.recentHashes, DedupHash(issued[k]), now)
    ensures DedupHash(issued[k]) in last
    ensures var r := last[DedupHash(issued[k])];
            && r.id != k && r.id in issued && DedupHash(issued[r.id]) == DedupHash(issued[k])
            && now - r.at < 60_000
  {
  }

  /** WHAT WAS PUT OFF COMES BACK. At a collect a deferral that is not due stays as it was. One that is
      due leaves the table and arrives, once; and it is returned exactly when its hash was not returned
      under a minute ago and nothing that arrives ahead of it has the hash. The guard is read off the
      engine before the call. Where an earlier return blocks it, that was another observation's. */
  lemma {:induction false} DeferralComesBack(s: System, b: Books, e: Event, k: string, all: seq<Observation>,
      s': System)
    requires Sound(s) && Evident(s, b) && Enabled(s, e)
    requires LooksAround(s, e) && Collects(LookingCore(s), e.env)
    requires k in s.core.engine.deferred.items && s' == Next(s, e)
    requires all == Arrivals(SweptEngine(LookingCore(s), e.env), e.env.reports, e.env.now)
    ensures var d, now := s.core.engine.deferred.items[k], e.env.now;
            if now < d.recheckAt
            then k in s'.core.engine.deferred.items && s'.core.engine.deferred.items[k] == d && k !in Ids(all)
            else
              && k !in s'.core.engine.deferred.items
              && d.observation in all && d.observation.id == k && Distinct(all)
              && (forall i :: 0 <= i < |all| && all[i].id == k ==>
                   (k in Ids(Flight(s'.phase)) <==> Survives(all, i, s.core.engine.recentHashes, now)))
              && (SeenRecently(s.core.engine.recentHashes, DedupHash(d.observation), now) ==>
                   && DedupHash(d.observation) in b.last && b.last[DedupHash(d.observation)].id != k)
  {
    var core := LookingCore(s);
    var swept, h := SweptEngine(core, e.env), Harvested(core, e.env);
    ArrivalsApart(s, core, e.env, s'.issued, all);
    DueArrives(swept, e.env.reports, e.env.now, all, h, k);
    CollectedFlight(s, e, s', core, h);
    if e.env.now >= s.core.engine.deferred.items[k].recheckAt {
      forall i | 0 <= i < |all| && all[i].id == k
        ensures k in Ids(h.batch) <==> Survives(all, i, s.core.engine.recentHashes, e.env.now) {
        ReturnedIff(swept, e.env.reports, e.env.now, all, i, h);
      }
      BlockedHash(s, b, e.env.now, k);
    }
  }

  lemma CollectedFlight(s: System, e: Event, s': System, core: CoreState, h: Harvest)
    requires Sound(s) && Enabled(s, e) && LooksAround(s, e) && s' == Next(s, e)
    requires core == LookingCore(s) && Collects(core, e.env) && h == Harvested(core, e.env)
    ensures Flight(s'.phase) == h.batch && s'.core.engine == h.engine
    ensures s'.issued == Register(s.issued, Newcomers(core, e.env), |Newcomers(core, e.env)|)
  {
    ObserveShape(core, e.env, Observe(core, e.env));
  }

  lemma BlockedHash(s: System, b: Books, now: int, k: string)
    requires Sound(s) && Evident(s, b) && k in s.core.engine.deferred.items
    requires now >= s.core.engine.deferred.items[k].recheckAt
    ensures var g := DedupHash(s.core.engine.deferred.items[k].observation);
            SeenRecently(s.core.engine.recentHashes, g, now) ==> g in b.last && b.last[g].id != k
  {
    var d := s.core.engine.deferred.items[k];
    assert DedupHash(s.issued[k]) == DedupHash(d.observation) by {
      assert Scorer.SameButPriority(s.issued[k], d.observation);
    }
    if SeenRecently(s.core.engine.recentHashes, DedupHash(d.observation), now) {
      BlockedByAnother(s.core.engine, s.issued, b.last, s.clock, now, k);
    }
  }

  lemma ArrivalsApart(s: System, core: CoreState, env: Surroundings, issued: map<string, Observation>,
      all: seq<Observation>)
    requires Sound(s) && Plausible(s, env) && core == LookingCore(s) && Flight(s.phase) == []
    requires issued == Register(s.issued, Newcomers(core, env), |Newcomers(core, env)|)
    requires all == Arrivals(SweptEngine(core, env), env.reports, env.now)
    ensures var e := SweptEngine(core, env);
            && e.deferred == s.core.engine.deferred && e.recentHashes == s.core.engine.recentHashes
            && Ids(e.pending) !! e.deferred.items.Keys
            && Ids(Gathered(env.reports)) !! e.deferred.items.Keys
            && Ids(all) == Ids(e.pending) + Ids(Due(e.deferred, env.now)) + Ids(Gathered(env.reports))
    ensures Distinct(all)
  {
    SweptPlaced(core, env, s.issued, issued);
    ReportsApart(s, core, env);
    ArrivalsDistinct(SweptEngine(core, env), env.reports, env.now, issued, all);
  }

  lemma ReportsApart(s: System, core: CoreState, env: Surroundings)
    requires Sound(s) && Plausible(s, env) && core == LookingCore(s)
    ensures Distinct(Gathered(env.reports))
    ensures Ids(Gathered(env.reports)) !! s.core.engine.deferred.items.Keys
  {
    var outs, reps := Outcomes(core.tracked.keys, env.tasks, |env.tasks|, env.now), Gathered(env.reports);
    ConcatIds(outs, reps);
    ConcatDistinct(outs, reps);
    assert s.core.engine.deferred.items.Keys <= s.issued.Keys;
  }

  lemma DueArrives(e: EngineState, reports: seq<Option<seq<Observation>>>, now: int, all: seq<Observation>, h: Harvest,
      k: string)
    requires e.deferred.Valid() && Keyed(e.deferred.items) && k in e.deferred.items
    requires all == Arrivals(e, reports, now) && Distinct(all)
    requires Ids(all) == Ids(e.pending) + Ids(Due(e.deferred, now)) + Ids(Gathered(reports))
    requires k !in Ids(e.pending) && k !in Ids(Gathered(reports))
    requires h == Collect(e, reports, now)
    ensures var d := e.deferred.items[k];
            if now < d.recheckAt
            then k in h.engine.deferred.items && h.engine.deferred.items[k] == d && k !in Ids(all)
            else k !in h.engine.deferred.items && d.observation in all && d.observation.id == k
  {
    DrainExact(e.deferred, now);
    DueIds(e.deferred, now);
    if now >= e.deferred.items[k].recheckAt {
      assert e.deferred.items[k].observation in Due(e.deferred, now);
    }
  }

  /** The same, told by the books: it is returned unless another observation of its hash was returned
      under a minute before, or in that same collect. */
  lemma ReturnedUnlessRival(s: System, b: Books, e: Event, k: string, s': System, b': Books)
    requires Sound(s) && BalancedSystem(s, b) && Evident(s, b) && Enabled(s, e)
    requires LooksAround(s, e) && Collects(LookingCore(s), e.env)
    requires k in s.core.engine.deferred.items
    requires s' == Next(s, e) && b' == Book(b, s, e)
    ensures var d := s.core.engine.deferred.items[k];
            if e.env.now < d.recheckAt
            then k in s'.core.engine.deferred.items && s'.core.engine.deferred.items[k] == d
            else
              && k !in s'.core.engine.deferred.items
              && (k in Ids(Flight(s'.phase)) <==> !HasRival(k, s'.issued, b'.last, e.env.now))
  {
    CollectedFlight(s, e, s', LookingCore(s), Harvested(LookingCore(s), e.env));
    ComesBack(s, b, e.env, k, s'.issued, b'.last);
  }

  lemma ComesBack(s: System, b: Books, env: Surroundings, k: string, all: map<string, Observation>,
      last': map<Fingerprint, Return>)
    requires Sound(s) && BalancedSystem(s, b) && Flight(s.phase) == [] && Plausible(s, env)
    requires Tracks(s.core.engine.recentHashes, b.last) && LastSound(b.last, s.issued, s.clock)
    requires NotItsOwnRival(s.core.engine.deferred.items, s.issued, b.last)
    requires k in s.core.engine.deferred.items
    requires all == Register(s.issued, Newcomers(LookingCore(s), env), |Newcomers(LookingCore(s), env)|)
    requires var batch := Harvested(LookingCore(s), env).batch;
             last' == ReturnsAfter(b.last, batch, |batch|, env.now)
    ensures var d, h := s.core.engine.deferred.items[k], Harvested(LookingCore(s), env);
            if env.now < d.recheckAt then k in h.engine.deferred.items && h.engine.deferred.items[k] == d
            else k !in h.engine.deferred.items && (k in Ids(h.batch) <==> !HasRival(k, all, last', env.now))
  {
    var core := LookingCore(s);
    SweptBalanced(b.owed, b.fate.Keys, core, env, s.issued, all);
    RegisterAll(s.issued, Newcomers(core, env), all);
    PlacedFlight(s.core.engine.pending, s.core.engine.deferred.items, [], s.issued);
    ReturnsOrRivals(SweptEngine(core, env), env.reports, env.now, s.clock, all, b.last, Harvested(core, env), last', k);
  }

  lemma ReturnsOrRivals(e: EngineState, reports: seq<Option<seq<Observation>>>, now: int, clock: int,
      issued: map<string, Observation>, last: map<Fingerprint, Return>, h: Harvest, last': map<Fingerprint, Return>,
      k: string)
    requires e.deferred.Valid() && Placed(e.pending, e.deferred.items, [], issued)
    requires Distinct(Gathered(reports)) && (forall o :: o in Gathered(reports) ==> o.id in issued && issued[o.id] == o)
    requires Ids(Gathered(reports)) !! Ids(e.pending) && Ids(Gathered(reports)) !! e.deferred.items.Keys
    requires Tracks(e.recentHashes, last) && LastSound(last, issued, clock)
             && NotItsOwnRival(e.deferred.items, issued, last)
    requires 0 < clock <= now && k in e.deferred.items
    requires h == Collect(e, reports, now) && last' == ReturnsAfter(last, h.batch, |h.batch|, now)
    ensures var left := h.engine.deferred.items;
            if now < e.deferred.items[k].recheckAt then k in left && left[k] == e.deferred.items[k]
            else k !in left && (k in Ids(h.batch) <==> !HasRival(k, issued, last', now))
  {
    DrainExact(e.deferred, now);
    ArrivalsDistinct(e, reports, now, issued, Arrivals(e, reports, now));
    CollectSplits(e, reports, now);
    if now >= e.deferred.items[k].recheckAt && k !in Ids(h.batch) {
      var x := e.deferred.items[k].observation;
      assert x in Due(e.deferred, now) && x.id == k;
      SuppressedHasRival(e, reports, now, clock, issued, last, h, last', x);
    }
    if k in Ids(h.batch) {
      CollectPlaced(e, reports, now, issued, h);
      CollectTable(e, reports, now, h);
      ReturnedHasNoRival(h.batch, now, issued, last, last', k);
    }
  }

  lemma ReturnedHasNoRival(batch: seq<Observation>, now: int, issued: map<string, Observation>,
      last: map<Fingerprint, Return>, last': map<Fingerprint, Return>, k: string)
    requires k in Ids(batch) && EngineRuns.DistinctHashes(batch)
    requires forall o :: o in batch ==> o.id in issued && Scorer.SameButPriority(issued[o.id], o)
    requires last' == ReturnsAfter(last, batch, |batch|, now)
    ensures !HasRival(k, issued, last', now)
  {
    IdsExact(batch);
    ReturnsAfterExact(last, batch, |batch|, now);
    var o :| o in batch && o.id == k;
    var i :| 0 <= i < |batch| && batch[i] == o;
    assert last'[DedupHash(batch[i])] == Return(k, now);
    assert DedupHash(issued[k]) == DedupHash(o);
  }

  // ---------- no fate is taken back ----------

  lemma NewFatesOnly(fate: map<string, Fate>, more: map<string, Fate>)
    requires fate.Keys !! more.Keys
    ensures forall k :: k in fate ==> k in fate + more && (fate + more)[k] == fate[k]
  {
  }

  lemma {:induction false} FatesOfLook(s: System, b: Books, e: Event)
    requires Sound(s) && BalancedSystem(s, b) && Enabled(s, e) && LooksAround(s, e) && Collects(LookingCore(s), e.env)
    ensures forall k :: k in b.fate ==> k in Book(b, s, e).fate && Book(b, s, e).fate[k] == b.fate[k]
  {
    var h := Harvested(LookingCore(s), e.env);
    var last := ReturnsAfter(b.last, h.batch, |h.batch|, e.env.now);
    SupersededWereTabled(s, b, e.env, Next(s, e));
    FatesNow(b, h, last, Next(s, e).issued, e.env.now);
    NewFatesOnly(b.fate, SupersededNow(b, h, last, Next(s, e).issued, e.env.now));
  }

  lemma FatesOfTick(s: System, b: Books, e: Event)
    requires Sound(s) && BalancedSystem(s, b) && Enabled(s, e) && (e.Scored? || e.Replied? || e.MessageSent?)
    ensures forall k :: k in b.fate ==> k in Book(b, s, e).fate && Book(b, s, e).fate[k] == b.fate[k]
  {
    var batch := s.phase.batch;
    BatchHasNoFate(s, b);
    if e.Scored? {
      var o := Oriented(s.core, batch, s.phase.scoredAt, e.matches, e.now);
      FatesAtGate(batch, o);
      NewFatesOnly(b.fate, DroppedNow(batch, o));
    } else if e.Replied? {
      FatesOfAct(batch, VerdictOf(s, e));
      NewFatesOnly(b.fate, ActedNow(batch, VerdictOf(s, e)));
    } else {
      FatesOfTold(batch);
      NewFatesOnly(b.fate, ToldNow(batch));
    }
  }

  lemma BatchHasNoFate(s: System, b: Books)
    requires BalancedSystem(s, b)
    ensures b.fate.Keys !! ActionableIds(Flight(s.phase))
  {
    ActionableAreIds(Flight(s.phase));
  }

  /** A fate, once booked, is never changed. */
  lemma FatesAreFinal(s: System, b: Books, e: Event)
    requires Sound(s) && BalancedSystem(s, b) && Enabled(s, e)
    ensures forall k :: k in b.fate ==> k in Book(b, s, e).fate && Book(b, s, e).fate[k] == b.fate[k]
  {
    if LooksAround(s, e) && Collects(LookingCore(s), e.env) {
      FatesOfLook(s, b, e);
    } else if !LooksAround(s, e) && (e.Scored? || e.Replied? || e.MessageSent?) {
      FatesOfTick(s, b, e);
    }
  }

  lemma FatesStandOnce(config: Config, t0: int, before: Run, run: Run, e: Event)
    requires t0 > 0 && Legal(config, t0, run) && run != [] && run[..|run| - 1] == before && run[|run| - 1] == e
    ensures forall k :: k in BooksAfter(config, t0, before).fate ==>
              && k in BooksAfter(config, t0, run).fate
              && BooksAfter(config, t0, run).fate[k] == BooksAfter(config, t0, before).fate[k]
  {
    LedgerBalances(config, t0, before);
    FatesAreFinal(After(config, t0, before), BooksAfter(config, t0, before), e);
  }

  /** NO FATE IS TAKEN BACK. However a run goes on, a fate that was booked stands as it was booked. */
  lemma {:induction false} FatesStand(config: Config, t0: int, run: Run, more: Run, k: string)
    requires t0 > 0 && Legal(config, t0, run) && Legal(config, t0, run + more)
    requires k in BooksAfter(config, t0, run).fate
    ensures k in BooksAfter(config, t0, run + more).fate
    ensures BooksAfter(config, t0, run + more).fate[k] == BooksAfter(config, t0, run).fate[k]
  {
    if more == [] {
      assert run + more == run;
    } else {
      var front := more[..|more| - 1];
      WasLegal(config, t0, run, more, |more| - 1);
      FatesStand(config, t0, run, front, k);
      var e := GoesOn(config, t0, run, more, After(config, t0, run + front));
      FatesStandOnce(config, t0, run + front, run + more, e);
    }
  }

  lemma SupersededWereTabled(s: System, b: Books, env: Surroundings, s': System)
    requires Sound(s) && BalancedSystem(s, b) && Plausible(s, env) && Flight(s.phase) == []
    requires Collects(LookingCore(s), env) && s' == Looked(s, LookingCore(s), env)
    ensures ActionableIds(Harvested(LookingCore(s), env).suppressed) * b.owed !! b.fate.Keys
  {
    var core := LookingCore(s);
    var e, h := SweptEngine(core, env), Harvested(core, env);
    SweptBalanced(b.owed, b.fate.Keys, core, env, s.issued, s'.issued);
    ArrivalsDistinct(e, env.reports, env.now, s'.issued, Arrivals(e, env.reports, env.now));
    CollectSplits(e, env.reports, env.now);
    ActionableAreIds(h.suppressed);
    forall k | k in ActionableIds(h.suppressed) * b.owed ensures k !in b.fate {
      OwedIsTabled(b.owed, b.fate.Keys, e, s'.issued, env, h, k);
    }
  }
}
