/** An observation put off until a time takes part in no batch before that time, whatever happens in
    between. */
module Holds {
  import opened Observations
  import opened Engine
  import opened Core
  import opened Inventory
  import opened Daemon
  import opened Ledger
  import Decisions
  import Gate

  /** k has been handed over, and is not in a batch before `until`: while it waits in the table,
      either the table or the clock says so. */
  ghost predicate Held(s: System, k: string, until: int) {
    && k in s.issued && k !in Ids(s.core.engine.pending)
    && (k in s.core.engine.deferred.items ==> until <= s.core.engine.deferred.items[k].recheckAt || until <= s.clock)
    && (k in Ids(Flight(s.phase)) ==> until <= s.clock)
  }

  lemma CollectHolds(e: EngineState, reports: seq<Option<seq<Observation>>>, now: int,
      issued: map<string, Observation>, h: Harvest, k: string)
    requires e.deferred.Valid() && Placed(e.pending, e.deferred.items, [], issued)
    requires Distinct(Gathered(reports))
    requires Ids(Gathered(reports)) !! Ids(e.pending) && Ids(Gathered(reports)) !! e.deferred.items.Keys
    requires h == Collect(e, reports, now)
    requires k !in Ids(e.pending) && k !in Ids(Gathered(reports))
    ensures h.engine.pending == []
    ensures k in h.engine.deferred.items ==> k in e.deferred.items && h.engine.deferred.items[k] == e.deferred.items[k]
    ensures k in Ids(h.batch) ==> k in e.deferred.items && now >= e.deferred.items[k].recheckAt
  {
    ArrivalsDistinct(e, reports, now, issued, Arrivals(e, reports, now));
    CollectSplits(e, reports, now);
    DrainExact(e.deferred, now);
    DueIds(e.deferred, now);
  }

  lemma ObserveHolds(s: System, env: Surroundings, s': System, k: string, until: int)
    requires Sound(s) && Plausible(s, env) && Flight(s.phase) == []
    requires s' == Looked(s, LookingCore(s), env)
    requires Held(s, k, until)
    ensures Held(s', k, until)
  {
    var core := LookingCore(s);
    var outs, reps := Outcomes(core.tracked.keys, env.tasks, |env.tasks|, env.now), Gathered(env.reports);
    ObserveShape(core, env, Observe(core, env));
    RegisterAll(s.issued, Newcomers(core, env), s'.issued);
    SweptPlaced(core, env, s.issued, s'.issued);
    ConcatIds(outs, reps);
    ConcatDistinct(outs, reps);
    PlacedFlight(s.core.engine.pending, s.core.engine.deferred.items, [], s.issued);
    assert Ids([]) == {};
    assert k !in Ids(SweptEngine(core, env).pending);
    if Collects(core, env) {
      CollectHolds(SweptEngine(core, env), env.reports, env.now, s'.issued, Harvested(core, env), k);
    }
  }

  lemma LeavesHolds(s: System, s': System, settled: set<string>, back: Table, now: int, k: string, until: int)
    requires Leaves(s, s', settled, back, now) && s.clock <= s'.clock
    requires Held(s, k, until)
    ensures Held(s', k, until)
  {
  }

  lemma ActHolds(s: System, e: Event, v: Decisions.Verdict, s': System, k: string, until: int)
    requires Sound(s) && e.Replied? && Enabled(s, e) && v == VerdictOf(s, e) && s' == Next(s, e)
    requires Held(s, k, until)
    ensures Held(s', k, until)
  {
    if v.Spoke? {
      SpokeMovesNothing(s, e, v, s');
    } else {
      var back := ActBack(s.core.unparsedRounds, s.phase.batch, s.phase.ranked, v, e.now);
      ActLeaves(s, e, v, back);
      LeavesHolds(s, s', SettledIds(s.phase.batch, v), back, e.now, k, until);
    }
  }

  lemma {:induction false} GateHolds(s: System, e: Event, s': System, k: string, until: int)
    requires Sound(s) && e.Scored? && Enabled(s, e) && s' == Next(s, e)
    requires Held(s, k, until)
    ensures Held(s', k, until)
  {
    var o := Oriented(s.core, s.phase.batch, s.phase.scoredAt, e.matches, e.now);
    if !PassesGate(o) {
      var kept := SilencedBy(o, s.phase.batch);
      var back := Back(kept, |kept|, 5, e.now);
      GateLeaves(s, e, o, kept, back);
      LeavesHolds(s, s', Gate.DroppedIds(s.phase.batch, o), back, e.now, k, until);
    }
  }

  lemma InjectHolds(s: System, o: Observation, k: string, until: int)
    requires Sound(s) && o.id !in s.issued && Held(s, k, until)
    ensures Held(Next(s, Injected(o)), k, until)
  {
    assert o.id !in Ids(s.core.engine.pending) by { IdsExact(s.core.engine.pending); }
    InjectIds(s.core.engine, o, Inject(s.core.engine, o).pending);
  }

  lemma QuietHolds(s: System, e: Event, k: string, until: int)
    requires Sound(s) && Enabled(s, e) && Quiet(s, e) && Held(s, k, until)
    ensures Held(Next(s, e), k, until)
  {
    QuietMovesNothing(s, e);
  }

  lemma HeldPersists(s: System, e: Event, s': System, k: string, until: int)
    requires Sound(s) && Enabled(s, e) && s' == Next(s, e) && Held(s, k, until)
    ensures Held(s', k, until)
  {
    if LooksAround(s, e) {
      ObserveHolds(s, e.env, s', k, until);
    } else if Quiet(s, e) {
      QuietHolds(s, e, k, until);
    } else {
      match e
      case Injected(o) => InjectHolds(s, o, k, until);
      case Scored(_, _) => GateHolds(s, e, s', k, until);
      case ScoringFailed(now) =>
        FailLeaves(s, e);
        LeavesHolds(s, s', {}, Back(s.phase.batch, |s.phase.batch|, 1, now), now, k, until);
      case Replied(_, _, _, _) => ActHolds(s, e, VerdictOf(s, e), s', k, until);
      case ReplyFailed(now) =>
        FailLeaves(s, e);
        LeavesHolds(s, s', {}, Back(s.phase.batch, |s.phase.batch|, 1, now), now, k, until);
      case MessageSent =>
        SentLeaves(s, e, s.clock);
        LeavesHolds(s, s', Ids(s.phase.batch), map[], s.clock, k, until);
    }
  }

  lemma {:induction false} HeldThroughout(config: Config, t0: int, run: Run, more: Run, k: string, until: int)
    requires t0 > 0 && Legal(config, t0, run) && Legal(config, t0, run + more)
    requires Held(After(config, t0, run), k, until)
    ensures Held(After(config, t0, run + more), k, until)
  {
    if more == [] {
      assert run + more == run;
    } else {
      var front := more[..|more| - 1];
      WasLegal(config, t0, run, more, |more| - 1);
      HeldThroughout(config, t0, run, front, k, until);
      AlwaysSound(config, t0, run + front);
      var s := After(config, t0, run + front);
      var e := GoesOn(config, t0, run, more, s);
      HeldPersists(s, e, After(config, t0, run + more), k, until);
    }
  }

  lemma TabledIsHeld(s: System, k: string)
    requires Sound(s) && k in s.core.engine.deferred.items
    ensures Held(s, k, s.core.engine.deferred.items[k].recheckAt)
  {
    PlacedFlight(s.core.engine.pending, s.core.engine.deferred.items, Flight(s.phase), s.issued);
  }

  /** NOT BEFORE ITS TIME. Whatever a run goes on to do, an observation that waits in the deferral table
      is in no batch before the time it was put off until. */
  lemma {:induction false} NotBeforeItsTime(config: Config, t0: int, run: Run, more: Run, k: string)
    requires t0 > 0 && Legal(config, t0, run) && Legal(config, t0, run + more)
    requires k in After(config, t0, run).core.engine.deferred.items
    requires k in Ids(Flight(After(config, t0, run + more).phase))
    ensures After(config, t0, run).core.engine.deferred.items[k].recheckAt <= After(config, t0, run + more).clock
  {
    var s := After(config, t0, run);
    AlwaysSound(config, t0, run);
    TabledIsHeld(s, k);
    HeldThroughout(config, t0, run, more, k, s.core.engine.deferred.items[k].recheckAt);
  }
}
