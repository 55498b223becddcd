/** A run in which a goal that answers nothing is refused again and again: nothing but the minute between
    two rounds bounds what it costs. */
module EndlessRefusal {
  import opened Observations
  import opened Engine
  import opened Decisions
  import opened Core
  import opened Daemon
  import opened Ledger
  import opened Refusals
  import opened Scenes
  import Patience
  import Scorer

  /** The one observation there is waits for its next round. */
  ghost predicate Stuck(s: System, o: Observation, due: int) {
    && Between(s, due) && Untouched(s.core)
    && s.core.engine.pending == [] && s.core.engine.deferred == Waiting(o, due)
    && !SeenRecently(s.core.engine.recentHashes, DedupHash(o), due)
  }

  lemma Refuse(s: System, o: Observation, t: int, e: Event) returns (s': System)
    requires s.phase == Thinking([o], [Scorer.ScoreOne(o, 0, map[], t)]) && s.clock == t && Untouched(s.core)
    requires s.core.lastReasoningMs == t && s.core.held == [] && Obliging(s.core.config)
    requires s.core.engine.pending == [] && s.core.engine.deferred == NO_DEFERRALS
    requires DedupHash(o) in s.core.engine.recentHashes && s.core.engine.recentHashes[DedupHash(o)] == t
    requires o.actionable && o.id != "no-such-id" && e == Replied(REFUSED_GOAL, 0, Some("task"), t)
    ensures Enabled(s, e) && s' == Next(s, e) && VerdictOf(s, e) == Refused(OutsideBatch)
    ensures Stuck(s', o, t + 60_000)
  {
    var ranked := s.phase.ranked;
    if Within(ranked, Names(REFUSED_GOAL.named)) != [] {
      SomeNamed(ranked, REFUSED_GOAL.named);
    }
    assert VerdictOf(s, e) == Refused(OutsideBatch);
    s' := Next(s, e);
    assert PutBack(s.core.engine, [o], 0, 1, t) == s.core.engine;
    assert PutBack(s.core.engine, [o], 1, 1, t) == Engine.Defer(s.core.engine, o, 1, t);
    assert [] + [o.id] == [o.id];
    assert s'.core.engine.deferred == Waiting(o, t + 60_000);
  }

  /** Let through the gate, and refused. */
  lemma RefusedOnceSeen(s1: System, o: Observation, t: int, e3: Event) returns (s2: System, s3: System)
    requires s1.phase == Scoring([o], t) && s1.clock == t && Untouched(s1.core) && s1.core.held == []
    requires Obliging(s1.core.config) && s1.core.config.minObservationPriority <= o.priority <= 100
    requires o.actionable && o.id != "no-such-id" && e3 == Replied(REFUSED_GOAL, 0, Some("task"), t)
    requires s1.core.engine.pending == [] && s1.core.engine.deferred == NO_DEFERRALS
    requires DedupHash(o) in s1.core.engine.recentHashes && s1.core.engine.recentHashes[DedupHash(o)] == t
    ensures Enabled(s1, Scored([0], t)) && s2 == Next(s1, Scored([0], t)) && s2.phase.Thinking?
    ensures Enabled(s2, e3) && s3 == Next(s2, e3)
    ensures s2.phase.batch == [o] && VerdictOf(s2, e3) == Refused(OutsideBatch)
    ensures Stuck(s3, o, t + 60_000) && s3.core.config == s1.core.config
  {
    s2 := OrientUntouched(s1, o, t);
    s3 := Refuse(s2, o, t, e3);
  }

  /** One round: looked at, let through the gate, and refused. */
  lemma RefusedRound(s: System, o: Observation, t: int, e1: Event, e3: Event)
    returns (s1: System, s2: System, s3: System)
    requires Between(s, t) && Untouched(s.core)
    requires s.core.config.minObservationPriority <= o.priority <= 100 && o.actionable && o.id != "no-such-id"
    requires e1.TickCalled? && e1.env == Calm(t, [], e1.env.reports) && e3 == Replied(REFUSED_GOAL, 0, Some("task"), t)
    requires Distinct(Gathered(e1.env.reports)) && Ids(Gathered(e1.env.reports)) !! s.issued.Keys
    requires Arrivals(s.core.engine, e1.env.reports, t) == [o] && Drained(s.core.engine.deferred, t) == NO_DEFERRALS
    requires !SeenRecently(s.core.engine.recentHashes, DedupHash(o), t)
    ensures Enabled(s, e1) && s1 == Next(s, e1)
    ensures Enabled(s1, Scored([0], t)) && s2 == Next(s1, Scored([0], t))
    ensures Enabled(s2, e3) && s3 == Next(s2, e3)
    ensures s2.phase.batch == [o] && VerdictOf(s2, e3) == Refused(OutsideBatch)
    ensures Stuck(s3, o, t + 60_000) && s3.core.config == s.core.config
  {
    s1 := LookAtLast(s, e1, o);
    s2, s3 := RefusedOnceSeen(s1, o, t, e3);
  }

  /** A round of three events, as the run and the books of its rounds have it. */
  lemma OneRound(config: Config, t0: int, run: Run, s: System, e1: Event, s1: System, e2: Event, s2: System, e3: Event,
      s3: System, run': Run)
    requires Legal(config, t0, run) && s == After(config, t0, run)
    requires e1.TickCalled? && Enabled(s, e1) && s1 == Next(s, e1)
    requires e2.Scored? && Enabled(s1, e2) && s2 == Next(s1, e2)
    requires e3.Replied? && Enabled(s2, e3) && s3 == Next(s2, e3) && VerdictOf(s2, e3) == Refused(OutsideBatch)
    requires run' == run + [e1] + [e2] + [e3]
    ensures Legal(config, t0, run') && After(config, t0, run') == s3
    ensures CallsAfter(config, t0, run')
         == Patience.ChargeAll(CallsAfter(config, t0, run), Ids(s2.phase.batch), e3.now)
    ensures Patience.RoundsAfter(config, t0, run') == Patience.RoundsAfter(config, t0, run) - Ids(s2.phase.batch)
  {
    OneBooked(config, t0, run, e1, s);
    OneBooked(config, t0, run + [e1], e2, s1);
    OneBooked(config, t0, run + [e1] + [e2], e3, s2);
    RefusalClears(Patience.RoundsAfter(config, t0, run), s2, e3);
  }

  lemma RefusalClears(r: Patience.Rounds, s: System, e: Event)
    requires e.Replied? && Enabled(s, e) && VerdictOf(s, e) == Refused(OutsideBatch)
    ensures Patience.Note(r, s, e) == r - Ids(s.phase.batch)
  {
  }

  lemma OneBooked(config: Config, t0: int, run: Run, e: Event, s: System)
    requires Legal(config, t0, run) && s == After(config, t0, run) && Enabled(s, e)
    ensures Legal(config, t0, run + [e]) && After(config, t0, run + [e]) == Next(s, e)
    ensures CallsAfter(config, t0, run + [e]) == Refusals.Note(CallsAfter(config, t0, run), s, e)
    ensures Patience.RoundsAfter(config, t0, run + [e]) == Patience.Note(Patience.RoundsAfter(config, t0, run), s, e)
  {
    OneEvent(config, t0, run, e, s);
  }

  lemma RefusedOnce(config: Config, t0: int, run: Run, s: System, o: Observation,
      reports: seq<Option<seq<Observation>>>, t: int) returns (run': Run)
    requires Legal(config, t0, run) && s == After(config, t0, run) && Between(s, t) && Untouched(s.core)
    requires s.core.config.minObservationPriority <= o.priority <= 100 && o.actionable && o.id != "no-such-id"
    requires Distinct(Gathered(reports)) && Ids(Gathered(reports)) !! s.issued.Keys
    requires Arrivals(s.core.engine, reports, t) == [o] && Drained(s.core.engine.deferred, t) == NO_DEFERRALS
    requires !SeenRecently(s.core.engine.recentHashes, DedupHash(o), t)
    ensures Legal(config, t0, run') && Stuck(After(config, t0, run'), o, t + 60_000)
    ensures After(config, t0, run').core.config == s.core.config
    ensures CallsAfter(config, t0, run') == Patience.ChargeAll(CallsAfter(config, t0, run), {o.id}, t)
    ensures Patience.RoundsAfter(config, t0, run') == Patience.RoundsAfter(config, t0, run) - {o.id}
  {
    var e1, e3 := TickCalled(0, Calm(t, [], reports)), Replied(REFUSED_GOAL, 0, Some("task"), t);
    var s1, s2, s3 := RefusedRound(s, o, t, e1, e3);
    run' := run + [e1] + [Scored([0], t)] + [e3];
    OneRound(config, t0, run, s, e1, s1, Scored([0], t), s2, e3, s3, run');
    SoleIds(o);
  }

  /** One round every minute from the first on, n in all. */
  ghost predicate EveryMinute(r: Patience.Rounds, k: string, t0: int, n: nat) {
    k in r && |r[k]| == n && forall i :: 0 <= i < n ==> r[k][i] == t0 + (i + 1) * 60_000
  }

  lemma OneMoreMinute(r: Patience.Rounds, r': Patience.Rounds, k: string, t0: int, n: nat, t: int)
    requires n > 0 && EveryMinute(r, k, t0, n - 1) && t == t0 + n * 60_000
    requires r' == Patience.ChargeAll(r, {k}, t)
    ensures EveryMinute(r', k, t0, n)
  {
    assert r'[k] == r[k] + [t];
  }

  /** In this run the observation has been through n rounds, a minute apart; it has no charge to its name,
      and it waits for the next. */
  ghost predicate RefusedTimes(config: Config, t0: int, run: Run, o: Observation, n: nat) {
    && Legal(config, t0, run)
    && After(config, t0, run).core.config == config
    && Stuck(After(config, t0, run), o, t0 + (n + 1) * 60_000)
    && EveryMinute(CallsAfter(config, t0, run), o.id, t0, n)
    && o.id !in Patience.RoundsAfter(config, t0, run)
  }

  lemma FirstRound(config: Config, t0: int, o: Observation) returns (run: Run)
    requires t0 > 0 && Obliging(config) && config.minObservationPriority <= o.priority <= 100
    requires o.actionable && o.id != "no-such-id"
    ensures RefusedTimes(config, t0, run, o, 1)
  {
    var t := t0 + 60_000;
    NothingDue(t);
    OneReport(o);
    assert [] + [] + [o] == [o];
    run := RefusedOnce(config, t0, [], Start(config, t0), o, [Some([o])], t);
    assert [] + [t] == [t];
  }

  lemma NextRound(config: Config, t0: int, before: Run, s: System, o: Observation, t: int) returns (run: Run)
    requires Legal(config, t0, before) && s == After(config, t0, before) && Stuck(s, o, t)
    requires s.core.config.minObservationPriority <= o.priority <= 100 && o.actionable && o.id != "no-such-id"
    ensures Legal(config, t0, run) && Stuck(After(config, t0, run), o, t + 60_000)
    ensures After(config, t0, run).core.config == s.core.config
    ensures CallsAfter(config, t0, run) == Patience.ChargeAll(CallsAfter(config, t0, before), {o.id}, t)
    ensures Patience.RoundsAfter(config, t0, run) == Patience.RoundsAfter(config, t0, before) - {o.id}
  {
    OneDue(o, t, t);
    assert [] + [o] + [] == [o];
    assert Gathered([]) == [] && Ids([]) == {};
    run := RefusedOnce(config, t0, before, s, o, [], t);
  }

  lemma OnceMore(config: Config, t0: int, before: Run, run: Run, o: Observation, n: nat, t: int)
    requires n > 0 && RefusedTimes(config, t0, before, o, n - 1) && t == t0 + n * 60_000
    requires Legal(config, t0, run) && Stuck(After(config, t0, run), o, t + 60_000)
    requires After(config, t0, run).core.config == config
    requires CallsAfter(config, t0, run) == Patience.ChargeAll(CallsAfter(config, t0, before), {o.id}, t)
    requires Patience.RoundsAfter(config, t0, run) == Patience.RoundsAfter(config, t0, before) - {o.id}
    ensures RefusedTimes(config, t0, run, o, n)
  {
    OneMoreMinute(CallsAfter(config, t0, before), CallsAfter(config, t0, run), o.id, t0, n, t);
  }

  /** REFUSED FOR EVER. Nothing but the minute bounds the rounds a refused goal costs: for every n there is
      a run of a new agent in which one and the same observation is put through n of them, one every
      minute, none of them charged, and waits for the next. */
  lemma {:induction false} RefusedForEver(config: Config, t0: int, o: Observation, n: nat) returns (run: Run)
    requires t0 > 0 && n > 0 && Obliging(config) && config.minObservationPriority <= o.priority <= 100
    requires o.actionable && o.id != "no-such-id"
    ensures RefusedTimes(config, t0, run, o, n)
  {
    if n == 1 {
      run := FirstRound(config, t0, o);
    } else {
      var before := RefusedForEver(config, t0, o, n - 1);
      var t := t0 + n * 60_000;
      run := NextRound(config, t0, before, After(config, t0, before), o, t);
      OnceMore(config, t0, before, run, o, n, t);
    }
  }
}
