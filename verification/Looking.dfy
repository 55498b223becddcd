/** What a tick does when it looks around: when it looks at all, what the sweep of finished tasks leaves, and
    what is collected then. */
module Looking {
  import opened Observations
  import opened Engine
  import opened Core
  import opened Daemon
  import Collecting
  import Decisions
  import Inventory
  import Ledger
  import Spacing
  import Tracking

  /** Nothing holds the tick up: the last round is the interval away, some provider is awake, and the budget can
      be read and is above its floor. */
  ghost predicate FreeToLook(c: CoreState, env: Surroundings, interval: int) {
    && c.lastReasoningMs + interval <= env.now
    && !env.coolingDown && env.budgetPct.Some?
    && env.budgetPct.value + c.config.budgetFloorPct / 100.0 < 1.0
  }

  /** The queue once the outcomes of finished tasks have been injected: the newest hundred. */
  ghost function QueueThen(c: CoreState, env: Surroundings): seq<Observation>
    requires |env.tasks| == |c.tracked.keys|
  {
    LastN(c.engine.pending + Tracking.ReportedOutcomes(c.tracked, env.tasks, |env.tasks|, env.now), 100)
  }

  /** The tasks that are followed on: all but those the sweep drops. */
  ghost predicate FollowedOn(c: CoreState, env: Surroundings, tracked: map<string, int>)
    requires |env.tasks| == |c.tracked.keys|
  {
    && (forall i :: 0 <= i < |env.tasks| ==>
         (c.tracked.keys[i] in tracked <==> !Tracking.Drops(c.tracked, env.tasks, i, env.now)))
    && (forall k :: k in tracked ==> k in c.tracked.items && tracked[k] == c.tracked.items[k])
  }

  ghost predicate Throws(c: CoreState, env: Surroundings)
    requires |env.tasks| == |c.tracked.keys|
  {
    !Tracking.Reached(c.tracked, env.tasks, |env.tasks|, env.now)
  }

  // ---------- the queue stays within its cap ----------

  lemma {:induction false} SweepCapped(e: EngineState, c: CoreState, env: Surroundings, n: nat)
    requires n <= |env.tasks| == |c.tracked.keys| && |e.pending| <= 100
    ensures |SweepTasks(e, c.tracked, env.tasks, n, env.now).engine.pending| <= 100
  {
    if n > 0 {
      SweepCapped(e, c, env, n - 1);
    }
  }

  lemma ActQueue(c: CoreState, batch: seq<Observation>, ranked: seq<Observation>, v: Decisions.Verdict, now: int)
    requires ranked != [] && c.engine.deferred.Valid()
    ensures Act(c, batch, ranked, v, now).core.engine.pending == c.engine.pending
  {
    Inventory.ActTable(c, batch, ranked, v, now);
  }

  lemma {:induction false} NextCapped(s: System, e: Event)
    requires Sound(s) && Enabled(s, e) && |s.core.engine.pending| <= 100
    ensures |Next(s, e).core.engine.pending| <= 100
  {
    if LooksAround(s, e) {
      var core := Ledger.LookingCore(s);
      ObserveShape(core, e.env, Observe(core, e.env));
      SweepCapped(core.engine, core, e.env, |e.env.tasks|);
    } else if e.Scored? {
      var o := Oriented(s.core, s.phase.batch, s.phase.scoredAt, e.matches, e.now);
      Inventory.PutBackTable(s.core.engine, SilencedBy(o, s.phase.batch), 5, e.now);
    } else if e.Replied? {
      ActQueue(s.core, s.phase.batch, s.phase.ranked, Ledger.VerdictOf(s, e), e.now);
    } else if e.ScoringFailed? || e.ReplyFailed? {
      Inventory.PutBackTable(s.core.engine, s.phase.batch, 1, e.now);
    }
  }

  /** Over any run, no more than a hundred injections wait. */
  lemma {:induction false} QueueCapped(config: Config, t0: int, run: Run)
    requires t0 > 0 && Legal(config, t0, run)
    ensures |After(config, t0, run).core.engine.pending| <= 100
  {
    if run != [] {
      QueueCapped(config, t0, run[..|run| - 1]);
      AlwaysSound(config, t0, run[..|run| - 1]);
      NextCapped(After(config, t0, run[..|run| - 1]), run[|run| - 1]);
    }
  }

  // ---------- the sweep ----------

  lemma SweepTold(c: CoreState, env: Surroundings, r: Sweep)
    requires |env.tasks| == |c.tracked.keys| && c.tracked.Valid() && |c.engine.pending| <= 100
    requires r == SweepTasks(c.engine, c.tracked, env.tasks, |env.tasks|, env.now)
    ensures r.failed <==> Throws(c, env)
    ensures r.engine.pending == QueueThen(c, env) && FollowedOn(c, env, r.tracked.items)
    ensures r.engine == c.engine.(pending := r.engine.pending)
  {
    Tracking.FailsIff(c.engine, c.tracked, env.tasks, |env.tasks|, env.now);
    Tracking.SweepExact(c.engine, c.tracked, env.tasks, |env.tasks|, env.now);
    Tracking.SweepQueueIsSuffix(c.engine, c.tracked, env.tasks, |env.tasks|, env.now);
    SweepQueues(c, env, |env.tasks|);
  }

  lemma {:induction false} SweepQueues(c: CoreState, env: Surroundings, n: nat)
    requires n <= |env.tasks| == |c.tracked.keys|
    ensures var e := SweepTasks(c.engine, c.tracked, env.tasks, n, env.now).engine;
            e == c.engine.(pending := e.pending)
  {
    if n > 0 {
      SweepQueues(c, env, n - 1);
    }
  }

  /** A look that comes through its guards. */
  ghost predicate Looks(s: System, e: Event) {
    && Sound(s) && |s.core.engine.pending| <= 100 && Enabled(s, e) && LooksAround(s, e)
    && Admitted(Ledger.LookingCore(s), e.env)
  }

  lemma FreeLooks(config: Config, t0: int, run: Run, s: System, e: Event)
    requires t0 > 0 && Legal(config, t0, run) && s == After(config, t0, run)
    requires Enabled(s, e) && LooksAround(s, e)
    requires FreeToLook(s.core, e.env, Spacing.JournalAfter(config, t0, run).asked)
    ensures Looks(s, e)
  {
    AlwaysSound(config, t0, run);
    QueueCapped(config, t0, run);
    Spacing.AlwaysJournaled(config, t0, run);
  }

  lemma ThrowingLook(s: System, e: Event, s': System)
    requires Looks(s, e) && s' == Next(s, e) && Throws(s.core, e.env)
    ensures s'.phase == Idle && !s'.core.tickInFlight
    ensures s'.core.engine == s.core.engine.(pending := QueueThen(s.core, e.env))
    ensures FollowedOn(s.core, e.env, s'.core.tracked.items)
  {
    var core := Ledger.LookingCore(s);
    SweepTold(core, e.env, Swept(core, e.env));
    ObserveShape(core, e.env, Observe(core, e.env));
  }

  /** A lookup that throws ends the tick: what was swept before it stays swept, and nothing is collected. */
  lemma {:induction false} LookupThrows(config: Config, t0: int, run: Run, s: System, e: Event, s': System)
    requires t0 > 0 && Legal(config, t0, run) && s == After(config, t0, run)
    requires Enabled(s, e) && LooksAround(s, e) && s' == Next(s, e)
    requires FreeToLook(s.core, e.env, Spacing.JournalAfter(config, t0, run).asked) && Throws(s.core, e.env)
    ensures s'.phase == Idle && !s'.core.tickInFlight
    ensures s'.core.engine == s.core.engine.(pending := QueueThen(s.core, e.env))
    ensures FollowedOn(s.core, e.env, s'.core.tracked.items)
  {
    FreeLooks(config, t0, run, s, e);
    ThrowingLook(s, e, s');
  }

  // ---------- the collect ----------

  /** The queue, with the outcomes of the tasks that have ended behind it, what is due, and every report of every
      observer, whole and in order: the news of it is the batch, highest priority first; without news the tick
      is over. What is not due stays on file, and the queue is empty. */
  ghost predicate TakesAll(s: System, env: Surroundings, s': System, h: Harvest, all: seq<Observation>,
      due: seq<Observation>, reported: seq<Observation>, starts: seq<nat>, news: seq<Observation>)
    requires s.core.engine.deferred.Valid() && |env.tasks| == |s.core.tracked.keys|
  {
    var queued := s.core.engine.(pending := QueueThen(s.core, env));
    && Collecting.Arrived(all, queued, env.reports, env.now, due, reported, starts)
    && Collecting.Returned(h, all, s.core.engine.recentHashes, env.now, news)
    && Collecting.LeftBehind(h, queued, env.now)
    && s'.core.engine == h.engine
    && s'.phase == (if news == [] then Idle else Scoring(h.batch, env.now))
  }

  lemma CollectingLook(s: System, e: Event, s': System)
    returns (h: Harvest, all: seq<Observation>, due: seq<Observation>, reported: seq<Observation>, starts: seq<nat>,
             news: seq<Observation>)
    requires Looks(s, e) && s' == Next(s, e) && !Throws(s.core, e.env)
    ensures FollowedOn(s.core, e.env, s'.core.tracked.items)
    ensures TakesAll(s, e.env, s', h, all, due, reported, starts, news)
  {
    var core := Ledger.LookingCore(s);
    var swept := Swept(core, e.env);
    SweepTold(core, e.env, swept);
    h := Collect(swept.engine, e.env.reports, e.env.now);
    all, due, reported, starts, news := Collecting.CollectExactly(swept.engine, e.env.reports, e.env.now, h);
    LookEnds(s, e, s', core, swept, h);
    SameSize(h.batch, news);
  }

  lemma SameSize(s: seq<Observation>, t: seq<Observation>)
    requires multiset(s) == multiset(t)
    ensures |s| == |t|
  {
    assert |multiset(s)| == |s| && |multiset(t)| == |t|;
  }

  lemma LookEnds(s: System, e: Event, s': System, core: CoreState, swept: Sweep, h: Harvest)
    requires Looks(s, e) && s' == Next(s, e)
    requires core == Ledger.LookingCore(s) && swept == Swept(core, e.env) && !swept.failed
    requires h == Collect(swept.engine, e.env.reports, e.env.now)
    ensures s'.core.engine == h.engine && s'.core.tracked == swept.tracked
    ensures s'.phase == if h.batch == [] then Idle else Scoring(h.batch, e.env.now)
  {
    ObserveShape(core, e.env, Observe(core, e.env));
  }

  /** WHAT A LOOK DOES, over any run: a tick that nothing holds up, and no lookup, takes everything there is. */
  lemma {:induction false} LooksExactly(config: Config, t0: int, run: Run, s: System, e: Event, s': System)
    returns (h: Harvest, all: seq<Observation>, due: seq<Observation>, reported: seq<Observation>, starts: seq<nat>,
             news: seq<Observation>)
    requires t0 > 0 && Legal(config, t0, run) && s == After(config, t0, run)
    requires Enabled(s, e) && LooksAround(s, e) && s' == Next(s, e)
    requires FreeToLook(s.core, e.env, Spacing.JournalAfter(config, t0, run).asked) && !Throws(s.core, e.env)
    ensures s.core.engine.deferred.Valid() && FollowedOn(s.core, e.env, s'.core.tracked.items)
    ensures TakesAll(s, e.env, s', h, all, due, reported, starts, news)
  {
    FreeLooks(config, t0, run, s, e);
    h, all, due, reported, starts, news := CollectingLook(s, e, s');
  }
}
