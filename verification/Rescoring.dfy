/** Which observations come back with the score they left with, and what that does to the next one. */
module Rescoring {
  import opened Observations
  import opened Engine
  import opened Decisions
  import opened Core
  import opened Inventory
  import opened Daemon
  import opened Ledger
  import Gate
  import Scorer

  /** What each observation was last put off as: the score the top of a ranking had when a "defer", or a
      notify or escalate postponed for a foreground task, filed it. */
  ghost function Note(stored: map<string, int>, s: System, e: Event): map<string, int>
    requires Enabled(s, e)
  {
    if e.Replied? && (VerdictOf(s, e).PutOff? || VerdictOf(s, e).Postponed?)
    then stored[s.phase.ranked[0].id := s.phase.ranked[0].priority]
    else stored
  }

  ghost function StoredAs(config: Config, t0: int, run: Run): map<string, int>
    requires Legal(config, t0, run)
  {
    if run == [] then map[]
    else
      var before := run[..|run| - 1];
      Note(StoredAs(config, t0, before), After(config, t0, before), run[|run| - 1])
  }

  /** The priority an observation is carried with: the one it entered with, unless it was put off as
      scored; then that score. */
  ghost function BaseOf(k: string, issued: map<string, Observation>, stored: map<string, int>): int
    requires k in issued
  {
    if k in stored then stored[k] else issued[k].priority
  }

  ghost predicate Carried(o: Observation, issued: map<string, Observation>, stored: map<string, int>) {
    o.id in issued && o == issued[o.id].(priority := BaseOf(o.id, issued, stored))
  }

  ghost predicate AllCarried(table: Table, flight: seq<Observation>, issued: map<string, Observation>,
      stored: map<string, int>) {
    && (forall k :: k in table ==> Carried(table[k].observation, issued, stored))
    && (forall o :: o in flight ==> Carried(o, issued, stored))
  }

  /** Everything is carried with its own base, and what was put off as scored had entered and left the
      injection queue before. */
  ghost predicate Based(s: System, stored: map<string, int>) {
    && AllCarried(s.core.engine.deferred.items, Flight(s.phase), s.issued, stored)
    && stored.Keys <= s.issued.Keys && stored.Keys !! Ids(s.core.engine.pending)
  }

  lemma BackCarried(table: Table, batch: seq<Observation>, issued: map<string, Observation>, stored: map<string, int>,
      kept: seq<Observation>, minutes: int, now: int, table': Table)
    requires AllCarried(table, batch, issued, stored)
    requires forall o :: o in kept ==> o in batch
    requires table' == table + Back(kept, |kept|, minutes, now)
    ensures AllCarried(table', [], issued, stored)
  {
    BackExact(kept, minutes, now);
  }

  lemma PutOffCarried(table: Table, batch: seq<Observation>, issued: map<string, Observation>,
      stored: map<string, int>, top: Observation, minutes: int, rest: int, now: int, table': Table)
    requires AllCarried(table, batch, issued, stored) && Keyed(table)
    requires exists o :: o in batch && Scorer.SameButPriority(o, top)
    requires table' == table + PutOffBack(batch, top, minutes, rest, now)
    ensures AllCarried(table', [], issued, stored[top.id := top.priority])
  {
    var left := Outside(batch, {top.id});
    OutsideIds(batch, {top.id});
    BackExact(left, rest, now);
    var o :| o in batch && Scorer.SameButPriority(o, top);
    assert Carried(o, issued, stored);
    assert Carried(top, issued, stored[top.id := top.priority]);
    forall k | k in table' ensures Carried(table'[k].observation, issued, stored[top.id := top.priority]) {
      assert table'[k].observation != top ==> Carried(table'[k].observation, issued, stored);
    }
  }

  lemma ActBackCarried(table: Table, rounds: map<string, nat>, batch: seq<Observation>, ranked: seq<Observation>,
      v: Verdict, now: int, issued: map<string, Observation>, stored: map<string, int>, table': Table)
    requires ranked != [] && !v.Postponed? && !v.PutOff? && !v.Spoke?
    requires AllCarried(table, batch, issued, stored)
    requires table' == table + ActBack(rounds, batch, ranked, v, now)
    ensures AllCarried(table', [], issued, stored)
  {
    if v.Submitted? {
      OutsideIds(batch, Ids(v.credited));
      BackCarried(table, batch, issued, stored, Outside(batch, Ids(v.credited)), 1, now, table');
    } else if v.Adjusted? || v.Waited? {
      assert table' == table;
    } else {
      var charged := v.Unusable? || v.Unreadable?;
      BackCarried(table, batch, issued, stored, batch, if charged
               && ChargeUnparsed(rounds, batch).exhausted then 60 else 1,
                   now, table');
    }
  }

  lemma ActTurnCarried(c: CoreState, batch: seq<Observation>, ranked: seq<Observation>, v: Verdict, now: int,
      issued: map<string, Observation>, stored: map<string, int>, stored': map<string, int>, table': Table)
    requires TopFromBatch(batch, ranked) && !v.Spoke? && c.engine.deferred.Valid() && Keyed(c.engine.deferred.items)
    requires AllCarried(c.engine.deferred.items, batch, issued, stored)
    requires table' == Act(c, batch, ranked, v, now).core.engine.deferred.items
    requires stored' == if v.Postponed? || v.PutOff? then stored[ranked[0].id := ranked[0].priority] else stored
    ensures AllCarried(table', [], issued, stored')
  {
    var table := c.engine.deferred.items;
    ActTable(c, batch, ranked, v, now);
    if v.Postponed? || v.PutOff? {
      PutOffCarried(table, batch, issued, stored, ranked[0], if v.PutOff? then v.minutes else 5,
                     if v.PutOff? then 1 else 5, now, table');
    } else {
      ActBackCarried(table, c.unparsedRounds, batch, ranked, v, now, issued, stored, table');
    }
  }

  lemma ActCarried(s: System, e: Event, v: Verdict, s': System, stored: map<string, int>)
    requires Sound(s) && e.Replied? && Enabled(s, e) && v == VerdictOf(s, e) && s' == Next(s, e)
    requires Based(s, stored)
    ensures Based(s', Note(stored, s, e))
  {
    var batch, ranked := s.phase.batch, s.phase.ranked;
    if v.Spoke? {
      SpokeMovesNothing(s, e, v, s');
    } else {
      ActFrame(s.core, batch, ranked, v, e.now);
      ActTable(s.core, batch, ranked, v, e.now);
      RankingHasTop(batch, ranked);
      TopHasEntered(s);
      ActTurnCarried(s.core, batch, ranked, v, e.now, s.issued, stored, Note(stored, s, e),
                     s'.core.engine.deferred.items);
    }
  }

  lemma TopHasEntered(s: System)
    requires Sound(s) && s.phase.Thinking?
    ensures s.phase.ranked != []
    ensures s.phase.ranked[0].id in s.issued && s.phase.ranked[0].id !in Ids(s.core.engine.pending)
  {
    PlacedFlight(s.core.engine.pending, s.core.engine.deferred.items, s.phase.batch, s.issued);
    IdsExact(s.phase.ranked);
    assert s.phase.ranked[0] in s.phase.ranked;
  }

  lemma GateCarried(s: System, e: Event, s': System, stored: map<string, int>)
    requires Sound(s) && e.Scored? && Enabled(s, e) && s' == Next(s, e)
    requires Based(s, stored)
    ensures Based(s', stored)
  {
    var batch := s.phase.batch;
    var o := Oriented(s.core, batch, s.phase.scoredAt, e.matches, e.now);
    if !PassesGate(o) {
      var kept := SilencedBy(o, batch);
      Gate.OrientedIsRanking(s.core, batch, s.phase.scoredAt, e.matches, e.now, o);
      Gate.KeptFromBatch(batch, o, kept);
      ClosedGate(s, e, o, kept, s');
      KeptCarried(s, kept, 5, e.now, s', stored);
    }
  }

  lemma KeptCarried(s: System, kept: seq<Observation>, minutes: int, now: int, s': System, stored: map<string, int>)
    requires s.core.engine.deferred.Valid() && Based(s, stored)
    requires forall o :: o in kept ==> o in Flight(s.phase)
    requires Flight(s'.phase) == [] && s'.issued == s.issued
    requires s'.core.engine == PutBack(s.core.engine, kept, |kept|, minutes, now)
    ensures Based(s', stored)
  {
    PutBackTable(s.core.engine, kept, minutes, now);
    BackCarried(s.core.engine.deferred.items, Flight(s.phase), s.issued, stored, kept, minutes, now,
                s'.core.engine.deferred.items);
  }

  lemma FailCarried(s: System, e: Event, s': System, stored: map<string, int>)
    requires Sound(s) && (e.ScoringFailed? || e.ReplyFailed?) && Enabled(s, e) && s' == Next(s, e)
    requires Based(s, stored)
    ensures Based(s', stored)
  {
    KeptCarried(s, s.phase.batch, 1, e.now, s', stored);
  }

  lemma CollectCarried(e: EngineState, reports: seq<Option<seq<Observation>>>, now: int,
      issued: map<string, Observation>, h: Harvest, stored: map<string, int>)
    requires e.deferred.Valid() && Placed(e.pending, e.deferred.items, [], issued)
    requires Distinct(Gathered(reports))
    requires Ids(Gathered(reports)) !! Ids(e.pending) && Ids(Gathered(reports)) !! e.deferred.items.Keys
    requires forall o :: o in Gathered(reports) ==> o.id in issued && issued[o.id] == o
    requires AllCarried(e.deferred.items, [], issued, stored) && h == Collect(e, reports, now)
    requires stored.Keys !! Ids(e.pending) && stored.Keys !! Ids(Gathered(reports))
    ensures AllCarried(h.engine.deferred.items, h.batch, issued, stored) && h.engine.pending == []
  {
    var all, table := Arrivals(e, reports, now), e.deferred.items;
    ArrivalsDistinct(e, reports, now, issued, all);
    CollectSplits(e, reports, now);
    DrainExact(e.deferred, now);
    forall o | o in h.batch ensures Carried(o, issued, stored) {
      assert o in all;
      if o in e.pending {
        NewIsCarried(e.pending, issued, stored, o);
      } else if o in Gathered(reports) {
        NewIsCarried(Gathered(reports), issued, stored, o);
      } else {
        var k :| k in table && now >= table[k].recheckAt && table[k].observation == o;
      }
    }
  }

  /** What has never been put off as scored is carried as it entered. */
  lemma NewIsCarried(s: seq<Observation>, issued: map<string, Observation>, stored: map<string, int>, o: Observation)
    requires o in s && stored.Keys !! Ids(s) && o.id in issued && issued[o.id] == o
    ensures Carried(o, issued, stored)
  {
    IdsExact(s);
  }

  lemma {:induction false} ObserveCarried(s: System, env: Surroundings, s': System, stored: map<string, int>)
    requires Sound(s) && Plausible(s, env) && Flight(s.phase) == [] && s' == Looked(s, LookingCore(s), env)
    requires Based(s, stored)
    ensures Based(s', stored)
  {
    var core := LookingCore(s);
    var outs, reps := Outcomes(core.tracked.keys, env.tasks, |env.tasks|, env.now), Gathered(env.reports);
    ObserveShape(core, env, Observe(core, env));
    RegisterAll(s.issued, Newcomers(core, env), s'.issued);
    SweptPlaced(core, env, s.issued, s'.issued);
    ConcatIds(outs, reps);
    ConcatDistinct(outs, reps);
    PlacedFlight(s.core.engine.pending, s.core.engine.deferred.items, [], s.issued);
    EarlierIsCarried(s.core.engine.deferred.items, [], s.issued, s'.issued, stored);
    if Collects(core, env) {
      CollectCarried(SweptEngine(core, env), env.reports, env.now, s'.issued, Harvested(core, env), stored);
    }
  }

  lemma EarlierIsCarried(table: Table, flight: seq<Observation>, issued: map<string, Observation>,
      all: map<string, Observation>, stored: map<string, int>)
    requires AllCarried(table, flight, issued, stored) && forall k :: k in issued ==> k in all && all[k] == issued[k]
    ensures AllCarried(table, flight, all, stored)
  {
    forall k | k in table ensures Carried(table[k].observation, all, stored) {
      assert Carried(table[k].observation, issued, stored);
    }
    forall o | o in flight ensures Carried(o, all, stored) {
      assert Carried(o, issued, stored);
    }
  }

  lemma QuietCarried(s: System, e: Event, s': System, stored: map<string, int>)
    requires Sound(s) && Enabled(s, e) && s' == Next(s, e) && Based(s, stored)
    requires Quiet(s, e)
    ensures Based(s', stored)
  {
    QuietMovesNothing(s, e);
  }

  lemma InjectCarried(s: System, o: Observation, s': System, stored: map<string, int>)
    requires Sound(s) && Enabled(s, Injected(o)) && s' == Next(s, Injected(o)) && Based(s, stored)
    ensures Based(s', stored)
  {
    assert o.id !in Ids(s.core.engine.pending) by { IdsExact(s.core.engine.pending); }
    InjectIds(s.core.engine, o, s'.core.engine.pending);
    EarlierIsCarried(s.core.engine.deferred.items, Flight(s.phase), s.issued, s'.issued, stored);
  }

  lemma SentCarried(s: System, s': System, stored: map<string, int>)
    requires Enabled(s, MessageSent) && s' == Next(s, MessageSent) && Based(s, stored)
    ensures Based(s', stored)
  {
  }

  lemma ElsewhereCarried(s: System, e: Event, s': System, stored: map<string, int>)
    requires Sound(s) && Enabled(s, e) && s' == Next(s, e) && Based(s, stored)
    requires !LooksAround(s, e) && !e.Replied?
    ensures Based(s', stored)
  {
    if e.Scored? {
      GateCarried(s, e, s', stored);
    } else if e.ScoringFailed? || e.ReplyFailed? {
      FailCarried(s, e, s', stored);
    } else if e.Injected? {
      InjectCarried(s, e.o, s', stored);
    } else if e.MessageSent? {
      SentCarried(s, s', stored);
    } else {
      QuietCarried(s, e, s', stored);
    }
  }

  lemma NextCarried(s: System, e: Event, s': System, stored: map<string, int>)
    requires Sound(s) && Enabled(s, e) && s' == Next(s, e) && Based(s, stored)
    ensures Based(s', Note(stored, s, e))
  {
    if e.Replied? {
      ActCarried(s, e, VerdictOf(s, e), s', stored);
    } else if LooksAround(s, e) {
      ObserveCarried(s, e.env, s', stored);
    } else {
      ElsewhereCarried(s, e, s', stored);
    }
  }

  lemma {:induction false} AlwaysCarried(config: Config, t0: int, run: Run)
    requires t0 > 0 && Legal(config, t0, run)
    ensures Based(After(config, t0, run), StoredAs(config, t0, run))
  {
    if run != [] {
      var before := run[..|run| - 1];
      AlwaysCarried(config, t0, before);
      AlwaysSound(config, t0, before);
      NextCarried(After(config, t0, before), run[|run| - 1], After(config, t0, run), StoredAs(config, t0,
          before));
    }
  }

  /** WHAT A SCORE IS COMPUTED FROM. Over any run, however often an observation was put back, the score
      it is given next is computed from the priority it first entered with, unless it was put off as
      the scored top of a ranking: then from the score it was put off with, the last time it was. */
  lemma {:induction false} ScoredFromItsBase(config: Config, t0: int, run: Run, s: System, o: Observation, matches: nat,
      actions: Scorer.ActionTable, at: int)
    requires t0 > 0 && Legal(config, t0, run) && s == After(config, t0, run)
    requires o in Flight(s.phase)
    ensures o.id in s.issued
    ensures var entered := s.issued[o.id];
            Scorer.ScoreOne(o, matches, actions, at) ==
            entered.(priority := Scorer.Score(BaseOf(o.id, s.issued, StoredAs(config, t0, run)),
                                              Scorer.InstinctBonus(matches) + Scorer.Severity(entered.source),
                                              Scorer.Penalty(actions, entered, at), entered.actionable))
  {
    AlwaysCarried(config, t0, run);
    assert Carried(o, s.issued, StoredAs(config, t0, run));
  }

  /** SCORES DO NOT COMPOUND: an observation that was never put off as scored is, wherever it is, exactly
      what first entered, and scored as that. */
  lemma {:induction false} ScoredFromTheOriginal(config: Config, t0: int, run: Run, s: System, i: nat, matches: nat)
    requires t0 > 0 && Legal(config, t0, run) && s == After(config, t0, run)
    requires s.phase.Scoring? && i < |s.phase.batch|
    requires s.phase.batch[i].id !in StoredAs(config, t0, run)
    ensures s.phase.batch[i].id in s.issued && s.phase.batch[i] == s.issued[s.phase.batch[i].id]
    ensures var actions, at := Scorer.Pruned(s.core.actions, s.phase.scoredAt), s.phase.scoredAt;
            var o := s.phase.batch[i];
            Scorer.ScoreOne(o, matches, actions, at) == Scorer.ScoreOne(s.issued[o.id], matches, actions, at)
  {
    AlwaysCarried(config, t0, run);
    assert s.phase.batch[i] in s.phase.batch;
    assert Carried(s.phase.batch[i], s.issued, StoredAs(config, t0, run));
  }

  /** A "defer" does compound, and so does a message postponed for a foreground task: what is filed, for
      the given minutes or for five, is the scored and boosted copy. */
  lemma DeferStoresTheScore(s: System, e: Event, v: Verdict, top: Observation)
    requires Sound(s) && e.Replied? && Enabled(s, e) && v == VerdictOf(s, e) && top == s.phase.ranked[0]
    requires v.PutOff? || v.Postponed?
    ensures var table := Next(s, e).core.engine.deferred.items;
            && top.id in table
            && table[top.id] == Deferral(top, e.now + (if v.PutOff? then v.minutes else 5) * MS_PER_MINUTE)
  {
    ActTable(s.core, s.phase.batch, s.phase.ranked, v, e.now);
    TopGoesIn(s.core.unparsedRounds, s.phase.batch, s.phase.ranked, v, e.now);
  }

  lemma TopGoesIn(rounds: map<string, nat>, batch: seq<Observation>, ranked: seq<Observation>, v: Verdict, now: int)
    requires ranked != [] && (v.PutOff? || v.Postponed?)
    ensures var back := ActBack(rounds, batch, ranked, v, now);
            && ranked[0].id in back
            && back[ranked[0].id] == Deferral(ranked[0], now + (if v.PutOff? then v.minutes else 5) * MS_PER_MINUTE)
  {
    if v.PutOff? {
      TopOfPutOff(batch, ranked[0], v.minutes, 1, now);
    } else {
      TopOfPutOff(batch, ranked[0], 5, 5, now);
    }
  }

  lemma TopOfPutOff(batch: seq<Observation>, top: Observation, minutes: int, rest: int, now: int)
    ensures var back := PutOffBack(batch, top, minutes, rest, now);
            top.id in back && back[top.id] == Deferral(top, now + minutes * MS_PER_MINUTE)
  {
    var left := Outside(batch, {top.id});
    OutsideIds(batch, {top.id});
    BackExact(left, rest, now);
    assert top.id !in Back(left, |left|, rest, now);
  }

  // ---------- when it makes a difference ----------

  /** A priority, bonus and penalty taken in, with the lift of five an actionable one over fifty gets. */
  function Lifted(p: int, actionable: bool): int {
    if actionable && p > 50 then p + 5 else p
  }

  /** Two priorities score the same under every bonus and penalty exactly when they are the same, or
      both are pushed against the same end of the scale. */
  predicate ScoreAlike(p: int, q: int, bonus: int, penalty: int, actionable: bool) {
    var x, y := Lifted(p + bonus - penalty, actionable), Lifted(q + bonus - penalty, actionable);
    p == q || (x >= 100 && y >= 100) || (x <= 0 && y <= 0)
  }

  lemma ScoreAlikeIff(p: int, q: int, bonus: int, penalty: int, actionable: bool)
    ensures Scorer.Score(p, bonus, penalty, actionable) == Scorer.Score(q, bonus, penalty, actionable) <==>
            ScoreAlike(p, q, bonus, penalty, actionable)
    ensures Scorer.Score(p, bonus, penalty, actionable) < Scorer.Score(q, bonus, penalty, actionable) <==>
            p < q && !ScoreAlike(p, q, bonus, penalty, actionable)
  {
  }

  /** EXACTLY WHEN A SCORE COMPOUNDS. In every reachable state, an observation about to be scored gets the
      score it should, the one of the priority it entered with, if and only if its base and that
      priority score alike. It gets a higher or a lower one as its base is higher or lower: a boost
      that was in force when it was put off lasts, up or down, after the boost has lapsed. */
  lemma {:induction false} CompoundsIff(config: Config, t0: int, run: Run, s: System, i: nat, matches: nat)
    requires t0 > 0 && Legal(config, t0, run) && s == After(config, t0, run)
    requires s.phase.Scoring? && i < |s.phase.batch|
    ensures s.phase.batch[i].id in s.issued
    ensures var k := s.phase.batch[i].id;
            var entered, base := s.issued[k], BaseOf(k, s.issued, StoredAs(config, t0, run));
            var actions, at := Scorer.Pruned(s.core.actions, s.phase.scoredAt), s.phase.scoredAt;
            var given := Scorer.ScoreOne(s.phase.batch[i], matches, actions, at).priority;
            var due := Scorer.ScoreOne(entered, matches, actions, at).priority;
            var alike := ScoreAlike(base, entered.priority,
                                    Scorer.InstinctBonus(matches) + Scorer.Severity(entered.source),
                                    Scorer.Penalty(actions, entered, at), entered.actionable);
            && (given == due <==> alike)
            && (given > due <==> base > entered.priority && !alike)
            && (given < due <==> base < entered.priority && !alike)
  {
    var o := s.phase.batch[i];
    assert o in s.phase.batch;
    var actions := Scorer.Pruned(s.core.actions, s.phase.scoredAt);
    ScoredFromItsBase(config, t0, run, s, o, matches, actions, s.phase.scoredAt);
    var entered, base := s.issued[o.id], BaseOf(o.id, s.issued, StoredAs(config, t0, run));
    var bonus := Scorer.InstinctBonus(matches) + Scorer.Severity(entered.source);
    var penalty := Scorer.Penalty(actions, entered, s.phase.scoredAt);
    ScoreAlikeIff(base, entered.priority, bonus, penalty, entered.actionable);
    ScoreAlikeIff(entered.priority, base, bonus, penalty, entered.actionable);
  }

  /** With no penalty, and no boost when it was put off, scoring a score again leaves it alone exactly
      when it cannot rise any more or nothing adds to it. (A failed build of base 60 scores 75, comes
      back as 75 and scores 90, comes back as 90 and scores 100.) */
  lemma RescoringStableIff(p: int, bonus: int, actionable: bool)
    requires 0 <= p <= 100 && bonus >= 0
    ensures Scorer.Score(p, bonus, 0, actionable) == p <==> p == 100 || (bonus == 0 && !(actionable && p > 50))
    ensures Scorer.Score(p, bonus, 0, actionable) >= p
    ensures Scorer.Score(60, 10, 0, true) == 75 && Scorer.Score(75, 10, 0, true) == 90
             && Scorer.Score(90, 10, 0, true) == 100
  {
  }
}
