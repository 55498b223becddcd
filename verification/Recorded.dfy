/** What a submitted goal records as acted on, and what that costs. An "execute" records the top of the
    ranking even when its goal answers another observation, and every recorded one comes back, if it
    does, with a penalty. */
module Recorded {
  import opened Observations
  import opened Decisions
  import opened Core
  import opened Daemon
  import Inventory
  import Ledger
  import Recency
  import Refusals
  import Scorer

  // ---------- the full log of what was recorded ----------

  ghost function LogEach(log: Scorer.ActionTable, s: seq<Observation>, n: nat, now: int): Scorer.ActionTable
    requires n <= |s|
  {
    if n == 0 then log else LogEach(log, s, n - 1, now)[Scorer.ActionHash(s[n - 1]) := now]
  }

  /** What a goal is credited with and, for an "execute", the top of the ranking, answered or not. */
  ghost function ActedOn(v: Verdict, top: Observation): seq<Observation>
    requires v.Submitted?
  {
    v.credited + if v.recordTop then [top] else []
  }

  ghost predicate Submits(s: System, e: Event) {
    e.Replied? && Enabled(s, e) && Ledger.VerdictOf(s, e).Submitted?
  }

  ghost function NoteRecorded(log: Scorer.ActionTable, s: System, e: Event): Scorer.ActionTable
    requires Enabled(s, e)
  {
    if Submits(s, e) then
      var acted := ActedOn(Ledger.VerdictOf(s, e), s.phase.ranked[0]);
      LogEach(log, acted, |acted|, e.now)
    else log
  }

  /** When each hash was last recorded, ever: nothing is pruned. */
  ghost function RecordedAfter(config: Config, t0: int, run: Run): Scorer.ActionTable
    requires Legal(config, t0, run)
  {
    if run == [] then map[]
    else
      var before := run[..|run| - 1];
      NoteRecorded(RecordedAfter(config, t0, before), After(config, t0, before), run[|run| - 1])
  }

  /** A submission records an observation when it shares its action hash (its source and the first sixty
      characters of its summary) with one that was acted on. */
  ghost predicate NewlyRecorded(h: Fingerprint, v: Verdict, top: Observation)
    requires v.Submitted?
  {
    || (exists a :: a in v.credited && Scorer.ActionHash(a) == h)
    || (v.recordTop && Scorer.ActionHash(top) == h)
  }

  lemma {:induction false} LogEachExact(log: Scorer.ActionTable, s: seq<Observation>, n: nat, now: int, h: Fingerprint)
    requires n <= |s|
    ensures var r := LogEach(log, s, n, now);
            if exists i :: 0 <= i < n && Scorer.ActionHash(s[i]) == h then h in r && r[h] == now
            else (h in r <==> h in log) && (h in r ==> r[h] == log[h])
  {
    if n > 0 {
      LogEachExact(log, s, n - 1, now, h);
      assert Scorer.ActionHash(s[n - 1]) == Scorer.ActionHash(s[n - 1]);
    }
  }

  /** The log after a submission, at any hash at all. */
  lemma RecordedIff(log: Scorer.ActionTable, v: Verdict, top: Observation, now: int, h: Fingerprint)
    requires v.Submitted?
    ensures var acted := ActedOn(v, top);
            var r := LogEach(log, acted, |acted|, now);
            if NewlyRecorded(h, v, top) then h in r && r[h] == now
            else (h in r <==> h in log) && (h in r ==> r[h] == log[h])
  {
    var acted := ActedOn(v, top);
    LogEachExact(log, acted, |acted|, now, h);
    if NewlyRecorded(h, v, top) {
      var a: Observation :| a in acted && Scorer.ActionHash(a) == h;
      var i :| 0 <= i < |acted| && acted[i] == a;
      assert Scorer.ActionHash(acted[i]) == h;
    } else {
      forall i | 0 <= i < |acted| ensures Scorer.ActionHash(acted[i]) != h {
        assert acted[i] in acted;
      }
    }
  }

  // ---------- the pruned table follows the log ----------

  /** The moment the scores of a running tick are computed for; otherwise the present. */
  ghost function Since(s: System): int {
    if s.phase.Scoring? then s.phase.scoredAt else s.clock
  }

  ghost predicate Follows(table: Scorer.ActionTable, log: Scorer.ActionTable, now: int) {
    && Recency.Covers(table, log, now, Scorer.RECENT_ACTION_WINDOW_MS)
    && (forall h :: h in log ==> 0 < log[h] <= now)
  }

  lemma LaterFollows(table: Scorer.ActionTable, log: Scorer.ActionTable, before: int, now: int)
    requires Follows(table, log, before) && before <= now
    ensures Follows(table, log, now) && Follows(Scorer.Pruned(table, before), log, now)
  {
  }

  lemma RecordFollows(table: Scorer.ActionTable, log: Scorer.ActionTable, o: Observation, now: int)
    requires Follows(table, log, now) && now > 0
    ensures Follows(Scorer.RecordAction(table, o, now), log[Scorer.ActionHash(o) := now], now)
  {
  }

  lemma {:induction false} RecordEachFollows(table: Scorer.ActionTable, log: Scorer.ActionTable, s: seq<Observation>,
      n: nat, now: int)
    requires n <= |s| && Follows(table, log, now) && now > 0
    ensures Follows(RecordEach(table, s, n, now), LogEach(log, s, n, now), now)
  {
    if n > 0 {
      RecordEachFollows(table, log, s, n - 1, now);
      RecordFollows(RecordEach(table, s, n - 1, now), LogEach(log, s, n - 1, now), s[n - 1], now);
    }
  }

  lemma {:induction false} LogEachPrefix(log: Scorer.ActionTable, s: seq<Observation>, t: seq<Observation>, n: nat,
      now: int)
    requires n <= |s|
    ensures LogEach(log, s + t, n, now) == LogEach(log, s, n, now)
  {
    if n > 0 {
      LogEachPrefix(log, s, t, n - 1, now);
    }
  }

  lemma TopCredited(ranked: seq<Observation>, v: Verdict)
    requires ranked != [] && v.Submitted? && Distinct(ranked) && forall a :: a in v.credited ==> a in ranked
    requires ranked[0].id in Ids(v.credited)
    ensures ranked[0] in v.credited
  {
    IdsExact(v.credited);
    var a :| a in v.credited && a.id == ranked[0].id;
    Inventory.DistinctById(ranked, a, ranked[0]);
  }

  /** The program skips the top when it is credited; in the log it makes no difference. */
  lemma SubmissionFollows(table: Scorer.ActionTable, log: Scorer.ActionTable, v: Verdict, ranked: seq<Observation>,
      now: int, recorded: Scorer.ActionTable, table': Scorer.ActionTable, acted: seq<Observation>)
    requires v.Submitted? && ranked != [] && (ranked[0].id in Ids(v.credited) ==> ranked[0] in v.credited)
    requires Follows(table, log, now) && now > 0
    requires recorded == RecordEach(table, v.credited, |v.credited|, now) && acted == ActedOn(v, ranked[0])
    requires table' == if v.recordTop && ranked[0].id !in Ids(v.credited)
                       then Scorer.RecordAction(recorded, ranked[0], now) else recorded
    ensures Follows(table', LogEach(log, acted, |acted|, now), now)
  {
    var credited, top := v.credited, ranked[0];
    var log' := LogEach(log, credited, |credited|, now);
    RecordEachFollows(table, log, credited, |credited|, now);
    if !v.recordTop {
      assert acted == credited;
    } else {
      LogEachPrefix(log, credited, [top], |credited|, now);
      assert LogEach(log, acted, |acted|, now) == log'[Scorer.ActionHash(top) := now];
      if top.id in Ids(credited) {
        TopAlreadyLogged(log, credited, top, now);
      } else {
        RecordFollows(recorded, log', top, now);
      }
    }
  }

  lemma TopAlreadyLogged(log: Scorer.ActionTable, credited: seq<Observation>, top: Observation, now: int)
    requires top in credited
    ensures var r := LogEach(log, credited, |credited|, now); r[Scorer.ActionHash(top) := now] == r
  {
    var i :| 0 <= i < |credited| && credited[i] == top;
    LogEachExact(log, credited, |credited|, now, Scorer.ActionHash(top));
    assert Scorer.ActionHash(credited[i]) == Scorer.ActionHash(top);
  }

  lemma SubmittedActions(s: System, e: Event, v: Verdict, recorded: Scorer.ActionTable)
    requires Submits(s, e) && v == Ledger.VerdictOf(s, e)
    requires recorded == RecordEach(s.core.actions, v.credited, |v.credited|, e.now)
    ensures Next(s, e).core.actions ==
            if v.recordTop && s.phase.ranked[0].id !in Ids(v.credited)
            then Scorer.RecordAction(recorded, s.phase.ranked[0], e.now) else recorded
    ensures Next(s, e).phase == Idle && Next(s, e).clock == e.now
  {
  }

  lemma SubmitFollows(s: System, e: Event, log: Scorer.ActionTable)
    requires Sound(s) && Submits(s, e) && Follows(s.core.actions, log, Since(s))
    ensures Follows(Next(s, e).core.actions, NoteRecorded(log, s, e), Since(Next(s, e)))
  {
    var v, ranked := Ledger.VerdictOf(s, e), s.phase.ranked;
    var recorded := RecordEach(s.core.actions, v.credited, |v.credited|, e.now);
    SubmittedActions(s, e, v, recorded);
    CreditedExactly(e.d, ranked, e.foreground, e.submit);
    if ranked[0].id in Ids(v.credited) {
      TopCredited(ranked, v);
    }
    LaterFollows(s.core.actions, log, s.clock, e.now);
    SubmissionFollows(s.core.actions, log, v, ranked, e.now, recorded, Next(s, e).core.actions, ActedOn(v, ranked[0]));
  }

  lemma ActRecordsNothing(c: CoreState, batch: seq<Observation>, ranked: seq<Observation>, v: Verdict, now: int)
    requires ranked != [] && !v.Submitted?
    ensures Act(c, batch, ranked, v, now).core.actions == c.actions
  {
    if Refusals.ComesToNothing(v) {
      Refusals.ActsIdly(c, batch, ranked, v, now, Act(c, batch, ranked, v, now));
    }
  }

  lemma ActDoesNotScore(c: CoreState, batch: seq<Observation>, ranked: seq<Observation>, v: Verdict, now: int)
    requires ranked != []
    ensures !Act(c, batch, ranked, v, now).phase.Scoring?
  {
  }

  lemma LookStays(s: System, core: CoreState, env: Surroundings, s': System)
    requires Plausible(s, env) && |env.tasks| == |core.tracked.keys| && s' == Looked(s, core, env)
    ensures s'.core.actions == core.actions && Since(s') == env.now
  {
    ObserveShape(core, env, Observe(core, env));
  }

  lemma {:induction false} ActionsStay(s: System, e: Event)
    requires Sound(s) && Enabled(s, e) && !e.Scored? && !Submits(s, e)
    ensures Next(s, e).core.actions == s.core.actions && Since(s) <= Since(Next(s, e))
  {
    if LooksAround(s, e) {
      LookStays(s, Ledger.LookingCore(s), e.env, Next(s, e));
    } else if e.Replied? {
      ActRecordsNothing(s.core, s.phase.batch, s.phase.ranked, Ledger.VerdictOf(s, e), e.now);
      ActDoesNotScore(s.core, s.phase.batch, s.phase.ranked, Ledger.VerdictOf(s, e), e.now);
    }
  }

  lemma NextFollows(s: System, e: Event, log: Scorer.ActionTable)
    requires Sound(s) && Enabled(s, e) && Follows(s.core.actions, log, Since(s))
    ensures Follows(Next(s, e).core.actions, NoteRecorded(log, s, e), Since(Next(s, e)))
  {
    if Submits(s, e) {
      SubmitFollows(s, e, log);
    } else if e.Scored? {
      OrientFrame(s.core, s.phase.batch, s.phase.scoredAt, e.matches, e.now,
                  Orient(s.core, s.phase.batch, s.phase.scoredAt, e.matches, e.now));
      LaterFollows(s.core.actions, log, s.phase.scoredAt, e.now);
    } else {
      ActionsStay(s, e);
      LaterFollows(s.core.actions, log, Since(s), Since(Next(s, e)));
    }
  }

  lemma {:induction false} AlwaysFollows(config: Config, t0: int, run: Run)
    requires t0 > 0 && Legal(config, t0, run)
    ensures var s := After(config, t0, run); Follows(s.core.actions, RecordedAfter(config, t0, run), Since(s))
  {
    if run != [] {
      var before := run[..|run| - 1];
      AlwaysFollows(config, t0, before);
      AlwaysSound(config, t0, before);
      NextFollows(After(config, t0, before), run[|run| - 1], RecordedAfter(config, t0, before));
    }
  }

  /** The penalty o pays when the batch of a running tick is scored. */
  ghost function PenaltyNow(s: System, o: Observation): int
    requires s.phase.Scoring?
  {
    Scorer.Penalty(Scorer.Pruned(s.core.actions, s.phase.scoredAt), o, s.phase.scoredAt)
  }

  /** The penalty the log prescribes for a hash: that of the time since it was last recorded. */
  ghost function PaidSince(log: Scorer.ActionTable, h: Fingerprint, at: int): int {
    if h in log then Scorer.PenaltyFor(at - log[h]) else 0
  }

  /** PRUNING THE ACTIONS IS INVISIBLE, over any run of the daemon: whenever a batch is scored, every
      observation pays exactly what the full log of recorded observations prescribes, the penalty of
      the time since its hash was last recorded. */
  lemma {:induction false} PenaltyFollowsTheLog(config: Config, t0: int, run: Run, s: System, o: Observation)
    requires t0 > 0 && Legal(config, t0, run) && s == After(config, t0, run) && s.phase.Scoring?
    ensures var log, h := RecordedAfter(config, t0, run), Scorer.ActionHash(o);
            PenaltyNow(s, o) == PaidSince(log, h, s.phase.scoredAt)
    ensures forall h :: h in RecordedAfter(config, t0, run) ==> RecordedAfter(config, t0, run)[h] <= s.phase.scoredAt
  {
    AlwaysFollows(config, t0, run);
  }

  // ---------- from a submission on ----------

  ghost predicate Records(s: System, e: Event, h: Fingerprint) {
    Submits(s, e) && NewlyRecorded(h, Ledger.VerdictOf(s, e), s.phase.ranked[0])
  }

  /** No submission in `more` records the hash again. */
  ghost predicate NotRecordedIn(config: Config, t0: int, run: Run, more: Run, h: Fingerprint) {
    more == [] ||
    var front := more[..|more| - 1];
    && NotRecordedIn(config, t0, run, front, h)
    && Legal(config, t0, run + front) && !Records(After(config, t0, run + front), more[|more| - 1], h)
  }

  lemma NextRecorded(log: Scorer.ActionTable, s: System, e: Event, h: Fingerprint)
    requires Enabled(s, e)
    ensures var r := NoteRecorded(log, s, e);
            if Records(s, e, h) then h in r && r[h] == e.now
            else (h in r <==> h in log) && (h in r ==> r[h] == log[h])
  {
    if Submits(s, e) {
      RecordedIff(log, Ledger.VerdictOf(s, e), s.phase.ranked[0], e.now, h);
    }
  }

  /** However the run goes on: a hash stays recorded, no earlier than it was, and unless a submission
      records it again it stays as it is. */
  lemma {:induction false} RecordsLast(config: Config, t0: int, run: Run, more: Run, h: Fingerprint)
    requires t0 > 0 && Legal(config, t0, run) && Legal(config, t0, run + more)
    ensures var log, log' := RecordedAfter(config, t0, run), RecordedAfter(config, t0, run + more);
            && (h in log ==> h in log' && log[h] <= log'[h])
            && (NotRecordedIn(config, t0, run, more, h) ==>
                 (h in log' <==> h in log) && (h in log' ==> log'[h] == log[h]))
  {
    if more == [] {
      assert run + more == run;
    } else {
      var front := more[..|more| - 1];
      WasLegal(config, t0, run, more, |more| - 1);
      RecordsLast(config, t0, run, front, h);
      AlwaysFollows(config, t0, run + front);
      AlwaysSound(config, t0, run + front);
      var s, log := After(config, t0, run + front), RecordedAfter(config, t0, run + front);
      var e := GoesOn(config, t0, run, more, s);
      NextRecorded(log, s, e, h);
    }
  }

  lemma RecordedBy(config: Config, t0: int, run: Run, e: Event, h: Fingerprint) returns (log': Scorer.ActionTable)
    requires Legal(config, t0, run) && Submits(After(config, t0, run), e)
    ensures Legal(config, t0, run + [e]) && log' == RecordedAfter(config, t0, run + [e])
    ensures var log := RecordedAfter(config, t0, run);
            if Records(After(config, t0, run), e, h) then h in log' && log'[h] == e.now
            else (h in log' <==> h in log) && (h in log' ==> log'[h] == log[h])
  {
    assert (run + [e])[..|run + [e]| - 1] == run;
    log' := RecordedAfter(config, t0, run + [e]);
    NextRecorded(RecordedAfter(config, t0, run), After(config, t0, run), e, h);
  }

  /** What an observation pays when a run has gone on, told by what was on record before it did. */
  lemma PaidLater(config: Config, t0: int, run: Run, more: Run, o: Observation, s: System,
      log: Scorer.ActionTable, h: Fingerprint)
    requires t0 > 0 && Legal(config, t0, run) && Legal(config, t0, run + more)
    requires s == After(config, t0, run + more) && s.phase.Scoring?
    requires log == RecordedAfter(config, t0, run) && h == Scorer.ActionHash(o)
    ensures NotRecordedIn(config, t0, run, more, h) ==> PenaltyNow(s, o) == PaidSince(log, h, s.phase.scoredAt)
    ensures PenaltyNow(s, o) >= PaidSince(log, h, s.phase.scoredAt)
  {
    RecordsLast(config, t0, run, more, h);
    PenaltyFollowsTheLog(config, t0, run + more, s, o);
  }

  /** EXACTLY WHAT A SUBMISSION PENALISES. However a run goes on after a submitted goal, whenever a batch
      is scored: until another submission records it, an observation pays the penalty of the time since
      if and only if it shares its action hash with one the goal is credited with or, for an "execute",
      with the top of the ranking, answered or not; every other observation pays what it would have
      paid without. And one that shares it pays at least that for good. */
  lemma {:induction false} SubmissionPenalises(config: Config, t0: int, run: Run, e: Event, more: Run, o: Observation,
      s: System, s': System)
    requires t0 > 0 && Legal(config, t0, run) && s == After(config, t0, run) && Submits(s, e)
    requires Legal(config, t0, run + [e] + more) && s' == After(config, t0, run + [e] + more) && s'.phase.Scoring?
    ensures var at, h, log := s'.phase.scoredAt, Scorer.ActionHash(o), RecordedAfter(config, t0, run);
            && (NotRecordedIn(config, t0, run + [e], more, h) ==>
                 PenaltyNow(s', o) == if Records(s, e, h) then Scorer.PenaltyFor(at - e.now) else PaidSince(log, h, at))
            && (Records(s, e, h) ==> PenaltyNow(s', o) >= Scorer.PenaltyFor(at - e.now))
  {
    var h := Scorer.ActionHash(o);
    var log' := RecordedBy(config, t0, run, e, h);
    PaidLater(config, t0, run + [e], more, o, s', log', h);
  }

  /** Whatever a submitted goal is credited with pays at least the penalty of the time since, for good. */
  lemma AnsweredArePenalised(config: Config, t0: int, run: Run, e: Event, more: Run, o: Observation, s: System,
      s': System)
    requires t0 > 0 && Legal(config, t0, run) && s == After(config, t0, run) && Submits(s, e)
    requires o in Ledger.VerdictOf(s, e).credited
    requires Legal(config, t0, run + [e] + more) && s' == After(config, t0, run + [e] + more) && s'.phase.Scoring?
    ensures PenaltyNow(s', o) >= Scorer.PenaltyFor(s'.phase.scoredAt - e.now)
  {
    SubmissionPenalises(config, t0, run, e, more, o, s, s');
  }

  /** The top of the ranking, actionable and not answered by the "execute" that was submitted, is put
      back for a minute, and pays the same from then on. */
  lemma {:induction false} UnansweredTopIsPenalised(config: Config, t0: int, run: Run, e: Event, more: Run,
      top: Observation, s: System, s': System)
    requires t0 > 0 && Legal(config, t0, run) && s == After(config, t0, run) && Submits(s, e)
    requires Ledger.VerdictOf(s, e).recordTop && top == s.phase.ranked[0]
    requires top.actionable && top.id !in Ids(Ledger.VerdictOf(s, e).credited)
    requires Legal(config, t0, run + [e] + more) && s' == After(config, t0, run + [e] + more) && s'.phase.Scoring?
    ensures top.id in Next(s, e).core.engine.deferred.items
             && Next(s, e).core.engine.deferred.items[top.id].recheckAt == e.now + 60_000
    ensures PenaltyNow(s', top) >= Scorer.PenaltyFor(s'.phase.scoredAt - e.now)
  {
    AlwaysSound(config, t0, run);
    TopGoesBack(s, e, Ledger.VerdictOf(s, e), top);
    SubmissionPenalises(config, t0, run, e, more, top, s, s');
  }

  lemma TopGoesBack(s: System, e: Event, v: Verdict, top: Observation)
    requires Sound(s) && Submits(s, e) && v == Ledger.VerdictOf(s, e)
    requires top == s.phase.ranked[0] && top.actionable && top.id !in Ids(v.credited)
    ensures var table := Next(s, e).core.engine.deferred.items;
            top.id in table && table[top.id].recheckAt == e.now + 60_000
  {
    var back := Inventory.ActBack(s.core.unparsedRounds, s.phase.batch, s.phase.ranked, v, e.now);
    Ledger.ActLeaves(s, e, v, back);
    IdsExact(s.phase.ranked);
    assert top in s.phase.ranked;
    assert top.id in ActionableIds(s.phase.batch);
    assert top.id in Inventory.TableWork(back);
    Inventory.BackExact(Outside(s.phase.batch, Ids(v.credited)), 1, e.now);
  }
}
