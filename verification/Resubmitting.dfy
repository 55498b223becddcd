/** A goal that singles out none of several observations settles none: all of them come back in a minute,
    and what the gate makes of them then is told by what is on record before. */
module Resubmitting {
  import opened Observations
  import opened Decisions
  import opened Core
  import opened Daemon
  import opened Ledger
  import opened Overriding
  import Engine
  import Finality
  import Gate
  import Inventory
  import Keeping
  import Recorded
  import Refusals
  import Rescoring
  import Scorer

  // ---------- what is settled ----------

  lemma NamingNothing(d: Decision, ranked: seq<Observation>, foreground: int, submit: Option<string>)
    requires d.named == [] && |ranked| >= 2
    ensures var v := Judge(d, ranked, foreground, submit);
            && (v.Submitted? <==> d.action.Execute? && Given(d.goal) && AllActionable(ranked) && submit.Some?)
            && (v.Submitted? ==> v == Submitted(submit.value, [], true))
  {
    GoalAllowedIff(ranked, []);
    var v := Judge(d, ranked, foreground, submit);
    if v.Submitted? {
      CreditedExactly(d, ranked, foreground, submit);
    }
  }

  lemma SameWork(batch: seq<Observation>, ranked: seq<Observation>)
    requires Gate.RankingOf(batch, ranked) && Distinct(batch)
    ensures AllActionable(ranked) <==> AllActionable(batch)
  {
    Finality.WhoseIds(batch, ranked, []);
    if AllActionable(batch) {
      forall r | r in ranked ensures r.actionable {
        var o :| o in batch && Scorer.SameButPriority(o, r);
      }
    }
  }

  /** WHAT A GOAL THAT NAMES NOTHING SETTLES: of a batch of several, nothing. In every reachable state it is
      submitted exactly when it is a given "execute" goal, all of the batch is work and submitting works;
      its task is followed up, it is credited with nothing, and every observation of the batch is
      back, as it was collected, in a minute. */
  lemma {:induction false} SettlesNothing(s: System, e: Event, v: Verdict, batch: seq<Observation>, s': System)
    requires Sound(s) && Enabled(s, e) && e.Replied? && v == VerdictOf(s, e) && s' == Next(s, e)
    requires batch == s.phase.batch && |batch| >= 2 && e.d.named == []
    ensures v.Submitted? <==>
            e.d.action.Execute? && Given(e.d.goal) && AllActionable(batch) && e.submit.Some?
    ensures v.Submitted? ==>
              && v == Submitted(e.submit.value, [], true) && Finality.CreditedBy(s, e) == {}
              && v.task in s'.core.tracked.items && s'.core.tracked.items[v.task] == e.now
              && Refusals.ComesBack(s', batch, e.now + Engine.MS_PER_MINUTE)
  {
    NamingNothing(e.d, s.phase.ranked, e.foreground, e.submit);
    SameWork(batch, s.phase.ranked);
    if v.Submitted? {
      UnnamedComeBack(s, e, v, batch, s');
    }
  }

  lemma UnnamedComeBack(s: System, e: Event, v: Verdict, batch: seq<Observation>, s': System)
    requires Sound(s) && Enabled(s, e) && e.Replied? && v == VerdictOf(s, e) && s' == Next(s, e)
    requires batch == s.phase.batch && v.Submitted? && v.credited == []
    ensures Refusals.ComesBack(s', batch, e.now + Engine.MS_PER_MINUTE)
  {
    var back := Inventory.ActBack(s.core.unparsedRounds, batch, s.phase.ranked, v, e.now);
    ActLeaves(s, e, v, back);
    assert Ids([]) == {};
    Inventory.OutsideNothing(batch);
    assert Inventory.SettledIds(batch, v) == {};
    Refusals.AllComeBack(s, s', batch, 1, back, e.now);
  }

  // ---------- what the gate goes by ----------

  /** What each observation of a batch should score, told by the logs alone: from the priority it first
      entered with or was last put off with, the instincts that match, the time since its hash was
      last recorded and the boost in force. */
  ghost function LoggedScore(s: System, o: Observation, matches: nat, recorded: Scorer.ActionTable, log: AdjustLog,
      now: int): int
    requires s.phase.Scoring?
  {
    var penalty := Recorded.PaidSince(recorded, Scorer.ActionHash(o), s.phase.scoredAt);
    Scorer.Clamp(Scorer.Score(o.priority, Scorer.InstinctBonus(matches) + Scorer.Severity(o.source), penalty,
                              o.actionable)
                 + BoostInForce(log, o.source.Name(), now))
  }

  lemma IdealIsLogged(config: Config, t0: int, run: Run, s: System, log: AdjustLog, matches: seq<nat>, i: nat,
      now: int)
    requires t0 > 0 && Legal(config, t0, run) && s == After(config, t0, run)
    requires Enabled(s, Scored(matches, now)) && i < |s.phase.batch|
    ensures IdealScore(s, log, matches, i, now)
         == LoggedScore(s, s.phase.batch[i], matches[i], Recorded.RecordedAfter(config, t0, run), log, now)
  {
    Recorded.PenaltyFollowsTheLog(config, t0, run, s, s.phase.batch[i]);
  }

  /** THE LOGS DECIDE. Whenever a batch reaches the gate, it is let through exactly when some observation's
      score, with the penalty the log of recorded observations prescribes and the boost the log of
      adjustments does, reaches the threshold the latter prescribes. */
  lemma {:induction false} GateFollowsTheLogs(config: Config, t0: int, run: Run, s: System, log: AdjustLog,
      recorded: Scorer.ActionTable, matches: seq<nat>, now: int)
    requires t0 > 0 && Legal(config, t0, run) && s == After(config, t0, run) && Enabled(s, Scored(matches, now))
    requires log == LogAfter(config, t0, run) && recorded == Recorded.RecordedAfter(config, t0, run)
    ensures Next(s, Scored(matches, now)).phase.Thinking? <==>
            exists i :: 0 <= i < |s.phase.batch| &&
              LoggedScore(s, s.phase.batch[i], matches[i], recorded, log, now)
              >= ThresholdInForce(log, config.minObservationPriority, now)
  {
    GateFollowsTheLog(config, t0, run, s, log, matches, now);
    forall i | 0 <= i < |s.phase.batch|
      ensures IdealScore(s, log, matches, i, now)
           == LoggedScore(s, s.phase.batch[i], matches[i], recorded, log, now) {
      IdealIsLogged(config, t0, run, s, log, matches, i, now);
    }
  }

  lemma RankedCopy(c: CoreState, batch: seq<Observation>, i: nat, at: int, matches: seq<nat>, now: int,
      o: Orientation)
    requires i < |batch| == |matches| && Distinct(batch) && o == Oriented(c, batch, at, matches, now)
    ensures batch[i].(priority := Gate.GateScore(c, batch, i, at, matches, now)) in o.ranked
  {
    var u, r := Gate.GateScoreInRanking(c, batch, i, at, matches, now, o);
    Gate.OrientedIsRanking(c, batch, at, matches, now, o);
    var x :| x in batch && Scorer.SameButPriority(x, r);
    Inventory.DistinctById(batch, x, batch[i]);
  }

  /** WHAT REASONING IS SHOWN. A batch that is let through goes on as it is, and is shown ranked: every observation
      of it, with the score the logs prescribe, highest first, and nothing else. */
  lemma {:induction false} RankedByTheLogs(config: Config, t0: int, run: Run, s: System, log: AdjustLog,
      recorded: Scorer.ActionTable, matches: seq<nat>, now: int, s': System)
    requires t0 > 0 && Legal(config, t0, run) && s == After(config, t0, run) && Enabled(s, Scored(matches, now))
    requires log == LogAfter(config, t0, run) && recorded == Recorded.RecordedAfter(config, t0, run)
    requires s' == Next(s, Scored(matches, now)) && s'.phase.Thinking?
    ensures s'.phase.batch == s.phase.batch && Gate.RankingOf(s.phase.batch, s'.phase.ranked)
    ensures forall i :: 0 <= i < |s.phase.batch| ==>
              s.phase.batch[i].(priority := LoggedScore(s, s.phase.batch[i], matches[i], recorded, log, now))
                in s'.phase.ranked
  {
    AlwaysSound(config, t0, run);
    AlwaysMirrors(config, t0, run);
    var o := Oriented(s.core, s.phase.batch, s.phase.scoredAt, matches, now);
    ShownAsRanked(s, matches, now, s', o);
    forall i | 0 <= i < |s.phase.batch|
      ensures s.phase.batch[i].(priority := LoggedScore(s, s.phase.batch[i], matches[i], recorded, log, now))
                in s'.phase.ranked {
      RankedCopy(s.core, s.phase.batch, i, s.phase.scoredAt, matches, now, o);
      GateScoreIsIdeal(s, log, matches, i, now);
      IdealIsLogged(config, t0, run, s, log, matches, i, now);
    }
  }

  lemma ShownAsRanked(s: System, matches: seq<nat>, now: int, s': System, o: Orientation)
    requires Sound(s) && Enabled(s, Scored(matches, now)) && s' == Next(s, Scored(matches, now)) && s'.phase.Thinking?
    requires o == Oriented(s.core, s.phase.batch, s.phase.scoredAt, matches, now)
    ensures s'.phase == Thinking(s.phase.batch, o.ranked) && Gate.RankingOf(s.phase.batch, o.ranked)
  {
    Gate.OrientedIsRanking(s.core, s.phase.batch, s.phase.scoredAt, matches, now, o);
  }

  // ---------- until the next reply ----------

  ghost predicate NoReply(more: Run) {
    forall x :: x in more ==> !x.Replied?
  }

  lemma {:induction false} IssuedStays(s: System, e: Event)
    requires Sound(s) && Enabled(s, e)
    ensures forall k :: k in s.issued ==> k in Next(s, e).issued && Next(s, e).issued[k] == s.issued[k]
  {
    if LooksAround(s, e) {
      RegisterAll(s.issued, Newcomers(LookingCore(s), e.env), Next(s, e).issued);
    }
  }

  /** What is on record stays as it is, and what has entered is remembered. */
  lemma {:induction false} RecordsStand(config: Config, t0: int, run: Run, more: Run)
    requires t0 > 0 && Legal(config, t0, run) && Legal(config, t0, run + more) && NoReply(more)
    ensures LogAfter(config, t0, run + more) == LogAfter(config, t0, run)
    ensures Recorded.RecordedAfter(config, t0, run + more) == Recorded.RecordedAfter(config, t0, run)
    ensures Rescoring.StoredAs(config, t0, run + more) == Rescoring.StoredAs(config, t0, run)
    ensures forall k :: k in After(config, t0, run).issued ==>
              && k in After(config, t0, run + more).issued
              && After(config, t0, run + more).issued[k] == After(config, t0, run).issued[k]
  {
    if more == [] {
      assert run + more == run;
    } else {
      var front := more[..|more| - 1];
      WasLegal(config, t0, run, more, |more| - 1);
      RecordsStand(config, t0, run, front);
      AlwaysSound(config, t0, run + front);
      var s := After(config, t0, run + front);
      var e := GoesOn(config, t0, run, more, s);
      assert e in more;
      IssuedStays(s, e);
    }
  }

  /** What is carried in two states with the same base is the same. */
  lemma SameBase(o: Observation, b: Observation, issued: map<string, Observation>, stored: map<string, int>,
      issued': map<string, Observation>)
    requires o.id == b.id && Rescoring.Carried(b, issued, stored) && Rescoring.Carried(o, issued', stored)
    requires forall k :: k in issued ==> k in issued' && issued'[k] == issued[k]
    ensures o == b
  {
  }

  lemma CameBackAsItWas(config: Config, t0: int, run: Run, more: Run, s: System, s': System, o: Observation,
      b: Observation)
    requires t0 > 0 && Legal(config, t0, run) && Legal(config, t0, run + more) && NoReply(more)
    requires s == After(config, t0, run) && s' == After(config, t0, run + more)
    requires o in Flight(s'.phase) && o.id == b.id
    requires Rescoring.Carried(b, s.issued, Rescoring.StoredAs(config, t0, run))
    ensures o == b
  {
    RecordsStand(config, t0, run, more);
    Rescoring.AlwaysCarried(config, t0, run + more);
    SameBase(o, b, s.issued, Rescoring.StoredAs(config, t0, run), s'.issued);
  }

  lemma GateByEarlierLogs(config: Config, t0: int, run: Run, more: Run, s: System, log: AdjustLog,
      recorded: Scorer.ActionTable, matches: seq<nat>, now: int)
    requires t0 > 0 && Legal(config, t0, run) && Legal(config, t0, run + more) && NoReply(more)
    requires s == After(config, t0, run + more) && Enabled(s, Scored(matches, now))
    requires log == LogAfter(config, t0, run) && recorded == Recorded.RecordedAfter(config, t0, run)
    ensures Next(s, Scored(matches, now)).phase.Thinking? <==>
            exists i :: 0 <= i < |s.phase.batch| &&
              LoggedScore(s, s.phase.batch[i], matches[i], recorded, log, now)
              >= ThresholdInForce(log, config.minObservationPriority, now)
  {
    RecordsStand(config, t0, run, more);
    GateFollowsTheLogs(config, t0, run + more, s, log, recorded, matches, now);
  }

  // ---------- the gate after a goal that named nothing ----------

  /** At e a goal is submitted that names none of the several observations of its batch. */
  ghost predicate SubmitsUnnamed(s: System, e: Event) {
    Recorded.Submits(s, e) && e.d.named == [] && |s.phase.batch| >= 2
  }

  /** All it puts on record is the top of the ranking. */
  lemma UnnamedRecorded(config: Config, t0: int, run: Run, e: Event, s: System, run': Run)
    requires t0 > 0 && Legal(config, t0, run) && s == After(config, t0, run) && SubmitsUnnamed(s, e)
    requires run' == run + [e]
    ensures Legal(config, t0, run') && After(config, t0, run') == Next(s, e)
    ensures LogAfter(config, t0, run') == LogAfter(config, t0, run)
    ensures Recorded.RecordedAfter(config, t0, run')
         == Recorded.RecordedAfter(config, t0, run)[Scorer.ActionHash(s.phase.ranked[0]) := e.now]
    ensures Rescoring.StoredAs(config, t0, run') == Rescoring.StoredAs(config, t0, run)
    ensures Next(s, e).issued == s.issued
  {
    AlwaysSound(config, t0, run);
    assert run'[..|run'| - 1] == run;
    SettlesNothing(s, e, VerdictOf(s, e), s.phase.batch, Next(s, e));
    OnlyTheTop(Recorded.RecordedAfter(config, t0, run), VerdictOf(s, e), s.phase.ranked[0], e.now);
  }

  lemma OnlyTheTop(log: Scorer.ActionTable, v: Verdict, top: Observation, now: int)
    requires v.Submitted? && v.credited == [] && v.recordTop
    ensures var acted := Recorded.ActedOn(v, top);
            Recorded.LogEach(log, acted, |acted|, now) == log[Scorer.ActionHash(top) := now]
  {
    assert Recorded.ActedOn(v, top) == [top];
    assert Recorded.LogEach(log, [top], 0, now) == log;
  }

  lemma BatchAsItWas(config: Config, t0: int, run: Run, e: Event, more: Run, s: System, s': System)
    requires t0 > 0 && Legal(config, t0, run) && s == After(config, t0, run) && SubmitsUnnamed(s, e)
    requires Legal(config, t0, run + [e] + more) && s' == After(config, t0, run + [e] + more) && NoReply(more)
    ensures forall o, b :: o in Flight(s'.phase) && b in s.phase.batch && o.id == b.id ==> o == b
  {
    UnnamedRecorded(config, t0, run, e, s, run + [e]);
    Rescoring.AlwaysCarried(config, t0, run);
    forall o, b | o in Flight(s'.phase) && b in s.phase.batch && o.id == b.id ensures o == b {
      CameBackAsItWas(config, t0, run + [e], more, Next(s, e), s', o, b);
    }
  }

  /** WHEN THE SAME BATCH GOES THROUGH AGAIN. Up to the next reply, what came back is as it was, and a batch
      is let through the gate exactly when some observation's score reaches the threshold, by the records
      as they stood before the goal was submitted, with the top of that ranking added to them. */
  lemma {:induction false} NextGateIff(config: Config, t0: int, run: Run, e: Event, more: Run, s: System, s': System,
      log: AdjustLog, recorded: Scorer.ActionTable, matches: seq<nat>, now: int)
    requires t0 > 0 && Legal(config, t0, run) && s == After(config, t0, run) && SubmitsUnnamed(s, e)
    requires Legal(config, t0, run + [e] + more) && s' == After(config, t0, run + [e] + more) && NoReply(more)
    requires Enabled(s', Scored(matches, now)) && log == LogAfter(config, t0, run)
    requires recorded == Recorded.RecordedAfter(config, t0, run)[Scorer.ActionHash(s.phase.ranked[0]) := e.now]
    ensures forall o, b :: o in s'.phase.batch && b in s.phase.batch && o.id == b.id ==> o == b
    ensures Next(s', Scored(matches, now)).phase.Thinking? <==>
            exists i :: 0 <= i < |s'.phase.batch| &&
              LoggedScore(s', s'.phase.batch[i], matches[i], recorded, log, now)
              >= ThresholdInForce(log, config.minObservationPriority, now)
  {
    UnnamedRecorded(config, t0, run, e, s, run + [e]);
    GateByEarlierLogs(config, t0, run + [e], more, s', log, recorded, matches, now);
    BatchAsItWas(config, t0, run, e, more, s, s');
  }

  lemma StrongScore(s: System, o: Observation, matches: nat, recorded: Scorer.ActionTable, log: AdjustLog, now: int)
    requires s.phase.Scoring? && forall k :: k in recorded ==> recorded[k] + 60_000 <= s.phase.scoredAt
    requires o.actionable && o.priority + Scorer.Severity(o.source) >= 95
    requires BoostInForce(log, o.source.Name(), now) >= 0
    ensures LoggedScore(s, o, matches, recorded, log, now) >= 80
  {
    var penalty := Recorded.PaidSince(recorded, Scorer.ActionHash(o), s.phase.scoredAt);
    assert penalty <= 20;
    assert Scorer.Score(o.priority, Scorer.InstinctBonus(matches) + Scorer.Severity(o.source), penalty, true) >= 80;
  }

  lemma RecordedByThen(config: Config, t0: int, run: Run, e: Event, s: System, recorded: Scorer.ActionTable)
    requires t0 > 0 && Legal(config, t0, run) && s == After(config, t0, run) && SubmitsUnnamed(s, e)
    requires recorded == Recorded.RecordedAfter(config, t0, run)[Scorer.ActionHash(s.phase.ranked[0]) := e.now]
    ensures forall k :: k in recorded ==> recorded[k] <= e.now
  {
    Recorded.AlwaysFollows(config, t0, run);
  }

  lemma UnnamedIsWork(s: System, e: Event, b: Observation)
    requires Sound(s) && SubmitsUnnamed(s, e) && b in s.phase.batch
    ensures b.actionable
  {
    SettlesNothing(s, e, VerdictOf(s, e), s.phase.batch, Next(s, e));
  }

  lemma MemberById(s: seq<Observation>, k: string) returns (i: nat)
    requires k in Ids(s)
    ensures i < |s| && s[i].id == k
  {
    IdsExact(s);
    var o :| o in s && o.id == k;
    i :| 0 <= i < |s| && s[i] == o;
  }

  /** THE SAME BATCH DOES GO THROUGH AGAIN. A minute after the goal, whatever was recorded before: with a
      configured minimum of at most 80, one strong piece of work among those that came back, whose source
      is not demoted, is enough, whatever threshold was set. (A failed build of 85: 85 + 10 - 20, and
      5 for work over 50, is 80, the highest threshold there is.) */
  lemma {:induction false} GoesThroughAgain(config: Config, t0: int, run: Run, e: Event, more: Run, s: System,
      s': System, matches: seq<nat>, now: int, b: Observation)
    requires t0 > 0 && Legal(config, t0, run) && s == After(config, t0, run) && SubmitsUnnamed(s, e)
    requires Legal(config, t0, run + [e] + more) && s' == After(config, t0, run + [e] + more) && NoReply(more)
    requires Enabled(s', Scored(matches, now)) && s'.phase.scoredAt >= e.now + 60_000
    requires b in s.phase.batch && b.id in Ids(s'.phase.batch)
    requires b.priority + Scorer.Severity(b.source) >= 95 && config.minObservationPriority <= 80
    requires BoostInForce(LogAfter(config, t0, run), b.source.Name(), now) >= 0
    ensures Next(s', Scored(matches, now)).phase.Thinking?
  {
    var log := LogAfter(config, t0, run);
    var recorded := Recorded.RecordedAfter(config, t0, run)[Scorer.ActionHash(s.phase.ranked[0]) := e.now];
    NextGateIff(config, t0, run, e, more, s, s', log, recorded, matches, now);
    var i := MemberById(s'.phase.batch, b.id);
    assert s'.phase.batch[i] == b;
    AlwaysSound(config, t0, run);
    UnnamedIsWork(s, e, b);
    RecordedByThen(config, t0, run, e, s, recorded);
    StrongScore(s', b, matches[i], recorded, log, now);
    Keeping.ThresholdBounded(config, t0, run, log, config.minObservationPriority, now);
  }
}
