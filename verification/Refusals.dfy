/** The reasoning rounds that come to nothing: which of them are charged, what the others leave behind,
    and how often an observation can be put through one. */
module Refusals {
  import opened Observations
  import opened Engine
  import opened Decisions
  import opened Core
  import opened Inventory
  import opened Daemon
  import opened Ledger
  import opened Holds
  import Finality
  import Mailbox
  import Patience
  import Rescoring

  // ---------- what is not charged ----------

  /** No goal is handed over, nothing is said, nothing is put off and nothing is adjusted. */
  ghost predicate ComesToNothing(v: Verdict) {
    !v.Submitted? && !v.Spoke? && !v.Postponed? && !v.PutOff? && !v.Adjusted?
  }

  /** A goal naming these ids answers actionable work of the batch. */
  ghost predicate AnswersWork(ranked: seq<Observation>, named: seq<string>) {
    || (exists o :: o in ranked && o.id in named && o.actionable)
    || (named == [] && ranked != [] && AllActionable(ranked))
  }

  /** The decisions that come to nothing and are let off: a readable "wait", an "escalate" without a
      question, an "adjust" without adjustments, and a goal that answers no actionable work of its
      batch or that could not be submitted. */
  ghost predicate LetOff(d: Decision, ranked: seq<Observation>, submit: Option<string>) {
    || (d.action.Wait? && !d.unparsed)
    || (d.action.Escalate? && !Given(d.question))
    || (d.action.Adjust? && d.adjustments.None?)
    || ((d.action.Execute? || d.action.Batch?) && !IsUnusable(d) && (!AnswersWork(ranked, d.named) || submit.None?))
  }

  /** WHAT IS NOT CHARGED. The rule that a decision which cannot be carried out is no decision, and is
      charged like an unreadable one, has exactly these holes. */
  lemma NotChargedIff(d: Decision, ranked: seq<Observation>, foreground: int, submit: Option<string>)
    ensures var v := Judge(d, ranked, foreground, submit);
            && (ComesToNothing(v) && !Patience.Chargeable(v) <==> LetOff(d, ranked, submit))
            && (Patience.Chargeable(v) <==> ComesToNothing(v) && !LetOff(d, ranked, submit))
  {
    GoalAllowedIff(ranked, d.named);
  }

  /** A round that comes to nothing hands over, says, puts off and adjusts nothing: what it can change is
      the engine and the charges, and what it says is the warning of an unreadable one. */
  lemma NothingHappens(s: System, e: Event, v: Verdict, s': System)
    requires Sound(s) && e.Replied? && Enabled(s, e) && v == VerdictOf(s, e) && s' == Next(s, e)
    requires ComesToNothing(v)
    ensures s'.core.tracked == s.core.tracked && s'.core.actions == s.core.actions
    ensures s'.core.overrides == s.core.overrides && s'.core.chat == s.core.chat
    ensures !v.Unreadable? ==> Mailbox.Said(s, e) == [] && s'.core.held == s.core.held
  {
    ActsIdly(s.core, s.phase.batch, s.phase.ranked, v, e.now, Act(s.core, s.phase.batch, s.phase.ranked, v, e.now));
  }

  /** The same, but for the engine, the charges and what was reported or held. */
  ghost predicate Idly(c: CoreState, c': CoreState) {
    c'.tracked == c.tracked && c'.actions == c.actions && c'.overrides == c.overrides && c'.chat == c.chat
  }

  lemma ActsIdly(c: CoreState, batch: seq<Observation>, ranked: seq<Observation>, v: Verdict, now: int, t: Turn)
    requires ranked != [] && ComesToNothing(v) && t == Act(c, batch, ranked, v, now)
    ensures Idly(c, t.core) && (!v.Unreadable? ==> t.core.held == c.held)
  {
    match v
    case Unusable => ChargesIdly(c, batch, now, ChargeRound(c, batch, now));
    case Unreadable(warning) =>
      ChargesIdly(c, batch, now, ChargeRound(c, batch, now));
      WarnsIdly(c, batch, warning, now, UnreadableRound(c, batch, warning, now));
    case _ =>
  }

  lemma ChargesIdly(c: CoreState, batch: seq<Observation>, now: int, c': CoreState)
    requires c' == ChargeRound(c, batch, now)
    ensures Idly(c, c') && c'.held == c.held
  {
  }

  lemma WarnsIdly(c: CoreState, batch: seq<Observation>, warning: string, now: int, c': CoreState)
    requires c' == UnreadableRound(c, batch, warning, now)
    ensures Idly(c, c')
  {
    ChargesIdly(c, batch, now, ChargeRound(c, batch, now));
  }

  /** Any other round leaves its mark: a task that is followed up, a text that is said, the top filed for
      at least a minute as scored, or overrides that are set. */
  lemma SomethingHappens(s: System, e: Event, v: Verdict, s': System)
    requires Sound(s) && e.Replied? && Enabled(s, e) && v == VerdictOf(s, e) && s' == Next(s, e)
    requires !ComesToNothing(v)
    ensures v.Submitted? ==> v.task in s'.core.tracked.items && s'.core.tracked.items[v.task] == e.now
    ensures v.Spoke? ==> Mailbox.Said(s, e) == [v.text]
    ensures v.Adjusted? ==>
              && s'.core.overrides == ApplyAdjustments(s.core.overrides, v.a, e.now)
              && (|| s'.core.overrides.thresholdExpiresAt == Some(e.now + 1_800_000)
                  || (exists x :: x in s'.core.overrides.boostExpiresAt
                        && s'.core.overrides.boostExpiresAt[x] == e.now + 1_800_000)
                  || s'.core.overrides.intervalMs.Some?)
    ensures v.PutOff? || v.Postponed? ==>
              s.phase.ranked[0].id in s'.core.engine.deferred.items
              && s'.core.engine.deferred.items[s.phase.ranked[0].id].observation == s.phase.ranked[0]
  {
    if v.PutOff? || v.Postponed? {
      Rescoring.DeferStoresTheScore(s, e, v, s.phase.ranked[0]);
    } else if v.Adjusted? {
      AdjustmentShows(s.core.overrides, v.a, e.now, s'.core.overrides);
    }
  }

  lemma AdjustmentShows(o: Overrides, a: Adjustments, now: int, o': Overrides)
    requires a != Adjustments(None, None, None) && o' == ApplyAdjustments(o, a, now)
    ensures || o'.thresholdExpiresAt == Some(now + 1_800_000)
            || (exists x :: x in o'.boostExpiresAt
                  && o'.boostExpiresAt[x] == now + 1_800_000)
            || o'.intervalMs.Some?
  {
    if a.sourceBoost.Some? {
      assert a.sourceBoost.value.source in o'.boostExpiresAt;
    }
  }

  // ---------- what the rounds leave behind ----------

  /** What comes back as it was collected, after so many minutes; the informational rest is gone. */
  ghost predicate ComesBack(s: System, batch: seq<Observation>, recheckAt: int) {
    forall o :: o in batch ==>
      if o.actionable
      then o.id in s.core.engine.deferred.items && s.core.engine.deferred.items[o.id] == Deferral(o, recheckAt)
      else o.id !in Finality.Places(s)
  }

  lemma AllComeBack(s: System, s': System, batch: seq<Observation>, minutes: int, back: Table, now: int)
    requires Sound(s) && batch == Flight(s.phase) && back == Back(batch, |batch|, minutes, now)
    requires Leaves(s, s', {}, back, now)
    ensures ComesBack(s', batch, now + minutes * MS_PER_MINUTE)
  {
    BackExact(batch, minutes, now);
    IdsExact(batch);
    forall o | o in batch
      ensures o.actionable ==> o.id in back && back[o.id].observation == o
      ensures !o.actionable ==> o.id !in back {
      if o.id in back {
        DistinctById(batch, o, back[o.id].observation);
      }
    }
    PlacedFlight(s.core.engine.pending, s.core.engine.deferred.items, batch, s.issued);
    assert Ids([]) == {};
  }

  /** A charged round: every observation of the batch has one more charge (unless the table outgrew its
      limit and was forgotten), and the batch comes back, in an hour if one of them has had three. */
  lemma {:induction false} ChargedRound(s: System, e: Event, v: Verdict, batch: seq<Observation>, charge: Charge,
      s': System)
    requires Sound(s) && e.Replied? && Enabled(s, e) && v == VerdictOf(s, e) && s' == Next(s, e)
    requires Patience.Chargeable(v) && batch == s.phase.batch
    requires charge == ChargeUpTo(s.core.unparsedRounds, batch, |batch|)
    ensures ComesBack(s', batch, e.now + (if charge.exhausted then 60 else 1) * MS_PER_MINUTE)
    ensures if |charge.rounds| > 500 then s'.core.unparsedRounds == map[]
            else forall o :: o in batch ==>
                   && o.id in s'.core.unparsedRounds
                   && s'.core.unparsedRounds[o.id]
                      == (if o.id in s.core.unparsedRounds then s.core.unparsedRounds[o.id] else 0) + 1
  {
    ChargedComesBack(s, e, v, batch, charge.exhausted, s');
    Patience.ActRounds(s.core, batch, s.phase.ranked, v, e.now);
    OneMoreEach(s.core.unparsedRounds, batch, charge);
  }

  lemma ChargedComesBack(s: System, e: Event, v: Verdict, batch: seq<Observation>, exhausted: bool, s': System)
    requires Sound(s) && e.Replied? && Enabled(s, e) && v == VerdictOf(s, e) && s' == Next(s, e)
    requires Patience.Chargeable(v) && batch == s.phase.batch
    requires exhausted == ChargeUpTo(s.core.unparsedRounds, batch, |batch|).exhausted
    ensures ComesBack(s', batch, e.now + (if exhausted then 60 else 1) * MS_PER_MINUTE)
  {
    var minutes := if exhausted then 60 else 1;
    var back := Back(batch, |batch|, minutes, e.now);
    ActLeaves(s, e, v, back);
    AllComeBack(s, s', batch, minutes, back, e.now);
  }

  lemma OneMoreEach(rounds: map<string, nat>, batch: seq<Observation>, charge: Charge)
    requires Distinct(batch) && charge == ChargeUpTo(rounds, batch, |batch|)
    ensures forall o :: o in batch ==>
              o.id in charge.rounds && charge.rounds[o.id] == (if o.id in rounds then rounds[o.id] else 0) + 1
  {
    IdsExact(batch);
    forall o | o in batch
      ensures o.id in charge.rounds && charge.rounds[o.id] == (if o.id in rounds then rounds[o.id] else 0) + 1 {
      Patience.ChargedIds(rounds, batch, charge, o.id);
    }
  }

  /** A round that is let off. One that asked for nothing clears the charges and consumes the batch; a
      refused goal clears the charges and the batch comes back in a minute; a submission that threw
      leaves the charges alone and the batch comes back in a minute. */
  lemma LetOffRound(s: System, e: Event, v: Verdict, batch: seq<Observation>, s': System)
    requires Sound(s) && e.Replied? && Enabled(s, e) && v == VerdictOf(s, e) && s' == Next(s, e)
    requires batch == s.phase.batch && LetOff(e.d, s.phase.ranked, e.submit)
    ensures v.Waited? || v.Refused? || v.SubmitFailed?
    ensures s'.core.unparsedRounds == if v.SubmitFailed? then s.core.unparsedRounds
                                      else s.core.unparsedRounds - Ids(batch)
    ensures v.Waited? ==> Ids(batch) !! Finality.Places(s')
    ensures v.Refused? || v.SubmitFailed? ==> ComesBack(s', batch, e.now + MS_PER_MINUTE)
  {
    NotChargedIff(e.d, s.phase.ranked, e.foreground, e.submit);
    Patience.ActRounds(s.core, batch, s.phase.ranked, v, e.now);
    if v.Waited? {
      Finality.NothingAskedConsumes(s, e, v, batch);
    } else {
      var back := Back(batch, |batch|, 1, e.now);
      ActLeaves(s, e, v, back);
      AllComeBack(s, s', batch, 1, back, e.now);
    }
  }

  const REFUSED_GOAL := Decision(Execute, Some("fix it"), None, None, ["no-such-id"], None, None, "r", false)

  /** The refused goal at an input: "execute" with a goal, naming an id that is not in the batch. It gets
      through the parser and the test for unusable decisions, it submits nothing, the observation's
      charges are cleared, and a minute later everything stands as it did before the round. */
  lemma RefusedGoal(s: System, e: Event, o: Observation, d: Decision, now: int, s': System)
    requires Sound(s) && s.phase.Thinking? && s.phase.batch == [o] && o.actionable && o.id != "no-such-id"
    requires d == REFUSED_GOAL
    requires now >= s.clock && e == Replied(d, 0, Some("task"), now)
    ensures Parsed(d) && !IsUnusable(d) && Enabled(s, e)
    ensures VerdictOf(s, e) == Refused(OutsideBatch) && GoalText(d, s.phase.ranked).None?
    ensures s' == Next(s, e) ==>
              && s'.core.unparsedRounds == s.core.unparsedRounds - {o.id}
              && s'.core.tracked == s.core.tracked && s'.core.actions == s.core.actions
              && s'.core.overrides == s.core.overrides && s'.core.held == s.core.held
              && o.id in s'.core.engine.deferred.items
              && s'.core.engine.deferred.items[o.id] == Deferral(o, now + MS_PER_MINUTE)
  {
    var ranked := s.phase.ranked;
    SoleIds(o);
    IdsExact(ranked);
    if Within(ranked, Names(d.named)) != [] {
      SomeNamed(ranked, d.named);
    }
    assert VerdictOf(s, e) == Refused(OutsideBatch);
    if s' == Next(s, e) {
      NotChargedIff(d, ranked, 0, e.submit);
      NothingHappens(s, e, Refused(OutsideBatch), s');
      LetOffRound(s, e, Refused(OutsideBatch), [o], s');
      assert o in [o];
    }
  }

  lemma SomeNamed(ranked: seq<Observation>, named: seq<string>)
    requires Within(ranked, Names(named)) != []
    ensures exists o :: o in ranked && o.id in named
  {
    WithinExact(ranked, named);
    assert Within(ranked, Names(named))[0] in Within(ranked, Names(named));
  }

  // ---------- how often ----------

  /** When each observation took part in a reasoning round, whatever the reply, and whether there was one
      or the provider threw. */
  ghost function Note(r: Patience.Rounds, s: System, e: Event): Patience.Rounds
    requires Enabled(s, e)
  {
    if e.Replied? || e.ReplyFailed? then Patience.ChargeAll(r, Ids(s.phase.batch), e.now) else r
  }

  ghost function CallsAfter(config: Config, t0: int, run: Run): Patience.Rounds
    requires Legal(config, t0, run)
  {
    if run == [] then map[]
    else
      var before := run[..|run| - 1];
      Note(CallsAfter(config, t0, before), After(config, t0, before), run[|run| - 1])
  }

  ghost predicate MinutesApart(t: seq<int>) {
    forall i :: 0 <= i < |t| - 1 ==> t[i + 1] - t[i] >= MS_PER_MINUTE
  }

  /** One observation's rounds are a minute apart, and it is in no batch for a minute after the last:
      unless a message about that very batch is still on its way. */
  ghost predicate Apart(s: System, k: string, t: seq<int>) {
    && t != [] && t[|t| - 1] <= s.clock && MinutesApart(t)
    && (Held(s, k, t[|t| - 1] + MS_PER_MINUTE) || (s.phase.Notifying? && k in Ids(s.phase.batch)))
  }

  ghost predicate AllApart(s: System, r: Patience.Rounds) {
    forall k :: k in r ==> Apart(s, k, r[k])
  }

  lemma MessageStaysOnItsWay(s: System, e: Event)
    requires Sound(s) && Enabled(s, e) && s.phase.Notifying? && !e.MessageSent?
    ensures Next(s, e).phase == s.phase
  {
  }

  lemma SentIsHeld(s: System, e: Event, s': System, k: string, until: int)
    requires Sound(s) && Enabled(s, e) && e.MessageSent? && s' == Next(s, e) && k in Ids(s.phase.batch)
    ensures Held(s', k, until)
  {
    SentLeaves(s, e, s.clock);
    Patience.BackIsHeld(s, s', Ids(s.phase.batch), map[], s.clock, k, until);
  }

  lemma ApartPersists(s: System, e: Event, s': System, k: string, t: seq<int>)
    requires Sound(s) && Enabled(s, e) && s' == Next(s, e) && Apart(s, k, t)
    ensures Apart(s', k, t)
  {
    Patience.ClockRuns(s, e);
    var until := t[|t| - 1] + MS_PER_MINUTE;
    if Held(s, k, until) {
      HeldPersists(s, e, s', k, until);
    } else if e.MessageSent? {
      SentIsHeld(s, e, s', k, until);
    } else {
      MessageStaysOnItsWay(s, e);
    }
  }

  /** However the round ends, an observation that goes back goes back for at least a minute. */
  lemma RepliedIsHeld(s: System, e: Event, v: Verdict, s': System, k: string)
    requires Sound(s) && e.Replied? && Enabled(s, e) && v == VerdictOf(s, e) && s' == Next(s, e)
    requires k in Ids(s.phase.batch)
    ensures Held(s', k, e.now + MS_PER_MINUTE) || (s'.phase.Notifying? && k in Ids(s'.phase.batch))
  {
    if v.Spoke? {
      SpokeMovesNothing(s, e, v, s');
      ActFrame(s.core, s.phase.batch, s.phase.ranked, v, e.now);
    } else {
      var back := ActBack(s.core.unparsedRounds, s.phase.batch, s.phase.ranked, v, e.now);
      ActLeaves(s, e, v, back);
      Patience.BackIsHeld(s, s', SettledIds(s.phase.batch, v), back, e.now, k, e.now + MS_PER_MINUTE);
    }
  }

  lemma OneMoreMinute(t: seq<int>, now: int)
    requires MinutesApart(t) && (t != [] ==> t[|t| - 1] + MS_PER_MINUTE <= now)
    ensures MinutesApart(t + [now])
  {
  }

  /** In a batch that is being reasoned about again, the minute is over. */
  lemma MinuteIsOver(s: System, k: string, t: seq<int>)
    requires s.phase.Thinking? && k in Ids(s.phase.batch) && Apart(s, k, t)
    ensures t[|t| - 1] + MS_PER_MINUTE <= s.clock && MinutesApart(t)
  {
  }

  /** So it does when the provider threw. */
  lemma FailedIsHeld(s: System, e: Event, s': System, k: string)
    requires Sound(s) && e.ReplyFailed? && Enabled(s, e) && s' == Next(s, e) && k in Ids(s.phase.batch)
    ensures Held(s', k, e.now + MS_PER_MINUTE)
  {
    var back := Back(s.phase.batch, |s.phase.batch|, 1, e.now);
    FailLeaves(s, e);
    BackExact(s.phase.batch, 1, e.now);
    Patience.BackIsHeld(s, s', {}, back, e.now, k, e.now + MS_PER_MINUTE);
  }

  lemma OneMoreRound(s: System, e: Event, s': System, k: string, t: seq<int>)
    requires Sound(s) && (e.Replied? || e.ReplyFailed?) && Enabled(s, e) && s' == Next(s, e)
    requires k in Ids(s.phase.batch)
    requires t == [] || Apart(s, k, t)
    ensures Apart(s', k, t + [e.now])
  {
    if t != [] {
      MinuteIsOver(s, k, t);
    }
    OneMoreMinute(t, e.now);
    if e.Replied? {
      RepliedIsHeld(s, e, VerdictOf(s, e), s', k);
    } else {
      FailedIsHeld(s, e, s', k);
    }
    NowApart(s', k, t + [e.now], e.now);
  }

  lemma NowApart(s: System, k: string, t: seq<int>, now: int)
    requires t != [] && t[|t| - 1] == now == s.clock && MinutesApart(t)
    requires Held(s, k, now + MS_PER_MINUTE) || (s.phase.Notifying? && k in Ids(s.phase.batch))
    ensures Apart(s, k, t)
  {
  }

  lemma {:induction false} NextApart(s: System, e: Event, s': System, r: Patience.Rounds, r': Patience.Rounds)
    requires Sound(s) && Enabled(s, e) && s' == Next(s, e) && AllApart(s, r) && r' == Note(r, s, e)
    ensures AllApart(s', r')
  {
    forall k | k in r' ensures Apart(s', k, r'[k]) {
      var t := if k in r then r[k] else [];
      if (e.Replied? || e.ReplyFailed?) && k in Ids(s.phase.batch) {
        assert r'[k] == t + [e.now];
        OneMoreRound(s, e, s', k, t);
      } else {
        assert k in r && r'[k] == r[k];
        ApartPersists(s, e, s', k, r[k]);
      }
    }
  }

  lemma {:induction false} AlwaysApart(config: Config, t0: int, run: Run)
    requires t0 > 0 && Legal(config, t0, run)
    ensures AllApart(After(config, t0, run), CallsAfter(config, t0, run))
  {
    if run != [] {
      var before := run[..|run| - 1];
      AlwaysApart(config, t0, before);
      AlwaysSound(config, t0, before);
      NextApart(After(config, t0, before), run[|run| - 1], After(config, t0, run), CallsAfter(config, t0, before),
                CallsAfter(config, t0, run));
    }
  }

  lemma {:induction false} MinutesEach(t: seq<int>, i: nat, j: nat)
    requires i <= j < |t| && MinutesApart(t)
    ensures t[j] - t[i] >= (j - i) * MS_PER_MINUTE
    decreases j
  {
    if i < j {
      MinutesEach(t, i, j - 1);
      assert t[j - 1 + 1] - t[j - 1] >= MS_PER_MINUTE;
    }
  }

  /** BOUNDED ROUNDS. Over any run and any stretch of it, an observation takes part in at most one
      reasoning round plus one for every full minute: charged, let off, or without a reply. */
  lemma {:induction false} RoundsBounded(config: Config, t0: int, run: Run, k: string, i: nat, j: nat)
    requires t0 > 0 && Legal(config, t0, run)
    requires k in CallsAfter(config, t0, run) && i <= j < |CallsAfter(config, t0, run)[k]|
    ensures var t := CallsAfter(config, t0, run)[k];
            j - i + 1 <= 1 + (t[j] - t[i]) / MS_PER_MINUTE
  {
    AlwaysApart(config, t0, run);
    var t := CallsAfter(config, t0, run)[k];
    assert Apart(After(config, t0, run), k, t);
    MinutesEach(t, i, j);
  }
}
