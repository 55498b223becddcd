/** What each kind of reply does to the agent, told by the reply itself. */
module Replies {
  import opened Observations
  import opened Engine
  import opened Decisions
  import opened Core
  import opened Daemon
  import Finality
  import Gate
  import Inventory
  import Ledger
  import Mailbox
  import Overriding
  import Patience
  import Recorded
  import Refusals
  import Resubmitting
  import Scorer
  import Spacing
  import Tracking

  // ---------- what becomes of the batch ----------

  /** Where a reply leaves each observation: `top`, if given, filed as scored until `topAt`; those in `gone`
      and the informational rest nowhere; everything else filed as collected until `at`. Whatever else was
      on file is as it was, and nothing else of the engine has changed. */
  ghost predicate Disposed(e: EngineState, e': EngineState, batch: seq<Observation>, gone: set<string>,
      top: Option<Deferral>, at: int) {
    && e'.pending == e.pending && e'.recentHashes == e.recentHashes && e'.history == e.history
    && (forall k :: k !in Ids(batch) ==> SameEntry(e.deferred.items, e'.deferred.items, k))
    && (forall o :: o in batch ==> Entry(e'.deferred.items, o, gone, top, at))
  }

  ghost predicate SameEntry(table: Inventory.Table, table': Inventory.Table, k: string) {
    (k in table' <==> k in table) && (k in table && k in table' ==> table'[k] == table[k])
  }

  ghost predicate Entry(table: Inventory.Table, o: Observation, gone: set<string>, top: Option<Deferral>, at: int) {
    if top.Some? && top.value.observation.id == o.id then o.id in table && table[o.id] == top.value
    else if o.actionable && o.id !in gone then o.id in table && table[o.id] == Deferral(o, at)
    else o.id !in table
  }

  lemma BackEntry(batch: seq<Observation>, gone: set<string>, minutes: int, now: int, o: Observation)
    requires Distinct(batch) && o in batch
    ensures var rest := Outside(batch, gone);
            var back := Back(rest, minutes, now);
            if o.actionable && o.id !in gone
            then o.id in back && back[o.id] == Deferral(o, now + minutes * MS_PER_MINUTE)
            else o.id !in back
  {
    var rest := Outside(batch, gone);
    var back := Back(rest, minutes, now);
    Inventory.BackExact(rest, minutes, now);
    KeepMembers(batch, |batch|, gone, false);
    IdsExact(rest);
    if o.id in back {
      assert back[o.id].observation in batch;
      Inventory.DistinctById(batch, o, back[o.id].observation);
    }
  }

  ghost function Back(rest: seq<Observation>, minutes: int, now: int): Inventory.Table {
    Inventory.Back(rest, |rest|, minutes, now)
  }

  lemma BackWithin(batch: seq<Observation>, gone: set<string>, minutes: int, now: int)
    ensures Back(Outside(batch, gone), minutes, now).Keys <= Ids(batch)
  {
    var rest := Outside(batch, gone);
    Inventory.BackExact(rest, minutes, now);
    Inventory.OutsideIds(batch, gone);
    IdsExact(batch);
  }

  lemma RestDisposed(e: EngineState, e': EngineState, batch: seq<Observation>, gone: set<string>, minutes: int,
      now: int)
    requires Distinct(batch) && e.deferred.items.Keys !! Ids(batch)
    requires Inventory.Gains(e, e', Back(Outside(batch, gone), minutes, now))
    ensures Disposed(e, e', batch, gone, None, now + minutes * MS_PER_MINUTE)
  {
    BackWithin(batch, gone, minutes, now);
    IdsExact(batch);
    forall o | o in batch ensures Entry(e'.deferred.items, o, gone, None, now + minutes * MS_PER_MINUTE) {
      BackEntry(batch, gone, minutes, now, o);
    }
  }

  lemma TopDisposed(e: EngineState, e': EngineState, batch: seq<Observation>, top: Observation, minutes: int,
      rest: int, now: int, filed: Deferral)
    requires Distinct(batch) && e.deferred.items.Keys !! Ids(batch) && top.id in Ids(batch)
    requires Inventory.Gains(e, e', Inventory.PutOffBack(batch, top, minutes, rest, now))
    requires filed == Deferral(top, now + minutes * MS_PER_MINUTE)
    ensures Disposed(e, e', batch, {}, Some(filed), now + rest * MS_PER_MINUTE)
  {
    BackWithin(batch, {top.id}, rest, now);
    IdsExact(batch);
    forall o | o in batch ensures Entry(e'.deferred.items, o, {}, Some(filed), now + rest * MS_PER_MINUTE) {
      TopEntry(e.deferred.items, e'.deferred.items, batch, top, rest, now, filed, o);
    }
  }

  lemma TopEntry(table: Inventory.Table, table': Inventory.Table, batch: seq<Observation>, top: Observation, rest: int,
      now: int, filed: Deferral, o: Observation)
    requires Distinct(batch) && o in batch && o.id !in table && filed.observation == top
    requires table' == table + (map[top.id := filed] + Back(Outside(batch, {top.id}), rest, now))
    ensures Entry(table', o, {}, Some(filed), now + rest * MS_PER_MINUTE)
  {
    BackEntry(batch, {top.id}, rest, now, o);
  }

  lemma NoneDisposed(e: EngineState, batch: seq<Observation>, at: int)
    requires e.deferred.items.Keys !! Ids(batch)
    ensures Disposed(e, e, batch, Ids(batch), None, at)
  {
    IdsExact(batch);
  }

  // ---------- what else there is ----------

  /** The tick is over, nobody was told anything, and the agent's settings are as they were. */
  ghost predicate Over(s: System, s': System, now: int) {
    && s'.phase == Idle && !s'.core.tickInFlight && s'.clock == now && s'.issued == s.issued
    && s'.core.config == s.core.config && s'.core.lastReasoningMs == s.core.lastReasoningMs
    && s'.core.chat == s.core.chat && s'.core.held == s.core.held
    && s'.core.unparsedReported == s.core.unparsedReported
  }

  /** The agent knows what it knew: what it follows, what it acted on, and how it is set. */
  ghost predicate NoWiser(s: System, s': System) {
    && s'.core.tracked == s.core.tracked && s'.core.actions == s.core.actions
    && s'.core.overrides == s.core.overrides
  }

  lemma ActOver(s: System, e: Event, v: Verdict, s': System)
    requires Sound(s) && e.Replied? && Enabled(s, e) && v == Ledger.VerdictOf(s, e) && s' == Next(s, e)
    requires !v.Spoke? && !v.Unreadable?
    ensures Over(s, s', e.now) && Mailbox.Said(s, e) == []
    ensures s'.core.engine == Act(s.core, s.phase.batch, s.phase.ranked, v, e.now).core.engine
    ensures !v.Adjusted? ==> s'.core.overrides == s.core.overrides
    ensures !v.Submitted? ==> s'.core.actions == s.core.actions && s'.core.tracked == s.core.tracked
  {
    var c, batch, ranked := s.core, s.phase.batch, s.phase.ranked;
    ActFrame(c, batch, ranked, v, e.now);
    Mailbox.ActMail(c, batch, ranked, v, e.now, Says(c, batch, v));
    Spacing.ActLast(c, batch, ranked, v, e.now);
    Overriding.ActOverrides(c, batch, ranked, v, e.now);
    Tracking.ActTracked(c, batch, ranked, v, e.now);
    if !v.Submitted? {
      Recorded.ActRecordsNothing(c, batch, ranked, v, e.now);
    }
    ActReports(c, batch, ranked, v, e.now);
  }

  lemma ActReports(c: CoreState, batch: seq<Observation>, ranked: seq<Observation>, v: Verdict, now: int)
    requires ranked != []
    ensures Act(c, batch, ranked, v, now).core.unparsedReported ==
            (c.unparsedReported || (v.Unreadable? && ChargeUnparsed(c.unparsedRounds, batch).exhausted))
  {
  }

  lemma BatchApart(s: System)
    requires Sound(s) && s.phase.Thinking?
    ensures Distinct(s.phase.batch) && s.core.engine.deferred.items.Keys !! Ids(s.phase.batch)
    ensures s.phase.ranked != [] && s.phase.ranked[0].id in Ids(s.phase.batch)
  {
    Ledger.PlacedFlight(s.core.engine.pending, s.core.engine.deferred.items, s.phase.batch, s.issued);
    IdsExact(s.phase.ranked);
    assert s.phase.ranked[0] in s.phase.ranked;
  }

  /** The rest of the batch goes back. */
  lemma RestGoesBack(s: System, batch: seq<Observation>, gone: set<string>, minutes: int, now: int, e': EngineState)
    requires Sound(s) && s.phase.Thinking? && batch == s.phase.batch
    requires var rest := Outside(batch, gone); e' == PutBack(s.core.engine, rest, |rest|, minutes, now)
    ensures Disposed(s.core.engine, e', batch, gone, None, now + minutes * MS_PER_MINUTE)
  {
    BatchApart(s);
    Inventory.PutBackTable(s.core.engine, Outside(batch, gone), minutes, now);
    RestDisposed(s.core.engine, e', batch, gone, minutes, now);
  }

  lemma AllGoBack(s: System, batch: seq<Observation>, minutes: int, now: int, e': EngineState)
    requires Sound(s) && s.phase.Thinking? && batch == s.phase.batch
    requires e' == PutBack(s.core.engine, batch, |batch|, minutes, now)
    ensures Disposed(s.core.engine, e', batch, {}, None, now + minutes * MS_PER_MINUTE)
  {
    Inventory.OutsideNothing(batch);
    RestGoesBack(s, batch, {}, minutes, now, e');
  }

  // ---------- "notify" and "escalate" ----------

  /** What a "notify" with a message, or an "escalate" with a question, wants to say. */
  ghost predicate WantsToSay(d: Decision, text: string) {
    || (d.action.Notify? && d.message == Some(text) && text != "")
    || (d.action.Escalate? && d.question.Some? && d.question.value != ""
        && text == "[Agent needs input] " + d.question.value)
  }

  /** The top is put off, by a "defer" or for a foreground task, and the rest comes back. */
  lemma TopPutOff(s: System, e: Event, v: Verdict, minutes: int, rest: int, batch: seq<Observation>, s': System)
    requires Sound(s) && e.Replied? && Enabled(s, e) && batch == s.phase.batch && s' == Next(s, e)
    requires v == Ledger.VerdictOf(s, e)
    requires (v == PutOff(minutes) && rest == 1) || (v == Postponed && minutes == 5 && rest == 5)
    ensures Over(s, s', e.now) && NoWiser(s, s') && Mailbox.Said(s, e) == []
    ensures Disposed(s.core.engine, s'.core.engine, batch, {},
                     Some(Deferral(s.phase.ranked[0], e.now + minutes * MS_PER_MINUTE)), e.now + rest * MS_PER_MINUTE)
    ensures s'.core.unparsedRounds == s.core.unparsedRounds - Ids(batch)
  {
    PutOffRound(s, e, v, minutes, rest, batch, s');
    TopFiled(s, minutes, rest, batch, s.phase.ranked[0], e.now, s'.core.engine);
  }

  lemma PutOffRound(s: System, e: Event, v: Verdict, minutes: int, rest: int, batch: seq<Observation>, s': System)
    requires Sound(s) && e.Replied? && Enabled(s, e) && batch == s.phase.batch && s' == Next(s, e)
    requires v == Ledger.VerdictOf(s, e)
    requires (v == PutOff(minutes) && rest == 1) || (v == Postponed && minutes == 5 && rest == 5)
    ensures Over(s, s', e.now) && NoWiser(s, s') && Mailbox.Said(s, e) == []
    ensures s'.core.engine == PutOffTop(s.core, batch, s.phase.ranked, minutes, rest, e.now).engine
    ensures s'.core.unparsedRounds == s.core.unparsedRounds - Ids(batch)
  {
    ActOver(s, e, v, s');
    Patience.ActRounds(s.core, batch, s.phase.ranked, v, e.now);
  }

  lemma TopFiled(s: System, minutes: int, rest: int, batch: seq<Observation>, top: Observation, now: int,
      e': EngineState)
    requires Sound(s) && s.phase.Thinking? && batch == s.phase.batch && s.phase.ranked != []
    requires top == s.phase.ranked[0] && e' == PutOffTop(s.core, batch, s.phase.ranked, minutes, rest, now).engine
    ensures Disposed(s.core.engine, e', batch, {},
                     Some(Deferral(top, now + minutes * MS_PER_MINUTE)), now + rest * MS_PER_MINUTE)
  {
    BatchApart(s);
    Inventory.PutOffTopTable(s.core, batch, s.phase.ranked, minutes, rest, now);
    TopDisposed(s.core.engine, e', batch, top, minutes, rest, now, Deferral(top, now + minutes * MS_PER_MINUTE));
  }

  /** That text goes out, or is held. */
  ghost predicate Uttered(s: System, s': System, text: string) {
    && s'.core.held == (if s.core.chat.Some? then s.core.held
                        else (if |s.core.held| < 10 then s.core.held else s.core.held[1..]) + [text])
    && s'.core == s.core.(held := s'.core.held)
  }

  lemma Speaks(s: System, e: Event, text: string, batch: seq<Observation>, s': System)
    requires Sound(s) && e.Replied? && Enabled(s, e) && batch == s.phase.batch && s' == Next(s, e)
    requires Ledger.VerdictOf(s, e) == Spoke(text)
    ensures s'.phase == Notifying(batch) && s'.issued == s.issued && Mailbox.Said(s, e) == [text]
    ensures Uttered(s, s', text)
  {
  }

  /** THE USER IS NOT INTERRUPTED. While the user has a task running, a message or a question is put off for five
      minutes and the whole batch with it, the top as scored and the rest as collected, and nothing is said;
      otherwise that very text goes out, or is held until a chat is known, the oldest of ten giving way, and
      the batch stays with it. */
  lemma {:induction false} SaysOrPutsOff(s: System, e: Event, text: string, batch: seq<Observation>, s': System)
    requires Sound(s) && e.Replied? && Enabled(s, e) && batch == s.phase.batch && s' == Next(s, e)
    requires WantsToSay(e.d, text)
    ensures e.foreground > 0 ==>
              && Over(s, s', e.now) && NoWiser(s, s') && Mailbox.Said(s, e) == []
              && Disposed(s.core.engine, s'.core.engine, batch, {},
                          Some(Deferral(s.phase.ranked[0], e.now + 300_000)), e.now + 300_000)
              && s'.core.unparsedRounds == s.core.unparsedRounds - Ids(batch)
    ensures e.foreground <= 0 ==>
              && s'.phase == Notifying(batch) && s'.issued == s.issued && Mailbox.Said(s, e) == [text]
              && Uttered(s, s', text)
  {
    if e.foreground > 0 {
      TopPutOff(s, e, Postponed, 5, 5, batch, s');
    } else {
      Speaks(s, e, text, batch, s');
    }
  }

  // ---------- "defer" ----------

  /** The top is filed as scored for the minutes asked for, and everything else actionable, as it was
      collected, for one. */
  lemma {:induction false} DefersTheTop(s: System, e: Event, minutes: int, batch: seq<Observation>, s': System)
    requires Sound(s) && e.Replied? && Enabled(s, e) && batch == s.phase.batch && s' == Next(s, e)
    requires e.d.action.Defer? && e.d.deferMinutes == Some(minutes)
    ensures Over(s, s', e.now) && NoWiser(s, s') && Mailbox.Said(s, e) == []
    ensures Disposed(s.core.engine, s'.core.engine, batch, {},
                     Some(Deferral(s.phase.ranked[0], e.now + minutes * 60_000)), e.now + 60_000)
    ensures s'.core.unparsedRounds == s.core.unparsedRounds - Ids(batch)
  {
    TopPutOff(s, e, PutOff(minutes), minutes, 1, batch, s');
  }

  // ---------- "adjust", and what asks for nothing ----------

  /** The overrides an adjustment leaves: the threshold and the boost it names hold for half an hour, the
      threshold at eighty at most; the interval it names stays; what it does not name is as it was. */
  ghost predicate AdjustedBy(o: Overrides, a: Adjustments, now: int, o': Overrides) {
    && (a.priorityThreshold.None? ==> o'.threshold == o.threshold && o'.thresholdExpiresAt == o.thresholdExpiresAt)
    && (a.priorityThreshold.Some? ==>
         && o'.threshold.Some? && o'.threshold.value <= 80
         && (o'.threshold.value == a.priorityThreshold.value
             || (o'.threshold.value == 80 && a.priorityThreshold.value > 80))
         && o'.thresholdExpiresAt == Some(now + 1_800_000))
    && (forall x :: BoostedBy(o, a, now, o', x))
    && o'.intervalMs == (if a.reasoningIntervalMs.Some? then a.reasoningIntervalMs else o.intervalMs)
  }

  ghost predicate BoostedBy(o: Overrides, a: Adjustments, now: int, o': Overrides, x: string) {
    if a.sourceBoost.Some? && a.sourceBoost.value.source == x
    then x in o'.boosts && o'.boosts[x] == a.sourceBoost.value.delta
         && x in o'.boostExpiresAt && o'.boostExpiresAt[x] == now + 1_800_000
    else && (x in o'.boosts <==> x in o.boosts) && (x in o'.boosts ==> o'.boosts[x] == o.boosts[x])
         && (x in o'.boostExpiresAt <==> x in o.boostExpiresAt)
         && (x in o'.boostExpiresAt ==> o'.boostExpiresAt[x] == o.boostExpiresAt[x])
  }

  lemma AdjustmentApplied(o: Overrides, a: Adjustments, now: int, o': Overrides)
    requires o' == ApplyAdjustments(o, a, now)
    ensures AdjustedBy(o, a, now, o')
  {
  }

  /** A round in which the batch is settled and nobody is told. */
  lemma Settles(s: System, e: Event, v: Verdict, batch: seq<Observation>, s': System)
    requires Sound(s) && e.Replied? && Enabled(s, e) && batch == s.phase.batch && s' == Next(s, e)
    requires v == Ledger.VerdictOf(s, e) && (v.Adjusted? || v.Waited?)
    ensures Over(s, s', e.now) && Mailbox.Said(s, e) == []
    ensures s'.core.tracked == s.core.tracked && s'.core.actions == s.core.actions
    ensures s'.core.overrides == if v.Adjusted? then ApplyAdjustments(s.core.overrides, v.a, e.now)
                                 else s.core.overrides
    ensures Disposed(s.core.engine, s'.core.engine, batch, Ids(batch), None, 0)
    ensures s'.core.unparsedRounds == s.core.unparsedRounds - Ids(batch)
  {
    BatchApart(s);
    ActOver(s, e, v, s');
    Overriding.ActOverrides(s.core, batch, s.phase.ranked, v, e.now);
    Patience.ActRounds(s.core, batch, s.phase.ranked, v, e.now);
    EngineKept(s.core, batch, s.phase.ranked, v, e.now);
    NoneDisposed(s.core.engine, batch, 0);
  }

  lemma EngineKept(c: CoreState, batch: seq<Observation>, ranked: seq<Observation>, v: Verdict, now: int)
    requires ranked != [] && (v.Adjusted? || v.Waited?)
    ensures Act(c, batch, ranked, v, now).core.engine == c.engine
  {
  }

  /** An adjustment settles the batch, and sets exactly what it names. */
  lemma {:induction false} Adjusts(s: System, e: Event, a: Adjustments, batch: seq<Observation>, s': System)
    requires Sound(s) && e.Replied? && Enabled(s, e) && batch == s.phase.batch && s' == Next(s, e)
    requires e.d.action.Adjust? && e.d.adjustments == Some(a)
    ensures Over(s, s', e.now) && Mailbox.Said(s, e) == []
    ensures s'.core.tracked == s.core.tracked && s'.core.actions == s.core.actions
    ensures AdjustedBy(s.core.overrides, a, e.now, s'.core.overrides)
    ensures Disposed(s.core.engine, s'.core.engine, batch, Ids(batch), None, 0)
    ensures s'.core.unparsedRounds == s.core.unparsedRounds - Ids(batch)
  {
    Settles(s, e, Adjusted(a), batch, s');
    AdjustmentApplied(s.core.overrides, a, e.now, s'.core.overrides);
  }

  /** A readable "wait", an "escalate" without a question and an "adjust" without adjustments change nothing
      but that the batch is settled. */
  lemma {:induction false} AsksForNothing(s: System, e: Event, batch: seq<Observation>, s': System)
    requires Sound(s) && e.Replied? && Enabled(s, e) && batch == s.phase.batch && s' == Next(s, e)
    requires || (e.d.action.Wait? && !e.d.unparsed)
             || (e.d.action.Escalate? && (e.d.question.None? || e.d.question == Some("")))
             || (e.d.action.Adjust? && e.d.adjustments.None?)
    ensures Over(s, s', e.now) && NoWiser(s, s') && Mailbox.Said(s, e) == []
    ensures Disposed(s.core.engine, s'.core.engine, batch, Ids(batch), None, 0)
    ensures s'.core.unparsedRounds == s.core.unparsedRounds - Ids(batch)
  {
    Settles(s, e, Waited, batch, s');
  }

  // ---------- "execute" and "batch" ----------

  /** It is about work of the batch: it names some, or it names nothing and there is nothing else in it. */
  ghost predicate AboutWork(batch: seq<Observation>, named: seq<string>) {
    || (exists o :: o in batch && o.id in named && o.actionable)
    || (named == [] && forall o :: o in batch ==> o.actionable)
  }

  /** What a submitted goal answers: what it names, or the one observation there is. */
  ghost predicate Answers(batch: seq<Observation>, named: seq<string>, k: string) {
    k in Ids(batch) && (k in named || (named == [] && |batch| == 1))
  }

  lemma AboutWorkIff(batch: seq<Observation>, ranked: seq<Observation>, d: Decision, foreground: int,
      submit: Option<string>)
    requires Gate.RankingOf(batch, ranked) && Distinct(batch) && batch != [] && GivesAGoal(d)
    ensures var v := Judge(d, ranked, foreground, submit);
            && (v.Refused? <==> !AboutWork(batch, d.named))
            && (v.SubmitFailed? <==> AboutWork(batch, d.named) && submit.None?)
            && (v.Submitted? <==> AboutWork(batch, d.named) && submit.Some?)
            && (v.Submitted? ==> v.task == submit.value && (v.recordTop <==> d.action.Execute?))
  {
    GoalAllowedIff(ranked, d.named);
    Finality.WhoseIds(batch, ranked, d.named);
    Resubmitting.SameWork(batch, ranked);
  }

  lemma AnswersExactly(batch: seq<Observation>, ranked: seq<Observation>, d: Decision, foreground: int,
      submit: Option<string>)
    requires Gate.RankingOf(batch, ranked) && Judge(d, ranked, foreground, submit).Submitted?
    ensures forall k :: k in Ids(Judge(d, ranked, foreground, submit).credited) <==> Answers(batch, d.named, k)
  {
    var credited := Judge(d, ranked, foreground, submit).credited;
    CreditedExactly(d, ranked, foreground, submit);
    IdsExact(credited);
    IdsExact(ranked);
  }

  ghost function AnsweredIds(batch: seq<Observation>, named: seq<string>): set<string> {
    set k | k in Ids(batch) && Answers(batch, named, k)
  }

  // ---------- what is on record ----------

  lemma {:induction false} RecordedUpTo(actions: Scorer.ActionTable, s: seq<Observation>, n: nat, now: int,
      h: Fingerprint)
    requires n <= |s|
    ensures var r := RecordEach(actions, s, n, now);
            if exists i :: 0 <= i < n && Scorer.ActionHash(s[i]) == h then h in r && r[h] == now
            else && (n == 0 ==> (h in r <==> h in actions))
                 && (n > 0 ==> (h in r <==> h in actions && now - actions[h] <= 300_000))
                 && (h in r ==> r[h] == actions[h])
  {
    if n > 0 {
      RecordedUpTo(actions, s, n - 1, now, h);
      assert Scorer.ActionHash(s[n - 1]) == Scorer.ActionHash(s[n - 1]);
    }
  }

  /** The table of recent actions at one hash: recorded now, or as it was unless that is over five minutes ago. */
  ghost predicate OnRecord(actions: Scorer.ActionTable, actions': Scorer.ActionTable, h: Fingerprint, acted: bool,
      now: int) {
    if acted then h in actions' && actions'[h] == now
    else (h in actions' <==> h in actions && now - actions[h] <= 300_000)
         && (h in actions' ==> actions'[h] == actions[h])
  }

  /** A goal was about it, or it stood first when an "execute" was decided. */
  ghost predicate ActedOn(batch: seq<Observation>, top: Observation, d: Decision, h: Fingerprint) {
    || (exists o :: o in batch && Answers(batch, d.named, o.id) && Scorer.ActionHash(o) == h)
    || (d.action.Execute? && Scorer.ActionHash(top) == h)
  }

  lemma CreditedHashes(batch: seq<Observation>, ranked: seq<Observation>, d: Decision, foreground: int,
      submit: Option<string>, h: Fingerprint)
    requires Gate.RankingOf(batch, ranked) && Distinct(batch) && Judge(d, ranked, foreground, submit).Submitted?
    ensures (exists o :: o in Judge(d, ranked, foreground, submit).credited && Scorer.ActionHash(o) == h)
              <==> (exists o :: o in batch && Answers(batch, d.named, o.id) && Scorer.ActionHash(o) == h)
  {
    var credited := Judge(d, ranked, foreground, submit).credited;
    AnswersExactly(batch, ranked, d, foreground, submit);
    CreditedExactly(d, ranked, foreground, submit);
    IdsExact(credited);
    if c :| c in credited && Scorer.ActionHash(c) == h {
      var o :| o in batch && Scorer.SameButPriority(o, c);
      assert Answers(batch, d.named, o.id);
    }
    if o :| o in batch && Answers(batch, d.named, o.id) && Scorer.ActionHash(o) == h {
      var c :| c in credited && c.id == o.id;
      var o' :| o' in batch && Scorer.SameButPriority(o', c);
      Inventory.DistinctById(batch, o, o');
    }
  }

  /** The table after the credited were recorded, and the top if it is not among them. */
  lemma RecordedThere(actions: Scorer.ActionTable, credited: seq<Observation>, top: Observation, recordTop: bool,
      now: int, actions': Scorer.ActionTable, h: Fingerprint)
    requires recordTop || credited != []
    requires top.id in Ids(credited) ==> top in credited
    requires var recorded := RecordEach(actions, credited, |credited|, now);
             actions' == if recordTop && top.id !in Ids(credited) then Scorer.RecordAction(recorded, top, now)
                         else recorded
    ensures OnRecord(actions, actions', h, (exists o :: o in credited && Scorer.ActionHash(o) == h)
                                           || (recordTop && Scorer.ActionHash(top) == h), now)
  {
    RecordedUpTo(actions, credited, |credited|, now, h);
    IdsExact(credited);
    if o :| o in credited && Scorer.ActionHash(o) == h {
      var i :| 0 <= i < |credited| && credited[i] == o;
      assert Scorer.ActionHash(credited[i]) == h;
    }
  }

  lemma SubmissionRecords(s: System, e: Event, v: Verdict, batch: seq<Observation>, s': System, h: Fingerprint)
    requires Sound(s) && e.Replied? && Enabled(s, e) && batch == s.phase.batch && s' == Next(s, e)
    requires v == Ledger.VerdictOf(s, e) && v.Submitted?
    requires GivesAGoal(e.d)
    ensures OnRecord(s.core.actions, s'.core.actions, h, ActedOn(batch, s.phase.ranked[0], e.d, h), e.now)
  {
    var ranked := s.phase.ranked;
    Recorded.SubmittedActions(s, e, v, RecordEach(s.core.actions, v.credited, |v.credited|, e.now));
    CreditedExactly(e.d, ranked, e.foreground, e.submit);
    if ranked[0].id in Ids(v.credited) {
      Recorded.TopCredited(ranked, v);
    }
    Finality.CreditedNone(e.d, ranked, e.foreground, e.submit);
    AboutWorkIff(batch, ranked, e.d, e.foreground, e.submit);
    assert v.credited == [] ==> Ids(v.credited) == {};
    RecordedThere(s.core.actions, v.credited, ranked[0], v.recordTop, e.now, s'.core.actions, h);
    CreditedHashes(batch, ranked, e.d, e.foreground, e.submit, h);
  }

  // ---------- the three ends of a goal ----------

  /** A goal that is not handed over. */
  lemma GoalReturns(s: System, e: Event, v: Verdict, batch: seq<Observation>, s': System)
    requires Sound(s) && e.Replied? && Enabled(s, e) && batch == s.phase.batch && s' == Next(s, e)
    requires v == Ledger.VerdictOf(s, e) && (v.Refused? || v.SubmitFailed?)
    ensures Over(s, s', e.now) && Mailbox.Said(s, e) == [] && NoWiser(s, s')
    ensures Disposed(s.core.engine, s'.core.engine, batch, {}, None, e.now + 60_000)
    ensures s'.core.unparsedRounds
         == if v.Refused? then s.core.unparsedRounds - Ids(batch) else s.core.unparsedRounds
  {
    ActOver(s, e, v, s');
    AllGoBack(s, batch, 1, e.now, s'.core.engine);
    Patience.ActRounds(s.core, batch, s.phase.ranked, v, e.now);
  }

  lemma GoalLeaves(s: System, e: Event, v: Verdict, batch: seq<Observation>, s': System)
    requires Sound(s) && e.Replied? && Enabled(s, e) && batch == s.phase.batch && s' == Next(s, e)
    requires v == Ledger.VerdictOf(s, e) && v.Submitted?
    ensures Over(s, s', e.now) && Mailbox.Said(s, e) == [] && s'.core.overrides == s.core.overrides
    ensures s'.core.tracked.items == s.core.tracked.items[v.task := e.now]
    ensures Disposed(s.core.engine, s'.core.engine, batch, Ids(v.credited), None, e.now + 60_000)
    ensures s'.core.unparsedRounds == s.core.unparsedRounds - Ids(batch)
  {
    BatchApart(s);
    ActOver(s, e, v, s');
    RestGoesBack(s, batch, Ids(v.credited), 1, e.now, s'.core.engine);
    Patience.ActRounds(s.core, batch, s.phase.ranked, v, e.now);
    Tracking.ActTracked(s.core, batch, s.phase.ranked, v, e.now);
  }

  /** WHAT BECOMES OF A GOAL. Not about work of its batch it is refused, and submitting may throw: then everything
      is back in a minute, and nothing is followed up or recorded. Otherwise its task is followed up from now
      on; what it answers is settled and on record; the rest of the work is back in a minute; and of an
      "execute" the top is on record too. */
  lemma {:induction false} HandsOver(s: System, e: Event, batch: seq<Observation>, s': System)
    requires Sound(s) && e.Replied? && Enabled(s, e) && batch == s.phase.batch && s' == Next(s, e)
    requires GivesAGoal(e.d)
    ensures Over(s, s', e.now) && Mailbox.Said(s, e) == [] && s'.core.overrides == s.core.overrides
    ensures !AboutWork(batch, e.d.named) || e.submit.None? ==>
              && NoWiser(s, s')
              && Disposed(s.core.engine, s'.core.engine, batch, {}, None, e.now + 60_000)
    ensures AboutWork(batch, e.d.named) && e.submit.Some? ==>
              && s'.core.tracked.items == s.core.tracked.items[e.submit.value := e.now]
              && Disposed(s.core.engine, s'.core.engine, batch, AnsweredIds(batch, e.d.named), None, e.now + 60_000)
              && forall h ::
                   OnRecord(s.core.actions, s'.core.actions, h, ActedOn(batch, s.phase.ranked[0], e.d, h), e.now)
    ensures s'.core.unparsedRounds == if AboutWork(batch, e.d.named) && e.submit.None? then s.core.unparsedRounds
                                      else s.core.unparsedRounds - Ids(batch)
  {
    var v := Ledger.VerdictOf(s, e);
    AboutWorkIff(batch, s.phase.ranked, e.d, e.foreground, e.submit);
    if v.Submitted? {
      GoalLeaves(s, e, v, batch, s');
      AnswersExactly(batch, s.phase.ranked, e.d, e.foreground, e.submit);
      assert Ids(v.credited) == AnsweredIds(batch, e.d.named);
      forall h
        ensures OnRecord(s.core.actions, s'.core.actions, h, ActedOn(batch, s.phase.ranked[0], e.d, h), e.now) {
        SubmissionRecords(s, e, v, batch, s', h);
      }
    } else {
      GoalReturns(s, e, v, batch, s');
    }
  }

  // ---------- what cannot be carried out, or read ----------

  /** No decision: what it needs is missing, or nothing in the reply could be read. */
  ghost predicate NoDecision(d: Decision) {
    || ((d.action.Execute? || d.action.Batch?) && (d.goal.None? || d.goal.value == ""))
    || (d.action.Batch? && d.named == [])
    || (d.action.Notify? && (d.message.None? || d.message.value == ""))
    || (d.action.Defer? && d.deferMinutes.None?)
    || (d.action.Wait? && d.unparsed)
  }

  /** This is the third such round, or a later one, for one of the batch. */
  ghost predicate ThirdTime(rounds: map<string, nat>, batch: seq<Observation>) {
    exists o :: o in batch && o.id in rounds && rounds[o.id] >= 2
  }

  /** Each of the batch is charged once more, all others are as they were; unless the table would hold more than
      500 then: it is forgotten. */
  ghost predicate ChargedOnceMore(rounds: map<string, nat>, batch: seq<Observation>, rounds': map<string, nat>) {
    if |rounds.Keys + Ids(batch)| > 500 then rounds' == map[]
    else
      && rounds'.Keys == rounds.Keys + Ids(batch)
      && forall k :: k in rounds' ==>
           rounds'[k] == (if k in rounds then rounds[k] else 0) + (if k in Ids(batch) then 1 else 0)
  }

  lemma ChargesTold(rounds: map<string, nat>, batch: seq<Observation>, charge: Charge)
    requires Distinct(batch) && charge == ChargeUnparsed(rounds, batch)
    ensures ChargedOnceMore(rounds, batch, charge.rounds)
    ensures charge.exhausted <==> ThirdTime(rounds, batch)
  {
    var c := ChargeUpTo(rounds, batch, |batch|);
    Patience.ChargedKeys(rounds, batch);
    Patience.ExhaustedIff(rounds, batch);
    assert (exists o :: o in batch && Patience.TwiceBefore(rounds, o.id)) <==> ThirdTime(rounds, batch);
    forall k | k in c.rounds
      ensures c.rounds[k] == (if k in rounds then rounds[k] else 0) + (if k in Ids(batch) then 1 else 0) {
      Patience.ChargedIds(rounds, batch, c, k);
    }
  }

  /** The words for it. */
  ghost function Warning(d: Decision): string {
    "I could not read my own reasoning 3 times in a row (" + d.reasoning + "). "
    + "The observations are held for an hour; the reasoning provider needs a look."
  }

  /** A charged round, said once. */
  lemma ChargedTurn(c: CoreState, batch: seq<Observation>, ranked: seq<Observation>, v: Verdict, now: int, third: bool,
      t: Turn)
    requires ranked != [] && Patience.Chargeable(v) && t == Act(c, batch, ranked, v, now)
    requires third == ChargeUnparsed(c.unparsedRounds, batch).exhausted
    ensures t.phase == Idle && t.core.chat == c.chat && t.core.tracked == c.tracked && t.core.actions == c.actions
    ensures t.core.overrides == c.overrides
    ensures t.core.engine == PutBack(c.engine, batch, |batch|, if third then 60 else 1, now)
    ensures t.core.unparsedRounds == ChargeUnparsed(c.unparsedRounds, batch).rounds
    ensures t.core.held == if v.Unreadable? && third && !c.unparsedReported && c.chat.None?
                           then HoldText(c.held, v.warning) else c.held
    ensures t.core.unparsedReported == (c.unparsedReported || (v.Unreadable? && third))
  {
    RoundTurn(c, batch, now, third, ChargeRound(c, batch, now));
    if v.Unreadable? {
      SayTurn(c, batch, v.warning, now, third, UnreadableRound(c, batch, v.warning, now));
    }
  }

  lemma RoundTurn(c: CoreState, batch: seq<Observation>, now: int, third: bool, c': CoreState)
    requires c' == ChargeRound(c, batch, now) && third == ChargeUnparsed(c.unparsedRounds, batch).exhausted
    ensures c' == c.(engine := PutBack(c.engine, batch, |batch|, if third then 60 else 1, now),
                     unparsedRounds := ChargeUnparsed(c.unparsedRounds, batch).rounds)
  {
  }

  lemma SayTurn(c: CoreState, batch: seq<Observation>, warning: string, now: int, third: bool, c': CoreState)
    requires c' == UnreadableRound(c, batch, warning, now) && third == ChargeUnparsed(c.unparsedRounds, batch).exhausted
    ensures c' == ChargeRound(c, batch, now).(unparsedReported := c'.unparsedReported, held := c'.held)
    ensures c'.held == if third && !c.unparsedReported && c.chat.None? then HoldText(c.held, warning) else c.held
    ensures c'.unparsedReported == (c.unparsedReported || third)
  {
  }

  lemma ChargedEngine(s: System, batch: seq<Observation>, now: int, third: bool, e': EngineState)
    requires Sound(s) && s.phase.Thinking? && batch == s.phase.batch
    requires e' == PutBack(s.core.engine, batch, |batch|, if third then 60 else 1, now)
    ensures Disposed(s.core.engine, e', batch, {}, None, now + (if third then 3_600_000 else 60_000))
  {
    AllGoBack(s, batch, if third then 60 else 1, now, e');
  }

  /** The words of it, held if no chat is known; they are not said again. */
  ghost predicate Warned(s: System, e: Event, s': System, warns: bool)
    requires e.Replied? && Enabled(s, e)
  {
    && Mailbox.Said(s, e) == (if warns then [Warning(e.d)] else [])
    && s'.core.held == (if warns && s.core.chat.None?
                        then (if |s.core.held| < 10 then s.core.held else s.core.held[1..]) + [Warning(e.d)]
                        else s.core.held)
    && s'.core.unparsedReported == (s.core.unparsedReported || warns)
  }

  lemma NoVerdict(s: System, e: Event)
    requires Sound(s) && e.Replied? && Enabled(s, e) && NoDecision(e.d)
    ensures Ledger.VerdictOf(s, e) == if e.d.action.Wait? then Unreadable(Warning(e.d)) else Unusable
  {
  }

  lemma NextActs(s: System, e: Event, v: Verdict, s': System)
    requires e.Replied? && Enabled(s, e) && s' == Next(s, e) && v == Ledger.VerdictOf(s, e)
    ensures Turn(s'.core, s'.phase) == Act(s.core, s.phase.batch, s.phase.ranked, v, e.now)
  {
  }

  lemma SaidThen(s: System, e: Event, v: Verdict, third: bool)
    requires e.Replied? && Enabled(s, e) && v == Ledger.VerdictOf(s, e)
    requires v == if e.d.action.Wait? then Unreadable(Warning(e.d)) else Unusable
    requires third == ChargeUnparsed(s.core.unparsedRounds, s.phase.batch).exhausted
    ensures Mailbox.Said(s, e)
         == if e.d.action.Wait? && third && !s.core.unparsedReported then [Warning(e.d)] else []
  {
  }

  /** The tick is over, the whole batch is filed as collected, and nothing is followed up, recorded or set. */
  ghost predicate AllBackIn(s: System, s': System, batch: seq<Observation>, at: int) {
    && Disposed(s.core.engine, s'.core.engine, batch, {}, None, at)
    && NoWiser(s, s') && s'.phase == Idle && s'.core.chat == s.core.chat
  }

  lemma ChargedAll(s: System, v: Verdict, now: int, s': System, third: bool)
    requires Sound(s) && s.phase.Thinking? && Patience.Chargeable(v)
    requires third == ChargeUnparsed(s.core.unparsedRounds, s.phase.batch).exhausted && s.phase.ranked != []
    requires Turn(s'.core, s'.phase) == Act(s.core, s.phase.batch, s.phase.ranked, v, now)
    ensures AllBackIn(s, s', s.phase.batch, now + (if third then 3_600_000 else 60_000))
    ensures s'.core.unparsedRounds == ChargeUnparsed(s.core.unparsedRounds, s.phase.batch).rounds
    ensures s'.core.held == if v.Unreadable? && third && !s.core.unparsedReported && s.core.chat.None?
                            then HoldText(s.core.held, v.warning) else s.core.held
    ensures s'.core.unparsedReported == (s.core.unparsedReported || (v.Unreadable? && third))
  {
    ChargedTurn(s.core, s.phase.batch, s.phase.ranked, v, now, third, Turn(s'.core, s'.phase));
    ChargedEngine(s, s.phase.batch, now, third, s'.core.engine);
  }

  lemma ChargedState(s: System, e: Event, v: Verdict, s': System, third: bool)
    requires Sound(s) && e.Replied? && Enabled(s, e) && s' == Next(s, e)
    requires v == Ledger.VerdictOf(s, e) && Patience.Chargeable(v)
    requires third == ChargeUnparsed(s.core.unparsedRounds, s.phase.batch).exhausted
    ensures AllBackIn(s, s', s.phase.batch, e.now + (if third then 3_600_000 else 60_000))
    ensures s'.core.unparsedRounds == ChargeUnparsed(s.core.unparsedRounds, s.phase.batch).rounds
    ensures s'.core.held == if v.Unreadable? && third && !s.core.unparsedReported && s.core.chat.None?
                            then HoldText(s.core.held, v.warning) else s.core.held
    ensures s'.core.unparsedReported == (s.core.unparsedReported || (v.Unreadable? && third))
  {
    NextActs(s, e, v, s');
    ChargedAll(s, v, e.now, s', third);
  }

  lemma ChargedReply(s: System, e: Event, v: Verdict, batch: seq<Observation>, s': System, third: bool)
    requires Sound(s) && e.Replied? && Enabled(s, e) && batch == s.phase.batch && s' == Next(s, e)
    requires v == Ledger.VerdictOf(s, e) && third == ChargeUnparsed(s.core.unparsedRounds, batch).exhausted
    requires v == if e.d.action.Wait? then Unreadable(Warning(e.d)) else Unusable
    ensures AllBackIn(s, s', batch, e.now + (if third then 3_600_000 else 60_000))
    ensures s'.core.unparsedRounds == ChargeUnparsed(s.core.unparsedRounds, batch).rounds
    ensures Warned(s, e, s', e.d.action.Wait? && third && !s.core.unparsedReported)
  {
    ChargedState(s, e, v, s', third);
    SaidThen(s, e, v, third);
  }

  lemma ChargesThird(s: System, batch: seq<Observation>, third: bool)
    requires Sound(s) && s.phase.Thinking? && batch == s.phase.batch && third == ThirdTime(s.core.unparsedRounds, batch)
    ensures third == ChargeUnparsed(s.core.unparsedRounds, batch).exhausted
    ensures ChargedOnceMore(s.core.unparsedRounds, batch, ChargeUnparsed(s.core.unparsedRounds, batch).rounds)
  {
    BatchApart(s);
    ChargesTold(s.core.unparsedRounds, batch, ChargeUnparsed(s.core.unparsedRounds, batch));
  }

  /** WHAT IS NO DECISION IS CHARGED. Each of the batch has one charge more; the whole of it is back as collected,
      in an hour if that is the third charge, or a later one, for any of it, and in a minute otherwise; nothing
      is followed up, recorded or set. The first time an unreadable round is a third one, it is said. */
  lemma {:induction false} ChargesNoDecision(s: System, e: Event, batch: seq<Observation>, s': System, third: bool)
    requires Sound(s) && e.Replied? && Enabled(s, e) && batch == s.phase.batch && s' == Next(s, e)
    requires NoDecision(e.d) && third == ThirdTime(s.core.unparsedRounds, batch)
    ensures AllBackIn(s, s', batch, e.now + (if third then 3_600_000 else 60_000))
    ensures ChargedOnceMore(s.core.unparsedRounds, batch, s'.core.unparsedRounds)
    ensures Warned(s, e, s', e.d.action.Wait? && third && !s.core.unparsedReported)
  {
    ChargesThird(s, batch, third);
    NoVerdict(s, e);
    ChargedReply(s, e, Ledger.VerdictOf(s, e), batch, s', third);
  }

  /** THE THIRD IN A ROW IS THE LAST FOR AN HOUR. In any stretch in which at most five hundred ids are charged: an
      observation that has been through two such rounds without a readable decision between is, with the rest
      of its batch, put away for an hour by the third. */
  lemma {:induction false} ThirdInARow(config: Config, t0: int, run: Run, n: nat, s0: System, s: System, e: Event,
      k: string, s': System)
    requires t0 > 0 && Legal(config, t0, run) && n <= |run| && s == After(config, t0, run)
    requires Legal(config, t0, run[..n]) && s0 == After(config, t0, run[..n])
    requires |s0.core.unparsedRounds.Keys + Patience.ChargedSince(config, t0, run, n)| <= 500
    requires k in Patience.EveryRound(config, t0, run, n) && |Patience.EveryRound(config, t0, run, n)[k]| >= 2
    requires e.Replied? && Enabled(s, e) && k in Ids(s.phase.batch) && NoDecision(e.d) && s' == Next(s, e)
    ensures AllBackIn(s, s', s.phase.batch, e.now + 3_600_000)
  {
    AlwaysSound(config, t0, run);
    TwiceCharged(config, t0, run, n, s0, k);
    ThirdGoesAway(s, e, k, s');
  }

  lemma ThirdGoesAway(s: System, e: Event, k: string, s': System)
    requires Sound(s) && e.Replied? && Enabled(s, e) && s' == Next(s, e) && NoDecision(e.d)
    requires k in s.core.unparsedRounds && s.core.unparsedRounds[k] >= 2 && k in Ids(s.phase.batch)
    ensures AllBackIn(s, s', s.phase.batch, e.now + 3_600_000)
  {
    ItsThird(s.core.unparsedRounds, s.phase.batch, k);
    ChargesNoDecision(s, e, s.phase.batch, s', true);
  }

  lemma TwiceCharged(config: Config, t0: int, run: Run, n: nat, s0: System, k: string)
    requires t0 > 0 && Legal(config, t0, run) && n <= |run|
    requires Legal(config, t0, run[..n]) && s0 == After(config, t0, run[..n])
    requires |s0.core.unparsedRounds.Keys + Patience.ChargedSince(config, t0, run, n)| <= 500
    requires k in Patience.EveryRound(config, t0, run, n) && |Patience.EveryRound(config, t0, run, n)[k]| >= 2
    ensures var rounds := After(config, t0, run).core.unparsedRounds; k in rounds && rounds[k] >= 2
  {
    Patience.UnreadableRoundsBounded(config, t0, run, n, s0, k, 0, 1);
  }

  lemma ItsThird(rounds: map<string, nat>, batch: seq<Observation>, k: string)
    requires k in rounds && rounds[k] >= 2 && k in Ids(batch)
    ensures ThirdTime(rounds, batch)
  {
    IdsExact(batch);
    var o :| o in batch && o.id == k;
  }

  /** An unreadable reply that is the third for one of its batch. */
  ghost predicate UnreadableThird(s: System, e: Event) {
    && e.Replied? && Enabled(s, e) && e.d.action.Wait? && e.d.unparsed
    && ThirdTime(s.core.unparsedRounds, s.phase.batch)
  }

  /** There has been one in this run. */
  ghost predicate WarnedIn(config: Config, t0: int, run: Run)
    requires Legal(config, t0, run)
  {
    run != [] &&
    var before := run[..|run| - 1];
    WarnedIn(config, t0, before) || UnreadableThird(After(config, t0, before), run[|run| - 1])
  }

  /** THE WARNING IS SAID ONCE: the agent holds that it has warned exactly when there has been such a reply, so
      the first one, and no other, is said. */
  lemma {:induction false} WarnsOnce(config: Config, t0: int, run: Run)
    requires t0 > 0 && Legal(config, t0, run)
    ensures After(config, t0, run).core.unparsedReported <==> WarnedIn(config, t0, run)
  {
    if run != [] {
      var before := run[..|run| - 1];
      WarnsOnce(config, t0, before);
      AlwaysSound(config, t0, before);
      ReportedKept(After(config, t0, before), run[|run| - 1]);
    }
  }

  lemma {:induction false} ReportedKept(s: System, e: Event)
    requires Sound(s) && Enabled(s, e)
    ensures Next(s, e).core.unparsedReported <==> s.core.unparsedReported || UnreadableThird(s, e)
  {
    if e.Replied? {
      ReplyReported(s, e, Ledger.VerdictOf(s, e), ThirdTime(s.core.unparsedRounds, s.phase.batch));
    } else if LooksAround(s, e) {
      ObserveShape(Ledger.LookingCore(s), e.env, Observe(Ledger.LookingCore(s), e.env));
    } else if e.Scored? {
      OrientFrame(s.core, s.phase.batch, s.phase.scoredAt, e.matches, e.now,
                  Orient(s.core, s.phase.batch, s.phase.scoredAt, e.matches, e.now));
    }
  }

  lemma ReplyReported(s: System, e: Event, v: Verdict, third: bool)
    requires Sound(s) && Enabled(s, e) && e.Replied? && v == Ledger.VerdictOf(s, e)
    requires third == ThirdTime(s.core.unparsedRounds, s.phase.batch)
    ensures Act(s.core, s.phase.batch, s.phase.ranked, v, e.now).core.unparsedReported
         == (s.core.unparsedReported || (e.d.action.Wait? && e.d.unparsed && third))
  {
    ChargesThird(s, s.phase.batch, third);
    VerdictUnreadable(e.d, s.phase.ranked, e.foreground, e.submit);
    ActReports(s.core, s.phase.batch, s.phase.ranked, v, e.now);
  }

  lemma VerdictUnreadable(d: Decision, ranked: seq<Observation>, foreground: int, submit: Option<string>)
    requires Parsed(d)
    ensures Judge(d, ranked, foreground, submit).Unreadable? <==> d.action.Wait? && d.unparsed
  {
  }

  /** Every reply is one of these six kinds, and only one. */
  lemma KindsOfReply(d: Decision)
    requires Parsed(d)
    ensures var says, defers, adjusts := exists text :: WantsToSay(d, text),
                                         d.action.Defer? && d.deferMinutes.Some?,
                                         d.action.Adjust? && d.adjustments.Some?;
            var nothing := (d.action.Wait? && !d.unparsed)
                           || (d.action.Escalate? && (d.question.None? || d.question == Some("")))
                           || (d.action.Adjust? && d.adjustments.None?);
            && (says || defers || adjusts || nothing || GivesAGoal(d) || NoDecision(d))
            && (NoDecision(d) ==> !says && !defers && !adjusts && !nothing && !GivesAGoal(d))
  {
    assert d.action.Notify? && d.message.Some? && d.message.value != "" ==> WantsToSay(d, d.message.value);
    assert d.action.Escalate? && d.question.Some? && d.question.value != "" ==>
           WantsToSay(d, "[Agent needs input] " + d.question.value);
  }

  // ---------- a tick that throws ----------

  /** A scorer or a provider that throws: the whole batch is back in a minute, and nothing else has changed. */
  lemma {:induction false} ThrowsBack(s: System, e: Event, batch: seq<Observation>, s': System)
    requires Sound(s) && (e.ScoringFailed? || e.ReplyFailed?) && Enabled(s, e) && batch == s.phase.batch
    requires s' == Next(s, e)
    ensures Over(s, s', e.now) && NoWiser(s, s') && s'.core.unparsedRounds == s.core.unparsedRounds
    ensures Disposed(s.core.engine, s'.core.engine, batch, {}, None, e.now + 60_000)
  {
    Ledger.PlacedFlight(s.core.engine.pending, s.core.engine.deferred.items, batch, s.issued);
    Inventory.PutBackTable(s.core.engine, batch, 1, e.now);
    Inventory.OutsideNothing(batch);
    RestDisposed(s.core.engine, s'.core.engine, batch, {}, 1, e.now);
  }
}
