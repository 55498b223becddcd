/** How many unreadable or unusable reasoning rounds one observation can be put through. */
module Patience {
  import opened Observations
  import opened Engine
  import opened Decisions
  import opened Core
  import opened Daemon
  import opened Ledger
  import opened Holds
  import Inventory

  const COOLDOWN_MS: nat := 3_600_000

  /** When each observation was charged, since its last readable decision (or since the table last
      outgrew its limit and was forgotten). */
  type Rounds = map<string, seq<int>>

  ghost function ChargeAll(r: Rounds, ids: set<string>, now: int): Rounds {
    map k | k in r.Keys + ids ::
      (if k in r then r[k] else []) + (if k in ids then [now] else [])
  }

  /** The table would hold more than five hundred ids: it is forgotten altogether. */
  ghost predicate Forgotten(rounds: map<string, nat>, batch: seq<Observation>) {
    |rounds.Keys + Ids(batch)| > 500
  }

  ghost predicate Chargeable(v: Verdict) { v.Unusable? || v.Unreadable? }

  ghost predicate Clears(v: Verdict) { !Chargeable(v) && !v.SubmitFailed? && !v.Spoke? }

  ghost function Note(r: Rounds, s: System, e: Event): Rounds
    requires Enabled(s, e)
  {
    match e
    case Replied(_, _, _, now) =>
      var v := VerdictOf(s, e);
      if Chargeable(v) then
        if Forgotten(s.core.unparsedRounds, s.phase.batch) then map[] else ChargeAll(r, Ids(s.phase.batch), now)
      else if Clears(v) then r - Ids(s.phase.batch)
      else r
    case MessageSent => r - Ids(s.phase.batch)
    case _ => r
  }

  ghost function RoundsAfter(config: Config, t0: int, run: Run): Rounds
    requires Legal(config, t0, run)
  {
    if run == [] then map[]
    else
      var before := run[..|run| - 1];
      Note(RoundsAfter(config, t0, before), After(config, t0, before), run[|run| - 1])
  }

  // ---------- the table counts the rounds ----------

  /** Who is not among the first n keeps the charges it had. */
  lemma {:induction false} NotCharged(rounds: map<string, nat>, batch: seq<Observation>, n: nat, k: string)
    requires n <= |batch| && forall i :: 0 <= i < n ==> batch[i].id != k
    ensures var r := ChargeUpTo(rounds, batch, n).rounds;
            (k in r <==> k in rounds) && (k in rounds ==> r[k] == rounds[k])
  {
    if n > 0 {
      NotCharged(rounds, batch, n - 1, k);
      assert batch[n - 1].id != k;
    }
  }

  /** Who is among them has one more, and the third exhausts the batch. */
  lemma {:induction false} ChargedOnce(rounds: map<string, nat>, batch: seq<Observation>, n: nat, i: nat)
    requires i < n <= |batch| && Distinct(batch)
    ensures var r, k := ChargeUpTo(rounds, batch, n), batch[i].id;
            && k in r.rounds && r.rounds[k] == (if k in rounds then rounds[k] else 0) + 1
            && (r.rounds[k] >= 3 ==> r.exhausted)
  {
    if i == n - 1 {
      NotCharged(rounds, batch, n - 1, batch[i].id);
    } else {
      ChargedOnce(rounds, batch, n - 1, i);
      assert batch[n - 1].id != batch[i].id;
    }
  }

  ghost predicate Counts(rounds: map<string, nat>, r: Rounds) {
    && rounds.Keys == r.Keys
    && forall k :: k in r ==> |r[k]| == rounds[k]
  }

  lemma {:induction false} ChargedIds(rounds: map<string, nat>, batch: seq<Observation>, c: Charge, k: string)
    requires Distinct(batch) && c == ChargeUpTo(rounds, batch, |batch|)
    ensures k in Ids(batch) ==>
              && k in c.rounds && c.rounds[k] == (if k in rounds then rounds[k] else 0) + 1
              && (c.rounds[k] >= 3 ==> c.exhausted)
    ensures k !in Ids(batch) ==> (k in c.rounds <==> k in rounds) && (k in rounds ==> c.rounds[k] == rounds[k])
  {
    IdsExact(batch);
    if k in Ids(batch) {
      var o :| o in batch && o.id == k;
      var i :| 0 <= i < |batch| && batch[i] == o;
      ChargedOnce(rounds, batch, |batch|, i);
    } else {
      forall i | 0 <= i < |batch| ensures batch[i].id != k {
        assert batch[i] in batch;
      }
      NotCharged(rounds, batch, |batch|, k);
    }
  }

  /** It has been through two charged rounds before. */
  ghost predicate TwiceBefore(rounds: map<string, nat>, k: string) {
    k in rounds && rounds[k] >= 2
  }

  /** A batch is exhausted exactly when this is the third such round, or a later one, for one of it. */
  lemma {:induction false} ExhaustedUpTo(rounds: map<string, nat>, batch: seq<Observation>, n: nat)
    requires n <= |batch| && Distinct(batch)
    ensures ChargeUpTo(rounds, batch, n).exhausted <==> exists i :: 0 <= i < n && TwiceBefore(rounds, batch[i].id)
  {
    if n > 0 {
      ExhaustedUpTo(rounds, batch, n - 1);
      forall i | 0 <= i < n - 1 ensures batch[i].id != batch[n - 1].id {
      }
      NotCharged(rounds, batch, n - 1, batch[n - 1].id);
    }
  }

  lemma ExhaustedIff(rounds: map<string, nat>, batch: seq<Observation>)
    requires Distinct(batch)
    ensures ChargeUpTo(rounds, batch, |batch|).exhausted <==> exists o :: o in batch && TwiceBefore(rounds, o.id)
  {
    ExhaustedUpTo(rounds, batch, |batch|);
    if o :| o in batch && TwiceBefore(rounds, o.id) {
      var i :| 0 <= i < |batch| && batch[i] == o;
      assert TwiceBefore(rounds, batch[i].id);
    }
  }

  /** The ids the table holds once the batch is charged. */
  lemma ChargedKeys(rounds: map<string, nat>, batch: seq<Observation>)
    requires Distinct(batch)
    ensures ChargeUpTo(rounds, batch, |batch|).rounds.Keys == rounds.Keys + Ids(batch)
  {
    var c := ChargeUpTo(rounds, batch, |batch|);
    forall k ensures k in c.rounds <==> k in rounds || k in Ids(batch) {
      ChargedIds(rounds, batch, c, k);
    }
  }

  lemma {:induction false} ChargeCounts(rounds: map<string, nat>, batch: seq<Observation>, r: Rounds, now: int,
      c: Charge, r': Rounds)
    requires Distinct(batch) && Counts(rounds, r)
    requires c == ChargeUpTo(rounds, batch, |batch|) && r' == ChargeAll(r, Ids(batch), now)
    ensures Counts(c.rounds, r')
    ensures forall k :: k in Ids(batch) && |r'[k]| >= 3 ==> c.exhausted
  {
    forall k ensures k in c.rounds <==> k in r'
             ensures k in r' ==> |r'[k]| == c.rounds[k]
             ensures k in Ids(batch) && |r'[k]| >= 3 ==> c.exhausted {
      ChargedIds(rounds, batch, c, k);
    }
  }

  // ---------- from the third round on, an hour ----------

  /** Rounds in order, none after the clock, and an hour between any two from the third on. */
  ghost predicate Patient(t: seq<int>, clock: int) {
    && t != [] && t[|t| - 1] <= clock
    && (forall i :: 0 <= i < |t| - 1 ==> t[i] <= t[i + 1])
    && (forall i :: 2 <= i < |t| - 1 ==> t[i + 1] - t[i] >= COOLDOWN_MS)
  }

  /** One observation's rounds, and that it is held for an hour once there have been three. */
  ghost predicate Bounded(s: System, k: string, t: seq<int>) {
    && Patient(t, s.clock)
    && Held(s, k, if |t| >= 3 then t[|t| - 1] + COOLDOWN_MS else t[|t| - 1])
  }

  ghost predicate AllBounded(s: System, r: Rounds) {
    forall k :: k in r ==> Bounded(s, k, r[k])
  }

  lemma BoundedPersists(s: System, e: Event, s': System, k: string, t: seq<int>)
    requires Sound(s) && Enabled(s, e) && s' == Next(s, e) && Bounded(s, k, t)
    ensures Bounded(s', k, t)
  {
    HeldPersists(s, e, s', k, if |t| >= 3 then t[|t| - 1] + COOLDOWN_MS else t[|t| - 1]);
    ClockRuns(s, e);
  }

  lemma ClockRuns(s: System, e: Event)
    requires Enabled(s, e)
    ensures s.clock <= Next(s, e).clock
  {
  }

  lemma OneMoreRound(t: seq<int>, clock: int, now: int)
    requires t != [] ==> Patient(t, clock)
    requires clock <= now && (|t| >= 3 ==> t[|t| - 1] + COOLDOWN_MS <= clock)
    ensures Patient(t + [now], now)
  {
  }

  lemma BackIsHeld(s: System, s': System, settled: set<string>, back: Inventory.Table, now: int, k: string, until: int)
    requires Sound(s) && Leaves(s, s', settled, back, now) && k in Ids(Flight(s.phase))
    requires forall x :: x in back ==> back[x].recheckAt >= until
    ensures Held(s', k, until)
  {
    PlacedFlight(s.core.engine.pending, s.core.engine.deferred.items, Flight(s.phase), s.issued);
    assert Ids([]) == {};
  }

  /** The charged round itself: the whole actionable batch is held, for an hour if any member has
      now been through three. */
  lemma ChargedHeld(s: System, e: Event, v: Verdict, s': System, k: string, minutes: int)
    requires Sound(s) && e.Replied? && Enabled(s, e) && v == VerdictOf(s, e) && Chargeable(v) && s' == Next(s, e)
    requires k in Ids(s.phase.batch)
    requires minutes == if ChargeUnparsed(s.core.unparsedRounds, s.phase.batch).exhausted then 60 else 1
    ensures Held(s', k, e.now + minutes * MS_PER_MINUTE)
  {
    var batch := s.phase.batch;
    var back := Inventory.Back(batch, |batch|, minutes, e.now);
    assert Inventory.SettledIds(batch, v) == {};
    ActLeaves(s, e, v, back);
    Inventory.BackExact(batch, minutes, e.now);
    BackIsHeld(s, s', {}, back, e.now, k, e.now + minutes * MS_PER_MINUTE);
  }

  lemma HeldLess(s: System, k: string, until: int, less: int)
    requires Held(s, k, until) && less <= until
    ensures Held(s, k, less)
  {
  }

  lemma ChargedBounded(s: System, e: Event, v: Verdict, s': System, k: string, t: seq<int>)
    requires Sound(s) && e.Replied? && Enabled(s, e) && v == VerdictOf(s, e) && Chargeable(v) && s' == Next(s, e)
    requires k in Ids(s.phase.batch)
    requires t == [] || Bounded(s, k, t)
    requires |t| + 1 >= 3 ==> ChargeUnparsed(s.core.unparsedRounds, s.phase.batch).exhausted
    ensures Bounded(s', k, t + [e.now])
  {
    var minutes := if ChargeUnparsed(s.core.unparsedRounds, s.phase.batch).exhausted then 60 else 1;
    ChargedHeld(s, e, v, s', k, minutes);
    OneMoreRound(t, s.clock, e.now);
    var t' := t + [e.now];
    HeldLess(s', k, e.now + minutes * MS_PER_MINUTE, if |t'| >= 3 then t'[|t'| - 1] + COOLDOWN_MS else t'[|t'| - 1]);
    assert s'.clock == e.now;
  }

  lemma ChargeBoundedOne(s: System, e: Event, v: Verdict, s': System, r: Rounds, k: string, t: seq<int>)
    requires Sound(s) && e.Replied? && Enabled(s, e) && v == VerdictOf(s, e) && Chargeable(v) && s' == Next(s, e)
    requires k in r.Keys + Ids(s.phase.batch) && (k in r ==> Bounded(s, k, r[k]))
    requires t == if k in r then r[k] else []
    requires k in Ids(s.phase.batch) && |t| + 1 >= 3 ==> ChargeUnparsed(s.core.unparsedRounds, s.phase.batch).exhausted
    ensures Bounded(s', k, if k in Ids(s.phase.batch) then t + [e.now] else t)
  {
    if k in Ids(s.phase.batch) {
      ChargedBounded(s, e, v, s', k, t);
    } else {
      BoundedPersists(s, e, s', k, t);
    }
  }

  lemma ChargeBounded(s: System, e: Event, v: Verdict, s': System, r: Rounds, r': Rounds, ids: set<string>)
    requires Sound(s) && e.Replied? && Enabled(s, e) && v == VerdictOf(s, e) && Chargeable(v) && s' == Next(s, e)
    requires AllBounded(s, r) && ids == Ids(s.phase.batch) && r' == ChargeAll(r, ids, e.now)
    requires forall k :: k in ids && |r'[k]| >= 3 ==> ChargeUnparsed(s.core.unparsedRounds, s.phase.batch).exhausted
    ensures AllBounded(s', r')
  {
    forall k | k in r' ensures Bounded(s', k, r'[k]) {
      var t := if k in r then r[k] else [];
      assert r'[k] == if k in ids then t + [e.now] else t;
      ChargeBoundedOne(s, e, v, s', r, k, t);
    }
  }

  // ---------- every event ----------

  ghost predicate Kept(s: System, r: Rounds) {
    Counts(s.core.unparsedRounds, r) && AllBounded(s, r)
  }

  lemma ActRounds(c: CoreState, batch: seq<Observation>, ranked: seq<Observation>, v: Verdict, now: int)
    requires ranked != []
    ensures Act(c, batch, ranked, v, now).core.unparsedRounds ==
            if Chargeable(v) then ChargeUnparsed(c.unparsedRounds, batch).rounds
            else if Clears(v) then c.unparsedRounds - Ids(batch)
            else c.unparsedRounds
  {
  }

  lemma KeptElsewhere(s: System, e: Event, s': System, r: Rounds, r': Rounds)
    requires Sound(s) && Enabled(s, e) && s' == Next(s, e) && AllBounded(s, r)
    requires forall k :: k in r' ==> k in r && r'[k] == r[k]
    ensures AllBounded(s', r')
  {
    forall k | k in r' ensures Bounded(s', k, r'[k]) {
      assert Bounded(s, k, r[k]);
      BoundedPersists(s, e, s', k, r[k]);
    }
  }

  lemma ForgottenIff(rounds: map<string, nat>, batch: seq<Observation>)
    requires Distinct(batch)
    ensures var c := ChargeUpTo(rounds, batch, |batch|);
            ChargeUnparsed(rounds, batch) == if Forgotten(rounds, batch) then c.(rounds := map[]) else c
  {
    ChargedKeys(rounds, batch);
    assert |ChargeUpTo(rounds, batch, |batch|).rounds| == |ChargeUpTo(rounds, batch, |batch|).rounds.Keys|;
  }

  lemma {:induction false} RepliedKept(s: System, e: Event, v: Verdict, s': System, r: Rounds, r': Rounds)
    requires Sound(s) && e.Replied? && Enabled(s, e) && v == VerdictOf(s, e) && s' == Next(s, e)
    requires Kept(s, r) && r' == Note(r, s, e)
    ensures Kept(s', r')
  {
    var batch := s.phase.batch;
    ActRounds(s.core, batch, s.phase.ranked, v, e.now);
    ForgottenIff(s.core.unparsedRounds, batch);
    if Chargeable(v) && !Forgotten(s.core.unparsedRounds, batch) {
      ChargeCounts(s.core.unparsedRounds, batch, r, e.now, ChargeUpTo(s.core.unparsedRounds, batch, |batch|), r');
      ChargeBounded(s, e, v, s', r, r', Ids(batch));
    } else {
      KeptElsewhere(s, e, s', r, r');
    }
  }

  lemma {:induction false} QuietRounds(s: System, e: Event)
    requires Enabled(s, e) && !e.Replied? && !e.MessageSent?
    ensures Next(s, e).core.unparsedRounds == s.core.unparsedRounds
  {
    match e
    case Injected(_) =>
    case UserActive(_) =>
    case TickCalled(_, env) =>
      if LooksAround(s, e) {
        ObserveShape(LookingCore(s), env, Observe(LookingCore(s), env));
      }
    case Delivered(env) =>
      if LooksAround(s, e) {
        ObserveShape(s.core, env, Observe(s.core, env));
      }
    case Scored(matches, now) =>
      OrientFrame(s.core, s.phase.batch, s.phase.scoredAt, matches, now,
                  Orient(s.core, s.phase.batch, s.phase.scoredAt, matches, now));
    case ScoringFailed(_) =>
    case ReplyFailed(_) =>
  }

  lemma NextKept(s: System, e: Event, s': System, r: Rounds, r': Rounds)
    requires Sound(s) && Enabled(s, e) && s' == Next(s, e)
    requires Kept(s, r) && r' == Note(r, s, e)
    ensures Kept(s', r')
  {
    if e.Replied? {
      RepliedKept(s, e, VerdictOf(s, e), s', r, r');
    } else {
      KeptElsewhere(s, e, s', r, r');
      if !e.MessageSent? {
        QuietRounds(s, e);
      }
    }
  }

  lemma {:induction false} AlwaysKept(config: Config, t0: int, run: Run)
    requires t0 > 0 && Legal(config, t0, run)
    ensures Sound(After(config, t0, run)) && Kept(After(config, t0, run), RoundsAfter(config, t0, run))
  {
    AlwaysSound(config, t0, run);
    if run != [] {
      var before := run[..|run| - 1];
      AlwaysKept(config, t0, before);
      NextKept(After(config, t0, before), run[|run| - 1], After(config, t0, run), RoundsAfter(config, t0, before),
               RoundsAfter(config, t0, run));
    }
  }

  lemma {:induction false} HoursApart(t: seq<int>, clock: int, i: nat, j: nat)
    requires Patient(t, clock) && i <= j < |t|
    ensures t[i] <= t[j]
    ensures i >= 2 ==> t[j] - t[i] >= (j - i) * COOLDOWN_MS
    decreases j
  {
    if i < j {
      HoursApart(t, clock, i, j - 1);
      assert t[j - 1] <= t[j - 1 + 1];
    }
  }

  /** By the count that starts again when the table is forgotten: at most three unreadable or unusable rounds
      plus one for every full hour, from the i-th to the j-th. */
  lemma {:induction false} RoundsSinceForgotten(config: Config, t0: int, run: Run, k: string, i: nat, j: nat)
    requires t0 > 0 && Legal(config, t0, run)
    requires k in RoundsAfter(config, t0, run) && i <= j < |RoundsAfter(config, t0, run)[k]|
    ensures var t := RoundsAfter(config, t0, run)[k];
            && j - i + 1 <= 3 + (t[j] - t[i]) / COOLDOWN_MS
            && k in After(config, t0, run).core.unparsedRounds
            && After(config, t0, run).core.unparsedRounds[k] == |t|
  {
    AlwaysKept(config, t0, run);
    var t := RoundsAfter(config, t0, run)[k];
    var s := After(config, t0, run);
    assert Bounded(s, k, t);
    HoursApart(t, s.clock, i, j);
    if j > 2 {
      var m := if i >= 2 then i else 2;
      HoursApart(t, s.clock, i, m);
      HoursApart(t, s.clock, m, j);
      assert t[j] - t[i] >= (j - m) * COOLDOWN_MS;
    }
  }

  // ---------- a count that never starts again ----------

  /** The charged rounds of each observation from the n-th event on, since its last readable decision:
      forgetting the table makes no difference to this book. */
  ghost function EveryRound(config: Config, t0: int, run: Run, n: nat): Rounds
    requires Legal(config, t0, run)
  {
    if |run| <= n then map[]
    else
      var before := run[..|run| - 1];
      NoteRound(EveryRound(config, t0, before, n), After(config, t0, before), run[|run| - 1])
  }

  ghost function NoteRound(r: Rounds, s: System, e: Event): Rounds
    requires Enabled(s, e)
  {
    if e.MessageSent? then r - Ids(s.phase.batch)
    else if !e.Replied? then r
    else if Chargeable(VerdictOf(s, e)) then ChargeAll(r, Ids(s.phase.batch), e.now)
    else if Clears(VerdictOf(s, e)) then r - Ids(s.phase.batch)
    else r
  }

  ghost function ChargedBy(s: System, e: Event): set<string>
    requires Enabled(s, e)
  {
    if e.Replied? && Chargeable(VerdictOf(s, e)) then Ids(s.phase.batch) else {}
  }

  /** Every id charged from the n-th event on. */
  ghost function ChargedSince(config: Config, t0: int, run: Run, n: nat): set<string>
    requires Legal(config, t0, run)
  {
    if |run| <= n then {}
    else
      var before := run[..|run| - 1];
      ChargedSince(config, t0, before, n) + ChargedBy(After(config, t0, before), run[|run| - 1])
  }

  lemma SubsetSize(a: set<string>, b: set<string>)
    requires a <= b
    ensures |a| <= |b|
  {
    assert b == a + (b - a);
  }

  /** The table holds no ids but those it held and those charged since. */
  lemma TableGrows(s: System, e: Event)
    requires Sound(s) && Enabled(s, e)
    ensures Next(s, e).core.unparsedRounds.Keys <= s.core.unparsedRounds.Keys + ChargedBy(s, e)
  {
    if e.Replied? {
      ActRounds(s.core, s.phase.batch, s.phase.ranked, VerdictOf(s, e), e.now);
      ForgottenIff(s.core.unparsedRounds, s.phase.batch);
      ChargedKeys(s.core.unparsedRounds, s.phase.batch);
    } else if !e.MessageSent? {
      QuietRounds(s, e);
    }
  }

  lemma {:induction false} TableWithin(config: Config, t0: int, run: Run, n: nat, s0: System)
    requires t0 > 0 && Legal(config, t0, run) && n <= |run|
    requires Legal(config, t0, run[..n]) && s0 == After(config, t0, run[..n])
    ensures After(config, t0, run).core.unparsedRounds.Keys
         <= s0.core.unparsedRounds.Keys + ChargedSince(config, t0, run, n)
  {
    if |run| == n {
      assert run[..n] == run;
    } else {
      var before := run[..|run| - 1];
      assert before[..n] == run[..n];
      TableWithin(config, t0, before, n, s0);
      AlwaysSound(config, t0, before);
      TableGrows(After(config, t0, before), run[|run| - 1]);
    }
  }

  ghost predicate EndsWith(all: seq<int>, last: seq<int>) {
    |last| <= |all| && all[|all| - |last|..] == last
  }

  /** The rounds in this book are the last of those in the one that may have started again. */
  ghost predicate AllEnd(r: Rounds, every: Rounds) {
    forall k :: k in every ==> k in r && EndsWith(r[k], every[k])
  }

  lemma NoneForgotten(s: System, e: Event, r: Rounds, every: Rounds)
    requires Enabled(s, e) && AllEnd(r, every)
    requires e.Replied? && Chargeable(VerdictOf(s, e)) ==> !Forgotten(s.core.unparsedRounds, s.phase.batch)
    ensures AllEnd(Note(r, s, e), NoteRound(every, s, e))
  {
    if e.Replied? && Chargeable(VerdictOf(s, e)) {
      ChargedEnd(r, every, Ids(s.phase.batch), e.now);
    }
  }

  lemma ChargedEnd(r: Rounds, every: Rounds, ids: set<string>, now: int)
    requires AllEnd(r, every)
    ensures AllEnd(ChargeAll(r, ids, now), ChargeAll(every, ids, now))
  {
    var r', every' := ChargeAll(r, ids, now), ChargeAll(every, ids, now);
    forall k | k in every' ensures k in r' && EndsWith(r'[k], every'[k]) {
      var t, last := if k in r then r[k] else [], if k in every then every[k] else [];
      assert EndsWith(t, last);
      assert EndsWith(t + (if k in ids then [now] else []), last + (if k in ids then [now] else []));
    }
  }

  /** As long as at most five hundred ids are in the table or charged, no charge is forgotten. */
  lemma {:induction false} NothingForgotten(config: Config, t0: int, run: Run, n: nat, s0: System)
    requires t0 > 0 && Legal(config, t0, run) && n <= |run|
    requires Legal(config, t0, run[..n]) && s0 == After(config, t0, run[..n])
    requires |s0.core.unparsedRounds.Keys + ChargedSince(config, t0, run, n)| <= 500
    ensures AllEnd(RoundsAfter(config, t0, run), EveryRound(config, t0, run, n))
  {
    if n < |run| {
      var before, e := run[..|run| - 1], run[|run| - 1];
      var s, ids := After(config, t0, before), s0.core.unparsedRounds.Keys;
      assert before[..n] == run[..n];
      SubsetSize(ids + ChargedSince(config, t0, before, n), ids + ChargedSince(config, t0, run, n));
      NothingForgotten(config, t0, before, n, s0);
      TableWithin(config, t0, before, n, s0);
      if e.Replied? && Chargeable(VerdictOf(s, e)) {
        SubsetSize(s.core.unparsedRounds.Keys + Ids(s.phase.batch), ids + ChargedSince(config, t0, run, n));
      }
      NoneForgotten(s, e, RoundsAfter(config, t0, before), EveryRound(config, t0, before, n));
    }
  }

  /** BOUNDED UNREADABLE ROUNDS. Over any stretch of any run in which at most five hundred ids are in the table of
      charges or charged: without a readable decision on it, an observation takes part in at most three
      unreadable or unusable rounds plus one for every full hour, from its i-th such round to its j-th, and
      every one of them is on its account. */
  lemma {:induction false} UnreadableRoundsBounded(config: Config, t0: int, run: Run, n: nat, s0: System, k: string,
      i: nat, j: nat)
    requires t0 > 0 && Legal(config, t0, run) && n <= |run|
    requires Legal(config, t0, run[..n]) && s0 == After(config, t0, run[..n])
    requires |s0.core.unparsedRounds.Keys + ChargedSince(config, t0, run, n)| <= 500
    requires k in EveryRound(config, t0, run, n) && i <= j < |EveryRound(config, t0, run, n)[k]|
    ensures var t := EveryRound(config, t0, run, n)[k];
            && j - i + 1 <= 3 + (t[j] - t[i]) / 3_600_000
            && k in After(config, t0, run).core.unparsedRounds
            && After(config, t0, run).core.unparsedRounds[k] >= |t|
  {
    NothingForgotten(config, t0, run, n, s0);
    EndBounded(config, t0, run, k, EveryRound(config, t0, run, n)[k], i, j);
  }

  lemma EndBounded(config: Config, t0: int, run: Run, k: string, t: seq<int>, i: nat, j: nat)
    requires t0 > 0 && Legal(config, t0, run) && k in RoundsAfter(config, t0, run)
    requires EndsWith(RoundsAfter(config, t0, run)[k], t) && i <= j < |t|
    ensures j - i + 1 <= 3 + (t[j] - t[i]) / 3_600_000
    ensures k in After(config, t0, run).core.unparsedRounds
    ensures After(config, t0, run).core.unparsedRounds[k] >= |t|
  {
    var all := RoundsAfter(config, t0, run)[k];
    var m := |all| - |t|;
    assert all[m..][i] == t[i] && all[m..][j] == t[j];
    RoundsSinceForgotten(config, t0, run, k, m + i, m + j);
  }
}
