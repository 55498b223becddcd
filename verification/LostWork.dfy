/** A run in which work that was put off is lost behind an informational report of the same wording. */
module LostWork {
  import opened Observations
  import opened OrderedMaps
  import opened Engine
  import opened Decisions
  import opened Core
  import opened Daemon
  import opened Ledger
  import opened Finality
  import opened Scenes
  import Recency
  import Scorer
  import StableSort

  /** Work, and a note of the same source and wording that is too low to be reasoned about. */
  ghost predicate WorkAndNote(w: Observation, n: Observation) {
    && w.actionable && !n.actionable && w.id != n.id && w.source == n.source && w.summary == n.summary
    && 30 <= w.priority <= 100 && 0 <= n.priority <= 15
  }

  /** Put off for two minutes. */
  const PUT_OFF := Decision(Decisions.Defer, None, None, None, [], Some(2), None, "r", false)

  /** The work as it is filed. */
  function Filed(w: Observation): Observation { Scorer.ScoreOne(w, 0, map[], 0) }

  /** The work is filed until two minutes after its return at t; it alone was ever returned. */
  ghost predicate Waits(w: Observation, t: int, s: System) {
    && Between(s, t + 60_000) && s.core.config == DEFAULTS && Untouched(s.core)
    && s.core.engine.pending == [] && s.core.engine.deferred == Waiting(Filed(w), t + 120_000)
    && s.core.engine.recentHashes == map[DedupHash(w) := t]
    && s.issued == map[w.id := w]
  }

  lemma WorkFiled(w: Observation, t: int, s: System, e: Event) returns (s': System)
    requires s.phase == Thinking([w], [Filed(w)]) && s.clock == t && t > 0 && Untouched(s.core)
    requires s.core.config == DEFAULTS && s.core.held == [] && s.core.lastReasoningMs == t
    requires s.core.engine.pending == [] && s.core.engine.deferred == NO_DEFERRALS
    requires s.core.engine.recentHashes == map[DedupHash(w) := t] && s.issued == map[w.id := w]
    requires e == Replied(PUT_OFF, 0, None, t)
    ensures Enabled(s, e) && s' == Next(s, e) && VerdictOf(s, e).PutOff?
    ensures Waits(w, t, s')
  {
    assert VerdictOf(s, e) == PutOff(2);
    s' := Next(s, e);
    assert Keep([w], 0, {w.id}, false) == [];
    assert Outside([w], {w.id}) == [];
    assert [] + [w.id] == [w.id];
    assert PutBack(Engine.Defer(s.core.engine, Filed(w), 2, t), [], 0, 1, t)
        == Engine.Defer(s.core.engine, Filed(w), 2, t);
  }

  lemma FirstReportBooked(w: Observation, t0: int, t1: int, e1: Event)
    requires t0 > 0 && t1 == t0 + 60_000 && e1 == TickCalled(0, Calm(t1, [], [Some([w])]))
    requires Enabled(Start(DEFAULTS, t0), e1)
    ensures Book(NEW_BOOKS, Start(DEFAULTS, t0), e1) == ReturnedOne(NEW_BOOKS, w, t1)
  {
    NothingDue(t1);
    OneReport(w);
    assert [] + [] + [w] == [w];
    OneBookedAsReturned(Start(DEFAULTS, t0), e1, w, NEW_BOOKS);
  }

  ghost predicate PutsOff(s: System, e: Event) {
    s.phase.Thinking? && e.Replied? && Enabled(s, e) && VerdictOf(s, e).PutOff?
  }

  /** A round in which the top of the ranking is put off. */
  ghost predicate PutOffRound(s: System, e1: Event, s1: System, e2: Event, s2: System, e3: Event, s3: System) {
    e2.Scored? && Round(s, e1, s1, e2, s2, e3, s3, {}) && PutsOff(s2, e3)
  }

  lemma FiledOnceSeen(w: Observation, t1: int, s1: System, e3: Event) returns (s2: System, s3: System)
    requires 30 <= w.priority <= 100 && w.actionable && t1 > 0 && FirstSeen(DEFAULTS, w, t1, s1)
    requires e3 == Replied(PUT_OFF, 0, None, t1)
    ensures Enabled(s1, Scored([0], t1)) && s2 == Next(s1, Scored([0], t1))
    ensures Enabled(s2, e3) && s3 == Next(s2, e3) && CreditedBy(s2, e3) == {} && PutsOff(s2, e3)
    ensures Waits(w, t1, s3)
  {
    s2 := OrientUntouched(s1, w, t1);
    assert Scorer.ScoreOne(w, 0, map[], t1) == Filed(w);
    s3 := WorkFiled(w, t1, s2, e3);
  }

  lemma ReportedAndFiled(w: Observation, t0: int, t1: int, e1: Event, e3: Event)
    returns (s1: System, s2: System, s3: System)
    requires 30 <= w.priority <= 100 && w.actionable && t0 > 0 && t1 == t0 + 60_000
    requires e1 == TickCalled(0, Calm(t1, [], [Some([w])])) && e3 == Replied(PUT_OFF, 0, None, t1)
    ensures PutOffRound(Start(DEFAULTS, t0), e1, s1, Scored([0], t1), s2, e3, s3)
    ensures Waits(w, t1, s3)
  {
    s1 := FirstLook(DEFAULTS, w, t0, t1, e1);
    s2, s3 := FiledOnceSeen(w, t1, s1, e3);
  }

  /** The work is owed, and was last seen at t under its hash as the observation k. */
  ghost predicate LastSeenAs(w: Observation, k: string, t: int, b: Books) {
    && w.id in b.owed && w.id !in b.fate
    && DedupHash(w) in b.last && b.last[DedupHash(w)] == Return(k, t)
  }

  lemma PutOffSettlesNothing(s: System, e: Event, b: Books)
    requires Enabled(s, e) && e.Replied? && VerdictOf(s, e).PutOff?
    ensures Book(b, s, e) == b
  {
    FatesOfAct(s.phase.batch, VerdictOf(s, e));
    assert ActedNow(s.phase.batch, VerdictOf(s, e)) == map[];
    assert b.fate + map[] == b.fate;
  }

  lemma OpenGateSettlesNothing(s: System, e: Event, b: Books)
    requires Enabled(s, e) && e.Scored? && Next(s, e).phase.Thinking?
    ensures Book(b, s, e) == b
  {
  }

  /** A round in which what a look returned is put off: the books are the look's. */
  lemma PutOffBooked(config: Config, t0: int, run: Run, e1: Event, e2: Event, e3: Event, s: System, s1: System,
      s2: System, s3: System, run': Run)
    requires Legal(config, t0, run) && s == After(config, t0, run)
    requires PutOffRound(s, e1, s1, e2, s2, e3, s3) && run' == run + [e1] + [e2] + [e3]
    ensures Legal(config, t0, run') && After(config, t0, run') == s3
    ensures BooksAfter(config, t0, run') == Book(BooksAfter(config, t0, run), s, e1)
  {
    var b := Book(BooksAfter(config, t0, run), s, e1);
    OpenGateSettlesNothing(s1, e2, b);
    PutOffSettlesNothing(s2, e3, b);
    TwoWritten(config, t0, run, e1, e2, s, s1, s2, run + [e1] + [e2]);
    OneWritten(config, t0, run + [e1] + [e2], e3, s2, s3);
  }

  lemma WorkPutOff(w: Observation, t0: int, t1: int, e1: Event, e3: Event, run: Run)
    requires 30 <= w.priority <= 100 && w.actionable && t0 > 0 && t1 == t0 + 60_000
    requires e1 == TickCalled(0, Calm(t1, [], [Some([w])])) && e3 == Replied(PUT_OFF, 0, None, t1)
    requires run == [] + [e1] + [Scored([0], t1)] + [e3]
    ensures Legal(DEFAULTS, t0, run) && Waits(w, t1, After(DEFAULTS, t0, run))
    ensures LastSeenAs(w, w.id, t1, BooksAfter(DEFAULTS, t0, run))
  {
    var s1, s2, s3 := ReportedAndFiled(w, t0, t1, e1, e3);
    FirstReportBooked(w, t0, t1, e1);
    PutOffBooked(DEFAULTS, t0, [], e1, Scored([0], t1), e3, Start(DEFAULTS, t0), s1, s2, s3, run);
  }

  // ---------- the note is returned, and dropped ----------

  /** The note has been returned at t, and the work still waits, for half a minute. */
  ghost predicate Hidden(w: Observation, t: int, s: System) {
    && Between(s, t + 30_000) && s.core.config == DEFAULTS && s.core.tracked == OrderedMap([], map[])
    && s.core.engine.pending == [] && s.core.engine.deferred == Waiting(Filed(w), t + 30_000)
    && DedupHash(w) in s.core.engine.recentHashes && s.core.engine.recentHashes[DedupHash(w)] == t
    && w.id in s.issued && s.issued[w.id] == w
  }

  /** The note is in the tick's hands, the work still filed. */
  ghost predicate NoteInHand(w: Observation, n: Observation, t: int, s: System) {
    && s.phase == Scoring([n], t) && s.clock == t && s.core.held == [] && s.core.config == DEFAULTS
    && Untouched(s.core) && s.core.lastReasoningMs + 90_000 <= t
    && s.core.engine.pending == [] && s.core.engine.deferred == Waiting(Filed(w), t + 30_000)
    && DedupHash(w) in s.core.engine.recentHashes && s.core.engine.recentHashes[DedupHash(w)] == t
    && w.id in s.issued && s.issued[w.id] == w
  }

  lemma NoteArrives(w: Observation, n: Observation, t: int, s: System, e: Event)
    requires WorkAndNote(w, n) && t > 90_000 && Waits(w, t - 90_000, s)
    requires e == TickCalled(0, Calm(t, [], [Some([n])]))
    ensures Distinct(Gathered(e.env.reports)) && Gathered(e.env.reports) == [n] && Ids([n]) == {n.id}
    ensures Arrivals(s.core.engine, e.env.reports, t) == [n]
    ensures Drained(s.core.engine.deferred, t) == s.core.engine.deferred
    ensures !SeenRecently(s.core.engine.recentHashes, DedupHash(n), t) && DedupHash(n) == DedupHash(w)
  {
    NotYetDue(Filed(w), t + 30_000, t);
    OneReport(n);
    assert [] + [] + [n] == [n];
  }

  lemma NoteReturned(w: Observation, n: Observation, t: int, s: System, e: Event) returns (s': System)
    requires WorkAndNote(w, n) && t > 90_000 && Waits(w, t - 90_000, s)
    requires e == TickCalled(0, Calm(t, [], [Some([n])]))
    ensures Enabled(s, e) && s' == Next(s, e) && NoteInHand(w, n, t, s')
    ensures forall b: Books :: Book(b, s, e) == ReturnedOne(b, n, t)
  {
    NoteArrives(w, n, t, s, e);
    s' := LookAtOne(s, e, n);
    assert Register(s.issued, [n], 0) == s.issued;
    forall b: Books ensures Book(b, s, e) == ReturnedOne(b, n, t) {
      OneBookedAsReturned(s, e, n, b);
    }
  }

  lemma NoteScoresLow(w: Observation, n: Observation, t: int, s: System, p: int)
    requires WorkAndNote(w, n) && NoteInHand(w, n, t, s)
    requires p == Scorer.ScoreOne(n, 0, Scorer.Pruned(s.core.actions, t), t).priority
    ensures p < 30 && ExpireThreshold(ExpireBoosts(s.core.overrides, t), t) == NO_OVERRIDES
    ensures ExpireBoosts(s.core.overrides, t).boosts == map[] && Scorer.Pruned(s.core.actions, t) == map[]
  {
    assert Scorer.Pruned(s.core.actions, t) == map[];
    assert ExpireBoosts(NO_OVERRIDES, t) == NO_OVERRIDES;
  }

  lemma NothingBooked(b: Books, fate: map<string, Fate>)
    requires fate == map[]
    ensures b.(fate := b.fate + fate) == b
  {
    assert b.fate + fate == b.fate;
  }

  lemma NoteDropped(w: Observation, n: Observation, t: int, s: System, e: Event) returns (s': System)
    requires WorkAndNote(w, n) && t > 0 && NoteInHand(w, n, t, s) && e == Scored([0], t)
    ensures Enabled(s, e) && s' == Next(s, e) && Hidden(w, t, s')
    ensures forall b: Books :: Book(b, s, e) == b
  {
    var p := Scorer.ScoreOne(n, 0, Scorer.Pruned(s.core.actions, t), t).priority;
    NoteScoresLow(w, n, t, s, p);
    s' := DroppedAlone(s, n, t, e, p);
    forall b: Books ensures Book(b, s, e) == b {
      NothingBooked(b, map[]);
    }
  }

  lemma NoteComesAndGoes(w: Observation, n: Observation, t: int, s: System, e1: Event, e2: Event, b: Books)
    returns (s1: System, s2: System)
    requires WorkAndNote(w, n) && t > 90_000 && Waits(w, t - 90_000, s) && LastSeenAs(w, w.id, t - 90_000, b)
    requires e1 == TickCalled(0, Calm(t, [], [Some([n])])) && e2 == Scored([0], t)
    ensures Pair(s, e1, s1, e2, s2) && Hidden(w, t, s2)
    ensures forall b2 :: PairBooked(s, e1, s1, e2, b, b2) ==> LastSeenAs(w, n.id, t, b2)
  {
    s1 := NoteReturned(w, n, t, s, e1);
    s2 := NoteDropped(w, n, t, s1, e2);
    assert LastSeenAs(w, n.id, t, ReturnedOne(b, n, t));
  }

  lemma NoteInTheWay(w: Observation, n: Observation, t0: int, t: int, before: Run, e1: Event, e2: Event, run: Run)
    requires WorkAndNote(w, n) && t > 90_000
    requires Legal(DEFAULTS, t0, before) && Waits(w, t - 90_000, After(DEFAULTS, t0, before))
    requires LastSeenAs(w, w.id, t - 90_000, BooksAfter(DEFAULTS, t0, before))
    requires e1 == TickCalled(0, Calm(t, [], [Some([n])])) && e2 == Scored([0], t) && run == before + [e1] + [e2]
    ensures Legal(DEFAULTS, t0, run) && Hidden(w, t, After(DEFAULTS, t0, run))
    ensures LastSeenAs(w, n.id, t, BooksAfter(DEFAULTS, t0, run))
  {
    var s, b := After(DEFAULTS, t0, before), BooksAfter(DEFAULTS, t0, before);
    var s1, s2 := NoteComesAndGoes(w, n, t, s, e1, e2, b);
    TwoWritten(DEFAULTS, t0, before, e1, e2, s, s1, s2, run);
  }

  // ---------- the work falls due, and is not returned ----------

  lemma WorkSuppressed(e: EngineState, o: Observation, now: int, h: Harvest)
    requires e.pending == [] && e.deferred == Waiting(o, now) && h == Collect(e, [], now)
    requires SeenRecently(e.recentHashes, DedupHash(o), now)
    ensures h.batch == [] && h.suppressed == [o] && h.engine.pending == [] && h.engine.deferred == NO_DEFERRALS
  {
    var pruned := Recency.Prune(e.recentHashes, now, DEDUP_WINDOW_MS);
    OneDue(o, now, now);
    assert [] + [o] + [] == [o];
    assert Arrivals(e, [], now) == [o];
    assert [o][..0] == [] && [] + [o] == [o];
    assert Sift([], pruned, now) == Sieve([], [], pruned);
    assert SeenRecently(pruned, DedupHash(o), now);
    assert Sift([o], pruned, now) == Sieve([], [o], pruned);
    assert StableSort.Sort([]) == [];
  }

  lemma SupersededBy(b: Books, h: Harvest, issued: map<string, Observation>, w: Observation, o: Observation,
      k: string, t: int, now: int)
    requires h.batch == [] && h.suppressed == [o] && o.id == w.id && o.actionable
    requires w.id in issued && issued[w.id] == w && LastSeenAs(w, k, t, b)
    ensures var fate := CollectedBooks(b, h, issued, now).fate; w.id in fate && fate[w.id] == Superseded(k, t, now)
  {
    SnocIds([], o);
    assert [] + [o] == [o];
    assert ActionableIds([]) == {} && ReturnsAfter(b.last, [], 0, now) == b.last;
    FatesExact([o], b.owed, Repeat(b.last, issued, now), SupersededNow(b, h, b.last, issued, now));
  }

  lemma WorkMissing(w: Observation, t: int, s: System, e: Event, h: Harvest, b: Books) returns (s': System)
    requires w.actionable && t > 60_000 && Hidden(w, t - 30_000, s) && e == TickCalled(0, Calm(t, [], []))
    requires h == Collect(s.core.engine, [], t)
    ensures h.batch == [] && h.suppressed == [Filed(w)]
    ensures Enabled(s, e) && s' == Next(s, e) && w.id !in Places(s')
    ensures w.id in s'.issued && s'.issued[w.id] == w
    ensures Book(b, s, e) == CollectedBooks(b, h, s'.issued, t)
  {
    assert DedupHash(Filed(w)) == DedupHash(w);
    WorkSuppressed(s.core.engine, Filed(w), t, h);
    assert Gathered([]) == [] && Ids([]) == {};
    s' := Look(s, e, h);
    LookBooked(s, e, h, b);
  }

  lemma WorkNotReturned(w: Observation, n: Observation, t: int, s: System, e: Event, b: Books) returns (s': System)
    requires w.actionable && t > 60_000 && Hidden(w, t - 30_000, s) && LastSeenAs(w, n.id, t - 30_000, b)
    requires e == TickCalled(0, Calm(t, [], []))
    ensures Enabled(s, e) && s' == Next(s, e) && CreditedBy(s, e) == {}
    ensures w.id in s'.issued && w.id !in Places(s')
    ensures var fate := Book(b, s, e).fate; w.id in fate && fate[w.id] == Superseded(n.id, t - 30_000, t)
  {
    var h := Collect(s.core.engine, [], t);
    s' := WorkMissing(w, t, s, e, h, b);
    SupersededBy(b, h, s'.issued, w, Filed(w), n.id, t - 30_000, t);
  }

  lemma WorkLost(w: Observation, n: Observation, t0: int, t: int, before: Run, e: Event, run: Run)
    requires w.actionable && t > 60_000 && Legal(DEFAULTS, t0, before)
    requires Hidden(w, t - 30_000, After(DEFAULTS, t0, before))
    requires LastSeenAs(w, n.id, t - 30_000, BooksAfter(DEFAULTS, t0, before))
    requires e == TickCalled(0, Calm(t, [], [])) && run == before + [e]
    ensures Legal(DEFAULTS, t0, run)
    ensures w.id in After(DEFAULTS, t0, run).issued && w.id !in Places(After(DEFAULTS, t0, run))
    ensures var fate := BooksAfter(DEFAULTS, t0, run).fate;
            w.id in fate && fate[w.id] == Superseded(n.id, t - 30_000, t)
  {
    var s, b := After(DEFAULTS, t0, before), BooksAfter(DEFAULTS, t0, before);
    var s' := WorkNotReturned(w, n, t, s, e, b);
    OneWritten(DEFAULTS, t0, before, e, s, s');
  }

  /** WORK IS LOST BEHIND A NOTE. A report of work is put off for two minutes; half a minute before it is
      due, an informational report of the same source and wording is returned, and dropped; when the work
      falls due it is taken for a repeat of the note. The rival need not be work: the hash leaves out the
      id and the actionable flag. However the run goes on, the work is never seen again. */
  lemma {:induction false} WorkLostBehindNote(w: Observation, n: Observation, t0: int, t1: int, t2: int, t3: int,
      run: Run, more: Run)
    requires WorkAndNote(w, n) && t0 > 0 && t1 == t0 + 60_000 && t2 == t1 + 90_000 && t3 == t2 + 30_000
    requires run == [] + [TickCalled(0, Calm(t1, [], [Some([w])]))]
                       + [Scored([0], t1)]
                       + [Replied(PUT_OFF, 0, None, t1)]
                       + [TickCalled(0, Calm(t2, [], [Some([n])]))]
                       + [Scored([0], t2)]
                       + [TickCalled(0, Calm(t3, [], []))]
    ensures Legal(DEFAULTS, t0, run)
    ensures w.id in After(DEFAULTS, t0, run).issued && w.id !in Places(After(DEFAULTS, t0, run))
    ensures var fate := BooksAfter(DEFAULTS, t0, run).fate; w.id in fate && fate[w.id] == Superseded(n.id, t2, t3)
    ensures Legal(DEFAULTS, t0, run + more) ==> w.id !in Places(After(DEFAULTS, t0, run + more))
  {
    var e1, e3 := TickCalled(0, Calm(t1, [], [Some([w])])), Replied(PUT_OFF, 0, None, t1);
    var e4, e6 := TickCalled(0, Calm(t2, [], [Some([n])])), TickCalled(0, Calm(t3, [], []));
    var run1: Run := [] + [e1] + [Scored([0], t1)] + [e3];
    var run2 := run1 + [e4] + [Scored([0], t2)];
    WorkPutOff(w, t0, t1, e1, e3, run1);
    NoteInTheWay(w, n, t0, t2, run1, e4, Scored([0], t2), run2);
    WorkLost(w, n, t0, t3, run2, e6, run);
    if Legal(DEFAULTS, t0, run + more) {
      GoneForGood(DEFAULTS, t0, run, more, w.id);
    }
  }
}
