/** The whole-run ledger: what became of every actionable observation the engine ever handed over. */
module Ledger {
  import opened Observations
  import opened OrderedMaps
  import opened Engine
  import opened Decisions
  import opened Core
  import opened Inventory
  import opened Gate
  import opened Daemon

  /** The decisions about a whole batch: the operator was told, the runtime was adjusted, or the reply
      asked for nothing (a readable "wait", an "escalate" without a question, an "adjust" without
      adjustments). */
  datatype Discharge = OperatorTold | RuntimeAdjusted | NothingAsked

  /** Why an observation will not be seen again. `Superseded` names the observation that was
      returned under the same hash less than a minute before. */
  datatype Fate =
    | Answered(task: string)
    | Discharged(how: Discharge)
    | BelowMinimum(boosted: int, unboosted: int)
    | Superseded(rival: string, returnedAt: int, at: int)

  datatype Return = Return(id: string, at: int)

  /** `owed` holds the actionable ids collect ever returned, `last` the last return of each hash. */
  datatype Books = Books(owed: set<string>, fate: map<string, Fate>, last: map<Fingerprint, Return>)

  const NEW_BOOKS := Books({}, map[], map[])

  ghost function ReturnsAfter(last: map<Fingerprint, Return>, batch: seq<Observation>, n: nat,
      now: int): map<Fingerprint, Return>
    requires n <= |batch|
  {
    if n == 0 then last
    else ReturnsAfter(last, batch, n - 1, now)[DedupHash(batch[n - 1]) := Return(batch[n - 1].id, now)]
  }

  /** What decides the fate of an observation: the same for all, the two scores it had at the gate, or the
      return it was taken for a repeat of. */
  datatype Cause =
    | Same(fate: Fate)
    | TooLow(boosted: map<string, int>, unboosted: map<string, int>)
    | Repeat(last: map<Fingerprint, Return>, issued: map<string, Observation>, now: int)

  ghost function FateBy(c: Cause, k: string): Fate {
    match c
    case Same(fate) => fate
    case TooLow(boosted, unboosted) =>
      BelowMinimum(if k in boosted then boosted[k] else 0, if k in unboosted then unboosted[k] else 0)
    case Repeat(last, issued, now) =>
      if k in issued && DedupHash(issued[k]) in last
      then Superseded(last[DedupHash(issued[k])].id, last[DedupHash(issued[k])].at, now)
      else Superseded(k, now, now)
  }

  /** The fates of the actionable ones with these ids among the first n. */
  ghost function FatesOf(s: seq<Observation>, n: nat, ids: set<string>, c: Cause): map<string, Fate>
    requires n <= |s|
  {
    if n == 0 then map[]
    else
      var o, r := s[n - 1], FatesOf(s, n - 1, ids, c);
      if o.actionable && o.id in ids then r[o.id := FateBy(c, o.id)] else r
  }

  lemma {:induction false} FatesUpTo(s: seq<Observation>, n: nat, ids: set<string>, c: Cause)
    requires n <= |s|
    ensures var r := FatesOf(s, n, ids, c);
            && (forall k :: k in r ==> k in ActionableIds(s[..n]) && k in ids && r[k] == FateBy(c, k))
            && (forall k :: k in ActionableIds(s[..n]) && k in ids ==> k in r)
  {
    if n > 0 {
      FatesUpTo(s, n - 1, ids, c);
      assert s[..n] == s[..n - 1] + [s[n - 1]];
      SnocIds(s[..n - 1], s[n - 1]);
    }
  }

  lemma FatesExact(s: seq<Observation>, ids: set<string>, c: Cause, r: map<string, Fate>)
    requires r == FatesOf(s, |s|, ids, c)
    ensures r.Keys == ActionableIds(s) * ids
    ensures forall k :: k in r ==> r[k] == FateBy(c, k)
  {
    FatesUpTo(s, |s|, ids, c);
    assert s[..|s|] == s;
  }

  /** The fates of what a collect suppressed although it had been handed over before. */
  ghost function SupersededNow(b: Books, h: Harvest, last: map<Fingerprint, Return>, issued: map<string, Observation>,
      now: int): map<string, Fate> {
    FatesOf(h.suppressed, |h.suppressed|, b.owed, Repeat(last, issued, now))
  }

  /** The fates of what a closed gate dropped. */
  ghost function DroppedNow(batch: seq<Observation>, o: Orientation): map<string, Fate> {
    FatesOf(batch, |batch|, DroppedIds(batch, o),
            TooLow(PrioritiesUpTo(o.ranked, |o.ranked|), PrioritiesUpTo(o.scored, |o.scored|)))
  }

  ghost function ActedNow(batch: seq<Observation>, v: Verdict): map<string, Fate> {
    FatesOf(batch, |batch|, SettledIds(batch, v),
            Same(if v.Submitted? then Answered(v.task)
                 else Discharged(if v.Adjusted? then RuntimeAdjusted else NothingAsked)))
  }

  ghost function ToldNow(batch: seq<Observation>): map<string, Fate> {
    FatesOf(batch, |batch|, Ids(batch), Same(Discharged(OperatorTold)))
  }

  lemma FatesNow(b: Books, h: Harvest, last: map<Fingerprint, Return>, issued: map<string, Observation>, now: int)
    ensures SupersededNow(b, h, last, issued, now).Keys == ActionableIds(h.suppressed) * b.owed
  {
    FatesExact(h.suppressed, b.owed, Repeat(last, issued, now), SupersededNow(b, h, last, issued, now));
  }

  lemma FatesAtGate(batch: seq<Observation>, o: Orientation)
    ensures DroppedNow(batch, o).Keys == ActionableIds(batch) * DroppedIds(batch, o)
  {
    FatesExact(batch, DroppedIds(batch, o),
               TooLow(PrioritiesUpTo(o.ranked, |o.ranked|), PrioritiesUpTo(o.scored, |o.scored|)),
               DroppedNow(batch, o));
  }

  lemma FatesOfAct(batch: seq<Observation>, v: Verdict)
    ensures ActedNow(batch, v).Keys == ActionableIds(batch) * SettledIds(batch, v)
    ensures AllSame(ActedNow(batch, v))
  {
    var how := if v.Submitted? then Answered(v.task)
               else Discharged(if v.Adjusted? then RuntimeAdjusted else NothingAsked);
    FatesExact(batch, SettledIds(batch, v), Same(how), ActedNow(batch, v));
  }

  lemma FatesOfTold(batch: seq<Observation>)
    ensures ToldNow(batch).Keys == ActionableIds(batch)
    ensures AllSame(ToldNow(batch))
  {
    FatesExact(batch, Ids(batch), Same(Discharged(OperatorTold)), ToldNow(batch));
    ActionableAreIds(batch);
  }

  /** None of these needs evidence. */
  ghost predicate AllSame(fate: map<string, Fate>) {
    forall k :: k in fate ==> fate[k].Answered? || fate[k].Discharged?
  }

  ghost function VerdictOf(s: System, e: Event): Verdict
    requires e.Replied? && s.phase.Thinking?
  {
    Judge(e.d, s.phase.ranked, e.foreground, e.submit)
  }

  ghost function CollectedBooks(b: Books, h: Harvest, issued: map<string, Observation>, now: int): Books {
    var last := ReturnsAfter(b.last, h.batch, |h.batch|, now);
    Books(b.owed + ActionableIds(h.batch), b.fate + SupersededNow(b, h, last, issued, now), last)
  }

  /** The core a look around starts from. */
  ghost function LookingCore(s: System): CoreState {
    s.core.(tickInFlight := true)
  }

  /** How each event is booked. */
  ghost function Book(b: Books, s: System, e: Event): Books
    requires Enabled(s, e)
  {
    if LooksAround(s, e) then
      if Collects(LookingCore(s), e.env)
      then CollectedBooks(b, Harvested(LookingCore(s), e.env), Next(s, e).issued, e.env.now)
      else b
    else match e
      case Scored(matches, now) =>
        var o := Oriented(s.core, s.phase.batch, s.phase.scoredAt, matches, now);
        if PassesGate(o) then b else b.(fate := b.fate + DroppedNow(s.phase.batch, o))
      case Replied(_, _, _, _) => b.(fate := b.fate + ActedNow(s.phase.batch, VerdictOf(s, e)))
      case MessageSent => b.(fate := b.fate + ToldNow(s.phase.batch))
      case _ => b
  }

  ghost function BooksAfter(config: Config, t0: int, run: Run): Books
    requires Legal(config, t0, run)
  {
    if run == [] then NEW_BOOKS
    else
      var before := run[..|run| - 1];
      Book(BooksAfter(config, t0, before), After(config, t0, before), run[|run| - 1])
  }

  // ---------- the balance ----------

  /** Every owed id is in the running batch, in the deferral table, or has a fate, and no id is in
      two of the three. */
  ghost predicate Balanced(owed: set<string>, fated: set<string>, pending: seq<Observation>, table: Table,
      flight: seq<Observation>, issued: map<string, Observation>) {
    && owed == ActionableIds(flight) + TableWork(table) + fated
    && fated !! Ids(pending) && fated !! table.Keys && fated !! Ids(flight)
    && fated <= issued.Keys
  }

  ghost predicate BalancedSystem(s: System, b: Books) {
    Balanced(b.owed, b.fate.Keys, s.core.engine.pending, s.core.engine.deferred.items, Flight(s.phase), s.issued)
  }

  lemma InjectBalanced(s: System, b: Books, o: Observation)
    requires Sound(s) && BalancedSystem(s, b) && o.id !in s.issued
    ensures BalancedSystem(Next(s, Injected(o)), b)
  {
    var p := s.core.engine.pending;
    assert o.id !in Ids(p) by { IdsExact(p); }
    InjectIds(s.core.engine, o, Inject(s.core.engine, o).pending);
  }

  lemma TableWorkSum(table: Table, back: Table, table': Table)
    requires table' == table + back && table.Keys !! back.Keys
    ensures TableWork(table') == TableWork(table) + TableWork(back)
    ensures table'.Keys == table.Keys + back.Keys
  {
  }

  /** The batch leaves the tick: part of it goes back, the actionable rest gets its fate. */
  lemma {:induction false} BackBalanced(owed: set<string>, fated: set<string>, pending: seq<Observation>, table: Table,
      batch: seq<Observation>, issued: map<string, Observation>, settled: set<string>, back: Table, now: int,
      fated': set<string>, table': Table)
    requires Ids(batch) !! Ids(pending) && Ids(batch) !! table.Keys && Ids(batch) <= issued.Keys
    requires Balanced(owed, fated, pending, table, batch, issued)
    requires TableWork(back) == ActionableIds(batch) - settled && back.Keys <= Ids(batch) && back.Keys !! settled
    requires table' == table + back && fated' == fated + ActionableIds(batch) * settled
    ensures Balanced(owed, fated', pending, table', [], issued)
  {
    assert ActionableIds(batch) <= Ids(batch) by { IdsExact(batch); }
    TableWorkSum(table, back, table');
    assert ActionableIds([]) == {} && Ids([]) == {};
    assert owed == {} + TableWork(table') + fated';
  }

  lemma PlacedFlight(pending: seq<Observation>, table: Table, batch: seq<Observation>, issued: map<string, Observation>)
    requires Placed(pending, table, batch, issued)
    ensures Ids(batch) !! Ids(pending) && Ids(batch) !! table.Keys && Ids(batch) <= issued.Keys
    ensures Ids(pending) <= issued.Keys && table.Keys <= issued.Keys && Ids(pending) !! table.Keys
  {
    IdsExact(batch);
    IdsExact(pending);
  }

  /** The sets a collect moves ids between. */
  lemma CollectSets(owed: set<string>, fated: set<string>, work: set<string>, left: set<string>, due: set<string>,
      queued: set<string>, reported: set<string>, batch: set<string>, suppressed: set<string>)
    requires owed == work + fated && left <= work && due == work - left
    requires work !! fated && queued !! owed && reported !! owed
    requires batch + suppressed == queued + due + reported && batch !! suppressed
    requires fated !! due
    ensures owed + batch == batch + left + (fated + suppressed * owed)
    ensures suppressed * owed <= due
  {
  }

  /** A collect: what was due comes back or is superseded, and nothing else of it is lost. */
  lemma CollectBalanced(owed: set<string>, fated: set<string>, e: EngineState, issued: map<string, Observation>,
      env: Surroundings, h: Harvest, fated': set<string>)
    requires e.deferred.Valid() && Placed(e.pending, e.deferred.items, [], issued)
    requires Balanced(owed, fated, e.pending, e.deferred.items, [], issued)
    requires Distinct(Gathered(env.reports)) && Ids(Gathered(env.reports)) <= issued.Keys
    requires Ids(Gathered(env.reports)) !! Ids(e.pending) && Ids(Gathered(env.reports)) !! e.deferred.items.Keys
    requires Ids(Gathered(env.reports)) !! fated
    requires h == Collect(e, env.reports, env.now)
    requires fated' == fated + ActionableIds(h.suppressed) * owed
    ensures Balanced(owed + ActionableIds(h.batch), fated', h.engine.pending, h.engine.deferred.items, h.batch, issued)
  {
    var all, table, left := Arrivals(e, env.reports, env.now), e.deferred.items, h.engine.deferred.items;
    var due, reported := Due(e.deferred, env.now), Gathered(env.reports);
    ArrivalsDistinct(e, env.reports, env.now, issued, all);
    CollectSplits(e, env.reports, env.now);
    DueIds(e.deferred, env.now);
    PlacedFlight(e.pending, table, [], issued);
    WorkLeft(e.deferred, env.now, left);
    ActionableAreIds(h.batch);
    ActionableAreIds(h.suppressed);
    ActionableAreIds(e.pending);
    ActionableAreIds(reported);
    ActionableAreIds(due);
    assert ActionableIds([]) == {} && Ids([]) == {};
    CollectSets(owed, fated, TableWork(table), TableWork(left), ActionableIds(due), ActionableIds(e.pending),
                ActionableIds(reported), ActionableIds(h.batch), ActionableIds(h.suppressed));
    CollectApart(fated, Ids(all), fated', Ids(h.batch), Ids(h.suppressed), left.Keys, table.Keys,
                 ActionableIds(h.suppressed) * owed, Ids(due), Ids(e.pending), Ids(reported));
  }

  lemma ActionableAreIds(s: seq<Observation>)
    ensures ActionableIds(s) <= Ids(s)
  {
  }

  lemma WorkLeft(t: OrderedMap<Deferral>, now: int, left: Table)
    requires t.Valid() && left == Drained(t, now).items
    ensures TableWork(left) <= TableWork(t.items) && left.Keys <= t.items.Keys
  {
    DrainExact(t, now);
  }

  lemma CollectApart(fated: set<string>, all: set<string>, fated': set<string>, batch: set<string>,
      suppressed: set<string>, left: set<string>, table: set<string>, lost: set<string>, due: set<string>,
      queued: set<string>, reported: set<string>)
    requires all == queued + due + reported && all == batch + suppressed && batch !! suppressed
    requires fated !! queued && fated !! table && fated !! reported && left <= table && due == table - left
    requires queued !! table && reported !! table
    requires lost <= suppressed && fated' == fated + lost
    ensures fated' !! batch && fated' !! left
  {
  }

  // ---------- every event keeps the balance ----------

  lemma SweptBalanced(owed: set<string>, fated: set<string>, c: CoreState, env: Surroundings,
      issued: map<string, Observation>, all: map<string, Observation>)
    requires |env.tasks| == |c.tracked.keys| && c.tracked.Valid() && c.engine.deferred.Valid()
    requires Placed(c.engine.pending, c.engine.deferred.items, [], issued)
    requires Distinct(Newcomers(c, env)) && Ids(Newcomers(c, env)) !! issued.Keys
    requires all == Register(issued, Newcomers(c, env), |Newcomers(c, env)|)
    requires Balanced(owed, fated, c.engine.pending, c.engine.deferred.items, [], issued)
    ensures var e := SweptEngine(c, env);
            && Placed(e.pending, e.deferred.items, [], all)
            && Balanced(owed, fated, e.pending, e.deferred.items, [], all)
            && e.deferred == c.engine.deferred && e.recentHashes == c.engine.recentHashes
            && Distinct(Gathered(env.reports)) && Ids(Gathered(env.reports)) <= all.Keys
            && Ids(Gathered(env.reports)) !! Ids(e.pending) && Ids(Gathered(env.reports)) !! e.deferred.items.Keys
            && Ids(Gathered(env.reports)) !! fated
            && (forall o :: o in Gathered(env.reports) ==> o.id in all && all[o.id] == o)
  {
    var outs, reps := Outcomes(c.tracked.keys, env.tasks, |env.tasks|, env.now), Gathered(env.reports);
    SweptPlaced(c, env, issued, all);
    ConcatIds(outs, reps);
    ConcatDistinct(outs, reps);
    RegisterAll(issued, Newcomers(c, env), all);
    IdsExact(reps);
    assert issued.Keys <= all.Keys;
    assert c.engine.deferred.items.Keys <= issued.Keys;
  }

  lemma ObserveBalanced(s: System, b: Books, env: Surroundings, s': System, b': Books)
    requires Sound(s) && BalancedSystem(s, b) && Plausible(s, env) && Flight(s.phase) == []
    requires s' == Looked(s, LookingCore(s), env)
    requires b' == if Collects(LookingCore(s), env)
                   then CollectedBooks(b, Harvested(LookingCore(s), env), s'.issued, env.now) else b
    ensures BalancedSystem(s', b')
  {
    var core := LookingCore(s);
    ObserveShape(core, env, Observe(core, env));
    SweptBalanced(b.owed, b.fate.Keys, core, env, s.issued, s'.issued);
    RegisterAll(s.issued, Newcomers(core, env), s'.issued);
    if Collects(core, env) {
      var h := Harvested(core, env);
      assert Flight(s'.phase) == h.batch && s'.core.engine == h.engine;
      SupersededKeys(b, h, s'.issued, env.now, b');
      CollectBalanced(b.owed, b.fate.Keys, SweptEngine(core, env), s'.issued, env, h, b'.fate.Keys);
    }
  }

  lemma SupersededKeys(b: Books, h: Harvest, issued: map<string, Observation>, now: int, b': Books)
    requires b' == CollectedBooks(b, h, issued, now)
    ensures b'.fate.Keys == b.fate.Keys + ActionableIds(h.suppressed) * b.owed
    ensures b'.owed == b.owed + ActionableIds(h.batch)
  {
    FatesNow(b, h, b'.last, issued, now);
  }

  /** How the batch leaves a tick that ends: what went back, and what was settled instead. */
  ghost predicate Leaves(s: System, s': System, settled: set<string>, back: Table, now: int) {
    && Flight(s'.phase) == [] && s'.issued == s.issued
    && s'.core.engine.pending == s.core.engine.pending
    && s'.core.engine.recentHashes == s.core.engine.recentHashes
    && s'.core.engine.deferred.items == s.core.engine.deferred.items + back
    && Conserves(Flight(s.phase), settled, back, now)
  }

  lemma FailLeaves(s: System, e: Event)
    requires Sound(s) && Enabled(s, e) && (e.ScoringFailed? || e.ReplyFailed?)
    ensures Leaves(s, Next(s, e), {}, Back(s.phase.batch, |s.phase.batch|, 1, e.now), e.now)
  {
    PutBackTable(s.core.engine, s.phase.batch, 1, e.now);
    RequeueAllConserves(s.phase.batch, 1, e.now);
  }

  lemma GateLeaves(s: System, e: Event, o: Orientation, kept: seq<Observation>, back: Table)
    requires Sound(s) && e.Scored? && Enabled(s, e)
    requires o == Oriented(s.core, s.phase.batch, s.phase.scoredAt, e.matches, e.now) && !PassesGate(o)
    requires kept == SilencedBy(o, s.phase.batch) && back == Back(kept, |kept|, 5, e.now)
    ensures Leaves(s, Next(s, e), DroppedIds(s.phase.batch, o), back, e.now)
  {
    OrientedIsRanking(s.core, s.phase.batch, s.phase.scoredAt, e.matches, e.now, o);
    ClosedGate(s, e, o, kept, Next(s, e));
    GateTurnLeaves(s, o, kept, back, e.now, Next(s, e));
  }

  lemma GateTurnLeaves(s: System, o: Orientation, kept: seq<Observation>, back: Table, now: int, s': System)
    requires s.phase.Scoring? && Distinct(s.phase.batch) && RankingOf(s.phase.batch, o.ranked)
    requires s.core.engine.deferred.Valid()
    requires kept == SilencedBy(o, s.phase.batch) && back == Back(kept, |kept|, 5, now)
    requires s'.phase == Idle && s'.issued == s.issued
    requires s'.core.engine == PutBack(s.core.engine, kept, |kept|, 5, now)
    ensures Leaves(s, s', DroppedIds(s.phase.batch, o), back, now)
  {
    PutBackTable(s.core.engine, kept, 5, now);
    GateConserves(s.phase.batch, o, kept, now, back);
  }

  lemma ActLeaves(s: System, e: Event, v: Verdict, back: Table)
    requires Sound(s) && e.Replied? && Enabled(s, e) && v == VerdictOf(s, e) && !v.Spoke?
    requires back == ActBack(s.core.unparsedRounds, s.phase.batch, s.phase.ranked, v, e.now)
    ensures Leaves(s, Next(s, e), SettledIds(s.phase.batch, v), back, e.now)
  {
    ActTurnLeaves(s, s.phase.batch, s.phase.ranked, v, e.now, Act(s.core, s.phase.batch, s.phase.ranked, v, e.now),
        back, Next(s, e),
                  SettledIds(s.phase.batch, v));
  }

  lemma ActTurnLeaves(s: System, batch: seq<Observation>, ranked: seq<Observation>, v: Verdict, now: int, t: Turn,
      back: Table, s': System, settled: set<string>)
    requires s.phase == Thinking(batch, ranked) && batch != [] && RankingOf(batch, ranked) && Distinct(batch)
    requires s.core.engine.deferred.Valid() && s.core.tracked.Valid() && !v.Spoke? && (v.PutOff? ==> v.minutes >= 1)
    requires t == Act(s.core, batch, ranked, v, now) && s' == s.(core := t.core, phase := t.phase, clock := now)
    requires back == ActBack(s.core.unparsedRounds, batch, ranked, v, now) && settled == SettledIds(batch, v)
    ensures Leaves(s, s', settled, back, now)
  {
    RankingHasTop(batch, ranked);
    ActTable(s.core, batch, ranked, v, now);
    ActFrame(s.core, batch, ranked, v, now);
    EndedActConserves(s.core.unparsedRounds, batch, ranked, v, now);
  }

  lemma SentLeaves(s: System, e: Event, now: int)
    requires Sound(s) && e.MessageSent? && Enabled(s, e)
    ensures Leaves(s, Next(s, e), Ids(s.phase.batch), map[], now)
  {
    DischargeConserves(s.phase.batch, now);
    assert s.core.engine.deferred.items + map[] == s.core.engine.deferred.items;
  }

  lemma LeavesBalanced(s: System, b: Books, s': System, b': Books, settled: set<string>, back: Table, now: int)
    requires Sound(s) && BalancedSystem(s, b) && Leaves(s, s', settled, back, now)
    requires b'.owed == b.owed && b'.fate.Keys == b.fate.Keys + ActionableIds(Flight(s.phase)) * settled
    ensures BalancedSystem(s', b')
  {
    var batch := Flight(s.phase);
    PlacedFlight(s.core.engine.pending, s.core.engine.deferred.items, batch, s.issued);
    BackBalanced(b.owed, b.fate.Keys, s.core.engine.pending, s.core.engine.deferred.items, batch, s.issued, settled,
        back, now,
                 b'.fate.Keys, s'.core.engine.deferred.items);
  }

  /** Events that move no observation: a chat becomes known, a held message goes out, a second tick
      is refused. */
  ghost predicate Quiet(s: System, e: Event) {
    !LooksAround(s, e) && (e.UserActive? || e.TickCalled? || e.Delivered?)
  }

  lemma QuietMovesNothing(s: System, e: Event)
    requires Sound(s) && Enabled(s, e) && Quiet(s, e)
    ensures Next(s, e).core.engine == s.core.engine && Next(s, e).issued == s.issued
    ensures Flight(Next(s, e).phase) == Flight(s.phase)
  {
  }

  lemma {:induction false} GateBalanced(s: System, b: Books, e: Event)
    requires Sound(s) && BalancedSystem(s, b) && e.Scored? && Enabled(s, e)
    ensures BalancedSystem(Next(s, e), Book(b, s, e))
  {
    var batch := s.phase.batch;
    var o := Oriented(s.core, batch, s.phase.scoredAt, e.matches, e.now);
    if !PassesGate(o) {
      var kept := SilencedBy(o, batch);
      var back := Back(kept, |kept|, 5, e.now);
      GateLeaves(s, e, o, kept, back);
      DroppedBalanced(s, b, o, Next(s, e), Book(b, s, e), back, e.now);
    }
  }

  lemma DroppedBalanced(s: System, b: Books, o: Orientation, s': System, b': Books, back: Table, now: int)
    requires Sound(s) && BalancedSystem(s, b) && s.phase.Scoring?
    requires Leaves(s, s', DroppedIds(s.phase.batch, o), back, now)
    requires b' == b.(fate := b.fate + DroppedNow(s.phase.batch, o))
    ensures BalancedSystem(s', b')
  {
    FatesAtGate(s.phase.batch, o);
    LeavesBalanced(s, b, s', b', DroppedIds(s.phase.batch, o), back, now);
  }

  lemma FailBalanced(s: System, b: Books, e: Event)
    requires Sound(s) && BalancedSystem(s, b) && (e.ScoringFailed? || e.ReplyFailed?) && Enabled(s, e)
    ensures BalancedSystem(Next(s, e), b)
  {
    FailLeaves(s, e);
    LeavesBalanced(s, b, Next(s, e), b, {}, Back(s.phase.batch, |s.phase.batch|, 1, e.now), e.now);
  }

  lemma SentBalanced(s: System, b: Books, e: Event)
    requires Sound(s) && BalancedSystem(s, b) && e.MessageSent? && Enabled(s, e)
    ensures BalancedSystem(Next(s, e), Book(b, s, e))
  {
    SentLeaves(s, e, s.clock);
    ActionableAreIds(s.phase.batch);
    FatesOfTold(s.phase.batch);
    LeavesBalanced(s, b, Next(s, e), Book(b, s, e), Ids(s.phase.batch), map[], s.clock);
  }

  lemma NextBalanced(s: System, b: Books, e: Event)
    requires Sound(s) && BalancedSystem(s, b) && Enabled(s, e)
    ensures BalancedSystem(Next(s, e), Book(b, s, e))
  {
    if LooksAround(s, e) {
      ObserveBalanced(s, b, e.env, Next(s, e), Book(b, s, e));
    } else if Quiet(s, e) {
      QuietMovesNothing(s, e);
    } else {
      match e
      case Injected(o) => InjectBalanced(s, b, o);
      case Scored(_, _) => GateBalanced(s, b, e);
      case ScoringFailed(_) => FailBalanced(s, b, e);
      case Replied(_, _, _, _) => ActedBalanced(s, b, e, VerdictOf(s, e), Next(s, e), Book(b, s, e));
      case ReplyFailed(_) => FailBalanced(s, b, e);
      case MessageSent => SentBalanced(s, b, e);
    }
  }

  /** While a fresh message is on its way nothing moves. */
  lemma SpokeMovesNothing(s: System, e: Event, v: Verdict, s': System)
    requires Sound(s) && e.Replied? && Enabled(s, e) && v == VerdictOf(s, e) && v.Spoke? && s' == Next(s, e)
    ensures s'.core.engine.pending == s.core.engine.pending
    ensures s'.core.engine.recentHashes == s.core.engine.recentHashes
    ensures s'.core.engine.deferred.items == s.core.engine.deferred.items
    ensures Flight(s'.phase) == Flight(s.phase) && s'.issued == s.issued && s'.clock == e.now
    ensures s'.core.config == s.core.config
  {
  }

  lemma ActedBalanced(s: System, b: Books, e: Event, v: Verdict, s': System, b': Books)
    requires Sound(s) && BalancedSystem(s, b) && e.Replied? && Enabled(s, e) && v == VerdictOf(s, e)
    requires s' == Next(s, e) && b' == b.(fate := b.fate + ActedNow(s.phase.batch, v))
    ensures BalancedSystem(s', b')
  {
    if v.Spoke? {
      SpokeMovesNothing(s, e, v, s');
      FatesOfAct(s.phase.batch, v);
      assert b'.fate == b.fate;
    } else {
      var back := ActBack(s.core.unparsedRounds, s.phase.batch, s.phase.ranked, v, e.now);
      ActLeaves(s, e, v, back);
      SettledBalanced(s, b, v, s', b', back, e.now);
    }
  }

  lemma SettledBalanced(s: System, b: Books, v: Verdict, s': System, b': Books, back: Table, now: int)
    requires Sound(s) && BalancedSystem(s, b) && s.phase.Thinking? && !v.Spoke?
    requires Leaves(s, s', SettledIds(s.phase.batch, v), back, now)
    requires b' == b.(fate := b.fate + ActedNow(s.phase.batch, v))
    ensures BalancedSystem(s', b')
  {
    FatesOfAct(s.phase.batch, v);
    LeavesBalanced(s, b, s', b', SettledIds(s.phase.batch, v), back, now);
  }

  /** THE LEDGER BALANCES. After any run, every actionable observation that collect ever returned is
      in the running tick's batch, or waits in the deferral table, or has a fate; never two of them. */
  lemma {:induction false} LedgerBalances(config: Config, t0: int, run: Run)
    requires t0 > 0 && Legal(config, t0, run)
    ensures Sound(After(config, t0, run))
    ensures BalancedSystem(After(config, t0, run), BooksAfter(config, t0, run))
  {
    AlwaysSound(config, t0, run);
    if run == [] {
      assert Ids([]) == {} && ActionableIds([]) == {};
    } else {
      var before := run[..|run| - 1];
      LedgerBalances(config, t0, before);
      NextBalanced(After(config, t0, before), BooksAfter(config, t0, before), run[|run| - 1]);
    }
  }

  /** The same, said of one observation. */
  lemma EveryOwedIsAccountedFor(config: Config, t0: int, run: Run, s: System, b: Books, k: string)
    requires t0 > 0 && Legal(config, t0, run)
    requires s == After(config, t0, run) && b == BooksAfter(config, t0, run)
    requires k in b.owed
    ensures var inBatch := exists o :: o in Flight(s.phase) && o.id == k && o.actionable;
            var deferred := k in s.core.engine.deferred.items && s.core.engine.deferred.items[k].observation.actionable;
            var settled := k in b.fate;
            && (inBatch || deferred || settled)
            && !(inBatch && deferred) && !(inBatch && settled) && !(deferred && settled)
            && k !in Ids(s.core.engine.pending)
  {
    LedgerBalances(config, t0, run);
    IdsExact(Flight(s.phase));
    PlacedFlight(s.core.engine.pending, s.core.engine.deferred.items, Flight(s.phase), s.issued);
  }
}
