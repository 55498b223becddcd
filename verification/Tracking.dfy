/** Submitted tasks are followed up, and each reports its outcome at most once. */
module Tracking {
  import opened Observations
  import opened OrderedMaps
  import opened Engine
  import opened Core
  import opened Daemon
  import opened Ledger
  import Decisions

  /** Followed for more than seven days. */
  ghost predicate Expired(tracked: OrderedMap<int>, k: string, now: int) {
    k in tracked.items && now - tracked.items[k] > 604_800_000
  }

  /** No lookup of an entry before the n-th throws; an expired entry is not looked up. */
  ghost predicate Reached(tracked: OrderedMap<int>, tasks: seq<TaskReply>, n: nat, now: int)
    requires n <= |tracked.keys| == |tasks|
  {
    forall i :: 0 <= i < n ==> !tasks[i].StatusThrows? || Expired(tracked, tracked.keys[i], now)
  }

  /** The sweep comes to its n-th entry, and finds that its task has ended. */
  ghost predicate Reports(tracked: OrderedMap<int>, tasks: seq<TaskReply>, n: nat, now: int)
    requires n < |tracked.keys| == |tasks|
  {
    Reached(tracked, tasks, n, now) && !Expired(tracked, tracked.keys[n], now) && tasks[n].Ended?
  }

  /** It comes to it, and drops it. */
  ghost predicate Drops(tracked: OrderedMap<int>, tasks: seq<TaskReply>, n: nat, now: int)
    requires n < |tracked.keys| == |tasks|
  {
    Reached(tracked, tasks, n, now) && (Expired(tracked, tracked.keys[n], now) || tasks[n].Ended?)
  }

  /** Those whose outcome the first n entries of a sweep inject. */
  ghost function Reported(tracked: OrderedMap<int>, tasks: seq<TaskReply>, n: nat, now: int): set<string>
    requires n <= |tracked.keys| == |tasks|
  {
    set i | 0 <= i < n && Reports(tracked, tasks, i, now) :: tracked.keys[i]
  }

  /** A sweep fails exactly when a lookup throws. */
  lemma {:induction false} FailsIff(e: EngineState, tracked: OrderedMap<int>, tasks: seq<TaskReply>, n: nat, now: int)
    requires n <= |tracked.keys| == |tasks|
    ensures SweepTasks(e, tracked, tasks, n, now).failed <==> !Reached(tracked, tasks, n, now)
  {
    if n > 0 {
      FailsIff(e, tracked, tasks, n - 1, now);
      assert Stale(tracked, tracked.keys[n - 1], now) == Expired(tracked, tracked.keys[n - 1], now);
    }
  }

  lemma SweepsOneMore(e: EngineState, tracked: OrderedMap<int>, tasks: seq<TaskReply>, n: nat, now: int)
    requires 0 < n <= |tracked.keys| == |tasks|
    ensures var before, r := SweepTasks(e, tracked, tasks, n - 1, now), SweepTasks(e, tracked, tasks, n, now);
            r.tracked.items == if Drops(tracked, tasks, n - 1, now)
                               then before.tracked.items - {tracked.keys[n - 1]} else before.tracked.items
  {
    FailsIff(e, tracked, tasks, n - 1, now);
    assert Stale(tracked, tracked.keys[n - 1], now) == Expired(tracked, tracked.keys[n - 1], now);
  }

  lemma KeyOnce(keys: seq<string>, n: nat)
    requires NoRepeats(keys) && n < |keys|
    ensures forall i :: 0 <= i < |keys| ==> (keys[i] == keys[n] <==> i == n)
  {
  }

  /** WHICH TASKS A SWEEP DROPS: an entry leaves the table exactly when the sweep comes to it and its task has
      ended, or has been followed for more than seven days; every other is followed on as it was. */
  lemma {:induction false} SweepExact(e: EngineState, tracked: OrderedMap<int>, tasks: seq<TaskReply>, n: nat, now: int)
    requires n <= |tracked.keys| == |tasks| && tracked.Valid()
    ensures var r := SweepTasks(e, tracked, tasks, n, now).tracked.items;
            && (forall i :: 0 <= i < |tasks| ==>
                 (tracked.keys[i] in r <==> !(i < n && Drops(tracked, tasks, i, now))))
            && (forall k :: k in r ==> k in tracked.items && r[k] == tracked.items[k])
  {
    if n > 0 {
      SweepExact(e, tracked, tasks, n - 1, now);
      SweepsOneMore(e, tracked, tasks, n, now);
      KeyOnce(tracked.keys, n - 1);
    }
  }

  /** In terms of sets: a reported task leaves the table at once, and none leaves it that was neither reported
      nor expired. */
  lemma SweepSets(e: EngineState, tracked: OrderedMap<int>, tasks: seq<TaskReply>, now: int)
    requires |tracked.keys| == |tasks| && tracked.Valid()
    ensures var r, reported := SweepTasks(e, tracked, tasks, |tasks|, now).tracked.items,
                               Reported(tracked, tasks, |tasks|, now);
            && (forall k :: k in reported ==> k in tracked.items && k !in r)
            && (forall k :: k in r ==> k in tracked.items && r[k] == tracked.items[k])
            && (forall k :: k in tracked.items && k !in r ==> k in reported || Expired(tracked, k, now))
  {
    SweepExact(e, tracked, tasks, |tasks|, now);
    forall k | k in tracked.items && k !in SweepTasks(e, tracked, tasks, |tasks|, now).tracked.items
      ensures k in Reported(tracked, tasks, |tasks|, now) || Expired(tracked, k, now) {
      assert k in tracked.keys;
      var i :| 0 <= i < |tasks| && tracked.keys[i] == k;
      assert Drops(tracked, tasks, i, now);
      assert !Expired(tracked, k, now) ==> Reports(tracked, tasks, i, now);
    }
  }

  /** The outcomes themselves, in the order the sweep comes to them. */
  ghost function ReportedOutcomes(tracked: OrderedMap<int>, tasks: seq<TaskReply>, n: nat,
      now: int): seq<Observation>
    requires n <= |tracked.keys| == |tasks|
  {
    if n == 0 then []
    else ReportedOutcomes(tracked, tasks, n - 1, now)
         + (if Reports(tracked, tasks, n - 1, now) then [OutcomeObservation(tracked.keys[n - 1], tasks[n - 1],
             now)] else [])
  }

  /** What an outcome says: which task, how it ended, and when; it is work, and a failure is urgent. */
  ghost predicate Tells(o: Observation, taskId: string, reply: TaskReply, now: int) {
    && reply.Ended? && o.id == reply.uuid && o.source.TaskOutcome? && o.actionable && o.timestamp == now
    && (reply.success ==> o.priority == 40 && "Agent task succeeded: " <= o.summary)
    && (!reply.success ==> o.priority == 70 && "Agent task failed: " <= o.summary)
    && var named := if reply.title.Some? then reply.title.value else taskId;
       |named| <= |o.summary| && o.summary[|o.summary| - |named|..] == named
       && |o.summary| == |named| + (if reply.success then 22 else 19)
  }

  lemma OutcomeTells(taskId: string, reply: TaskReply, now: int)
    requires reply.Ended?
    ensures Tells(OutcomeObservation(taskId, reply, now), taskId, reply, now)
  {
    var named := if reply.title.Some? then reply.title.value else taskId;
    var o := OutcomeObservation(taskId, reply, now);
    if reply.success {
      assert o.summary == "Agent task succeeded: " + named;
    } else {
      assert o.summary == "Agent task failed: " + named;
    }
  }

  /** Every reported task has an outcome that tells of it. */
  lemma {:induction false} OutcomeMade(tracked: OrderedMap<int>, tasks: seq<TaskReply>, n: nat, now: int, i: nat)
    returns (o: Observation)
    requires i < n <= |tracked.keys| == |tasks| && Reports(tracked, tasks, i, now)
    ensures o in ReportedOutcomes(tracked, tasks, n, now) && Tells(o, tracked.keys[i], tasks[i], now)
  {
    if i == n - 1 {
      o := OutcomeObservation(tracked.keys[i], tasks[i], now);
      OutcomeTells(tracked.keys[i], tasks[i], now);
      assert ReportedOutcomes(tracked, tasks, n, now)[|ReportedOutcomes(tracked, tasks, n - 1, now)|] == o;
    } else {
      o := OutcomeMade(tracked, tasks, n - 1, now, i);
    }
  }

  /** And every outcome tells of a reported task. */
  lemma {:induction false} OutcomeOf(tracked: OrderedMap<int>, tasks: seq<TaskReply>, n: nat, now: int, o: Observation)
    returns (i: nat)
    requires n <= |tracked.keys| == |tasks| && o in ReportedOutcomes(tracked, tasks, n, now)
    ensures i < n && Reports(tracked, tasks, i, now) && Tells(o, tracked.keys[i], tasks[i], now)
  {
    if o in ReportedOutcomes(tracked, tasks, n - 1, now) {
      i := OutcomeOf(tracked, tasks, n - 1, now, o);
    } else {
      i := n - 1;
      OutcomeTells(tracked.keys[i], tasks[i], now);
    }
  }

  lemma SweepInjectsReported(e: EngineState, tracked: OrderedMap<int>, tasks: seq<TaskReply>, n: nat, now: int)
    requires n < |tracked.keys| == |tasks|
    ensures SweepTasks(e, tracked, tasks, n + 1, now).engine ==
            if Reports(tracked, tasks, n, now)
            then Inject(SweepTasks(e, tracked, tasks, n, now).engine, OutcomeObservation(tracked.keys[n], tasks[n],
                now))
            else SweepTasks(e, tracked, tasks, n, now).engine
  {
    FailsIff(e, tracked, tasks, n, now);
    assert Stale(tracked, tracked.keys[n], now) == Expired(tracked, tracked.keys[n], now);
  }

  lemma OneMoreQueued(e: EngineState, o: Observation, before: seq<Observation>)
    requires e.pending == LastN(before, MAX_PENDING_INJECTIONS)
    ensures Inject(e, o).pending == LastN(before + [o], MAX_PENDING_INJECTIONS)
  {
  }

  /** The queue after a sweep is the newest hundred of what was queued and the outcomes reported. */
  lemma {:induction false} SweepQueueIsSuffix(e: EngineState, tracked: OrderedMap<int>, tasks: seq<TaskReply>, n: nat,
      now: int)
    requires n <= |tracked.keys| == |tasks| && |e.pending| <= 100
    ensures SweepTasks(e, tracked, tasks, n, now).engine.pending
         == LastN(e.pending + ReportedOutcomes(tracked, tasks, n, now), 100)
  {
    var made := ReportedOutcomes(tracked, tasks, n, now);
    if n == 0 {
      assert e.pending + made == e.pending;
    } else {
      SweepQueueIsSuffix(e, tracked, tasks, n - 1, now);
      SweepInjectsReported(e, tracked, tasks, n - 1, now);
      var before := ReportedOutcomes(tracked, tasks, n - 1, now);
      if Reports(tracked, tasks, n - 1, now) {
        var o := OutcomeObservation(tracked.keys[n - 1], tasks[n - 1], now);
        OneMoreQueued(SweepTasks(e, tracked, tasks, n - 1, now).engine, o, e.pending + before);
        assert e.pending + made == e.pending + before + [o];
      } else {
        assert made == before;
      }
    }
  }

  datatype TaskLog = TaskLog(submitted: set<string>, reported: set<string>)

  ghost function ReportedBy(s: System, e: Event): set<string>
    requires Enabled(s, e)
  {
    if LooksAround(s, e) && Admitted(LookingCore(s), e.env)
    then Reported(s.core.tracked, e.env.tasks, |e.env.tasks|, e.env.now) else {}
  }

  ghost function SubmittedBy(s: System, e: Event): set<string>
    requires Enabled(s, e)
  {
    if e.Replied? && VerdictOf(s, e).Submitted? then {VerdictOf(s, e).task} else {}
  }

  ghost function TaskLogAfter(config: Config, t0: int, run: Run): TaskLog
    requires Legal(config, t0, run)
  {
    if run == [] then TaskLog({}, {})
    else
      var before, e := run[..|run| - 1], run[|run| - 1];
      var s, log := After(config, t0, before), TaskLogAfter(config, t0, before);
      TaskLog(log.submitted + SubmittedBy(s, e), log.reported + ReportedBy(s, e))
  }

  /** Submitting never hands out an id twice. */
  ghost predicate TaskIdsFresh(config: Config, t0: int, run: Run)
    requires Legal(config, t0, run)
  {
    run == [] ||
    var before := run[..|run| - 1];
    && TaskIdsFresh(config, t0, before)
    && SubmittedBy(After(config, t0, before), run[|run| - 1]) !! TaskLogAfter(config, t0, before).submitted
  }

  ghost predicate Followed(s: System, log: TaskLog) {
    && log.reported <= log.submitted && s.core.tracked.items.Keys <= log.submitted
    && log.reported !! s.core.tracked.items.Keys
  }

  lemma {:induction false} TrackedKept(s: System, e: Event)
    requires Sound(s) && Enabled(s, e)
    requires !(LooksAround(s, e) && Admitted(LookingCore(s), e.env)) && !(e.Replied? && VerdictOf(s, e).Submitted?)
    ensures Next(s, e).core.tracked == s.core.tracked
  {
    if LooksAround(s, e) {
      ObserveShape(LookingCore(s), e.env, Observe(LookingCore(s), e.env));
    } else if e.Replied? {
      ActTracked(s.core, s.phase.batch, s.phase.ranked, VerdictOf(s, e), e.now);
    } else {
      TrackedElsewhere(s, e);
    }
  }

  lemma TrackedElsewhere(s: System, e: Event)
    requires Enabled(s, e) && !LooksAround(s, e) && !e.Replied?
    ensures Next(s, e).core.tracked == s.core.tracked
  {
  }

  lemma ActTracked(c: CoreState, batch: seq<Observation>, ranked: seq<Observation>, v: Decisions.Verdict, now: int)
    requires ranked != []
    ensures Act(c, batch, ranked, v, now).core.tracked == if v.Submitted? then c.tracked.Set(v.task, now) else c.tracked
  {
  }

  lemma ObserveTracked(s: System, e: Event)
    requires Sound(s) && Enabled(s, e) && LooksAround(s, e) && Admitted(LookingCore(s), e.env)
    ensures Next(s, e).core.tracked == SweepTasks(s.core.engine, s.core.tracked, e.env.tasks, |e.env.tasks|,
        e.env.now).tracked
  {
    ObserveShape(LookingCore(s), e.env, Observe(LookingCore(s), e.env));
  }

  lemma {:induction false} NextFollowed(s: System, e: Event, log: TaskLog)
    requires Sound(s) && Enabled(s, e) && Followed(s, log)
    requires SubmittedBy(s, e) !! log.submitted
    ensures Followed(Next(s, e), TaskLog(log.submitted + SubmittedBy(s, e), log.reported + ReportedBy(s, e)))
    ensures ReportedBy(s, e) !! log.reported
  {
    if LooksAround(s, e) && Admitted(LookingCore(s), e.env) {
      ObserveTracked(s, e);
      SweepFollowed(s.core.engine, s.core.tracked, e.env.tasks, e.env.now, log,
                    Next(s, e).core.tracked, ReportedBy(s, e));
      assert log.submitted + SubmittedBy(s, e) == log.submitted;
    } else if e.Replied? && VerdictOf(s, e).Submitted? {
      SubmitFollowed(s, e, log);
    } else {
      TrackedKept(s, e);
      assert log.submitted + SubmittedBy(s, e) == log.submitted && log.reported + ReportedBy(s, e) == log.reported;
    }
  }

  lemma SweepFollowed(e: EngineState, tracked: OrderedMap<int>, tasks: seq<TaskReply>, now: int, log: TaskLog,
      tracked': OrderedMap<int>, reported: set<string>)
    requires |tracked.keys| == |tasks| && tracked.Valid()
    requires log.reported <= log.submitted && tracked.items.Keys <= log.submitted && log.reported !! tracked.items.Keys
    requires tracked' == SweepTasks(e, tracked, tasks, |tasks|, now).tracked
             && reported == Reported(tracked, tasks, |tasks|, now)
    ensures tracked'.items.Keys <= log.submitted && reported <= tracked.items.Keys
    ensures (log.reported + reported) !! tracked'.items.Keys
  {
    SweepSets(e, tracked, tasks, now);
  }

  lemma SubmitFollowed(s: System, e: Event, log: TaskLog)
    requires Enabled(s, e) && Followed(s, log) && e.Replied? && VerdictOf(s, e).Submitted?
    requires SubmittedBy(s, e) !! log.submitted
    ensures Followed(Next(s, e), TaskLog(log.submitted + SubmittedBy(s, e), log.reported + ReportedBy(s, e)))
  {
  }

  lemma {:induction false} AlwaysFollowed(config: Config, t0: int, run: Run)
    requires t0 > 0 && Legal(config, t0, run) && TaskIdsFresh(config, t0, run)
    ensures Followed(After(config, t0, run), TaskLogAfter(config, t0, run))
  {
    if run != [] {
      var before := run[..|run| - 1];
      AlwaysFollowed(config, t0, before);
      AlwaysSound(config, t0, before);
      NextFollowed(After(config, t0, before), run[|run| - 1], TaskLogAfter(config, t0, before));
    }
  }

  /** ONE OUTCOME PER TASK. Over any run no task's outcome is injected twice, and only submitted tasks
      have theirs injected. (The queue's cap and the deduplication may still lose it.) */
  lemma {:induction false} OutcomeAtMostOnce(config: Config, t0: int, run: Run, e: Event)
    requires t0 > 0 && Legal(config, t0, run) && TaskIdsFresh(config, t0, run)
    requires Enabled(After(config, t0, run), e)
    requires SubmittedBy(After(config, t0, run), e) !! TaskLogAfter(config, t0, run).submitted
    ensures ReportedBy(After(config, t0, run), e) !! TaskLogAfter(config, t0, run).reported
    ensures ReportedBy(After(config, t0, run), e) <= TaskLogAfter(config, t0, run).submitted
  {
    AlwaysFollowed(config, t0, run);
    AlwaysSound(config, t0, run);
    var s := After(config, t0, run);
    NextFollowed(s, e, TaskLogAfter(config, t0, run));
    if LooksAround(s, e) && Admitted(LookingCore(s), e.env) {
      SweepSets(s.core.engine, s.core.tracked, e.env.tasks, e.env.now);
    }
  }
}
