# The daemon's autonomous agent, verified

This project models the observe, orient, decide, act step of the Strada.Brain daemon's autonomous
agent (`src/agent-core`) and proves what its comments and tests promise of it, over every run. A
second, small part models the phase machine of an agent run (`src/agents/agent-state.ts`).

The agent collects observations from an engine that forgets what it hands over, scores them, lets a
threshold decide whether they are worth a reasoning call, and acts on the reply. Whatever a tick
neither acts on nor puts back is gone, and the observers do not report the same failure twice. So the
central result is a ledger: after any run, every actionable observation that was ever handed over is
in the running tick's batch, waits in the deferral table, or has a fate that explains why it will not
be seen again, and never two of the three.

## How it is built

- **Values.** `Engine`, `Scorer`, `Decisions` and `Core` say, as functions on plain values, what each
  stretch of a tick between two awaits does. `OrderedMaps` stands for JavaScript's insertion-ordered
  `Map`, `StableSort` for its stable `sort`, `Recency` for the two lazily pruned hash tables.
- **Objects.** `EngineObject`, `ScorerObject` and `CoreObject` hold the classes with the program's own
  fields, loops and branches. Every method is proved to take its fields to exactly the state the value
  functions prescribe. A tick is one method per stretch (`TickStart`, `TickDelivered`, `TickOrient`,
  `TickAct`, `TickNotified`, `TickFailed`); the locals it needs after an await travel in a `Phase`.
- **Runs.** `Daemon` is the state machine those stretches form. Between any two of them an observation
  may be injected, a message may arrive, a second `tick()` may be called and time may pass. A second tick
  is turned away by the in-flight flag alone, as in the program; that the flag never comes down while a
  body waits is proved. `Legal` describes all runs, and every theorem about runs quantifies over all of
  them. `Replay` ties the two halves together: an `AgentCore` sent the events of any legal run goes
  through exactly that run's states.
- **What each step means.** `Collecting`, `Looking`, `Replies` and, for scores, `Scorer.ScoreTold` say what
  a collect, a look, each kind of reply and a score are, in their own words and amounts and without naming
  the functions that compute them. `Selections` is the reading of a filter they use, one that leaves no
  choice (`Selections.PickedOnce`).
- **Theorems.** `Ledger`, `Evidence`, `Finality`, `Holds`, `Patience`, `Refusals`, `Silencing`,
  `Overriding`, `Rescoring`, `Recorded`, `Keeping`, `Resubmitting`, `Mailbox`, `Spacing` and `Tracking`
  each add a book kept beside the run, or an invariant, and prove what it can contain. `Inventory` and
  `Gate` are the lemmas they share.
- **Runs at real inputs.** `EndlessRefusal`, `EndlessGoal`, `LostChange`, `LostFailure` and `LostWork` are
  runs of a newly built agent in which it breaks a promise; `Scenes` holds the single steps they are made
  of.

What a run is allowed to assume, and nothing else (`Daemon.Enabled`): the clock is positive and never
runs back, ids of new observations are fresh (they are random UUIDs), and a reply is one the parser can
return (`Parsing.Parse` shows what that guarantees). Instinct matches, task statuses, submit, send and
provider failures, budgets, cooldowns, foreground counts and the reply itself are arbitrary.

## Where the code falls short of its own promise

The model follows the code. These properties fail, each with a lemma that says exactly when:

- *An observation no goal answered is not lost.* An "execute" records the top observation as acted on
  even when its goal answered another one. Exactly which observations a submission penalises, however the
  run goes on (`Recorded.SubmissionPenalises`), that the unanswered top comes back with the penalty
  (`Recorded.UnansweredTopIsPenalised`), and exactly which observations of a batch the gate then loses,
  under any overrides (`Keeping.KeptAtGateIff`). At the default `AgentCoreConfig` a working-tree change
  reported beside an added file is lost (`LostChange.WorkingTreeChangeLost`).
- *A decision that cannot be carried out is no decision, and is charged.* Of the decisions that come to
  nothing, exactly four kinds are let off: a readable "wait", an "escalate" without a question, an
  "adjust" without adjustments, and a goal that answers no actionable work of its batch or could not be
  submitted (`Refusals.NotChargedIff`). The first three consume the batch; the fourth brings it back in
  a minute, its charges cleared unless submitting threw (`Refusals.LetOffRound`, `Refusals.RefusedGoal`),
  any number of times (`EndlessRefusal.RefusedForEver`), a minute apart and no closer
  (`Refusals.RoundsBounded`).
- *What is put off comes back.* It does exactly when its hash was not returned under a minute before and
  nothing ahead of it in the same collect has it (`Finality.DeferralComesBack`); what has it may be
  informational, and then the work is lost behind it for good (`LostWork.WorkLostBehindNote`).
- *A goal that was submitted settles what it is about.* Naming nothing in a batch of two or more it
  settles nothing (`Finality.GoalsAnswerRealWork`), and the whole batch is back in a minute
  (`Resubmitting.SettlesNothing`).
- *Recording the top keeps such a batch from being submitted again* (src/agent-core/agent-core.ts:342-343).
  It is let through the next gate exactly when, by the records as they stood with the top added, a score
  reaches the threshold (`Resubmitting.NextGateIff`). The minute it waits has already cut the penalty to
  20, and one strong piece of work is then enough under any threshold (`Resubmitting.GoesThroughAgain`):
  goals can be submitted about the same two observations once a minute without end
  (`EndlessGoal.ResubmittedForEver`).
- *Scores do not compound.* They do for the top observation of a "defer" or of a postponed message,
  which is stored as scored and boosted (`Rescoring.DeferStoresTheScore`), and exactly when that score
  and the priority it entered with do not score alike (`Rescoring.CompoundsIff`). It can rise from one
  "defer" to the next (`Rescoring.RescoringStableIff`), and a demotion outlasts the boost that caused it
  (`LostFailure.FailureLost`).
- *No adjustment hides a failure.* True of a failed outcome that was never put off as scored
  (`Keeping.FailureIsNotHidden`); of one that was, exactly under the condition of
  `Keeping.FailureKeptIff`. With a minimum of 40 the failed outcome of a submitted goal, put off while its
  source was demoted, is lost after every override has lapsed (`LostFailure.FailureLost`).

## Model

| member | source | states |
|---|---|---|
| Observations.TextIsFaithful | src/agent-core/observation-engine.ts:107 | the hash string of two observations is equal exactly when source and hashed summary are; no summary can make one source pass for another |
| Observations.PrintsAlike | src/agent-core/observation-engine.ts:107 | two observations have one hash exactly when their sources are equal and their summaries agree at every one of the hashed characters |
| Observations.SourcesByName | src/agent-core/observation-types.ts:11-18 | the names observers report by and adjustments boost by |
| OrderedMaps.SetKeepsPlaces | src/agent-core/observation-engine.ts:40-43 | filing again keeps the place an entry has; a new one stands last |
| OrderedMaps.WithoutPicks | src/agent-core/observation-engine.ts:83-89 | deleting a key leaves all others in their order |
| EngineObject.ObservationEngine.constructor | src/agent-core/observation-engine.ts:22-29 | a new engine is empty |
| EngineObject.ObservationEngine.Inject | src/agent-core/observation-engine.ts:32-37 | the whole new state: the observation is queued last, and at the cap the oldest injection gives way |
| EngineObject.ObservationEngine.Defer | src/agent-core/observation-engine.ts:40-43 | the whole new state: the observation is filed under its id with its recheck time, keeping its place if it had one |
| EngineObject.ObservationEngine.DrainDue | src/agent-core/observation-engine.ts:83-89 | deleting while iterating moves exactly the due deferrals, in table order, behind the queue, whatever its length |
| EngineObject.ObservationEngine.CollectReports | src/agent-core/observation-engine.ts:91-101 | every report is appended whole and in order, the i-th where the one before it ends, with nothing between; an observer that throws adds nothing |
| EngineObject.ObservationEngine.Sieve | src/agent-core/observation-engine.ts:106-114 | the filter that writes the table it reads keeps and remembers what the value function says |
| EngineObject.ObservationEngine.Collect | src/agent-core/observation-engine.ts:80-126 | the batch returned and the whole new state, through drain, pruning, filter, sort and history |
| EngineObject.ObservationEngine.GetHistory | src/agent-core/observation-engine.ts:129-131 | the newest entries of the history, as many as asked for or as there are; asked for none, all of it |
| Collecting.GatheredExactly | src/agent-core/observation-engine.ts:94-101 | what is gathered is every report of every observer that did not throw, end to end, whole and in order, and nothing else (`LaidOutOnce`: that leaves no choice) |
| Collecting.CollectExactly | src/agent-core/observation-engine.ts:80-126 | what arrives: the queue, what is due in the order it was filed, the reports; what is returned: exactly the news of it, highest priority first and otherwise as it came; what is left: the undue in their order, the newest hundred of the history, no queue |
| Collecting.ReportsAreCollected | src/agent-core/observation-engine.ts:91-114 | each observation of each report is returned or suppressed |
| Looking.LooksExactly | src/agent-core/agent-core.ts:129-155 | of any run: a tick that nothing holds up takes the queue with the outcomes of ended tasks behind it, what is due and every report; the news of it is the batch, without news the tick is over; tasks are followed on exactly unless ended or expired |
| Looking.LookupThrows | src/agent-core/agent-core.ts:149-155 | of any run: a status lookup that throws ends the tick; what was swept before stays swept and nothing is collected |
| Looking.QueueCapped | src/agent-core/observation-engine.ts:32-37 | over any run, no more than a hundred injections wait |
| Recency.PruneInPlace | src/agent-core/observation-engine.ts:138-144 | the loop leaves exactly the entries not older than the window |
| Engine.DrainExact | src/agent-core/observation-engine.ts:83-89 | a deferral arrives and leaves the table at the first collect at or after its recheck time; one not due stays untouched; nothing else arrives |
| Engine.SiftExact | src/agent-core/observation-engine.ts:106-114 | an observation is kept exactly when its hash was not seen within the window and nothing ahead of it in the same collect has it |
| Engine.SiftSplits | src/agent-core/observation-engine.ts:106-114 | the filter neither drops, doubles nor invents: what arrived is what was kept plus what was suppressed |
| StableSort.SortCorrect | src/agent-core/observation-engine.ts:116-117 | the sort is a permutation, highest priority first, and keeps the order of equals |
| StableSort.SortUnique | src/agent-core/observation-engine.ts:116-117 | those properties determine the result: any two lists that have them are equal |
| EngineRuns.PruningIsInvisible | src/agent-core/observation-engine.ts:103-114 | over any run, the lazily pruned hash table returns the same batches, queue, history and deferrals as a table of every hash ever seen |
| EngineRuns.ReturnsAreAMinuteApart | src/agent-core/observation-engine.ts:103-114 | over any run, two returns of one hash are at least 60 seconds apart, so no batch holds a hash twice |
| EngineRuns.QueueAndHistoryAreSuffixes | src/agent-core/observation-engine.ts:32-125 | over any run, the queue is the newest 100 injections since the last collect and the history the newest 100 of all batches end to end |
| ScorerObject.PriorityScorer.ScoreAll | src/agent-core/priority-scorer.ts:31-74 | the in-place arithmetic: each result is an observation with the score its factors add up to, by the table as it was before pruning; the ids are the input's, highest score first |
| ScorerObject.PriorityScorer.RecordAction | src/agent-core/priority-scorer.ts:77-81 | the whole new action table |
| Scorer.RankedIsSortedPermutation | src/agent-core/priority-scorer.ts:36-73 | ranking keeps the ids, distinct or not, gives each observation its own score, and stands highest first |
| Scorer.ScoreTold | src/agent-core/priority-scorer.ts:36-69 | a score is base, 15, 12, 8 or 0 for instincts, 10, 8, 5 or 0 for the source, less 30, 20, 10 or 0 by the time since the hash was acted on, 5 more for work over 50, kept in 0..100; in these amounts, and it is nothing else |
| Scorer.RankedTold | src/agent-core/priority-scorer.ts:31-74 | of a whole ranking: every observation is in it with that score, and nothing else is |
| Scorer.ScoreBounded | src/agent-core/priority-scorer.ts:36-69 | a score stays in 0..100 and within 30 of a base that was |
| Scorer.ScoreMonotone | src/agent-core/priority-scorer.ts:36-69 | raising only the base, or only the time since the last action, never lowers a score |
| Scorer.PenaltyFromFullLog | src/agent-core/priority-scorer.ts:55-90 | over any run, the pruned action table charges the penalty the full log of actions would |
| Parsing.ClampRounded | src/agent-core/reasoning-prompt.ts:193-217 | a number inside the bounds is rounded to the nearest, half up, one outside is brought to the bound, infinities included; only NaN or a missing number gives nothing |
| Parsing.Parse | src/agent-core/reasoning-prompt.ts:136-233 | every reply becomes a decision within its bounds; it is flagged unreadable exactly when it names no known action; a "defer" lacks its minutes only when the reply did |
| Parsing.ParsedFaithfully | src/agent-core/reasoning-prompt.ts:163-233 | each field of the decision is the same field of the reply: the action by its name, texts cut to 2000 characters, ids to twenty, minutes to 1..120; unreadable exactly when the action has none of the seven names |
| Parsing.AdjustmentsFaithful | src/agent-core/reasoning-prompt.ts:199-219 | an adjustment exists exactly when one of its three fields is usable, and has each as asked for, within its bounds |
| Decisions.GoalAllowedIff | src/agent-core/agent-core.ts:748-760 | a goal is let through exactly when it names an actionable observation of the batch, or names nothing and the batch is all actionable and not empty |
| Decisions.CreditedExactly | src/agent-core/agent-core.ts:328-341 | a submitted goal is credited with exactly what it names; naming nothing, with the batch's one observation or with none |
| Decisions.GoalHandedOver | src/agent-core/agent-core.ts:310-388 | a goal is handed over exactly when it is given and about work; an "execute" hands over the goal as given, a "batch" adds the observations it names, in rank order, each with its source |
| CoreObject.AgentCore.constructor | src/agent-core/agent-core.ts:62-111 | the initial state: the reasoning clock starts at construction |
| CoreObject.AgentCore.OnUserActivity | src/agent-core/agent-core.ts:520-523 | the chat becomes the operator's, an empty chat id changes nothing |
| CoreObject.AgentCore.SendToOperator | src/agent-core/agent-core.ts:529-548 | with a chat known the text goes out; otherwise it is held, the oldest giving way at ten |
| CoreObject.AgentCore.RequeueUnacted | src/agent-core/agent-core.ts:619-631 | exactly the actionable ones are deferred, as collected |
| CoreObject.AgentCore.ChargeUnparsed | src/agent-core/agent-core.ts:606-617 | the new table of charges and whether any member has now been through three rounds (`Replies.ChargesNoDecision` says which) |
| CoreObject.AgentCore.DeferHumanVisibleDecision | src/agent-core/agent-core.ts:650-671 | the top observation is put off for five minutes exactly when the user has a task running |
| CoreObject.AgentCore.ExpireSourceBoosts | src/agent-core/agent-core.ts:566-577 | exactly the lapsed boosts leave both tables |
| CoreObject.AgentCore.EffectivePriorityThreshold | src/agent-core/agent-core.ts:580-593 | the threshold in force, a lapsed override being dropped on the way |
| CoreObject.AgentCore.CheckCompletedTasks | src/agent-core/agent-core.ts:674-713 | the engine, the table of followed tasks and whether a status lookup threw, entry by entry |
| CoreObject.AgentCore.TickObserve | src/agent-core/agent-core.ts:129-160 | guards, sweep and collect: the whole new state and whether the tick goes on |
| CoreObject.AgentCore.TickStart | src/agent-core/agent-core.ts:117-131 | a call while a tick is in flight changes nothing; otherwise the tick starts by delivering or by looking around, and says what went out |
| CoreObject.AgentCore.TickDelivered | src/agent-core/agent-core.ts:550-563 | held texts go out one after the other, then the tick goes on |
| CoreObject.AgentCore.BoostInPlace | src/agent-core/agent-core.ts:166-175 | writing the boosts into the ranking where it stands, and sorting again only if there are any |
| CoreObject.AgentCore.SilencedByOverride | src/agent-core/agent-core.ts:189-192 | what a closed gate means to keep, each as it was collected |
| CoreObject.AgentCore.TickOrient | src/agent-core/agent-core.ts:157-200 | scoring, boosts, sweeping of overrides and the gate: the whole new state either way |
| CoreObject.AgentCore.RecordActions | src/agent-core/agent-core.ts:338-341 | every answered observation is recorded |
| CoreObject.AgentCore.ApplyAdjustments | src/agent-core/agent-core.ts:403-431 | the new overrides, the threshold capped, each with its expiry except the interval |
| CoreObject.AgentCore.Finish | src/agent-core/agent-core.ts:472-497 | the charges are cleared and what the arm did not handle goes back |
| CoreObject.AgentCore.GoalSubmitted | src/agent-core/agent-core.ts:317-344 | the goal is followed up, its observations recorded, the rest of the batch put back |
| CoreObject.AgentCore.TickSubmit | src/agent-core/agent-core.ts:310-393 | refusal, failure and success of an "execute" or "batch" goal |
| CoreObject.AgentCore.TickSpeak | src/agent-core/agent-core.ts:349-369 | a message is postponed with its whole batch, or said: that text goes out if a chat is known |
| CoreObject.AgentCore.TickAct | src/agent-core/agent-core.ts:277-497 | for every decision, the whole new state, the phase, the goal handed over and the text sent (`Replies` says what these are, reply by reply) |
| CoreObject.AgentCore.Charged | src/agent-core/agent-core.ts:282-296 | an unusable decision is charged and its batch put back |
| CoreObject.AgentCore.Unread | src/agent-core/agent-core.ts:433-469 | an unreadable reply is charged, its batch put back, and said out loud once |
| CoreObject.AgentCore.TickNotified | src/agent-core/agent-core.ts:475-497 | after a fresh message the charges are cleared and the tick ends |
| CoreObject.AgentCore.TickFailed | src/agent-core/agent-core.ts:498-507 | a throw puts the actionable part of the batch back and releases the flag |
| Inventory.PutBackTable | src/agent-core/agent-core.ts:619-631 | requeueing writes exactly the actionable members into the deferral table and touches nothing else of the engine |
| Inventory.ActTable | src/agent-core/agent-core.ts:277-504 | a reply, whatever it is, touches nothing of the engine but the deferral table, and says what it gains |
| Inventory.ActConserves | src/agent-core/agent-core.ts:277-504 | one-tick conservation: on every arm, the speaking one included, each actionable observation of the batch goes back for at least a minute, is settled, or stays with the message on its way, and exactly one of these |
| Replies.SaysOrPutsOff | src/agent-core/agent-core.ts:347-369 | a "notify" with a message or an "escalate" with a question: with a foreground task running nothing is said and the whole batch is put off for five minutes, the top as scored; otherwise that text goes out or is held, and the batch stays with it |
| Replies.DefersTheTop | src/agent-core/agent-core.ts:395-401 | a "defer" files the top as scored for its minutes and the rest of the work, as collected, for one |
| Replies.HandsOver | src/agent-core/agent-core.ts:310-393 | a given goal: refused or thrown everything is back in a minute and nothing is known more; otherwise its task is followed up, what it answers is settled and recorded, and the top of an "execute"; the rest is back in a minute |
| Replies.Adjusts | src/agent-core/agent-core.ts:403-431 | an "adjust" settles the batch and sets exactly what it names: a threshold of at most 80 and a boost for half an hour, an interval for good |
| Replies.AsksForNothing | src/agent-core/agent-core.ts:360-497 | a readable "wait", an "escalate" without a question or an "adjust" without adjustments changes nothing but that the batch is settled |
| Replies.ChargesNoDecision | src/agent-core/agent-core.ts:272-296 | what cannot be carried out or read: one charge more each, everything back as collected in a minute, or in an hour exactly when this is the third charge or later for one of the batch; the warning is said the first time that happens to an unreadable reply |
| Replies.ThirdInARow | src/agent-core/agent-core.ts:606-617 | over any stretch of any run in which at most 500 ids are charged: an observation charged twice without a readable decision between is put away for an hour, batch and all, by the third |
| Replies.WarnsOnce | src/agent-core/agent-core.ts:449-462 | over any run, the agent holds that it has warned exactly when an unreadable reply has been a third one; so the warning is said for the first such reply and for no other |
| Replies.ThrowsBack | src/agent-core/agent-core.ts:498-507 | a scorer or provider that throws brings the whole batch back in a minute and changes nothing else |
| Replies.KindsOfReply | src/agent-core/agent-core.ts:272-470 | every reply is of one of these kinds, and what is no decision is of no other |
| Gate.GateOpensIff | src/agent-core/agent-core.ts:166-179 | the gate opens exactly when some observation of the batch, scored and boosted, reaches the threshold |
| Gate.SilencedExact | src/agent-core/agent-core.ts:189-195 | a closed gate puts back exactly the members, as collected, whose score with or without boosts reaches the configured minimum |
| Gate.GateConserves | src/agent-core/agent-core.ts:178-197 | at a closed gate each actionable observation goes back or scored too low, and none does both |
| Gate.DroppedScoredLow | src/agent-core/agent-core.ts:189-195 | what a closed gate drops scored below the configured minimum, boosted and unboosted |
| Gate.KeptIff | src/agent-core/agent-core.ts:178-195 | of any batch and under any overrides, what a closed gate puts back: exactly those whose score, boosted or not, reaches the minimum |
| Daemon.AlwaysSound | src/agent-core/agent-core.ts:117-508 | over any run, no observation is in two places, none has changed but in priority, and the in-flight flag says exactly whether a tick body waits somewhere |
| Ledger.LedgerBalances | src/agent-core/agent-core.ts:117-508 | over any run, the actionable observations ever handed over are exactly those in the running batch, in the deferral table, or with a fate |
| Ledger.EveryOwedIsAccountedFor | src/agent-core/agent-core.ts:117-508 | the same of one observation: exactly one of the three, and never the injection queue |
| Evidence.SuppressedHasRival | src/agent-core/observation-engine.ts:80-114 | what a collect suppresses although it had been handed over has another observation of its hash returned under a minute before; never its own earlier return |
| Evidence.FatesAreBacked | src/agent-core/agent-core.ts:117-508 | over any run, every superseded observation has such a rival and everything dropped at the gate scored below the minimum both ways |
| Finality.GoneForGood | src/agent-core/observation-engine.ts:80-126 | of any run and any way it goes on: an observation that had entered and was nowhere stays nowhere |
| Finality.AtMostOneGoal | src/agent-core/agent-core.ts:310-393 | over any run, no submitted goal is credited with an observation an earlier goal was credited with |
| Finality.CreditedLeave | src/agent-core/agent-core.ts:487-496 | after a goal none of its observations is left in the queue, the table or the batch |
| Finality.GoalsAnswerRealWork | src/agent-core/agent-core.ts:310-393 | every submitted goal answers actionable work; it is credited with nothing exactly when it names nothing in a batch of several, and then all of it goes back |
| Refusals.NotChargedIff | src/agent-core/agent-core.ts:272-296 | of the decisions that come to nothing, exactly which are charged and which are let off, told from the reply and the batch before the call |
| Refusals.SomethingHappens | src/agent-core/agent-core.ts:307-432 | every other decision leaves its mark: a followed-up task, a text, a threshold or boost of half an hour or an interval, or the top filed as scored |
| Refusals.NothingHappens | src/agent-core/agent-core.ts:277-497 | a round that comes to nothing tracks, records, overrides and says nothing |
| Refusals.ChargedRound | src/agent-core/agent-core.ts:282-296 | a charged round gives every observation of the batch one more charge, and brings the batch back in a minute, or an hour after a third |
| Refusals.LetOffRound | src/agent-core/agent-core.ts:470-497 | a round that is let off: what becomes of the charges and of every observation of the batch, case by case |
| Refusals.RefusedGoal | src/agent-core/agent-core.ts:313-317 | at an input: a goal naming an unknown id gets through parser and usability test, submits nothing, clears the charge, and everything is back in a minute |
| Refusals.RoundsBounded | src/agent-core/agent-core.ts:619-631 | over any run and any stretch of it, an observation is in at most one reasoning call plus one per full minute, replied to or failed, charged or not |
| EndlessRefusal.RefusedForEver | src/agent-core/agent-core.ts:313-317 | that bound is met: for every n a run of a new agent refuses a goal about one observation n times, once a minute, and charges nothing |
| Finality.NothingAskedConsumes | src/agent-core/agent-core.ts:360-369 | a "wait", an "escalate" without a question or an "adjust" without adjustments removes every observation of the batch from everywhere |
| Finality.DeferralComesBack | src/agent-core/observation-engine.ts:83-114 | at a collect a due deferral leaves the table and arrives once; it is returned exactly when its hash was not returned under a minute before and nothing arrives ahead of it with that hash; an earlier return that blocks it was another observation's; one not due stays |
| Finality.ReturnedUnlessRival | src/agent-core/observation-engine.ts:83-114 | the same told by the books of returns: it is returned exactly when it has no rival |
| LostWork.WorkLostBehindNote | src/agent-core/observation-engine.ts:106-114 | at an input and the default configuration: work put off for two minutes is superseded by an informational report of the same source and wording returned half a minute before, and is nowhere however the run goes on |
| Finality.FatesStand | src/agent-core/agent-core.ts:117-508 | of any run and any way it goes on: a fate once booked stands as it was booked |
| Holds.NotBeforeItsTime | src/agent-core/agent-core.ts:619-631 | of any run and any way it goes on: an observation that waits in the deferral table is in no batch before its recheck time |
| Patience.ChargeCounts | src/agent-core/agent-core.ts:606-617 | the table of charges counts exactly the charged rounds, and a third one exhausts the batch |
| Patience.UnreadableRoundsBounded | src/agent-core/agent-core.ts:433-469 | over any stretch of any run in which at most 500 ids are in the table or charged: between readable decisions an observation is in at most three unreadable or unusable rounds plus one per full hour, by a count that never starts again, and every one is on its account |
| Patience.NothingForgotten | src/agent-core/agent-core.ts:606-617 | while at most 500 ids are in the table or charged no charge is forgotten |
| Patience.RoundsSinceForgotten | src/agent-core/agent-core.ts:606-617 | the same bound over any run at all, by the count that starts again when the table outgrows 500 ids |
| Overriding.OverridesWellFormed | src/agent-core/agent-core.ts:403-425 | over any run, threshold and expiry come together, boosts and expiries have the same keys, the threshold is at most 80 |
| Overriding.GateFollowsTheLog | src/agent-core/agent-core.ts:164-179 | over any run, the gate opens exactly as the full log of adjustments prescribes, each setting counting for thirty minutes: lazy sweeping is invisible |
| Keeping.KeptAtGateIff | src/agent-core/agent-core.ts:164-197 | in every reachable state, for every observation of every batch and any adjustments: exactly when it stays, and as what |
| Keeping.FailureKeptIff | src/agent-core/agent-core.ts:674-698 | in every reachable state, exactly when a failed outcome stays at the gate and, alone in its batch, exactly when it goes through, told from the logs before the call, wherever it has been since it was injected |
| Keeping.FailureIsNotHidden | src/agent-core/agent-core.ts:405-410 | a failed outcome never put off as scored reaches the reasoning step when not acted on and not demoted (minimum at most 80), and is never dropped whatever the adjustments (minimum at most 45) |
| LostFailure.FailureLost | src/agent-core/agent-core.ts:395-401 | at an input: a submitted goal's task fails, its outcome is seen while outcomes are demoted and put off for an hour, and is dropped with 35 when every override has long lapsed; the one goal was not credited with it |
| Silencing.NothingSilencedOnceLapsed | src/agent-core/agent-core.ts:184-196 | over any run, once every override has lapsed a closed gate puts nothing back |
| Silencing.SilencedAtMostSixTimes | src/agent-core/agent-core.ts:184-196 | over any run, between two "adjust" decisions an observation is put back below the threshold at most six times, and before the first never |
| Rescoring.ScoredFromItsBase | src/agent-core/agent-core.ts:187-192 | over any run, an observation is scored from the priority it entered with, or from the score it was last put off with |
| Rescoring.ScoredFromTheOriginal | src/agent-core/agent-core.ts:187-192 | over any run, an observation never put off as scored is, in any batch, exactly what first entered |
| Rescoring.DeferStoresTheScore | src/agent-core/agent-core.ts:395-401 | a "defer" files the scored and boosted copy for its minutes, a postponed message for five |
| Rescoring.CompoundsIff | src/agent-core/priority-scorer.ts:52-68 | in every reachable state, the next score is the one of the entry priority exactly when base and entry priority score alike; otherwise it is off in the direction the base is |
| Rescoring.RescoringStableIff | src/agent-core/priority-scorer.ts:52-68 | with no penalty and no boost, scoring a score again leaves it alone exactly when it cannot rise or nothing adds to it |
| Recorded.PenaltyFollowsTheLog | src/agent-core/priority-scorer.ts:55-90 | over any run of the daemon, whenever a batch is scored, every observation pays what the full log of recorded observations prescribes: pruning is invisible |
| Recorded.SubmissionPenalises | src/agent-core/agent-core.ts:338-344 | of any run and any way it goes on: until another submission records it, an observation pays for a submission exactly when its action hash is that of a credited one or, for an "execute", of the top, every other paying what it would have; and one that pays does so at least that much for good |
| Recorded.AnsweredArePenalised | src/agent-core/agent-core.ts:338-341 | of any run and any way it goes on: what a goal is credited with pays at least the penalty of the time since |
| Recorded.UnansweredTopIsPenalised | src/agent-core/agent-core.ts:342-344 | the top observation an "execute" did not answer goes back for a minute and pays the same, however the run goes on |
| Resubmitting.SettlesNothing | src/agent-core/agent-core.ts:310-344 | in every reachable state, exactly when a goal that names nothing is submitted for a batch of several; its task is followed up, it is credited with nothing, and the whole batch is back in a minute as collected |
| Resubmitting.GateFollowsTheLogs | src/agent-core/agent-core.ts:157-179 | over any run, the gate opens exactly when some score, its penalty told by the log of recorded observations and its boost by the log of adjustments, reaches the threshold that log prescribes |
| Resubmitting.RankedByTheLogs | src/agent-core/agent-core.ts:157-179 | of any run: what goes on to reasoning is the whole batch, ranked, each observation with the score the logs prescribe |
| Resubmitting.NextGateIff | src/agent-core/agent-core.ts:342-344 | after such a goal, up to the next reply: what came back is as it was, and a batch is let through exactly when a score reaches the threshold by the records as they stood before the goal, the top added |
| Resubmitting.GoesThroughAgain | src/agent-core/priority-scorer.ts:55-68 | a minute after such a goal, under any threshold and whatever was recorded before, one piece of work that is carried with a priority of 95 together with its severity, and is not demoted, lets the batch it is in through again (minimum at most 80) |
| EndlessGoal.ResubmittedForEver | src/agent-core/agent-core.ts:342-344 | for every n a run of a new agent (minimum at most 80) submits n goals, each with its own task, about the same two observations, one a minute, and none is credited with anything |
| LostChange.WorkingTreeChangeLost | src/agent-core/agent-core.ts:342-344 | at an input and the default `AgentCoreConfig`: a working-tree change reported with an added file, the goal naming the file only, is back a minute later, scores 10 and is dropped; no goal was credited with it |
| Mailbox.MailboxBalances | src/agent-core/agent-core.ts:525-563 | over any run, the texts handed over, in delivery and still held are, in the order decided, the newest ten decided before a chat was known |
| Mailbox.NothingHeldAgain | src/agent-core/agent-core.ts:520-539 | of any run and any way it goes on: a known chat stays known, and nothing is held again |
| Mailbox.HeldGoOut | src/agent-core/agent-core.ts:550-563 | with texts held and a chat known a tick first hands them over one after the other, and none of them while the user has a task running |
| Mailbox.OperatorIsTheLast | src/agent-core/agent-core.ts:520-523 | over any run, the chat written to is the last one that was given, and none before one was |
| Spacing.RoundsAreSpaced | src/agent-core/agent-core.ts:129-200 | over any run, each reasoning round starts at least the interval after the one before it, or after construction: the interval the last "adjust" that named one asked for before the round's tick looked around, else the configured one |
| Spacing.TooEarlyChangesNothing | src/agent-core/agent-core.ts:129-151 | of any run: a tick earlier than that, or with every provider cooling down, or with the budget unreadable or at its floor, changes nothing |
| Spacing.TicksDoNotOverlap | src/agent-core/agent-core.ts:117-120 | over any run, the flag, which alone turns a second tick away, is up exactly while a tick body waits; so a tick called meanwhile changes nothing and loses no batch |
| Replay.Step | src/agent-core/agent-core.ts:117-508 | one event takes the object to exactly the machine's next state and waiting point |
| Replay.Replay | src/agent-core/agent-core.ts:117-508 | a new object sent the events of any legal run ends in exactly the state, and waiting where, that run ends |
| Tracking.SweepExact | src/agent-core/agent-core.ts:674-713 | a task leaves the table exactly when the sweep comes to it and it has ended or has been followed for over seven days; the sweep stops at a lookup that throws |
| Tracking.SweepQueueIsSuffix | src/agent-core/agent-core.ts:688-696 | the queue after a sweep is the newest hundred of what was queued and the outcomes reported, in order |
| Tracking.OutcomeMade | src/agent-core/agent-core.ts:684-698 | every task a sweep finds ended has its outcome: which task, whether it succeeded (40) or failed (70), and when |
| Tracking.OutcomeOf | src/agent-core/agent-core.ts:684-698 | and every outcome tells of such a task |
| Tracking.OutcomeAtMostOnce | src/agent-core/agent-core.ts:674-713 | over any run with fresh task ids, no outcome is injected twice, and only for submitted work |
| PhaseMachine.FollowsIff | src/agents/agent-state.ts:88-100 | a sequence of requests goes through exactly when every step is an edge of the table, and changes nothing but the phase |
| PhaseMachine.EnteredFrom | src/agents/agent-state.ts:41-68 | from which phases each phase is entered: planning from none, execution after planning, reflection or replanning, reflection after execution alone, and so on |
| PhaseMachine.CompleteFollowsExecution | src/agents/agent-state.ts:41-68 | COMPLETE comes straight after EXECUTING, or after a REFLECTING that does; so an EXECUTING follows the last REPLANNING |
| PhaseMachine.TerminalIsLast | src/agents/agent-state.ts:66-67 | nothing follows COMPLETE or FAILED |
| PhaseMachine.FailureAlwaysReachable | src/agents/agent-state.ts:41-68 | FAILED is one step from every phase that is not terminal, and from a terminal one nothing is |
| PhaseMachine.OnlyReplanningRepeats | src/agents/agent-state.ts:58-64 | the only self-edge is REPLANNING |

## Left out

- Providers, routing, task classification, prompt building and the extraction of JSON from a reply's text: the reply is arbitrary, within what `Parsing.Parse` lets through.
- `workspacePolicyFor` and its regular expressions (src/agent-core/agent-core.ts:777-813): pattern matching on natural language; the option it adds to a submission is not modelled.
- Instinct credit, learning metrics and logging: fire-and-forget side effects that nothing in the agent reads back.
- `AgentNotifier`, `DotnetProjectPresence` and the observers themselves: what an observer reports is arbitrary.
- Object identity: an observation is a value. That scored copies are separate objects, so that writing a boost into one leaves the collected one alone, is taken from the spread at src/agent-core/priority-scorer.ts:68 and is not itself proved.
- Time inside one synchronous stretch: all readings of the clock between two awaits are one reading. The scorer prunes its table when scoring resumes rather than when it starts, at the time it started; nothing reads the table in between.
- Fractions: priorities and times are integers, as every observer, the scorer and the parser produce them; only the budget is a real number.
- Characters: a summary is cut by characters, JavaScript cuts by UTF-16 code units.
- An observation's `context`: carried along, never read by the modelled code.
- Delivery: a text handed to the channel counts as attempted, whether or not the channel delivers it. No order is claimed between held and fresh messages.
- Liveness: an "adjust" of the reasoning interval never expires and nothing forces a tick to be called, so no theorem says that something eventually happens.
- CheckCompletedTasks: exactly-once collection of an outcome is not claimed, because the queue's cap and the deduplication can drop one.
- UnreadableRoundsBounded: assumes that at most 500 ids are in the table or charged; beyond that the program forgets every charge and the count starts again (`Patience.RoundsSinceForgotten`).
- OnUserActivity: states the chat that becomes known, and not that the observers hear of the activity; what an observer reports is arbitrary.
- GetHistory: states the entries returned and not the reasoning prompt they are written into.
