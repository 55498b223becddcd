/** Where the objects and the runs meet: an `AgentCore` that is sent the events of a run goes through
    exactly the states of that run, so what is proved of runs is proved of the class. */
module Replay {
  import opened Core
  import opened Daemon
  import CoreObject

  /** One event reaches the object while a tick body waits in `waiting` (or none does). A second
      `tick()` returns at once and leaves the first one's body where it waits. */
  method Step(agent: CoreObject.AgentCore, waiting: Phase, ghost s: System, e: Event) returns (waiting': Phase)
    requires agent.Valid() && agent.State() == s.core && waiting == s.phase && Enabled(s, e)
    modifies agent, agent.engine, agent.scorer
    ensures agent.Valid()
    ensures agent.State() == Next(s, e).core && waiting' == Next(s, e).phase
  {
    waiting' := waiting;
    match e {
      case Injected(o) =>
        agent.engine.Inject(o);
      case UserActive(chat) =>
        agent.OnUserActivity(chat);
      case TickCalled(foreground, env) =>
        var inFlight := agent.tickInFlight;
        var phase, sent := agent.TickStart(foreground, env);
        if !inFlight {
          waiting' := phase;
        }
      case Delivered(env) =>
        var sent;
        waiting', sent := agent.TickDelivered(waiting.rest, env);
      case Scored(matches, now) =>
        waiting' := agent.TickOrient(waiting.batch, waiting.scoredAt, matches, now);
      case ScoringFailed(now) =>
        waiting' := agent.TickFailed(waiting.batch, now);
      case Replied(d, foreground, submit, now) =>
        var submitted, sent;
        waiting', submitted, sent := agent.TickAct(waiting.batch, waiting.ranked, d, foreground, submit, now);
      case ReplyFailed(now) =>
        waiting' := agent.TickFailed(waiting.batch, now);
      case MessageSent =>
        waiting' := agent.TickNotified(waiting.batch);
    }
  }

  /** THE CLASS IS THE MACHINE. A new `AgentCore`, sent the events of any legal run one after the other,
      ends in exactly the state, and waiting exactly where, that run ends. */
  method Replay(config: Config, now: int, run: Run) returns (agent: CoreObject.AgentCore, waiting: Phase)
    requires Legal(config, now, run)
    ensures fresh(agent) && agent.Valid()
    ensures agent.State() == After(config, now, run).core && waiting == After(config, now, run).phase
  {
    agent := new CoreObject.AgentCore(config, now);
    waiting := Idle;
    var i := 0;
    LegalUpTo(config, now, run, 0);
    while i < |run|
      invariant 0 <= i <= |run| && Legal(config, now, run[..i])
      invariant fresh(agent) && fresh(agent.engine) && fresh(agent.scorer) && agent.Valid()
      invariant agent.State() == After(config, now, run[..i]).core && waiting == After(config, now, run[..i]).phase
    {
      OneMoreEvent(config, now, run, i);
      waiting := Step(agent, waiting, After(config, now, run[..i]), run[i]);
      i := i + 1;
    }
    assert run[..i] == run;
  }

  lemma OneMoreEvent(config: Config, t0: int, run: Run, i: nat)
    requires Legal(config, t0, run) && i < |run| && Legal(config, t0, run[..i])
    ensures Legal(config, t0, run[..i + 1]) && Enabled(After(config, t0, run[..i]), run[i])
    ensures After(config, t0, run[..i + 1]) == Next(After(config, t0, run[..i]), run[i])
  {
    LegalUpTo(config, t0, run, i + 1);
    assert run[..i + 1][..i] == run[..i];
  }
}
