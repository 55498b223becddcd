/** What is said to the operator before anyone has written, and what becomes of it. */
module Mailbox {
  import opened Observations
  import opened Core
  import opened Daemon
  import opened Ledger
  import Decisions

  /** `decided`: every text decided while no chat was known. `attempted`: the held texts handed to the
      channel so far, in order. */
  datatype Mail = Mail(decided: seq<string>, attempted: seq<string>)

  /** What an event says to the operator on the tick's own account. */
  ghost function Said(s: System, e: Event): seq<string>
    requires Enabled(s, e)
  {
    if e.Replied? then Says(s.core, s.phase.batch, VerdictOf(s, e)) else []
  }

  /** The held text an event hands to the channel, if any. */
  ghost function HandedOver(s: System, e: Event): seq<string>
    requires Enabled(s, e)
  {
    if LooksAround(s, e) then []
    else match e
      case TickCalled(foreground, _) => if !s.core.tickInFlight && foreground <= 0 then [s.core.held[0]] else []
      case Delivered(_) => [s.phase.rest[0]]
      case _ => []
  }

  ghost function Note(m: Mail, s: System, e: Event): Mail
    requires Enabled(s, e)
  {
    Mail(if s.core.chat.None? then m.decided + Said(s, e) else m.decided, m.attempted + HandedOver(s, e))
  }

  ghost function MailAfter(config: Config, t0: int, run: Run): Mail
    requires Legal(config, t0, run)
  {
    if run == [] then Mail([], [])
    else
      var before := run[..|run| - 1];
      Note(MailAfter(config, t0, before), After(config, t0, before), run[|run| - 1])
  }

  ghost function InDelivery(p: Phase): seq<string> {
    if p.Delivering? then p.rest else []
  }

  /** Every text ever held is accounted for: handed over, being delivered, or still held, in the order
      decided, and together they are the newest ten. */
  ghost predicate Accounted(s: System, m: Mail) {
    && m.attempted + InDelivery(s.phase) + s.core.held == LastN(m.decided, 10)
    && (s.core.chat.None? ==> m.attempted == [] && !s.phase.Delivering?)
    && (s.phase.Delivering? && s.core.held != [] ==> s.phase.rest == [])
  }

  /** What the reply does to the mailbox. */
  lemma ActMail(c: CoreState, batch: seq<Observation>, ranked: seq<Observation>, v: Decisions.Verdict, now: int,
      said: seq<string>)
    requires ranked != []
    requires said == Says(c, batch, v)
    ensures var t := Act(c, batch, ranked, v, now);
            && t.core.chat == c.chat && !t.phase.Delivering?
            && t.core.held == (if said != [] && c.chat.None? then HoldText(c.held, said[0]) else c.held)
            && |said| <= 1
  {
  }

  lemma {:induction false} MailUntouched(s: System, e: Event)
    requires Enabled(s, e) && !e.Replied? && !e.UserActive? && (e.TickCalled? || e.Delivered? ==> LooksAround(s, e))
    ensures Next(s, e).core.held == s.core.held && Next(s, e).core.chat == s.core.chat
    ensures !Next(s, e).phase.Delivering? || e.Injected?
    ensures e.Injected? ==> Next(s, e).phase == s.phase
  {
    match e
    case TickCalled(_, env) => ObserveShape(LookingCore(s), env, Observe(LookingCore(s), env));
    case Delivered(env) => ObserveShape(s.core, env, Observe(s.core, env));
    case Scored(matches, now) =>
      OrientFrame(s.core, s.phase.batch, s.phase.scoredAt, matches, now,
                  Orient(s.core, s.phase.batch, s.phase.scoredAt, matches, now));
    case _ =>
  }

  lemma HeadAndTail(x: seq<string>, y: seq<string>, z: seq<string>)
    requires y != []
    ensures x + [y[0]] + y[1..] + z == x + y + z
  {
  }

  lemma {:induction false} StartAccounted(s: System, e: Event, m: Mail)
    requires Sound(s) && Enabled(s, e) && Accounted(s, m)
    requires e.TickCalled? && !LooksAround(s, e)
    ensures Accounted(Next(s, e), Note(m, s, e))
  {
    if !s.core.tickInFlight && e.foreground <= 0 {
      FirstHeldLeaves(s, e, m, Next(s, e), Note(m, s, e));
    } else {
      NoneLeaves(s, e, m, Next(s, e), Note(m, s, e));
    }
  }

  lemma NoneLeaves(s: System, e: Event, m: Mail, s': System, m': Mail)
    requires Accounted(s, m) && m' == Mail(m.decided, m.attempted + [])
    requires s'.core.held == s.core.held && s'.core.chat == s.core.chat
    requires s' == s || (s.phase.Idle? && s.core.chat.Some? && s'.phase == Delivering([]))
    ensures Accounted(s', m')
  {
    assert m.attempted + [] == m.attempted;
  }

  lemma FirstHeldLeaves(s: System, e: Event, m: Mail, s': System, m': Mail)
    requires Accounted(s, m) && s.phase.Idle? && s.core.held != [] && s.core.chat.Some?
    requires s'.phase == Delivering(s.core.held[1..]) && s'.core.held == [] && s'.core.chat == s.core.chat
    requires m' == Mail(m.decided, m.attempted + [s.core.held[0]])
    ensures Accounted(s', m')
  {
  }

  lemma DeliveryAccounted(s: System, e: Event, m: Mail)
    requires Sound(s) && Enabled(s, e) && Accounted(s, m)
    requires e.Delivered? && !LooksAround(s, e)
    ensures Accounted(Next(s, e), Note(m, s, e))
  {
    HeadAndTail(m.attempted, s.phase.rest, s.core.held);
    assert Next(s, e).phase == Delivering(s.phase.rest[1..]) && Next(s, e).core == s.core;
  }

  lemma SaidAccounted(held: seq<string>, decided: seq<string>, said: seq<string>, held': seq<string>)
    requires held == LastN(decided, 10) && |said| <= 1
    requires held' == if said != [] then HoldText(held, said[0]) else held
    ensures held' == LastN(decided + said, 10)
  {
  }

  lemma {:induction false} ReplyAccounted(s: System, e: Event, m: Mail, s': System)
    requires Sound(s) && e.Replied? && Enabled(s, e) && Accounted(s, m) && s' == Next(s, e)
    ensures Accounted(s', Note(m, s, e))
  {
    var said := Said(s, e);
    ActMail(s.core, s.phase.batch, s.phase.ranked, VerdictOf(s, e), e.now, said);
    assert m.attempted + HandedOver(s, e) == m.attempted;
    if s.core.chat.None? {
      assert [] + [] + s.core.held == s.core.held && [] + [] + s'.core.held == s'.core.held;
      SaidAccounted(s.core.held, m.decided, said, s'.core.held);
    }
  }

  lemma SameMail(s: System, m: Mail, s': System, m': Mail)
    requires Accounted(s, m) && m' == m && s'.core.held == s.core.held
    requires InDelivery(s'.phase) == InDelivery(s.phase)
    requires s'.core.chat == s.core.chat || s'.core.chat.Some?
    requires s'.phase.Delivering? <==> s.phase.Delivering?
    ensures Accounted(s', m')
  {
  }

  lemma NothingSaid(s: System, e: Event, m: Mail)
    requires Enabled(s, e) && !e.Replied? && ((e.TickCalled? || e.Delivered?) ==> LooksAround(s, e))
    ensures Note(m, s, e) == m
  {
  }

  lemma {:induction false} UntouchedAccounted(s: System, e: Event, m: Mail, s': System)
    requires Sound(s) && Enabled(s, e) && Accounted(s, m) && s' == Next(s, e)
    requires !e.Replied? && ((e.TickCalled? || e.Delivered?) ==> LooksAround(s, e))
    ensures Accounted(s', Note(m, s, e))
  {
    NothingSaid(s, e, m);
    if e.UserActive? {
      SameMail(s, m, s', Note(m, s, e));
    } else {
      MailUntouched(s, e);
      LookEndsDelivery(s, e, m, s');
    }
  }

  lemma LookEndsDelivery(s: System, e: Event, m: Mail, s': System)
    requires Enabled(s, e) && Accounted(s, m)
    requires e.Injected? ==> s'.phase == s.phase
    requires !e.Injected? ==> !s'.phase.Delivering? && InDelivery(s.phase) == []
    requires s'.core.held == s.core.held && s'.core.chat == s.core.chat
    ensures Accounted(s', m)
  {
  }

  lemma {:induction false} NextAccounted(s: System, e: Event, m: Mail)
    requires Sound(s) && Enabled(s, e) && Accounted(s, m)
    ensures Accounted(Next(s, e), Note(m, s, e))
  {
    if e.Replied? {
      ReplyAccounted(s, e, m, Next(s, e));
    } else if e.TickCalled? && !LooksAround(s, e) {
      StartAccounted(s, e, m);
    } else if e.Delivered? && !LooksAround(s, e) {
      DeliveryAccounted(s, e, m);
    } else {
      UntouchedAccounted(s, e, m, Next(s, e));
    }
  }

  lemma {:induction false} AlwaysAccounted(config: Config, t0: int, run: Run)
    requires t0 > 0 && Legal(config, t0, run)
    ensures Accounted(After(config, t0, run), MailAfter(config, t0, run))
  {
    if run != [] {
      var before := run[..|run| - 1];
      AlwaysAccounted(config, t0, before);
      AlwaysSound(config, t0, before);
      NextAccounted(After(config, t0, before), run[|run| - 1], MailAfter(config, t0, before));
    }
  }

  /** THE MAILBOX LOSES ONLY WHAT IT MUST. After any run, the texts handed to the channel, the ones in
      delivery and the ones still held are, end to end, the newest ten decided before a chat was
      known: each is attempted at most once, in the order decided, and none is skipped. */
  lemma {:induction false} MailboxBalances(config: Config, t0: int, run: Run, s: System, m: Mail)
    requires t0 > 0 && Legal(config, t0, run)
    requires s == After(config, t0, run) && m == MailAfter(config, t0, run)
    ensures m.attempted + InDelivery(s.phase) + s.core.held == LastN(m.decided, 10)
    ensures s.core.chat.None? ==> m.attempted == [] && s.core.held == LastN(m.decided, 10)
  {
    AlwaysAccounted(config, t0, run);
    if s.core.chat.None? {
      assert [] + [] + s.core.held == s.core.held;
    }
  }

  /** HELD TEXTS GO OUT FIRST. With texts held and a chat known, a tick hands the first of them over and goes on with
      the others, one after the other, before it looks around; while the user has a task running it hands over
      none and holds them on. */
  lemma {:induction false} HeldGoOut(s: System, e: Event, s': System)
    requires Sound(s) && Enabled(s, e) && s' == Next(s, e)
    requires || (e.TickCalled? && !s.core.tickInFlight && s.core.held != [] && s.core.chat.Some?)
             || (e.Delivered? && s.phase.rest != [])
    ensures s'.core.engine == s.core.engine && s'.core.chat == s.core.chat
    ensures e.TickCalled? && e.foreground > 0 ==>
              s'.phase == Delivering([]) && s'.core.held == s.core.held && HandedOver(s, e) == []
    ensures e.TickCalled? && e.foreground <= 0 ==>
              s'.phase == Delivering(s.core.held[1..]) && s'.core.held == [] && HandedOver(s, e) == [s.core.held[0]]
    ensures e.Delivered? ==>
              && s'.phase == Delivering(s.phase.rest[1..]) && s'.core.held == s.core.held
              && HandedOver(s, e) == [s.phase.rest[0]]
  {
  }

  /** The chat that was last given; an empty chat id gives none. */
  ghost function LastChat(run: Run): Option<string> {
    if run == [] then None
    else
      var e := run[|run| - 1];
      if e.UserActive? && e.chat.Some? && e.chat.value != "" then e.chat else LastChat(run[..|run| - 1])
  }

  /** The operator is whoever wrote last, over any run, and nobody before anyone did. */
  lemma {:induction false} OperatorIsTheLast(config: Config, t0: int, run: Run)
    requires t0 > 0 && Legal(config, t0, run)
    ensures After(config, t0, run).core.chat == LastChat(run)
  {
    if run != [] {
      OperatorIsTheLast(config, t0, run[..|run| - 1]);
      ChatKept(After(config, t0, run[..|run| - 1]), run[|run| - 1]);
    }
  }

  lemma {:induction false} ChatKept(s: System, e: Event)
    requires Enabled(s, e)
    ensures Next(s, e).core.chat
         == if e.UserActive? && e.chat.Some? && e.chat.value != "" then e.chat else s.core.chat
  {
    if e.Replied? {
      ActMail(s.core, s.phase.batch, s.phase.ranked, VerdictOf(s, e), e.now, Said(s, e));
    } else if !e.UserActive? && (e.TickCalled? || e.Delivered? ==> LooksAround(s, e)) {
      MailUntouched(s, e);
    }
  }

  lemma {:induction false} KnownChatDrains(s: System, e: Event, s': System)
    requires Enabled(s, e) && s.core.chat.Some? && s' == Next(s, e)
    ensures s'.core.chat.Some?
    ensures s'.core.held == s.core.held || s'.core.held == []
  {
    if e.Replied? {
      ActMail(s.core, s.phase.batch, s.phase.ranked, VerdictOf(s, e), e.now, Said(s, e));
    } else if !((e.TickCalled? || e.Delivered?) && !LooksAround(s, e)) && !e.UserActive? {
      MailUntouched(s, e);
    }
  }

  /** Once a chat is known it stays known however the run goes on, and nothing is ever held again: the
      held texts are the ones held then, or gone out. */
  lemma {:induction false} NothingHeldAgain(config: Config, t0: int, run: Run, more: Run)
    requires t0 > 0 && Legal(config, t0, run) && Legal(config, t0, run + more)
    requires After(config, t0, run).core.chat.Some?
    ensures After(config, t0, run + more).core.chat.Some?
    ensures var held := After(config, t0, run + more).core.held; held == After(config, t0, run).core.held || held == []
  {
    if more == [] {
      assert run + more == run;
    } else {
      var front := more[..|more| - 1];
      WasLegal(config, t0, run, more, |more| - 1);
      NothingHeldAgain(config, t0, run, front);
      var s := After(config, t0, run + front);
      var e := GoesOn(config, t0, run, more, s);
      KnownChatDrains(s, e, After(config, t0, run + more));
    }
  }
}
