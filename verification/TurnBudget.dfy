/** The bounds of the two queues of a turn, and how a finished turn drains. */
module TurnBudget {
  import opened Channels
  import opened Errors
  import opened Events
  import opened Subscribers
  import opened TurnRun
  import opened TurnSafety
  import opened TurnOrder

  /** How many events of s the dispatcher hands to publishEvent. */
  function Publishable(s: seq<Stamped>): nat {
    if s == [] then 0
    else Publishable(s[..|s|-1]) + (if DispositionOf(s[|s|-1].event).Publish? then 1 else 0)
  }

  lemma {:induction false} PublishableOfPrefix(a: seq<Stamped>, b: seq<Stamped>)
    requires a <= b
    ensures Publishable(a) <= Publishable(b)
    decreases |b|
  {
    if |a| < |b| {
      PublishableOfPrefix(a, b[..|b|-1]);
    } else {
      assert a == b;
    }
  }

  lemma {:induction false} VisibleWithoutTurnDone(s: seq<Stamped>)
    requires NoTurnDone(VisibleOf(s))
    ensures |VisibleOf(s)| == Publishable(s)
  {
    if s == [] {
    } else {
      var x := s[|s|-1];
      var rest := VisibleOf(s[..|s|-1]);
      assert Visible(x.event) ==> x in rest + [x];
      assert forall e :: e in rest ==> e in rest + [x];
      VisibleWithoutTurnDone(s[..|s|-1]);
    }
  }

  /** Each queue was ever found full only by a wire that carried more than it
      is made for. */
  ghost predicate BudgetInv(s: System, eventBuffer: nat) {
    && s.turn.events.cap == eventBuffer + 1
    && s.sub.events.cap == eventBuffer + 2
    && (s.log.overflowed ==> |AsyncOf(s.log.wire)| > eventBuffer + 2)
    && (s.log.refused ==> Publishable(AsyncOf(s.log.wire)) > eventBuffer)
  }

  lemma {:induction false} RefusalMeansBeyondBudget(s: System, e: Stamped, eventBuffer: nat)
    requires BudgetInv(s, eventBuffer) && TurnInv(s) && StreamInv(s) && QueueInv(s)
    requires s.dispatcher == Handling(e) && DispositionOf(e.event).Publish?
    requires !s.turn.terminal && !s.turn.PublishEvent(e).1
    ensures Publishable(AsyncOf(s.log.wire)) > eventBuffer
  {
    var c := s.log.consumed;
    VisibleWithoutTurnDone(AllButLast(c));
    assert |s.turn.events.buf| <= |Admitted(s)| == Publishable(AllButLast(c));
    assert c <= Published(s);
    PublishableOfPrefix(c, AsyncOf(s.log.wire));
  }

  lemma {:induction false} ReaderKeepsBudget(s: System, f: Frame, eventBuffer: nat)
    requires BudgetInv(s, eventBuffer) && s.sub.Sound() && StreamInv(s) && s.reader.Idle?
    ensures BudgetInv(Read(s, f), eventBuffer)
  {
    var wire := s.log.wire;
    AsyncOfExtend(wire, f);
    PublishableOfPrefix(AsyncOf(wire), AsyncOf(wire + [f]));
    match f
    case Reply(_, _) => assert BudgetInv(Read(s, f), eventBuffer);
    case Async(event) => FullMeansBeyondBudget(s, Stamped(|wire|, event), eventBuffer);
  }

  lemma FullMeansBeyondBudget(s: System, e: Stamped, eventBuffer: nat)
    requires BudgetInv(s, eventBuffer) && s.sub.Sound() && StreamInv(s)
    ensures s.sub.Deliver(e).events.cap == s.sub.events.cap
    ensures s.sub.registered && !s.sub.Admits() ==> |AsyncOf(s.log.wire) + [e]| > eventBuffer + 2
  {
    assert |s.sub.events.buf| <= |Published(s)|;
  }

  lemma HandleKeepsBudget(s: System, e: Stamped, eventBuffer: nat)
    requires BudgetInv(s, eventBuffer) && TurnInv(s) && StreamInv(s) && QueueInv(s) && s.dispatcher == Handling(e)
    ensures BudgetInv(Handle(s, e), eventBuffer)
  {
    if DispositionOf(e.event).Publish? && !s.turn.terminal && !s.turn.PublishEvent(e).1 {
      RefusalMeansBeyondBudget(s, e, eventBuffer);
    }
  }

  ghost predicate SameBudget(s: System, t: System) {
    && t.log.wire == s.log.wire && t.log.overflowed == s.log.overflowed && t.log.refused == s.log.refused
    && t.turn.events.cap == s.turn.events.cap && t.sub.events.cap == s.sub.events.cap
  }

  lemma SubscriptionKeepsCapacity(sub: Subscriber<Stamped>, cause: Option<Error>, byErrors: bool, clientClosed: bool)
    ensures sub.Sweep(cause).events.cap == sub.Next(byErrors, clientClosed).0.events.cap == sub.events.cap
  {
  }

  lemma DispatcherKeepsBudget(s: System, byErrors: bool, clientClosed: bool)
    requires !s.dispatcher.Handling?
    ensures SameBudget(s, MoveDispatcher(s, byErrors, clientClosed))
  {
    SubscriptionKeepsCapacity(s.sub, None, byErrors, clientClosed);
    match s.dispatcher
    case Receiving => assert SameBudget(s, Receive(s, byErrors, clientClosed));
    case Committing(r, why) => assert SameBudget(s, Commit(s, r, why));
    case _ =>
  }

  lemma OthersKeepBudget(s: System, a: Action)
    requires !a.ReadFrame? && !a.DispatcherMoves?
    ensures SameBudget(s, Step(s, a))
  {
    SubscriptionKeepsCapacity(s.sub, if a.CloseSubscription? then a.cause else None, false, false);
  }

  lemma BudgetStep(s: System, a: Action, eventBuffer: nat)
    requires BudgetInv(s, eventBuffer) && Inv(s) && StreamInv(s) && QueueInv(s)
    ensures BudgetInv(Step(s, a), eventBuffer)
  {
    if a.ReadFrame? {
      if s.reader.Idle? {
        ReaderKeepsBudget(s, a.frame, eventBuffer);
      }
    } else if a.DispatcherMoves? && s.dispatcher.Handling? {
      HandleKeepsBudget(s, s.dispatcher.e, eventBuffer);
    } else if a.DispatcherMoves? {
      DispatcherKeepsBudget(s, a.byErrors, a.clientClosed);
    } else {
      OthersKeepBudget(s, a);
    }
  }

  // ---- where an overflow result can come from ------------------------------

  predicate Overflown(r: TurnResult) {
    r.kind.Overflow?
  }

  /** The environment does not itself report a subscriber overflow. */
  predicate Blameless(a: Action) {
    match a
    case CloseSubscription(Some(cause)) => !cause.Is(SubscriberOverflow)
    case WriteReturns(Some(err)) => !err.Is(SubscriberOverflow)
    case _ => true
  }

  ghost predicate BlameInv(s: System) {
    && (s.sub.err.Some? && s.sub.err.value.Is(SubscriberOverflow) ==> s.log.overflowed)
    && (s.turn.terminal && Overflown(s.turn.result) ==> s.log.overflowed || s.log.refused)
    && (s.dispatcher.Committing? && Overflown(s.dispatcher.result) ==> s.log.overflowed || s.log.refused || s.turn.terminal)
    && (s.watcher.WatchCommitting? ==> !Overflown(s.watcher.result))
    && (s.starter.StartFailing? ==> !Overflown(s.starter.result))
  }

  lemma SweepBlames(sub: Subscriber<Stamped>, cause: Option<Error>)
    requires sub.Sound()
    ensures sub.Sweep(cause).err == if sub.registered then cause else sub.err
  {
  }

  lemma ReaderKeepsBlame(s: System, f: Frame)
    requires BlameInv(s) && s.sub.Sound()
    ensures BlameInv(Read(s, f))
  {
  }

  lemma HandleKeepsBlame(s: System, e: Stamped)
    requires BlameInv(s) && TurnInv(s) && StreamInv(s) && QueueInv(s) && s.dispatcher == Handling(e)
    ensures BlameInv(Handle(s, e))
  {
    VisibleMeansClassified(e.event);
    if IsTurnDone(e) {
      FinishKeepsQueue(s, e);
    }
  }

  lemma DispatcherKeepsBlame(s: System, byErrors: bool, clientClosed: bool)
    requires BlameInv(s) && s.sub.Sound() && TurnInv(s) && StreamInv(s) && QueueInv(s)
    ensures BlameInv(MoveDispatcher(s, byErrors, clientClosed))
  {
    match s.dispatcher
    case Receiving => assert BlameInv(Receive(s, byErrors, clientClosed));
    case Handling(e) => HandleKeepsBlame(s, e);
    case Unsubscribing => SweepBlames(s.sub, None);
    case _ =>
  }

  lemma OthersKeepBlame(s: System, a: Action)
    requires BlameInv(s) && s.sub.Sound() && Blameless(a) && !a.ReadFrame? && !a.DispatcherMoves?
    ensures BlameInv(Step(s, a))
  {
  }

  lemma BlameStep(s: System, a: Action)
    requires BlameInv(s) && Inv(s) && StreamInv(s) && QueueInv(s) && Blameless(a)
    ensures BlameInv(Step(s, a))
  {
    match a
    case ReadFrame(f) => ReaderKeepsBlame(s, f);
    case DispatcherMoves(byErrors, clientClosed) => DispatcherKeepsBlame(s, byErrors, clientClosed);
    case _ => OthersKeepBlame(s, a);
  }

  ghost predicate AllInv(s: System, eventBuffer: nat) {
    Inv(s) && StreamInv(s) && QueueInv(s) && BudgetInv(s, eventBuffer) && BlameInv(s)
  }

  lemma {:induction false} RunKeepsBudget(s: System, schedule: seq<Action>, eventBuffer: nat)
    requires AllInv(s, eventBuffer)
    requires forall i :: 0 <= i < |schedule| ==> Blameless(schedule[i])
    ensures AllInv(Run(s, schedule), eventBuffer)
    decreases |schedule|
  {
    if schedule == [] {
    } else {
      var a := schedule[0];
      StepKeepsInv(s, a);
      StreamStep(s, a);
      QueueStep(s, a);
      BudgetStep(s, a, eventBuffer);
      BlameStep(s, a);
      RunKeepsBudget(Step(s, a), schedule[1..], eventBuffer);
    }
  }

  /** As long as the wire carries at most eventBuffer + 2 events, at most
      eventBuffer of them publishable, no queue of the turn is ever found full and
      the turn does not end as overflowed, even if nobody ever calls Next. */
  lemma {:induction false} NoOverflowWithinBudget(eventBuffer: nat, clientClosed: bool, schedule: seq<Action>)
    requires forall i :: 0 <= i < |schedule| ==> Blameless(schedule[i])
    requires |AsyncOf(Run(Begin(eventBuffer, clientClosed), schedule).log.wire)| <= eventBuffer + 2
    requires Publishable(AsyncOf(Run(Begin(eventBuffer, clientClosed), schedule).log.wire)) <= eventBuffer
    ensures var s := Run(Begin(eventBuffer, clientClosed), schedule);
            && !s.log.overflowed && !s.log.refused
            && (s.turn.terminal ==> !s.turn.result.kind.Overflow?)
  {
    BeginOrder(eventBuffer, clientClosed);
    RunKeepsBudget(Begin(eventBuffer, clientClosed), schedule, eventBuffer);
  }
}
