/** Ordered delivery: what a caller of Next sees is a prefix of a filter of the
    wire, and the queue always has room for turn_done. */
module TurnOrder {
  import opened Events
  import opened Subscribers
  import opened TurnCore
  import opened TurnRun
  import opened TurnSafety

  /** The events on a wire, each with its position. */
  function AsyncOf(wire: seq<Frame>): seq<Stamped> {
    if wire == [] then []
    else
      var n := |wire| - 1;
      AsyncOf(wire[..n]) + (if wire[n].Async? then [Stamped(n, wire[n].event)] else [])
  }

  lemma {:induction false} AsyncOfExtend(wire: seq<Frame>, f: Frame)
    ensures AsyncOf(wire + [f]) == AsyncOf(wire) + (if f.Async? then [Stamped(|wire|, f.event)] else [])
  {
    assert (wire + [f])[..|wire|] == wire;
  }

  /** What the reader put into the subscription. */
  function Published(s: System): seq<Stamped> {
    s.log.consumed + s.sub.events.buf
  }

  /** Everything that ever entered the turn's own queue. */
  function Admitted(s: System): seq<Stamped> {
    s.log.delivered + s.turn.events.buf
  }

  /** The consumed events the dispatcher is done with and did not refuse. */
  function Settled(s: System): seq<Stamped> {
    if (s.dispatcher.Handling? || s.log.dropped) && s.log.consumed != []
    then s.log.consumed[..|s.log.consumed|-1]
    else s.log.consumed
  }

  predicate IsTurnDone(e: Stamped) {
    DispositionOf(e.event).Finish?
  }

  ghost predicate NoTurnDone(q: seq<Stamped>) {
    forall e :: e in q ==> !IsTurnDone(e)
  }

  function AllButLast(q: seq<Stamped>): seq<Stamped>
    requires q != []
  {
    q[..|q|-1]
  }

  /** Between the wire and the dispatcher. */
  ghost predicate StreamInv(s: System) {
    && Published(s) <= AsyncOf(s.log.wire)
    && (s.sub.registered ==> Published(s) == AsyncOf(s.log.wire))
    && (s.dispatcher.Handling? ==> s.log.consumed != [] && s.log.consumed[|s.log.consumed|-1] == s.dispatcher.e)
    && (s.log.dropped ==> s.log.consumed != [] && (s.dispatcher.Committing? || Leaving(s.dispatcher)))
  }

  /** Between the dispatcher and the caller of Next. */
  ghost predicate QueueInv(s: System) {
    && Admitted(s) == VisibleOf(Settled(s))
    && |s.turn.events.buf| + (if s.log.doneFrom.None? then 1 else 0) <= s.turn.events.cap
    && (s.log.doneFrom.None? ==> NoTurnDone(Admitted(s)))
    && (s.log.doneFrom.Some? ==> EndsWithTurnDone(Admitted(s), s.log.doneFrom.value) && Leaving(s.dispatcher))
  }

  ghost predicate EndsWithTurnDone(q: seq<Stamped>, pos: nat) {
    q != [] && NoTurnDone(AllButLast(q)) && IsTurnDone(q[|q|-1]) && q[|q|-1].pos == pos
  }

  // ---- StreamInv ----------------------------------------------------------

  lemma ReaderKeepsStream(s: System, f: Frame)
    requires StreamInv(s) && s.sub.Sound() && s.reader.Idle?
    ensures StreamInv(Read(s, f))
  {
    AsyncOfExtend(s.log.wire, f);
    if f.Async? {
      AsyncKeepsStream(s, f.event);
    } else {
      ReplyKeepsStream(s, f);
    }
  }

  lemma ReplyKeepsStream(s: System, f: Frame)
    requires StreamInv(s) && s.reader.Idle? && f.Reply?
    requires AsyncOf(s.log.wire + [f]) == AsyncOf(s.log.wire)
    ensures StreamInv(Read(s, f))
  {
    var t := Read(s, f);
    assert t.log.wire == s.log.wire + [f] && t.log.consumed == s.log.consumed && t.log.dropped == s.log.dropped;
    assert t.sub == s.sub && t.dispatcher == s.dispatcher;
  }

  lemma AsyncKeepsStream(s: System, event: Event)
    requires StreamInv(s) && s.sub.Sound() && s.reader.Idle?
    requires AsyncOf(s.log.wire + [Async(event)]) == AsyncOf(s.log.wire) + [Stamped(|s.log.wire|, event)]
    ensures StreamInv(Read(s, Async(event)))
  {
    var e, t := Stamped(|s.log.wire|, event), Read(s, Async(event));
    DeliverExtends(s.sub, e);
    assert t.sub == s.sub.Deliver(e) && t.log.consumed == s.log.consumed;
    if s.sub.Admits() {
      assert s.log.consumed + (s.sub.events.buf + [e]) == Published(s) + [e];
    } else {
      assert Published(t) == Published(s);
    }
  }

  lemma DeliverExtends(sub: Subscriber<Stamped>, e: Stamped)
    requires sub.Sound()
    ensures sub.Deliver(e).events.buf == (if sub.Admits() then sub.events.buf + [e] else sub.events.buf)
    ensures sub.Deliver(e).registered == sub.Admits()
  {
  }

  lemma ReceiveKeepsStream(s: System, byErrors: bool, clientClosed: bool)
    requires StreamInv(s) && s.dispatcher.Receiving?
    ensures StreamInv(Receive(s, byErrors, clientClosed))
  {
    if !byErrors && s.sub.events.buf != [] {
      assert (s.log.consumed + [s.sub.events.buf[0]]) + s.sub.events.buf[1..] == Published(s);
    }
  }

  /** The streams from the wire to the dispatcher are as they were, except that
      the subscription may have been closed. */
  ghost predicate SameIntake(s: System, t: System) {
    && t.log.wire == s.log.wire && t.log.consumed == s.log.consumed
    && t.sub.events.buf == s.sub.events.buf && (t.sub.registered ==> s.sub.registered)
  }

  lemma OnlyReaderAndDispatcherTouchIntake(s: System, a: Action)
    requires s.sub.Sound()
    requires !a.ReadFrame? && !(a.DispatcherMoves? && s.dispatcher.Receiving?)
    ensures SameIntake(s, Step(s, a))
  {
  }

  lemma StreamStep(s: System, a: Action)
    requires StreamInv(s) && s.sub.Sound()
    ensures StreamInv(Step(s, a))
  {
    match a
    case ReadFrame(f) =>
      if s.reader.Idle? {
        ReaderKeepsStream(s, f);
      }
    case DispatcherMoves(byErrors, clientClosed) =>
      if s.dispatcher.Receiving? {
        ReceiveKeepsStream(s, byErrors, clientClosed);
      } else {
        OnlyReaderAndDispatcherTouchIntake(s, a);
        DispatcherDropsOnlyAtTheEnd(s, byErrors, clientClosed);
      }
    case _ =>
      OnlyReaderAndDispatcherTouchIntake(s, a);
      OthersLeaveDispatcher(s, a);
  }

  lemma DispatcherDropsOnlyAtTheEnd(s: System, byErrors: bool, clientClosed: bool)
    requires StreamInv(s) && !s.dispatcher.Receiving?
    ensures var t := MoveDispatcher(s, byErrors, clientClosed);
            && !t.dispatcher.Handling?
            && (t.log.dropped ==> s.log.consumed != [] && (t.dispatcher.Committing? || Leaving(t.dispatcher)))
  {
  }

  lemma OthersLeaveDispatcher(s: System, a: Action)
    requires !a.DispatcherMoves?
    ensures Step(s, a).dispatcher == s.dispatcher && Step(s, a).log.dropped == s.log.dropped
  {
  }

  // ---- QueueInv -----------------------------------------------------------

  lemma {:induction false} PublishKeepsQueue(s: System, e: Stamped)
    requires StreamInv(s) && QueueInv(s) && s.dispatcher == Handling(e) && DispositionOf(e.event).Publish?
    ensures QueueInv(Handle(s, e))
  {
    var c, t := s.log.consumed, Handle(s, e);
    assert s.log.doneFrom.None? && Settled(s) == AllButLast(c);
    if s.turn.PublishEvent(e).1 {
      AdmittedGrows(s, t, e);
      VisibleGrows(c, Admitted(s), e);
    } else {
      assert t.turn.events.buf == s.turn.events.buf;
    }
  }

  lemma {:induction false} AdmittedGrows(s: System, t: System, e: Stamped)
    requires t.log.delivered == s.log.delivered && t.turn.events.buf == s.turn.events.buf + [e]
    ensures Admitted(t) == Admitted(s) + [e]
  {
  }

  lemma {:induction false} VisibleGrows(c: seq<Stamped>, q: seq<Stamped>, e: Stamped)
    requires c != [] && c[|c|-1] == e && Visible(e.event) && q == VisibleOf(AllButLast(c))
    ensures q + [e] == VisibleOf(c) && AllButLast(q + [e]) == q
    ensures NoTurnDone(q) ==> if IsTurnDone(e) then EndsWithTurnDone(q + [e], e.pos) else NoTurnDone(q + [e])
  {
    assert c == AllButLast(c) + [e];
    VisibleOfExtend(AllButLast(c), e);
  }

  lemma {:induction false} FinishKeepsQueue(s: System, e: Stamped)
    requires StreamInv(s) && QueueInv(s) && TurnInv(s) && s.dispatcher == Handling(e) && IsTurnDone(e)
    ensures QueueInv(Handle(s, e))
    ensures s.turn.FinishTurnDone(e).1 != NoSlot
  {
    var c, t := s.log.consumed, Handle(s, e);
    assert s.log.doneFrom.None? && Settled(s) == AllButLast(c);
    if s.turn.terminal {
      assert t.turn == s.turn && Admitted(t) == Admitted(s) && Settled(t) == Settled(s);
    } else {
      AdmittedGrows(s, t, e);
      VisibleGrows(c, Admitted(s), e);
    }
  }

  lemma {:induction false} SkipKeepsQueue(s: System, e: Stamped)
    requires StreamInv(s) && QueueInv(s) && s.dispatcher == Handling(e) && !Visible(e.event)
    ensures QueueInv(Handle(s, e))
  {
    var c := s.log.consumed;
    assert c == AllButLast(c) + [e];
    VisibleOfExtend(AllButLast(c), e);
    var t := Handle(s, e);
    assert s.log.doneFrom.None? && t.log.doneFrom.None? && t.turn.events == s.turn.events;
    assert Settled(s) == AllButLast(c) && Settled(t) == c && Admitted(t) == Admitted(s);
  }

  lemma {:induction false} ReceiveKeepsQueue(s: System, byErrors: bool, clientClosed: bool)
    requires StreamInv(s) && QueueInv(s) && s.dispatcher.Receiving?
    ensures QueueInv(Receive(s, byErrors, clientClosed))
  {
    var s' := Receive(s, byErrors, clientClosed);
    if s'.dispatcher.Handling? {
      assert AllButLast(s'.log.consumed) == s.log.consumed;
    }
  }

  lemma {:induction false} CallerKeepsQueue(s: System)
    requires QueueInv(s)
    ensures QueueInv(CallerNext(s)) && Admitted(CallerNext(s)) == Admitted(s)
  {
    if s.turn.events.buf != [] {
      assert (s.log.delivered + [s.turn.events.buf[0]]) + s.turn.events.buf[1..] == Admitted(s);
    }
  }

  /** The streams from the dispatcher to the caller are as they were. */
  ghost predicate SameOutlet(s: System, t: System) {
    && t.log.consumed == s.log.consumed && t.log.delivered == s.log.delivered
    && t.log.dropped == s.log.dropped && t.log.doneFrom == s.log.doneFrom
    && t.turn.events.buf == s.turn.events.buf && t.turn.events.cap == s.turn.events.cap
    && t.dispatcher.Handling? == s.dispatcher.Handling?
    && (Leaving(s.dispatcher) ==> Leaving(t.dispatcher))
  }

  lemma SameOutletKeepsQueue(s: System, t: System)
    requires QueueInv(s) && SameOutlet(s, t)
    ensures QueueInv(t) && Admitted(t) == Admitted(s)
  {
  }

  lemma OnlyDispatcherAndCallerTouchOutlet(s: System, a: Action)
    requires !a.CallNext? && !(a.DispatcherMoves? && (s.dispatcher.Receiving? || s.dispatcher.Handling?))
    ensures SameOutlet(s, Step(s, a))
  {
    if a.DispatcherMoves? {
      LeavingTouchesNoOutlet(s, a.byErrors, a.clientClosed);
    } else {
      OthersLeaveDispatcher(s, a);
    }
  }

  lemma LeavingTouchesNoOutlet(s: System, byErrors: bool, clientClosed: bool)
    requires !s.dispatcher.Receiving? && !s.dispatcher.Handling?
    ensures SameOutlet(s, MoveDispatcher(s, byErrors, clientClosed))
  {
  }

  lemma HandleKeepsQueue(s: System, e: Stamped)
    requires StreamInv(s) && QueueInv(s) && TurnInv(s) && s.dispatcher == Handling(e)
    ensures QueueInv(Handle(s, e))
  {
    match DispositionOf(e.event)
    case Publish => PublishKeepsQueue(s, e);
    case Finish => FinishKeepsQueue(s, e);
    case _ => SkipKeepsQueue(s, e);
  }

  lemma QueueStep(s: System, a: Action)
    requires StreamInv(s) && QueueInv(s) && TurnInv(s)
    ensures QueueInv(Step(s, a))
  {
    if a.CallNext? {
      CallerKeepsQueue(s);
    } else if a.DispatcherMoves? && s.dispatcher.Handling? {
      HandleKeepsQueue(s, s.dispatcher.e);
    } else if a.DispatcherMoves? && s.dispatcher.Receiving? {
      ReceiveKeepsQueue(s, a.byErrors, a.clientClosed);
    } else {
      OnlyDispatcherAndCallerTouchOutlet(s, a);
      SameOutletKeepsQueue(s, Step(s, a));
    }
  }

  lemma {:induction false} RunKeepsOrder(s: System, schedule: seq<Action>)
    requires Inv(s) && StreamInv(s) && QueueInv(s)
    ensures var s' := Run(s, schedule); Inv(s') && StreamInv(s') && QueueInv(s')
    decreases |schedule|
  {
    if schedule == [] {
    } else {
      StepKeepsInv(s, schedule[0]);
      StreamStep(s, schedule[0]);
      QueueStep(s, schedule[0]);
      RunKeepsOrder(Step(s, schedule[0]), schedule[1..]);
    }
  }

  lemma {:induction false} BeginOrder(eventBuffer: nat, clientClosed: bool)
    ensures var s := Begin(eventBuffer, clientClosed); Inv(s) && StreamInv(s) && QueueInv(s)
  {
    BeginInv(eventBuffer, clientClosed);
  }

  /** What Next has returned, followed by what it can still return, is a prefix of
      the visible events of the wire: nothing reordered, repeated, invented or
      skipped, no message_accepted and no advisory event, and turn_done at most
      once and last. Nothing is lost on the way either: as long as the subscription
      is open the dispatcher has taken all of the wire that is not queued there,
      and of what it has taken every visible event but the one in its hands is
      admitted, unless the turn refused it and ends. */
  lemma {:induction false} OrderedDelivery(eventBuffer: nat, clientClosed: bool, schedule: seq<Action>)
    ensures var s := Run(Begin(eventBuffer, clientClosed), schedule);
            && Admitted(s) <= VisibleOf(AsyncOf(s.log.wire))
            && (forall e :: e in Admitted(s) ==> Visible(e.event))
            && (match s.log.doneFrom
                case None => NoTurnDone(Admitted(s))
                case Some(pos) => EndsWithTurnDone(Admitted(s), pos))
            && (s.sub.registered ==> s.log.consumed + s.sub.events.buf == AsyncOf(s.log.wire))
            && (!s.dispatcher.Handling? && !s.log.dropped ==> Admitted(s) == VisibleOf(s.log.consumed))
            && (s.log.dropped ==> s.dispatcher.Committing? || Leaving(s.dispatcher))
  {
    var s := Run(Begin(eventBuffer, clientClosed), schedule);
    BeginOrder(eventBuffer, clientClosed);
    RunKeepsOrder(Begin(eventBuffer, clientClosed), schedule);
    assert Settled(s) <= s.log.consumed <= Published(s);
    VisibleOfPrefix(Settled(s), AsyncOf(s.log.wire));
    forall e | e in Admitted(s) ensures Visible(e.event) {
      VisibleOfMembers(Settled(s), e);
    }
  }

  /** turn_done always finds the slot reserved for it. */
  lemma {:induction false} ReservedSlotIsFree(eventBuffer: nat, clientClosed: bool, schedule: seq<Action>, e: Stamped)
    requires Run(Begin(eventBuffer, clientClosed), schedule).dispatcher == Handling(e) && IsTurnDone(e)
    ensures Run(Begin(eventBuffer, clientClosed), schedule).turn.FinishTurnDone(e).1 != NoSlot
  {
    BeginOrder(eventBuffer, clientClosed);
    RunKeepsOrder(Begin(eventBuffer, clientClosed), schedule);
    FinishKeepsQueue(Run(Begin(eventBuffer, clientClosed), schedule), e);
  }

  lemma {:induction false} StepAfterTheEnd(s: System, a: Action)
    requires s.turn.terminal && QueueInv(s)
    ensures Admitted(Step(s, a)) == Admitted(s)
  {
    if a.CallNext? {
      CallerKeepsQueue(s);
    } else if a.DispatcherMoves? && s.dispatcher.Handling? {
      assert Handle(s, s.dispatcher.e).turn.events == s.turn.events;
    } else if a.DispatcherMoves? && s.dispatcher.Receiving? {
      assert Receive(s, a.byErrors, a.clientClosed).turn == s.turn;
    } else {
      OnlyDispatcherAndCallerTouchOutlet(s, a);
      SameOutletKeepsQueue(s, Step(s, a));
    }
  }

  /** Nothing enters the queue after the terminal commit. */
  lemma {:induction false} NothingAfterTheEnd(s: System, schedule: seq<Action>)
    requires s.turn.terminal && Inv(s) && StreamInv(s) && QueueInv(s)
    ensures Admitted(Run(s, schedule)) == Admitted(s)
    decreases |schedule|
  {
    if schedule == [] {
    } else {
      var a := schedule[0];
      StepKeepsInv(s, a);
      StreamStep(s, a);
      QueueStep(s, a);
      StepAfterTheEnd(s, a);
      NothingAfterTheEnd(Step(s, a), schedule[1..]);
    }
  }
}
