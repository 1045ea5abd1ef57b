/** One owned turn among all the goroutines that touch it: the client's reader,
    the turn's dispatcher, its lifecycle watcher, the StartTurn call that made
    it, the cancel request, and a caller of Next. A run is any sequence of
    atomic steps; a step that is not enabled leaves the system as it is. */
module TurnRun {
  import opened Channels
  import opened Errors
  import opened Events
  import opened Subscribers
  import opened TurnCore

  /** A frame on the wire: a correlated reply, or an asynchronous event. */
  datatype Frame = Reply(id: nat, body: ReplyBody) | Async(event: Event)

  /** readLoop. A reply it took is first shown to the observer, then handed over. */
  datatype Reader = Idle | Observing(body: ReplyBody) | Handing(body: ReplyBody)

  /** Why a turn ends, as its producer met it: an error of the subscription or of the
      first write, the end of the lifecycle context, an event that ends the turn, one
      that found the queue full, or turn_done. */
  datatype Reason =
    | SubscriptionFailed(err: Error)
    | WriteFailed(err: Error)
    | LifecycleEnded(end: LifecycleEnd)
    | EventRejected(e: Stamped)
    | QueueFull(e: Stamped)
    | DoneReceived(e: Stamped)

  /** The end of the lifecycle context: whether it is the deadline's, and its cause. */
  datatype LifecycleEnd = LifecycleEnd(deadline: bool, cause: Error)

  datatype Dispatcher =
    | Receiving
    | Handling(e: Stamped)
    | MarkingAccepted
    | Committing(result: TurnResult, why: Reason)
    | Unsubscribing
    | ClosingEvents
    | Exited

  datatype Watcher = Watching | WatchCommitting(result: TurnResult, why: Reason) | WatchUnsubscribing | WatchExited

  /** StartTurn after turn.start. */
  datatype Starter =
    | Writing
    | Written
    | Started
    | StartFailing(result: TurnResult, why: Reason)
    | StartUnsubscribing
    | StartFailed

  /** runCancel */
  datatype Canceller =
    | NoCancel
    | Requesting
    | Registered(id: nat)
    | AwaitingReply(id: nat)
    | Finishing(err: Option<Error>)
    | Finished(err: Option<Error>)

  /** What happened so far. `wire` is what the reader read since the
      subscription; `consumed` what the dispatcher took from the subscription;
      `delivered` what Next returned; `dropped` says that the last consumed event
      was refused; `okAt` is the wire index of the OK that the reader matched with
      the pending cancel request; `doneFrom` that of the turn_done the result was
      committed from; `overflowed` and `refused` record a full subscription queue
      and a full turn queue; `accepted` that message_accepted decided acceptance;
      `ended` how the lifecycle context ended; `why` what the stored result was
      committed for. */
  datatype Log = Log(
    wire: seq<Frame>, consumed: seq<Stamped>, delivered: seq<Stamped>, dropped: bool,
    okAt: Option<nat>, doneFrom: Option<nat>, overflowed: bool, refused: bool,
    accepted: bool, commits: nat, cancelWrites: nat, ended: Option<LifecycleEnd>, why: Option<Reason>)

  datatype System = System(
    turn: TurnState, sub: Subscriber<Stamped>,
    reader: Reader, dispatcher: Dispatcher, watcher: Watcher, starter: Starter, canceller: Canceller,
    pendingCancel: Option<nat>, reply: Chan<ReplyBody>,
    log: Log)

  datatype Action =
    | ReadFrame(frame: Frame)
    | ReaderMoves
    | SweepPending
    | CloseSubscription(cause: Option<Error>)
    | DispatcherMoves(byErrors: bool, clientClosed: bool)
    | LifecycleEnds(deadline: bool, reason: Error)
    | WatcherMoves
    | WriteReturns(err: Option<Error>)
    | StarterMoves
    | CallCancel
    | CancelRegisters(id: nat)
    | CancelGivesUp(why: Error)
    | CancelWrites(err: Option<Error>)
    | CancelMoves
    | CallNext

  /** StartTurn up to turn.start; the client may already be closed. */
  function Begin(eventBuffer: nat, clientClosed: bool): System {
    System(NewTurn(eventBuffer), Born(eventBuffer + 2, true, clientClosed),
           Idle, Receiving, Watching, Writing, NoCancel, None, MakeChan(1),
           Log([], [], [], false, None, None, false, false, false, 0, 0, None, None))
  }

  // ---- reader -------------------------------------------------------------

  function Read(s: System, f: Frame): System {
    if !s.reader.Idle? then s
    else
      var pos := |s.log.wire|;
      var s1 := s.(log := s.log.(wire := s.log.wire + [f]));
      match f
      case Reply(id, body) =>
        if s.pendingCancel == Some(id)
        then s1.(pendingCancel := None, reader := Observing(body),
                 log := s1.log.(okAt := if body.OkReply? then Some(pos) else s.log.okAt))
        else s1
      case Async(event) =>
        s1.(sub := s.sub.Deliver(Stamped(pos, event)),
            log := s1.log.(overflowed := s.log.overflowed || (s.sub.registered && !s.sub.Admits())))
  }

  function MoveReader(s: System): System {
    match s.reader
    case Idle => s
    case Observing(body) => s.(turn := s.turn.ObserveReply(body), reader := Handing(body))
    case Handing(body) => s.(reply := s.reply.Send(body), reader := Idle)
  }

  /** A disconnect or close takes the pending request and closes its reply channel. */
  function Sweep(s: System): System {
    if s.pendingCancel.Some? then s.(pendingCancel := None, reply := s.reply.Close()) else s
  }

  // ---- terminal commits ---------------------------------------------------

  /** finishTerminal up to the unlock. */
  function Commit(s: System, r: TurnResult, why: Reason): System {
    s.(turn := s.turn.FinishTerminal(r),
       log := if s.turn.terminal then s.log else s.log.(commits := s.log.commits + 1, why := Some(why)))
  }

  function Unsubscribe(s: System): System {
    s.(sub := s.sub.Sweep(None))
  }

  // ---- dispatcher ---------------------------------------------------------

  function Receive(s: System, byErrors: bool, clientClosed: bool): System {
    var (sub, outcome) := s.sub.Next(byErrors, clientClosed);
    match outcome
    case Got(e) => s.(sub := sub, dispatcher := Handling(e), log := s.log.(consumed := s.log.consumed + [e]))
    case Failed(err) => s.(sub := sub, dispatcher := Committing(ResultFromSubscriptionError(err), SubscriptionFailed(err)))
    case Blocked => s
  }

  function Handle(s: System, e: Stamped): System {
    match DispositionOf(e.event)
    case Accept =>
      s.(turn := s.turn.FinishAcceptance(None), dispatcher := MarkingAccepted,
         log := s.log.(accepted := s.log.accepted || !s.turn.acceptanceSet))
    case Fail(r) => s.(dispatcher := Committing(r, EventRejected(e)))
    case Ignore => s.(dispatcher := Receiving)
    case Finish =>
      var (turn, outcome) := s.turn.FinishTurnDone(e);
      s.(turn := turn,
         dispatcher := if outcome.TooLate? then ClosingEvents else Unsubscribing,
         log := s.log.(
           dropped := !outcome.Committed?,
           doneFrom := if outcome.Committed? then Some(e.pos) else s.log.doneFrom,
           commits := if outcome.TooLate? then s.log.commits else s.log.commits + 1,
           why := match outcome
             case Committed => Some(DoneReceived(e))
             case NoSlot => Some(QueueFull(e))
             case TooLate => s.log.why))
    case Publish =>
      var (turn, published) := s.turn.PublishEvent(e);
      s.(turn := turn,
         dispatcher := if published then Receiving else Committing(OVERFLOW_RESULT, QueueFull(e)),
         log := s.log.(dropped := !published, refused := s.log.refused || (!published && !s.turn.terminal)))
  }

  function MoveDispatcher(s: System, byErrors: bool, clientClosed: bool): System {
    match s.dispatcher
    case Receiving => Receive(s, byErrors, clientClosed)
    case Handling(e) => Handle(s, e)
    case MarkingAccepted => s.(turn := s.turn.MarkAccepted(), dispatcher := Receiving)
    case Committing(r, why) => Commit(s, r, why).(dispatcher := if s.turn.terminal then ClosingEvents else Unsubscribing)
    case Unsubscribing => Unsubscribe(s).(dispatcher := ClosingEvents)
    case ClosingEvents => s.(turn := s.turn.CloseEvents(), dispatcher := Exited)
    case Exited => s
  }

  // ---- watcher and StartTurn ----------------------------------------------

  function EndLifecycle(s: System, deadline: bool, cause: Error): System {
    if s.watcher.Watching?
    then s.(watcher := WatchCommitting(
              TurnResult(if deadline then LifecycleDeadlineExceeded else LifecycleCanceled, Some(cause)),
              LifecycleEnded(LifecycleEnd(deadline, cause))),
            log := s.log.(ended := Some(LifecycleEnd(deadline, cause))))
    else s
  }

  function MoveWatcher(s: System): System {
    match s.watcher
    case Watching => if s.turn.terminalDone.closed then s.(watcher := WatchExited) else s
    case WatchCommitting(r, why) => Commit(s, r, why).(watcher := if s.turn.terminal then WatchExited else WatchUnsubscribing)
    case WatchUnsubscribing => Unsubscribe(s).(watcher := WatchExited)
    case WatchExited => s
  }

  function ReturnWrite(s: System, err: Option<Error>): System {
    if !s.starter.Writing? then s
    else if err.None? then s.(starter := Written)
    else s.(starter := StartFailing(ResultFromSubscriptionError(err.value), WriteFailed(err.value)))
  }

  function MoveStarter(s: System): System {
    match s.starter
    case Written => s.(turn := s.turn.MarkWriteComplete(), starter := Started)
    case StartFailing(r, why) => Commit(s, r, why).(starter := if s.turn.terminal then StartFailed else StartUnsubscribing)
    case StartUnsubscribing => Unsubscribe(s).(starter := StartFailed)
    case _ => s
  }

  // ---- cancel request -----------------------------------------------------

  /** Nobody has the Turn to call Cancel on before StartTurn has returned it. */
  function BeginCancel(s: System): System {
    if !s.starter.Started? then s
    else
      var (turn, spawn) := s.turn.BeginCancel();
      s.(turn := turn, canceller := if spawn then Requesting else s.canceller)
  }

  function RegisterCancel(s: System, id: nat): System {
    if s.canceller.Requesting? then s.(canceller := Registered(id), pendingCancel := Some(id)) else s
  }

  /** A refused request, a timeout, or the closed client. */
  function GiveUpCancel(s: System, err: Error): System {
    if s.canceller.Requesting? || s.canceller.AwaitingReply?
    then s.(canceller := Finishing(Some(err)), pendingCancel := None)
    else s
  }

  function WriteCancel(s: System, err: Option<Error>): System {
    if !s.canceller.Registered? then s
    else
      var s1 := s.(log := s.log.(cancelWrites := s.log.cancelWrites + 1));
      if err.None? then s1.(canceller := AwaitingReply(s.canceller.id))
      else s1.(canceller := Finishing(err), pendingCancel := None)
  }

  function CancelResult(body: ReplyBody): Option<Error> {
    match body
    case OkReply => None
    case ErrorReply(code) => Some(Error({}, Some(code), false))
    case OtherReply => Some(Error({}, None, false))
  }

  function MoveCancel(s: System): System {
    match s.canceller
    case AwaitingReply(_) =>
      if s.reply.buf != [] then s.(reply := s.reply.Receive(), canceller := Finishing(CancelResult(s.reply.buf[0])))
      else if s.reply.closed then s.(canceller := Finishing(Some(Plain(Disconnected))))
      else s
    case Finishing(err) => s.(turn := s.turn.FinishCancel(err), canceller := Finished(err))
    case _ => s
  }

  /** A context that is done makes a call of Next return and changes nothing. */
  function CallerNext(s: System): System {
    var (turn, r) := s.turn.Next(false);
    if r.Returned? then s.(turn := turn, log := s.log.(delivered := s.log.delivered + [r.event])) else s
  }

  function Step(s: System, a: Action): System {
    match a
    case ReadFrame(f) => Read(s, f)
    case ReaderMoves => MoveReader(s)
    case SweepPending => Sweep(s)
    case CloseSubscription(cause) => s.(sub := s.sub.Sweep(cause))
    case DispatcherMoves(byErrors, clientClosed) => MoveDispatcher(s, byErrors, clientClosed)
    case LifecycleEnds(deadline, cause) => EndLifecycle(s, deadline, cause)
    case WatcherMoves => MoveWatcher(s)
    case WriteReturns(err) => ReturnWrite(s, err)
    case StarterMoves => MoveStarter(s)
    case CallCancel => BeginCancel(s)
    case CancelRegisters(id) => RegisterCancel(s, id)
    case CancelGivesUp(err) => GiveUpCancel(s, err)
    case CancelWrites(err) => WriteCancel(s, err)
    case CancelMoves => MoveCancel(s)
    case CallNext => CallerNext(s)
  }

  function Run(s: System, schedule: seq<Action>): System
    decreases |schedule|
  {
    if schedule == [] then s else Run(Step(s, schedule[0]), schedule[1..])
  }
}
