/** What the goroutines of a turn must get done. The invariants say what may happen;
    here is what does, move by move, from any state that satisfies them. */
module TurnMoves {
  import opened Channels
  import opened Errors
  import opened Events
  import opened Subscribers
  import opened TurnCore
  import opened TurnRun
  import opened TurnSafety
  import opened TurnReasons

  /** The dispatcher's next move, when the select of Next takes the events. */
  const TAKE := DispatcherMoves(false, false)

  function Moves(s: System, a: Action, n: nat): System
    decreases n
  {
    if n == 0 then s else Moves(Step(s, a), a, n - 1)
  }

  /** A buffered event is handled next, and the rest stays as it is. */
  lemma TheNextEventIsTaken(s: System)
    requires s.dispatcher.Receiving? && s.sub.events.buf != []
    ensures var t := Step(s, TAKE);
            && t.dispatcher == Handling(s.sub.events.buf[0])
            && t.sub.events.buf == s.sub.events.buf[1..]
            && t.turn == s.turn
  {
  }

  /** The fate of a live turn with an event in hand, by the kind of the event: the
      acceptance is recorded, a delivered kind enters the queue if one slot besides
      the reserved one is free and overflows it otherwise, an advisory is dropped,
      turn_done is queued and decides between Completed and Canceled, an error of the
      provider and an event that makes no sense end the turn. */
  lemma EveryEventDoesItsWork(s: System, e: Stamped)
    requires Inv(s) && !s.turn.terminal && s.dispatcher == Handling(e)
    ensures e.event.kind == MessageAccepted ==>
              var t := Moves(s, TAKE, 2);
              t.turn.acceptanceSet && t.turn.acceptanceErr.None? && t.turn.phase.Rank() >= Accepted.Rank() && t.dispatcher.Receiving?
    ensures e.event.decodable && e.event.kind in DELIVERED - {TurnDone} && |s.turn.events.buf| < s.turn.events.cap - 1 ==>
              var t := Step(s, TAKE);
              t.turn == s.turn.(events := s.turn.events.(buf := s.turn.events.buf + [e])) && t.dispatcher.Receiving?
    ensures e.event.decodable && e.event.kind in DELIVERED - {TurnDone} && |s.turn.events.buf| >= s.turn.events.cap - 1 ==>
              var t := Moves(s, TAKE, 2);
              t.turn.terminal && t.turn.result.kind == Overflow && t.turn.events == s.turn.events
    ensures e.event.decodable && e.event.kind in ADVISORY ==>
              var t := Step(s, TAKE); t.turn == s.turn && t.dispatcher.Receiving?
    ensures e.event.decodable && e.event.kind == TurnDone && |s.turn.events.buf| < s.turn.events.cap ==>
              var t := Step(s, TAKE);
              && t.turn.terminal && t.turn.events.buf == s.turn.events.buf + [e]
              && t.turn.result == (if s.turn.cancelRequested then TurnResult(Canceled, Some(Plain(TurnCanceled)))
                                   else TurnResult(Completed, None))
    ensures e.event.kind == ErrorEvent ==>
              var t := Moves(s, TAKE, 2);
              && t.turn.terminal && t.turn.result.kind == ProviderError && t.turn.result.err.Some?
              && t.turn.result.err.value.provider == Some(e.event.payload)
    ensures e.event.kind !in {MessageAccepted, ErrorEvent} && (!e.event.decodable || e.event.kind !in DELIVERED + ADVISORY) ==>
              var t := Moves(s, TAKE, 2);
              t.turn.terminal && t.turn.result.kind == ProtocolError && t.turn.result.err.Some?
              && t.turn.result.err.value.Is(ProtocolFailure)
  {
    EveryEventHasItsFate(e.event);
    var t := Step(s, TAKE);
    assert Moves(s, TAKE, 2) == Step(t, TAKE) by {
      assert Moves(t, TAKE, 1) == Moves(Step(t, TAKE), TAKE, 0);
    }
  }

  /** A closed subscription that has nothing left, or whose error is taken first, ends
      a live turn, and the result tells the cause. */
  lemma AFailedSubscriptionEndsTheTurn(s: System, byErrors: bool, clientClosed: bool, cause: Error)
    requires Inv(s) && !s.turn.terminal && s.dispatcher.Receiving?
    requires s.sub.events.closed && s.sub.err == Some(cause) && (byErrors || s.sub.events.buf == [])
    ensures var t := Moves(s, DispatcherMoves(byErrors, clientClosed), 2);
            t.turn.terminal && TellsFailure(cause, t.turn.result) && t.dispatcher.Unsubscribing?
  {
    var a := DispatcherMoves(byErrors, clientClosed);
    EveryFailureReportsTheCause(s.sub, cause, byErrors, clientClosed);
    TheResultTellsTheFailure(cause);
    var s1 := Step(s, a);
    assert s1.dispatcher == Committing(ResultFromSubscriptionError(cause), SubscriptionFailed(cause));
    var s2 := Step(s1, a);
    assert Moves(s, a, 2) == Moves(s1, a, 1) == Moves(s2, a, 0);
  }

  /** A dispatcher that has committed closes the subscription and then the queue. */
  lemma TheDispatcherCleansUp(s: System, a: Action)
    requires Inv(s) && a.DispatcherMoves? && s.dispatcher.Unsubscribing?
    ensures Step(s, a).sub.events.closed && Step(s, a).turn == s.turn
    ensures Moves(s, a, 2).dispatcher.Exited? && Moves(s, a, 2).turn.events.closed
  {
    var s1 := Step(s, a);
    assert Moves(s, a, 2) == Moves(s1, a, 1) == Moves(Step(s1, a), a, 0);
  }

  /** The end of the lifecycle context ends a live turn with its cause, and the
      watcher closes the subscription. */
  lemma TheLifecycleEndsTheTurn(s: System, deadline: bool, cause: Error)
    requires Inv(s) && !s.turn.terminal && s.watcher.Watching?
    ensures var t := Step(Step(s, LifecycleEnds(deadline, cause)), WatcherMoves);
            && t.turn.terminal
            && t.turn.result == TurnResult(if deadline then LifecycleDeadlineExceeded else LifecycleCanceled, Some(cause))
            && Step(t, WatcherMoves).sub.events.closed && Step(t, WatcherMoves).watcher.WatchExited?
  {
  }

  /** A watcher whose turn has ended leaves. */
  lemma TheWatcherLeaves(s: System)
    requires Inv(s) && s.turn.terminal && s.watcher.Watching?
    ensures Step(s, WatcherMoves).watcher.WatchExited? && Step(s, WatcherMoves).turn == s.turn
  {
  }

  /** A failed first write ends a live turn with a result that tells the failure;
      StartTurn fails, live turn or not, and the subscription is closed. A write that
      succeeds makes StartTurn succeed. */
  lemma AFailedWriteEndsTheTurn(s: System, err: Error)
    requires Inv(s) && s.starter.Writing?
    ensures var t := Step(Step(s, WriteReturns(Some(err))), StarterMoves);
            && t.turn.terminal
            && (s.turn.terminal ==> t.turn == s.turn && t.starter.StartFailed?)
            && (!s.turn.terminal ==>
                  && TellsFailure(err, t.turn.result)
                  && Step(t, StarterMoves).starter.StartFailed? && Step(t, StarterMoves).sub.events.closed)
    ensures var t := Step(Step(s, WriteReturns(None)), StarterMoves);
            t.starter.Started? && t.turn == if s.turn.phase.Starting? then s.turn.(phase := AwaitingAcceptance) else s.turn
  {
    TheResultTellsTheFailure(err);
  }

  /** The reply to the pending cancel request: an OK is shown to a live turn, and any
      reply reaches the request. A reply to anything else changes nothing. */
  lemma TheReplyIsSeenAndHandedOver(s: System, id: nat, body: ReplyBody)
    requires Inv(s) && s.reader.Idle?
    ensures s.pendingCancel == Some(id) ==>
              var t := Moves(Step(s, ReadFrame(Reply(id, body))), ReaderMoves, 2);
              && t.reader.Idle? && t.pendingCancel.None? && t.reply.buf == [body]
              && (body.OkReply? && !s.turn.terminal ==> t.turn.cancelRequested && t.turn.phase.CancelRequested?)
              && (!body.OkReply? || s.turn.terminal ==> t.turn == s.turn)
    ensures s.pendingCancel != Some(id) ==>
              var t := Step(s, ReadFrame(Reply(id, body)));
              t == s.(log := s.log.(wire := s.log.wire + [Reply(id, body)]))
  {
    var s1 := Step(s, ReadFrame(Reply(id, body)));
    var s2 := Step(s1, ReaderMoves);
    assert Moves(s1, ReaderMoves, 2) == Moves(s2, ReaderMoves, 1) == Moves(Step(s2, ReaderMoves), ReaderMoves, 0);
  }

  /** An event from the wire is put into an open subscription that has room. */
  lemma TheEventIsBuffered(s: System, event: Event)
    requires Inv(s) && s.reader.Idle? && !s.sub.events.closed && |s.sub.events.buf| < s.sub.events.cap
    ensures var t := Step(s, ReadFrame(Async(event)));
            t.sub.events.buf == s.sub.events.buf + [Stamped(|s.log.wire|, event)] && !t.sub.events.closed
  {
  }

  /** What Cancel returns: nothing for an OK, the code of an error reply, ErrDisconnected
      if a sweep closed the reply channel. */
  lemma CancelTellsItsReply(s: System)
    requires Inv(s)
    ensures s.canceller.AwaitingReply? && s.reply.buf != [] ==>
              var t := Moves(s, CancelMoves, 2);
              && t.turn.cancelDone.closed
              && (s.reply.buf[0].OkReply? <==> t.turn.cancelErr.None?)
              && (s.reply.buf[0].ErrorReply? ==> t.turn.cancelErr.value.provider == Some(s.reply.buf[0].code))
    ensures s.canceller.AwaitingReply? && s.reply.buf == [] && s.reply.closed ==>
              var t := Moves(s, CancelMoves, 2); t.turn.cancelDone.closed && t.turn.cancelErr == Some(Plain(Disconnected))
    ensures s.pendingCancel.Some? ==> Step(s, SweepPending).reply.closed && Step(s, SweepPending).pendingCancel.None?
  {
    var s1 := Step(s, CancelMoves);
    assert Moves(s, CancelMoves, 2) == Moves(s1, CancelMoves, 1) == Moves(Step(s1, CancelMoves), CancelMoves, 0);
  }

  /** And otherwise it returns what kept the request from being made or answered. */
  lemma CancelTellsItsFailure(s: System, err: Error)
    requires Inv(s)
    ensures s.canceller.Registered? ==>
              var t := Step(Step(s, CancelWrites(Some(err))), CancelMoves);
              t.turn.cancelDone.closed && t.turn.cancelErr == Some(err) && t.pendingCancel.None?
    ensures s.canceller.Requesting? || s.canceller.AwaitingReply? ==>
              var t := Step(Step(s, CancelGivesUp(err)), CancelMoves);
              t.turn.cancelDone.closed && t.turn.cancelErr == Some(err) && t.pendingCancel.None?
  {
  }

  /** Cancel makes its request once, and writes it once it is registered; on a turn
      that has ended it returns nothing at once. */
  lemma CancelIsMade(s: System, id: nat)
    requires Inv(s) && s.starter.Started? && !s.turn.cancelStarted
    ensures s.turn.terminal ==> Step(s, CallCancel).turn.cancelDone.closed && Step(s, CallCancel).turn.cancelErr.None?
    ensures !s.turn.terminal ==>
              var t := Step(Step(Step(s, CallCancel), CancelRegisters(id)), CancelWrites(None));
              && t.canceller == AwaitingReply(id) && t.pendingCancel == Some(id)
              && t.log.cancelWrites == s.log.cancelWrites + 1 && !t.turn.cancelDone.closed
  {
  }
}
