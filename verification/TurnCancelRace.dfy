/** Cancellation against completion: which of the two wins is decided by their
    order on the wire, not by the scheduler. */
module TurnCancelRace {
  import opened Channels
  import opened Events
  import opened TurnCore
  import opened TurnRun
  import opened TurnSafety
  import opened TurnOrder

  /** The reader holds the acknowledgement and has not shown it to the turn yet. */
  predicate Unseen(s: System) {
    s.reader == Observing(OkReply)
  }

  ghost predicate AckInv(s: System) {
    && (s.log.okAt.Some? ==>
          && s.log.okAt.value < |s.log.wire|
          && s.log.wire[s.log.okAt.value].Reply? && s.log.wire[s.log.okAt.value].body.OkReply?
          && s.pendingCancel.None? && !s.canceller.NoCancel? && !s.canceller.Requesting?)
    && (Unseen(s) ==> s.log.okAt.Some? && s.log.okAt.value == |s.log.wire| - 1)
    && (s.log.okAt.Some? && !Unseen(s) ==> s.turn.cancelRequested || s.turn.terminal)
    && (s.turn.cancelRequested ==> s.log.okAt.Some?)
  }

  ghost predicate RaceInv(s: System) {
    && (s.log.doneFrom.Some? ==> s.turn.terminal && !FromOutside(s.turn.result))
    && (s.turn.terminal && !FromOutside(s.turn.result) ==> s.log.doneFrom.Some?)
    && (s.log.doneFrom.Some? ==>
          s.log.doneFrom.value < |s.log.wire| && s.log.wire[s.log.doneFrom.value].Async?)
    && (s.log.doneFrom.Some? && s.log.okAt.Some? && s.log.okAt.value < s.log.doneFrom.value ==>
          s.turn.result.kind.Canceled?)
  }

  lemma {:induction false} AsyncOfPositions(wire: seq<Frame>, e: Stamped)
    requires e in AsyncOf(wire)
    ensures e.pos < |wire| && wire[e.pos] == Async(e.event)
  {
    var n := |wire| - 1;
    if e !in AsyncOf(wire[..n]) {
    } else {
      AsyncOfPositions(wire[..n], e);
    }
  }

  lemma AckStep(s: System, a: Action)
    requires AckInv(s) && CancelInv(s)
    ensures AckInv(Step(s, a))
  {
    match a
    case ReadFrame(f) => assert AckInv(Read(s, f));
    case ReaderMoves => assert AckInv(MoveReader(s));
    case DispatcherMoves(byErrors, clientClosed) => DispatcherKeepsAcks(s, byErrors, clientClosed);
    case _ => OthersKeepAcks(s, a);
  }

  /** Nothing that an acknowledgement depends on has changed. */
  ghost predicate SameAck(s: System, t: System) {
    && t.log.okAt == s.log.okAt && t.log.wire == s.log.wire && t.reader == s.reader
    && t.turn.cancelRequested == s.turn.cancelRequested && (s.turn.terminal ==> t.turn.terminal)
    && (s.pendingCancel.None? && !s.canceller.NoCancel? && !s.canceller.Requesting? ==>
          t.pendingCancel.None? && !t.canceller.NoCancel? && !t.canceller.Requesting?)
  }

  lemma DispatcherKeepsAcks(s: System, byErrors: bool, clientClosed: bool)
    ensures SameAck(s, MoveDispatcher(s, byErrors, clientClosed))
  {
    match s.dispatcher
    case Receiving => assert SameAck(s, Receive(s, byErrors, clientClosed));
    case Handling(e) => assert SameAck(s, Handle(s, e));
    case _ =>
  }

  lemma OthersKeepAcks(s: System, a: Action)
    requires !a.ReadFrame? && !a.ReaderMoves? && !a.DispatcherMoves? && CancelInv(s)
    ensures SameAck(s, Step(s, a))
  {
  }

  /** The moment of decision: a turn_done later on the wire than the
      acknowledgement is handled only after the turn has seen the latter. */
  lemma {:induction false} FinishKeepsRace(s: System, e: Stamped)
    requires RaceInv(s) && AckInv(s) && StreamInv(s) && QueueInv(s) && Inv(s)
    requires s.dispatcher == Handling(e) && IsTurnDone(e)
    ensures RaceInv(Handle(s, e))
  {
    FinishKeepsQueue(s, e);
    assert e in Published(s) by {
      assert s.log.consumed[|s.log.consumed|-1] in Published(s);
    }
    AsyncOfPositions(s.log.wire, e);
    if !s.turn.terminal && Unseen(s) {
      assert e.pos != s.log.okAt.value;
    }
  }

  ghost predicate SameDecision(s: System, t: System) {
    && t.log.doneFrom == s.log.doneFrom && s.log.wire <= t.log.wire
    && (t.log.okAt == s.log.okAt || (s.log.okAt.None? && t.log.okAt == Some(|s.log.wire|)))
    && (s.turn.terminal ==> t.turn.terminal && t.turn.result == s.turn.result)
    && (!s.turn.terminal && t.turn.terminal ==> FromOutside(t.turn.result))
  }

  lemma SameDecisionKeepsRace(s: System, t: System)
    requires RaceInv(s) && SameDecision(s, t)
    ensures RaceInv(t)
  {
  }

  lemma DispatcherDecidesOnlyByTurnDone(s: System, byErrors: bool, clientClosed: bool)
    requires TurnInv(s) && !(s.dispatcher.Handling? && IsTurnDone(s.dispatcher.e))
    ensures SameDecision(s, MoveDispatcher(s, byErrors, clientClosed))
  {
    match s.dispatcher
    case Receiving => assert SameDecision(s, Receive(s, byErrors, clientClosed));
    case Handling(e) => assert SameDecision(s, Handle(s, e));
    case _ =>
  }

  lemma WatcherAndStarterDecideFromOutside(s: System, a: Action)
    requires TurnInv(s) && (a.WatcherMoves? || a.StarterMoves?)
    ensures SameDecision(s, Step(s, a))
  {
  }

  lemma OthersDoNotDecide(s: System, a: Action)
    requires !a.DispatcherMoves? && !a.WatcherMoves? && !a.StarterMoves? && !a.ReadFrame?
    ensures SameDecision(s, Step(s, a))
  {
  }

  lemma ReadingDoesNotDecide(s: System, f: Frame)
    requires AckInv(s)
    ensures SameDecision(s, Read(s, f))
  {
  }

  lemma RaceStep(s: System, a: Action)
    requires RaceInv(s) && AckInv(s) && StreamInv(s) && QueueInv(s) && Inv(s)
    ensures RaceInv(Step(s, a)) && AckInv(Step(s, a))
  {
    AckStep(s, a);
    if a.DispatcherMoves? && s.dispatcher.Handling? && IsTurnDone(s.dispatcher.e) {
      FinishKeepsRace(s, s.dispatcher.e);
    } else {
      if a.DispatcherMoves? {
        DispatcherDecidesOnlyByTurnDone(s, a.byErrors, a.clientClosed);
      } else if a.WatcherMoves? || a.StarterMoves? {
        WatcherAndStarterDecideFromOutside(s, a);
      } else if a.ReadFrame? {
        ReadingDoesNotDecide(s, a.frame);
      } else {
        OthersDoNotDecide(s, a);
      }
      SameDecisionKeepsRace(s, Step(s, a));
    }
  }

  lemma {:induction false} RunKeepsRace(s: System, schedule: seq<Action>)
    requires RaceInv(s) && AckInv(s) && StreamInv(s) && QueueInv(s) && Inv(s)
    ensures var s' := Run(s, schedule);
            RaceInv(s') && AckInv(s') && StreamInv(s') && QueueInv(s') && Inv(s')
    decreases |schedule|
  {
    if schedule == [] {
    } else {
      StepKeepsInv(s, schedule[0]);
      StreamStep(s, schedule[0]);
      QueueStep(s, schedule[0]);
      RaceStep(s, schedule[0]);
      RunKeepsRace(Step(s, schedule[0]), schedule[1..]);
    }
  }

  // ---- what Cancel may call a success --------------------------------------

  /** An OK on its way to the caller of Cancel was read from the wire. */
  ghost predicate OkInv(s: System) {
    && (s.reader == Observing(OkReply) || s.reader == Handing(OkReply) ==> s.log.okAt.Some?)
    && (OkReply in s.reply.buf ==> s.log.okAt.Some?)
    && (s.canceller == Finishing(None) || s.canceller == Finished(None) ==> s.log.okAt.Some?)
  }

  lemma OkStep(s: System, a: Action)
    requires CancelInv(s) && OkInv(s)
    ensures OkInv(Step(s, a))
  {
    if a.DispatcherMoves? {
      DispatcherKeepsAcks(s, a.byErrors, a.clientClosed);
      DispatcherLeavesCanceller(s, a.byErrors, a.clientClosed);
    }
  }

  lemma DispatcherLeavesCanceller(s: System, byErrors: bool, clientClosed: bool)
    ensures var t := MoveDispatcher(s, byErrors, clientClosed); t.canceller == s.canceller && t.reply == s.reply
  {
    match s.dispatcher
    case Receiving => assert Receive(s, byErrors, clientClosed).reply == s.reply;
    case Handling(e) => assert Handle(s, e).reply == s.reply;
    case _ =>
  }

  lemma {:induction false} RunKeepsOk(s: System, schedule: seq<Action>)
    requires Inv(s) && OkInv(s)
    ensures Inv(Run(s, schedule)) && OkInv(Run(s, schedule))
    decreases |schedule|
  {
    if schedule == [] {
    } else {
      StepKeepsInv(s, schedule[0]);
      OkStep(s, schedule[0]);
      RunKeepsOk(Step(s, schedule[0]), schedule[1..]);
    }
  }

  /** A Cancel whose request was made returns nothing only if an OK to that request
      was read. */
  lemma {:induction false} CancelSucceedsOnlyOnOk(eventBuffer: nat, clientClosed: bool, schedule: seq<Action>)
    ensures var s := Run(Begin(eventBuffer, clientClosed), schedule);
            s.turn.cancelDone.closed && s.turn.cancelErr.None? && !s.canceller.NoCancel? ==>
              && s.log.okAt.Some?
              && s.log.okAt.value < |s.log.wire| && s.log.wire[s.log.okAt.value].Reply?
              && s.log.wire[s.log.okAt.value].body.OkReply?
  {
    BeginInv(eventBuffer, clientClosed);
    RunKeepsOk(Begin(eventBuffer, clientClosed), schedule);
    WireOrderDecides(eventBuffer, clientClosed, schedule);
  }

  /** If the acknowledgement of the still pending cancel request is on the wire
      before the turn_done the result comes from, the turn is Canceled under
      every schedule; and a turn is Canceled only if there was such an
      acknowledgement. So a Completed turn whose cancellation was acknowledged
      saw its turn_done first. */
  lemma {:induction false} WireOrderDecides(eventBuffer: nat, clientClosed: bool, schedule: seq<Action>)
    ensures var s := Run(Begin(eventBuffer, clientClosed), schedule);
            && (s.log.doneFrom.Some? <==>
                  s.turn.terminal && (s.turn.result.kind.Completed? || s.turn.result.kind.Canceled?))
            && (s.log.doneFrom.Some? && s.log.okAt.Some? && s.log.okAt.value < s.log.doneFrom.value ==>
                  s.turn.result.kind.Canceled?)
            && (s.turn.terminal && s.turn.result.kind.Canceled? ==> s.log.okAt.Some?)
            && (s.turn.terminal && s.turn.result.kind.Completed? && s.log.okAt.Some? ==>
                  s.log.doneFrom.value < s.log.okAt.value)
            && (s.log.okAt.Some? ==>
                  s.log.okAt.value < |s.log.wire| && s.log.wire[s.log.okAt.value].Reply?
                  && s.log.wire[s.log.okAt.value].body.OkReply?)
  {
    BeginOrder(eventBuffer, clientClosed);
    RunKeepsRace(Begin(eventBuffer, clientClosed), schedule);
  }
}
