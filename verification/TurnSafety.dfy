/** Terminal results: the first commit wins, nothing panics, and what a turn has
    decided it never takes back, in every run. */
module TurnSafety {
  import opened Channels
  import opened Errors
  import opened Events
  import opened Subscribers
  import opened TurnCore
  import opened TurnRun

  /** The dispatcher has left its loop for good. */
  predicate Leaving(d: Dispatcher) {
    d.Unsubscribing? || d.ClosingEvents? || d.Exited?
  }

  ghost predicate TurnInv(s: System) {
    && s.turn.Sound()
    && !s.turn.events.faulted && !s.turn.cancelDone.faulted
    && (Leaving(s.dispatcher) ==> s.turn.terminal)
    && (s.turn.events.closed <==> s.dispatcher.Exited?)
    && (s.dispatcher.Committing? ==> FromOutside(s.dispatcher.result))
    && (s.watcher.WatchCommitting? ==> FromOutside(s.watcher.result))
    && (s.starter.StartFailing? ==> FromOutside(s.starter.result))
    && s.log.commits == (if s.turn.terminal then 1 else 0)
    && (s.log.accepted ==> s.turn.acceptanceSet && s.turn.acceptanceErr.None?)
    && (s.turn.acceptanceSet && !s.log.accepted ==> s.turn.terminal && s.turn.acceptanceErr == s.turn.result.err)
    && (s.starter.Started? ==> s.turn.phase.Rank() >= 1)
    && (s.log.accepted && !s.dispatcher.MarkingAccepted? ==> s.turn.phase.Rank() >= 2)
  }

  ghost predicate SubInv(s: System) {
    && s.sub.Sound()
    && (s.turn.terminal ==>
          s.sub.events.closed || s.dispatcher.Unsubscribing? || s.watcher.WatchUnsubscribing? || s.starter.StartUnsubscribing?)
  }

  ghost predicate CancelInv(s: System) {
    && s.reply.cap == 1 && !s.reply.faulted
    && (s.turn.cancelDone.closed <==> s.canceller.Finished? || (s.turn.cancelStarted && s.canceller.NoCancel?))
    && (!s.turn.cancelStarted ==> s.canceller.NoCancel?)
    && s.turn.cancelErr == (if s.canceller.Finished? then s.canceller.err else None)
    && (s.canceller.NoCancel? || s.canceller.Requesting? ==>
          s.pendingCancel.None? && s.reader.Idle? && s.reply.buf == [] && !s.reply.closed)
    && (s.pendingCancel.Some? ==>
          && (s.canceller.Registered? || s.canceller.AwaitingReply?)
          && s.reader.Idle? && s.reply.buf == [] && !s.reply.closed)
    && (!s.reader.Idle? ==> s.reply.buf == [] && !s.reply.closed)
    && s.log.cancelWrites <= (if s.canceller.NoCancel? || s.canceller.Requesting? || s.canceller.Registered? then 0 else 1)
  }

  /** A lifecycle result has the kind and the cause of the end of the lifecycle
      context; the other kinds have what the table asks of them. */
  predicate Reported(ended: Option<LifecycleEnd>, r: TurnResult) {
    && Documented(r)
    && (LifecycleKind(r.kind) ==>
          && ended.Some?
          && r.kind == (if ended.value.deadline then LifecycleDeadlineExceeded else LifecycleCanceled)
          && r.err == Some(ended.value.cause))
  }

  /** Every result that is stored, or about to be, matches the documented table. */
  ghost predicate ReportInv(s: System) {
    && (s.turn.terminal ==> Reported(s.log.ended, s.turn.result))
    && (s.dispatcher.Committing? ==> Reported(s.log.ended, s.dispatcher.result) && !LifecycleKind(s.dispatcher.result.kind))
    && (s.watcher.WatchCommitting? ==> Reported(s.log.ended, s.watcher.result))
    && (s.starter.StartFailing? ==> Reported(s.log.ended, s.starter.result) && !LifecycleKind(s.starter.result.kind))
    && (s.watcher.Watching? ==> s.log.ended.None?)
  }

  lemma DispatcherKeepsReports(s: System, byErrors: bool, clientClosed: bool)
    requires ReportInv(s)
    ensures ReportInv(MoveDispatcher(s, byErrors, clientClosed))
  {
    match s.dispatcher
    case Receiving =>
      var outcome := s.sub.Next(byErrors, clientClosed).1;
      if outcome.Failed? {
        SubscriptionErrorsAreDocumented(outcome.err);
      }
    case Handling(e) => VisibleMeansClassified(e.event);
    case _ =>
  }

  lemma ReportStep(s: System, a: Action)
    requires ReportInv(s)
    ensures ReportInv(Step(s, a))
  {
    match a
    case DispatcherMoves(byErrors, clientClosed) => DispatcherKeepsReports(s, byErrors, clientClosed);
    case WriteReturns(Some(err)) => SubscriptionErrorsAreDocumented(err);
    case _ =>
  }

  lemma DispatcherKeepsSub(s: System, byErrors: bool, clientClosed: bool)
    requires SubInv(s)
    ensures SubInv(MoveDispatcher(s, byErrors, clientClosed))
  {
    OperationsKeepSound(s.sub, None, Stamped(0, Event(TurnDone, true, "")), byErrors, clientClosed);
  }

  lemma OthersKeepSub(s: System, a: Action)
    requires SubInv(s) && !a.ReadFrame? && !a.DispatcherMoves?
    ensures SubInv(Step(s, a))
  {
  }

  lemma SubStep(s: System, a: Action)
    requires SubInv(s)
    ensures SubInv(Step(s, a))
  {
    match a
    case ReadFrame(f) =>
      if f.Async? {
        OperationsKeepSound(s.sub, None, Stamped(|s.log.wire|, f.event), false, false);
      }
    case DispatcherMoves(byErrors, clientClosed) => DispatcherKeepsSub(s, byErrors, clientClosed);
    case _ => OthersKeepSub(s, a);
  }

  lemma ReaderKeepsCancel(s: System, a: Action)
    requires CancelInv(s) && (a.ReadFrame? || a.ReaderMoves? || a.SweepPending?)
    ensures CancelInv(Step(s, a))
  {
  }

  lemma CancellerKeepsCancel(s: System, a: Action)
    requires CancelInv(s)
    requires a.CallCancel? || a.CancelRegisters? || a.CancelGivesUp? || a.CancelWrites? || a.CancelMoves?
    ensures CancelInv(Step(s, a))
  {
  }

  lemma DispatcherKeepsCancel(s: System, byErrors: bool, clientClosed: bool)
    requires CancelInv(s)
    ensures CancelInv(MoveDispatcher(s, byErrors, clientClosed))
  {
    match s.dispatcher
    case Receiving => SameCancelKeepsCancel(s, Receive(s, byErrors, clientClosed));
    case Handling(e) => HandleKeepsCancel(s, e);
    case Committing(r, why) =>
      var t := MoveDispatcher(s, byErrors, clientClosed);
      assert SameCancel(s, Commit(s, r, why));
      SameCancelKeepsCancel(s, t);
    case _ => SameCancelKeepsCancel(s, MoveDispatcher(s, byErrors, clientClosed));
  }

  /** Nothing that concerns the cancel request has changed. */
  ghost predicate SameCancel(s: System, t: System) {
    && t.canceller == s.canceller && t.pendingCancel == s.pendingCancel && t.reply == s.reply && t.reader == s.reader
    && t.turn.cancelStarted == s.turn.cancelStarted && t.turn.cancelDone == s.turn.cancelDone
    && t.turn.cancelErr == s.turn.cancelErr && t.log.cancelWrites == s.log.cancelWrites
  }

  lemma SameCancelKeepsCancel(s: System, t: System)
    requires CancelInv(s) && SameCancel(s, t)
    ensures CancelInv(t)
  {
  }

  lemma HandleKeepsCancel(s: System, e: Stamped)
    requires CancelInv(s)
    ensures CancelInv(Handle(s, e))
  {
    assert SameCancel(s, Handle(s, e));
    SameCancelKeepsCancel(s, Handle(s, e));
  }

  lemma CommitsKeepCancel(s: System, a: Action)
    requires CancelInv(s) && (a.WatcherMoves? || a.StarterMoves?)
    ensures CancelInv(Step(s, a))
  {
  }

  lemma CancelStep(s: System, a: Action)
    requires CancelInv(s)
    ensures CancelInv(Step(s, a))
  {
    if a.ReadFrame? || a.ReaderMoves? || a.SweepPending? {
      ReaderKeepsCancel(s, a);
    } else if a.DispatcherMoves? {
      DispatcherKeepsCancel(s, a.byErrors, a.clientClosed);
    } else if a.WatcherMoves? || a.StarterMoves? {
      CommitsKeepCancel(s, a);
    } else if a.CallCancel? || a.CancelRegisters? || a.CancelGivesUp? || a.CancelWrites? || a.CancelMoves? {
      CancellerKeepsCancel(s, a);
    }
  }

  lemma HandleKeepsTurn(s: System, e: Stamped)
    requires TurnInv(s) && s.dispatcher == Handling(e)
    ensures TurnInv(Handle(s, e)) && Extends(s.turn, Handle(s, e).turn)
  {
    VisibleMeansClassified(e.event);
    QueueSectionsKeepSound(s.turn, e);
    if DispositionOf(e.event).Finish? {
      FinishingKeepsTurn(s, e);
    }
  }

  lemma FinishingKeepsTurn(s: System, e: Stamped)
    requires TurnInv(s) && s.dispatcher == Handling(e) && DispositionOf(e.event).Finish?
    ensures TurnInv(Handle(s, e)) && Extends(s.turn, Handle(s, e).turn)
  {
    QueueSectionsKeepSound(s.turn, e);
  }

  lemma ReceiveKeepsTurn(s: System, byErrors: bool, clientClosed: bool)
    requires TurnInv(s) && s.dispatcher.Receiving?
    ensures TurnInv(Receive(s, byErrors, clientClosed)) && Receive(s, byErrors, clientClosed).turn == s.turn
  {
    var outcome := s.sub.Next(byErrors, clientClosed).1;
    if outcome.Failed? {
      SubscriptionErrorsAreDocumented(outcome.err);
    }
  }

  /** A commit by one goroutine keeps everything the others rely on. */
  lemma CommitKeepsTurn(s: System, r: TurnResult, why: Reason)
    requires TurnInv(s) && FromOutside(r)
    ensures var t := Commit(s, r, why); TurnInv(t) && Extends(s.turn, t.turn) && t.turn.terminal
  {
  }

  lemma DispatcherKeepsTurn(s: System, byErrors: bool, clientClosed: bool)
    requires TurnInv(s)
    ensures TurnInv(MoveDispatcher(s, byErrors, clientClosed))
    ensures Extends(s.turn, MoveDispatcher(s, byErrors, clientClosed).turn)
  {
    match s.dispatcher
    case Receiving => ReceiveKeepsTurn(s, byErrors, clientClosed);
    case Handling(e) => HandleKeepsTurn(s, e);
    case Committing(r, why) => CommitKeepsTurn(s, r, why);
    case _ =>
  }

  lemma WatcherKeepsTurn(s: System, a: Action)
    requires TurnInv(s) && (a.WatcherMoves? || a.LifecycleEnds?)
    ensures TurnInv(Step(s, a)) && Extends(s.turn, Step(s, a).turn)
  {
    if s.watcher.WatchCommitting? {
      CommitKeepsTurn(s, s.watcher.result, s.watcher.why);
    }
  }

  lemma StarterKeepsTurn(s: System, a: Action)
    requires TurnInv(s) && (a.StarterMoves? || a.WriteReturns?)
    ensures TurnInv(Step(s, a)) && Extends(s.turn, Step(s, a).turn)
  {
    if s.starter.StartFailing? {
      CommitKeepsTurn(s, s.starter.result, s.starter.why);
    } else if a.WriteReturns? && a.err.Some? {
      SubscriptionErrorsAreDocumented(a.err.value);
    }
  }

  /** The steps that do not take the turn's mutex. */
  predicate Quiet(a: Action) {
    || a.ReadFrame? || a.SweepPending? || a.CloseSubscription?
    || a.CancelRegisters? || a.CancelGivesUp? || a.CancelWrites?
  }

  lemma QuietStepsKeepTurn(s: System, a: Action)
    requires TurnInv(s) && Quiet(a)
    ensures TurnInv(Step(s, a)) && Step(s, a).turn == s.turn
  {
  }

  lemma ReaderMovesKeepTurn(s: System)
    requires TurnInv(s)
    ensures TurnInv(MoveReader(s)) && Extends(s.turn, MoveReader(s).turn)
  {
    if s.reader.Observing? {
      ObserverKeepsSound(s.turn, s.reader.body);
    }
  }

  lemma CallersKeepTurn(s: System)
    requires TurnInv(s)
    ensures TurnInv(CallerNext(s)) && Extends(s.turn, CallerNext(s).turn)
  {
  }

  lemma CallCancelKeepsTurn(s: System)
    requires TurnInv(s) && CancelInv(s)
    ensures TurnInv(BeginCancel(s)) && Extends(s.turn, BeginCancel(s).turn)
  {
    var t := BeginCancel(s);
    assert t.turn == s.turn.(cancelStarted := t.turn.cancelStarted, cancelDone := t.turn.cancelDone);
    assert t.log == s.log && t.dispatcher == s.dispatcher && t.watcher == s.watcher && t.starter == s.starter;
  }

  lemma CancelMovesKeepsTurn(s: System)
    requires TurnInv(s) && CancelInv(s)
    ensures TurnInv(MoveCancel(s)) && Extends(s.turn, MoveCancel(s).turn)
  {
    var t := MoveCancel(s);
    if s.canceller.Finishing? {
      assert !s.turn.cancelDone.closed;
      FinishCancelKeepsTurn(s, t, s.canceller.err);
    } else {
      assert t == s.(canceller := t.canceller, reply := t.reply);
    }
  }

  lemma FinishCancelKeepsTurn(s: System, t: System, err: Option<Error>)
    requires TurnInv(s) && !s.turn.cancelDone.closed
    requires t == s.(turn := s.turn.FinishCancel(err), canceller := t.canceller)
    ensures TurnInv(t) && Extends(s.turn, t.turn)
  {
    CallersKeepSound(s.turn, err, false);
  }

  lemma TurnStep(s: System, a: Action)
    requires TurnInv(s) && CancelInv(s)
    ensures TurnInv(Step(s, a))
    ensures Extends(s.turn, Step(s, a).turn)
  {
    match a
    case DispatcherMoves(byErrors, clientClosed) => DispatcherKeepsTurn(s, byErrors, clientClosed);
    case WatcherMoves | LifecycleEnds(_, _) => WatcherKeepsTurn(s, a);
    case StarterMoves | WriteReturns(_) => StarterKeepsTurn(s, a);
    case ReaderMoves => ReaderMovesKeepTurn(s);
    case CallNext => CallersKeepTurn(s);
    case CallCancel => CallCancelKeepsTurn(s);
    case CancelMoves => CancelMovesKeepsTurn(s);
    case _ => QuietStepsKeepTurn(s, a);
  }

  ghost predicate Inv(s: System) {
    TurnInv(s) && SubInv(s) && CancelInv(s) && ReportInv(s)
  }

  lemma StepKeepsInv(s: System, a: Action)
    requires Inv(s)
    ensures Inv(Step(s, a)) && Extends(s.turn, Step(s, a).turn)
  {
    TurnStep(s, a);
    SubStep(s, a);
    CancelStep(s, a);
    ReportStep(s, a);
  }

  lemma BeginInv(eventBuffer: nat, clientClosed: bool)
    ensures Inv(Begin(eventBuffer, clientClosed))
  {
  }

  lemma {:induction false} RunKeepsInv(s: System, schedule: seq<Action>)
    requires Inv(s)
    ensures Inv(Run(s, schedule)) && Extends(s.turn, Run(s, schedule).turn)
    decreases |schedule|
  {
    if schedule == [] {
    } else {
      StepKeepsInv(s, schedule[0]);
      RunKeepsInv(Step(s, schedule[0]), schedule[1..]);
    }
  }

  lemma {:induction false} RunAppend(s: System, before: seq<Action>, after: seq<Action>)
    ensures Run(s, before + after) == Run(Run(s, before), after)
    decreases |before|
  {
    if before == [] {
      assert before + after == after;
    } else {
      assert (before + after)[0] == before[0] && (before + after)[1..] == before[1..] + after;
      RunAppend(Step(s, before[0]), before[1..], after);
    }
  }

  /** The contract of a turn in every interleaving: no channel is ever sent to
      after its closure, closed twice or sent to with nobody to make room; there
      is at most one terminal commit, its result matches the documented table, and
      it decides acceptance unless message_accepted already had; a turn is Completed
      only if no cancellation was acknowledged and Canceled only if one was; and at
      most one cancel request is written. */
  lemma {:induction false} TurnContract(eventBuffer: nat, clientClosed: bool, schedule: seq<Action>)
    ensures var s := Run(Begin(eventBuffer, clientClosed), schedule);
            && !s.turn.Faulted() && !s.sub.Faulted() && !s.reply.faulted
            && (s.turn.terminal <==> s.turn.phase.Terminal?)
            && (s.turn.terminal <==> s.turn.terminalDone.closed)
            && (s.turn.acceptanceSet <==> s.turn.acceptedDone.closed)
            && s.log.commits == (if s.turn.terminal then 1 else 0)
            && (s.turn.terminal ==>
                  && Reported(s.log.ended, s.turn.result)
                  && s.turn.acceptanceSet
                  && s.turn.acceptanceErr == (if s.log.accepted then None else s.turn.result.err)
                  && (s.turn.result.kind.Completed? ==> !s.turn.cancelRequested)
                  && (s.turn.result.kind.Canceled? ==> s.turn.cancelRequested))
            && (s.turn.events.closed ==> s.turn.terminal)
            && (s.canceller.Finished? ==> s.turn.cancelDone.closed && s.turn.cancelErr == s.canceller.err)
            && s.log.cancelWrites <= 1
  {
    BeginInv(eventBuffer, clientClosed);
    RunKeepsInv(Begin(eventBuffer, clientClosed), schedule);
  }

  /** Whatever a run has decided, every continuation of it leaves alone: the
      result, the acceptance, each closed channel, and how far the phase got. */
  lemma {:induction false} DecisionsAreFinal(eventBuffer: nat, clientClosed: bool, before: seq<Action>, after: seq<Action>)
    ensures Extends(Run(Begin(eventBuffer, clientClosed), before).turn,
                    Run(Begin(eventBuffer, clientClosed), before + after).turn)
  {
    var s := Begin(eventBuffer, clientClosed);
    BeginInv(eventBuffer, clientClosed);
    RunKeepsInv(s, before);
    RunKeepsInv(Run(s, before), after);
    RunAppend(s, before, after);
  }

  /** A caller who saw StartTurn succeed is past `starting`; once the dispatcher
      is done with message_accepted the turn is accepted or further. */
  lemma {:induction false} PhaseKeepsUp(eventBuffer: nat, clientClosed: bool, schedule: seq<Action>)
    ensures var s := Run(Begin(eventBuffer, clientClosed), schedule);
            && (s.starter.Started? ==> !s.turn.phase.Starting?)
            && (s.log.accepted && !s.dispatcher.MarkingAccepted? ==> s.turn.phase.Rank() >= Accepted.Rank())
            && (s.turn.cancelRequested ==> s.turn.phase.Rank() >= CancelRequested.Rank())
  {
    BeginInv(eventBuffer, clientClosed);
    RunKeepsInv(Begin(eventBuffer, clientClosed), schedule);
  }
}
