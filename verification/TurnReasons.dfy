/** Why a turn ended: the stored result tells what its producer met, and that is
    what happened. */
module TurnReasons {
  import opened Channels
  import opened Errors
  import opened Events
  import opened Subscribers
  import opened TurnCore
  import opened TurnRun
  import opened TurnSafety
  import opened TurnOrder

  /** The result says what the reason is. */
  predicate Tells(why: Reason, r: TurnResult) {
    match why
    case SubscriptionFailed(err) => TellsFailure(err, r)
    case WriteFailed(err) => TellsFailure(err, r)
    case LifecycleEnded(end) =>
      && r.kind == (if end.deadline then LifecycleDeadlineExceeded else LifecycleCanceled)
      && r.err == Some(end.cause)
    case EventRejected(e) =>
      if e.event.kind == ErrorEvent
      then r.kind.ProviderError? && r.err.Some? && r.err.value.provider == Some(e.event.payload)
      else
        && r.kind.ProtocolError? && r.err.Some? && r.err.value.Is(ProtocolFailure) && r.err.value.compatibility
        && !(e.event.decodable && e.event.kind in DELIVERED + ADVISORY)
    case QueueFull(e) =>
      && r.kind.Overflow? && r.err.Some? && r.err.value.Is(SubscriberOverflow)
      && e.event.decodable && e.event.kind in DELIVERED
    case DoneReceived(e) =>
      && e.event.decodable && e.event.kind == TurnDone
      && (r.kind.Completed? || r.kind.Canceled?)
  }

  /** The reason is what happened. A subscription that was closed for a cause failed
      with that cause. */
  ghost predicate Happened(s: System, why: Reason) {
    match why
    case SubscriptionFailed(err) => s.sub.events.closed && (s.sub.err.Some? ==> err == s.sub.err.value)
    case WriteFailed(err) => WriteHasFailed(s.starter)
    case LifecycleEnded(end) => s.log.ended == Some(end)
    case EventRejected(e) => e in s.log.consumed
    case QueueFull(e) => e in s.log.consumed
    case DoneReceived(e) => e in s.log.consumed && s.log.doneFrom == Some(e.pos)
  }

  ghost predicate Founded(s: System, why: Reason, r: TurnResult) {
    Tells(why, r) && Happened(s, why)
  }

  ghost predicate WhyInv(s: System) {
    && (s.turn.terminal <==> s.log.why.Some?)
    && (s.log.why.Some? ==> Founded(s, s.log.why.value, s.turn.result))
    && (s.dispatcher.Committing? ==> Founded(s, s.dispatcher.why, s.dispatcher.result))
    && (s.watcher.WatchCommitting? ==> Founded(s, s.watcher.why, s.watcher.result))
    && (s.starter.StartFailing? ==> Founded(s, s.starter.why, s.starter.result))
  }

  /** What has happened stays so. */
  ghost predicate StillHappened(s: System, t: System) {
    ClosureStays(s.sub, t.sub) && RecordStays(s.log, t.log) && FailureStays(s.starter, t.starter)
  }

  predicate ClosureStays(s: Subscriber<Stamped>, t: Subscriber<Stamped>) {
    s.events.closed ==> t.events.closed && t.err == s.err
  }

  predicate RecordStays(s: Log, t: Log) {
    && (s.ended.Some? ==> t.ended == s.ended)
    && s.consumed <= t.consumed
    && (s.doneFrom.Some? ==> t.doneFrom == s.doneFrom)
  }

  predicate WriteHasFailed(s: Starter) {
    s.StartFailing? || s.StartUnsubscribing? || s.StartFailed?
  }

  predicate FailureStays(s: Starter, t: Starter) {
    WriteHasFailed(s) ==> WriteHasFailed(t)
  }

  lemma FoundedStays(s: System, t: System, why: Reason, r: TurnResult)
    requires Founded(s, why, r) && StillHappened(s, t)
    ensures Founded(t, why, r)
  {
  }

  lemma ClosedSubscriptionsKeepTheirCause(sub: Subscriber<Stamped>, cause: Option<Error>, e: Stamped, byErrors: bool, clientClosed: bool)
    requires sub.Sound() && sub.events.closed
    ensures sub.Sweep(cause) == sub && sub.Deliver(e) == sub
    ensures var t := sub.Next(byErrors, clientClosed).0; t.events.closed && t.err == sub.err
  {
  }

  lemma HandleKeepsRecord(s: System, e: Stamped)
    requires QueueInv(s) && s.dispatcher == Handling(e)
    ensures RecordStays(s.log, Handle(s, e).log) && Handle(s, e).sub == s.sub && Handle(s, e).starter == s.starter
    ensures Handle(s, e).watcher == s.watcher
  {
  }

  lemma ReceiveKeepsRecord(s: System, byErrors: bool, clientClosed: bool)
    requires Inv(s) && s.dispatcher.Receiving?
    ensures StillHappened(s, Receive(s, byErrors, clientClosed))
    ensures Receive(s, byErrors, clientClosed).starter == s.starter && Receive(s, byErrors, clientClosed).watcher == s.watcher
  {
    if s.sub.events.closed {
      ClosedSubscriptionsKeepTheirCause(s.sub, None, Stamped(0, Event(TurnDone, true, "")), byErrors, clientClosed);
    }
  }

  lemma UnsubscribeKeepsClosure(sub: Subscriber<Stamped>, cause: Option<Error>)
    requires sub.Sound()
    ensures ClosureStays(sub, sub.Sweep(cause))
  {
  }

  lemma ReaderStillHappened(s: System, f: Frame)
    requires Inv(s)
    ensures StillHappened(s, Read(s, f))
  {
    if f.Async? && s.sub.events.closed {
      ClosedSubscriptionsKeepTheirCause(s.sub, None, Stamped(|s.log.wire|, f.event), false, false);
    }
  }

  lemma StarterStillHappened(s: System, a: Action)
    requires Inv(s) && (a.StarterMoves? || a.WriteReturns?)
    ensures StillHappened(s, Step(s, a))
  {
    UnsubscribeKeepsClosure(s.sub, None);
    assert Step(s, a).log.ended == s.log.ended && Step(s, a).log.consumed == s.log.consumed;
    assert Step(s, a).log.doneFrom == s.log.doneFrom;
  }

  lemma WatcherStillHappened(s: System, a: Action)
    requires Inv(s) && (a.WatcherMoves? || a.LifecycleEnds?)
    ensures StillHappened(s, Step(s, a))
  {
    UnsubscribeKeepsClosure(s.sub, None);
    assert Step(s, a).log.consumed == s.log.consumed && Step(s, a).log.doneFrom == s.log.doneFrom;
  }

  lemma RestKeepsRecord(s: System, a: Action)
    requires !a.ReadFrame? && Rest(a)
    ensures var t := Step(s, a);
            && t.log.ended == s.log.ended && t.log.consumed == s.log.consumed && t.log.doneFrom == s.log.doneFrom
            && t.sub == if a.CloseSubscription? then s.sub.Sweep(a.cause) else s.sub
  {
  }

  /** The steps of nobody who commits a result. */
  predicate Rest(a: Action) {
    !a.DispatcherMoves? && !a.WatcherMoves? && !a.LifecycleEnds? && !a.StarterMoves? && !a.WriteReturns?
  }

  lemma RestStillHappened(s: System, a: Action)
    requires Inv(s) && Rest(a)
    ensures StillHappened(s, Step(s, a))
  {
    RestCommitsNothing(s, a);
    if a.ReadFrame? {
      ReaderStillHappened(s, a.frame);
    } else {
      RestKeepsRecord(s, a);
      if a.CloseSubscription? {
        UnsubscribeKeepsClosure(s.sub, a.cause);
      }
    }
  }

  // ---- each producer -------------------------------------------------------

  lemma FailedReceiveIsFounded(s: System, byErrors: bool, clientClosed: bool)
    requires Inv(s) && s.dispatcher.Receiving?
    ensures var t := Receive(s, byErrors, clientClosed);
            t.dispatcher.Committing? ==> Founded(t, t.dispatcher.why, t.dispatcher.result)
  {
    var outcome := s.sub.Next(byErrors, clientClosed).1;
    if outcome.Failed? {
      if s.sub.events.closed {
        ClosedSubscriptionsKeepTheirCause(s.sub, None, Stamped(0, Event(TurnDone, true, "")), byErrors, clientClosed);
        if s.sub.err.Some? {
          EveryFailureReportsTheCause(s.sub, s.sub.err.value, byErrors, clientClosed);
        }
      } else {
        OpenNeverFails(s.sub, byErrors, clientClosed);
      }
      TheResultTellsTheFailure(outcome.err);
    }
  }

  lemma HandledEventIsFounded(s: System, e: Stamped)
    requires Inv(s) && StreamInv(s) && s.dispatcher == Handling(e)
    ensures var t := Handle(s, e);
            && (t.dispatcher.Committing? ==> Founded(t, t.dispatcher.why, t.dispatcher.result))
            && (!s.turn.terminal && t.turn.terminal ==> t.log.why.Some? && Founded(t, t.log.why.value, t.turn.result))
            && (t.turn.terminal == s.turn.terminal ==> t.log.why == s.log.why)
  {
    assert e in s.log.consumed;
    EveryEventHasItsFate(e.event);
  }

  /** What a commit by anybody does. */
  lemma CommitIsFounded(s: System, r: TurnResult, why: Reason)
    requires Inv(s) && WhyInv(s) && Founded(s, why, r)
    ensures WhyInv(Commit(s, r, why))
  {
    assert StillHappened(s, Commit(s, r, why));
  }

  lemma HandleKeepsWhy(s: System, e: Stamped)
    requires Inv(s) && StreamInv(s) && QueueInv(s) && WhyInv(s) && s.dispatcher == Handling(e)
    ensures WhyInv(Handle(s, e))
  {
    HandleKeepsRecord(s, e);
    HandledEventIsFounded(s, e);
    HandleKeepsTurn(s, e);
    KeptReasons(s, Handle(s, e));
  }

  /** The other producers' reasons, and that of a stored result. */
  lemma KeptReasons(s: System, t: System)
    requires WhyInv(s) && StillHappened(s, t) && t.watcher == s.watcher && t.starter == s.starter
    requires s.turn.terminal ==> t.turn.terminal && t.turn.result == s.turn.result && t.log.why == s.log.why
    ensures s.turn.terminal ==> t.log.why.Some? && Founded(t, t.log.why.value, t.turn.result)
    ensures t.watcher.WatchCommitting? ==> Founded(t, t.watcher.why, t.watcher.result)
    ensures t.starter.StartFailing? ==> Founded(t, t.starter.why, t.starter.result)
  {
    if s.turn.terminal {
      FoundedStays(s, t, s.log.why.value, s.turn.result);
    }
    if s.watcher.WatchCommitting? {
      FoundedStays(s, t, s.watcher.why, s.watcher.result);
    }
    if s.starter.StartFailing? {
      FoundedStays(s, t, s.starter.why, s.starter.result);
    }
  }

  lemma ReceiveKeepsWhy(s: System, byErrors: bool, clientClosed: bool)
    requires Inv(s) && WhyInv(s) && s.dispatcher.Receiving?
    ensures WhyInv(Receive(s, byErrors, clientClosed))
  {
    ReceiveKeepsRecord(s, byErrors, clientClosed);
    FailedReceiveIsFounded(s, byErrors, clientClosed);
    KeptReasons(s, Receive(s, byErrors, clientClosed));
  }

  lemma LeavingKeepsWhy(s: System, byErrors: bool, clientClosed: bool)
    requires Inv(s) && WhyInv(s) && !s.dispatcher.Receiving? && !s.dispatcher.Handling? && !s.dispatcher.Committing?
    ensures WhyInv(MoveDispatcher(s, byErrors, clientClosed))
  {
    UnsubscribeKeepsClosure(s.sub, None);
    KeptReasons(s, MoveDispatcher(s, byErrors, clientClosed));
  }

  lemma DispatcherKeepsWhy(s: System, byErrors: bool, clientClosed: bool)
    requires Inv(s) && StreamInv(s) && QueueInv(s) && WhyInv(s)
    ensures WhyInv(MoveDispatcher(s, byErrors, clientClosed))
  {
    match s.dispatcher
    case Receiving => ReceiveKeepsWhy(s, byErrors, clientClosed);
    case Handling(e) => HandleKeepsWhy(s, e);
    case Committing(r, why) => CommitIsFounded(s, r, why);
    case _ => LeavingKeepsWhy(s, byErrors, clientClosed);
  }

  lemma WatcherKeepsWhy(s: System, a: Action)
    requires Inv(s) && WhyInv(s) && (a.WatcherMoves? || a.LifecycleEnds?)
    ensures WhyInv(Step(s, a))
  {
    WatcherStillHappened(s, a);
    if s.watcher.WatchCommitting? {
      CommitIsFounded(s, s.watcher.result, s.watcher.why);
    }
  }

  lemma StarterKeepsWhy(s: System)
    requires Inv(s) && WhyInv(s)
    ensures WhyInv(MoveStarter(s))
  {
    var t := MoveStarter(s);
    StarterStillHappened(s, StarterMoves);
    if s.starter.StartFailing? {
      CommitIsFounded(s, s.starter.result, s.starter.why);
    } else {
      assert t.turn.terminal == s.turn.terminal && t.turn.result == s.turn.result && t.log == s.log;
      assert t.dispatcher == s.dispatcher && t.watcher == s.watcher && !t.starter.StartFailing?;
    }
  }

  lemma WriteKeepsWhy(s: System, err: Option<Error>)
    requires Inv(s) && WhyInv(s)
    ensures WhyInv(ReturnWrite(s, err))
  {
    StarterStillHappened(s, WriteReturns(err));
    if err.Some? {
      TheResultTellsTheFailure(err.value);
    }
  }

  /** The remaining steps commit nothing. */
  lemma RestKeepsWhy(s: System, a: Action)
    requires Inv(s) && WhyInv(s)
    requires Rest(a)
    ensures WhyInv(Step(s, a))
  {
    var t := Step(s, a);
    RestStillHappened(s, a);
    RestCommitsNothing(s, a);
    if s.log.why.Some? {
      FoundedStays(s, t, s.log.why.value, s.turn.result);
    }
  }

  lemma RestCommitsNothing(s: System, a: Action)
    requires Rest(a)
    ensures var t := Step(s, a);
            && t.turn.terminal == s.turn.terminal && t.turn.result == s.turn.result && t.log.why == s.log.why
            && t.dispatcher == s.dispatcher && t.watcher == s.watcher && t.starter == s.starter
  {
  }

  lemma WhyStep(s: System, a: Action)
    requires Inv(s) && StreamInv(s) && QueueInv(s) && WhyInv(s)
    ensures WhyInv(Step(s, a))
  {
    match a
    case DispatcherMoves(byErrors, clientClosed) => DispatcherKeepsWhy(s, byErrors, clientClosed);
    case WatcherMoves | LifecycleEnds(_, _) => WatcherKeepsWhy(s, a);
    case StarterMoves => StarterKeepsWhy(s);
    case WriteReturns(err) => WriteKeepsWhy(s, err);
    case _ => RestKeepsWhy(s, a);
  }

  lemma {:induction false} RunKeepsWhy(s: System, schedule: seq<Action>)
    requires Inv(s) && StreamInv(s) && QueueInv(s) && WhyInv(s)
    ensures var t := Run(s, schedule); Inv(t) && StreamInv(t) && QueueInv(t) && WhyInv(t)
    decreases |schedule|
  {
    if schedule == [] {
    } else {
      StepKeepsInv(s, schedule[0]);
      StreamStep(s, schedule[0]);
      QueueStep(s, schedule[0]);
      WhyStep(s, schedule[0]);
      RunKeepsWhy(Step(s, schedule[0]), schedule[1..]);
    }
  }

  /** In every run, a terminal turn has one reason; the result tells it, and it is
      what happened: the subscription failed with the cause it was closed for, the
      write failed, the lifecycle context ended with that cause, that event ended the
      turn or found its queue full, or the turn_done that was consumed completed or
      canceled it. */
  lemma {:induction false} TheResultTellsWhy(eventBuffer: nat, clientClosed: bool, schedule: seq<Action>)
    ensures var s := Run(Begin(eventBuffer, clientClosed), schedule);
            && (s.turn.terminal <==> s.log.why.Some?)
            && (s.turn.terminal ==> Tells(s.log.why.value, s.turn.result) && Happened(s, s.log.why.value))
  {
    BeginOrder(eventBuffer, clientClosed);
    RunKeepsWhy(Begin(eventBuffer, clientClosed), schedule);
  }

  /** A result that a closed subscription gave keeps the sentinel of the one cause it
      was closed for. */
  lemma {:induction false} TheCauseSurvives(eventBuffer: nat, clientClosed: bool, schedule: seq<Action>, cause: Error, s: Sentinel)
    requires var t := Run(Begin(eventBuffer, clientClosed), schedule);
             t.turn.terminal && t.log.why.Some? && t.log.why.value.SubscriptionFailed? && t.sub.err == Some(cause)
    requires s in NAMED && cause.chain * NAMED == {s}
    ensures var t := Run(Begin(eventBuffer, clientClosed), schedule);
            t.turn.result.err.Some? && t.turn.result.err.value.Is(s)
  {
    TheResultTellsWhy(eventBuffer, clientClosed, schedule);
  }
}
