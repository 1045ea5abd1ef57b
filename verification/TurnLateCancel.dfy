/** Whether a cancel request can still be written after the turn has ended: it can
    exactly if the first Cancel was called before the end. */
module TurnLateCancel {
  import opened Channels
  import opened Errors
  import opened TurnRun
  import opened TurnSafety

  /** A Cancel call has passed its only look at the turn and has not written yet. */
  predicate OnItsWay(c: Canceller) {
    c.Requesting? || c.Registered?
  }

  lemma {:induction false} LateStep(s: System, a: Action)
    requires s.turn.terminal && CancelInv(s) && !OnItsWay(s.canceller)
    ensures Step(s, a).turn.terminal && !OnItsWay(Step(s, a).canceller)
    ensures Step(s, a).log.cancelWrites == s.log.cancelWrites
  {
    if a.DispatcherMoves? && s.dispatcher.Handling? {
      assert Handle(s, s.dispatcher.e).turn.terminal;
    }
  }

  lemma {:induction false} NoLateWrite(s: System, schedule: seq<Action>)
    requires Inv(s) && s.turn.terminal && !OnItsWay(s.canceller)
    ensures Run(s, schedule).log.cancelWrites == s.log.cancelWrites
    decreases |schedule|
  {
    if schedule == [] {
    } else {
      StepKeepsInv(s, schedule[0]);
      LateStep(s, schedule[0]);
      NoLateWrite(Step(s, schedule[0]), schedule[1..]);
    }
  }

  lemma {:induction false} LateWriteHappens(s: System, id: nat) returns (schedule: seq<Action>)
    requires Inv(s) && OnItsWay(s.canceller)
    ensures Run(s, schedule).log.cancelWrites == s.log.cancelWrites + 1
  {
    if s.canceller.Requesting? {
      var t := Step(s, CancelRegisters(id));
      schedule := [CancelRegisters(id), CancelWrites(None)];
      assert schedule[1..] == [CancelWrites(None)];
      assert Run(t, schedule[1..]) == Run(Step(t, CancelWrites(None)), []);
    } else {
      schedule := [CancelWrites(None)];
      assert Run(s, schedule) == Run(Step(s, CancelWrites(None)), []);
    }
  }

  /** The watcher is done only with a turn that is terminal. */
  ghost predicate WatchInv(s: System) {
    s.watcher.WatchUnsubscribing? || s.watcher.WatchExited? ==> s.turn.terminal
  }

  lemma WatchStep(s: System, a: Action)
    requires Inv(s) && WatchInv(s)
    ensures WatchInv(Step(s, a))
  {
    StepKeepsInv(s, a);
    if a.DispatcherMoves? {
      DispatcherLeavesWatcher(s, a.byErrors, a.clientClosed);
    }
  }

  lemma DispatcherLeavesWatcher(s: System, byErrors: bool, clientClosed: bool)
    ensures MoveDispatcher(s, byErrors, clientClosed).watcher == s.watcher
  {
    match s.dispatcher
    case Receiving => assert Receive(s, byErrors, clientClosed).watcher == s.watcher;
    case Handling(e) => assert Handle(s, e).watcher == s.watcher;
    case _ =>
  }

  lemma {:induction false} RunKeepsWatch(s: System, schedule: seq<Action>)
    requires Inv(s) && WatchInv(s)
    ensures Inv(Run(s, schedule)) && WatchInv(Run(s, schedule))
    decreases |schedule|
  {
    if schedule == [] {
    } else {
      StepKeepsInv(s, schedule[0]);
      WatchStep(s, schedule[0]);
      RunKeepsWatch(Step(s, schedule[0]), schedule[1..]);
    }
  }

  /** The lifecycle context can end a live turn at any moment. */
  lemma {:induction false} LifecycleCanEndIt(s: System, cause: Error) returns (schedule: seq<Action>)
    requires Inv(s) && WatchInv(s) && !s.turn.terminal
    ensures Run(s, schedule).turn.terminal && Run(s, schedule).canceller == s.canceller
  {
    if s.watcher.Watching? {
      var t := Step(s, LifecycleEnds(false, cause));
      schedule := [LifecycleEnds(false, cause), WatcherMoves];
      assert schedule[1..] == [WatcherMoves];
      assert Run(t, [WatcherMoves]) == Run(Step(t, WatcherMoves), []);
    } else {
      schedule := [WatcherMoves];
      assert Run(s, schedule) == Run(Step(s, WatcherMoves), []);
    }
  }

  /** From s, some continuation sees the turn end and then the request written. */
  ghost predicate WritesAfterTheEnd(s: System) {
    exists until, after ::
      Run(s, until).turn.terminal && Run(Run(s, until), after).log.cancelWrites > Run(s, until).log.cancelWrites
  }

  /** Once the request is on its way, it can be written after the end of the turn:
      now, if the turn has ended, or after the lifecycle context ends it. */
  lemma {:induction false} OnItsWayWritesLate(s: System)
    requires Inv(s) && WatchInv(s) && OnItsWay(s.canceller)
    ensures WritesAfterTheEnd(s)
  {
    var until: seq<Action> := [];
    if !s.turn.terminal {
      until := LifecycleCanEndIt(s, Plain(ContextCanceled));
    }
    var t := Run(s, until);
    assert t.turn.terminal && t.canceller == s.canceller;
    RunKeepsInv(s, until);
    var after := LateWriteHappens(t, 1);
    assert Run(t, after).log.cancelWrites > t.log.cancelWrites;
  }

  /** The first Cancel of a turn, called after any run: some continuation sees the
      turn end and then the cancel request written, exactly if the turn had not
      ended at the call, which is all that Cancel looks at. */
  lemma {:induction false} LateWriteExactly(eventBuffer: nat, clientClosed: bool, before: seq<Action>)
    requires var s := Run(Begin(eventBuffer, clientClosed), before); s.starter.Started? && !s.turn.cancelStarted
    ensures var s := Run(Begin(eventBuffer, clientClosed), before);
            WritesAfterTheEnd(Step(s, CallCancel)) <==> !s.turn.terminal
  {
    var s := Run(Begin(eventBuffer, clientClosed), before);
    var called := Step(s, CallCancel);
    BeginInv(eventBuffer, clientClosed);
    RunKeepsWatch(Begin(eventBuffer, clientClosed), before);
    StepKeepsInv(s, CallCancel);
    WatchStep(s, CallCancel);
    if s.turn.terminal {
      forall until, after
        ensures Run(Run(called, until), after).log.cancelWrites == Run(called, until).log.cancelWrites
      {
        NoLateWrite(called, until);
        RunAppend(called, until, after);
        NoLateWrite(called, until + after);
      }
    } else {
      OnItsWayWritesLate(called);
    }
  }

  /** A later Cancel adds nothing: only the first one can have a request on its way. */
  lemma {:induction false} OnlyTheFirstCancelCounts(eventBuffer: nat, clientClosed: bool, before: seq<Action>)
    requires Run(Begin(eventBuffer, clientClosed), before).turn.cancelStarted
    ensures var s := Run(Begin(eventBuffer, clientClosed), before);
            && Step(s, CallCancel) == s
            && (s.turn.terminal ==> (WritesAfterTheEnd(s) <==> OnItsWay(s.canceller)))
  {
    var s := Run(Begin(eventBuffer, clientClosed), before);
    BeginInv(eventBuffer, clientClosed);
    RunKeepsWatch(Begin(eventBuffer, clientClosed), before);
    if OnItsWay(s.canceller) {
      OnItsWayWritesLate(s);
    } else if s.turn.terminal {
      forall until, after
        ensures Run(Run(s, until), after).log.cancelWrites == Run(s, until).log.cancelWrites
      {
        NoLateWrite(s, until);
        RunAppend(s, until, after);
        NoLateWrite(s, until + after);
      }
    }
  }

  /** A run in which it happens: the turn is started, Cancel begins, the lifecycle
      context ends the turn, and only then is the request written. */
  lemma {:induction false} CancelCanFollowTheEnd(cause: Error) returns (before: seq<Action>)
    ensures var s := Run(Begin(1, false), before); s.turn.terminal && OnItsWay(s.canceller)
  {
    var start, rest := [WriteReturns(None), StarterMoves], [CallCancel, LifecycleEnds(false, cause), WatcherMoves];
    before := start + rest;
    var s0 := Begin(1, false);
    var s1 := Step(Step(s0, start[0]), start[1]);
    assert Run(Step(s0, start[0]), start[1..]) == Run(s1, start[1..][1..]) == s1;
    RunAppend(s0, start, rest);
    var s2 := Step(Step(Step(s1, rest[0]), rest[1]), rest[2]);
    assert rest[1..][1..][1..] == [];
    assert Run(Step(Step(s1, rest[0]), rest[1]), rest[1..][1..]) == Run(s2, []) == s2;
    assert Run(Step(s1, rest[0]), rest[1..]) == s2;
    assert s2.turn.terminal && s2.canceller.Requesting?;
  }
}
