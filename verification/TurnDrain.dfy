/** A turn whose subscription is closed drains: the dispatcher cannot wait any
    more, it leaves after a bounded number of steps, and then every reader gets
    to the end of the queue and to the turn's result. */
module TurnDrain {
  import opened TurnCore
  import opened TurnRun
  import opened TurnSafety
  import opened TurnOrder

  /** An upper bound on the dispatcher's remaining steps. */
  function Work(s: System): nat {
    3 * |s.sub.events.buf| +
    match s.dispatcher
    case Handling(_) => 6
    case MarkingAccepted => 5
    case Receiving => 4
    case Committing(_, _) => 3
    case Unsubscribing => 2
    case ClosingEvents => 1
    case Exited => 0
  }

  lemma DispatcherProgresses(s: System, byErrors: bool, clientClosed: bool)
    requires s.sub.Sound() && s.sub.events.closed
    ensures var t := MoveDispatcher(s, byErrors, clientClosed);
            && t.sub.events.closed
            && (if s.dispatcher.Exited? then t == s else Work(t) < Work(s) || t.dispatcher.Exited?)
  {
    match s.dispatcher
    case Receiving =>
      var t := Receive(s, byErrors, clientClosed);
      assert t.dispatcher.Handling? ==> |t.sub.events.buf| == |s.sub.events.buf| - 1;
    case Handling(e) => assert Handle(s, e).sub == s.sub;
    case Committing(r, why) => assert Commit(s, r, why).sub == s.sub;
    case _ =>
  }

  lemma OthersAddNoWork(s: System, a: Action)
    requires s.sub.Sound() && s.sub.events.closed && !a.DispatcherMoves?
    ensures var t := Step(s, a);
            t.sub.events.closed && t.dispatcher == s.dispatcher && Work(t) == Work(s)
  {
  }

  /** How often a schedule lets the dispatcher move. */
  function Turns(schedule: seq<Action>): nat
    decreases |schedule|
  {
    if schedule == [] then 0
    else (if schedule[0].DispatcherMoves? then 1 else 0) + Turns(schedule[1..])
  }

  lemma {:induction false} DispatcherLeaves(s: System, schedule: seq<Action>)
    requires Inv(s) && s.sub.events.closed && Turns(schedule) >= Work(s)
    ensures Run(s, schedule).dispatcher.Exited?
    decreases |schedule|
  {
    if schedule != [] {
      var a, rest := schedule[0], schedule[1..];
      StepKeepsInv(s, a);
      if a.DispatcherMoves? {
        DispatcherProgresses(s, a.byErrors, a.clientClosed);
        if Step(s, a).dispatcher.Exited? {
          ExitIsFinal(Step(s, a), rest);
        } else {
          DispatcherLeaves(Step(s, a), rest);
        }
      } else {
        OthersAddNoWork(s, a);
        DispatcherLeaves(Step(s, a), rest);
      }
    } else {
      assert s.dispatcher.Exited?;
    }
  }

  lemma {:induction false} ExitIsFinal(s: System, schedule: seq<Action>)
    requires s.dispatcher.Exited?
    ensures Run(s, schedule).dispatcher.Exited?
    decreases |schedule|
  {
    if schedule == [] {
    } else {
      StaysOut(s, schedule[0]);
      ExitIsFinal(Step(s, schedule[0]), schedule[1..]);
    }
  }

  lemma StaysOut(s: System, a: Action)
    requires s.dispatcher.Exited?
    ensures Step(s, a).dispatcher.Exited?
  {
  }

  /** However the turn ended: whenever its subscription is closed, any
      continuation that gives the dispatcher Work(s) moves sees it leave and close
      the event queue, and the turn is then terminal. Each buffered event costs it
      at most three moves. */
  lemma {:induction false} ClosedTurnsDrain(eventBuffer: nat, clientClosed: bool, before: seq<Action>, after: seq<Action>)
    requires Run(Begin(eventBuffer, clientClosed), before).sub.events.closed
    requires Turns(after) >= Work(Run(Begin(eventBuffer, clientClosed), before))
    ensures var s := Run(Begin(eventBuffer, clientClosed), before + after);
            s.dispatcher.Exited? && s.turn.events.closed && s.turn.terminal
    ensures var s := Run(Begin(eventBuffer, clientClosed), before);
            Work(s) <= 3 * |s.sub.events.buf| + 6
  {
    var s0 := Begin(eventBuffer, clientClosed);
    BeginInv(eventBuffer, clientClosed);
    RunKeepsInv(s0, before);
    DispatcherLeaves(Run(s0, before), after);
    RunKeepsInv(Run(s0, before), after);
    RunAppend(s0, before, after);
  }

  /** A terminal turn's subscription is closed, or the goroutine that committed
      the result is just about to close it. */
  lemma {:induction false} EveryEndUnsubscribes(eventBuffer: nat, clientClosed: bool, schedule: seq<Action>)
    ensures var s := Run(Begin(eventBuffer, clientClosed), schedule);
            s.turn.terminal ==>
              s.sub.events.closed || s.dispatcher.Unsubscribing? || s.watcher.WatchUnsubscribing? || s.starter.StartUnsubscribing?
  {
    BeginInv(eventBuffer, clientClosed);
    RunKeepsInv(Begin(eventBuffer, clientClosed), schedule);
  }

  /** How often a schedule calls Next. */
  function NextCalls(schedule: seq<Action>): nat
    decreases |schedule|
  {
    if schedule == [] then 0
    else (if schedule[0].CallNext? then 1 else 0) + NextCalls(schedule[1..])
  }

  /** After the dispatcher has left, only calls of Next touch the queue. */
  lemma {:induction false} QueueOnlyShrinks(s: System, a: Action)
    requires Inv(s) && QueueInv(s) && s.dispatcher.Exited?
    ensures var t := Step(s, a);
            && t.dispatcher.Exited? && Admitted(t) == Admitted(s)
            && |t.turn.events.buf|
               == |s.turn.events.buf| - if a.CallNext? && s.turn.events.buf != [] then 1 else 0
  {
    StaysOut(s, a);
    StepAfterTheEnd(s, a);
    if !a.CallNext? {
      OnlyDispatcherAndCallerTouchOutlet(s, a);
    }
  }

  lemma {:induction false} CallsEmptyTheQueue(s: System, schedule: seq<Action>)
    requires Inv(s) && StreamInv(s) && QueueInv(s) && s.dispatcher.Exited?
    requires NextCalls(schedule) >= |s.turn.events.buf|
    ensures var t := Run(s, schedule);
            t.turn.events.buf == [] && t.log.delivered == Admitted(s) && t.dispatcher.Exited?
    decreases |schedule|
  {
    if schedule == [] {
      assert Admitted(s) == s.log.delivered;
    } else {
      var a := schedule[0];
      StepKeepsInv(s, a);
      StreamStep(s, a);
      QueueStep(s, a);
      QueueOnlyShrinks(s, a);
      CallsEmptyTheQueue(Step(s, a), schedule[1..]);
    }
  }

  /** Once the dispatcher has left, any continuation in which Next is called as often
      as events are queued, whatever the other goroutines do in between, returns all
      that is queued, in order, and from then on Next reports the turn's error, or
      the end of the stream exactly when the turn completed. */
  lemma {:induction false} ReadersReachTheResult(
      eventBuffer: nat, clientClosed: bool, before: seq<Action>, after: seq<Action>, ctxDone: bool)
    requires var s := Run(Begin(eventBuffer, clientClosed), before);
             s.dispatcher.Exited? && NextCalls(after) >= |s.turn.events.buf|
    ensures var s := Run(Begin(eventBuffer, clientClosed), before);
            var t := Run(s, after);
            && t.log.delivered == Admitted(s)
            && t.turn.result == s.turn.result
            && t.turn.Next(ctxDone).0 == t.turn
            && (t.turn.result.kind.Completed? ==> t.turn.Next(ctxDone).1 == EndOfStream)
            && (!t.turn.result.kind.Completed? ==>
                  t.turn.result.err.Some? && t.turn.Next(ctxDone).1 == Ended(t.turn.result.err.value))
  {
    var s := Run(Begin(eventBuffer, clientClosed), before);
    BeginOrder(eventBuffer, clientClosed);
    RunKeepsOrder(Begin(eventBuffer, clientClosed), before);
    CallsEmptyTheQueue(s, after);
    RunKeepsInv(s, after);
    FinishedTurnReads(Run(s, after).turn, ctxDone);
  }
}
