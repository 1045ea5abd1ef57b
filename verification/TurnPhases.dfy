/** The phase diagram of a turn: which moves a run can make, against the ones that
    docs/architecture.md allows. */
module TurnPhases {
  import opened Events
  import opened TurnCore
  import opened TurnRun
  import opened TurnSafety

  /** The documented diagram. */
  predicate Documents(p: Phase, q: Phase) {
    match (p, q)
    case (Starting, AwaitingAcceptance) => true
    case (AwaitingAcceptance, Accepted) => true
    case (AwaitingAcceptance, CancelRequested) => true
    case (Accepted, CancelRequested) => true
    case (_, Terminal) => !p.Terminal?
    case _ => false
  }

  /** A Cancel call needs a Turn that StartTurn has returned. */
  ghost predicate HandleInv(s: System) {
    !s.canceller.NoCancel? ==> s.starter.Started?
  }

  lemma HandleStep(s: System, a: Action)
    requires HandleInv(s)
    ensures HandleInv(Step(s, a))
  {
    if a.DispatcherMoves? {
      DispatcherLeavesStarter(s, a.byErrors, a.clientClosed);
    }
  }

  lemma DispatcherLeavesStarter(s: System, byErrors: bool, clientClosed: bool)
    ensures var t := MoveDispatcher(s, byErrors, clientClosed); t.starter == s.starter && t.canceller == s.canceller
  {
    match s.dispatcher
    case Receiving => assert Receive(s, byErrors, clientClosed).starter == s.starter;
    case Handling(e) => assert Handle(s, e).starter == s.starter;
    case _ =>
  }

  lemma {:induction false} RunKeepsHandle(s: System, schedule: seq<Action>)
    requires Inv(s) && HandleInv(s)
    ensures Inv(Run(s, schedule)) && HandleInv(Run(s, schedule))
    decreases |schedule|
  {
    if schedule == [] {
    } else {
      StepKeepsInv(s, schedule[0]);
      HandleStep(s, schedule[0]);
      RunKeepsHandle(Step(s, schedule[0]), schedule[1..]);
    }
  }

  /** message_accepted is being recorded before StartTurn has recorded its write. */
  predicate AcceptedEarly(s: System, a: Action) {
    a.DispatcherMoves? && s.dispatcher.MarkingAccepted? && s.turn.phase.Starting?
  }

  lemma DispatcherMovesPhase(s: System, a: Action)
    requires Inv(s) && a.DispatcherMoves?
    ensures var p, q := s.turn.phase, Step(s, a).turn.phase;
            if AcceptedEarly(s, a) then q.Accepted? else p == q || Documents(p, q)
  {
    match s.dispatcher
    case Receiving => assert Receive(s, a.byErrors, a.clientClosed).turn == s.turn;
    case Handling(e) => assert Handle(s, e).turn.phase == s.turn.phase || Handle(s, e).turn.phase.Terminal?;
    case _ =>
  }

  lemma OthersMovePhase(s: System, a: Action)
    requires Inv(s) && HandleInv(s) && !a.DispatcherMoves?
    ensures var p, q := s.turn.phase, Step(s, a).turn.phase; p == q || Documents(p, q)
  {
    if Quiet(a) {
      QuietStepsKeepTurn(s, a);
    } else if a.ReaderMoves? && s.reader.Observing? {
      assert s.starter.Started?;
    }
  }

  /** In every run, every step that moves the phase makes a documented move, but
      for one: starting to accepted, and that exactly when the dispatcher records
      message_accepted before StartTurn has recorded that its write completed. */
  lemma {:induction false} MovesAreDocumentedExactly(eventBuffer: nat, clientClosed: bool, before: seq<Action>, a: Action)
    ensures var s := Run(Begin(eventBuffer, clientClosed), before);
            var p, q := s.turn.phase, Step(s, a).turn.phase;
            && (p == q || Documents(p, q) || (p.Starting? && q.Accepted?))
            && (!(p == q || Documents(p, q)) <==> AcceptedEarly(s, a))
  {
    var s := Run(Begin(eventBuffer, clientClosed), before);
    BeginInv(eventBuffer, clientClosed);
    RunKeepsHandle(Begin(eventBuffer, clientClosed), before);
    if a.DispatcherMoves? {
      DispatcherMovesPhase(s, a);
    } else {
      OthersMovePhase(s, a);
    }
  }

  /** A run that gets there: the server is faster than the return of the write. */
  lemma {:induction false} AcceptedEarlyHappens() returns (before: seq<Action>, a: Action)
    ensures AcceptedEarly(Run(Begin(1, false), before), a)
  {
    a := DispatcherMoves(false, false);
    before := [ReadFrame(Async(Event(MessageAccepted, true, ""))), a, a];
    var s1 := Step(Begin(1, false), before[0]);
    var s2 := Step(s1, a);
    var s3 := Step(s2, a);
    assert before[1..] == [a, a] && before[1..][1..] == [a] && [a][1..] == [];
    assert Run(s2, [a]) == Run(s3, []) == s3;
    assert Run(s1, [a, a]) == s3;
  }
}
