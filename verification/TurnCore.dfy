/** The owned turn of turn.go: what its mutex guards, one function for each
    critical section, and the class whose methods carry them out. */
module TurnCore {
  import opened Channels
  import opened Errors
  import opened Events

  datatype Phase = Starting | AwaitingAcceptance | Accepted | CancelRequested | Terminal {
    function Rank(): nat {
      match this
      case Starting => 0
      case AwaitingAcceptance => 1
      case Accepted => 2
      case CancelRequested => 3
      case Terminal => 4
    }
  }

  /** What the receiver of a reply to the cancel request distinguishes. */
  datatype ReplyBody = OkReply | ErrorReply(code: string) | OtherReply

  /** How a call of Next ends. */
  datatype NextResult = Returned(event: Stamped) | EndOfStream | Ended(err: Error) | Interrupted | Waits

  /** How finishTurnDone ends. */
  datatype DoneOutcome = Committed | NoSlot | TooLate

  /** The fields of a Turn. `result` means nothing before `terminal`. */
  datatype TurnState = TurnState(
    phase: Phase,
    acceptanceSet: bool, acceptanceErr: Option<Error>, acceptedDone: Signal,
    terminal: bool, result: TurnResult, terminalDone: Signal,
    cancelStarted: bool, cancelRequested: bool, cancelErr: Option<Error>, cancelDone: Signal,
    events: Chan<Stamped>)
  {
    function MarkWriteComplete(): TurnState {
      if phase.Starting? then this.(phase := AwaitingAcceptance) else this
    }

    function FinishAcceptance(err: Option<Error>): TurnState {
      if acceptanceSet then this
      else this.(acceptanceSet := true, acceptanceErr := err, acceptedDone := acceptedDone.Close())
    }

    /** The section of dispatch that follows finishAcceptance. */
    function MarkAccepted(): TurnState {
      if !terminal && !phase.CancelRequested? then this.(phase := Accepted) else this
    }

    /** finishTerminalLocked: the one place where a result is stored. */
    function FinishTerminal(r: TurnResult): TurnState {
      if terminal then this
      else FinishAcceptance(r.err).(
        terminal := true, phase := Terminal, result := r, terminalDone := terminalDone.Close())
    }

    /** publishEvent: one slot less than the channel has, so that turn_done fits. */
    function PublishEvent(e: Stamped): (TurnState, bool) {
      if terminal || |events.buf| >= events.cap - 1 then (this, false)
      else var (channel, sent) := events.TrySend(e); (this.(events := channel), sent)
    }

    function FinishTurnDone(e: Stamped): (TurnState, DoneOutcome) {
      if terminal then (this, TooLate)
      else
        var (channel, sent) := events.TrySend(e);
        var t := this.(events := channel);
        if !sent then (t.FinishTerminal(OVERFLOW_RESULT), NoSlot)
        else
          (t.FinishTerminal(
             if cancelRequested then TurnResult(Canceled, Some(Plain(TurnCanceled))) else TurnResult(Completed, None)),
           Committed)
    }

    /** The observer requestCancel gives to the reader. */
    function ObserveReply(body: ReplyBody): TurnState {
      if body.OkReply? && !terminal then this.(cancelRequested := true, phase := CancelRequested) else this
    }

    /** The once-only part of Cancel: the new state, and whether runCancel starts. */
    function BeginCancel(): (TurnState, bool) {
      if cancelStarted then (this, false)
      else if terminal then (this.(cancelStarted := true, cancelDone := cancelDone.Close()), false)
      else (this.(cancelStarted := true), true)
    }

    /** The end of runCancel. */
    function FinishCancel(err: Option<Error>): TurnState {
      this.(cancelErr := err, cancelDone := cancelDone.Close())
    }

    /** The deferred close of dispatch. */
    function CloseEvents(): TurnState {
      this.(events := events.Close())
    }

    /** Next, with a context that is done or not. Whichever case its select takes, an
        event or the end of the queue goes before the context. */
    function Next(ctxDone: bool): (TurnState, NextResult) {
      if events.buf != [] then (this.(events := events.Receive()), Returned(events.buf[0]))
      else if !events.closed then (this, if ctxDone then Interrupted else Waits)
      else if terminal && result.err.Some? then (this, Ended(result.err.value))
      else (this, EndOfStream)
    }

    predicate Faulted() {
      acceptedDone.faulted || terminalDone.faulted || cancelDone.faulted || events.faulted
    }

    /** What every critical section keeps. */
    predicate Sound() {
      && !acceptedDone.faulted && !terminalDone.faulted
      && acceptanceSet == acceptedDone.closed
      && terminal == terminalDone.closed == phase.Terminal?
      && (terminal ==> acceptanceSet)
      && (terminal ==> acceptanceErr.None? || acceptanceErr == result.err)
      && (acceptanceErr.Some? ==> terminal)
      && (phase.CancelRequested? ==> cancelRequested)
      && (cancelRequested ==> phase.CancelRequested? || phase.Terminal?)
      && (terminal && result.kind.Completed? ==> !cancelRequested)
      && (terminal && result.kind.Canceled? ==> cancelRequested)
    }

  }

  /** Completed and Canceled are decided by finishTurnDone alone; every other
      producer brings one of the remaining kinds. */
  predicate FromOutside(r: TurnResult) {
    !r.kind.Completed? && !r.kind.Canceled?
  }

  /** newTurn */
  function NewTurn(eventBuffer: nat): (t: TurnState)
    ensures t.Sound() && !t.Faulted() && t.phase.Starting? && t.events.cap == eventBuffer + 1
  {
    TurnState(Starting, false, None, OPEN, false, TurnResult(Completed, None), OPEN,
              false, false, None, OPEN, MakeChan(eventBuffer + 1))
  }

  /** What no critical section ever undoes: once there is a result it stays,
      once acceptance is decided it stays, and so does the shared result of Cancel;
      the phase never goes back, a closed channel stays closed, and the queue keeps
      its capacity. */
  ghost predicate Extends(a: TurnState, b: TurnState) {
    && (a.terminal ==> b.terminal && b.result == a.result && b.cancelRequested == a.cancelRequested)
    && (a.acceptanceSet ==> b.acceptanceSet && b.acceptanceErr == a.acceptanceErr)
    && (a.cancelRequested ==> b.cancelRequested)
    && a.phase.Rank() <= b.phase.Rank()
    && (a.acceptedDone.closed ==> b.acceptedDone.closed)
    && (a.terminalDone.closed ==> b.terminalDone.closed)
    && (a.cancelDone.closed ==> b.cancelDone.closed && b.cancelErr == a.cancelErr)
    && (a.events.closed ==> b.events.closed)
    && b.events.cap == a.events.cap
  }

  lemma SectionsKeepSound(t: TurnState, r: TurnResult)
    requires t.Sound()
    ensures t.MarkWriteComplete().Sound() && Extends(t, t.MarkWriteComplete())
    ensures t.FinishAcceptance(None).Sound() && Extends(t, t.FinishAcceptance(None))
    ensures t.MarkAccepted().Sound() && Extends(t, t.MarkAccepted())
    ensures FromOutside(r) ==> t.FinishTerminal(r).Sound() && Extends(t, t.FinishTerminal(r))
  {
  }

  lemma CallersKeepSound(t: TurnState, err: Option<Error>, ctxDone: bool)
    requires t.Sound()
    ensures t.BeginCancel().0.Sound() && Extends(t, t.BeginCancel().0)
    ensures t.FinishCancel(err).Sound() && (!t.cancelDone.closed ==> Extends(t, t.FinishCancel(err)))
    ensures t.Next(ctxDone).0.Sound() && Extends(t, t.Next(ctxDone).0)
    ensures t.CloseEvents().Sound() && Extends(t, t.CloseEvents())
  {
  }

  lemma ObserverKeepsSound(t: TurnState, body: ReplyBody)
    requires t.Sound()
    ensures t.ObserveReply(body).Sound() && Extends(t, t.ObserveReply(body))
  {
  }

  lemma QueueSectionsKeepSound(t: TurnState, e: Stamped)
    requires t.Sound()
    ensures t.PublishEvent(e).0.Sound() && Extends(t, t.PublishEvent(e).0)
    ensures t.FinishTurnDone(e).0.Sound() && Extends(t, t.FinishTurnDone(e).0)
  {
  }

  /** Reading a finished turn: what is queued comes out in order, and then every
      call reports the result: its error, or the end of the stream exactly when
      the turn completed; a context that is done changes nothing in this. */
  lemma FinishedTurnReads(t: TurnState, ctxDone: bool)
    requires t.Sound() && t.terminal && t.events.closed && Documented(t.result)
    ensures t.events.buf != [] ==>
              t.Next(ctxDone).1 == Returned(t.events.buf[0]) && t.Next(ctxDone).0.events.buf == t.events.buf[1..]
    ensures t.events.buf == [] ==>
              t.Next(ctxDone) == (t, if t.result.kind.Completed? then EndOfStream else Ended(t.result.err.value))
    ensures t.events.buf == [] ==> (t.Next(ctxDone).1.EndOfStream? <==> t.result.kind.Completed?)
  {
  }

  /** Reading a turn that goes on: what is queued comes out in order, and an empty
      queue is waited for as long as the context lasts. */
  lemma LiveTurnReads(t: TurnState, ctxDone: bool)
    requires !t.events.closed
    ensures t.events.buf != [] ==>
              t.Next(ctxDone).1 == Returned(t.events.buf[0]) && t.Next(ctxDone).0.events.buf == t.events.buf[1..]
    ensures t.events.buf == [] ==> t.Next(ctxDone) == (t, if ctxDone then Interrupted else Waits)
  {
  }

  /** The object. Each method is one critical section under `mu`, or one
      operation on the events channel. */
  class Turn {
    var phase: Phase
    var acceptanceSet: bool
    var acceptanceErr: Option<Error>
    var acceptedDone: Signal
    var terminal: bool
    var result: TurnResult
    var terminalDone: Signal
    var cancelStarted: bool
    var cancelRequested: bool
    var cancelErr: Option<Error>
    var cancelDone: Signal
    var events: Chan<Stamped>

    ghost function State(): TurnState
      reads this
    {
      TurnState(phase, acceptanceSet, acceptanceErr, acceptedDone, terminal, result, terminalDone,
                cancelStarted, cancelRequested, cancelErr, cancelDone, events)
    }

    constructor (eventBuffer: nat)
      ensures State() == NewTurn(eventBuffer)
    {
      phase := Starting;
      acceptanceSet, acceptanceErr, acceptedDone := false, None, OPEN;
      terminal, result, terminalDone := false, TurnResult(Completed, None), OPEN;
      cancelStarted, cancelRequested, cancelErr, cancelDone := false, false, None, OPEN;
      events := MakeChan(eventBuffer + 1);
    }

    method MarkWriteComplete()
      modifies this`phase
      ensures State() == old(State()).MarkWriteComplete()
      ensures old(State()).Sound() ==> State().Sound() && Extends(old(State()), State())
    {
      if phase == Starting {
        phase := AwaitingAcceptance;
      }
    }

    method FinishAcceptance(err: Option<Error>) returns (won: bool)
      modifies this`acceptanceSet, this`acceptanceErr, this`acceptedDone
      ensures State() == old(State()).FinishAcceptance(err) && won == !old(acceptanceSet)
      ensures err.None? && old(State()).Sound() ==> State().Sound() && Extends(old(State()), State())
    {
      won := false;
      if !acceptanceSet {
        acceptanceSet := true;
        acceptanceErr := err;
        acceptedDone := acceptedDone.Close();
        won := true;
      }
    }

    method MarkAccepted()
      modifies this`phase
      ensures State() == old(State()).MarkAccepted()
      ensures old(State()).Sound() ==> State().Sound() && Extends(old(State()), State())
    {
      if !terminal && phase != CancelRequested {
        phase := Accepted;
      }
    }

    method FinishTerminal(r: TurnResult) returns (won: bool)
      modifies this
      ensures State() == old(State()).FinishTerminal(r) && won == !old(terminal)
      ensures FromOutside(r) && old(State()).Sound() ==> State().Sound() && Extends(old(State()), State())
    {
      if terminal {
        return false;
      }
      if !acceptanceSet {
        acceptanceSet := true;
        acceptanceErr := r.err;
        acceptedDone := acceptedDone.Close();
      }
      terminal := true;
      phase := Terminal;
      result := r;
      terminalDone := terminalDone.Close();
      return true;
    }

    method PublishEvent(e: Stamped) returns (published: bool)
      modifies this`events
      ensures (State(), published) == old(State()).PublishEvent(e)
      ensures old(State()).Sound() ==> State().Sound() && Extends(old(State()), State())
    {
      if terminal {
        return false;
      }
      var limit := events.cap - 1;
      if |events.buf| >= limit {
        return false;
      }
      var (channel, sent) := events.TrySend(e);
      events := channel;
      return sent;
    }

    method FinishTurnDone(e: Stamped) returns (outcome: DoneOutcome)
      modifies this
      ensures (State(), outcome) == old(State()).FinishTurnDone(e)
      ensures old(State()).Sound() ==> State().Sound() && Extends(old(State()), State())
    {
      if terminal {
        return TooLate;
      }
      var (channel, sent) := events.TrySend(e);
      events := channel;
      if !sent {
        var _ := FinishTerminal(OVERFLOW_RESULT);
        return NoSlot;
      }
      var kind, err := Completed, None;
      if cancelRequested {
        kind := Canceled;
        err := Some(Plain(TurnCanceled));
      }
      var _ := FinishTerminal(TurnResult(kind, err));
      return Committed;
    }

    method ObserveReply(body: ReplyBody)
      modifies this`cancelRequested, this`phase
      ensures State() == old(State()).ObserveReply(body)
      ensures old(State()).Sound() ==> State().Sound() && Extends(old(State()), State())
    {
      if body.OkReply? {
        if !terminal {
          cancelRequested := true;
          phase := CancelRequested;
        }
      }
    }

    method BeginCancel() returns (spawn: bool)
      modifies this`cancelStarted, this`cancelDone
      ensures (State(), spawn) == old(State()).BeginCancel()
      ensures old(State()).Sound() ==> State().Sound() && Extends(old(State()), State())
    {
      spawn := false;
      if !cancelStarted {
        cancelStarted := true;
        if terminal {
          cancelDone := cancelDone.Close();
        } else {
          spawn := true;
        }
      }
    }

    method FinishCancel(err: Option<Error>)
      modifies this`cancelErr, this`cancelDone
      ensures State() == old(State()).FinishCancel(err)
      ensures !old(cancelDone.closed) && old(State()).Sound() ==> State().Sound() && Extends(old(State()), State())
    {
      cancelErr := err;
      cancelDone := cancelDone.Close();
    }

    method CloseEvents()
      modifies this`events
      ensures State() == old(State()).CloseEvents()
      ensures old(State()).Sound() ==> State().Sound() && Extends(old(State()), State())
    {
      events := events.Close();
    }

    method Next(ctxDone: bool) returns (r: NextResult)
      modifies this`events
      ensures (State(), r) == old(State()).Next(ctxDone)
      ensures old(State()).Sound() ==> State().Sound() && Extends(old(State()), State())
    {
      if events.buf != [] {
        r := Returned(events.buf[0]);
        events := events.Receive();
      } else if !events.closed {
        r := if ctxDone then Interrupted else Waits;
      } else if terminal && result.err.Some? {
        r := Ended(result.err.value);
      } else {
        r := EndOfStream;
      }
    }
  }
}
