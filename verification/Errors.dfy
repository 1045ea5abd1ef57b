/** Go error values, as far as `errors.Is` and `errors.As` can see them, and the
    terminal results a turn can store (turn.go). */
module Errors {
  import opened Channels

  /** The sentinels of client.go, turn.go, protocol.go and package context, and
      any error of somebody else. */
  datatype Sentinel =
    | BridgeExited
    | ClientClosed
    | Disconnected
    | SubscriberOverflow
    | TurnCanceled
    | ProtocolFailure
    | MalformedFrame
    | InvalidFrame
    | FrameTooLarge
    | ContextCanceled
    | DeadlineExceeded
    | Foreign(tag: nat)

  /** An error value: the sentinels `errors.Is` finds in it, and which of the two
      structured errors, EventError and CompatibilityError, `errors.As` finds. */
  datatype Error = Error(chain: set<Sentinel>, provider: Option<string>, compatibility: bool) {
    predicate Is(s: Sentinel) {
      s in chain
    }
  }

  function Plain(s: Sentinel): Error {
    Error({s}, None, false)
  }

  const FRAMING: set<Sentinel> := {MalformedFrame, InvalidFrame, FrameTooLarge}

  datatype ResultKind =
    | Completed
    | Canceled
    | LifecycleCanceled
    | LifecycleDeadlineExceeded
    | ProviderError
    | ProtocolError
    | Overflow
    | BridgeExit
    | TransportDisconnected
    | Closed

  datatype TurnResult = TurnResult(kind: ResultKind, err: Option<Error>)

  /** A CompatibilityError; it unwraps to ErrProtocolFailure. */
  const COMPATIBILITY_ERROR := Error({ProtocolFailure}, None, true)

  predicate IsProtocolError(err: Error) {
    err.Is(MalformedFrame) || err.Is(InvalidFrame) || err.Is(FrameTooLarge)
  }

  function ProtocolTurnError(err: Error): Error {
    if err.compatibility then COMPATIBILITY_ERROR
    else Error({ProtocolFailure} + err.chain * FRAMING, None, false)
  }

  function ResultFromSubscriptionError(err: Error): TurnResult {
    if err.Is(BridgeExited) then TurnResult(BridgeExit, Some(Plain(BridgeExited)))
    else if err.Is(ClientClosed) then TurnResult(Closed, Some(Plain(ClientClosed)))
    else if err.Is(SubscriberOverflow) then TurnResult(Overflow, Some(Plain(SubscriberOverflow)))
    else if IsProtocolError(err) then TurnResult(ProtocolError, Some(ProtocolTurnError(err)))
    else TurnResult(TransportDisconnected, Some(Plain(Disconnected)))
  }

  const OVERFLOW_RESULT := TurnResult(Overflow, Some(Plain(SubscriberOverflow)))

  /** The table of docs/architecture.md that fixes, for each kind, what a caller
      may inspect in the error. The cause of a lifecycle end is the caller's own. */
  predicate Documented(r: TurnResult) {
    match r.kind
    case Completed => r.err.None?
    case Canceled => r.err.Some? && r.err.value.Is(TurnCanceled)
    case LifecycleCanceled => r.err.Some?
    case LifecycleDeadlineExceeded => r.err.Some?
    case ProviderError => r.err.Some? && r.err.value.provider.Some?
    case ProtocolError =>
      && r.err.Some? && r.err.value.Is(ProtocolFailure)
      && (r.err.value.compatibility || r.err.value.chain <= {ProtocolFailure} + FRAMING)
    case Overflow => r.err.Some? && r.err.value.Is(SubscriberOverflow)
    case BridgeExit => r.err.Some? && r.err.value.Is(BridgeExited)
    case TransportDisconnected => r.err.Some? && r.err.value.Is(Disconnected)
    case Closed => r.err.Some? && r.err.value.Is(ClientClosed)
  }

  /** The kinds that only the end of the lifecycle context gives. */
  predicate LifecycleKind(k: ResultKind) {
    k.LifecycleCanceled? || k.LifecycleDeadlineExceeded?
  }

  /** The errors that say on their own how a connection or a subscription ended. */
  const NAMED: set<Sentinel> := {BridgeExited, ClientClosed, SubscriberOverflow}

  /** What a result must tell of the failure it was made from: the sentinel of the
      end, if the failure has one; otherwise its framing sentinels; otherwise that
      the transport is gone. A bridge exit goes before a closed client, and that
      before an overflow. */
  predicate TellsFailure(err: Error, r: TurnResult) {
    && r.err.Some?
    && (forall s :: s in NAMED && err.chain * NAMED == {s} ==> r.err.value.chain == {s})
    && (BridgeExited in err.chain <==> r.kind.BridgeExit?)
    && (BridgeExited in err.chain <==> BridgeExited in r.err.value.chain)
    && (r.kind.Closed? <==> ClientClosed in r.err.value.chain)
    && (r.kind.Closed? <==> ClientClosed in err.chain && BridgeExited !in err.chain)
    && (r.kind.Overflow? <==> SubscriberOverflow in r.err.value.chain)
    && (r.kind.Overflow? <==> err.chain * NAMED == {SubscriberOverflow})
    && (r.kind.ProtocolError? <==> err.chain * NAMED == {} && err.chain * FRAMING != {})
    && (r.kind.ProtocolError? ==> ProtocolFailure in r.err.value.chain && r.err.value.compatibility == err.compatibility)
    && (r.kind.ProtocolError? && !err.compatibility ==> r.err.value.chain * FRAMING == err.chain * FRAMING)
    && (err.chain * NAMED == {} && err.chain * FRAMING == {} ==> r == TurnResult(TransportDisconnected, Some(Plain(Disconnected))))
  }

  lemma TheResultTellsTheFailure(err: Error)
    ensures TellsFailure(err, ResultFromSubscriptionError(err))
  {
    assert forall s :: s in err.chain * NAMED <==> s in err.chain && s in NAMED;
    assert forall s :: s in err.chain * FRAMING <==> s in err.chain && s in FRAMING;
    if err.Is(BridgeExited) {
      assert BridgeExited in err.chain * NAMED;
    } else if err.Is(ClientClosed) {
      assert ClientClosed in err.chain * NAMED;
    } else if err.Is(SubscriberOverflow) {
      assert err.chain * NAMED == {SubscriberOverflow};
    } else {
      assert err.chain * NAMED == {};
    }
  }

  lemma SubscriptionErrorsAreDocumented(err: Error)
    ensures Documented(ResultFromSubscriptionError(err))
    ensures !LifecycleKind(ResultFromSubscriptionError(err).kind)
    ensures !ResultFromSubscriptionError(err).kind.Completed? && !ResultFromSubscriptionError(err).kind.Canceled?
  {
  }
}
