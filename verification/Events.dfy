/** The events an owned turn can meet (protocol.go, session.go) and what the
    dispatcher of turn.go does with each of them. */
module Events {
  import opened Channels
  import opened Errors

  /** The kinds `decodeTypedEvent` knows, the protocol error event, and the rest. */
  datatype EventKind =
    | MessageAccepted | ErrorEvent
    | TextDelta | ReasoningDelta | ReasoningDone
    | ToolStart | ToolInputDelta | ToolExec | ToolDone
    | SidePaneImages | TokenUsage | TurnDone
    | BackgroundProgress | PermissionRequest | SessionStatus | ConnectionPhase
    | SessionForked | WakeRequested | ModelInfo | Models | RuntimeInfo
    | CredentialUpdated | FileContent | Files | TextMatches | FileStatus
    | Compacted | SessionRenamed
    | OtherKind(name: string)

  /** An asynchronous frame: its kind, whether its fields are an object that
      decodes into the kind's struct, and its payload. */
  datatype Event = Event(kind: EventKind, decodable: bool, payload: string)

  datatype SemanticClass = ContentProgress | AdvisoryLifecycle | TerminalClass | Permission | ToolEffect

  function SemanticClassOf(kind: EventKind): Option<SemanticClass> {
    match kind
    case TextDelta | ReasoningDelta | ToolStart | ToolInputDelta
       | ToolDone | SidePaneImages | TokenUsage => Some(ContentProgress)
    case ReasoningDone | BackgroundProgress | MessageAccepted
       | SessionStatus | ConnectionPhase | ModelInfo => Some(AdvisoryLifecycle)
    case TurnDone => Some(TerminalClass)
    case PermissionRequest => Some(Permission)
    case ToolExec => Some(ToolEffect)
    case _ => None
  }

  /** What the dispatcher does with one event. */
  datatype Disposition =
    | Accept
    | Fail(result: TurnResult)
    | Ignore
    | Finish
    | Publish

  /** The tests of `dispatch`, in its order: acceptance before decoding, the
      protocol error before decoding, then decoding, classification, class. */
  function DispositionOf(e: Event): Disposition {
    if e.kind.MessageAccepted? then Accept
    else if e.kind.ErrorEvent? then
      Fail(TurnResult(ProviderError, Some(Error({}, Some(e.payload), false))))
    else if !e.kind.OtherKind? && !e.decodable then
      Fail(TurnResult(ProtocolError, Some(ProtocolTurnError(COMPATIBILITY_ERROR))))
    else
      match SemanticClassOf(e.kind)
      case None => Fail(TurnResult(ProtocolError, Some(COMPATIBILITY_ERROR)))
      case Some(AdvisoryLifecycle) => Ignore
      case Some(_) => if e.kind.TurnDone? then Finish else Publish
  }

  /** The events a caller of Next may ever see. */
  predicate Visible(e: Event) {
    DispositionOf(e).Publish? || DispositionOf(e).Finish?
  }

  lemma VisibleMeansClassified(e: Event)
    ensures Visible(e) <==>
            && e.decodable
            && SemanticClassOf(e.kind).Some?
            && !SemanticClassOf(e.kind).value.AdvisoryLifecycle?
    ensures DispositionOf(e).Finish? <==> e.kind.TurnDone? && e.decodable
    ensures DispositionOf(e).Fail? ==>
              Documented(DispositionOf(e).result)
              && !DispositionOf(e).result.kind.Completed? && !DispositionOf(e).result.kind.Canceled?
              && !DispositionOf(e).result.kind.Overflow? && !LifecycleKind(DispositionOf(e).result.kind)
  {
  }

  /** The kinds by class, as the documentation of the exported classifier lists them. */
  const CONTENT: set<EventKind> :=
    {TextDelta, ReasoningDelta, ToolStart, ToolInputDelta, ToolDone, SidePaneImages, TokenUsage}
  const ADVISORY: set<EventKind> := {ReasoningDone, BackgroundProgress, SessionStatus, ConnectionPhase, ModelInfo}

  /** The kinds Next can deliver. */
  const DELIVERED: set<EventKind> := CONTENT + {PermissionRequest, ToolExec, TurnDone}

  lemma EveryKindHasItsClass(k: EventKind)
    ensures SemanticClassOf(k) == Some(ContentProgress) <==> k in CONTENT
    ensures SemanticClassOf(k) == Some(AdvisoryLifecycle) <==> k in ADVISORY + {MessageAccepted}
    ensures SemanticClassOf(k) == Some(TerminalClass) <==> k == TurnDone
    ensures SemanticClassOf(k) == Some(Permission) <==> k == PermissionRequest
    ensures SemanticClassOf(k) == Some(ToolEffect) <==> k == ToolExec
  {
  }

  /** What the dispatcher does with each event, by its kind. */
  lemma EveryEventHasItsFate(e: Event)
    ensures DispositionOf(e).Accept? <==> e.kind == MessageAccepted
    ensures DispositionOf(e).Publish? <==> e.decodable && e.kind in DELIVERED - {TurnDone}
    ensures DispositionOf(e).Finish? <==> e.decodable && e.kind == TurnDone
    ensures DispositionOf(e).Ignore? <==> e.decodable && e.kind in ADVISORY
    ensures e.kind == ErrorEvent ==>
              DispositionOf(e).Fail? && DispositionOf(e).result.kind == ProviderError
              && DispositionOf(e).result.err.Some? && DispositionOf(e).result.err.value.provider == Some(e.payload)
    ensures e.kind !in {MessageAccepted, ErrorEvent} && (!e.decodable || e.kind !in DELIVERED + ADVISORY) ==>
              DispositionOf(e).Fail? && DispositionOf(e).result.kind == ProtocolError
              && DispositionOf(e).result.err.Some?
              && DispositionOf(e).result.err.value.Is(ProtocolFailure) && DispositionOf(e).result.err.value.compatibility
    ensures Visible(e) <==> e.decodable && e.kind in DELIVERED
  {
    EveryKindHasItsClass(e.kind);
  }

  /** An event together with the index, on the wire, of the frame it came in. */
  datatype Stamped = Stamped(pos: nat, event: Event)

  /** The visible events of a sequence, in order. */
  function VisibleOf(s: seq<Stamped>): seq<Stamped> {
    if s == [] then []
    else VisibleOf(s[..|s|-1]) + (if Visible(s[|s|-1].event) then [s[|s|-1]] else [])
  }

  lemma {:induction false} VisibleOfExtend(s: seq<Stamped>, x: Stamped)
    ensures VisibleOf(s + [x]) == VisibleOf(s) + (if Visible(x.event) then [x] else [])
  {
    assert (s + [x])[..|s|] == s;
  }

  /** The filter of a prefix is a prefix of the filter. */
  lemma {:induction false} VisibleOfPrefix(a: seq<Stamped>, b: seq<Stamped>)
    requires a <= b
    ensures VisibleOf(a) <= VisibleOf(b)
    decreases |b|
  {
    if |a| < |b| {
      VisibleOfPrefix(a, b[..|b|-1]);
    } else {
      assert a == b;
    }
  }

  lemma {:induction false} VisibleOfMembers(s: seq<Stamped>, x: Stamped)
    ensures x in VisibleOf(s) <==> x in s && Visible(x.event)
  {
    if s == [] {
    } else {
      VisibleOfMembers(s[..|s|-1], x);
      assert s == s[..|s|-1] + [s[|s|-1]];
    }
  }
}
