/** Reply correlation of client.go: any number of concurrent requests against one
    reader, their own timeouts, disconnects and Close. A request's entry in the
    pending map is taken by whoever removes it; from then on that party alone may
    use its reply channel. */
module Correlation {
  import opened Channels

  datatype Frame = Frame(replyTo: nat, body: string)

  datatype Taker = ByReader | ByOwner | ByDisconnect | ByClose

  datatype Outcome = Replied(frame: Frame) | WriteFailed | TimedOut | WasDisconnected | WasClosed

  /** A call of requestWithReplyObserver after it registered its entry. */
  datatype Stage = Writing | Waiting | Done(outcome: Outcome)

  /** `taker` is whoever removed the entry from the map last, `takes` how often
      that happened. */
  datatype Request = Request(stage: Stage, reply: Chan<Frame>, taker: Option<Taker>, takes: nat) {
    function TakenBy(who: Taker): Request {
      this.(taker := Some(who), takes := takes + 1)
    }
  }

  datatype Reader = Idle | Observing(frame: Frame) | Sending(frame: Frame) {
    predicate Holds(id: nat) {
      !Idle? && frame.replyTo == id
    }
  }

  /** closeWith, at most once. */
  datatype Closer = NotClosing | Signalled | ClosedTransport | Swapped

  /** `dropped` and `closing` are the maps a disconnect and Close have swapped out
      and are still walking over; `cut` says that a disconnect has closed the
      transport and not swapped yet, `swapped` that some swap has been made; `seen`
      is everything the reader read. The connection is not re-established. */
  datatype Client = Client(
    requests: map<nat, Request>, pending: set<nat>, nextID: nat,
    reader: Reader, transportOpen: bool, cut: bool, closer: Closer, swapped: bool,
    dropped: set<nat>, closing: set<nat>, seen: seq<Frame>)
  {
    predicate Closed() {
      !closer.NotClosing?
    }
  }

  datatype Action =
    | Register
    | WriteReturns(id: nat, ok: bool)
    | Read(frame: Frame)
    | ReaderMoves
    | CutByDisconnect
    | SwapByDisconnect
    | CloseDropped(id: nat)
    | SignalClosed
    | CutByClose
    | SwapByClose
    | CloseClosing(id: nat)
    | Receive(id: nat)
    | Expire(id: nat)
    | SeeClosed(id: nat)

  function Fresh(): Client {
    Client(map[], {}, 0, Idle, true, false, NotClosing, false, {}, {}, [])
  }

  /** Remove id from the pending map, if it is still there, on behalf of taker. */
  function Take(c: Client, id: nat, taker: Taker): Client
    requires id in c.pending ==> id in c.requests
  {
    if id in c.pending
    then c.(pending := c.pending - {id},
            requests := c.requests[id := c.requests[id].TakenBy(taker)])
    else c
  }

  /** Swap the whole map out. */
  function TakeAll(c: Client, taker: Taker): Client {
    c.(pending := {},
       requests := map id | id in c.requests ::
         if id in c.pending then c.requests[id].TakenBy(taker) else c.requests[id])
  }

  function SetStage(c: Client, id: nat, stage: Stage): Client
    requires id in c.requests
  {
    c.(requests := c.requests[id := c.requests[id].(stage := stage)])
  }

  function SetReply(c: Client, id: nat, reply: Chan<Frame>): Client
    requires id in c.requests
  {
    c.(requests := c.requests[id := c.requests[id].(reply := reply)])
  }

  predicate WellFormed(c: Client) {
    && c.pending <= c.requests.Keys
    && c.dropped <= c.requests.Keys
    && c.closing <= c.requests.Keys
    && (!c.reader.Idle? ==> c.reader.frame.replyTo in c.requests)
  }

  /** The wait at the end of a request: what its select would take. */
  function Wait(c: Client, id: nat): Client
    requires id in c.requests
  {
    var r := c.requests[id];
    if !r.stage.Waiting? then c
    else if r.reply.buf != [] then SetReply(SetStage(c, id, Done(Replied(r.reply.buf[0]))), id, r.reply.Receive())
    else if r.reply.closed then SetStage(c, id, Done(WasDisconnected))
    else c
  }

  function Step(c: Client, a: Action): Client
    requires WellFormed(c)
  {
    match a
    case Register =>
      var id := c.nextID + 1;
      c.(nextID := id, pending := c.pending + {id}, requests := c.requests[id := Request(Writing, MakeChan(1), None, 0)])
    case WriteReturns(id, ok) =>
      if id !in c.requests || !c.requests[id].stage.Writing? then c
      else if ok && c.transportOpen then SetStage(c, id, Waiting)
      else SetStage(Take(c, id, ByOwner), id, Done(WriteFailed))
    case Read(frame) =>
      if !c.reader.Idle? then c
      else
        var c1 := c.(seen := c.seen + [frame]);
        if frame.replyTo in c.pending then Take(c1, frame.replyTo, ByReader).(reader := Observing(frame)) else c1
    case ReaderMoves =>
      (match c.reader
       case Idle => c
       case Observing(frame) => c.(reader := Sending(frame))
       case Sending(frame) =>
         SetReply(c.(reader := Idle), frame.replyTo, c.requests[frame.replyTo].reply.Send(frame)))
    case CutByDisconnect => if c.dropped == {} then c.(transportOpen := false, cut := true) else c
    case SwapByDisconnect =>
      if c.cut then TakeAll(c, ByDisconnect).(dropped := c.pending, cut := false, swapped := true) else c
    case CloseDropped(id) =>
      if id in c.dropped then SetReply(c.(dropped := c.dropped - {id}), id, c.requests[id].reply.Close()) else c
    case SignalClosed => if c.closer.NotClosing? then c.(closer := Signalled) else c
    case CutByClose => if c.closer.Signalled? then c.(transportOpen := false, closer := ClosedTransport) else c
    case SwapByClose =>
      if c.closer.ClosedTransport?
      then TakeAll(c, ByClose).(closing := c.pending, closer := Swapped, swapped := true) else c
    case CloseClosing(id) =>
      if id in c.closing then SetReply(c.(closing := c.closing - {id}), id, c.requests[id].reply.Close()) else c
    case Receive(id) => if id in c.requests then Wait(c, id) else c
    case Expire(id) =>
      if id in c.requests && c.requests[id].stage.Waiting?
      then SetStage(Take(c, id, ByOwner), id, Done(TimedOut)) else c
    case SeeClosed(id) =>
      if id in c.requests && c.requests[id].stage.Waiting? && c.Closed()
      then SetStage(Take(c, id, ByOwner), id, Done(WasClosed)) else c
  }

  /** A request whose entry somebody took is in exactly one pair of hands. */
  ghost predicate RequestInv(c: Client, id: nat, r: Request) {
    && !r.reply.faulted && r.reply.cap == 1
    && (id in c.pending <==> r.taker.None?)
    && r.takes == (if r.taker.None? then 0 else 1)
    && (r.taker.None? ==> r.reply == MakeChan(1) && (r.stage.Writing? || r.stage.Waiting?))
    && (c.reader.Holds(id) ==> r.taker == Some(ByReader) && r.reply == MakeChan(1))
    && (id in c.dropped ==> r.taker == Some(ByDisconnect) && r.reply == MakeChan(1))
    && (id in c.closing ==> r.taker == Some(ByClose) && r.reply == MakeChan(1))
    && (r.taker == Some(ByReader) ==> !r.reply.closed)
    && (r.taker == Some(ByOwner) ==> r.stage.Done? && r.reply == MakeChan(1))
    && (r.taker == Some(ByReader) && !r.stage.Done? && !c.reader.Holds(id) ==> r.reply.buf != [])
    && (r.taker == Some(ByDisconnect) && id !in c.dropped ==> r.reply.closed)
    && (r.taker == Some(ByClose) && id !in c.closing ==> r.reply.closed)
    && (r.reply.buf != [] ==> r.taker == Some(ByReader))
    && (r.reply.closed ==> r.taker == Some(ByDisconnect) || r.taker == Some(ByClose))
    && (forall f :: f in r.reply.buf ==> f.replyTo == id && f in c.seen)
    && (r.stage.Done? && r.stage.outcome.Replied? ==>
          r.stage.outcome.frame.replyTo == id && r.stage.outcome.frame in c.seen && r.taker == Some(ByReader))
    && (r.stage.Done? && r.stage.outcome.WasDisconnected? ==> r.taker == Some(ByDisconnect) || r.taker == Some(ByClose))
  }

  ghost predicate ReaderInv(c: Client) {
    !c.reader.Idle? ==> c.reader.frame.replyTo in c.requests && c.reader.frame in c.seen
  }

  /** One disconnect at a time, one Close, and identifiers by a counter. */
  ghost predicate HandsInv(c: Client) {
    && WellFormed(c) && ReaderInv(c)
    && (c.cut ==> c.dropped == {})
    && (c.closing != {} ==> c.closer.Swapped?)
    && (forall id :: id in c.requests ==> id <= c.nextID)
  }

  ghost predicate Inv(c: Client) {
    HandsInv(c) && forall id :: id in c.requests ==> RequestInv(c, id, c.requests[id])
  }

  /** Nothing that concerns request id has changed. */
  ghost predicate Same(c: Client, d: Client, id: nat) {
    && id in c.requests && id in d.requests && d.requests[id] == c.requests[id]
    && (id in d.pending <==> id in c.pending)
    && (id in d.dropped <==> id in c.dropped)
    && (id in d.closing <==> id in c.closing)
    && (d.reader.Holds(id) <==> c.reader.Holds(id))
    && (forall f :: f in c.seen ==> f in d.seen)
  }

  lemma SameKeepsRequest(c: Client, d: Client, id: nat)
    requires Same(c, d, id) && RequestInv(c, id, c.requests[id])
    ensures RequestInv(d, id, d.requests[id])
  {
  }

  /** The one request an action is about; the swaps are about all of them. */
  function Target(c: Client, a: Action): Option<nat> {
    match a
    case Register => Some(c.nextID + 1)
    case WriteReturns(id, _) => Some(id)
    case Read(frame) => if c.reader.Idle? then Some(frame.replyTo) else None
    case ReaderMoves => if c.reader.Idle? then None else Some(c.reader.frame.replyTo)
    case CloseDropped(id) => Some(id)
    case CloseClosing(id) => Some(id)
    case Receive(id) => Some(id)
    case Expire(id) => Some(id)
    case SeeClosed(id) => Some(id)
    case _ => None
  }

  predicate Swap(a: Action) {
    a.SwapByDisconnect? || a.SwapByClose?
  }

  /** Request id is the only one that d differs in. */
  ghost predicate Local(c: Client, d: Client, id: nat) {
    && d.requests.Keys == c.requests.Keys && d.nextID == c.nextID
    && d.pending <= c.pending && d.dropped <= c.dropped && d.closing <= c.closing
    && d.transportOpen == c.transportOpen && d.cut == c.cut && d.closer == c.closer && d.swapped == c.swapped
    && ReaderInv(d)
    && (forall other :: other in c.requests && other != id ==> Same(c, d, other))
  }

  lemma StageIsLocal(c: Client, id: nat, stage: Stage)
    requires ReaderInv(c) && id in c.requests
    ensures Local(c, SetStage(c, id, stage), id)
  {
    assert c.requests.Keys == c.requests.Keys + {id};
  }

  lemma ReplyIsLocal(c: Client, id: nat, reply: Chan<Frame>)
    requires ReaderInv(c) && id in c.requests
    ensures Local(c, SetReply(c, id, reply), id)
  {
    assert c.requests.Keys == c.requests.Keys + {id};
  }

  lemma TakeIsLocal(c: Client, id: nat, taker: Taker)
    requires ReaderInv(c) && id in c.requests
    ensures Local(c, Take(c, id, taker), id)
  {
    assert c.requests.Keys == c.requests.Keys + {id};
  }

  lemma LocalComposes(c: Client, d: Client, e: Client, id: nat)
    requires Local(c, d, id) && Local(d, e, id)
    ensures Local(c, e, id)
  {
  }

  /** The end of a wait that gave up: the entry goes, if it is still there. */
  lemma GivingUpIsLocal(c: Client, id: nat, stage: Stage)
    requires ReaderInv(c) && id in c.requests
    ensures Local(c, SetStage(Take(c, id, ByOwner), id, stage), id)
  {
    var d := Take(c, id, ByOwner);
    TakeIsLocal(c, id, ByOwner);
    StageIsLocal(d, id, stage);
    LocalComposes(c, d, SetStage(d, id, stage), id);
  }

  lemma WaitIsLocal(c: Client, id: nat)
    requires ReaderInv(c) && id in c.requests
    ensures Local(c, Wait(c, id), id)
  {
    var r := c.requests[id];
    var stage := if r.reply.buf != [] then Done(Replied(r.reply.buf[0])) else Done(WasDisconnected);
    var d := SetStage(c, id, stage);
    StageIsLocal(c, id, stage);
    if r.stage.Waiting? && r.reply.buf != [] {
      ReplyIsLocal(d, id, r.reply.Receive());
      LocalComposes(c, d, SetReply(d, id, r.reply.Receive()), id);
    }
  }

  lemma OwnersActionIsLocal(c: Client, a: Action, id: nat)
    requires HandsInv(c) && (a.WriteReturns? || a.Receive? || a.Expire? || a.SeeClosed?) && Target(c, a) == Some(id)
    ensures Local(c, Step(c, a), id)
  {
    if id in c.requests {
      StageIsLocal(c, id, Waiting);
      match a
      case WriteReturns(_, _) => GivingUpIsLocal(c, id, Done(WriteFailed));
      case Receive(_) => WaitIsLocal(c, id);
      case Expire(_) => GivingUpIsLocal(c, id, Done(TimedOut));
      case SeeClosed(_) => GivingUpIsLocal(c, id, Done(WasClosed));
    }
  }

  lemma ReadIsLocal(c: Client, frame: Frame)
    requires HandsInv(c) && c.reader.Idle?
    ensures Local(c, Step(c, Read(frame)), frame.replyTo)
  {
    var c1 := c.(seen := c.seen + [frame]);
    if frame.replyTo in c.pending {
      TakeIsLocal(c1, frame.replyTo, ByReader);
    }
  }

  lemma HandingIsLocal(c: Client)
    requires HandsInv(c) && !c.reader.Idle?
    ensures Local(c, Step(c, ReaderMoves), c.reader.frame.replyTo)
  {
    var id := c.reader.frame.replyTo;
    ReplyIsLocal(c.(reader := Idle), id, c.requests[id].reply.Send(c.reader.frame));
  }

  lemma SweepersActionIsLocal(c: Client, a: Action, id: nat)
    requires HandsInv(c) && (a.CloseDropped? || a.CloseClosing?) && Target(c, a) == Some(id)
    ensures Local(c, Step(c, a), id)
  {
    if id in c.requests {
      assert Step(c, a).requests == c.requests[id := Step(c, a).requests[id]];
    }
  }

  lemma ActionIsLocal(c: Client, a: Action, id: nat)
    requires HandsInv(c) && !a.Register? && Target(c, a) == Some(id)
    ensures Local(c, Step(c, a), id)
  {
    if a.Read? {
      ReadIsLocal(c, a.frame);
    } else if a.ReaderMoves? {
      HandingIsLocal(c);
    } else if a.CloseDropped? || a.CloseClosing? {
      SweepersActionIsLocal(c, a, id);
    } else {
      OwnersActionIsLocal(c, a, id);
    }
  }

  lemma OthersSeeNothing(c: Client, a: Action, id: nat)
    requires HandsInv(c) && id in c.requests && !Swap(a) && Target(c, a) != Some(id)
    ensures Same(c, Step(c, a), id)
  {
    if Target(c, a).Some? && !a.Register? {
      ActionIsLocal(c, a, Target(c, a).value);
    }
  }

  lemma SwapKeepsRequest(c: Client, a: Action, id: nat)
    requires HandsInv(c) && id in c.requests && RequestInv(c, id, c.requests[id]) && Swap(a)
    ensures RequestInv(Step(c, a), id, Step(c, a).requests[id])
  {
  }

  lemma ReadKeepsRequest(c: Client, frame: Frame)
    requires HandsInv(c) && c.reader.Idle? && frame.replyTo in c.requests
    requires RequestInv(c, frame.replyTo, c.requests[frame.replyTo])
    ensures var d := Step(c, Read(frame)); RequestInv(d, frame.replyTo, d.requests[frame.replyTo])
  {
  }

  lemma HandingKeepsRequest(c: Client)
    requires HandsInv(c) && !c.reader.Idle?
    requires RequestInv(c, c.reader.frame.replyTo, c.requests[c.reader.frame.replyTo])
    ensures var d, id := Step(c, ReaderMoves), c.reader.frame.replyTo; RequestInv(d, id, d.requests[id])
  {
  }

  lemma OwnerKeepsRequest(c: Client, a: Action, id: nat)
    requires WellFormed(c) && id in c.requests && RequestInv(c, id, c.requests[id])
    requires !a.Register? && !a.Read? && !a.ReaderMoves? && Target(c, a) == Some(id)
    ensures RequestInv(Step(c, a), id, Step(c, a).requests[id])
  {
    match a
    case Receive(_) => assert RequestInv(Wait(c, id), id, Wait(c, id).requests[id]);
    case _ =>
  }

  lemma HandsStep(c: Client, a: Action)
    requires HandsInv(c)
    ensures HandsInv(Step(c, a))
  {
    if Target(c, a).Some? && !a.Register? {
      ActionIsLocal(c, a, Target(c, a).value);
    } else {
      assert c.requests.Keys <= Step(c, a).requests.Keys;
    }
  }

  lemma RequestStep(c: Client, a: Action, id: nat)
    requires HandsInv(c) && id in c.requests && RequestInv(c, id, c.requests[id])
    ensures id in Step(c, a).requests && RequestInv(Step(c, a), id, Step(c, a).requests[id])
  {
    if Swap(a) {
      SwapKeepsRequest(c, a, id);
    } else if Target(c, a) != Some(id) {
      OthersSeeNothing(c, a, id);
      SameKeepsRequest(c, Step(c, a), id);
    } else if a.Read? {
      ReadKeepsRequest(c, a.frame);
    } else if a.ReaderMoves? {
      HandingKeepsRequest(c);
    } else {
      OwnerKeepsRequest(c, a, id);
    }
  }

  lemma NewRequest(c: Client, a: Action, id: nat)
    requires HandsInv(c) && id in Step(c, a).requests && id !in c.requests
    ensures a.Register? && RequestInv(Step(c, a), id, Step(c, a).requests[id])
  {
  }

  lemma StepKeepsInv(c: Client, a: Action)
    requires Inv(c)
    ensures Inv(Step(c, a))
  {
    var d := Step(c, a);
    HandsStep(c, a);
    forall id | id in d.requests ensures RequestInv(d, id, d.requests[id]) {
      if id in c.requests {
        RequestStep(c, a, id);
      } else {
        NewRequest(c, a, id);
      }
    }
  }

  function Run(c: Client, schedule: seq<Action>): (d: Client)
    requires Inv(c)
    ensures Inv(d)
    decreases |schedule|
  {
    if schedule == [] then c
    else
      StepKeepsInv(c, schedule[0]);
      Run(Step(c, schedule[0]), schedule[1..])
  }

  lemma {:induction false} RunOneMore(c: Client, schedule: seq<Action>, a: Action)
    requires Inv(c)
    ensures Run(c, schedule + [a]) == Step(Run(c, schedule), a)
    decreases |schedule|
  {
    StepKeepsInv(Run(c, schedule), a);
    if schedule == [] {
      assert ([] + [a])[1..] == [];
    } else {
      StepKeepsInv(c, schedule[0]);
      assert (schedule + [a])[0] == schedule[0] && (schedule + [a])[1..] == schedule[1..] + [a];
      RunOneMore(Step(c, schedule[0]), schedule[1..], a);
    }
  }

  /** Every run, every request: its entry is removed at most once, so that its
      reply channel is never sent to and closed, never closed twice, and always has
      room for the reader; and a reply it returns is one that was read and that
      carries its own id. */
  lemma {:induction false} RepliesReachTheirRequest(schedule: seq<Action>, id: nat)
    requires id in Run(Fresh(), schedule).requests
    ensures var c := Run(Fresh(), schedule);
            var r := c.requests[id];
            && !r.reply.faulted
            && r.takes <= 1
            && (id in c.pending <==> r.takes == 0)
            && (c.reader.Sending? && c.reader.frame.replyTo == id ==> r.reply.HasRoom() && !r.reply.closed)
            && (r.stage.Done? && r.stage.outcome.Replied? ==>
                  r.stage.outcome.frame.replyTo == id && r.stage.outcome.frame in c.seen)
  {
    assert RequestInv(Run(Fresh(), schedule), id, Run(Fresh(), schedule).requests[id]);
  }

  /** Somebody has closed the transport and has the swap still to make. */
  predicate SwapComing(c: Client) {
    c.cut || c.closer.ClosedTransport?
  }

  /** A request that was written before the transport was closed is in the map when
      the swap comes; one that registers later cannot be written. */
  ghost predicate SweepInv(c: Client) {
    && (c.swapped || SwapComing(c) ==> !c.transportOpen)
    && (!c.transportOpen ==> c.swapped || SwapComing(c))
    && (forall id :: id in c.pending && id in c.requests && c.requests[id].stage.Waiting? ==>
          c.transportOpen || (SwapComing(c) && !c.swapped))
  }

  lemma WritesNeedTheTransport(c: Client, a: Action, id: nat)
    requires HandsInv(c) && Target(c, a) == Some(id) && id in Step(c, a).pending && id in c.requests
    requires Step(c, a).requests[id].stage.Waiting? && !c.requests[id].stage.Waiting?
    ensures c.transportOpen
  {
  }

  lemma SweepStep(c: Client, a: Action)
    requires HandsInv(c) && SweepInv(c)
    ensures SweepInv(Step(c, a))
  {
    var t := Target(c, a);
    if t.Some? && !a.Register? {
      ActionIsLocal(c, a, t.value);
      if t.value in c.requests && t.value in Step(c, a).pending
         && Step(c, a).requests[t.value].stage.Waiting? && !c.requests[t.value].stage.Waiting? {
        WritesNeedTheTransport(c, a, t.value);
      }
    }
  }

  lemma {:induction false} RunKeepsSweep(c: Client, schedule: seq<Action>)
    requires Inv(c) && SweepInv(c)
    ensures SweepInv(Run(c, schedule))
    decreases |schedule|
  {
    if schedule == [] {
    } else {
      StepKeepsInv(c, schedule[0]);
      SweepStep(c, schedule[0]);
      RunKeepsSweep(Step(c, schedule[0]), schedule[1..]);
    }
  }

  /** No waiter is left behind: a waiting request is in the map with its swap still
      to come, or its entry is in the hands of the reader or of a sweep, or its wait
      is over. */
  lemma {:induction false} NoWaiterIsForgotten(schedule: seq<Action>, id: nat)
    requires id in Run(Fresh(), schedule).requests
    requires Run(Fresh(), schedule).requests[id].stage.Waiting?
    ensures var c := Run(Fresh(), schedule);
            || (id in c.pending && !c.swapped && (c.transportOpen || SwapComing(c)))
            || c.reader.Holds(id) || id in c.dropped || id in c.closing
            || Wait(c, id).requests[id].stage.Done?
  {
    var c := Run(Fresh(), schedule);
    RunKeepsSweep(Fresh(), schedule);
    assert RequestInv(c, id, c.requests[id]);
    match c.requests[id].taker
    case None =>
    case Some(ByReader) =>
    case Some(ByOwner) =>
    case Some(ByDisconnect) =>
    case Some(ByClose) =>
  }

  lemma SwappedStep(c: Client, a: Action)
    requires WellFormed(c) && c.swapped
    ensures Step(c, a).swapped
  {
  }

  lemma {:induction false} SwappedStays(c: Client, schedule: seq<Action>)
    requires Inv(c) && c.swapped
    ensures Run(c, schedule).swapped
    decreases |schedule|
  {
    if schedule == [] {
    } else {
      StepKeepsInv(c, schedule[0]);
      SwappedStep(c, schedule[0]);
      SwappedStays(Step(c, schedule[0]), schedule[1..]);
    }
  }

  /** Once a disconnect or Close has swapped the map, in every continuation: no
      waiting request is in the map, and as soon as the reader is idle and no sweep
      is walking, every waiting request can return. */
  lemma {:induction false} TheSweepsReachEveryWaiter(before: seq<Action>, after: seq<Action>, id: nat)
    requires Run(Fresh(), before).swapped
    requires id in Run(Run(Fresh(), before), after).requests
    requires Run(Run(Fresh(), before), after).requests[id].stage.Waiting?
    ensures var c := Run(Run(Fresh(), before), after);
            && id !in c.pending
            && (c.reader.Idle? && c.dropped == {} && c.closing == {} ==> Wait(c, id).requests[id].stage.Done?)
  {
    var c := Run(Run(Fresh(), before), after);
    RunKeepsSweep(Fresh(), before);
    RunKeepsSweep(Run(Fresh(), before), after);
    SwappedStays(Run(Fresh(), before), after);
    assert RequestInv(c, id, c.requests[id]);
    match c.requests[id].taker
    case None =>
    case Some(ByReader) =>
    case Some(ByOwner) =>
    case Some(ByDisconnect) =>
    case Some(ByClose) =>
  }

  // ---- what a request returns ----------------------------------------------

  /** How the wait of request id ended, if it has. */
  function OutcomeOf(c: Client, id: nat): Option<Outcome> {
    if id in c.requests && c.requests[id].stage.Done? then Some(c.requests[id].stage.outcome) else None
  }

  /** A reply that the reader has handed over is what the request returns: a frame
      that was read, with the request's own id. */
  lemma {:induction false} AnArrivedReplyIsReturned(schedule: seq<Action>, id: nat)
    requires var c := Run(Fresh(), schedule);
             id in c.requests && c.requests[id].stage.Waiting? && c.requests[id].taker == Some(ByReader) && c.reader.Idle?
    ensures var c := Run(Fresh(), schedule);
            exists f :: f in c.seen && f.replyTo == id && OutcomeOf(Step(c, Receive(id)), id) == Some(Replied(f))
  {
    var c := Run(Fresh(), schedule);
    var r := c.requests[id];
    assert RequestInv(c, id, r);
    assert r.reply.buf[0] in r.reply.buf;
    assert OutcomeOf(Step(c, Receive(id)), id) == Some(Replied(r.reply.buf[0]));
  }

  /** From the wire to the caller: in every run, a frame that answers a request in the
      map is handed over by the reader, and the waiting request returns that frame. A
      frame that answers nobody is dropped. */
  lemma {:induction false} TheFrameIsReturned(schedule: seq<Action>, frame: Frame)
    requires Run(Fresh(), schedule).reader.Idle?
    ensures var c := Run(Fresh(), schedule);
            var id := frame.replyTo;
            id in c.pending && c.requests[id].stage.Waiting? ==>
              var d := Run(c, [Read(frame), ReaderMoves, ReaderMoves, Receive(id)]);
              d.reader.Idle? && id !in d.pending && OutcomeOf(d, id) == Some(Replied(frame))
    ensures var c := Run(Fresh(), schedule);
            frame.replyTo !in c.pending ==>
              var d := Step(c, Read(frame)); d.requests == c.requests && d.pending == c.pending && d.reader.Idle?
  {
    var c := Run(Fresh(), schedule);
    if frame.replyTo in c.pending && c.requests[frame.replyTo].stage.Waiting? {
      HandOverToTheWaiter(c, frame);
    }
  }

  lemma {:induction false} HandOverToTheWaiter(c: Client, frame: Frame)
    requires Inv(c) && c.reader.Idle? && frame.replyTo in c.pending && c.requests[frame.replyTo].stage.Waiting?
    ensures var id := frame.replyTo;
            var d := Run(c, [Read(frame), ReaderMoves, ReaderMoves, Receive(id)]);
            d.reader.Idle? && id !in d.pending && OutcomeOf(d, id) == Some(Replied(frame))
  {
    var id := frame.replyTo;
    StepKeepsInv(c, Read(frame));
    var c1 := Step(c, Read(frame));
    StepKeepsInv(c1, ReaderMoves);
    var c2 := Step(c1, ReaderMoves);
    TheReaderTakesTheEntry(c, frame);
    StepKeepsInv(c2, ReaderMoves);
    var c3 := Step(c2, ReaderMoves);
    TheReaderSends(c2, frame);
    StepKeepsInv(c3, Receive(id));
    FourSteps(c, c1, c2, c3, Read(frame), ReaderMoves, ReaderMoves, Receive(id));
  }

  lemma TheReaderTakesTheEntry(c: Client, frame: Frame)
    requires Inv(c) && c.reader.Idle? && frame.replyTo in c.pending && c.requests[frame.replyTo].stage.Waiting?
    requires WellFormed(Step(c, Read(frame)))
    ensures var d := Step(Step(c, Read(frame)), ReaderMoves);
            && d.reader == Sending(frame) && frame.replyTo !in d.pending && frame.replyTo in d.requests
            && d.requests[frame.replyTo].stage.Waiting? && d.requests[frame.replyTo].reply == MakeChan(1)
  {
    assert RequestInv(c, frame.replyTo, c.requests[frame.replyTo]);
  }

  lemma TheReaderSends(c: Client, frame: Frame)
    requires WellFormed(c) && c.reader == Sending(frame) && frame.replyTo !in c.pending
    requires c.requests[frame.replyTo].stage.Waiting? && c.requests[frame.replyTo].reply == MakeChan(1)
    requires WellFormed(Step(c, ReaderMoves))
    ensures var d := Step(Step(c, ReaderMoves), Receive(frame.replyTo));
            d.reader.Idle? && frame.replyTo !in d.pending && OutcomeOf(d, frame.replyTo) == Some(Replied(frame))
  {
    var d := Step(c, ReaderMoves);
    assert d.requests[frame.replyTo].reply.buf == [frame];
  }

  lemma {:induction false} FourSteps(c: Client, c1: Client, c2: Client, c3: Client, a: Action, b: Action, x: Action, y: Action)
    requires Inv(c) && Inv(c1) && Inv(c2) && Inv(c3)
    requires c1 == Step(c, a) && c2 == Step(c1, b) && c3 == Step(c2, x) && Inv(Step(c3, y))
    ensures Run(c, [a, b, x, y]) == Step(c3, y)
  {
    OneStepRun(c3, y);
    assert [x, y][1..] == [y] && [b, x, y][1..] == [x, y] && [a, b, x, y][1..] == [b, x, y];
    assert Run(c2, [x, y]) == Run(c3, [y]);
    assert Run(c1, [b, x, y]) == Run(c2, [x, y]);
  }

  lemma OneStepRun(c: Client, a: Action)
    requires Inv(c)
    ensures Run(c, [a]) == Step(c, a)
  {
    StepKeepsInv(c, a);
    assert Run(Step(c, a), []) == Step(c, a);
  }

  /** The other ends of a wait: a closed reply channel is a disconnect, an expired
      context a timeout, a closed client ErrClosed, and a write that fails ends the
      request at once; whoever gives up leaves no entry behind. */
  lemma {:induction false} EveryWaitHasItsOutcome(schedule: seq<Action>, id: nat)
    requires id in Run(Fresh(), schedule).requests
    ensures var c := Run(Fresh(), schedule);
            c.requests[id].stage.Waiting? && c.requests[id].reply.closed ==>
              OutcomeOf(Step(c, Receive(id)), id) == Some(WasDisconnected)
    ensures var c := Run(Fresh(), schedule);
            var d := Step(c, Expire(id));
            c.requests[id].stage.Waiting? ==> OutcomeOf(d, id) == Some(TimedOut) && id !in d.pending
    ensures var c := Run(Fresh(), schedule);
            var d := Step(c, SeeClosed(id));
            c.requests[id].stage.Waiting? && c.Closed() ==> OutcomeOf(d, id) == Some(WasClosed) && id !in d.pending
    ensures var c := Run(Fresh(), schedule);
            var d := Step(c, WriteReturns(id, false));
            c.requests[id].stage.Writing? ==> OutcomeOf(d, id) == Some(WriteFailed) && id !in d.pending
    ensures var c := Run(Fresh(), schedule);
            c.requests[id].stage.Writing? && c.transportOpen ==> Step(c, WriteReturns(id, true)).requests[id].stage.Waiting?
  {
    var c := Run(Fresh(), schedule);
    assert RequestInv(c, id, c.requests[id]);
  }

  /** A new request is in the map at once; a disconnect and Close close the transport
      before they swap, and everything that is in the map then is theirs. */
  lemma {:induction false} SweepsTakeEffect(schedule: seq<Action>, id: nat)
    ensures var c := Run(Fresh(), schedule);
            var d := Step(c, Register);
            c.nextID + 1 in d.pending && d.requests[c.nextID + 1].stage.Writing?
    ensures var c := Run(Fresh(), schedule);
            c.dropped == {} ==> Step(c, CutByDisconnect).cut && !Step(c, CutByDisconnect).transportOpen
    ensures var c := Run(Fresh(), schedule);
            Step(c, SignalClosed).Closed()
            && (c.closer.Signalled? ==> Step(c, CutByClose).closer.ClosedTransport? && !Step(c, CutByClose).transportOpen)
    ensures var c := Run(Fresh(), schedule);
            c.cut && id in c.pending ==> id in Step(c, SwapByDisconnect).dropped
    ensures var c := Run(Fresh(), schedule);
            c.closer.ClosedTransport? && id in c.pending ==> id in Step(c, SwapByClose).closing
  {
  }

  /** A sweep closes the reply channel of every request whose entry it swapped out. */
  lemma {:induction false} SweptRequestsAreClosed(schedule: seq<Action>, id: nat)
    ensures var c := Run(Fresh(), schedule);
            id in c.dropped ==> Step(c, CloseDropped(id)).requests[id].reply.closed
    ensures var c := Run(Fresh(), schedule);
            id in c.closing ==> Step(c, CloseClosing(id)).requests[id].reply.closed
  {
    var c := Run(Fresh(), schedule);
    if id in c.requests {
      assert RequestInv(c, id, c.requests[id]);
    }
  }

  lemma DoneStaysDone(c: Client, a: Action, id: nat)
    requires Inv(c) && id in c.requests && c.requests[id].stage.Done?
    ensures id in Step(c, a).requests && Step(c, a).requests[id].stage == c.requests[id].stage
  {
    assert id <= c.nextID;
    if !Swap(a) && Target(c, a) != Some(id) {
      OthersSeeNothing(c, a, id);
    }
  }

  /** A request returns once: its outcome never changes. */
  lemma {:induction false} OutcomesAreFinal(c: Client, schedule: seq<Action>, id: nat)
    requires Inv(c) && id in c.requests && c.requests[id].stage.Done?
    ensures id in Run(c, schedule).requests && Run(c, schedule).requests[id].stage == c.requests[id].stage
    decreases |schedule|
  {
    if schedule == [] {
    } else {
      StepKeepsInv(c, schedule[0]);
      DoneStaysDone(c, schedule[0], id);
      OutcomesAreFinal(Step(c, schedule[0]), schedule[1..], id);
    }
  }

  // ---- the map itself ------------------------------------------------------

  /** The reply channel a request waits on. */
  class ReplyCell {
    var reply: Chan<Frame>

    constructor ()
      ensures reply == MakeChan(1)
    {
      reply := MakeChan(1);
    }
  }

  class PendingTable {
    var pending: map<nat, ReplyCell>
    var nextID: nat

    /** The cell of every request ever registered. One that is not in `pending` any
        more belongs to whoever took its entry. */
    ghost var cells: map<nat, ReplyCell>

    ghost predicate Valid()
      reads this
    {
      && (forall id :: id in pending ==> id in cells && pending[id] == cells[id])
      && (forall i, j :: i in cells && j in cells && i != j ==> cells[i] != cells[j])
    }

    /** The table is the one of c. */
    ghost predicate Shows(c: Client)
      reads this, cells.Values
    {
      && nextID == c.nextID && pending.Keys == c.pending && cells.Keys == c.requests.Keys
      && (forall id :: id in cells ==> cells[id].reply == c.requests[id].reply)
    }

    constructor ()
      ensures Valid() && Shows(Fresh())
    {
      pending, nextID, cells := map[], 0, map[];
    }

    method Register(ghost c: Client) returns (id: nat, cell: ReplyCell)
      requires Valid() && Shows(c) && HandsInv(c)
      modifies this
      ensures Valid() && Shows(Step(c, Action.Register))
      ensures id == c.nextID + 1 && id !in c.requests && fresh(cell) && cells == old(cells)[id := cell]
    {
      cell := new ReplyCell();
      nextID := nextID + 1;
      id := nextID;
      pending := pending[id := cell];
      cells := cells[id := cell];
      assert pending.Keys == old(pending.Keys) + {id};
    }

    /** removePending */
    method Remove(ghost c: Client, id: nat)
      requires Valid() && Shows(c) && HandsInv(c)
      modifies this`pending
      ensures Valid() && Shows(Take(c, id, ByOwner))
    {
      pending := pending - {id};
      assert pending.Keys == old(pending.Keys) - {id};
    }

    /** The reader's lookup and delete. */
    method TakeForReader(ghost c: Client, frame: Frame) returns (cell: ReplyCell?)
      requires Valid() && Shows(c) && HandsInv(c) && c.reader.Idle?
      modifies this`pending
      ensures Valid() && Shows(Step(c, Read(frame)))
      ensures cell != null <==> frame.replyTo in c.pending
      ensures cell != null ==> frame.replyTo in cells && cells[frame.replyTo] == cell
    {
      cell := null;
      if frame.replyTo in pending {
        cell := pending[frame.replyTo];
        pending := pending - {frame.replyTo};
        assert pending.Keys == old(pending.Keys) - {frame.replyTo};
      }
    }

    /** The reader's send, after the observer has run and outside the lock. */
    method HandOver(ghost c: Client, cell: ReplyCell, frame: Frame)
      requires Valid() && Shows(c) && HandsInv(c) && c.reader == Sending(frame)
      requires frame.replyTo in cells && cells[frame.replyTo] == cell
      modifies cell
      ensures Valid() && Shows(Step(c, ReaderMoves))
    {
      cell.reply := cell.reply.Send(frame);
    }

    /** The locked part of a sweep. */
    method SwapOut(ghost c: Client, ghost byClose: bool) returns (swept: map<nat, ReplyCell>)
      requires Valid() && Shows(c) && HandsInv(c) && if byClose then c.closer.ClosedTransport? else c.cut
      modifies this`pending
      ensures Valid() && Shows(Step(c, if byClose then SwapByClose else SwapByDisconnect))
      ensures swept == old(pending)
    {
      swept := pending;
      pending := map[];
    }

    /** One turn of the loop below. */
    method CloseReply(ghost c: Client, ghost byClose: bool, ghost id: nat, cell: ReplyCell)
      requires Valid() && Shows(c) && HandsInv(c) && id in Swept(c, byClose)
      requires id in cells && cells[id] == cell
      modifies cell
      ensures Valid() && Shows(Step(c, CloseSwept(id, byClose)))
      ensures Swept(Step(c, CloseSwept(id, byClose)), byClose) == Swept(c, byClose) - {id}
      ensures cell.reply == old(cell.reply).Close()
    {
      cell.reply := cell.reply.Close();
      SweepersActionIsLocal(c, CloseSwept(id, byClose), id);
    }

    /** The rest of it: every reply channel of the old map is closed, exactly once.
        `schedule` are the steps of the run that this loop makes. */
    method CloseReplies(ghost c: Client, ghost byClose: bool, swept: map<nat, ReplyCell>)
      returns (ghost schedule: seq<Action>)
      requires Valid() && Shows(c) && Inv(c) && swept.Keys == Swept(c, byClose)
      requires forall id :: id in swept ==> id in cells && cells[id] == swept[id]
      modifies swept.Values
      ensures Valid() && Shows(Run(c, schedule)) && Swept(Run(c, schedule), byClose) == {}
      ensures forall id :: id in swept ==> swept[id].reply == old(swept[id].reply).Close()
    {
      schedule := [];
      ghost var d := c;
      var rest := swept.Keys;
      while rest != {}
        invariant Valid() && Shows(d) && Inv(d) && d == Run(c, schedule)
        invariant rest == Swept(d, byClose) <= swept.Keys && Sweeping(c, d, byClose)
      {
        var id :| id in rest;
        rest := rest - {id};
        CloseReply(d, byClose, id, swept[id]);
        RunOneMore(c, schedule, CloseSwept(id, byClose));
        SweepingGoesOn(c, d, byClose, id);
        d, schedule := Step(d, CloseSwept(id, byClose)), schedule + [CloseSwept(id, byClose)];
      }
    }
  }

  /** The sweep of c has got to d: the replies it has been at are closed. */
  ghost predicate Sweeping(c: Client, d: Client, byClose: bool) {
    forall id :: id in Swept(c, byClose) && id in c.requests ==>
      && id in d.requests
      && d.requests[id].reply
         == if id in Swept(d, byClose) then c.requests[id].reply else c.requests[id].reply.Close()
  }

  lemma SweepingGoesOn(c: Client, d: Client, byClose: bool, id: nat)
    requires Inv(d) && Sweeping(c, d, byClose) && id in Swept(d, byClose)
    ensures Sweeping(c, Step(d, CloseSwept(id, byClose)), byClose) && Inv(Step(d, CloseSwept(id, byClose)))
  {
    StepKeepsInv(d, CloseSwept(id, byClose));
  }

  function CloseSwept(id: nat, byClose: bool): Action {
    if byClose then CloseClosing(id) else CloseDropped(id)
  }

  /** The requests a sweep has swapped out and not closed yet. */
  function Swept(c: Client, byClose: bool): set<nat> {
    if byClose then c.closing else c.dropped
  }
}
