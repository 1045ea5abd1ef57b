/** StartTurn and Subscribe against disconnect and Close (client.go, session.go):
    any number of each, interleaved step by step, on a connection that is not
    being re-established. A waiter must not be left open behind a sweep. */
module Teardown {
  import opened Channels
  import opened Errors
  import opened States

  /** What matters here of a subscription: open, or closed with a cause, or
      closed by its owner, who gives none. */
  datatype Sub = Sub(turn: bool, open: bool, cause: Option<Error>, byOwner: bool)

  /** StartTurn: subscribe, then the two tests of Notify, then the write. */
  datatype Starter =
    | Subscribed(sub: nat)
    | StateChecked(sub: nat)
    | ClosedChecked(sub: nat)
    | StartReturned(sub: nat)
    | StartRefused(sub: nat)

  /** disconnect, which runs under reconnectMu from its test to its sweep. */
  datatype Disconnecter =
    | Blocked(terminal: bool)
    | Tested(terminal: bool)
    | Marked(terminal: bool)
    | Cut(terminal: bool)
    | Over

  /** closeWith, at most once. */
  datatype Closer = NotClosing | Claimed | Signalled | TransportClosed | Swept | CloseDone

  datatype Client = Client(
    state: ClientState, closed: bool, transportOpen: bool, locked: Option<nat>,
    subs: map<nat, Sub>, starters: map<nat, Starter>, disconnecters: map<nat, Disconnecter>, closer: Closer)

  datatype Action =
    | Subscribe(sub: nat, turn: bool)
    | StartTurn(starter: nat, sub: nat)
    | StarterMoves(starter: nat, writeFails: bool)
    | Disconnect(disconnecter: nat, terminal: bool)
    | DisconnecterMoves(disconnecter: nat, quits: bool, cause: Error)
    | Close
    | CloserMoves
    | EndSub(sub: nat, reason: Option<Error>)

  function Fresh(transportOpen: bool): Client {
    Client(Connected, false, transportOpen, None, map[], map[], map[], NotClosing)
  }

  /** subscribeOwned: open and in the map, or born closed. */
  function AddSub(c: Client, sub: nat, turn: bool): Client {
    c.(subs := c.subs[sub := if c.closed then Sub(turn, false, Some(Plain(ClientClosed)), false) else Sub(turn, true, None, false)])
  }

  /** A sweep of the open subscriptions, or of those of turns only. */
  function Sweep(subs: map<nat, Sub>, turnsOnly: bool, cause: Error): map<nat, Sub> {
    map id | id in subs ::
      if subs[id].open && (subs[id].turn || !turnsOnly) then subs[id].(open := false, cause := Some(cause)) else subs[id]
  }

  function MoveStarter(c: Client, s: nat, writeFails: bool): Client
    requires s in c.starters
  {
    match c.starters[s]
    case Subscribed(sub) =>
      c.(starters := c.starters[s := if c.state == Connected then StateChecked(sub) else StartRefused(sub)])
    case StateChecked(sub) =>
      c.(starters := c.starters[s := if c.closed then StartRefused(sub) else ClosedChecked(sub)])
    case ClosedChecked(sub) =>
      c.(starters := c.starters[s := if writeFails || !c.transportOpen then StartRefused(sub) else StartReturned(sub)])
    case _ => c
  }

  /** The test of disconnect reads the state several times; it may go on whatever
      it read, but it may return only on a state that says so. */
  function MoveDisconnecter(c: Client, d: nat, quits: bool, cause: Error): Client
    requires d in c.disconnecters
  {
    match c.disconnecters[d]
    case Blocked(terminal) =>
      if c.locked.Some? then c
      else if quits && (c.state.Ending() || (c.state.DisconnectedState? && !terminal))
      then c.(disconnecters := c.disconnecters[d := Over])
      else c.(locked := Some(d), disconnecters := c.disconnecters[d := Tested(terminal)])
    case Tested(terminal) => c.(state := DisconnectedState, disconnecters := c.disconnecters[d := Marked(terminal)])
    case Marked(terminal) => c.(transportOpen := false, disconnecters := c.disconnecters[d := Cut(terminal)])
    case Cut(terminal) =>
      c.(subs := if terminal then Sweep(c.subs, false, cause) else Sweep(c.subs, true, Plain(Disconnected)),
         locked := None, disconnecters := c.disconnecters[d := Over])
    case Over => c
  }

  function MoveCloser(c: Client): Client {
    match c.closer
    case NotClosing => c
    case Claimed => c.(closed := true, closer := Signalled)
    case Signalled => c.(transportOpen := false, closer := TransportClosed)
    case TransportClosed => c.(subs := Sweep(c.subs, false, Plain(ClientClosed)), closer := Swept)
    case Swept => c.(state := ClosedState, closer := CloseDone)
    case CloseDone => c
  }

  function Step(c: Client, a: Action): Client {
    match a
    case Subscribe(sub, turn) => if sub in c.subs then c else AddSub(c, sub, turn)
    case StartTurn(s, sub) =>
      if sub in c.subs || s in c.starters then c
      else AddSub(c, sub, true).(starters := c.starters[s := Subscribed(sub)])
    case StarterMoves(s, writeFails) => if s in c.starters then MoveStarter(c, s, writeFails) else c
    case Disconnect(d, terminal) =>
      if d in c.disconnecters then c else c.(disconnecters := c.disconnecters[d := Blocked(terminal)])
    case DisconnecterMoves(d, quits, cause) => if d in c.disconnecters then MoveDisconnecter(c, d, quits, cause) else c
    case Close => if c.closer.NotClosing? then c.(state := ClosingState, closer := Claimed) else c
    case CloserMoves => MoveCloser(c)
    case EndSub(sub, cause) =>
      if sub in c.subs && c.subs[sub].open then c.(subs := c.subs[sub := c.subs[sub].(open := false, cause := cause, byOwner := cause.None?)]) else c
  }

  function Run(c: Client, schedule: seq<Action>): Client
    decreases |schedule|
  {
    if schedule == [] then c else Run(Step(c, schedule[0]), schedule[1..])
  }

  // ---- invariants ----------------------------------------------------------

  /** A sweep is still to come from somebody who has closed the transport. */
  ghost predicate SweepComing(c: Client) {
    || c.closer.TransportClosed?
    || (c.locked.Some? && c.locked.value in c.disconnecters && c.disconnecters[c.locked.value].Cut?)
  }

  /** reconnectMu: its holder is exactly the one disconnect that is under way. */
  ghost predicate LockInv(c: Client) {
    && (c.locked.Some? ==> c.locked.value in c.disconnecters)
    && (forall d :: d in c.disconnecters ==>
          (c.disconnecters[d].Tested? || c.disconnecters[d].Marked? || c.disconnecters[d].Cut? <==> c.locked == Some(d)))
    && (forall d :: d in c.disconnecters && c.disconnecters[d].Cut? ==> !c.transportOpen)
    && (c.locked.None? && c.state.DisconnectedState? ==> !c.transportOpen)
    && (c.state.Ending() ==> !c.closer.NotClosing?)
    && (forall d :: d in c.disconnecters && c.disconnecters[d].Over? ==> !c.transportOpen || !c.closer.NotClosing?)
    && (c.closer.TransportClosed? || c.closer.Swept? || c.closer.CloseDone? ==> !c.transportOpen)
  }

  /** A started turn is still connected, or about to be swept, or closed. */
  ghost predicate StarterInv(c: Client) {
    && (forall s :: s in c.starters ==> c.starters[s].sub in c.subs && c.subs[c.starters[s].sub].turn)
    && (forall s :: s in c.starters && c.starters[s].StartReturned? ==>
          c.transportOpen || SweepComing(c) || !c.subs[c.starters[s].sub].open)
  }

  /** Closed exactly when there is a cause or its owner closed it. */
  predicate Honest(sub: Sub) {
    sub.open <==> sub.cause.None? && !sub.byOwner
  }

  ghost predicate HonestInv(c: Client) {
    forall id :: id in c.subs ==> Honest(c.subs[id])
  }

  ghost predicate CloseInv(c: Client) {
    && (c.closed <==> !c.closer.NotClosing? && !c.closer.Claimed?)
    && (c.closer.Swept? || c.closer.CloseDone? ==> forall id :: id in c.subs ==> !c.subs[id].open)
  }

  ghost predicate Inv(c: Client) {
    LockInv(c) && StarterInv(c) && CloseInv(c) && HonestInv(c)
  }

  lemma DisconnecterKeepsLock(c: Client, d: nat, quits: bool, cause: Error)
    requires LockInv(c) && d in c.disconnecters
    ensures LockInv(MoveDisconnecter(c, d, quits, cause))
  {
    var c' := MoveDisconnecter(c, d, quits, cause);
    assert forall e :: e in c.disconnecters && e != d ==> c'.disconnecters[e] == c.disconnecters[e];
  }

  lemma LockStep(c: Client, a: Action)
    requires LockInv(c)
    ensures LockInv(Step(c, a))
  {
    if a.DisconnecterMoves? && a.disconnecter in c.disconnecters {
      DisconnecterKeepsLock(c, a.disconnecter, a.quits, a.cause);
    }
  }

  lemma DisconnecterKeepsStarters(c: Client, d: nat, quits: bool, cause: Error)
    requires StarterInv(c) && LockInv(c) && d in c.disconnecters
    ensures StarterInv(MoveDisconnecter(c, d, quits, cause))
  {
    if c.disconnecters[d].Cut? {
      assert c.locked == Some(d);
    }
  }

  lemma CloserKeepsStarters(c: Client)
    requires StarterInv(c) && LockInv(c)
    ensures StarterInv(MoveCloser(c))
  {
  }

  lemma StarterStep(c: Client, a: Action)
    requires StarterInv(c) && LockInv(c)
    ensures StarterInv(Step(c, a))
  {
    if a.DisconnecterMoves? && a.disconnecter in c.disconnecters {
      DisconnecterKeepsStarters(c, a.disconnecter, a.quits, a.cause);
    } else if a.CloserMoves? {
      CloserKeepsStarters(c);
    }
  }

  lemma CloseStep(c: Client, a: Action)
    requires CloseInv(c)
    ensures CloseInv(Step(c, a))
  {
  }

  lemma SweepKeepsHonest(subs: map<nat, Sub>, turnsOnly: bool, cause: Error)
    requires forall id :: id in subs ==> Honest(subs[id])
    ensures forall id :: id in subs ==> Honest(Sweep(subs, turnsOnly, cause)[id])
  {
  }

  lemma SweepersKeepHonest(c: Client, d: nat, quits: bool, cause: Error)
    requires HonestInv(c)
    ensures HonestInv(MoveCloser(c))
    ensures d in c.disconnecters ==> HonestInv(MoveDisconnecter(c, d, quits, cause))
  {
    SweepKeepsHonest(c.subs, false, Plain(ClientClosed));
    SweepKeepsHonest(c.subs, true, Plain(Disconnected));
    SweepKeepsHonest(c.subs, false, cause);
  }

  lemma HonestStep(c: Client, a: Action)
    requires HonestInv(c)
    ensures HonestInv(Step(c, a))
  {
    match a
    case DisconnecterMoves(d, quits, cause) => SweepersKeepHonest(c, d, quits, cause);
    case CloserMoves => SweepersKeepHonest(c, 0, false, Plain(ClientClosed));
    case StarterMoves(_, _) => assert Step(c, a).subs == c.subs;
    case _ =>
  }

  lemma {:induction false} RunKeepsInv(c: Client, schedule: seq<Action>)
    requires Inv(c)
    ensures Inv(Run(c, schedule))
    decreases |schedule|
  {
    if schedule == [] {
    } else {
      LockStep(c, schedule[0]);
      StarterStep(c, schedule[0]);
      CloseStep(c, schedule[0]);
      HonestStep(c, schedule[0]);
      RunKeepsInv(Step(c, schedule[0]), schedule[1..]);
    }
  }

  /** No disconnect is between its test and its sweep, and Close has not begun or
      has done its sweep. */
  ghost predicate Settled(c: Client) {
    && (forall d :: d in c.disconnecters ==> c.disconnecters[d].Blocked? || c.disconnecters[d].Over?)
    && (c.closer.NotClosing? || c.closer.Swept? || c.closer.CloseDone?)
  }

  /** No turn is stranded: once a disconnect has happened and things have settled,
      every StartTurn that succeeded has a closed subscription, with a cause unless
      its own turn closed it, whatever the interleaving, and no StartTurn will ever
      succeed again. */
  lemma {:induction false} NoTurnIsStranded(transportOpen: bool, before: seq<Action>, after: seq<Action>, s: nat)
    requires var c := Run(Fresh(transportOpen), before);
             Settled(c) && exists d :: d in c.disconnecters && c.disconnecters[d].Over?
    requires var c := Run(Run(Fresh(transportOpen), before), after);
             s in c.starters && c.starters[s].StartReturned?
    ensures var c := Run(Run(Fresh(transportOpen), before), after);
            && c.starters[s].sub in c.subs
            && !c.subs[c.starters[s].sub].open
            && (c.subs[c.starters[s].sub].cause.Some? || c.subs[c.starters[s].sub].byOwner)
    ensures var c := Run(Fresh(transportOpen), before); s in c.starters && c.starters[s].StartReturned?
  {
    var c := Run(Fresh(transportOpen), before);
    RunKeepsInv(Fresh(transportOpen), before);
    assert !c.transportOpen;
    NothingStartsWithoutTransport(c, after, s);
    assert !c.subs[c.starters[s].sub].open;
    ClosedStaysClosed(c, after, c.starters[s].sub);
    StarterKeepsItsSub(c, after, s);
    RunKeepsInv(c, after);
  }

  lemma {:induction false} NothingStartsWithoutTransport(c: Client, schedule: seq<Action>, s: nat)
    requires !c.transportOpen
    requires s in Run(c, schedule).starters && Run(c, schedule).starters[s].StartReturned?
    ensures s in c.starters && c.starters[s].StartReturned?
    decreases |schedule|
  {
    if schedule == [] {
    } else {
      NothingStartsWithoutTransport(Step(c, schedule[0]), schedule[1..], s);
    }
  }

  lemma {:induction false} StarterKeepsItsSub(c: Client, schedule: seq<Action>, s: nat)
    requires s in c.starters && c.starters[s].StartReturned?
    ensures s in Run(c, schedule).starters && Run(c, schedule).starters[s] == c.starters[s]
    decreases |schedule|
  {
    if schedule == [] {
    } else {
      StarterKeepsItsSub(Step(c, schedule[0]), schedule[1..], s);
    }
  }

  /** Closure is final, and so is its cause. */
  lemma {:induction false} ClosedStaysClosed(c: Client, schedule: seq<Action>, sub: nat)
    requires sub in c.subs && !c.subs[sub].open
    ensures sub in Run(c, schedule).subs && Run(c, schedule).subs[sub] == c.subs[sub]
    decreases |schedule|
  {
    if schedule == [] {
    } else {
      ClosedStaysClosed(Step(c, schedule[0]), schedule[1..], sub);
    }
  }

  /** No waiter outlives Close: from the end of its sweep on, in every
      continuation, no subscription is open, neither one of before nor one made
      since. */
  lemma {:induction false} NoWaiterOutlivesClose(transportOpen: bool, before: seq<Action>, after: seq<Action>, sub: nat)
    requires var c := Run(Fresh(transportOpen), before); c.closer.Swept? || c.closer.CloseDone?
    requires sub in Run(Run(Fresh(transportOpen), before), after).subs
    ensures !Run(Run(Fresh(transportOpen), before), after).subs[sub].open
  {
    RunKeepsInv(Fresh(transportOpen), before);
    RunKeepsInv(Run(Fresh(transportOpen), before), after);
    CloseGoesOn(Run(Fresh(transportOpen), before), after);
  }

  lemma {:induction false} CloseGoesOn(c: Client, schedule: seq<Action>)
    requires c.closer.Swept? || c.closer.CloseDone?
    ensures Run(c, schedule).closer.Swept? || Run(c, schedule).closer.CloseDone?
    decreases |schedule|
  {
    if schedule == [] {
    } else {
      CloseGoesOn(Step(c, schedule[0]), schedule[1..]);
    }
  }

  /** What the sweep of Close leaves of a subscription. */
  function ToldClosed(sub: Sub): Sub {
    sub.(open := false, cause := Some(Plain(ClientClosed)))
  }

  lemma StepAfterSignal(c: Client, a: Action, sub: nat)
    requires c.closed && sub !in c.subs && sub in Step(c, a).subs
    ensures Step(c, a).closed && !Step(c, a).subs[sub].open
    ensures Step(c, a).subs[sub].cause == Some(Plain(ClientClosed)) && !Step(c, a).subs[sub].byOwner
  {
  }

  lemma {:induction false} BornClosed(c: Client, schedule: seq<Action>, sub: nat)
    requires CloseInv(c) && c.closed && sub !in c.subs && sub in Run(c, schedule).subs
    ensures var s := Run(c, schedule).subs[sub]; !s.open && s.cause == Some(Plain(ClientClosed)) && !s.byOwner
    decreases |schedule|
  {
    if schedule == [] {
    } else {
      var t := Step(c, schedule[0]);
      CloseStep(c, schedule[0]);
      SignalStays(c, schedule[0]);
      if sub in t.subs {
        StepAfterSignal(c, schedule[0], sub);
        ClosedStaysClosed(t, schedule[1..], sub);
      } else {
        BornClosed(t, schedule[1..], sub);
      }
    }
  }

  lemma SignalStays(c: Client, a: Action)
    requires c.closed
    ensures Step(c, a).closed
  {
  }

  /** Close tells everybody: in every run, when Close makes its sweep, and in every
      continuation, each subscription that was open until then is closed with
      ErrClosed, each one made since says ErrClosed too, and one that was closed
      before keeps its own cause. */
  lemma {:induction false} CloseTellsEverybody(transportOpen: bool, before: seq<Action>, after: seq<Action>, sub: nat)
    requires Run(Fresh(transportOpen), before).closer.TransportClosed?
    requires sub in Run(MoveCloser(Run(Fresh(transportOpen), before)), after).subs
    ensures var c := Run(Fresh(transportOpen), before);
            var s := Run(MoveCloser(c), after).subs[sub];
            if sub in c.subs then s == if c.subs[sub].open then ToldClosed(c.subs[sub]) else c.subs[sub]
            else !s.open && s.cause == Some(Plain(ClientClosed)) && !s.byOwner
  {
    var c := Run(Fresh(transportOpen), before);
    RunKeepsInv(Fresh(transportOpen), before);
    CloseStep(c, CloserMoves);
    if sub in c.subs {
      ClosedStaysClosed(MoveCloser(c), after, sub);
    } else {
      BornClosed(MoveCloser(c), after, sub);
    }
  }

  /** The sweep of a disconnect, in every run and with every continuation: an ordinary
      one closes exactly the open turn subscriptions, with ErrDisconnected, and leaves
      the raw ones alone; a terminal one closes every open subscription with its own
      cause. */
  lemma {:induction false} DisconnectTellsTheTurns(
      transportOpen: bool, before: seq<Action>, after: seq<Action>, d: nat, quits: bool, cause: Error, sub: nat)
    requires var c := Run(Fresh(transportOpen), before);
             d in c.disconnecters && c.disconnecters[d].Cut? && sub in c.subs
    ensures var c := Run(Fresh(transportOpen), before);
            var terminal := c.disconnecters[d].terminal;
            var e := Step(c, DisconnecterMoves(d, quits, cause));
            && sub in e.subs && e.locked.None? && e.disconnecters[d].Over?
            && (!terminal && !c.subs[sub].turn ==> e.subs[sub] == c.subs[sub])
            && (!c.subs[sub].open ==> e.subs[sub] == c.subs[sub])
            && (c.subs[sub].open && (c.subs[sub].turn || terminal) ==>
                  && sub in Run(e, after).subs
                  && Run(e, after).subs[sub]
                     == Sub(c.subs[sub].turn, false, Some(if terminal then cause else Plain(Disconnected)), false))
  {
    var c := Run(Fresh(transportOpen), before);
    RunKeepsInv(Fresh(transportOpen), before);
    assert Honest(c.subs[sub]);
    if c.subs[sub].open && (c.subs[sub].turn || c.disconnecters[d].terminal) {
      ClosedStaysClosed(Step(c, DisconnecterMoves(d, quits, cause)), after, sub);
    }
  }

  // ---- what gets done ------------------------------------------------------

  function Moves(c: Client, a: Action, n: nat): Client
    decreases n
  {
    if n == 0 then c else Moves(Step(c, a), a, n - 1)
  }

  /** On a connected client that is not closed a StartTurn whose write goes through
      succeeds with an open turn subscription; in every other case it is refused. */
  lemma StartTurnSucceedsExactly(c: Client, s: nat, sub: nat, writeFails: bool)
    requires s !in c.starters && sub !in c.subs
    ensures var d := Moves(Step(c, StartTurn(s, sub)), StarterMoves(s, writeFails), 3);
            && s in d.starters && sub in d.subs && d.subs[sub].turn
            && (d.starters[s] == StartReturned(sub) || d.starters[s] == StartRefused(sub))
            && (d.starters[s].StartReturned? <==> c.state == Connected && !c.closed && c.transportOpen && !writeFails)
            && (d.subs[sub].open <==> !c.closed)
  {
    var a := StarterMoves(s, writeFails);
    var c0 := Step(c, StartTurn(s, sub));
    var c1 := Step(c0, a);
    var c2 := Step(c1, a);
    assert c0.starters[s] == Subscribed(sub);
    assert Moves(c0, a, 3) == Moves(c1, a, 2) == Moves(c2, a, 1) == Moves(Step(c2, a), a, 0);
  }

  /** A disconnect that has the lock and finds nothing to make it return marks the
      client disconnected, closes the transport, and sweeps. */
  lemma DisconnectTakesEffect(c: Client, d: nat, terminal: bool, cause: Error)
    requires c.locked.None? && d !in c.disconnecters
    ensures var e := Moves(Step(c, Disconnect(d, terminal)), DisconnecterMoves(d, false, cause), 4);
            && e.state == DisconnectedState && !e.transportOpen && e.locked.None?
            && d in e.disconnecters && e.disconnecters[d].Over?
            && e.subs == (if terminal then Sweep(c.subs, false, cause) else Sweep(c.subs, true, Plain(Disconnected)))
  {
    var a := DisconnecterMoves(d, false, cause);
    var c0 := Step(c, Disconnect(d, terminal));
    var c1 := Step(c0, a);
    var c2 := Step(c1, a);
    var c3 := Step(c2, a);
    assert c1.disconnecters[d] == Tested(terminal) && c3.disconnecters[d] == Cut(terminal);
    assert Moves(c0, a, 4) == Moves(c1, a, 3) == Moves(c2, a, 2) == Moves(c3, a, 1) == Moves(Step(c3, a), a, 0);
  }

  /** A disconnect that returns early does so on a client that is ending, or that is
      disconnected already if the disconnect is an ordinary one, and changes nothing. */
  lemma DisconnectMayReturn(c: Client, d: nat, terminal: bool, cause: Error)
    requires c.locked.None? && d in c.disconnecters && c.disconnecters[d] == Blocked(terminal)
    ensures var e := Step(c, DisconnecterMoves(d, true, cause));
            && (e.disconnecters[d].Over? <==> c.state.Ending() || (c.state == DisconnectedState && !terminal))
            && (e.disconnecters[d].Over? ==> e == c.(disconnecters := c.disconnecters[d := Over]))
  {
  }

  /** Close signals, closes the transport, sweeps everybody, and is done; a second one
      changes nothing. */
  lemma CloseTakesEffect(c: Client)
    ensures c.closer.NotClosing? ==>
              var d := Moves(Step(c, Close), CloserMoves, 4);
              && d.closer.CloseDone? && d.closed && !d.transportOpen && d.state == ClosedState
              && d.subs.Keys == c.subs.Keys
              && forall id :: id in c.subs ==> d.subs[id] == if c.subs[id].open then ToldClosed(c.subs[id]) else c.subs[id]
    ensures !c.closer.NotClosing? ==> Step(c, Close) == c
  {
    if c.closer.NotClosing? {
      var c0 := Step(c, Close);
      var c1 := Step(c0, CloserMoves);
      var c2 := Step(c1, CloserMoves);
      var c3 := Step(c2, CloserMoves);
      assert Moves(c0, CloserMoves, 4) == Moves(c1, CloserMoves, 3) == Moves(c2, CloserMoves, 2)
          == Moves(c3, CloserMoves, 1) == Moves(Step(c3, CloserMoves), CloserMoves, 0);
    }
  }
}
