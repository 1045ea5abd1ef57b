/** One subscriber of client.go: its two channels, its done signal and the cause
    of its closure. Every function is one critical section under `subsMu`, or one
    receive of `Subscription.Next`. */
module Subscribers {
  import opened Channels
  import opened Errors

  datatype NextOutcome<E> = Got(event: E) | Failed(err: Error) | Blocked

  /** `registered` says whether the client's map still holds the subscriber;
      `fired` is its sync.Once. */
  datatype Subscriber<E> = Subscriber(
    registered: bool, turn: bool, fired: bool,
    events: Chan<E>, errors: Chan<Error>, done: Signal, err: Option<Error>)
  {
    /** closeSubscriberLocked */
    function Shut(cause: Option<Error>): Subscriber<E> {
      var gone := this.(registered := false);
      if fired then gone
      else gone.(
        fired := true,
        err := cause,
        errors := (if cause.Some? then errors.Send(cause.value) else errors).Close(),
        done := done.Close(),
        events := events.Close())
    }

    /** A sweep, or unsubscribe: it acts on a subscriber it finds in the map. */
    function Sweep(cause: Option<Error>): Subscriber<E> {
      if registered then Shut(cause) else this
    }

    /** The reader's fan-out to this subscriber. */
    function Deliver(e: E): Subscriber<E> {
      if !registered then this
      else if done.closed then this.(registered := false)
      else
        var (channel, sent) := events.TrySend(e);
        if sent then this.(events := channel)
        else this.(events := channel).Shut(Some(Plain(SubscriberOverflow)))
    }

    /** Whether Deliver puts e into the queue. */
    predicate Admits() {
      registered && !done.closed && !events.closed && events.HasRoom()
    }

    /** subscriptionError; the client's state matters only without a cause. */
    function SubscriptionError(clientClosed: bool): Error {
      if err.Some? then err.value
      else if clientClosed then Plain(ClientClosed)
      else Plain(Disconnected)
    }

    /** Next, when its select takes the events case. */
    function NextByEvents(clientClosed: bool): (Subscriber<E>, NextOutcome<E>) {
      if events.buf != [] then (this.(events := events.Receive()), Got(events.buf[0]))
      else if events.closed then (this, Failed(SubscriptionError(clientClosed)))
      else (this, Blocked)
    }

    /** Next, when its select takes the errors case. */
    function NextByErrors(clientClosed: bool): (Subscriber<E>, NextOutcome<E>) {
      if errors.buf != [] then (this.(errors := errors.Receive()), Failed(errors.buf[0]))
      else if errors.closed then (this, Failed(SubscriptionError(clientClosed)))
      else (this, Blocked)
    }

    function Next(byErrors: bool, clientClosed: bool): (Subscriber<E>, NextOutcome<E>) {
      if byErrors then NextByErrors(clientClosed) else NextByEvents(clientClosed)
    }

    predicate Faulted() {
      events.faulted || errors.faulted || done.faulted
    }

    /** What every operation keeps. A subscriber born after the client closed has
        never fired, but its event and error channels are closed. */
    predicate Sound() {
      && !Faulted()
      && errors.cap == 1
      && |events.buf| <= events.cap
      && registered == !events.closed
      && (fired ==> done.closed)
      && events.closed == errors.closed
      && (done.closed ==> events.closed)
      && (!events.closed ==> errors.buf == [] && err.None? && !fired)
      && (events.closed && !fired ==> err == Some(Plain(ClientClosed)))
      && (forall i :: 0 <= i < |errors.buf| ==> err == Some(errors.buf[i]))
    }
  }

  /** subscribeOwned, with the client's `closed` channel open or closed. */
  function Born<E>(buffer: nat, turn: bool, clientClosed: bool): (s: Subscriber<E>)
    ensures s.Sound() && s.registered == !clientClosed && s.events.buf == []
  {
    var s0: Subscriber<E> := Subscriber(!clientClosed, turn, false, MakeChan(buffer), MakeChan(1), OPEN, None);
    if clientClosed
    then s0.(err := Some(Plain(ClientClosed)), events := s0.events.Close(), errors := s0.errors.Close())
    else s0
  }

  /** No operation makes a sound subscriber panic or block whoever closes it, and
      a subscriber is in the map exactly while it is open. */
  lemma OperationsKeepSound<E>(s: Subscriber<E>, cause: Option<Error>, e: E, byErrors: bool, clientClosed: bool)
    requires s.Sound()
    ensures s.Sweep(cause).Sound() && !s.Sweep(cause).registered
    ensures s.Deliver(e).Sound()
    ensures s.Next(byErrors, clientClosed).0.Sound()
    ensures s.registered ==> s.Sweep(cause).err == cause
  {
  }

  /** Whichever case the select of Next takes, a closed subscriber that was given
      a cause fails with that cause and nothing else; it can fail at any time
      after the closure, buffered events or not, and it can always return. */
  lemma EveryFailureReportsTheCause<E>(s: Subscriber<E>, cause: Error, byErrors: bool, clientClosed: bool)
    requires s.Sound() && s.events.closed && s.err == Some(cause)
    ensures var o := s.Next(byErrors, clientClosed).1; !o.Blocked? && (o.Failed? ==> o.err == cause)
    ensures s.Next(true, clientClosed).1 == Failed(cause)
    ensures s.Next(false, clientClosed).1.Failed? <==> s.events.buf == []
    ensures s.Next(byErrors, clientClosed).0.err == Some(cause)
  {
    var o := s.Next(byErrors, clientClosed).1;
    if byErrors && s.errors.buf != [] {
      assert s.errors.buf[0] == cause;
    }
  }

  /** Closing takes effect at once: the channels are closed, the cause is stored and
      offered as an error, and what is buffered stays. */
  lemma ClosingTakesEffect<E>(s: Subscriber<E>, cause: Option<Error>)
    requires s.Sound()
    ensures s.registered ==>
              var t := s.Sweep(cause);
              && !t.registered && t.events.closed && t.errors.closed && t.done.closed && t.fired
              && t.err == cause && t.errors.buf == (if cause.Some? then [cause.value] else [])
              && t.events.buf == s.events.buf
    ensures !s.registered ==> s.Sweep(cause) == s
  {
  }

  /** Delivery to an open subscriber: the event is buffered if there is room, and
      otherwise the subscriber is closed as overflowed. A closed one is left alone. */
  lemma DeliveryTakesEffect<E>(s: Subscriber<E>, e: E)
    requires s.Sound()
    ensures s.registered && |s.events.buf| < s.events.cap ==>
              s.Deliver(e) == s.(events := s.events.(buf := s.events.buf + [e])) && s.Admits()
    ensures s.registered && |s.events.buf| == s.events.cap ==>
              s.Deliver(e) == s.Sweep(Some(Plain(SubscriberOverflow))) && !s.Admits()
    ensures !s.registered ==> s.Deliver(e) == s && !s.Admits()
  {
  }

  /** Whenever the select takes the events, the oldest one is received, open or
      closed; an open subscriber that has none waits. */
  lemma TheOldestEventIsReceived<E>(s: Subscriber<E>, clientClosed: bool)
    requires s.Sound()
    ensures s.events.buf != [] ==>
              s.Next(false, clientClosed) == (s.(events := s.events.(buf := s.events.buf[1..])), Got(s.events.buf[0]))
    ensures s.events.buf == [] && !s.events.closed ==> s.Next(false, clientClosed) == (s, Blocked)
    ensures !s.events.closed ==> s.Next(true, clientClosed) == (s, Blocked)
  {
  }

  /** A subscriber closed by its owner, who gives no cause, reports the state of the
      client. */
  lemma WithoutACauseTheClientDecides<E>(s: Subscriber<E>, byErrors: bool, clientClosed: bool)
    requires s.Sound() && s.events.closed && s.err.None? && (byErrors || s.events.buf == [])
    ensures s.Next(byErrors, clientClosed).1 == Failed(Plain(if clientClosed then ClientClosed else Disconnected))
  {
  }

  /** An open subscriber never fails. */
  lemma OpenNeverFails<E>(s: Subscriber<E>, byErrors: bool, clientClosed: bool)
    requires s.Sound() && !s.events.closed
    ensures !s.Next(byErrors, clientClosed).1.Failed?
  {
  }
}
