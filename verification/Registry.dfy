/** The subscription registry of client.go over whole runs: any number of
    subscribers, the reader's fan-out, unsubscribes, sweeps and readers of
    `Next`, in any order. */
module Registry {
  import opened Channels
  import opened Errors
  import opened Subscribers

  /** A subscriber with what happened to it: the events put in its queue, the
      events its owner received, and the failures its owner saw. */
  datatype Entry<E> = Entry(sub: Subscriber<E>, published: seq<E>, consumed: seq<E>, failures: seq<Error>)

  datatype Action<E> =
    | Subscribe(buffer: nat, turn: bool)
    | Publish(event: E)
    | Unsubscribe(id: nat)
    | FailTurns(cause: Error)
    | SweepAll(cause: Error)
    | SignalClosed
    | Next(reader: nat, byErrors: bool, clientClosed: bool)

  /** `entries` holds every subscriber ever made; the client's map is the subset
      that is registered. Identifiers are handed out by a counter. */
  datatype Client<E> = Client(entries: map<nat, Entry<E>>, nextSub: nat, closed: bool)

  function Fresh<E>(): Client<E> {
    Client(map[], 0, false)
  }

  /** What an action does to the subscriber that has identifier id. */
  function StepEntry<E>(x: Entry<E>, id: nat, a: Action<E>): Entry<E> {
    match a
    case Publish(e) =>
      Entry(x.sub.Deliver(e), if x.sub.Admits() then x.published + [e] else x.published, x.consumed, x.failures)
    case Unsubscribe(target) => if target == id then x.(sub := x.sub.Sweep(None)) else x
    case FailTurns(cause) => if x.sub.turn then x.(sub := x.sub.Sweep(Some(cause))) else x
    case SweepAll(cause) => x.(sub := x.sub.Sweep(Some(cause)))
    case Next(target, byErrors, clientClosed) =>
      if target != id then x
      else
        var (sub, outcome) := x.sub.Next(byErrors, clientClosed);
        Entry(sub, x.published,
              if outcome.Got? then x.consumed + [outcome.event] else x.consumed,
              if outcome.Failed? then x.failures + [outcome.err] else x.failures)
    case _ => x
  }

  function Step<E>(c: Client<E>, a: Action<E>): Client<E> {
    match a
    case Subscribe(buffer, turn) =>
      c.(entries := c.entries[c.nextSub + 1 := Entry(Born(buffer, turn, c.closed), [], [], [])],
         nextSub := c.nextSub + 1)
    case SignalClosed => c.(closed := true)
    case _ => c.(entries := map id | id in c.entries :: StepEntry(c.entries[id], id, a))
  }

  function Run<E>(c: Client<E>, schedule: seq<Action<E>>): Client<E>
    decreases |schedule|
  {
    if schedule == [] then c else Run(Step(c, schedule[0]), schedule[1..])
  }

  ghost predicate EntryInv<E>(x: Entry<E>) {
    && x.sub.Sound()
    && x.published == x.consumed + x.sub.events.buf
    && (x.failures != [] ==> x.sub.events.closed)
  }

  ghost predicate Inv<E>(c: Client<E>) {
    && (forall id :: id in c.entries ==> id <= c.nextSub && EntryInv(c.entries[id]))
  }

  lemma StepEntryKeepsInv<E>(x: Entry<E>, id: nat, a: Action<E>)
    requires EntryInv(x)
    ensures EntryInv(StepEntry(x, id, a))
  {
    match a
    case Publish(e) => OperationsKeepSound(x.sub, None, e, false, false);
    case Unsubscribe(_) =>
    case FailTurns(cause) =>
    case SweepAll(cause) =>
    case Next(_, byErrors, clientClosed) =>
      if x.sub.events.buf != [] {
        assert x.consumed + x.sub.events.buf == (x.consumed + [x.sub.events.buf[0]]) + x.sub.events.buf[1..];
      }
    case _ =>
  }

  lemma StepKeepsInv<E>(c: Client<E>, a: Action<E>)
    requires Inv(c)
    ensures Inv(Step(c, a))
  {
    if !a.Subscribe? && !a.SignalClosed? {
      forall id | id in c.entries ensures EntryInv(StepEntry(c.entries[id], id, a)) {
        StepEntryKeepsInv(c.entries[id], id, a);
      }
    }
  }

  /** The registry invariant, in every run: no operation ever hits a closed
      channel or blocks, whatever is still in the map is open, and for every
      subscriber what its owner received followed by what is queued is exactly
      what was put in its queue. */
  lemma {:induction false} EveryRunKeepsInv<E>(c: Client<E>, schedule: seq<Action<E>>)
    requires Inv(c)
    ensures Inv(Run(c, schedule))
    decreases |schedule|
  {
    if schedule == [] {
    } else {
      StepKeepsInv(c, schedule[0]);
      EveryRunKeepsInv(Step(c, schedule[0]), schedule[1..]);
    }
  }

  /** The actions that can touch subscriber id. */
  predicate Concerns<E>(a: Action<E>, id: nat) {
    match a
    case Publish(_) => true
    case Unsubscribe(target) => target == id
    case FailTurns(_) => true
    case SweepAll(_) => true
    case Next(target, _, _) => target == id
    case _ => false
  }

  function Concerning<E>(schedule: seq<Action<E>>, id: nat): seq<Action<E>>
    decreases |schedule|
  {
    if schedule == [] then []
    else (if Concerns(schedule[0], id) then [schedule[0]] else []) + Concerning(schedule[1..], id)
  }

  function RunEntry<E>(x: Entry<E>, id: nat, schedule: seq<Action<E>>): Entry<E>
    decreases |schedule|
  {
    if schedule == [] then x else RunEntry(StepEntry(x, id, schedule[0]), id, schedule[1..])
  }

  /** Isolation: the fate of a subscriber is a function of the actions that
      concern it. Nothing another subscriber does, overflow included, and no
      number of other subscribers, changes it. */
  lemma {:induction false} SubscribersAreIsolated<E>(c: Client<E>, schedule: seq<Action<E>>, id: nat)
    requires Inv(c) && id in c.entries
    ensures id in Run(c, schedule).entries
    ensures Run(c, schedule).entries[id] == RunEntry(c.entries[id], id, Concerning(schedule, id))
    decreases |schedule|
  {
    if schedule == [] {
    } else {
      var a, rest := schedule[0], schedule[1..];
      StepKeepsInv(c, a);
      assert Step(c, a).entries[id] == if Concerns(a, id) then StepEntry(c.entries[id], id, a) else c.entries[id];
      SubscribersAreIsolated(Step(c, a), rest, id);
      if Concerns(a, id) {
        assert Concerning(schedule, id)[1..] == Concerning(rest, id);
      } else {
        assert Concerning(schedule, id) == Concerning(rest, id);
      }
    }
  }

  /** The events the reader fans out in a schedule, in order. */
  function FannedOut<E>(schedule: seq<Action<E>>): seq<E>
    decreases |schedule|
  {
    if schedule == [] then []
    else (if schedule[0].Publish? then [schedule[0].event] else []) + FannedOut(schedule[1..])
  }

  /** How one action extends a stream, and that closure and cause are final. */
  ghost predicate Continues<E>(x: Entry<E>, y: Entry<E>, sent: seq<E>) {
    && x.published <= y.published <= x.published + sent
    && (y.sub.registered ==> y.published == x.published + sent)
    && (!x.sub.registered ==> y.published == x.published && !y.sub.registered)
    && (x.sub.events.closed ==> y.sub.events.closed && y.sub.err == x.sub.err)
  }

  lemma OneStepContinues<E>(x: Entry<E>, id: nat, a: Action<E>)
    requires EntryInv(x)
    ensures Continues(x, StepEntry(x, id, a), FannedOut([a]))
  {
    assert FannedOut([a]) == if a.Publish? then [a.event] else [];
  }

  lemma ContinuesCompose<E>(x: Entry<E>, y: Entry<E>, z: Entry<E>, s: seq<E>, t: seq<E>)
    requires Continues(x, y, s) && Continues(y, z, t)
    ensures Continues(x, z, s + t)
  {
    if y.sub.registered {
      assert x.published + (s + t) == y.published + t;
    } else {
      assert x.published + s <= x.published + (s + t);
    }
  }

  /** A subscriber's stream has no gap: it is a prefix of everything the reader
      fanned out since the subscription, and all of it while the subscriber is
      registered; and closure and its cause are final. */
  lemma {:induction false} StreamHasNoGap<E>(x: Entry<E>, id: nat, schedule: seq<Action<E>>)
    requires EntryInv(x)
    ensures EntryInv(RunEntry(x, id, schedule))
    ensures Continues(x, RunEntry(x, id, schedule), FannedOut(schedule))
    decreases |schedule|
  {
    if schedule == [] {
    } else {
      var a, rest := schedule[0], schedule[1..];
      var y := StepEntry(x, id, a);
      StepEntryKeepsInv(x, id, a);
      OneStepContinues(x, id, a);
      StreamHasNoGap(y, id, rest);
      ContinuesCompose(x, y, RunEntry(y, id, rest), FannedOut([a]), FannedOut(rest));
      assert FannedOut(schedule) == FannedOut([a]) + FannedOut(rest);
    }
  }

  /** A fan-out concerns everybody. */
  lemma {:induction false} FanOutConcernsAll<E>(schedule: seq<Action<E>>, id: nat)
    ensures FannedOut(Concerning(schedule, id)) == FannedOut(schedule)
    decreases |schedule|
  {
    if schedule == [] {
    } else {
      FanOutConcernsAll(schedule[1..], id);
      var rest := Concerning(schedule[1..], id);
      if Concerns(schedule[0], id) {
        assert Concerning(schedule, id) == [schedule[0]] + rest;
        assert ([schedule[0]] + rest)[1..] == rest;
      } else {
        assert Concerning(schedule, id) == rest;
      }
    }
  }

  /** The stream in a run of the whole client: whatever came before and whatever the
      other subscribers do, what a subscriber is given from any moment on is a
      prefix of what the reader fans out from then on, all of it while the
      subscriber is registered, and closure and cause are final. */
  lemma {:induction false} StreamsFollowTheFanOut<E>(before: seq<Action<E>>, after: seq<Action<E>>, id: nat)
    requires id in Run(Fresh<E>(), before).entries
    ensures var c := Run(Fresh<E>(), before);
            && id in Run(c, after).entries
            && Continues(c.entries[id], Run(c, after).entries[id], FannedOut(after))
  {
    var c := Run(Fresh<E>(), before);
    EveryRunKeepsInv(Fresh<E>(), before);
    SubscribersAreIsolated(c, after, id);
    StreamHasNoGap(c.entries[id], id, Concerning(after, id));
    FanOutConcernsAll(after, id);
  }

  /** What each operation does to each subscriber, in every run: a new one is open, or
      born closed with ErrClosed once the client has closed; a fan-out delivers to
      all; an unsubscribe closes its target, and no other, without a cause; the sweep
      of the turns closes those of turns, and no other, and the full sweep all, with
      its cause; what was closed before stays as it was. */
  lemma {:induction false} EveryOperationTakesEffect<E>(schedule: seq<Action<E>>, id: nat, a: Action<E>)
    requires id in Run(Fresh<E>(), schedule).entries
    ensures var c := Run(Fresh<E>(), schedule);
            var s, d := c.entries[id].sub, Step(c, a);
            && id in d.entries
            && (a.Publish? ==> d.entries[id].sub == s.Deliver(a.event))
            && (a.Unsubscribe? && s.registered && a.id == id ==> Ended(d.entries[id].sub, None))
            && (a.Unsubscribe? && a.id != id ==> d.entries[id] == c.entries[id])
            && (a.FailTurns? && s.registered && s.turn ==> Ended(d.entries[id].sub, Some(a.cause)))
            && (a.FailTurns? && !s.turn ==> d.entries[id] == c.entries[id])
            && (a.SweepAll? && s.registered ==> Ended(d.entries[id].sub, Some(a.cause)))
            && (!s.registered && (a.Unsubscribe? || a.FailTurns? || a.SweepAll?) ==> d.entries[id].sub == s)
            && (a.Next? && a.reader == id ==> d.entries[id].sub == s.Next(a.byErrors, a.clientClosed).0)
            && (a.Next? && a.reader != id ==> d.entries[id] == c.entries[id])
  {
    EveryRunKeepsInv(Fresh<E>(), schedule);
    assert EntryInv(Run(Fresh<E>(), schedule).entries[id]);
  }

  /** Out of the map, closed, and with that cause. */
  predicate Ended<E>(s: Subscriber<E>, cause: Option<Error>) {
    !s.registered && s.events.closed && s.errors.closed && s.done.closed && s.err == cause
  }

  lemma {:induction false} SubscribingTakesEffect<E>(schedule: seq<Action<E>>, buffer: nat, turn: bool)
    ensures var c := Run(Fresh<E>(), schedule);
            var d, id := Step(c, Subscribe(buffer, turn)), c.nextSub + 1;
            && id !in c.entries && id in d.entries && d.entries[id].published == d.entries[id].consumed == []
            && d.entries[id].sub.turn == turn && d.entries[id].sub.events.cap == buffer
            && (!c.closed ==> d.entries[id].sub.registered && !d.entries[id].sub.events.closed)
            && (c.closed ==> !d.entries[id].sub.registered && d.entries[id].sub.err == Some(Plain(ClientClosed)))
            && (forall other :: other in c.entries ==> other in d.entries && d.entries[other] == c.entries[other])
    ensures Step(Run(Fresh<E>(), schedule), SignalClosed).closed
  {
    EveryRunKeepsInv(Fresh<E>(), schedule);
  }

  /** Every failure the owner saw is the cause the subscriber was closed for. */
  ghost predicate Agreeing<E>(x: Entry<E>) {
    x.sub.err.Some? ==> forall i :: 0 <= i < |x.failures| ==> x.failures[i] == x.sub.err.value
  }

  lemma StepKeepsAgreeing<E>(x: Entry<E>, id: nat, a: Action<E>)
    requires EntryInv(x) && Agreeing(x)
    ensures Agreeing(StepEntry(x, id, a))
  {
    if a.Next? && x.sub.events.closed && x.sub.err.Some? {
      EveryFailureReportsTheCause(x.sub, x.sub.err.value, a.byErrors, a.clientClosed);
    }
  }

  lemma {:induction false} RunKeepsAgreeing<E>(c: Client<E>, schedule: seq<Action<E>>)
    requires Inv(c) && forall id :: id in c.entries ==> Agreeing(c.entries[id])
    ensures forall id :: id in Run(c, schedule).entries ==> Agreeing(Run(c, schedule).entries[id])
    decreases |schedule|
  {
    if schedule == [] {
    } else {
      var a := schedule[0];
      StepKeepsInv(c, a);
      forall id | id in c.entries ensures Agreeing(StepEntry(c.entries[id], id, a)) {
        StepKeepsAgreeing(c.entries[id], id, a);
      }
      RunKeepsAgreeing(Step(c, a), schedule[1..]);
    }
  }

  /** Every run of a client, from its creation, and every subscriber in it: the
      registry invariant holds, and if the subscriber was closed for a cause then
      every failure its owner saw is that cause. */
  lemma {:induction false} WholeRun<E>(schedule: seq<Action<E>>, id: nat)
    requires id in Run(Fresh<E>(), schedule).entries
    ensures EntryInv(Run(Fresh<E>(), schedule).entries[id])
    ensures Agreeing(Run(Fresh<E>(), schedule).entries[id])
  {
    EveryRunKeepsInv(Fresh<E>(), schedule);
    RunKeepsAgreeing(Fresh<E>(), schedule);
  }
}
