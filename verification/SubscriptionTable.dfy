/** The subscription part of client.go in its own form: subscriber objects that
    outlive their map entry, and the map the reader, the sweeps and the owners
    update in place. Each method body is what runs under `subsMu`; its contract
    is the function of Subscribers applied to every object concerned. */
module SubscriptionTable {
  import opened Channels
  import opened Errors
  import opened Events
  import opened Subscribers

  class SubscriberCell {
    var events: Chan<Event>
    var errors: Chan<Error>
    var done: Signal
    var fired: bool
    var err: Option<Error>
    const turn: bool

    ghost function View(registered: bool): Subscriber<Event>
      reads this
    {
      Subscriber(registered, turn, fired, events, errors, done, err)
    }

    constructor (buffer: nat, turn: bool)
      ensures View(true) == Born(buffer, turn, false)
    {
      this.turn := turn;
      events, errors, done := MakeChan(buffer), MakeChan(1), OPEN;
      fired, err := false, None;
    }

    /** The sync.Once of closeSubscriberLocked. */
    method CloseOnce(cause: Option<Error>)
      modifies this
      ensures View(false) == old(View(true)).Shut(cause)
    {
      if !fired {
        fired := true;
        err := cause;
        if cause.Some? {
          errors := errors.Send(cause.value);
        }
        done := done.Close();
        events := events.Close();
        errors := errors.Close();
      }
    }
  }

  /** No two identifiers share an object. */
  ghost predicate Distinct(m: map<nat, SubscriberCell>) {
    forall i, j :: i in m && j in m && i != j ==> m[i] != m[j]
  }

  class SubscriptionTable {
    var subs: map<nat, SubscriberCell>
    var nextSub: nat
    var closed: bool

    ghost predicate Valid()
      reads this
    {
      && (forall id :: id in subs ==> id <= nextSub)
      && Distinct(subs)
    }

    constructor ()
      ensures Valid() && subs == map[] && !closed
    {
      subs, nextSub, closed := map[], 0, false;
    }

    method SubscribeOwned(buffer: nat, turn: bool) returns (id: nat, cell: SubscriberCell)
      requires Valid()
      modifies this
      ensures Valid() && fresh(cell) && id == old(nextSub) + 1 == nextSub && closed == old(closed)
      ensures cell.View(id in subs) == Born(buffer, turn, old(closed))
      ensures subs == if old(closed) then old(subs) else old(subs)[id := cell]
    {
      cell := new SubscriberCell(buffer, turn);
      id := nextSub + 1;
      nextSub := id;
      if closed {
        cell.err := Some(Plain(ClientClosed));
        cell.events := cell.events.Close();
        cell.errors := cell.errors.Close();
      } else {
        subs := subs[id := cell];
      }
    }

    /** closeSubscriberLocked */
    method CloseSubscriber(id: nat, cause: Option<Error>)
      requires Valid() && id in subs
      modifies this`subs, subs[id]
      ensures Valid() && subs == old(subs) - {id}
      ensures old(subs)[id].View(false) == old(subs[id].View(true)).Sweep(cause)
    {
      var cell := subs[id];
      subs := subs - {id};
      cell.CloseOnce(cause);
    }

    method Unsubscribe(id: nat)
      requires Valid()
      modifies this`subs, if id in subs then {subs[id]} else {}
      ensures Valid() && subs == old(subs) - {id}
      ensures id in old(subs) ==> old(subs)[id].View(false) == old(subs[id].View(true)).Sweep(None)
    {
      if id in subs {
        CloseSubscriber(id, None);
      } else {
        assert subs - {id} == subs;
      }
    }

    /** One turn of the fan-out: the subscriber stays in the map, or leaves it. */
    method DeliverTo(id: nat, event: Event) returns (stays: bool)
      requires Valid() && id in subs
      modifies this`subs, subs[id]
      ensures Valid() && subs == if stays then old(subs) else old(subs) - {id}
      ensures old(subs)[id].View(stays) == old(subs[id].View(true)).Deliver(event)
    {
      var cell := subs[id];
      stays := false;
      if cell.done.closed {
        subs := subs - {id};
      } else {
        var (channel, sent) := cell.events.TrySend(event);
        cell.events := channel;
        if sent {
          stays := true;
        } else {
          CloseSubscriber(id, Some(Plain(SubscriberOverflow)));
        }
      }
    }

    /** The fan-out of readLoop: one pass over the map, in any order, deleting as
        it goes. Every subscriber of the map gets exactly one Deliver. */
    method Publish(event: Event)
      requires Valid()
      modifies this`subs, subs.Values
      ensures Valid()
      ensures forall id :: id in subs ==> id in old(subs) && subs[id] == old(subs)[id]
      ensures forall id :: id in old(subs) ==>
                old(subs)[id].View(id in subs) == old(subs[id].View(true)).Deliver(event)
    {
      ghost var before := subs;
      ghost var want := map id | id in subs :: subs[id].View(true).Deliver(event);
      ghost var stayed: set<nat> := {};
      var pending := subs.Keys;
      while pending != {}
        invariant Valid() && Distinct(before) && pending <= before.Keys
        invariant forall id :: id in subs <==> id in before && (id in pending || id in stayed)
        invariant pending !! stayed
        invariant forall id :: id in subs ==> subs[id] == before[id]
        invariant forall id :: id in pending ==> unchanged(before[id])
        invariant forall id :: id in before && id !in pending ==> before[id].View(id in stayed) == want[id]
      {
        var id :| id in pending;
        pending := pending - {id};
        var stays := DeliverTo(id, event);
        stayed := if stays then stayed + {id} else stayed;
      }
    }

    /** The sweeps of disconnect and closeWith. */
    method Sweep(cause: Option<Error>)
      requires Valid()
      modifies this`subs, subs.Values
      ensures Valid() && subs == map[]
      ensures forall id :: id in old(subs) ==>
                old(subs)[id].View(false) == old(subs[id].View(true)).Sweep(cause)
    {
      ghost var before := subs;
      ghost var want := map id | id in subs :: subs[id].View(true).Sweep(cause);
      var pending := subs.Keys;
      while pending != {}
        invariant Valid() && Distinct(before) && pending <= before.Keys
        invariant forall id :: id in subs <==> id in before && id in pending
        invariant forall id :: id in subs ==> subs[id] == before[id]
        invariant forall id :: id in pending ==> unchanged(before[id])
        invariant forall id :: id in before && id !in pending ==> before[id].View(id in subs) == want[id]
      {
        var id :| id in pending;
        pending := pending - {id};
        CloseSubscriber(id, cause);
      }
    }

    /** failTurnSubscribers: raw subscriptions are not touched. */
    method FailTurnSubscribers(cause: Error)
      requires Valid()
      modifies this`subs, subs.Values
      ensures Valid()
      ensures forall id :: id in subs ==> id in old(subs) && subs[id] == old(subs)[id]
      ensures forall id :: id in old(subs) ==> (id in subs <==> !old(subs)[id].turn)
      ensures forall id :: id in old(subs) ==>
                old(subs)[id].View(id in subs)
                == if old(subs)[id].turn then old(subs[id].View(true)).Sweep(Some(cause)) else old(subs[id].View(true))
    {
      ghost var before := subs;
      ghost var want := map id | id in subs ::
        if subs[id].turn then subs[id].View(true).Sweep(Some(cause)) else subs[id].View(true);
      ghost var stayed: set<nat> := {};
      var pending := subs.Keys;
      while pending != {}
        invariant Valid() && Distinct(before) && pending <= before.Keys
        invariant forall id :: id in subs <==> id in before && (id in pending || id in stayed)
        invariant pending !! stayed
        invariant forall id :: id in subs ==> subs[id] == before[id]
        invariant forall id :: id in before && id !in pending ==> (id in stayed <==> !before[id].turn)
        invariant forall id :: id in pending ==> unchanged(before[id])
        invariant forall id :: id in before && id !in pending ==> before[id].View(id in stayed) == want[id]
      {
        var id :| id in pending;
        pending := pending - {id};
        if subs[id].turn {
          CloseSubscriber(id, Some(cause));
        } else {
          stayed := stayed + {id};
        }
      }
    }
  }
}
