/** Who owns the private runtime (client.go): setInstance, DetachInstance, Close
    and the goroutines that watch for the exit of the bridge, in any order. */
module Ownership {
  import opened Channels
  import opened States

  /** watchBridgeExit: waiting for its select, past it, or returned. */
  datatype Stage = Watching | Woken | Gone

  datatype Monitor = Monitor(instance: nat, canceled: bool, stage: Stage)

  /** What became of an attached instance: how often it was handed to a caller of
      DetachInstance, and how often the client shut it down. */
  datatype Fate = Fate(handed: nat, shut: nat)

  /** closeWith: `claimed` is the instance it found and took over. */
  datatype Closer = Idle | ClosingDown(claimed: Option<nat>) | Done(claimed: Option<nat>)

  /** A broadcast of ErrBridgeExited: whose bridge exited, and which instance was
      attached at that moment. */
  datatype Broadcast = Broadcast(exited: nat, attached: Option<nat>)

  /** Goroutines outside this protocol write `state` too, so nothing here may rest
      on its value. */
  datatype Client = Client(
    state: ClientState, instance: Option<nat>, monitor: Option<nat>, monitors: map<nat, Monitor>,
    closer: Closer, closed: bool, exited: set<nat>, fates: map<nat, Fate>, broadcasts: seq<Broadcast>)

  datatype Action =
    | Attach(attached: nat, watched: bool, monitor: nat)
    | Detach
    | BridgeExits(attached: nat)
    | SelectExit(monitor: nat)
    | SelectCancel(monitor: nat)
    | Commit(monitor: nat)
    | BeginClose
    | SignalClosed
    | ShutDown
    | WriteState(state: ClientState)

  function Fresh(): Client {
    Client(Connected, None, None, map[], Idle, false, {}, map[], [])
  }

  /** cancelBridgeMonitorLocked */
  function CancelMonitor(c: Client): Client {
    if c.monitor.Some? && c.monitor.value in c.monitors
    then c.(monitor := None, monitors := c.monitors[c.monitor.value := c.monitors[c.monitor.value].(canceled := true)])
    else c.(monitor := None)
  }

  /** setInstance; an instance is attached once, and before Close. */
  function AttachInstance(c: Client, i: nat, watched: bool, m: nat): Client {
    if i in c.fates || m in c.monitors || !c.closer.Idle? then c
    else
      var c1 := CancelMonitor(c).(instance := Some(i), fates := c.fates[i := Fate(0, 0)]);
      if watched then c1.(monitor := Some(m), monitors := c1.monitors[m := Monitor(i, false, Watching)]) else c1
  }

  predicate Detachable(c: Client) {
    c.instance.Some? && !c.state.Ending()
  }

  /** DetachInstance, and what it returns. */
  function Detaching(c: Client): (Client, Option<nat>) {
    if !Detachable(c) then (c, None)
    else
      var i := c.instance.value;
      (CancelMonitor(c).(
         instance := None,
         fates := if i in c.fates then c.fates[i := c.fates[i].(handed := c.fates[i].handed + 1)] else c.fates),
       Some(i))
  }

  /** The last section of watchBridgeExit. */
  function Exiting(c: Client, m: nat): Client
    requires m in c.monitors
  {
    var gone := c.(monitors := c.monitors[m := c.monitors[m].(stage := Gone)]);
    if c.monitor != Some(m) || c.instance.None? || c.state.Ending() || c.monitors[m].canceled
    then gone
    else gone.(monitor := None, broadcasts := c.broadcasts + [Broadcast(c.monitors[m].instance, c.instance)])
  }

  function Step(c: Client, a: Action): Client {
    match a
    case Attach(i, watched, m) => AttachInstance(c, i, watched, m)
    case Detach => Detaching(c).0
    case BridgeExits(i) => c.(exited := c.exited + {i})
    case SelectExit(m) =>
      if m in c.monitors && c.monitors[m].stage.Watching? && c.monitors[m].instance in c.exited
      then c.(monitors := c.monitors[m := c.monitors[m].(stage := Woken)]) else c
    case SelectCancel(m) =>
      if m in c.monitors && c.monitors[m].stage.Watching? && (c.monitors[m].canceled || c.closed)
      then c.(monitors := c.monitors[m := c.monitors[m].(stage := Gone)]) else c
    case Commit(m) => if m in c.monitors && c.monitors[m].stage.Woken? then Exiting(c, m) else c
    case BeginClose =>
      if c.closer.Idle? then CancelMonitor(c).(state := ClosingState, instance := None, closer := ClosingDown(c.instance)) else c
    case SignalClosed => if c.closer.ClosingDown? then c.(closed := true) else c
    case ShutDown =>
      if c.closer.ClosingDown? && c.closed then
        var i := c.closer.claimed;
        c.(closer := Done(i),
           fates := if i.Some? && i.value in c.fates
                    then c.fates[i.value := c.fates[i.value].(shut := c.fates[i.value].shut + 1)] else c.fates)
      else c
    case WriteState(state) => c.(state := state)
  }

  function Run(c: Client, schedule: seq<Action>): Client
    decreases |schedule|
  {
    if schedule == [] then c else Run(Step(c, schedule[0]), schedule[1..])
  }

  ghost predicate Inv(c: Client) {
    && (forall i :: i in c.fates ==> c.fates[i].handed + c.fates[i].shut <= 1)
    && (c.instance.Some? ==> c.instance.value in c.fates && c.fates[c.instance.value] == Fate(0, 0) && c.closer.Idle?)
    && (c.closer.ClosingDown? && c.closer.claimed.Some? ==>
          c.closer.claimed.value in c.fates && c.fates[c.closer.claimed.value] == Fate(0, 0))
    && (c.closer.Done? && c.closer.claimed.Some? ==>
          c.closer.claimed.value in c.fates && c.fates[c.closer.claimed.value] == Fate(0, 1))
    && (forall i :: i in c.fates && c.fates[i].shut == 1 ==> c.closer == Done(Some(i)))
    && (c.monitor.Some? ==>
          c.monitor.value in c.monitors && !c.monitors[c.monitor.value].canceled
          && c.instance == Some(c.monitors[c.monitor.value].instance))
    && (forall m :: m in c.monitors && c.monitors[m].stage.Woken? ==> c.monitors[m].instance in c.exited)
    && (forall k :: 0 <= k < |c.broadcasts| ==>
          c.broadcasts[k].attached == Some(c.broadcasts[k].exited) && c.broadcasts[k].exited in c.exited)
  }

  lemma AttachKeepsInv(c: Client, i: nat, watched: bool, m: nat)
    requires Inv(c)
    ensures Inv(AttachInstance(c, i, watched, m))
  {
  }

  lemma DetachKeepsInv(c: Client)
    requires Inv(c)
    ensures Inv(Detaching(c).0)
  {
  }

  lemma CommitKeepsInv(c: Client, m: nat)
    requires Inv(c) && m in c.monitors && c.monitors[m].stage.Woken?
    ensures Inv(Exiting(c, m))
  {
  }

  lemma CloseKeepsInv(c: Client, a: Action)
    requires Inv(c) && (a.BeginClose? || a.SignalClosed? || a.ShutDown?)
    ensures Inv(Step(c, a))
  {
  }

  lemma StepKeepsInv(c: Client, a: Action)
    requires Inv(c)
    ensures Inv(Step(c, a))
  {
    match a
    case Attach(i, watched, m) => AttachKeepsInv(c, i, watched, m);
    case Detach => DetachKeepsInv(c);
    case Commit(m) =>
      if m in c.monitors && c.monitors[m].stage.Woken? {
        CommitKeepsInv(c, m);
      }
    case BeginClose | SignalClosed | ShutDown => CloseKeepsInv(c, a);
    case _ =>
  }

  lemma {:induction false} RunKeepsInv(c: Client, schedule: seq<Action>)
    requires Inv(c)
    ensures Inv(Run(c, schedule))
    decreases |schedule|
  {
    if schedule == [] {
    } else {
      StepKeepsInv(c, schedule[0]);
      RunKeepsInv(Step(c, schedule[0]), schedule[1..]);
    }
  }

  /** One owner: in every run an attached instance is handed to a caller at most
      once or shut down at most once, never both; while it is attached or claimed
      neither has happened; and a Close that claimed it has, when it is done, shut
      it down exactly once. */
  lemma {:induction false} OneOwner(schedule: seq<Action>, i: nat)
    requires i in Run(Fresh(), schedule).fates
    ensures var c := Run(Fresh(), schedule);
            && c.fates[i].handed + c.fates[i].shut <= 1
            && (c.instance == Some(i) ==> c.fates[i] == Fate(0, 0))
            && (c.closer == ClosingDown(Some(i)) ==> c.fates[i] == Fate(0, 0))
            && (c.fates[i].shut == 1 <==> c.closer == Done(Some(i)))
  {
    RunKeepsInv(Fresh(), schedule);
  }

  /** ErrBridgeExited is broadcast only for a bridge that exited and only while
      that bridge's own instance is still attached, and a monitor that is still
      current has not been canceled. */
  lemma {:induction false} ExitsAreTheOwners(schedule: seq<Action>)
    ensures var c := Run(Fresh(), schedule);
            && (forall k :: 0 <= k < |c.broadcasts| ==>
                  c.broadcasts[k].attached == Some(c.broadcasts[k].exited) && c.broadcasts[k].exited in c.exited)
            && (c.monitor.Some? ==> c.monitor.value in c.monitors && !c.monitors[c.monitor.value].canceled)
  {
    RunKeepsInv(Fresh(), schedule);
  }

  /** A caller that DetachInstance gave an instance to keeps it: the client never
      shuts it down nor hands it out again, whatever its state field says. */
  lemma {:induction false} DetachedIsForGood(before: seq<Action>, after: seq<Action>, i: nat)
    requires Detaching(Run(Fresh(), before)).1 == Some(i)
    ensures var c := Run(Detaching(Run(Fresh(), before)).0, after);
            i in c.fates && c.fates[i] == Fate(1, 0)
  {
    var c := Run(Fresh(), before);
    RunKeepsInv(Fresh(), before);
    StepKeepsInv(c, Detach);
    HandedStays(Step(c, Detach), after, i);
  }

  lemma {:induction false} HandedStays(c: Client, schedule: seq<Action>, i: nat)
    requires Inv(c) && i in c.fates && c.fates[i] == Fate(1, 0)
    ensures i in Run(c, schedule).fates && Run(c, schedule).fates[i] == Fate(1, 0)
    decreases |schedule|
  {
    if schedule == [] {
    } else {
      StepKeepsInv(c, schedule[0]);
      HandedStep(c, schedule[0], i);
      HandedStays(Step(c, schedule[0]), schedule[1..], i);
    }
  }

  lemma HandedStep(c: Client, a: Action, i: nat)
    requires Inv(c) && i in c.fates && c.fates[i] == Fate(1, 0)
    ensures i in Step(c, a).fates && Step(c, a).fates[i] == Fate(1, 0)
  {
  }

  // ---- what gets done ------------------------------------------------------

  /** An attached instance is current, with a fresh monitor if it reports its exit,
      and the monitor before it is canceled. */
  lemma {:induction false} AttachingTakesEffect(schedule: seq<Action>, i: nat, watched: bool, m: nat)
    requires var c := Run(Fresh(), schedule); i !in c.fates && m !in c.monitors && c.closer.Idle?
    ensures var c := Run(Fresh(), schedule);
            var d := Step(c, Attach(i, watched, m));
            && d.instance == Some(i) && i in d.fates && d.fates[i] == Fate(0, 0)
            && (watched ==> d.monitor == Some(m) && d.monitors[m] == Monitor(i, false, Watching))
            && (!watched ==> d.monitor.None?)
            && (c.monitor.Some? ==> c.monitor.value in d.monitors && d.monitors[c.monitor.value].canceled)
  {
    RunKeepsInv(Fresh(), schedule);
  }

  /** The exit of the bridge whose monitor is current is broadcast, and the monitor is
      done, unless the client is ending; a canceled monitor leaves without a word. */
  lemma {:induction false} TheExitIsBroadcast(schedule: seq<Action>, m: nat, i: nat)
    requires var c := Run(Fresh(), schedule);
             c.monitor == Some(m) && m in c.monitors && c.monitors[m].stage.Watching? && c.instance == Some(i)
    ensures var c := Run(Fresh(), schedule);
            var d := Step(Step(Step(c, BridgeExits(i)), SelectExit(m)), Commit(m));
            && d.monitors[m].stage.Gone? && d.instance == Some(i)
            && (!c.state.Ending() ==> d.broadcasts == c.broadcasts + [Broadcast(i, Some(i))] && d.monitor.None?)
            && (c.state.Ending() ==> d.broadcasts == c.broadcasts)
  {
    RunKeepsInv(Fresh(), schedule);
  }

  lemma {:induction false} ACanceledMonitorLeaves(schedule: seq<Action>, m: nat)
    requires var c := Run(Fresh(), schedule); m in c.monitors && c.monitors[m].canceled
    ensures var c := Run(Fresh(), schedule);
            var d := Step(c, SelectCancel(m));
            var e := Step(c, Commit(m));
            && (c.monitors[m].stage.Watching? ==> d.monitors[m].stage.Gone?)
            && (c.monitors[m].stage.Woken? ==> e.monitors[m].stage.Gone?)
            && d.broadcasts == c.broadcasts && e.broadcasts == c.broadcasts && e.monitor == c.monitor
  {
    RunKeepsInv(Fresh(), schedule);
  }

  /** DetachInstance hands over the attached instance exactly if the client is not
      ending; it then has none, and its monitor is canceled. */
  lemma {:induction false} DetachingHandsOver(schedule: seq<Action>)
    ensures var c := Run(Fresh(), schedule);
            var (d, i) := Detaching(c);
            && i == (if c.state.Ending() then None else c.instance)
            && (i.Some? ==> d.instance.None? && d.monitor.None? && i.value in d.fates && d.fates[i.value] == Fate(1, 0))
            && (i.Some? && c.monitor.Some? ==> c.monitor.value in d.monitors && d.monitors[c.monitor.value].canceled)
            && (i.None? ==> d == c)
  {
    RunKeepsInv(Fresh(), schedule);
  }

  /** Close claims whatever is attached, cancels its monitor, and shuts it down. */
  lemma {:induction false} CloseShutsDownWhatItFinds(schedule: seq<Action>)
    requires Run(Fresh(), schedule).closer.Idle?
    ensures var c := Run(Fresh(), schedule);
            var d := Step(Step(Step(c, BeginClose), SignalClosed), ShutDown);
            && d.instance.None? && d.monitor.None? && d.closed && d.closer == Done(c.instance)
            && (c.instance.Some? ==> c.instance.value in d.fates && d.fates[c.instance.value] == Fate(0, 1))
            && (c.monitor.Some? ==> c.monitor.value in d.monitors && d.monitors[c.monitor.value].canceled)
  {
    RunKeepsInv(Fresh(), schedule);
  }

  // ---- the fields themselves -----------------------------------------------

  class BridgeExitMonitor {
    var canceled: Signal
    var cancelFired: bool
    const instance: nat

    constructor (instance: nat)
      ensures this.instance == instance && canceled == OPEN && !cancelFired
    {
      this.instance := instance;
      canceled, cancelFired := OPEN, false;
    }

    /** The sync.Once keeps a second call from closing the channel again. */
    method Cancel()
      requires cancelFired == canceled.closed && !canceled.faulted
      modifies this
      ensures cancelFired && canceled == Signal(true, false)
    {
      if !cancelFired {
        cancelFired := true;
        canceled := canceled.Close();
      }
    }
  }

  /** The part of Client that stateMu guards. */
  class InstanceSlot {
    var state: ClientState
    var instance: Option<nat>
    var bridgeMonitor: BridgeExitMonitor?

    /** Every monitor ever made; all but the current one live on in the goroutines
        that watch for them. */
    ghost var monitors: map<nat, BridgeExitMonitor>

    ghost predicate Valid()
      reads this, monitors.Values
    {
      && (forall m :: m in monitors ==> monitors[m].cancelFired == monitors[m].canceled.closed && !monitors[m].canceled.faulted)
      && (forall m, n :: m in monitors && n in monitors && m != n ==> monitors[m] != monitors[n])
    }

    /** The slot is the one of c. */
    ghost predicate Shows(c: Client)
      reads this, monitors.Values
    {
      && state == c.state && instance == c.instance && monitors.Keys == c.monitors.Keys
      && (c.monitor.None? <==> bridgeMonitor == null)
      && (c.monitor.Some? ==> c.monitor.value in monitors && bridgeMonitor == monitors[c.monitor.value])
      && (forall m :: m in monitors ==>
            monitors[m].instance == c.monitors[m].instance && monitors[m].canceled.closed == c.monitors[m].canceled)
    }

    constructor ()
      ensures Valid() && Shows(Fresh())
    {
      state, instance, bridgeMonitor, monitors := Connected, None, null, map[];
    }

    /** cancelBridgeMonitorLocked: the monitor is canceled, once, and forgotten. */
    method CancelBridgeMonitor(ghost c: Client)
      requires Valid() && Shows(c)
      modifies this`bridgeMonitor, bridgeMonitor
      ensures Valid() && Shows(CancelMonitor(c))
    {
      if bridgeMonitor != null {
        bridgeMonitor.Cancel();
        bridgeMonitor := null;
      }
    }

    /** setInstance; `watched` if the instance reports the exit of its bridge, and
        then m names the new monitor. */
    method SetInstance(ghost c: Client, i: nat, watched: bool, ghost m: nat)
      requires Valid() && Shows(c) && i !in c.fates && m !in c.monitors && c.closer.Idle?
      modifies this, bridgeMonitor
      ensures Valid() && Shows(AttachInstance(c, i, watched, m))
      ensures instance == Some(i) && (watched <==> bridgeMonitor != null)
      ensures watched ==> fresh(bridgeMonitor) && bridgeMonitor.instance == i && !bridgeMonitor.canceled.closed
    {
      CancelBridgeMonitor(c);
      instance := Some(i);
      if watched {
        StartMonitor(CancelMonitor(c).(instance := Some(i), fates := c.fates[i := Fate(0, 0)]), i, m);
      }
    }

    method StartMonitor(ghost c: Client, i: nat, ghost m: nat)
      requires Valid() && Shows(c) && m !in c.monitors && c.monitor.None?
      modifies this`bridgeMonitor, this`monitors
      ensures Valid() && Shows(c.(monitor := Some(m), monitors := c.monitors[m := Monitor(i, false, Watching)]))
      ensures fresh(bridgeMonitor)
    {
      bridgeMonitor := new BridgeExitMonitor(i);
      monitors := monitors[m := bridgeMonitor];
    }

    method DetachInstance(ghost c: Client) returns (i: Option<nat>)
      requires Valid() && Shows(c)
      modifies this, bridgeMonitor
      ensures Valid() && Shows(Detaching(c).0) && i == Detaching(c).1
      ensures i == if old(state).Ending() then None else old(instance)
      ensures i.Some? ==> instance == None && bridgeMonitor == null
    {
      if instance.None? || state.Ending() {
        return None;
      }
      i := instance;
      CancelBridgeMonitor(c);
      instance := None;
    }

    /** The claim of closeWith, which sync.Once lets through once. */
    method Claim(ghost c: Client) returns (i: Option<nat>)
      requires Valid() && Shows(c) && c.closer.Idle?
      modifies this, bridgeMonitor
      ensures Valid() && Shows(Step(c, BeginClose)) && Step(c, BeginClose).closer == ClosingDown(i)
      ensures i == old(instance) && instance == None && bridgeMonitor == null && state.ClosingState?
    {
      state := ClosingState;
      i := instance;
      CancelBridgeMonitor(c.(state := ClosingState));
      instance := None;
    }

    /** The commit of watchBridgeExit: whether it broadcasts. */
    method CommitExit(ghost c: Client, monitor: BridgeExitMonitor, ghost m: nat) returns (broadcast: bool)
      requires Valid() && Shows(c) && Inv(c) && m in c.monitors && monitors[m] == monitor
      modifies this`bridgeMonitor
      ensures Valid() && Shows(Exiting(c, m))
      ensures Exiting(c, m).broadcasts
              == c.broadcasts + if broadcast then [Broadcast(monitor.instance, Some(monitor.instance))] else []
      ensures broadcast <==> old(bridgeMonitor) == monitor && instance == Some(monitor.instance) && !state.Ending()
      ensures broadcast ==> bridgeMonitor == null
    {
      if bridgeMonitor != monitor || instance.None? || state.Ending() {
        return false;
      }
      if monitor.canceled.closed {
        return false;
      }
      bridgeMonitor := null;
      return true;
    }
  }
}
