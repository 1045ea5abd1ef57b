/** Stopping the owned process group (process_unix.go): TERM, a grace period, KILL
    and a bounded reap, against an environment in which the process may be reaped,
    and a caller's context may end, at any moment. */
module Termination {
  import opened Channels
  import opened Durations

  /** What the procedure does, in order; time is not part of it. */
  datatype Step =
    | Term
    | Kill
    | CheckAlive(answer: bool)
    | Received
    | GraceStart
    | GraceComplete
    | ForceKill
    | ReapComplete

  datatype Failure = InvalidGroup | TermFailed | AliveFailed | KillFailed | ReapTimeout

  /** A case of the select that ends the grace period. */
  datatype Case = ByWait | ByTimer | ByForce

  /** The world, on a monotone clock in milliseconds: when the single wait result
      arrives and when a context demands the kill, if ever; how the operations
      answer and how long they take; how late a select may look at its cases, and
      which of those that are ready by then it takes. */
  datatype World = World(
    reapedAt: Option<nat>, forcedAt: Option<nat>,
    termFails: bool, killFails: bool, alive: bool, aliveFails: bool,
    termTakes: nat, checkTakes: nat, killTakes: nat, lag: nat, prefers: Case)
  {
    predicate Reaped(now: nat) {
      reapedAt.Some? && reapedAt.value <= now
    }

    predicate Forced(now: nat) {
      forcedAt.Some? && forcedAt.value <= now
    }

    /** When the first case of a select is ready that starts now and has a timer for
        limit. */
    function ReadyAt(now: nat, limit: nat, heedsForce: bool): (t: nat)
      ensures now <= t <= now + limit
      ensures Reaped(t) || t == now + limit || (heedsForce && Forced(t))
      ensures heedsForce && forcedAt.Some? ==> t <= now || t <= forcedAt.value
    {
      var t1 := if reapedAt.None? then now + limit else Clamp(reapedAt.value, now, now + limit);
      if heedsForce && forcedAt.Some? then Clamp(forcedAt.value, now, t1) else t1
    }

    /** The case taken among those that are ready. */
    function Takes(now: nat, timeUp: bool): (c: Case)
      requires Reaped(now) || timeUp || Forced(now)
      ensures c.ByWait? ==> Reaped(now)
      ensures c.ByTimer? ==> timeUp
      ensures c.ByForce? ==> Forced(now)
    {
      if prefers.ByWait? && Reaped(now) then ByWait
      else if prefers.ByTimer? && timeUp then ByTimer
      else if prefers.ByForce? && Forced(now) then ByForce
      else if Reaped(now) then ByWait
      else if timeUp then ByTimer
      else ByForce
    }
  }

  function Clamp(x: nat, lo: nat, hi: nat): nat
    requires lo <= hi
  {
    if x < lo then lo else if x > hi then hi else x
  }

  const DEFAULT_MS: nat := 5000

  /** How long after now it is x. */
  function Later(x: nat, now: nat): nat {
    if x > now then x - now else 0
  }

  // ---- the protocol --------------------------------------------------------

  /** How far a correct run has got. In `ReapedInGrace` and `Reaped` the wait
      result has been received and not reported yet; `Bad` is every departure from
      the protocol. */
  datatype Progress =
    | Idle | Termed | InGrace | ReapedInGrace | GraceOver | FoundAlive | FoundDead
    | Killing | Killed | Reaped | Done | Bad

  function Advance(p: Progress, s: Step): Progress {
    match (p, s)
    case (Idle, Term) => Termed
    case (Idle, Received) => Reaped
    case (Termed, GraceStart) => InGrace
    case (InGrace, GraceComplete) => GraceOver
    case (InGrace, Received) => ReapedInGrace
    case (ReapedInGrace, GraceComplete) => Reaped
    case (GraceOver, CheckAlive(answer)) => if answer then FoundAlive else FoundDead
    case (GraceOver, Received) => Reaped
    case (FoundAlive, ForceKill) => Killing
    case (FoundAlive, Received) => Reaped
    case (Killing, Kill) => Killed
    case (Killed, Received) => Reaped
    case (FoundDead, Received) => Reaped
    case (Reaped, ReapComplete) => Done
    case _ => Bad
  }

  function Follow(trace: seq<Step>): Progress {
    if trace == [] then Idle else Advance(Follow(trace[..|trace|-1]), trace[|trace|-1])
  }

  /** A step is added to the record. */
  method Emit(trace: seq<Step>, s: Step) returns (r: seq<Step>)
    ensures r == trace + [s] && Follow(r) == Advance(Follow(trace), s)
  {
    r := trace + [s];
    assert r[..|trace|] == trace;
  }

  /** The wait result is received and reported. */
  method Report(trace: seq<Step>, received: bool) returns (r: seq<Step>)
    requires if received then Follow(trace).Reaped? else Advance(Follow(trace), Received).Reaped?
    ensures trace < r && Follow(r) == Done
    ensures forall s :: s in r && TouchesGroup(s) ==> s in trace
  {
    r := trace;
    if !received {
      r := Emit(r, Received);
    }
    r := Emit(r, ReapComplete);
  }

  /** waitForProcessReap: whether the result came, and how long that took. */
  method WaitForProcessReap(now: nat, reap: nat, world: World) returns (reaped: bool, waited: nat)
    ensures waited <= reap + world.lag
    ensures reaped ==> world.Reaped(now + waited)
    ensures !reaped ==> waited >= reap
    ensures world.reapedAt.Some? && reap > world.lag && world.reapedAt.value < now + (reap - world.lag) ==> reaped
  {
    var woke := world.ReadyAt(now, reap, false) + world.lag;
    waited := woke - now;
    reaped := world.Reaped(woke) && (waited < reap || !world.prefers.ByTimer?);
  }

  /** The bounded wait at the end of either branch, and its report. */
  method Reap(before: seq<Step>, failed: seq<Failure>, now: nat, reap: nat, world: World)
    returns (trace: seq<Step>, errs: seq<Failure>, waited: nat)
    requires Follow(before).FoundDead? || Follow(before).Killed?
    ensures before <= trace && forall s :: s in trace && TouchesGroup(s) ==> s in before
    ensures waited <= reap + world.lag
    ensures world.reapedAt.Some? && reap > world.lag && world.reapedAt.value < now + (reap - world.lag) ==> Follow(trace).Done?
    ensures if Follow(trace).Done? then errs == failed && world.reapedAt.Some?
            else trace == before && errs == failed + [ReapTimeout] && waited >= reap
  {
    trace, errs := before, failed;
    var reaped;
    reaped, waited := WaitForProcessReap(now, reap, world);
    if reaped {
      trace := Report(trace, false);
    } else {
      errs := errs + [ReapTimeout];
    }
  }

  /** The forced kill, and what is reported of it. */
  method SendKill(before: seq<Step>, failed: seq<Failure>, world: World)
    returns (trace: seq<Step>, errs: seq<Failure>)
    requires Follow(before).FoundAlive?
    ensures before < trace && Follow(trace).Killed? && Kill in trace
    ensures errs == failed + if world.killFails then [KillFailed] else []
  {
    trace := Emit(before, ForceKill);
    trace := Emit(trace, Kill);
    errs := failed + if world.killFails then [KillFailed] else [];
  }

  /** The second half of terminateProcessGroup, after a grace period in which the
      process was not reaped: liveness, the forced kill, the bounded reap. */
  method Escalate(before: seq<Step>, failed: seq<Failure>, start: nat, reap: nat, world: World)
    returns (trace: seq<Step>, errs: seq<Failure>, waited: nat)
    requires Follow(before).GraceOver? && failed <= [TermFailed]
    requires Kill !in before
    ensures before < trace
    ensures Follow(trace).Done? || Follow(trace).FoundDead? || Follow(trace).Killed?
    ensures Follow(trace).Done? <==> ReapTimeout !in errs
    ensures InvalidGroup !in errs && failed <= errs
    ensures waited <= reap + world.lag
    ensures Follow(trace).Done? ==> world.reapedAt.Some?
    ensures Follow(trace).FoundDead? ==> !world.alive && waited >= reap
    ensures Follow(trace).Killed? ==> world.alive && waited >= reap
    ensures TermFailed in errs <==> TermFailed in failed
    ensures AliveFailed in errs <==> world.aliveFails
    ensures KillFailed in errs <==> world.killFails && Kill in trace
    ensures Kill in trace <==> world.alive && !world.Reaped(start + world.checkTakes)
    ensures world.Reaped(start + world.checkTakes) && reap > world.lag ==> Follow(trace).Done?
  {
    var now := start;
    errs, waited := failed, 0;
    trace := Emit(before, CheckAlive(world.alive));
    now := now + world.checkTakes;
    if world.aliveFails {
      errs := errs + [AliveFailed];
    }
    if world.alive {
      if world.Reaped(now) {
        trace := Report(trace, false);
        return;
      }
      trace, errs := SendKill(trace, errs, world);
      now := now + world.killTakes;
    }
    trace, errs, waited := Reap(trace, errs, now, reap, world);
  }

  /** The select that ends the grace period. */
  method AwaitGrace(before: seq<Step>, now: nat, grace: nat, world: World)
    returns (trace: seq<Step>, taken: Case, waited: nat)
    requires Follow(before).InGrace?
    ensures before <= trace && forall s :: s in trace && TouchesGroup(s) ==> s in before
    ensures if taken.ByWait? then Follow(trace).Reaped? && world.reapedAt.Some? else Follow(trace).GraceOver?
    ensures taken.ByTimer? ==> waited >= grace
    ensures taken.ByForce? ==> world.Forced(now + waited)
    ensures waited <= grace + world.lag
    ensures world.forcedAt.Some? ==> waited <= Later(world.forcedAt.value, now) + world.lag
  {
    trace := before;
    var woke := world.ReadyAt(now, grace, true) + world.lag;
    waited := woke - now;
    taken := world.Takes(woke, waited >= grace);
    if taken.ByWait? {
      trace := Emit(trace, Received);
    }
    trace := Emit(trace, GraceComplete);
  }

  /** terminateProcessGroup */
  method TerminateProcessGroup(group: int, graceWanted: int, reapWanted: int, world: World)
    returns (trace: seq<Step>, contextTriggered: bool, errs: seq<Failure>, waited: nat)
    ensures group <= 1 ==> trace == [] && errs == [InvalidGroup] && waited == 0 && !contextTriggered
    ensures group > 1 ==> InvalidGroup !in errs
    ensures group > 1 ==> Follow(trace).Done? || Follow(trace).FoundDead? || Follow(trace).Killed?
    ensures group > 1 ==> (Follow(trace).Done? <==> ReapTimeout !in errs)
    ensures waited <= FiniteDuration(graceWanted, DEFAULT_MS) + FiniteDuration(reapWanted, DEFAULT_MS) + 2 * world.lag
    ensures contextTriggered ==> world.forcedAt.Some?
    ensures Follow(trace).Done? ==> world.reapedAt.Some?
    ensures Follow(trace).FoundDead? ==> !world.alive
    ensures Follow(trace).Killed? ==> world.alive
    ensures group > 1 ==> (TermFailed in errs <==> world.termFails && !world.Reaped(0))
    ensures AliveFailed in errs ==> world.aliveFails
    ensures KillFailed in errs <==> world.killFails && Kill in trace
    ensures Kill in trace ==> contextTriggered || waited >= FiniteDuration(graceWanted, DEFAULT_MS)
    ensures Kill in trace ==> world.alive && !world.Reaped(world.termTakes + world.checkTakes)
    ensures Kill in trace && !contextTriggered ==>
              !world.Reaped(world.termTakes + FiniteDuration(graceWanted, DEFAULT_MS) + world.checkTakes)
    ensures group > 1 && world.alive && world.reapedAt.None? ==> Kill in trace
    ensures group > 1 ==> (Term in trace <==> !world.Reaped(0))
    ensures world.forcedAt.Some? ==>
              waited <= Later(world.forcedAt.value, world.termTakes) + FiniteDuration(reapWanted, DEFAULT_MS) + 2 * world.lag
  {
    trace, contextTriggered, errs, waited := [], false, [], 0;
    var more := 0;
    if group <= 1 {
      errs := [InvalidGroup];
      return;
    }
    var grace, reap := FiniteDuration(graceWanted, DEFAULT_MS), FiniteDuration(reapWanted, DEFAULT_MS);
    if world.Reaped(0) {
      trace := Report(trace, false);
      return;
    }

    trace := Emit(trace, Term);
    var now := world.termTakes;
    if world.termFails {
      errs := errs + [TermFailed];
    }
    trace := Emit(trace, GraceStart);

    var taken;
    trace, taken, waited := AwaitGrace(trace, now, grace, world);
    now := now + waited;
    contextTriggered := taken.ByForce?;
    if taken.ByWait? || world.Reaped(now) {
      trace := Report(trace, taken.ByWait?);
      return;
    }

    trace, errs, more := Escalate(trace, errs, now, reap, world);
    waited := waited + more;
  }

  // ---- what an accepted trace looks like -----------------------------------

  function Signals(trace: seq<Step>): seq<Step> {
    if trace == [] then []
    else
      var last := trace[|trace|-1];
      Signals(trace[..|trace|-1]) + (if last.Term? || last.Kill? then [last] else [])
  }

  /** A signal or a liveness check: something done to the process group. */
  predicate TouchesGroup(s: Step) {
    s.Term? || s.Kill? || s.CheckAlive?
  }

  predicate Holding(p: Progress) {
    p.ReapedInGrace? || p.Reaped? || p.Done?
  }

  predicate Unkilled(p: Progress) {
    p.Termed? || p.InGrace? || p.ReapedInGrace? || p.GraceOver? || p.FoundAlive? || p.FoundDead? || p.Killing?
  }

  /** What the progress says about the steps so far. */
  lemma {:induction false} ProgressRemembers(trace: seq<Step>)
    requires !Follow(trace).Bad?
    ensures var p := Follow(trace);
            && (Received in trace <==> Holding(p))
            && (ReapComplete in trace <==> p.Done?)
            && Signals(trace) <= [Term, Kill]
            && (p.Idle? ==> trace == [])
            && (Unkilled(p) ==> Signals(trace) == [Term])
            && (p.Killed? ==> Signals(trace) == [Term, Kill])
            && (p.GraceOver? || p.FoundAlive? || p.FoundDead? || p.Killing? || p.Killed? ==> GraceComplete in trace)
            && (p.FoundAlive? || p.Killing? || p.Killed? ==> CheckAlive(true) in trace)
            && (p.Killing? || p.Killed? ==> ForceKill in trace)
            && (p.Termed? || p.InGrace? || p.ReapedInGrace? ==> Term in trace)
            && (p.InGrace? || p.ReapedInGrace? ==> GraceStart in trace)
  {
    if trace == [] {
    } else {
      var before, last := trace[..|trace|-1], trace[|trace|-1];
      assert trace == before + [last];
      ProgressRemembers(before);
    }
  }

  lemma {:induction false} PrefixesAreAccepted(trace: seq<Step>, n: nat)
    requires n <= |trace| && !Follow(trace).Bad?
    ensures !Follow(trace[..n]).Bad?
    decreases |trace|
  {
    if n < |trace| {
      PrefixesAreAccepted(trace[..|trace|-1], n);
      assert trace[..|trace|-1][..n] == trace[..n];
    } else {
      assert trace[..n] == trace;
    }
  }

  /** What a step may be, given the steps before it. */
  ghost predicate InPlace(before: seq<Step>, s: Step) {
    && (TouchesGroup(s) || s.Received? ==> Received !in before)
    && (s.Kill? ==> GraceComplete in before && CheckAlive(true) in before && ForceKill in before)
    && (s.GraceStart? ==> Term in before)
    && (s.GraceComplete? ==> GraceStart in before)
    && (s.CheckAlive? ==> GraceComplete in before)
    && (s.ReapComplete? ==> Received in before)
  }

  lemma {:induction false} NextIsInPlace(before: seq<Step>, s: Step)
    requires !Follow(before).Bad? && !Advance(Follow(before), s).Bad?
    ensures InPlace(before, s)
  {
    ProgressRemembers(before);
  }

  lemma {:induction false} StepIsInPlace(trace: seq<Step>, i: nat)
    requires i < |trace| && !Follow(trace).Bad?
    ensures InPlace(trace[..i], trace[i])
  {
    PrefixesAreAccepted(trace, i);
    PrefixesAreAccepted(trace, i + 1);
    assert trace[..i + 1] == trace[..i] + [trace[i]];
    FollowExtend(trace[..i], trace[i]);
    NextIsInPlace(trace[..i], trace[i]);
  }

  /** Every accepted trace: the signals are a prefix of TERM, KILL; the result is
      received at most once and after that the group is left alone; the group is
      killed only after the grace period and after it answered that it is alive;
      and the reap is reported exactly when the result was received. */
  lemma {:induction false} AcceptedTraces(trace: seq<Step>)
    requires !Follow(trace).Bad?
    ensures Signals(trace) <= [Term, Kill]
    ensures forall i :: 0 <= i < |trace| ==> InPlace(trace[..i], trace[i])
    ensures Follow(trace).Done? <==> ReapComplete in trace
    ensures Holding(Follow(trace)) <==> Received in trace
  {
    ProgressRemembers(trace);
    forall i | 0 <= i < |trace| ensures InPlace(trace[..i], trace[i]) {
      StepIsInPlace(trace, i);
    }
  }

  lemma {:induction false} FollowExtend(trace: seq<Step>, s: Step)
    ensures Follow(trace + [s]) == Advance(Follow(trace), s)
  {
    assert (trace + [s])[..|trace|] == trace;
  }

  /** The whole contract of one termination, read off its trace: an invalid group
      is not touched at all; otherwise a reap error is returned exactly when the
      result was never received, and then a group that said it was alive has been
      sent KILL. KILL comes early only when a context demanded it, and then without
      further waiting for the grace period. */
  method Terminate(group: int, grace: int, reap: int, world: World)
    returns (trace: seq<Step>, contextTriggered: bool, errs: seq<Failure>, waited: nat)
    ensures Signals(trace) <= [Term, Kill]
    ensures group <= 1 ==> trace == [] && errs == [InvalidGroup]
    ensures group > 1 ==> (ReapTimeout in errs <==> Received !in trace)
    ensures group > 1 ==> (ReapComplete in trace <==> Received in trace)
    ensures group > 1 && Received !in trace && world.alive ==> Signals(trace) == [Term, Kill]
    ensures forall i :: 0 <= i < |trace| ==> InPlace(trace[..i], trace[i])
    ensures Received in trace ==> world.reapedAt.Some?
    ensures waited <= FiniteDuration(grace, DEFAULT_MS) + FiniteDuration(reap, DEFAULT_MS) + 2 * world.lag
    ensures waited <= (if grace > 0 then grace else 5000) + (if reap > 0 then reap else 5000) + 2 * world.lag
    ensures Kill in trace ==> contextTriggered || waited >= if grace > 0 then grace else 5000
    ensures contextTriggered ==> world.forcedAt.Some?
    ensures Kill in trace ==> contextTriggered || waited >= FiniteDuration(grace, DEFAULT_MS)
    ensures Kill in trace ==> world.alive && !world.Reaped(world.termTakes + world.checkTakes)
    ensures Kill in trace && !contextTriggered ==>
              !world.Reaped(world.termTakes + FiniteDuration(grace, DEFAULT_MS) + world.checkTakes)
    ensures group > 1 && world.alive && world.reapedAt.None? ==> Kill in trace
    ensures group > 1 ==> (Term in trace <==> !world.Reaped(0))
    ensures world.forcedAt.Some? ==>
              waited <= Later(world.forcedAt.value, world.termTakes) + FiniteDuration(reap, DEFAULT_MS) + 2 * world.lag
    ensures group > 1 ==> (TermFailed in errs <==> world.termFails && !world.Reaped(0))
    ensures KillFailed in errs <==> world.killFails && Kill in trace
  {
    trace, contextTriggered, errs, waited := TerminateProcessGroup(group, grace, reap, world);
    AcceptedTraces(trace);
    ProgressRemembers(trace);
  }
}
