/** One shutdown, many callers (launch.go): the first caller runs it, every caller
    waits for it, and any of their contexts may demand the forced kill meanwhile. */
module SharedShutdown {
  import opened Channels

  /** An error by identity, with the identities `errors.Is` finds beneath it. */
  datatype Cause = Cause(id: nat, wraps: set<nat>) {
    predicate Is(target: Cause) {
      id == target.id || target.id in wraps
    }

    /** The test requestShutdownEscalation makes before it records a cause. */
    predicate Equivalent(other: Cause) {
      Is(other) && other.Is(this)
    }
  }

  predicate Recorded(errs: seq<Cause>, cause: Cause) {
    exists k :: 0 <= k < |errs| && errs[k].Equivalent(cause)
  }

  function Record(errs: seq<Cause>, cause: Cause): seq<Cause> {
    if Recorded(errs, cause) then errs else errs + [cause]
  }

  ghost predicate Distinct(errs: seq<Cause>) {
    forall j, k :: 0 <= j < k < |errs| ==> !errs[j].Equivalent(errs[k])
  }

  /** errors.Join of the phase error, if any, and the recorded causes. */
  function Join(phase: Option<Cause>, errs: seq<Cause>): seq<Cause> {
    (if phase.Some? then [phase.value] else []) + errs
  }

  /** What shutdownMu guards. `err` is the joined error, as the list of its parts. */
  datatype Shared = Shared(
    started: bool, finished: bool, done: Signal, forceKill: Signal, forceFired: bool,
    contextErrs: seq<Cause>, err: seq<Cause>)
  {
    /** The locked part of beginShutdown: whether this caller is the owner. */
    function Begin(): (Shared, bool) {
      if finished then (this, false) else (this.(started := true), !started)
    }

    /** The locked part of requestShutdownEscalation: the new state, and whether
        the caller goes on to demand the kill. */
    function RecordCause(cause: Cause): (Shared, bool) {
      if finished then (this, false) else (this.(contextErrs := Record(contextErrs, cause)), true)
    }

    /** Its last line, after the unlock: the sync.Once around the close. */
    function DemandKill(): Shared {
      if forceFired then this else this.(forceFired := true, forceKill := forceKill.Close())
    }

    function Finish(phase: Option<Cause>): Shared {
      this.(err := Join(phase, contextErrs), finished := true, done := done.Close())
    }
  }

  /** A call of shutdown: between its steps, or returned. */
  datatype Stage =
    | Entered(owner: bool)
    | Demanding(owner: bool)
    | Running
    | Finishing(phase: Option<Cause>)
    | Awaiting
    | Returned(err: seq<Cause>)

  /** The goroutine that watches the context of a caller who came without a cause. */
  datatype Watch = Unwatched | Watching | WatchDemanding | WatchOver

  /** `entry` is the cause the caller's context already had when it came. */
  datatype Caller = Caller(entry: Option<Cause>, stage: Stage, watch: Watch)

  /** `runs` holds the outcome of every run of the phases. */
  datatype System = System(shared: Shared, callers: map<nat, Caller>, owner: Option<nat>, runs: seq<Option<Cause>>)

  datatype Action =
    | Enter(caller: nat, entry: Option<Cause>)
    | Escalate(caller: nat)
    | Demand(caller: nat)
    | ContextEnds(caller: nat, cause: Cause)
    | WatchDemands(caller: nat)
    | WatchStops(caller: nat)
    | RunPhases(caller: nat, phase: Option<Cause>)
    | Finish(caller: nat)
    | Return(caller: nat)

  function Fresh(): System {
    System(Shared(false, false, OPEN, OPEN, false, [], []), map[], None, [])
  }

  function To(s: System, k: nat, stage: Stage): System
    requires k in s.callers
  {
    s.(callers := s.callers[k := s.callers[k].(stage := stage)])
  }

  function Watches(s: System, k: nat, watch: Watch): System
    requires k in s.callers
  {
    s.(callers := s.callers[k := s.callers[k].(watch := watch)])
  }

  /** Past beginShutdown. */
  function Begun(owner: bool): Stage {
    if owner then Running else Awaiting
  }

  /** What beginShutdown does after its unlock, up to the next unlock. */
  function LeaveEntry(s: System, k: nat): System
    requires k in s.callers && s.callers[k].stage.Entered?
  {
    var owner := s.callers[k].stage.owner;
    match s.callers[k].entry
    case None => Watches(To(s, k, Begun(owner)), k, Watching)
    case Some(cause) =>
      var (shared, recorded) := s.shared.RecordCause(cause);
      To(s, k, if recorded then Demanding(owner) else Begun(owner)).(shared := shared)
  }

  function Step(s: System, a: Action): System {
    match a
    case Enter(k, entry) =>
      if k in s.callers then s
      else
        var (shared, owner) := s.shared.Begin();
        s.(shared := shared,
           owner := if owner then Some(k) else s.owner,
           callers := s.callers[k := Caller(entry, if s.shared.finished then Awaiting else Entered(owner), Unwatched)])
    case Escalate(k) => if k in s.callers && s.callers[k].stage.Entered? then LeaveEntry(s, k) else s
    case Demand(k) =>
      if k in s.callers && s.callers[k].stage.Demanding?
      then To(s, k, Begun(s.callers[k].stage.owner)).(shared := s.shared.DemandKill()) else s
    case ContextEnds(k, cause) =>
      if k in s.callers && s.callers[k].watch.Watching? then
        var (shared, recorded) := s.shared.RecordCause(cause);
        Watches(s, k, if recorded then WatchDemanding else WatchOver).(shared := shared)
      else s
    case WatchDemands(k) =>
      if k in s.callers && s.callers[k].watch.WatchDemanding?
      then Watches(s, k, WatchOver).(shared := s.shared.DemandKill()) else s
    case WatchStops(k) =>
      if k in s.callers && s.callers[k].watch.Watching? && s.shared.done.closed then Watches(s, k, WatchOver) else s
    case RunPhases(k, phase) =>
      if k in s.callers && s.callers[k].stage.Running? then To(s, k, Finishing(phase)).(runs := s.runs + [phase]) else s
    case Finish(k) =>
      if k in s.callers && s.callers[k].stage.Finishing?
      then To(s, k, Awaiting).(shared := s.shared.Finish(s.callers[k].stage.phase)) else s
    case Return(k) =>
      if k in s.callers && s.callers[k].stage.Awaiting? && s.shared.done.closed
      then To(s, k, Returned(s.shared.err)) else s
  }

  function Run(s: System, schedule: seq<Action>): System
    decreases |schedule|
  {
    if schedule == [] then s else Run(Step(s, schedule[0]), schedule[1..])
  }

  // ---- invariants ----------------------------------------------------------

  predicate Owning(stage: Stage) {
    ((stage.Entered? || stage.Demanding?) && stage.owner) || stage.Running? || stage.Finishing?
  }

  /** Between the unlock that follows the record and the close. */
  predicate AboutToDemand(c: Caller) {
    c.stage.Demanding? || c.watch.WatchDemanding?
  }

  ghost predicate SomebodyDemands(s: System) {
    exists k :: k in s.callers && AboutToDemand(s.callers[k])
  }

  /** Who runs the phases, and that nothing is closed twice. */
  ghost predicate OwnerInv(s: System) {
    && !s.shared.done.faulted && !s.shared.forceKill.faulted
    && s.shared.done.closed == s.shared.finished
    && s.shared.forceKill.closed == s.shared.forceFired
    && (s.shared.finished ==> s.shared.started)
    && (s.shared.started <==> s.owner.Some?)
    && (s.callers != map[] ==> s.shared.started)
    && (s.owner.Some? ==> s.owner.value in s.callers)
    && (forall k :: k in s.callers && Owning(s.callers[k].stage) ==> s.owner == Some(k) && !s.shared.finished)
    && (s.owner.Some? ==> (Owning(s.callers[s.owner.value].stage) <==> !s.shared.finished))
    && (s.owner.Some? && s.callers[s.owner.value].stage.Entered? ==> s.callers[s.owner.value].stage.owner)
    && |s.runs| == (if s.owner.None? then 0
                    else if s.callers[s.owner.value].stage.Finishing? || s.shared.finished then 1
                    else 0)
  }

  /** The recorded causes and the demand. */
  ghost predicate CauseInv(s: System) {
    && Distinct(s.shared.contextErrs)
    && (s.shared.contextErrs != [] ==> s.shared.forceKill.closed || SomebodyDemands(s))
    && (s.shared.forceFired || SomebodyDemands(s) ==> s.shared.contextErrs != [])
    && (forall k :: k in s.callers && s.callers[k].stage.Entered? ==> s.callers[k].watch.Unwatched?)
  }

  ghost predicate ResultInv(s: System) {
    && (s.shared.finished ==> |s.runs| == 1 && s.shared.err == Join(s.runs[0], s.shared.contextErrs))
    && (forall k :: k in s.callers && s.callers[k].stage.Finishing? ==> s.runs == [s.callers[k].stage.phase])
    && (forall k :: k in s.callers && s.callers[k].stage.Returned? ==>
          s.shared.finished && s.callers[k].stage.err == s.shared.err)
    && (s.owner.Some? && s.owner.value in s.callers && s.callers[s.owner.value].entry.Some?
        && !s.callers[s.owner.value].stage.Entered? ==>
          Recorded(s.shared.contextErrs, s.callers[s.owner.value].entry.value))
  }

  ghost predicate Inv(s: System) {
    OwnerInv(s) && CauseInv(s) && ResultInv(s)
  }

  lemma RecordKeeps(errs: seq<Cause>, cause: Cause, other: Cause)
    requires Distinct(errs)
    ensures Distinct(Record(errs, cause)) && Recorded(Record(errs, cause), cause)
    ensures Recorded(errs, other) ==> Recorded(Record(errs, cause), other)
    ensures errs <= Record(errs, cause) <= errs + [cause]
    ensures (forall k :: 0 <= k < |errs| ==> !(errs[k].Is(cause) && cause.Is(errs[k]))) ==> Record(errs, cause) == errs + [cause]
  {
    var r := Record(errs, cause);
    if !Recorded(errs, cause) {
      assert r[|errs|].Equivalent(cause);
    }
    if Recorded(errs, other) {
      var k :| 0 <= k < |errs| && errs[k].Equivalent(other);
      assert r[k].Equivalent(other);
    }
  }

  lemma RecordIsDistinct(errs: seq<Cause>, cause: Cause)
    ensures Recorded(Record(errs, cause), cause)
    ensures Distinct(errs) ==> Distinct(Record(errs, cause))
  {
    if Distinct(errs) {
      RecordKeeps(errs, cause, cause);
    } else if !Recorded(errs, cause) {
      assert Record(errs, cause)[|errs|].Equivalent(cause);
    }
  }

  lemma OwnerStep(s: System, a: Action)
    requires OwnerInv(s)
    ensures OwnerInv(Step(s, a))
  {
  }

  /** Whoever else is about to demand the kill stays so. */
  lemma DemandersStay(s: System, t: System)
    requires s.callers.Keys <= t.callers.Keys
    requires forall k :: k in s.callers && AboutToDemand(s.callers[k]) ==> AboutToDemand(t.callers[k])
    ensures SomebodyDemands(s) ==> SomebodyDemands(t)
  {
    if SomebodyDemands(s) {
      var k :| k in s.callers && AboutToDemand(s.callers[k]);
      assert AboutToDemand(t.callers[k]);
    }
  }

  /** Caller k records a cause, and is about to demand the kill if it was. */
  lemma RecordingKeepsCauses(s: System, t: System, k: nat, cause: Cause)
    requires CauseInv(s) && k in s.callers && k in t.callers && t.callers == s.callers[k := t.callers[k]]
    requires t.shared == s.shared.RecordCause(cause).0
    requires AboutToDemand(t.callers[k]) <==> s.shared.RecordCause(cause).1 || AboutToDemand(s.callers[k])
    requires t.callers[k].stage.Entered? ==> t.callers[k].watch.Unwatched?
    ensures CauseInv(t)
  {
    RecordKeeps(s.shared.contextErrs, cause, cause);
    DemandersStay(s, t);
    if s.shared.finished {
      DemandersStay(t, s);
    }
  }

  lemma LeavingKeepsCauses(s: System, k: nat)
    requires CauseInv(s) && k in s.callers && s.callers[k].stage.Entered?
    ensures CauseInv(LeaveEntry(s, k))
  {
    var t := LeaveEntry(s, k);
    match s.callers[k].entry
    case None =>
      DemandersStay(s, t);
      DemandersStay(t, s);
    case Some(cause) => RecordingKeepsCauses(s, t, k, cause);
  }

  lemma OthersKeepCauses(s: System, a: Action)
    requires CauseInv(s) && !a.Escalate? && !a.ContextEnds? && !a.Demand? && !a.WatchDemands?
    ensures CauseInv(Step(s, a))
  {
    var t := Step(s, a);
    DemandersStay(s, t);
    assert forall k :: k in t.callers && AboutToDemand(t.callers[k]) ==> k in s.callers && AboutToDemand(s.callers[k]);
  }

  lemma CauseStep(s: System, a: Action)
    requires CauseInv(s) && OwnerInv(s)
    ensures CauseInv(Step(s, a))
  {
    var t := Step(s, a);
    match a
    case Escalate(k) =>
      if k in s.callers && s.callers[k].stage.Entered? {
        LeavingKeepsCauses(s, k);
      }
    case ContextEnds(k, cause) =>
      if k in s.callers && s.callers[k].watch.Watching? {
        RecordingKeepsCauses(s, t, k, cause);
      }
    case Demand(k) =>
      if k in s.callers && s.callers[k].stage.Demanding? {
        assert SomebodyDemands(s) && t.shared.forceKill.closed;
      }
    case WatchDemands(k) =>
      if k in s.callers && s.callers[k].watch.WatchDemanding? {
        assert SomebodyDemands(s) && t.shared.forceKill.closed;
      }
    case _ => OthersKeepCauses(s, a);
  }

  lemma RecordingKeepsResults(s: System, cause: Cause)
    requires OwnerInv(s) && CauseInv(s) && ResultInv(s)
    ensures ResultInv(s.(shared := s.shared.RecordCause(cause).0))
    ensures !s.shared.finished ==> Recorded(s.shared.RecordCause(cause).0.contextErrs, cause)
  {
    RecordKeeps(s.shared.contextErrs, cause, cause);
    if s.owner.Some? && s.callers[s.owner.value].entry.Some? {
      RecordKeeps(s.shared.contextErrs, cause, s.callers[s.owner.value].entry.value);
    }
  }

  lemma LeavingKeepsResults(s: System, k: nat)
    requires OwnerInv(s) && CauseInv(s) && ResultInv(s) && k in s.callers && s.callers[k].stage.Entered?
    ensures ResultInv(LeaveEntry(s, k))
  {
    if s.callers[k].entry.Some? {
      RecordingKeepsResults(s, s.callers[k].entry.value);
    }
  }

  lemma EnteringKeepsResults(s: System, k: nat, entry: Option<Cause>)
    requires OwnerInv(s) && ResultInv(s)
    ensures ResultInv(Step(s, Enter(k, entry)))
  {
  }

  lemma PhasesKeepResults(s: System, a: Action)
    requires OwnerInv(s) && ResultInv(s) && (a.RunPhases? || a.Finish?)
    ensures ResultInv(Step(s, a))
  {
    if a.caller in s.callers && Owning(s.callers[a.caller].stage) {
      assert s.owner == Some(a.caller);
    }
  }

  lemma QuietStepsKeepResults(s: System, a: Action)
    requires OwnerInv(s) && ResultInv(s) && (a.Demand? || a.WatchDemands? || a.WatchStops? || a.Return?)
    ensures ResultInv(Step(s, a))
  {
  }

  lemma ResultStep(s: System, a: Action)
    requires OwnerInv(s) && CauseInv(s) && ResultInv(s)
    ensures ResultInv(Step(s, a))
  {
    match a
    case Enter(k, entry) => EnteringKeepsResults(s, k, entry);
    case Escalate(k) =>
      if k in s.callers && s.callers[k].stage.Entered? {
        LeavingKeepsResults(s, k);
      }
    case ContextEnds(k, cause) =>
      if k in s.callers && s.callers[k].watch.Watching? {
        ContextKeepsResults(s, k, cause);
      }
    case RunPhases(_, _) => PhasesKeepResults(s, a);
    case Finish(_) => PhasesKeepResults(s, a);
    case _ => QuietStepsKeepResults(s, a);
  }

  lemma ContextKeepsResults(s: System, k: nat, cause: Cause)
    requires OwnerInv(s) && CauseInv(s) && ResultInv(s) && k in s.callers && s.callers[k].watch.Watching?
    ensures ResultInv(Step(s, ContextEnds(k, cause)))
  {
    RecordingKeepsResults(s, cause);
  }

  lemma {:induction false} RunKeepsInv(s: System, schedule: seq<Action>)
    requires Inv(s)
    ensures Inv(Run(s, schedule))
    decreases |schedule|
  {
    if schedule == [] {
    } else {
      OwnerStep(s, schedule[0]);
      CauseStep(s, schedule[0]);
      ResultStep(s, schedule[0]);
      RunKeepsInv(Step(s, schedule[0]), schedule[1..]);
    }
  }

  // ---- results -------------------------------------------------------------

  /** However many callers there are: the phases have run exactly once when anybody
      returns, and all who return return the same error. */
  lemma {:induction false} OneShutdownForAll(schedule: seq<Action>, j: nat, k: nat)
    requires var s := Run(Fresh(), schedule);
             j in s.callers && s.callers[j].stage.Returned? && k in s.callers && s.callers[k].stage.Returned?
    ensures var s := Run(Fresh(), schedule);
            && s.callers[j].stage.err == s.callers[k].stage.err == s.shared.err
            && |s.runs| == 1
  {
    RunKeepsInv(Fresh(), schedule);
  }

  /** In every run the phases run at most once and no channel is closed twice. A
      cause is on record exactly if the kill has been demanded or somebody who
      recorded one is about to demand it. */
  lemma {:induction false} NothingClosesTwice(schedule: seq<Action>)
    ensures var s := Run(Fresh(), schedule);
            && |s.runs| <= 1
            && !s.shared.done.faulted && !s.shared.forceKill.faulted
            && (s.shared.done.closed <==> s.shared.finished)
            && (s.shared.contextErrs != [] <==> s.shared.forceKill.closed || SomebodyDemands(s))
  {
    RunKeepsInv(Fresh(), schedule);
  }

  /** The error holds what the one run of the phases reported, and then context
      causes no two of which are equivalent; a cause the owner brought along is
      among them, itself or an equivalent one. */
  lemma {:induction false} TheErrorKeepsItsCauses(schedule: seq<Action>)
    requires Run(Fresh(), schedule).shared.finished
    ensures var s := Run(Fresh(), schedule);
            && |s.runs| == 1
            && (s.runs[0].Some? ==> s.shared.err == [s.runs[0].value] + s.shared.contextErrs)
            && (s.runs[0].None? ==> s.shared.err == s.shared.contextErrs)
            && Distinct(s.shared.contextErrs)
            && s.owner.Some? && s.owner.value in s.callers
            && (s.callers[s.owner.value].entry.Some? ==>
                  Recorded(s.shared.contextErrs, s.callers[s.owner.value].entry.value))
  {
    RunKeepsInv(Fresh(), schedule);
  }

  /** Everything but the demand, which may still be to come, once. */
  ghost predicate Settled(a: Shared, b: Shared) {
    && b.started == a.started && b.finished == a.finished && b.done == a.done
    && b.err == a.err && b.contextErrs == a.contextErrs
    && (b.forceKill == a.forceKill || (!a.forceKill.closed && b.forceKill == a.forceKill.Close()))
  }

  lemma FinishedStep(s: System, a: Action)
    requires OwnerInv(s) && s.shared.finished
    ensures Settled(s.shared, Step(s, a).shared)
  {
  }

  /** A finished shutdown is final: later callers and later causes change neither
      the error nor the causes; all that can still happen, once, is the demand for
      the kill. */
  lemma {:induction false} FinishedIsFinal(s: System, schedule: seq<Action>)
    requires Inv(s) && s.shared.finished
    ensures Settled(s.shared, Run(s, schedule).shared)
    decreases |schedule|
  {
    if schedule == [] {
    } else {
      var t := Step(s, schedule[0]);
      FinishedStep(s, schedule[0]);
      OwnerStep(s, schedule[0]);
      CauseStep(s, schedule[0]);
      ResultStep(s, schedule[0]);
      FinishedIsFinal(t, schedule[1..]);
    }
  }

  /** And after the finish it still happens exactly if the kill has not been
      demanded and somebody is about to. */
  lemma {:induction false} LateDemandExactly(before: seq<Action>)
    requires Run(Fresh(), before).shared.finished
    ensures var s := Run(Fresh(), before);
            (exists a :: Step(s, a).shared != s.shared) <==> !s.shared.forceKill.closed && s.shared.contextErrs != []
  {
    var s := Run(Fresh(), before);
    RunKeepsInv(Fresh(), before);
    if !s.shared.forceKill.closed && s.shared.contextErrs != [] {
      var k :| k in s.callers && AboutToDemand(s.callers[k]);
      var a := if s.callers[k].stage.Demanding? then Demand(k) else WatchDemands(k);
      assert Step(s, a).shared.forceKill.closed;
      assert Step(s, a).shared != s.shared;
    } else {
      forall a ensures Step(s, a).shared == s.shared {
        OnlyDemandsAreLeft(s, a);
      }
    }
  }

  lemma OnlyDemandsAreLeft(s: System, a: Action)
    requires Inv(s) && s.shared.finished && (s.shared.forceKill.closed || s.shared.contextErrs == [])
    ensures Step(s, a).shared == s.shared
  {
    if s.shared.contextErrs == [] {
      assert forall k :: k in s.callers ==> !AboutToDemand(s.callers[k]);
    }
  }

  /** A run that gets there: the caller's context ends while the phases run, and
      the owner finishes between the record and the close. */
  lemma {:induction false} ACauseCanComeWithoutItsKill(cause: Cause) returns (before: seq<Action>)
    ensures var s := Run(Fresh(), before);
            s.shared.finished && s.shared.err == [cause] && !s.shared.forceKill.closed
  {
    before := [Enter(1, None), Escalate(1), ContextEnds(1, cause), RunPhases(1, None), Finish(1)];
    var s1 := Step(Fresh(), before[0]);
    var s2 := Step(s1, before[1]);
    var s3 := Step(s2, before[2]);
    var s4 := Step(s3, before[3]);
    var s5 := Step(s4, before[4]);
    assert before[1..][1..][1..][1..][1..] == [];
    assert Run(s5, []) == s5;
    assert Run(s4, before[1..][1..][1..][1..]) == s5;
    assert Run(s3, before[1..][1..][1..]) == s5;
    assert Run(s2, before[1..][1..]) == s5;
    assert Run(s1, before[1..]) == s5;
  }

  // ---- what gets done ------------------------------------------------------

  /** The first caller becomes the owner; one that comes after the finish just waits. */
  lemma {:induction false} TheFirstCallerOwns(schedule: seq<Action>, k: nat, entry: Option<Cause>)
    requires k !in Run(Fresh(), schedule).callers
    ensures var s := Run(Fresh(), schedule);
            var t := Step(s, Enter(k, entry));
            && t.shared.started && t.owner.Some? && k in t.callers && t.callers[k].entry == entry
            && (s.callers == map[] ==> t.owner == Some(k))
            && (t.owner == Some(k) ==> t.callers[k].stage == Entered(true))
            && (s.shared.finished ==> t.callers[k].stage.Awaiting?)
  {
    RunKeepsInv(Fresh(), schedule);
  }

  /** Until the finish every cause is recorded, itself or an equivalent one, and the
      kill is demanded next: the cause a caller brings along, and the one its context
      gives while the shutdown goes on. */
  lemma {:induction false} EveryCauseIsRecorded(schedule: seq<Action>, k: nat, cause: Cause)
    requires k in Run(Fresh(), schedule).callers && !Run(Fresh(), schedule).shared.finished
    ensures var s := Run(Fresh(), schedule);
            var t := Step(s, Escalate(k));
            s.callers[k].stage.Entered? && s.callers[k].entry == Some(cause) ==>
              Recorded(t.shared.contextErrs, cause) && Step(t, Demand(k)).shared.forceKill.closed
    ensures var s := Run(Fresh(), schedule);
            s.callers[k].stage.Entered? && s.callers[k].entry.None? ==> Step(s, Escalate(k)).callers[k].watch.Watching?
    ensures var s := Run(Fresh(), schedule);
            var t := Step(s, ContextEnds(k, cause));
            s.callers[k].watch.Watching? ==>
              Recorded(t.shared.contextErrs, cause) && Step(t, WatchDemands(k)).shared.forceKill.closed
  {
    var s := Run(Fresh(), schedule);
    RunKeepsInv(Fresh(), schedule);
    RecordKeeps(s.shared.contextErrs, cause, cause);
  }

  /** The owner, left to itself, finishes, and the error has what its phases report. */
  lemma {:induction false} TheOwnerFinishes(s: System, phase: Option<Cause>)
    requires Inv(s) && s.owner.Some? && !s.shared.finished
    ensures var o := s.owner.value;
            var t := Run(s, [Escalate(o), Demand(o), RunPhases(o, phase), Finish(o)]);
            && Inv(t) && t.shared.finished && t.shared.done.closed && t.callers.Keys == s.callers.Keys
            && (s.runs == [] ==> t.runs == [phase])
  {
    var o := s.owner.value;
    var s1 := Step(s, Escalate(o));
    var s2 := Step(s1, Demand(o));
    InvStep(s, Escalate(o));
    InvStep(s1, Demand(o));
    assert s1.owner == s.owner && s2.owner == s.owner && s1.runs == s.runs && s2.runs == s.runs;
    assert s2.callers.Keys == s1.callers.Keys == s.callers.Keys;
    assert s2.callers[o].stage.Running? || s2.callers[o].stage.Finishing?;
    ARunningOwnerFinishes(s2, o, phase);
    FourSteps(s, Escalate(o), Demand(o), RunPhases(o, phase), Finish(o));
  }

  lemma {:induction false} ThreeSteps(s: System, a: Action, b: Action, c: Action)
    ensures Run(s, [a, b, c]) == Step(Step(Step(s, a), b), c)
  {
    var s2 := Step(Step(s, a), b);
    assert [c][1..] == [] && [b, c][1..] == [c] && [a, b, c][1..] == [b, c];
    assert Run(s2, [c]) == Run(Step(s2, c), []);
    assert Run(Step(s, a), [b, c]) == Run(s2, [c]);
  }

  lemma {:induction false} FourSteps(s: System, a: Action, b: Action, c: Action, d: Action)
    ensures Run(s, [a, b, c, d]) == Step(Step(Step(Step(s, a), b), c), d)
  {
    assert [a, b, c, d][1..] == [b, c, d];
    ThreeSteps(Step(s, a), b, c, d);
  }

  lemma ARunningOwnerFinishes(s: System, o: nat, phase: Option<Cause>)
    requires Inv(s) && s.owner == Some(o) && (s.callers[o].stage.Running? || s.callers[o].stage.Finishing?)
    ensures var t := Step(Step(s, RunPhases(o, phase)), Finish(o));
            && Inv(t) && t.shared.finished && t.shared.done.closed && t.callers.Keys == s.callers.Keys
            && (s.runs == [] ==> t.runs == [phase])
  {
    var s1 := Step(s, RunPhases(o, phase));
    InvStep(s, RunPhases(o, phase));
    InvStep(s1, Finish(o));
    assert s1.callers.Keys == s.callers.Keys && Step(s1, Finish(o)).callers.Keys == s1.callers.Keys;
  }

  lemma InvStep(s: System, a: Action)
    requires Inv(s)
    ensures Inv(Step(s, a))
  {
    OwnerStep(s, a);
    CauseStep(s, a);
    ResultStep(s, a);
  }

  /** Once the shutdown is finished every caller returns the stored error. */
  lemma {:induction false} EveryCallerReturns(s: System, k: nat)
    requires Inv(s) && s.shared.finished && k in s.callers
    ensures var t := Run(s, [Escalate(k), Demand(k), Return(k)]);
            k in t.callers && t.callers[k].stage == Returned(s.shared.err)
  {
    var s1 := Step(s, Escalate(k));
    var s2 := Step(s1, Demand(k));
    InvStep(s, Escalate(k));
    InvStep(s1, Demand(k));
    FinishedStep(s, Escalate(k));
    FinishedStep(s1, Demand(k));
    assert s2.callers[k].stage.Awaiting? || s2.callers[k].stage.Returned?;
    ThreeSteps(s, Escalate(k), Demand(k), Return(k));
  }

  lemma {:induction false} ItCanFinish(s: System) returns (schedule: seq<Action>)
    requires Inv(s) && s.callers != map[]
    ensures var t := Run(s, schedule); Inv(t) && t.shared.finished && t.callers.Keys == s.callers.Keys
  {
    schedule := [];
    if !s.shared.finished {
      var o := s.owner.value;
      schedule := [Escalate(o), Demand(o), RunPhases(o, None), Finish(o)];
      TheOwnerFinishes(s, None);
    }
  }

  /** Nobody waits for ever: from every run, some continuation finishes the shutdown
      and lets the caller return its error. */
  lemma {:induction false} NobodyWaitsForEver(schedule: seq<Action>, k: nat) returns (t: System)
    requires k in Run(Fresh(), schedule).callers
    ensures exists after :: t == Run(Run(Fresh(), schedule), after)
    ensures t.shared.finished && k in t.callers && t.callers[k].stage == Returned(t.shared.err)
  {
    var s := Run(Fresh(), schedule);
    RunKeepsInv(Fresh(), schedule);
    assert s.callers != map[];
    var finish := ItCanFinish(s);
    var f := Run(s, finish);
    var last := [Escalate(k), Demand(k), Return(k)];
    EveryCallerReturns(f, k);
    RunAppend(s, finish, last);
    t := Run(f, last);
    FinishedIsFinal(f, last);
    assert t == Run(s, finish + last);
  }

  lemma {:induction false} RunAppend(s: System, before: seq<Action>, after: seq<Action>)
    ensures Run(s, before + after) == Run(Run(s, before), after)
    decreases |before|
  {
    if before == [] {
      assert before + after == after;
    } else {
      assert (before + after)[0] == before[0] && (before + after)[1..] == before[1..] + after;
      RunAppend(Step(s, before[0]), before[1..], after);
    }
  }

  // ---- the fields themselves -----------------------------------------------

  class LaunchedInstance {
    var shutdownStarted: bool
    var shutdownFinished: bool
    var shutdownDone: Signal
    var shutdownForceKill: Signal
    var forceKillFired: bool
    var shutdownContextErrs: seq<Cause>
    var shutdownErr: seq<Cause>

    ghost function State(): Shared
      reads this
    {
      Shared(shutdownStarted, shutdownFinished, shutdownDone, shutdownForceKill, forceKillFired,
             shutdownContextErrs, shutdownErr)
    }

    constructor ()
      ensures State() == Fresh().shared
    {
      shutdownStarted, shutdownFinished, forceKillFired := false, false, false;
      shutdownDone, shutdownForceKill := OPEN, OPEN;
      shutdownContextErrs, shutdownErr := [], [];
    }

    method BeginShutdown() returns (owner: bool)
      modifies this`shutdownStarted
      ensures (State(), owner) == old(State()).Begin()
      ensures owner <==> !old(shutdownStarted) && !old(shutdownFinished)
      ensures shutdownStarted || shutdownFinished
    {
      if shutdownFinished {
        return false;
      }
      owner := !shutdownStarted;
      shutdownStarted := true;
    }

    /** requestShutdownEscalation up to its unlock: whether the caller goes on. */
    method RecordCause(cause: Cause) returns (recorded: bool)
      modifies this`shutdownContextErrs
      ensures (State(), recorded) == old(State()).RecordCause(cause)
      ensures old(Distinct(shutdownContextErrs)) ==> Distinct(shutdownContextErrs)
      ensures recorded == !old(shutdownFinished)
      ensures recorded ==> Recorded(shutdownContextErrs, cause)
    {
      ghost var before := shutdownContextErrs;
      if shutdownFinished {
        return false;
      }
      var duplicate, k := false, 0;
      while k < |shutdownContextErrs|
        invariant k <= |shutdownContextErrs|
        invariant duplicate ==> Recorded(shutdownContextErrs, cause)
        invariant !duplicate ==> forall j :: 0 <= j < k ==> !shutdownContextErrs[j].Equivalent(cause)
      {
        if shutdownContextErrs[k].Is(cause) && cause.Is(shutdownContextErrs[k]) {
          assert shutdownContextErrs[k].Equivalent(cause);
          duplicate := true;
          break;
        }
        k := k + 1;
      }
      if !duplicate {
        shutdownContextErrs := shutdownContextErrs + [cause];
      }
      RecordIsDistinct(before, cause);
      return true;
    }

    /** The last line of requestShutdownEscalation, outside the lock. */
    method DemandKill()
      modifies this`shutdownForceKill, this`forceKillFired
      ensures State() == old(State()).DemandKill()
      ensures forceKillFired && (!old(forceKillFired) ==> shutdownForceKill.closed)
    {
      if !forceKillFired {
        forceKillFired := true;
        shutdownForceKill := shutdownForceKill.Close();
      }
    }

    method FinishShutdown(phase: Option<Cause>)
      modifies this`shutdownErr, this`shutdownFinished, this`shutdownDone
      ensures State() == old(State()).Finish(phase)
      ensures shutdownFinished && shutdownDone.closed
      ensures phase.Some? ==> shutdownErr == [phase.value] + shutdownContextErrs
      ensures phase.None? ==> shutdownErr == shutdownContextErrs
    {
      var errs := [];
      if phase.Some? {
        errs := errs + [phase.value];
      }
      errs := errs + shutdownContextErrs;
      shutdownErr := errs;
      shutdownFinished := true;
      shutdownDone := shutdownDone.Close();
    }
  }
}
