/** Removal of what an instance owns on disk (launch.go): validated first, then
    retried until it works, fails for good, or runs out of time. */
module Cleanup {
  import opened Channels
  import opened Durations

  /** A clean absolute path, as its components. */
  type Path = seq<string>

  function Dir(p: Path): Path {
    if p == [] then [] else p[..|p|-1]
  }

  predicate Under(p: Path, top: Path) {
    top <= p
  }

  datatype Kind = Regular | Socket | Directory | Symlink | OtherKind

  type Nodes = map<Path, Kind>

  datatype Failure =
    | OutsideHome | OutsideRuntimeDir | UnexpectedFile | InspectFailed | NotADirectory
    | UnsafeType | RemoveFailed | ListFailed | OutsideBoundary | StillThere

  datatype Stat = Missing | Broken | Found(kind: Kind)

  datatype Listing = NoDirectory | Unreadable | Entries(none: bool)

  /** p is an entry of the directory d. */
  predicate Inside(p: Path, d: Path) {
    Dir(p) == d && p != d
  }

  const RUN := "run"
  const INSTANCE_PREFIX := "jcode-sdk-instance-"
  const NAMES: set<string> := {"jcode-api.sock", "jcode.sock", "jcode-debug.sock", "jcode.sock.hash"}

  /** instanceOwnedRuntimePaths */
  predicate Expected(p: Path, runtimeDir: Path) {
    p != [] && Dir(p) == runtimeDir && p[|p|-1] in NAMES
  }

  predicate SafeKind(k: Kind) {
    k.Regular? || k.Socket?
  }

  /** Nanoseconds. */
  const DELAY: nat := 50_000_000
  const DEFAULT_TIMEOUT: nat := 30_000_000_000

  /** How many attempts fit: the first one, and one after each started delay. */
  function MaxAttempts(timeout: nat): nat {
    (timeout + DELAY - 1) / DELAY + 1
  }

  /** A file system and a monotone clock. Operation number n fails when fault(n)
      says so, takes takes(n) nanoseconds, and, when it is a failing RemoveAll,
      leaves survivors(n) behind. */
  class FileSystem {
    var nodes: Nodes
    var ops: nat
    var now: nat
    const fault: nat -> bool
    const takes: nat -> nat
    const survivors: nat -> set<Path>

    constructor (nodes: Nodes, fault: nat -> bool, takes: nat -> nat, survivors: nat -> set<Path>)
      ensures this.nodes == nodes && this.fault == fault && this.takes == takes && this.survivors == survivors
    {
      this.nodes, this.fault, this.takes, this.survivors := nodes, fault, takes, survivors;
      ops, now := 0, 0;
    }

    method Tick() returns (fails: bool)
      modifies this`ops, this`now
      ensures ops == old(ops) + 1 && now >= old(now) && fails == fault(old(ops))
    {
      fails := fault(ops);
      now := now + takes(ops);
      ops := ops + 1;
    }

    method Lstat(p: Path) returns (r: Stat)
      modifies this`ops, this`now
      ensures ops > old(ops) && now >= old(now)
      ensures r.Found? ==> p in nodes && r.kind == nodes[p]
      ensures r.Missing? ==> p !in nodes
      ensures r.Broken? <==> fault(old(ops))
    {
      var fails := Tick();
      r := if fails then Broken else if p in nodes then Found(nodes[p]) else Missing;
    }

    method ReadDir(p: Path) returns (r: Listing)
      modifies this`ops, this`now
      ensures ops > old(ops) && now >= old(now)
      ensures r.NoDirectory? ==> p !in nodes
      ensures r.Unreadable? <==> fault(old(ops))
      ensures r.Entries? ==> p in nodes && (r.none <==> forall q :: q in nodes ==> !Inside(q, p))
    {
      var fails := Tick();
      r := if fails then Unreadable
           else if p !in nodes then NoDirectory
           else Entries(forall q :: q in nodes ==> !Inside(q, p));
    }

    /** os.Remove of a file, or of a directory, which must be empty. */
    method Remove(p: Path) returns (ok: bool)
      modifies this`ops, this`now, this`nodes
      ensures ops > old(ops) && now >= old(now)
      ensures nodes == old(nodes) || (nodes == old(nodes) - {p} && p in old(nodes))
      ensures nodes != old(nodes) && old(nodes)[p].Directory? ==> forall q :: q in nodes ==> !Inside(q, p)
      ensures ok ==> p !in nodes
      ensures !fault(old(ops)) && (forall q :: q in old(nodes) ==> !Inside(q, p)) ==> ok
      ensures !fault(old(ops)) && p in old(nodes) && !old(nodes)[p].Directory? ==> ok
    {
      var fails := Tick();
      if fails || (p in nodes && nodes[p].Directory? && exists q :: q in nodes && Inside(q, p)) {
        return false;
      }
      ok := true;
      if p in nodes {
        nodes := nodes - {p};
      }
    }

    /** os.RemoveAll: everything at or below p, except what a failing run leaves. */
    method RemoveAll(p: Path) returns (ok: bool)
      modifies this`ops, this`now, this`nodes
      ensures ops > old(ops) && now >= old(now)
      ensures nodes.Keys <= old(nodes).Keys && forall q :: q in nodes ==> nodes[q] == old(nodes)[q]
      ensures forall q :: q in old(nodes) && q !in nodes ==> Under(q, p)
      ensures ok ==> forall q :: q in nodes ==> !Under(q, p)
      ensures ok <==> !fault(old(ops))
    {
      ghost var n := ops;
      var keep := survivors(ops);
      var fails := Tick();
      nodes := map q | q in nodes && (!Under(q, p) || (fails && q in keep)) :: nodes[q];
      ok := !fails;
    }

    /** time.Sleep */
    method Sleep(d: nat)
      modifies this`now
      ensures now >= old(now) + d
    {
      now := now + d;
    }
  }

  /** What an attempt may do to the disk: nothing is added or changed, and what
      goes is an owned file of a safe kind, or the run directory when nothing is
      left in it. */
  ghost predicate OnlyOwnedGone(before: Nodes, after: Nodes, runtimeDir: Path, owned: seq<Path>) {
    && after.Keys <= before.Keys
    && (forall q :: q in after ==> after[q] == before[q])
    && (forall q :: q in before && q !in after ==>
          (q in owned && SafeKind(before[q])) || (q == runtimeDir && forall r :: r in after ==> !Inside(r, q)))
  }

  lemma OnlyOwnedGoneCompose(a: Nodes, b: Nodes, c: Nodes, runtimeDir: Path, owned: seq<Path>)
    requires OnlyOwnedGone(a, b, runtimeDir, owned) && OnlyOwnedGone(b, c, runtimeDir, owned)
    ensures OnlyOwnedGone(a, c, runtimeDir, owned)
  {
  }

  /** No operation fails. */
  ghost predicate Cooperative(fs: FileSystem) {
    forall n :: !fs.fault(n)
  }

  predicate AllSafe(nodes: Nodes, owned: seq<Path>) {
    forall p :: p in owned && p in nodes ==> SafeKind(nodes[p])
  }

  /** removeOwnedRuntimePathsOnce. An error is permanent if an owned path could not
      be inspected or is not of a safe kind. */
  method RemoveOwnedRuntimePathsOnce(fs: FileSystem, runtimeDir: Path, owned: seq<Path>)
    returns (errs: seq<Failure>, permanent: bool)
    requires runtimeDir !in owned
    modifies fs
    ensures fs.now >= old(fs.now)
    ensures OnlyOwnedGone(old(fs.nodes), fs.nodes, runtimeDir, owned)
    ensures errs == [] ==> !permanent && forall p :: p in owned ==> p !in fs.nodes
    ensures errs == [] && runtimeDir in fs.nodes ==> exists q :: q in fs.nodes && Inside(q, runtimeDir)
    ensures permanent <==> InspectFailed in errs || UnsafeType in errs
    ensures Cooperative(fs) && AllSafe(old(fs.nodes), owned) ==> errs == []
    ensures UnsafeType in errs ==> !AllSafe(old(fs.nodes), owned)
    ensures Cooperative(fs) ==> InspectFailed !in errs && (UnsafeType in errs <==> !AllSafe(old(fs.nodes), owned))
  {
    errs, permanent := [], false;
    var i := 0;
    while i < |owned|
      invariant i <= |owned| && fs.now >= old(fs.now)
      invariant OnlyOwnedGone(old(fs.nodes), fs.nodes, runtimeDir, owned)
      invariant runtimeDir in old(fs.nodes) ==> runtimeDir in fs.nodes
      invariant errs == [] ==> forall k :: 0 <= k < i ==> owned[k] !in fs.nodes
      invariant permanent <==> InspectFailed in errs || UnsafeType in errs
      invariant Cooperative(fs) && AllSafe(old(fs.nodes), owned) ==> errs == []
      invariant UnsafeType in errs ==> !AllSafe(old(fs.nodes), owned)
      invariant Cooperative(fs) ==> InspectFailed !in errs
      invariant Cooperative(fs) ==>
                  forall k :: 0 <= k < i && owned[k] in old(fs.nodes) && !SafeKind(old(fs.nodes)[owned[k]]) ==> UnsafeType in errs
    {
      var path := owned[i];
      i := i + 1;
      var stat := fs.Lstat(path);
      match stat
      case Missing =>
      case Broken =>
        errs := errs + [InspectFailed];
        permanent := true;
      case Found(kind) =>
        if !SafeKind(kind) {
          errs := errs + [UnsafeType];
          permanent := true;
        } else {
          var ok := fs.Remove(path);
          if !ok {
            errs := errs + [RemoveFailed];
          }
        }
    }
    if errs != [] {
      return;
    }
    var listing := fs.ReadDir(runtimeDir);
    match listing
    case NoDirectory =>
    case Unreadable => errs := [ListFailed];
    case Entries(none) =>
      if none {
        var ok := fs.Remove(runtimeDir);
        if !ok {
          errs := [RemoveFailed];
        }
      }
  }

  /** The checks of removeOwnedRuntimePaths on what was recorded. */
  function RecordProblem(home: Path, runtimeDir: Path, owned: seq<Path>): Option<Failure> {
    if runtimeDir != home + [RUN] then Some(OutsideHome)
    else PathProblem(runtimeDir, owned)
  }

  function PathProblem(runtimeDir: Path, owned: seq<Path>): Option<Failure> {
    if owned == [] then None
    else if Dir(owned[0]) != runtimeDir then Some(OutsideRuntimeDir)
    else if !Expected(owned[0], runtimeDir) then Some(UnexpectedFile)
    else PathProblem(runtimeDir, owned[1..])
  }

  lemma {:induction false} NoProblemMeansExpected(runtimeDir: Path, owned: seq<Path>)
    ensures PathProblem(runtimeDir, owned).None? <==> forall p :: p in owned ==> Expected(p, runtimeDir)
    ensures PathProblem(runtimeDir, owned) == Some(OutsideRuntimeDir) ==> exists p :: p in owned && Dir(p) != runtimeDir
    ensures PathProblem(runtimeDir, owned) == Some(UnexpectedFile) ==>
              exists p :: p in owned && Dir(p) == runtimeDir && !Expected(p, runtimeDir)
    ensures PathProblem(runtimeDir, owned).Some? ==> PathProblem(runtimeDir, owned).value in {OutsideRuntimeDir, UnexpectedFile}
  {
    if owned == [] {
    } else {
      NoProblemMeansExpected(runtimeDir, owned[1..]);
      assert owned[0] in owned && forall p :: p in owned <==> p == owned[0] || p in owned[1..];
    }
  }

  /** An owned directory is there, is not there, or stops the cleanup. */
  method InspectDirectory(fs: FileSystem, p: Path) returns (problem: Option<Failure>, missing: bool)
    modifies fs`ops, fs`now
    ensures fs.now >= old(fs.now)
    ensures missing <==> !fs.fault(old(fs.ops)) && p !in fs.nodes
    ensures problem == if fs.fault(old(fs.ops)) then Some(InspectFailed)
                       else if p in fs.nodes && fs.nodes[p] != Directory then Some(NotADirectory)
                       else None
  {
    var stat := fs.Lstat(p);
    problem, missing := None, false;
    match stat
    case Missing => missing := true;
    case Broken => problem := Some(InspectFailed);
    case Found(kind) =>
      if !kind.Directory? {
        problem := Some(NotADirectory);
      }
  }

  /** MaxAttempts, spelled out: besides the first there is one attempt for each delay
      that starts before the time is over. */
  lemma AttemptsFit(timeout: nat, n: nat)
    ensures n <= MaxAttempts(timeout) <==> n <= 1 || (n - 2) * 50_000_000 < timeout
  {
  }

  /** The wait between two attempts: at least a full delay, or up to the deadline. */
  method Pause(fs: FileSystem, deadline: nat)
    modifies fs`now
    ensures fs.now >= old(fs.now)
    ensures fs.now >= old(fs.now) + DELAY || fs.now >= deadline
  {
    var left := deadline - fs.now;
    if left > 0 {
      fs.Sleep(if left < DELAY then left else DELAY);
    }
  }

  /** removeOwnedRuntimePaths: the errors of the last attempt, how many attempts
      there were, and how many of them met a permanent error. If validation fails
      nothing is attempted; a permanent error is met in the last attempt only; any
      other error is given up on only when the time is over. */
  method RemoveOwnedRuntimePaths(fs: FileSystem, home: Path, runtimeDir: Path, owned: seq<Path>, timeout: int)
    returns (errs: seq<Failure>, attempts: nat, permanents: nat)
    modifies fs
    ensures fs.now >= old(fs.now)
    ensures OnlyOwnedGone(old(fs.nodes), fs.nodes, runtimeDir, owned)
    ensures attempts == 0 ==> fs.nodes == old(fs.nodes)
    ensures (home != [] || runtimeDir != [] || owned != []) && RecordProblem(home, runtimeDir, owned).Some? ==>
              errs == [RecordProblem(home, runtimeDir, owned).value] && attempts == 0
    ensures attempts > 0 ==>
              && runtimeDir == home + [RUN] && (forall p :: p in owned ==> Expected(p, runtimeDir))
              && home in old(fs.nodes) && old(fs.nodes)[home].Directory?
              && runtimeDir in old(fs.nodes) && old(fs.nodes)[runtimeDir].Directory?
    ensures attempts > 0 && errs == [] ==>
              && (forall p :: p in owned ==> p !in fs.nodes)
              && (runtimeDir in fs.nodes ==> exists q :: q in fs.nodes && Inside(q, runtimeDir))
    ensures attempts == 0 && errs == [] ==>
              (home == [] && runtimeDir == [] && owned == []) || home !in fs.nodes || runtimeDir !in fs.nodes
    ensures attempts <= MaxAttempts(FiniteDuration(timeout, DEFAULT_TIMEOUT))
    ensures permanents == (if attempts > 0 && (InspectFailed in errs || UnsafeType in errs) then 1 else 0)
    ensures attempts > 0 && errs != [] && permanents == 0 ==> fs.now >= old(fs.now) + FiniteDuration(timeout, DEFAULT_TIMEOUT)
    ensures timeout > 0 && attempts > 1 ==> (attempts - 2) * 50_000_000 < timeout
    ensures timeout <= 0 && attempts > 1 ==> (attempts - 2) * 50_000_000 < 30_000_000_000
    ensures attempts > 0 && errs != [] && permanents == 0 ==>
              fs.now >= old(fs.now) + if timeout > 0 then timeout else 30_000_000_000
    ensures attempts > 0 && Cooperative(fs) && AllSafe(old(fs.nodes), owned) ==> errs == []
  {
    errs, attempts, permanents := [], 0, 0;
    if home == [] && runtimeDir == [] && owned == [] {
      return;
    }
    var problem := RecordProblem(home, runtimeDir, owned);
    if problem.Some? {
      return [problem.value], 0, 0;
    }
    NoProblemMeansExpected(runtimeDir, owned);
    var missing;
    problem, missing := InspectDirectory(fs, home);
    if missing {
      return;
    }
    if problem.Some? {
      return [problem.value], 0, 0;
    }
    problem, missing := InspectDirectory(fs, runtimeDir);
    if missing {
      return;
    }
    if problem.Some? {
      return [problem.value], 0, 0;
    }

    var limit := FiniteDuration(timeout, DEFAULT_TIMEOUT);
    var start, deadline := fs.now, fs.now + limit;
    ghost var easy := Cooperative(fs) && AllSafe(fs.nodes, owned);
    var permanent;
    errs, permanent := RemoveOwnedRuntimePathsOnce(fs, runtimeDir, owned);
    attempts, permanents := 1, if permanent then 1 else 0;
    while errs != [] && !permanent && fs.now < deadline
      invariant fs.now >= old(fs.now)
      invariant OnlyOwnedGone(old(fs.nodes), fs.nodes, runtimeDir, owned)
      invariant errs == [] ==>
                  && (forall p :: p in owned ==> p !in fs.nodes)
                  && (runtimeDir in fs.nodes ==> exists q :: q in fs.nodes && Inside(q, runtimeDir))
      invariant 1 <= attempts <= MaxAttempts(limit)
      invariant permanent <==> InspectFailed in errs || UnsafeType in errs
      invariant permanents == if permanent then 1 else 0
      invariant easy ==> errs == []
      invariant fs.now >= deadline || fs.now >= start + (attempts - 1) * DELAY
      decreases deadline - fs.now
    {
      AnotherAttemptFits(limit, attempts, fs.now - start);
      Pause(fs, deadline);
      ghost var before := fs.nodes;
      errs, permanent := RemoveOwnedRuntimePathsOnce(fs, runtimeDir, owned);
      OnlyOwnedGoneCompose(old(fs.nodes), before, fs.nodes, runtimeDir, owned);
      attempts, permanents := attempts + 1, if permanent then permanents + 1 else permanents;
    }
  }

  lemma AnotherAttemptFits(limit: nat, attempts: nat, elapsed: nat)
    requires attempts > 0 && elapsed < limit && elapsed >= (attempts - 1) * DELAY
    ensures attempts + 1 <= MaxAttempts(limit)
  {
  }

  /** removeOwnedInstanceHome. Only what is at or below a home the SDK made itself
      can go, and success means that the home is gone. */
  method RemoveOwnedInstanceHome(fs: FileSystem, home: Path, tempDir: Path, timeout: int)
    returns (errs: seq<Failure>, attempts: nat)
    modifies fs
    ensures fs.now >= old(fs.now)
    ensures fs.nodes.Keys <= old(fs.nodes).Keys && forall q :: q in fs.nodes ==> fs.nodes[q] == old(fs.nodes)[q]
    ensures forall q :: q in old(fs.nodes) && q !in fs.nodes ==> Under(q, home)
    ensures attempts == 0 ==> fs.nodes == old(fs.nodes)
    ensures attempts > 0 ==> MadeHere(home, tempDir) && home in old(fs.nodes) && old(fs.nodes)[home].Directory?
    ensures errs == [] ==> home !in fs.nodes
    ensures !MadeHere(home, tempDir) ==> errs == [OutsideBoundary] && attempts == 0
    ensures attempts <= MaxAttempts(FiniteDuration(timeout, DEFAULT_TIMEOUT))
    ensures attempts > 0 && errs != [] && InspectFailed !in errs ==> fs.now >= old(fs.now) + FiniteDuration(timeout, DEFAULT_TIMEOUT)
    ensures attempts > 0 && Cooperative(fs) ==> errs == []
  {
    errs, attempts := [], 0;
    if !MadeHere(home, tempDir) {
      return [OutsideBoundary], 0;
    }
    var problem, missing := InspectDirectory(fs, home);
    if missing {
      return;
    }
    if problem.Some? {
      return [problem.value], 0;
    }
    var limit := FiniteDuration(timeout, DEFAULT_TIMEOUT);
    var start, deadline := fs.now, fs.now + limit;
    var again := true;
    while again
      invariant fs.now >= old(fs.now)
      invariant fs.nodes.Keys <= old(fs.nodes).Keys && forall q :: q in fs.nodes ==> fs.nodes[q] == old(fs.nodes)[q]
      invariant forall q :: q in old(fs.nodes) && q !in fs.nodes ==> Under(q, home)
      invariant !again && errs == [] ==> home !in fs.nodes
      invariant !again && errs != [] && InspectFailed !in errs ==> fs.now >= deadline
      invariant !again && Cooperative(fs) ==> errs == []
      invariant attempts == 0 ==> again && fs.nodes == old(fs.nodes)
      invariant attempts <= MaxAttempts(limit)
      invariant again ==> attempts + 1 <= MaxAttempts(limit)
      invariant again ==> fs.now >= deadline || fs.now >= start + attempts * DELAY
      decreases again, if again && fs.now < deadline then deadline - fs.now else 0
    {
      var ok := fs.RemoveAll(home);
      attempts := attempts + 1;
      errs := if ok then [] else [RemoveFailed];
      var stat := fs.Lstat(home);
      if stat.Missing? {
        errs, again := [], false;
      } else if stat.Broken? {
        errs, again := errs + [InspectFailed], false;
      } else if fs.now >= deadline {
        errs, again := if errs == [] then [StillThere] else errs, false;
      } else {
        AnotherAttemptFits(limit, attempts, fs.now - start);
        Pause(fs, deadline);
      }
    }
  }

  /** The ownership boundary: a directory the SDK created in the temporary one. */
  predicate MadeHere(home: Path, tempDir: Path) {
    home != [] && Dir(home) == tempDir && INSTANCE_PREFIX <= home[|home|-1]
  }

  /** remainingCleanupDuration */
  function Remaining(deadline: nat, now: nat): nat {
    if deadline <= now then 1 else deadline - now
  }

  /** The expected paths and the homes made here, spelled out. */
  predicate RuntimeFileOf(p: Path, home: Path) {
    && |p| == |home| + 2 && p[..|home|] == home && p[|home|] == "run"
    && p[|home| + 1] in {"jcode-api.sock", "jcode.sock", "jcode-debug.sock", "jcode.sock.hash"}
  }

  lemma ExpectedMeans(p: Path, home: Path)
    ensures Expected(p, home + [RUN]) <==> RuntimeFileOf(p, home)
  {
    if Expected(p, home + [RUN]) {
      assert p == home + [RUN] + [p[|p|-1]];
    }
    if RuntimeFileOf(p, home) {
      assert Dir(p) == home + [RUN];
    }
  }

  lemma MadeHereMeans(home: Path, tempDir: Path)
    ensures MadeHere(home, tempDir) <==>
              home != [] && home == tempDir + [home[|home|-1]] && "jcode-sdk-instance-" <= home[|home|-1]
  {
  }

  /** cleanupOwnedInstancePaths: the runtime phase, then, for a home the SDK made,
      the home. A persistent home loses nothing but its own runtime files. */
  method CleanupOwnedInstancePaths(fs: FileSystem, home: Path, runtimeDir: Path, owned: seq<Path>,
                                   ephemeral: bool, tempDir: Path, timeout: int)
    returns (errs: seq<Failure>)
    modifies fs
    ensures fs.nodes.Keys <= old(fs.nodes).Keys && forall q :: q in fs.nodes ==> fs.nodes[q] == old(fs.nodes)[q]
    ensures !ephemeral ==> OnlyOwnedGone(old(fs.nodes), fs.nodes, runtimeDir, owned)
    ensures forall q :: q in old(fs.nodes) && q !in fs.nodes ==>
              || (q in owned && RuntimeFileOf(q, home) && (old(fs.nodes)[q] == Regular || old(fs.nodes)[q] == Socket))
              || (q == home + ["run"] && forall r :: r in fs.nodes ==> !Inside(r, q))
              || (ephemeral && home != [] && home == tempDir + [home[|home|-1]]
                  && "jcode-sdk-instance-" <= home[|home|-1] && home <= q)
    ensures !ephemeral && home in old(fs.nodes) ==> home in fs.nodes
    ensures ephemeral && errs == [] ==> home !in fs.nodes
  {
    var deadline := fs.now + FiniteDuration(timeout, DEFAULT_TIMEOUT);
    var attempts, permanents;
    errs, attempts, permanents := RemoveOwnedRuntimePaths(fs, home, runtimeDir, owned, Remaining(deadline, fs.now));
    if ephemeral {
      var more, homeAttempts := RemoveOwnedInstanceHome(fs, home, tempDir, Remaining(deadline, fs.now));
      errs := errs + more;
      MadeHereMeans(home, tempDir);
    }
    forall q ensures Expected(q, home + [RUN]) <==> RuntimeFileOf(q, home) {
      ExpectedMeans(q, home);
    }
  }
}
