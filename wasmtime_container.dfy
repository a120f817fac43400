/** The container of wasmtime/container.go: one init process, a registry of exec'd
    processes keyed by exec id, and a cgroup found lazily for a started process; plus
    NewContainer, which prepares the root filesystem and the init process from a
    create request and the bundle's configuration. */
module WasmtimeContainer {
  import opened Wrappers
  import opened Os
  import Launch
  import P = WasmtimeProcess

  // ---------------------------------------------------------------------------
  // Create requests, configurations and mounts

  /** One entry of the request's root filesystem mount list. */
  datatype Mount = Mount(kind: string, source: string, options: seq<string>)

  /** The fields of a create-task request the container uses. */
  datatype CreateRequest = CreateRequest(id: string, bundle: string, rootfs: seq<Mount>,
                                         stdin: string, stdout: string, stderr: string, terminal: bool)

  /** The process section of the bundle configuration. */
  datatype ProcessSpec = ProcessSpec(args: seq<string>, env: seq<string>)

  /** The bundle configuration: an optional process section and an optional root path. */
  datatype Spec = Spec(process: Option<ProcessSpec>, root: Option<string>)

  /** What reading and decoding `config.json` in the bundle gives. */
  datatype Config = Unreadable(msg: string) | Malformed(msg: string) | Parsed(spec: Spec)

  /** The legacy-hierarchy cgroup of a pid. */
  datatype Cgroup = V1(pid: int)

  /** A step NewContainer takes on the file system. */
  datatype MountEvent = Mkdir(path: string) | Mounted(m: Mount, target: string) | UnmountAll(target: string)

  /** A mount that is attached, and where. */
  datatype Attachment = Attachment(m: Mount, target: string)

  /** Path joining, without the cleaning of `.`, `..` and repeated separators. */
  function Join(dir: string, name: string): string
  {
    dir + "/" + name
  }

  // ---------------------------------------------------------------------------
  // Preparing the root filesystem

  /** Some mount in `ms` is not a bind mount. */
  predicate HasNonBind(ms: seq<Mount>)
  {
    exists i :: 0 <= i < |ms| && ms[i].kind != "bind"
  }

  /** The directory NewContainer assembles the mounts in. */
  function AssembledRoot(bundle: string): string
  {
    Join(bundle, "rootfs")
  }

  lemma HasNonBindSnoc(ms: seq<Mount>, m: Mount)
    ensures HasNonBind(ms + [m]) <==> HasNonBind(ms) || m.kind != "bind"
  {
    if HasNonBind(ms) {
      var j :| 0 <= j < |ms| && ms[j].kind != "bind";
      assert (ms + [m])[j] == ms[j];
    }
    if m.kind != "bind" {
      assert (ms + [m])[|ms|] == m;
    }
  }

  /** The root filesystem NewContainer settles on: the assembled directory when some
      mount is not a bind mount, else the first mount's source, else the
      configuration's non-empty root path, else none. */
  function ChooseRootfs(bundle: string, mounts: seq<Mount>, root: Option<string>): (r: Option<string>)
    ensures r.None? <==> mounts == [] && (root.None? || root.value == "")
    ensures HasNonBind(mounts) ==> r == Some(AssembledRoot(bundle))
    ensures !HasNonBind(mounts) && mounts != [] ==> r == Some(mounts[0].source)
    ensures mounts == [] && r.Some? ==> r == root
  {
    if HasNonBind(mounts) then Some(AssembledRoot(bundle))
    else if |mounts| > 0 then Some(mounts[0].source)
    else if root.Some? && root.value != "" then Some(root.value)
    else None
  }

  /** The index of the first mount the system refuses, or `n` when none of the first
      `n` is refused. */
  function FirstFailure(fails: set<nat>, n: nat): (k: nat)
    ensures k <= n
    ensures k < n ==> k in fails
    ensures forall j :: 0 <= j < k ==> j !in fails
  {
    if n == 0 then 0
    else
      var k := FirstFailure(fails, n - 1);
      if k < n - 1 then k else if n - 1 in fails then n - 1 else n
  }

  /** Each of `ms` mounted on `target`, in order. */
  function Mounts(ms: seq<Mount>, target: string): (ev: seq<MountEvent>)
    ensures |ev| == |ms|
    ensures forall i :: 0 <= i < |ms| ==> ev[i] == Mounted(ms[i], target)
  {
    if ms == [] then [] else Mounts(ms[..|ms| - 1], target) + [Mounted(ms[|ms| - 1], target)]
  }

  function MountError(m: Mount): Error
  {
    Generic("failed to mount rootfs component " + m.source)
  }

  /** The file-system steps of NewContainer and the error that stops them: with some
      non-bind mount, the assembled directory is created and every mount is applied
      in order; a mount the system refuses unmounts everything under the directory. */
  function MountPhase(bundle: string, mounts: seq<Mount>, mkdirErr: Option<string>, fails: set<nat>)
    : (r: (seq<MountEvent>, Option<Error>))
    ensures !HasNonBind(mounts) ==> r == ([], None)
    ensures HasNonBind(mounts) ==> |r.0| > 0 && r.0[0] == Mkdir(AssembledRoot(bundle))
    ensures r.1.None? <==> !HasNonBind(mounts) || (mkdirErr.None? && forall i :: 0 <= i < |mounts| ==> i !in fails)
    ensures r.1.Some? ==> r.1 == if mkdirErr.Some? then Some(Generic(mkdirErr.value))
                                 else Some(MountError(mounts[FirstFailure(fails, |mounts|)]))
  {
    var root := AssembledRoot(bundle);
    if !HasNonBind(mounts) then ([], None)
    else if mkdirErr.Some? then ([Mkdir(root)], Some(Generic(mkdirErr.value)))
    else
      var k := FirstFailure(fails, |mounts|);
      if k < |mounts| then ([Mkdir(root)] + Mounts(mounts[..k], root) + [UnmountAll(root)], Some(MountError(mounts[k])))
      else ([Mkdir(root)] + Mounts(mounts, root), None)
  }

  /** The program arguments with the first one placed under the root filesystem. */
  function UnderRoot(rootfs: string, args: seq<string>): seq<string>
  {
    if |args| > 0 then args[0 := Join(rootfs, args[0])] else args
  }

  /** What NewContainer gives the init process. */
  datatype InitPlan = InitPlan(rootfs: string, remaps: seq<string>, env: seq<string>, args: seq<string>)

  /** The outcome of NewContainer and the file-system steps it takes. */
  function NewContainerPlan(r: CreateRequest, config: Config, mkdirErr: Option<string>, fails: set<nat>)
    : (res: (Result<InitPlan>, seq<MountEvent>))
    ensures !config.Parsed? || config.spec.process.None? ==> res.0.Err? && res.1 == []
    ensures res.0.Ok? <==> && config.Parsed? && config.spec.process.Some?
                           && MountPhase(r.bundle, r.rootfs, mkdirErr, fails).1.None?
                           && ChooseRootfs(r.bundle, r.rootfs, config.spec.root).Some?
    ensures config.Parsed? && config.spec.process.Some? ==> res.1 == MountPhase(r.bundle, r.rootfs, mkdirErr, fails).0
    ensures config.Parsed? && config.spec.process.None? ==> res.0 == Err(InvalidArgument("no process specification"))
    ensures config.Parsed? && config.spec.process.Some? && MountPhase(r.bundle, r.rootfs, mkdirErr, fails).1.Some?
            ==> res.0 == Err(MountPhase(r.bundle, r.rootfs, mkdirErr, fails).1.value)
    ensures config.Parsed? && config.spec.process.Some? && MountPhase(r.bundle, r.rootfs, mkdirErr, fails).1.None?
            && ChooseRootfs(r.bundle, r.rootfs, config.spec.root).None?
            ==> res.0 == Err(InvalidArgument("no root provided"))
    ensures !config.Parsed? ==> res.0 == Err(Generic(if config.Unreadable? then "failed to read spec: " + config.msg
                                                     else "failed to unmarshal spec: " + config.msg))
  {
    match config
    case Unreadable(msg) => (Err(Generic("failed to read spec: " + msg)), [])
    case Malformed(msg) => (Err(Generic("failed to unmarshal spec: " + msg)), [])
    case Parsed(spec) =>
      if spec.process.None? then (Err(InvalidArgument("no process specification")), [])
      else
        var (events, failure) := MountPhase(r.bundle, r.rootfs, mkdirErr, fails);
        if failure.Some? then (Err(failure.value), events)
        else match ChooseRootfs(r.bundle, r.rootfs, spec.root)
          case None => (Err(InvalidArgument("no root provided")), events)
          case Some(rootfs) =>
            (Ok(InitPlan(rootfs, [Launch.RootRemap(rootfs)], spec.process.value.env,
                         UnderRoot(rootfs, spec.process.value.args))), events)
  }

  /** Removes the attachments on `target`. */
  function Detach(a: seq<Attachment>, target: string): (r: seq<Attachment>)
    ensures forall x :: x in r <==> x in a && x.target != target
  {
    if a == [] then []
    else if a[|a| - 1].target == target then Detach(a[..|a| - 1], target)
    else Detach(a[..|a| - 1], target) + [a[|a| - 1]]
  }

  /** Detaching a target removes everything when all attachments are on it. */
  lemma {:induction false} DetachAll(a: seq<Attachment>, target: string)
    requires forall i :: 0 <= i < |a| ==> a[i].target == target
    ensures Detach(a, target) == []
  {
    if a != [] {
      DetachAll(a[..|a| - 1], target);
    }
  }

  /** The mounts still attached after `ev`. */
  function Attached(ev: seq<MountEvent>): seq<Attachment>
  {
    if ev == [] then []
    else
      var before := Attached(ev[..|ev| - 1]);
      match ev[|ev| - 1]
      case Mkdir(_) => before
      case Mounted(m, t) => before + [Attachment(m, t)]
      case UnmountAll(t) => Detach(before, t)
  }

  /** Each of `ms` attached on `target`, in order. */
  function AttachedAt(ms: seq<Mount>, target: string): (a: seq<Attachment>)
    ensures |a| == |ms|
    ensures forall i :: 0 <= i < |ms| ==> a[i] == Attachment(ms[i], target)
  {
    if ms == [] then [] else AttachedAt(ms[..|ms| - 1], target) + [Attachment(ms[|ms| - 1], target)]
  }

  lemma {:induction false} AttachedMounts(pre: seq<MountEvent>, ms: seq<Mount>, target: string)
    requires Attached(pre) == []
    ensures Attached(pre + Mounts(ms, target)) == AttachedAt(ms, target)
    decreases |ms|
  {
    if ms == [] {
      assert pre + Mounts(ms, target) == pre;
    } else {
      var n := |ms| - 1;
      AttachedMounts(pre, ms[..n], target);
      var ev := pre + Mounts(ms, target);
      assert Mounts(ms, target)[..n] == Mounts(ms[..n], target);
      assert ev[..|ev| - 1] == pre + Mounts(ms[..n], target);
      assert ev[|ev| - 1] == Mounted(ms[n], target);
    }
  }

  /** Mounts that fail part-way leave nothing attached once everything under the
      directory is unmounted. */
  lemma FailedMountsDetached(root: string, done: seq<Mount>)
    ensures Attached([Mkdir(root)] + Mounts(done, root) + [UnmountAll(root)]) == []
  {
    assert Attached([Mkdir(root)]) == [] by {
      assert [Mkdir(root)][..0] == [];
    }
    var mid := [Mkdir(root)] + Mounts(done, root);
    AttachedMounts([Mkdir(root)], done, root);
    var ev := mid + [UnmountAll(root)];
    assert ev[..|ev| - 1] == mid;
    DetachAll(AttachedAt(done, root), root);
  }

  /** Mounts that all succeed are all attached, in order. */
  lemma MountedAllAttached(root: string, mounts: seq<Mount>)
    ensures Attached([Mkdir(root)] + Mounts(mounts, root)) == AttachedAt(mounts, root)
  {
    assert Attached([Mkdir(root)]) == [] by {
      assert [Mkdir(root)][..0] == [];
    }
    AttachedMounts([Mkdir(root)], mounts, root);
  }

  /** Building the root filesystem is all or nothing: when NewContainer's mount steps
      fail, no mount is left attached; when they succeed, every listed mount is
      attached on the assembled directory, in order, or none is needed. */
  lemma MountPhaseAllOrNothing(bundle: string, mounts: seq<Mount>, mkdirErr: Option<string>, fails: set<nat>)
    ensures var (ev, failure) := MountPhase(bundle, mounts, mkdirErr, fails);
            && (failure.Some? ==> Attached(ev) == [])
            && (failure.None? ==> Attached(ev) == if HasNonBind(mounts) then AttachedAt(mounts, AssembledRoot(bundle)) else [])
  {
    var root := AssembledRoot(bundle);
    if HasNonBind(mounts) {
      if mkdirErr.Some? {
        assert [Mkdir(root)][..0] == [];
      } else {
        var k := FirstFailure(fails, |mounts|);
        if k < |mounts| {
          FailedMountsDetached(root, mounts[..k]);
        } else {
          MountedAllAttached(root, mounts);
        }
      }
    }
  }

  /** The scenario of a root filesystem assembled from three mounts whose second one
      the system refuses: the first is mounted, everything is unmounted again, and the
      mount error is returned. */
  lemma SecondOfThreeMountsFails(bundle: string, a: Mount, b: Mount, c: Mount)
    requires a.kind != "bind"
    ensures var (ev, failure) := MountPhase(bundle, [a, b, c], None, {1});
            && failure == Some(MountError(b))
            && ev == [Mkdir(AssembledRoot(bundle)), Mounted(a, AssembledRoot(bundle)), UnmountAll(AssembledRoot(bundle))]
            && Attached(ev) == []
  {
    var ms := [a, b, c];
    assert ms[0].kind != "bind";
    var k := FirstFailure({1}, 3);
    assert k == 1;
    assert ms[..1] == [a];
    MountPhaseAllOrNothing(bundle, ms, None, {1});
  }

  /** A successful NewContainer gives the init process the single remap `/:rootfs`,
      places the first program argument under the root filesystem and keeps the
      other arguments and the environment; the root filesystem is assembled from
      the mounts exactly when one of them is not a bind mount. */
  lemma NewContainerPlanInit(r: CreateRequest, config: Config, mkdirErr: Option<string>, fails: set<nat>)
    ensures var (plan, ev) := NewContainerPlan(r, config, mkdirErr, fails);
            plan.Ok? ==>
              && config.Parsed? && config.spec.process.Some?
              && var ps := config.spec.process.value;
              && plan.value.remaps == ["/:" + plan.value.rootfs]
              && plan.value.env == ps.env
              && |plan.value.args| == |ps.args|
              && (|ps.args| > 0 ==> plan.value.args[0] == Join(plan.value.rootfs, ps.args[0])
                                    && plan.value.args[1..] == ps.args[1..])
              && (HasNonBind(r.rootfs) ==> plan.value.rootfs == AssembledRoot(r.bundle)
                                           && ev == [Mkdir(AssembledRoot(r.bundle))] + Mounts(r.rootfs, AssembledRoot(r.bundle)))
              && (!HasNonBind(r.rootfs) ==> ev == [])
  {
    var (plan, ev) := NewContainerPlan(r, config, mkdirErr, fails);
    if plan.Ok? {
      var ps := config.spec.process.value;
      if HasNonBind(r.rootfs) {
        var k := FirstFailure(fails, |r.rootfs|);
        assert k == |r.rootfs|;
      }
      if |ps.args| > 0 {
        assert plan.value.args[1..] == ps.args[1..];
      }
    }
  }

  /** The pid-keyed cgroup Start leaves cached: the one already cached, or, when none
      is and the started process has a positive pid, the one found for that pid, or
      none when finding it failed. */
  function CachedCgroup(cached: Option<Cgroup>, pid: int, loaded: bool): (cg: Option<Cgroup>)
    ensures cached.Some? ==> cg == cached
    ensures cg != cached ==> cached.None? && pid > 0 && loaded && cg == Some(V1(pid))
    ensures cached.None? && pid > 0 && loaded ==> cg == Some(V1(pid))
  {
    if cached.None? && pid > 0 then (if loaded then Some(V1(pid)) else None) else cached
  }

  // ---------------------------------------------------------------------------
  // Routing requests to processes

  /** The process an exec id names: "" names the init process, which must exist; any
      other id names a registry entry. */
  function Route(init: P.Process?, processes: map<string, P.Process>, execId: string): (r: Result<P.Process>)
    ensures r.Ok? <==> if execId == "" then init != null else execId in processes
    ensures r.Ok? ==> r.value == if execId == "" then init else processes[execId]
    ensures r.Err? && execId == "" ==> r.error == FailedPrecondition("container must be created")
    ensures r.Err? && execId != "" ==> r.error == NotFound("process does not exist " + execId)
  {
    if execId == "" then
      if init == null then Err(FailedPrecondition("container must be created")) else Ok(init)
    else if execId in processes then Ok(processes[execId])
    else Err(NotFound("process does not exist " + execId))
  }

  /** Registering a process makes its id route to it, except the empty id, which
      keeps routing to the init process; every other id routes as before. */
  lemma RouteAfterAdd(init: P.Process?, processes: map<string, P.Process>, p: P.Process, execId: string)
    ensures Route(init, processes[p.id := p], execId)
            == if execId == p.id && execId != "" then Ok(p) else Route(init, processes, execId)
  {
  }

  /** Removing an id makes it unknown, leaves the init process routed by "" and
      every other id routed as before. */
  lemma RouteAfterRemove(init: P.Process?, processes: map<string, P.Process>, id: string, execId: string)
    ensures Route(init, processes - {id}, execId)
            == if execId == id && execId != "" then Err(NotFound("process does not exist " + execId))
               else Route(init, processes, execId)
  {
  }

  class Container {
    const id: string
    const bundle: string
    /** The init process, set when the container is made and never replaced. */
    const init: P.Process?
    /** The cached cgroup; none until one is found for a started process. */
    var cgroup: Option<Cgroup>
    /** The exec'd processes, keyed by exec id. */
    var processes: map<string, P.Process>

    constructor (id: string, bundle: string, init: P.Process?)
      ensures this.id == id && this.bundle == bundle && this.init == init
      ensures cgroup == None && processes == map[]
    {
      this.id := id;
      this.bundle := bundle;
      this.init := init;
      cgroup := None;
      processes := map[];
    }

    /** The process `execId` names, or why there is none. */
    function Process(execId: string): (r: Result<P.Process>)
      reads this
      ensures r == Route(init, processes, execId)
      ensures r.Ok? <==> if execId == "" then init != null else execId in processes
    {
      Route(init, processes, execId)
    }

    /** The objects an operation on `execId` may change: the process it names. */
    function Target(execId: string): set<P.Process>
      reads this
    {
      if Process(execId).Ok? then {Process(execId).value} else {}
    }

    function ProcessExists(execId: string): (b: bool)
      reads this
      ensures b <==> execId in processes
      ensures b && execId != "" ==> Process(execId).Ok?
    {
      execId in processes
    }

    /** Registers `p` under its id, replacing any process registered there. */
    method ProcessAdd(p: P.Process)
      modifies this`processes
      ensures processes == old(processes)[p.id := p]
      ensures ProcessExists(p.id)
      ensures forall k :: k != p.id ==> Process(k) == old(Process(k))
    {
      processes := processes[p.id := p];
      forall k | k != p.id
        ensures Process(k) == old(Process(k))
      {
        RouteAfterAdd(init, old(processes), p, k);
      }
    }

    /** Forgets the process registered under `execId`, if any. */
    method ProcessRemove(execId: string)
      modifies this`processes
      ensures processes == old(processes) - {execId}
      ensures !ProcessExists(execId)
      ensures forall k :: k != execId ==> Process(k) == old(Process(k))
    {
      processes := processes - {execId};
      forall k | k != execId
        ensures Process(k) == old(Process(k))
      {
        RouteAfterRemove(init, old(processes), execId, k);
      }
    }

    /** Every registered process once, in the map's iteration order; `keys` is that
        order. */
    method ExecdProcesses() returns (o: seq<P.Process>, ghost keys: seq<string>)
      ensures |o| == |keys|
      ensures forall i :: 0 <= i < |o| ==> keys[i] in processes && o[i] == processes[keys[i]]
      ensures forall k :: k in processes ==> k in keys
      ensures forall i, j :: 0 <= i < j < |keys| ==> keys[i] != keys[j]
    {
      o, keys := [], [];
      var rest := processes.Keys;
      while rest != {}
        invariant rest <= processes.Keys
        invariant |o| == |keys|
        invariant forall i :: 0 <= i < |o| ==> keys[i] in processes && o[i] == processes[keys[i]]
        invariant forall k :: k in processes ==> k in keys || k in rest
        invariant forall i :: 0 <= i < |keys| ==> keys[i] !in rest
        invariant forall i, j :: 0 <= i < j < |keys| ==> keys[i] != keys[j]
        decreases rest
      {
        var k :| k in rest;
        o, keys := o + [processes[k]], keys + [k];
        rest := rest - {k};
      }
    }

    /** The registered processes followed by the init process, when there is one. */
    method All() returns (o: seq<P.Process>, ghost keys: seq<string>)
      ensures |o| == |keys| + (if init != null then 1 else 0)
      ensures forall i :: 0 <= i < |keys| ==> keys[i] in processes && o[i] == processes[keys[i]]
      ensures forall k :: k in processes ==> k in keys
      ensures forall i, j :: 0 <= i < j < |keys| ==> keys[i] != keys[j]
      ensures init != null ==> o[|keys|] == init
    {
      o, keys := ExecdProcesses();
      if init != null {
        o := o + [init];
      }
    }

    /** Whether the init process or a registered process has the given pid. */
    method HasPid(pid: int) returns (b: bool)
      requires init != null
      ensures b <==> init.Pid() == pid || exists k :: k in processes && processes[k].Pid() == pid
    {
      if init.Pid() == pid {
        return true;
      }
      var all, keys := All();
      for i := 0 to |all|
        invariant forall j :: 0 <= j < i ==> all[j].Pid() != pid
      {
        if all[i].Pid() == pid {
          return true;
        }
      }
      forall k | k in processes
        ensures processes[k].Pid() != pid
      {
        var j :| 0 <= j < |keys| && keys[j] == k;
        assert all[j] == processes[k];
      }
      return false;
    }

    method CgroupSet(cg: Option<Cgroup>)
      modifies this`cgroup
      ensures cgroup == cg
    {
      cgroup := cg;
    }

    /** Starts the process `execId` names and, when it started and no cgroup is
        cached, caches the cgroup of its pid. A failure to find the cgroup is not
        reported: the process is returned and no cgroup is cached. */
    method Start(execId: string, refused: set<Role>, spawn: Spawn, loaded: bool) returns (r: Result<P.Process>)
      requires Process(execId).Ok? ==> && Process(execId).value.Valid()
                                        && (Process(execId).value.lockHeld
                                            ==> OpenRedirects(Process(execId).value.stdio, refused).failure.Some?)
      modifies this`cgroup, Target(execId)
      ensures old(Process(execId)).Err? ==> r == old(Process(execId)) && cgroup == old(cgroup)
      ensures old(Process(execId)).Ok? ==>
                var p := old(Process(execId)).value;
                var started := StartResult(old(p.process).Some?, p.stdio, refused, spawn);
                && p.Valid()
                && (started.Fail? ==> r == Err(started.error) && cgroup == old(cgroup))
                && (started.Pass? ==> r == Ok(p) && cgroup == CachedCgroup(old(cgroup), p.Pid(), loaded))
      // the started process's new state, as its own Start leaves it
      ensures old(Process(execId)).Ok? ==>
                var p := old(Process(execId)).value;
                var o := OpenRedirects(p.stdio, refused);
                var launched := o.failure.None? && old(p.process).None?;
                && p.effects == old(p.effects) + Opens(o.handles)
                                + (if launched then [Os.Exec(Command(P.Engine, Launch.EngineArgv(p.remaps, p.env, p.args), o.handles))] else [])
                && (r.Ok? ==> && p.process == Some(OsProcess(spawn.pid)) && p.closers == o.handles
                              && p.stdin == StdinOf(o.handles) && p.waiting)
                && (r.Err? ==> && p.process == old(p.process) && p.stdin == old(p.stdin)
                               && p.closers == old(p.closers) && p.waiting == old(p.waiting))
                && (p.lockHeld <==> old(p.lockHeld) || (o.failure.None? && old(p.process).Some?))
                && p.exited == old(p.exited) && p.exits == old(p.exits)
                && p.exitStatus == old(p.exitStatus) && p.exitTimeSet == old(p.exitTimeSet)
    {
      var lookup := Process(execId);
      if lookup.Err? {
        return lookup;
      }
      var p := lookup.value;
      var err := p.Start(refused, spawn);
      if err.Fail? {
        return Err(err.error);
      }
      if cgroup.None? && p.Pid() > 0 {
        // a failed lookup is only logged, and leaves no cgroup cached
        cgroup := if loaded then Some(V1(p.Pid())) else None;
      }
      return Ok(p);
    }

    /** Deletes the process `execId` names; an exec'd process is also unregistered,
        the init process never is. The process's own Delete always succeeds. */
    method Delete(execId: string) returns (r: Result<P.Process>)
      modifies this`processes
      ensures r == old(Process(execId))
      ensures processes == if r.Ok? && execId != "" then old(processes) - {execId} else old(processes)
    {
      var lookup := Process(execId);
      if lookup.Err? {
        return lookup;
      }
      var p := lookup.value;
      if execId != "" {
        ProcessRemove(execId);
      }
      return Ok(p);
    }

    /** Kills the process `execId` names. */
    method Kill(execId: string, signal: nat, all: bool, killErr: Option<string>) returns (r: Outcome)
      requires Process(execId).Ok? ==> Process(execId).value.Valid() && !Process(execId).value.lockHeld
      modifies Target(execId)`effects
      ensures old(Process(execId)).Err? ==> r == Fail(old(Process(execId)).error)
      ensures old(Process(execId)).Ok? ==>
                var p := old(Process(execId)).value;
                && r == P.KillResult(p.process.Some?, killErr)
                && p.effects == old(p.effects) + (if p.process.Some? then [KillProcess] else [])
    {
      var lookup := Process(execId);
      if lookup.Err? {
        return Fail(lookup.error);
      }
      r := lookup.value.Kill(signal, all, killErr);
    }

    /** Closes the stdin file of the process `execId` names, when it kept one. */
    method CloseIO(execId: string, closeErr: Option<string>) returns (r: Outcome)
      requires Process(execId).Ok? ==> !Process(execId).value.lockHeld
      modifies Target(execId)`effects
      ensures old(Process(execId)).Err? ==> r == Fail(old(Process(execId)).error)
      ensures old(Process(execId)).Ok? ==>
                var p := old(Process(execId)).value;
                match p.stdin
                case None => r == Pass && p.effects == old(p.effects)
                case Some(h) => && p.effects == old(p.effects) + [Close(h)]
                                && r == if closeErr.Some? then Fail(Generic("close stdin: " + closeErr.value)) else Pass
    {
      var lookup := Process(execId);
      if lookup.Err? {
        return Fail(lookup.error);
      }
      var p := lookup.value;
      match p.stdin
      case None =>
        r := Pass;
      case Some(h) =>
        p.effects := p.effects + [Close(h)];
        if closeErr.Some? {
          return Fail(Generic("close stdin: " + closeErr.value));
        }
        r := Pass;
    }

    /** Resizing succeeds for any process the exec id names. */
    function ResizePty(execId: string, width: nat, height: nat): (r: Outcome)
      reads this
      ensures r.Pass? <==> Process(execId).Ok?
      ensures r.Fail? ==> r.error == Process(execId).error
    {
      match Process(execId)
      case Err(e) => Fail(e)
      case Ok(p) => p.Resize(width, height)
    }

    function Exec(): (r: Result<P.Process>)
      ensures r.Err? && r.error.NotImplemented?
    {
      Err(NotImplemented("exec not implemented"))
    }

    function Pause(): (r: Outcome)
      ensures r.Fail? && r.error.NotImplemented?
    {
      Fail(NotImplemented("pause not implemented"))
    }

    function Resume(): (r: Outcome)
      ensures r.Fail? && r.error.NotImplemented?
    {
      Fail(NotImplemented("resume not implemented"))
    }

    function Checkpoint(): (r: Outcome)
      ensures r.Fail? && r.error.NotImplemented?
    {
      Fail(NotImplemented("checkpoint not implemented"))
    }

    function Update(): (r: Outcome)
      ensures r.Fail? && r.error.NotImplemented?
    {
      Fail(NotImplemented("update not implemented"))
    }
  }

  // ---------------------------------------------------------------------------
  // Making a container

  /** Creates the assembled directory at the first mount that is not a bind mount;
      `rootfs` is the directory, or "" when every mount is a bind mount. */
  method CreateRoot(bundle: string, mounts: seq<Mount>, mkdirErr: Option<string>)
    returns (rootfs: string, events: seq<MountEvent>, failure: Option<Error>)
    ensures rootfs == if HasNonBind(mounts) then AssembledRoot(bundle) else ""
    ensures events == if HasNonBind(mounts) then [Mkdir(AssembledRoot(bundle))] else []
    ensures failure == if HasNonBind(mounts) && mkdirErr.Some? then Some(Generic(mkdirErr.value)) else None
  {
    var root := AssembledRoot(bundle);
    rootfs, events, failure := "", [], None;
    for i := 0 to |mounts|
      invariant rootfs == if HasNonBind(mounts[..i]) then root else ""
      invariant events == if HasNonBind(mounts[..i]) then [Mkdir(root)] else []
      invariant HasNonBind(mounts[..i]) ==> mkdirErr.None?
    {
      var m := mounts[i];
      assert mounts[..i + 1] == mounts[..i] + [m];
      HasNonBindSnoc(mounts[..i], m);
      if m.kind == "bind" {
        continue;
      }
      if rootfs == "" {
        rootfs := root;
        events := events + [Mkdir(rootfs)];
        if mkdirErr.Some? {
          assert HasNonBind(mounts) by {
            assert mounts[i].kind != "bind";
          }
          return rootfs, events, Some(Generic(mkdirErr.value));
        }
      }
    }
    assert mounts[..|mounts|] == mounts;
  }

  /** Mounts every listed mount on `root` in order; a mount the system refuses
      unmounts everything under `root` and stops. */
  method MountEach(mounts: seq<Mount>, root: string, fails: set<nat>)
    returns (events: seq<MountEvent>, failure: Option<Error>)
    ensures var k := FirstFailure(fails, |mounts|);
            if k < |mounts| then events == Mounts(mounts[..k], root) + [UnmountAll(root)] && failure == Some(MountError(mounts[k]))
            else events == Mounts(mounts, root) && failure == None
  {
    events, failure := [], None;
    for j := 0 to |mounts|
      invariant events == Mounts(mounts[..j], root)
      invariant forall k :: 0 <= k < j ==> k !in fails
    {
      var m := mounts[j];
      if j in fails {
        events := events + [UnmountAll(root)];
        return events, Some(MountError(m));
      }
      assert mounts[..j + 1][..j] == mounts[..j];
      events := events + [Mounted(m, root)];
    }
    assert mounts[..|mounts|] == mounts;
  }

  /** Creates the assembled directory when some mount is not a bind mount, then
      mounts every listed mount on it in order. `rootfs` is the directory, or ""
      when none was needed. */
  method AssembleRootfs(bundle: string, mounts: seq<Mount>, mkdirErr: Option<string>, fails: set<nat>)
    returns (rootfs: string, events: seq<MountEvent>, failure: Option<Error>)
    ensures (events, failure) == MountPhase(bundle, mounts, mkdirErr, fails)
    ensures rootfs == if HasNonBind(mounts) then AssembledRoot(bundle) else ""
  {
    rootfs, events, failure := CreateRoot(bundle, mounts, mkdirErr);
    if failure.None? && rootfs != "" {
      // from here on a failure unmounts everything under the assembled directory
      var mounted;
      mounted, failure := MountEach(mounts, rootfs, fails);
      var k := FirstFailure(fails, |mounts|);
      if k < |mounts| {
        assert events + mounted == [Mkdir(rootfs)] + Mounts(mounts[..k], rootfs) + [UnmountAll(rootfs)];
      }
      events := events + mounted;
    }
  }

  /** Reads the configuration, prepares the root filesystem and makes the container
      with its init process. The init process's pid is 0 as made here, so no cgroup
      is looked up. */
  method NewContainer(r: CreateRequest, config: Config, mkdirErr: Option<string>, mountFails: set<nat>)
    returns (res: Result<Container>, events: seq<MountEvent>)
    ensures var (plan, ev) := NewContainerPlan(r, config, mkdirErr, mountFails);
            && events == ev
            && (plan.Err? ==> res == Err(plan.error))
            && (plan.Ok? ==> && res.Ok? && fresh(res.value) && fresh(res.value.init)
                             && res.value.id == r.id && res.value.bundle == r.bundle
                             && res.value.processes == map[] && res.value.cgroup == None
                             && res.value.init != null
                             && var p := res.value.init;
                             && p.Valid() && p.process.None? && !p.lockHeld && p.effects == []
                             && p.id == r.id && p.pid == 0
                             && p.stdio == Stdio(r.stdin, r.stdout, r.stderr, r.terminal)
                             && p.remaps == plan.value.remaps && p.env == plan.value.env
                             && p.args == plan.value.args)
  {
    events := [];
    var spec: Spec;
    match config {
      case Unreadable(msg) =>
        return Err(Generic("failed to read spec: " + msg)), events;
      case Malformed(msg) =>
        return Err(Generic("failed to unmarshal spec: " + msg)), events;
      case Parsed(s) =>
        spec := s;
    }
    if spec.process.None? {
      return Err(InvalidArgument("no process specification")), events;
    }
    var rootfs, failure;
    rootfs, events, failure := AssembleRootfs(r.bundle, r.rootfs, mkdirErr, mountFails);
    if failure.Some? {
      return Err(failure.value), events;
    }
    if rootfs != "" {
    } else if |r.rootfs| > 0 {
      rootfs := r.rootfs[0].source;
    } else if spec.root.Some? && spec.root.value != "" {
      rootfs := spec.root.value;
    } else {
      return Err(InvalidArgument("no root provided")), events;
    }
    var rootRemap := Launch.RootRemap(rootfs);
    var args := spec.process.value.args;
    if |args| > 0 {
      args := args[0 := Join(rootfs, args[0])];
    }
    var stdio := Stdio(r.stdin, r.stdout, r.stderr, r.terminal);
    var p := new P.Process(r.id, 0, stdio, [rootRemap], spec.process.value.env, args);
    var c := new Container(r.id, r.bundle, p);
    res := Ok(c);
  }
}
