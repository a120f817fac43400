/** The process of wasm/process.go: a single-use object that either runs its first
    argument directly (sandbox mode) or runs it inside the `wasmer` engine with the
    root filesystem remapped to `/` (guest mode). It is launched once, observed to
    exit once, and publishes one exit event carrying its operating-system pid. */
module WasmProcess {
  import opened Wrappers
  import opened Os
  import Launch

  /** The engine binary guest mode runs. */
  const WasmRuntime := "wasmer"

  /** The text Kill compares a signal error against, as the source writes it. */
  const AlreadyFinishedAsWritten := "process already finished"

  /** The text of the error the operating system reports when a signal is sent to a
      process that has already been waited for (os.ErrProcessDone). */
  const AlreadyFinished := "os: process already finished"

  /** The command Start launches, before the opened files are bound to it: in
      sandbox mode the first argument with the remaining ones; in guest mode the
      engine with the root remap, the environment and the program arguments. */
  function LaunchCommand(isSandbox: bool, rootfs: string, env: seq<string>, args: seq<string>): (c: Command)
    requires isSandbox ==> |args| > 0
    ensures isSandbox ==> [c.path] + c.args == args
    ensures !isSandbox ==> (c.path == WasmRuntime
                            && c.args == ["--mapdir=/:" + rootfs] + Launch.Flags(Launch.EnvFlag, env) + args)
    ensures c.io == []
  {
    Launch.GuestArgvExact(rootfs, env, args);
    if isSandbox then
      var (path, rest) := Launch.SandboxLaunch(args);
      Command(path, rest, [])
    else
      Command(WasmRuntime, Launch.GuestArgv(rootfs, env, args), [])
  }

  /** Builds the command the way Start does, before any file is bound to it. */
  method BuildCommand(isSandbox: bool, rootfs: string, env: seq<string>, args: seq<string>) returns (c: Command)
    requires isSandbox ==> |args| > 0
    ensures c == LaunchCommand(isSandbox, rootfs, env, args)
  {
    if isSandbox {
      var (path, rest) := Launch.SandboxLaunch(args);
      c := Command(path, rest, []);
    } else {
      var argv := Launch.BuildEngineArgv([Launch.RootRemap(rootfs)], env, args);
      c := Command(WasmRuntime, argv, []);
    }
  }

  lemma SandboxExample()
    ensures LaunchCommand(true, "/r", [], ["/bin/echo", "hi"]) == Command("/bin/echo", ["hi"], [])
  {
    var c := LaunchCommand(true, "/r", [], ["/bin/echo", "hi"]);
    assert [c.path] + c.args == ["/bin/echo", "hi"];
    assert c.path == ([c.path] + c.args)[0];
    assert c.args == ([c.path] + c.args)[1..];
  }

  /** Whether Kill treats a signal error as success. */
  function Tolerated(msg: string): bool
  {
    msg == AlreadyFinished
  }

  /** As written: the comparison uses a text the operating system never produces. */
  function ToleratedAsWritten(msg: string): bool
  {
    msg == AlreadyFinishedAsWritten
  }

  /** The result of Kill: an error before Start, success once the process has exited
      (no signal is sent), otherwise the system's answer to the signal, where an
      "already finished" answer counts as success. */
  function KillResult(started: bool, exited: bool, signalErr: Option<string>): (r: Outcome)
    ensures !started ==> r == Fail(Generic("process not started"))
    ensures started && exited ==> r == Pass
    ensures started ==> (r.Fail? <==> !exited && signalErr.Some? && !Tolerated(signalErr.value))
    ensures r.Fail? && started ==> r == Fail(Generic(signalErr.value))
  {
    if !started then Fail(Generic("process not started"))
    else if exited then Pass
    else if signalErr.Some? && !Tolerated(signalErr.value) then Fail(Generic(signalErr.value))
    else Pass
  }

  /** Kill as written: the system's "already finished" answer to a signal sent in the
      window between the process being reaped and `exited` being closed is returned
      as an error. */
  function KillResultAsWritten(started: bool, exited: bool, signalErr: Option<string>): (r: Outcome)
    ensures !started ==> r == Fail(Generic("process not started"))
    ensures started && exited ==> r == Pass
    ensures started ==> (r.Fail? <==> !exited && signalErr.Some? && !ToleratedAsWritten(signalErr.value))
    ensures r.Fail? && started ==> r == Fail(Generic(signalErr.value))
  {
    if !started then Fail(Generic("process not started"))
    else if exited then Pass
    else if signalErr.Some? && !ToleratedAsWritten(signalErr.value) then Fail(Generic(signalErr.value))
    else Pass
  }

  /** A kill that races with the exit of the process surfaces an error as written. */
  lemma KillRaceAsWrittenFails()
    ensures KillResultAsWritten(true, false, Some(AlreadyFinished)) == Fail(Generic(AlreadyFinished))
    ensures KillResult(true, false, Some(AlreadyFinished)) == Pass
  {
    assert AlreadyFinished != AlreadyFinishedAsWritten by {
      assert AlreadyFinished[0] != AlreadyFinishedAsWritten[0];
    }
  }

  /** A kill never fails because the process has already ended, whether the exit was
      observed before the signal or reported by the signal itself. */
  lemma KillToleratesExit(exited: bool, signalErr: Option<string>)
    requires exited || signalErr == Some(AlreadyFinished)
    ensures KillResult(true, exited, signalErr) == Pass
  {
  }

  class Process {
    const id: string
    const stdio: Stdio
    const rootfs: string
    const env: seq<string>
    const args: seq<string>
    const isSandbox: bool

    var exitStatus: int
    /** Whether the exit time has been recorded. */
    var exitTimeSet: bool
    /** The stdin file kept by a successful Start. */
    var stdin: Option<Handle>
    /** The operating-system process recorded by a successful Start. */
    var process: Option<OsProcess>
    /** Whether the one-shot `exited` channel has been closed. */
    var exited: bool
    /** The exit events this process has sent on the shared exit channel. */
    var exits: seq<Exit>
    /** The files a successful Start opened; the exit waiter closes them. */
    var closers: seq<Handle>
    /** Whether the exit waiter started by Start has yet to observe the exit. */
    var waiting: bool
    /** What this process has asked of the operating system, in order. */
    var effects: seq<Effect>

    /** Created, running (the waiter pending) or stopped (the waiter done), one exit
        event once stopped, carrying the pid, and files to close only once started. */
    ghost predicate Valid()
      reads this
    {
      && ((waiting || exited) <==> process.Some?)
      && !(waiting && exited)
      && |exits| == (if exited then 1 else 0)
      && (exited ==> exits[0].pid == process.value.pid)
      && (process.None? ==> closers == [])
      && stdin == StdinOf(closers)
    }

    constructor (id: string, stdio: Stdio, rootfs: string, env: seq<string>, args: seq<string>, isSandbox: bool)
      ensures Valid()
      ensures this.id == id && this.stdio == stdio && this.rootfs == rootfs
      ensures this.env == env && this.args == args && this.isSandbox == isSandbox
      ensures exitStatus == 0 && !exitTimeSet && stdin == None && process == None
      ensures !exited && exits == [] && closers == [] && !waiting && effects == []
    {
      this.id := id;
      this.stdio := stdio;
      this.rootfs := rootfs;
      this.env := env;
      this.args := args;
      this.isSandbox := isSandbox;
      exitStatus := 0;
      exitTimeSet := false;
      stdin := None;
      process := None;
      exited := false;
      exits := [];
      closers := [];
      waiting := false;
      effects := [];
    }

    /** The pid of the recorded operating-system process, 0 before Start. */
    function Pid(): (pid: int)
      reads this
      ensures pid >= 0
      ensures pid != 0 <==> process.Some?
      ensures process.Some? ==> pid == process.value.pid
    {
      if process.Some? then process.value.pid else 0
    }

    /** Stopped once `exited` is closed, otherwise running exactly when an OS process
        is recorded. */
    function Status(): (s: State)
      reads this
      requires Valid()
      ensures s == Stopped <==> exited
      ensures s == Running <==> waiting
      ensures s == Created <==> process.None?
      ensures StateName(s) == if exited then "stopped" else if process.Some? then "running" else "created"
    {
      if exited then Stopped else if process.Some? then Running else Created
    }

    function Resize(width: nat, height: nat): (r: Outcome)
      ensures r.Pass?
    {
      Pass
    }

    function Delete(): (r: Outcome)
      ensures r.Pass?
    {
      Pass
    }

    /** Opens the redirected stdio files and launches the sandbox or guest command
        with them; refuses to start twice. */
    method Start(refused: set<Role>, spawn: Spawn) returns (r: Outcome)
      requires Valid()
      requires isSandbox ==> |args| > 0
      modifies this
      ensures Valid()
      ensures r == StartResult(old(process).Some?, stdio, refused, spawn)
      ensures var o := OpenRedirects(stdio, refused);
              var launched := o.failure.None? && old(process).None?;
              effects == old(effects) + Opens(o.handles)
                         + (if launched then [Exec(LaunchCommand(isSandbox, rootfs, env, args).(io := o.handles))] else [])
                         + CleanupAsWritten(o.handles, r.Fail?)
      ensures r.Pass? ==> && process == Some(OsProcess(spawn.pid))
                          && closers == OpenRedirects(stdio, refused).handles
                          && stdin == StdinOf(closers)
                          && waiting && Status() == Running
      ensures r.Fail? ==> && process == old(process) && stdin == old(stdin)
                          && closers == old(closers) && waiting == old(waiting)
      ensures exited == old(exited) && exits == old(exits)
      ensures exitStatus == old(exitStatus) && exitTimeSet == old(exitTimeSet)
    {
      var cmd := BuildCommand(isSandbox, rootfs, env, args);
      var o := OpenRedirects(stdio, refused);
      effects := effects + Opens(o.handles);
      if o.failure.Some? {
        r := Fail(o.failure.value);
      } else {
        r := StartLocked(cmd.(io := o.handles), o.handles, spawn);
      }
      // the deferred closes run as Start returns; as written, none of them closes anything
      effects := effects + CleanupAsWritten(o.handles, r.Fail?);
    }

    /** The part of Start done under the mutex: refuses a second start, otherwise
        launches `cmd` and, when the system starts it, records the OS process, the
        stdin file and the files for the exit waiter to close. */
    method StartLocked(cmd: Command, files: seq<Handle>, spawn: Spawn) returns (r: Outcome)
      requires Valid()
      modifies this
      ensures Valid()
      ensures r == LockedOutcome(old(process).Some?, spawn)
      ensures effects == old(effects) + (if old(process).None? then [Exec(cmd)] else [])
      ensures r.Pass? ==> && process == Some(OsProcess(spawn.pid)) && closers == files
                          && stdin == StdinOf(files) && waiting && Pid() == spawn.pid
      ensures r.Fail? ==> && process == old(process) && stdin == old(stdin)
                          && closers == old(closers) && waiting == old(waiting)
      ensures exited == old(exited) && exits == old(exits)
      ensures exitStatus == old(exitStatus) && exitTimeSet == old(exitTimeSet)
    {
      if process.Some? {
        return Fail(FailedPrecondition("already running"));
      }
      effects := effects + [Exec(cmd)];
      match spawn {
        case SpawnFailed(msg) =>
          r := Fail(Generic(msg));
        case Spawned(osPid) =>
          process, stdin, closers, waiting := Some(OsProcess(osPid)), StdinOf(files), files, true;
          r := Pass;
      }
    }

    /** The exit waiter: records the exit status (-1 when waiting failed), closes
        `exited`, publishes one exit event carrying the pid, then closes every file
        Start opened. */
    method ObserveExit(wait: WaitResult)
      requires Valid() && waiting
      modifies this
      ensures Valid()
      ensures exitStatus == ExitStatusOf(wait) && exitTimeSet
      ensures exited && !waiting && Status() == Stopped
      ensures exits == old(exits) + [Exit(Pid(), ExitStatusOf(wait))]
      ensures effects == old(effects) + Closes(closers)
      ensures process == old(process) && stdin == old(stdin) && closers == old(closers)
    {
      var log := CloseEach(effects, closers);
      exitTimeSet := true;
      exitStatus := ExitStatusOf(wait);
      waiting := false;
      exited := true;
      exits := exits + [Exit(Pid(), exitStatus)];
      effects := log;
    }

    /** Sends the signal unless the process was never started or has exited; `all`
        is not consulted. */
    method Kill(signal: nat, all: bool, signalErr: Option<string>) returns (r: Outcome)
      requires Valid()
      modifies this`effects
      ensures Valid()
      ensures r == KillResultAsWritten(process.Some?, exited, signalErr)
      ensures effects == old(effects) + (if process.Some? && !exited then [Signal(signal)] else [])
    {
      if process.None? {
        return Fail(Generic("process not started"));
      }
      if exited {
        return Pass;
      }
      effects := effects + [Signal(signal)];
      if signalErr.Some? && !ToleratedAsWritten(signalErr.value) {
        return Fail(Generic(signalErr.value));
      }
      return Pass;
    }

    /** Overwrites the exit status and nothing else. */
    method SetExited(status: int)
      requires Valid()
      modifies this`exitStatus
      ensures Valid()
      ensures exitStatus == status
      ensures Status() == old(Status())
    {
      exitStatus := status;
    }
  }
}
