/** The process of wasmtime/process.go: a single-use object that launches the
    `wasmtime` engine once, is observed to exit once, and publishes one exit event.
    Its mutex is modelled only where the source leaves it locked. */
module WasmtimeProcess {
  import opened Wrappers
  import opened Os
  import Launch

  /** The engine binary this process runs. */
  const Engine := "wasmtime"

  /** The result of Kill: an error when nothing was started, otherwise whatever the
      system answered to the kill request. */
  function KillResult(started: bool, killErr: Option<string>): (r: Outcome)
    ensures r.Pass? <==> started && killErr.None?
    ensures !started ==> r == Fail(Generic("not started"))
    ensures started && killErr.Some? ==> r == Fail(Generic(killErr.value))
  {
    if !started then Fail(Generic("not started"))
    else if killErr.Some? then Fail(Generic(killErr.value))
    else Pass
  }

  class Process {
    const id: string
    /** The `pid` field: no method assigns it, so it keeps what its creator put there. */
    const pid: int
    const stdio: Stdio
    const remaps: seq<string>
    const env: seq<string>
    const args: seq<string>

    var exitStatus: int
    /** Whether the exit time has been recorded. */
    var exitTimeSet: bool
    /** The stdin file kept by a successful Start. */
    var stdin: Option<Handle>
    /** The operating-system process recorded by a successful Start. */
    var process: Option<OsProcess>
    /** Whether the one-shot `exited` channel has been closed. */
    var exited: bool
    /** The exit events this process has sent on the shared exit channel. */
    var exits: seq<Exit>
    /** The files a successful Start opened; the exit waiter closes them. */
    var closers: seq<Handle>
    /** Whether the exit waiter started by Start has yet to observe the exit. */
    var waiting: bool
    /** Whether a refused second Start has left the mutex locked. */
    var lockHeld: bool
    /** What this process has asked of the operating system, in order. */
    var effects: seq<Effect>

    /** Created, running (the waiter pending) or stopped (the waiter done), one exit
        event once stopped, files to close only once started, and the mutex left
        locked only by a refused second start. */
    ghost predicate Valid()
      reads this
    {
      && ((waiting || exited) <==> process.Some?)
      && !(waiting && exited)
      && |exits| == (if exited then 1 else 0)
      && (process.None? ==> closers == [])
      && stdin == StdinOf(closers)
      && (lockHeld ==> process.Some?)
    }

    constructor (id: string, pid: int, stdio: Stdio, remaps: seq<string>, env: seq<string>, args: seq<string>)
      ensures Valid()
      ensures this.id == id && this.pid == pid && this.stdio == stdio
      ensures this.remaps == remaps && this.env == env && this.args == args
      ensures exitStatus == 0 && !exitTimeSet && stdin == None && process == None
      ensures !exited && exits == [] && closers == [] && !waiting && !lockHeld && effects == []
    {
      this.id := id;
      this.pid := pid;
      this.stdio := stdio;
      this.remaps := remaps;
      this.env := env;
      this.args := args;
      exitStatus := 0;
      exitTimeSet := false;
      stdin := None;
      process := None;
      exited := false;
      exits := [];
      closers := [];
      waiting := false;
      lockHeld := false;
      effects := [];
    }

    /** The stored `pid` field: fixed when the process is made and independent of
        whatever OS process Start records. */
    function Pid(): (r: int)
      ensures r == pid
    {
      pid
    }

    /** Stopped once `exited` is closed, otherwise running exactly when an OS process
        is recorded; reading a running state takes the mutex. */
    function Status(): (s: State)
      reads this
      requires Valid()
      requires exited || !lockHeld
      ensures s == Stopped <==> exited
      ensures s == Running <==> waiting
      ensures s == Created <==> process.None?
      ensures StateName(s) == if exited then "stopped" else if process.Some? then "running" else "created"
    {
      if exited then Stopped else if process.Some? then Running else Created
    }

    function Resize(width: nat, height: nat): (r: Outcome)
      ensures r.Pass?
    {
      Pass
    }

    function Delete(): (r: Outcome)
      ensures r.Pass?
    {
      Pass
    }

    /** Launches `wasmtime` with the remap, environment and program arguments and the
        opened stdio files. A refused second start leaves the mutex locked. */
    method Start(refused: set<Role>, spawn: Spawn) returns (r: Outcome)
      requires Valid()
      // with the mutex leaked, only a Start whose files fail to open returns
      requires lockHeld ==> OpenRedirects(stdio, refused).failure.Some?
      modifies this
      ensures Valid()
      ensures r == StartResult(old(process).Some?, stdio, refused, spawn)
      ensures var o := OpenRedirects(stdio, refused);
              var launched := o.failure.None? && old(process).None?;
              effects == old(effects) + Opens(o.handles)
                         + (if launched then [Exec(Command(Engine, Launch.EngineArgv(remaps, env, args), o.handles))] else [])
                         + CleanupAsWritten(o.handles, r.Fail?)
      ensures r.Pass? ==> && process == Some(OsProcess(spawn.pid))
                          && closers == OpenRedirects(stdio, refused).handles
                          && stdin == StdinOf(closers)
                          && waiting && !lockHeld && Status() == Running
      ensures r.Fail? ==> && process == old(process) && stdin == old(stdin)
                          && closers == old(closers) && waiting == old(waiting)
      ensures lockHeld <==> old(lockHeld) || (OpenRedirects(stdio, refused).failure.None? && old(process).Some?)
      ensures exited == old(exited) && exits == old(exits)
      ensures exitStatus == old(exitStatus) && exitTimeSet == old(exitTimeSet)
    {
      var argv := Launch.BuildEngineArgv(remaps, env, args);
      var o := OpenRedirects(stdio, refused);
      effects := effects + Opens(o.handles);
      if o.failure.Some? {
        r := Fail(o.failure.value);
      } else {
        r := StartLocked(Command(Engine, argv, o.handles), o.handles, spawn);
      }
      // the deferred closes run as Start returns; as written, none of them closes anything
      effects := effects + CleanupAsWritten(o.handles, r.Fail?);
    }

    /** The part of Start done under the mutex: refuses a second start and returns
        without unlocking, otherwise launches `cmd` and, when the system starts it,
        records the OS process, the stdin file and the files for the exit waiter. */
    method StartLocked(cmd: Command, files: seq<Handle>, spawn: Spawn) returns (r: Outcome)
      requires Valid() && !lockHeld
      modifies this
      ensures Valid()
      ensures r == LockedOutcome(old(process).Some?, spawn)
      ensures lockHeld <==> old(process).Some?
      ensures effects == old(effects) + (if old(process).None? then [Exec(cmd)] else [])
      ensures r.Pass? ==> && process == Some(OsProcess(spawn.pid)) && closers == files
                          && stdin == StdinOf(files) && waiting
      ensures r.Fail? ==> && process == old(process) && stdin == old(stdin)
                          && closers == old(closers) && waiting == old(waiting)
      ensures exited == old(exited) && exits == old(exits)
      ensures exitStatus == old(exitStatus) && exitTimeSet == old(exitTimeSet)
    {
      if process.Some? {
        lockHeld := true;
        return Fail(FailedPrecondition("already running"));
      }
      effects := effects + [Exec(cmd)];
      match spawn {
        case SpawnFailed(msg) =>
          r := Fail(Generic(msg));
        case Spawned(osPid) =>
          process, stdin, closers, waiting := Some(OsProcess(osPid)), StdinOf(files), files, true;
          r := Pass;
      }
    }

    /** The exit waiter: records the exit status (-1 when waiting failed), closes
        `exited`, publishes one exit event carrying the `pid` field, then closes every
        file Start opened. */
    method ObserveExit(wait: WaitResult)
      requires Valid() && waiting && !lockHeld
      modifies this
      ensures Valid()
      ensures exitStatus == ExitStatusOf(wait) && exitTimeSet
      ensures exited && !waiting && Status() == Stopped
      ensures exits == old(exits) + [Exit(pid, ExitStatusOf(wait))]
      ensures effects == old(effects) + Closes(closers)
      ensures process == old(process) && stdin == old(stdin) && closers == old(closers)
      ensures lockHeld == old(lockHeld)
    {
      var log := CloseEach(effects, closers);
      exitTimeSet := true;
      exitStatus := ExitStatusOf(wait);
      waiting := false;
      exited := true;
      exits := exits + [Exit(pid, exitStatus)];
      effects := log;
    }

    /** Kills the recorded process, whatever signal was asked for. */
    method Kill(signal: nat, all: bool, killErr: Option<string>) returns (r: Outcome)
      requires Valid() && !lockHeld
      modifies this`effects
      ensures Valid()
      ensures r == KillResult(process.Some?, killErr)
      ensures effects == old(effects) + (if process.Some? then [KillProcess] else [])
    {
      if process.None? {
        return Fail(Generic("not started"));
      }
      effects := effects + [KillProcess];
      if killErr.Some? {
        return Fail(Generic(killErr.value));
      }
      return Pass;
    }

    /** Overwrites the exit status and nothing else. */
    method SetExited(status: int)
      requires Valid() && !lockHeld
      modifies this`exitStatus
      ensures Valid()
      ensures exitStatus == status
      ensures Status() == old(Status())
    {
      exitStatus := status;
    }
  }
}
