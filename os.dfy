/** The operating system as the lifecycle code sees it: redirected stdio files, the
    commands it launches, the signals it sends, and the bookkeeping of which files a
    process still holds open. Both process implementations (wasm/process.go and
    wasmtime/process.go) share these definitions; their Start methods open the
    redirected files in the same way. */
module Os {
  import opened Wrappers

  /** The standard streams a process can have redirected to files. */
  datatype Role = Stdin | Stdout | Stderr

  /** The redirection paths of a process; "" means the stream is not redirected. */
  datatype Stdio = Stdio(stdin: string, stdout: string, stderr: string, terminal: bool)

  /** An open file, named by the stream it serves and its path. */
  datatype Handle = Handle(role: Role, path: string)

  /** A command handed to the system: binary, arguments after the binary, and the
      opened files bound to its standard streams. */
  datatype Command = Command(path: string, args: seq<string>, io: seq<Handle>)

  /** One request a process makes of the operating system. */
  datatype Effect =
    | Open(h: Handle)
    | Close(h: Handle)
    | Exec(cmd: Command)
    | Signal(signal: nat)
    | KillProcess

  /** Process ids handed out by the system are positive. */
  type Pid = x: int | x > 0 witness 1

  /** A started operating-system process. */
  datatype OsProcess = OsProcess(pid: Pid)

  /** What the system answers when asked to start a command. */
  datatype Spawn = Spawned(pid: Pid) | SpawnFailed(msg: string)

  /** What waiting for a started process returns: an error or its wait status. */
  datatype WaitResult = WaitFailed(msg: string) | Waited(status: int)

  /** The event published on the exit channel when a process ends. */
  datatype Exit = Exit(pid: int, status: int)

  /** The lifecycle state reported by Status. */
  datatype State = Created | Running | Stopped

  /** The text Status reports for each state. */
  function StateName(s: State): string
  {
    match s
    case Created => "created"
    case Running => "running"
    case Stopped => "stopped"
  }

  /** The exit status the waiter records: -1 when waiting failed. */
  function ExitStatusOf(w: WaitResult): (status: int)
    ensures w.WaitFailed? ==> status == -1
    ensures w.Waited? ==> status == w.status
  {
    match w
    case WaitFailed(_) => -1
    case Waited(s) => s
  }

  // ---------------------------------------------------------------------------
  // Opening the redirected files

  function RoleName(r: Role): string
  {
    match r
    case Stdin => "stdin"
    case Stdout => "stdout"
    case Stderr => "stderr"
  }

  /** The files Start opens, in the order it opens them: stdin, stdout, stderr, each
      only when its path is set. */
  function Requested(s: Stdio): seq<Handle>
  {
    (if s.stdin != "" then [Handle(Stdin, s.stdin)] else [])
    + (if s.stdout != "" then [Handle(Stdout, s.stdout)] else [])
    + (if s.stderr != "" then [Handle(Stderr, s.stderr)] else [])
  }

  /** The files opened so far and, if an open failed, the error Start returns. */
  datatype Opened = Opened(handles: seq<Handle>, failure: Option<Error>)

  function OpenError(h: Handle): Error
  {
    IO("unable to open " + RoleName(h.role) + ": " + h.path)
  }

  /** Opens `reqs` one after the other and stops at the first file the system refuses
      to open (a file whose role is in `refused`). */
  function OpenInOrder(reqs: seq<Handle>, refused: set<Role>): (o: Opened)
    ensures |o.handles| <= |reqs| && o.handles == reqs[..|o.handles|]
    ensures forall h :: h in o.handles ==> h.role !in refused
    ensures o.failure.None? <==> |o.handles| == |reqs|
    ensures o.failure.Some? ==>
              reqs[|o.handles|].role in refused && o.failure.value == OpenError(reqs[|o.handles|])
    decreases |reqs|
  {
    if reqs == [] then Opened([], None)
    else if reqs[0].role in refused then Opened([], Some(OpenError(reqs[0])))
    else
      var rest := OpenInOrder(reqs[1..], refused);
      Opened([reqs[0]] + rest.handles, rest.failure)
  }

  function OpenRedirects(s: Stdio, refused: set<Role>): Opened
  {
    OpenInOrder(Requested(s), refused)
  }

  /** The handle a successful Start keeps as the process's stdin: the first opened
      file when it is the stdin redirection. */
  function StdinOf(files: seq<Handle>): Option<Handle>
  {
    if |files| > 0 && files[0].role == Stdin then Some(files[0]) else None
  }

  lemma StdinKept(s: Stdio, refused: set<Role>)
    ensures StdinOf(OpenRedirects(s, refused).handles)
            == if s.stdin != "" && Stdin !in refused then Some(Handle(Stdin, s.stdin)) else None
  {
    var reqs := Requested(s);
    var o := OpenRedirects(s, refused);
    if s.stdin != "" {
      assert reqs[0] == Handle(Stdin, s.stdin);
      if Stdin !in refused {
        assert o.handles[0] == reqs[0];
      } else {
        assert |o.handles| == 0;
      }
    } else {
      assert forall h :: h in reqs ==> h.role != Stdin;
      if |o.handles| > 0 {
        assert o.handles[0] in reqs;
      }
    }
  }

  /** The result of the part of Start done under the mutex: the refusal of a second
      start, then the system's answer to launching the command. */
  function LockedOutcome(started: bool, spawn: Spawn): (r: Outcome)
    ensures r.Pass? <==> !started && spawn.Spawned?
    ensures started ==> r == Fail(FailedPrecondition("already running"))
    ensures !started && spawn.SpawnFailed? ==> r == Fail(Generic(spawn.msg))
  {
    if started then Fail(FailedPrecondition("already running"))
    else if spawn.SpawnFailed? then Fail(Generic(spawn.msg))
    else Pass
  }

  /** The result of a Start call: an open failure comes first, then the refusal of a
      second start, then the system's answer to launching the command. */
  function StartResult(started: bool, s: Stdio, refused: set<Role>, spawn: Spawn): (r: Outcome)
    ensures OpenRedirects(s, refused).failure.Some? ==> r == Fail(OpenRedirects(s, refused).failure.value)
    ensures OpenRedirects(s, refused).failure.None? && started ==> r == Fail(FailedPrecondition("already running"))
    ensures r.Pass? <==> OpenRedirects(s, refused).failure.None? && !started && spawn.Spawned?
    ensures OpenRedirects(s, refused).failure.None? && !started && spawn.SpawnFailed?
            ==> r == Fail(Generic(spawn.msg))
  {
    var o := OpenRedirects(s, refused);
    if o.failure.Some? then Fail(o.failure.value) else LockedOutcome(started, spawn)
  }

  /** Start succeeds exactly when the process was never started, every requested file
      opens, and the system launches the command; once started, every Start fails. */
  lemma StartSucceedsIff(started: bool, s: Stdio, refused: set<Role>, spawn: Spawn)
    ensures StartResult(started, s, refused, spawn).Pass?
            <==> !started && spawn.Spawned? && forall h :: h in Requested(s) ==> h.role !in refused
    ensures started ==> StartResult(started, s, refused, spawn).Fail?
  {
    var reqs := Requested(s);
    var o := OpenRedirects(s, refused);
    if o.failure.Some? {
      assert reqs[|o.handles|] in reqs;
    }
  }

  // ---------------------------------------------------------------------------
  // Which files a process still holds open

  function Opens(hs: seq<Handle>): (log: seq<Effect>)
    ensures |log| == |hs|
    ensures forall i :: 0 <= i < |hs| ==> log[i] == Open(hs[i])
  {
    if hs == [] then [] else [Open(hs[0])] + Opens(hs[1..])
  }

  function Closes(hs: seq<Handle>): (log: seq<Effect>)
    ensures |log| == |hs|
    ensures forall i :: 0 <= i < |hs| ==> log[i] == Close(hs[i])
  {
    if hs == [] then [] else [Close(hs[0])] + Closes(hs[1..])
  }

  function Reverse<T>(s: seq<T>): (r: seq<T>)
    ensures |r| == |s|
    ensures forall i :: 0 <= i < |s| ==> r[i] == s[|s| - 1 - i]
  {
    if s == [] then [] else Reverse(s[1..]) + [s[0]]
  }

  lemma {:induction false} ReversePermutes<T>(s: seq<T>)
    ensures multiset(Reverse(s)) == multiset(s)
  {
    if s != [] {
      ReversePermutes(s[1..]);
      assert s == [s[0]] + s[1..];
    }
  }

  function Step(open: multiset<Handle>, e: Effect): multiset<Handle>
  {
    match e
    case Open(h) => open + multiset{h}
    case Close(h) => open - multiset{h}
    case _ => open
  }

  /** The files open after `log`, starting from those in `open`. */
  function Apply(open: multiset<Handle>, log: seq<Effect>): multiset<Handle>
    decreases |log|
  {
    if log == [] then open else Apply(Step(open, log[0]), log[1..])
  }

  /** The files still open after a process's whole effect log. */
  function OpenNow(log: seq<Effect>): multiset<Handle>
  {
    Apply(multiset{}, log)
  }

  /** A log that neither opens nor closes a file. */
  predicate Inert(log: seq<Effect>)
  {
    forall i :: 0 <= i < |log| ==> !log[i].Open? && !log[i].Close?
  }

  lemma {:induction false} ApplyAppend(m: multiset<Handle>, a: seq<Effect>, b: seq<Effect>)
    ensures Apply(m, a + b) == Apply(Apply(m, a), b)
    decreases |a|
  {
    if a == [] {
      assert a + b == b;
    } else {
      assert (a + b)[1..] == a[1..] + b;
      ApplyAppend(Step(m, a[0]), a[1..], b);
    }
  }

  lemma {:induction false} ApplyInert(m: multiset<Handle>, log: seq<Effect>)
    requires Inert(log)
    ensures Apply(m, log) == m
    decreases |log|
  {
    if log != [] {
      assert Inert(log[1..]) by {
        forall i | 0 <= i < |log[1..]| ensures !log[1..][i].Open? && !log[1..][i].Close? {
          assert log[1..][i] == log[i + 1];
        }
      }
      ApplyInert(m, log[1..]);
    }
  }

  lemma {:induction false} ApplyOpens(m: multiset<Handle>, hs: seq<Handle>)
    ensures Apply(m, Opens(hs)) == m + multiset(hs)
    decreases |hs|
  {
    if hs != [] {
      assert Opens(hs)[1..] == Opens(hs[1..]);
      ApplyOpens(m + multiset{hs[0]}, hs[1..]);
      assert hs == [hs[0]] + hs[1..];
    }
  }

  lemma DiffDiff(m: multiset<Handle>, a: multiset<Handle>, b: multiset<Handle>)
    ensures (m - a) - b == m - (a + b)
  {
    assert forall x :: ((m - a) - b)[x] == (m - (a + b))[x];
  }

  lemma {:induction false} ApplyCloses(m: multiset<Handle>, hs: seq<Handle>)
    ensures Apply(m, Closes(hs)) == m - multiset(hs)
    decreases |hs|
  {
    if hs == [] {
      assert Closes(hs) == [];
    } else {
      var h, rest := hs[0], hs[1..];
      var log := Closes(hs);
      assert log[0] == Close(h) && log[1..] == Closes(rest);
      assert multiset(hs) == multiset{h} + multiset(rest) by {
        assert hs == [h] + rest;
      }
      calc {
        Apply(m, log);
        Apply(Step(m, log[0]), log[1..]);
        Apply(m - multiset{h}, Closes(rest));
        { ApplyCloses(m - multiset{h}, rest); }
        (m - multiset{h}) - multiset(rest);
        { DiffDiff(m, multiset{h}, multiset(rest)); }
        m - multiset(hs);
      }
    }
  }

  /** Closes each of `closers` in order, as the exit waiter's loop does. */
  method CloseEach(log: seq<Effect>, closers: seq<Handle>) returns (after: seq<Effect>)
    ensures after == log + Closes(closers)
  {
    after := log;
    var i := 0;
    while i < |closers|
      invariant 0 <= i <= |closers|
      invariant after == log + Closes(closers[..i])
    {
      assert closers[..i + 1] == closers[..i] + [closers[i]];
      assert Closes(closers[..i + 1]) == Closes(closers[..i]) + [Close(closers[i])];
      after := after + [Close(closers[i])];
      i := i + 1;
    }
    assert closers[..i] == closers;
  }

  /** The waiter closes every file Start opened, so none is left open. */
  lemma WaiterClosesAll(log: seq<Effect>, closers: seq<Handle>)
    requires OpenNow(log) <= multiset(closers)
    ensures OpenNow(log + Closes(closers)) == multiset{}
  {
    ApplyAppend(multiset{}, log, Closes(closers));
    ApplyCloses(OpenNow(log), closers);
  }

  // ---------------------------------------------------------------------------
  // Closing the files on the way out of a failed Start

  /** The closes the deferred functions in Start are meant to perform: when Start
      fails they close every file it opened, the last opened first; when it succeeds
      the files stay open for the exit waiter. */
  function Cleanup(files: seq<Handle>, failed: bool): (log: seq<Effect>)
    ensures |log| == if failed then |files| else 0
    ensures failed ==> forall i :: 0 <= i < |files| ==> log[i] == Close(files[|files| - 1 - i])
  {
    if failed then Closes(Reverse(files)) else []
  }

  /** The closes those deferred functions perform as the source is written: each one
      tests the `err` that the `:=` inside its own `if` block declared, which is nil
      once that file has opened and is never assigned again, so none of them closes
      anything, whether Start fails or not. */
  function CleanupAsWritten(files: seq<Handle>, failed: bool): (log: seq<Effect>)
    ensures log == []
  {
    []
  }

  /** With stdin and stdout redirected, both files open and the system refusing to
      launch the command, the source's Start fails while both files stay open. */
  lemma CleanupAsWrittenLeaks()
    ensures var s := Stdio("/in", "/out", "", false);
            var o := OpenRedirects(s, {});
            var spawn := SpawnFailed("exec format error");
            var c := Command("wasmer", [], o.handles);
            && o.failure.None?
            && o.handles == [Handle(Stdin, "/in"), Handle(Stdout, "/out")]
            && StartResult(false, s, {}, spawn) == Fail(Generic("exec format error"))
            && OpenNow(Opens(o.handles) + [Exec(c)] + CleanupAsWritten(o.handles, true))
               == multiset{Handle(Stdin, "/in"), Handle(Stdout, "/out")}
  {
    var s := Stdio("/in", "/out", "", false);
    var reqs := Requested(s);
    assert reqs == [Handle(Stdin, "/in"), Handle(Stdout, "/out")];
    var o := OpenRedirects(s, {});
    assert o.handles == [Handle(Stdin, "/in"), Handle(Stdout, "/out")];
    var c := Command("wasmer", [], o.handles);
    assert Inert([Exec(c)]);
    StartKeepsOpenFilesAsWritten([], o.handles, [Exec(c)], true);
    assert [] + Opens(o.handles) + [Exec(c)] == Opens(o.handles) + [Exec(c)];
  }

  /** The intended cleanup: a failed Start leaves the same files open as before it
      was called, and a successful one closes nothing. */
  lemma CleanupRestoresOpenFiles(m: multiset<Handle>, hs: seq<Handle>)
    ensures Apply(m, Opens(hs) + Cleanup(hs, true)) == m
    ensures Cleanup(hs, false) == []
  {
    ApplyAppend(m, Opens(hs), Closes(Reverse(hs)));
    ApplyOpens(m, hs);
    ApplyCloses(m + multiset(hs), Reverse(hs));
    ReversePermutes(hs);
  }

  /** The open files after a Start call with the intended cleanup: the files it opened
      are added, whatever the call asks of the system in between, and all of them are
      removed again when it fails. */
  lemma StartKeepsOpenFiles(log: seq<Effect>, hs: seq<Handle>, mid: seq<Effect>, failed: bool)
    requires Inert(mid)
    ensures OpenNow(log + Opens(hs) + mid + Cleanup(hs, failed))
            == if failed then OpenNow(log) else OpenNow(log) + multiset(hs)
  {
    var m := OpenNow(log);
    ApplyAppend(multiset{}, log, Opens(hs));
    ApplyOpens(m, hs);
    assert OpenNow(log + Opens(hs)) == m + multiset(hs);
    ApplyAppend(multiset{}, log + Opens(hs), mid);
    ApplyInert(m + multiset(hs), mid);
    assert OpenNow(log + Opens(hs) + mid) == m + multiset(hs);
    ApplyAppend(multiset{}, log + Opens(hs) + mid, Cleanup(hs, failed));
    if failed {
      ApplyCloses(m + multiset(hs), Reverse(hs));
      ReversePermutes(hs);
    } else {
      assert Cleanup(hs, failed) == [];
    }
  }

  /** With the intended cleanup a whole lifecycle leaves no file open: from a log with
      nothing open, a Start that fails closes what it opened, and one that succeeds
      leaves its files for the exit waiter, which closes them all. */
  lemma LifecycleClosesAll(log: seq<Effect>, hs: seq<Handle>, mid: seq<Effect>, failed: bool)
    requires OpenNow(log) == multiset{} && Inert(mid)
    ensures var started := log + Opens(hs) + mid + Cleanup(hs, failed);
            OpenNow(started + (if failed then [] else Closes(hs))) == multiset{}
  {
    var started := log + Opens(hs) + mid + Cleanup(hs, failed);
    StartKeepsOpenFiles(log, hs, mid, failed);
    if failed {
      assert started + [] == started;
    } else {
      WaiterClosesAll(started, hs);
    }
  }

  /** The open files after a Start call as the source is written: the files it opened
      stay open whether it fails or not. */
  lemma StartKeepsOpenFilesAsWritten(log: seq<Effect>, hs: seq<Handle>, mid: seq<Effect>, failed: bool)
    requires Inert(mid)
    ensures OpenNow(log + Opens(hs) + mid + CleanupAsWritten(hs, failed)) == OpenNow(log) + multiset(hs)
  {
    var m := OpenNow(log);
    ApplyAppend(multiset{}, log, Opens(hs));
    ApplyOpens(m, hs);
    ApplyAppend(multiset{}, log + Opens(hs), mid);
    ApplyInert(m + multiset(hs), mid);
    assert log + Opens(hs) + mid + CleanupAsWritten(hs, failed) == log + Opens(hs) + mid;
  }

  /** A whole lifecycle as the source is written: from a log with nothing open, a Start
      that succeeds hands its files to the exit waiter, which closes them all, but one
      that fails leaves every file it opened open. */
  lemma LifecycleAsWritten(log: seq<Effect>, hs: seq<Handle>, mid: seq<Effect>, failed: bool)
    requires OpenNow(log) == multiset{} && Inert(mid)
    ensures var started := log + Opens(hs) + mid + CleanupAsWritten(hs, failed);
            OpenNow(started + (if failed then [] else Closes(hs)))
            == if failed then multiset(hs) else multiset{}
  {
    var started := log + Opens(hs) + mid + CleanupAsWritten(hs, failed);
    StartKeepsOpenFilesAsWritten(log, hs, mid, failed);
    if failed {
      assert started + [] == started;
    } else {
      WaiterClosesAll(started, hs);
    }
  }
}
