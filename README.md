# containerd WASM shim: process and container bookkeeping

This project models the lifecycle bookkeeping of the containerd WASM shim in Dafny. It has two process
implementations and one container:

- `wasm/process.go` runs a guest under the `wasmer` engine, or runs a program directly in sandbox mode.
- `wasmtime/process.go` runs a guest under `wasmtime`.
- `wasmtime/container.go` holds one init process, a registry of exec'd processes keyed by exec id, and a
  lazily cached cgroup. Its `NewContainer` prepares the root filesystem and the init process.

Each operation is taken to be atomic: the mutexes, the exit goroutine and the exit channel are abstracted
away. The goroutine that waits for the OS process becomes an explicit `ObserveExit` step. The exit channel
becomes a per-process sequence `exits` of published `Exit` events. Everything the process asks of the
operating system is appended to an effect log, `effects`: opening and closing stdio files, exec, signal
and kill.

Modules:

- `Wrappers`: `Option`, `Result`, `Outcome` and the error kinds (`wrappers.dfy`).
- `Os`: stdio redirection, the effect log, the open-file accounting over that log, and the decision that
  Start takes (`os.dfy`).
- `Launch`: the engine argument vectors (`launch.dfy`).
- `WasmProcess`: the process of `wasm/process.go` (`wasm_process.dfy`).
- `WasmtimeProcess`: the process of `wasmtime/process.go` (`wasmtime_process.dfy`).
- `WasmtimeContainer`: the container and `NewContainer` of `wasmtime/container.go`
  (`wasmtime_container.dfy`).

Inputs that come from the operating system are parameters of the operations:

- which stdio files the system refuses to open (`refused`);
- whether the spawn succeeds, and the pid it gives (`spawn`);
- the wait result (`wait`);
- the signal or kill error text;
- the error of the stdin close;
- the outcome of the cgroup lookup (`loaded`);
- the text of a failing mkdir (`mkdirErr`);
- the indices of the mounts the system refuses (`mountFails`);
- the outcome of reading and decoding `config.json` (`Config`).

The `wasmtime` process leaves its mutex locked when Start finds an OS process already recorded. The model
records this in a `lockHeld` flag. Every later operation that would reach that mutex requires the flag to
be clear, because such a call would block forever. A later Start whose stdio files fail to open returns
the open error before it reaches the mutex, so Start admits the leaked lock on that path.

## Model

| member | source | states |
|---|---|---|
| Os.ExitStatusOf | wasm/process.go:186-195 | the exit status is -1 when waiting for the process fails, otherwise the wait status |
| Os.OpenInOrder | wasm/process.go:124-167 | stdio files are opened in the order stdin, stdout, stderr; the opened ones are a prefix of the requested ones, none of them refused; the phase fails exactly when a requested file is refused, and stops at the first refusal with that file's error |
| Os.StdinKept | wasm/process.go:126-139 | the stdin handle Start keeps is the opened stdin redirect, if there is one |
| Os.LockedOutcome | wasm/process.go:169-177 | once the files are open, Start fails with FailedPrecondition "already running" when an OS process is recorded, otherwise with the spawn error as is when the spawn fails, and succeeds exactly when neither happens |
| Os.StartSucceedsIff | wasm/process.go:124-180 | Start succeeds if and only if every requested file opens, no OS process is recorded and the spawn succeeds; a second Start always fails |
| Os.StartResult | wasm/process.go:124-180 | an open failure is returned first, then "already running" for a recorded OS process, then the spawn error as is; Start succeeds exactly when every file opens, none is recorded and the spawn succeeds |
| Os.Opens | wasm/process.go:124-167 | one open event per handle, in order |
| Os.Closes | wasm/process.go:205-207 | one close event per handle, in order |
| Os.Reverse | wasm/process.go:131-164 | the deferred closes run in reverse order of registration |
| Os.ReversePermutes | wasm/process.go:131-164 | reversing changes the order of the deferred closes but not which files they close |
| Os.ApplyAppend | wasm/process.go:104-211 | the files open after a log are found by replaying it in pieces |
| Os.ApplyInert | wasm/process.go:169-180 | exec, signal and kill events leave the set of open files unchanged |
| Os.ApplyOpens | wasm/process.go:124-167 | opening the handles adds exactly them to the open files |
| Os.ApplyCloses | wasm/process.go:205-207 | closing the handles removes exactly them from the open files |
| Os.CloseEach | wasm/process.go:205-207 | the waiter's loop appends one close per recorded file, in order |
| Os.WaiterClosesAll | wasmtime/process.go:181-183 | when every open file is among the recorded files, the waiter's closes leave nothing open |
| Os.CleanupAsWrittenLeaks | wasm/process.go:131-164 | as written, a Start whose stdin and stdout redirects both open and whose spawn then fails returns the spawn error and leaves both files open |
| Os.Cleanup | wasm/process.go:131-164 | the closes the deferred functions are evidently meant to run: on failure one close per opened file, the last opened first; on success none |
| Os.CleanupAsWritten | wasm/process.go:127-164 | the closes the deferred functions run as written: none, whatever the outcome, because each tests the `err` of its own `if` block |
| Os.CleanupRestoresOpenFiles | wasmtime/process.go:111-144 | for the corrected cleanup (the deferred closes testing the function's error result): a failed Start leaves exactly the files that were open before; a successful one closes nothing |
| Os.StartKeepsOpenFiles | wasmtime/process.go:111-144 | for the corrected cleanup: after Start the open files are the earlier ones plus, on success only, the files it opened |
| Os.LifecycleClosesAll | wasmtime/process.go:111-144 | for the corrected cleanup: starting from no open files, Start followed by the waiter's closes (on success) leaves no file open |
| Os.StartKeepsOpenFilesAsWritten | wasmtime/process.go:104-147 | as written, after Start the open files are the earlier ones plus every file it opened, whether it fails or not |
| Os.LifecycleAsWritten | wasmtime/process.go:104-184 | as written, from no open files a successful Start followed by the waiter leaves nothing open, while a failed Start leaves every file it opened open |
| Launch.Flags | wasmtime/process.go:95-100 | one flag per entry, in order, each the prefix followed by the entry |
| Launch.EngineArgv | wasmtime/process.go:94-102 | the engine argument vector has one entry per remap, per environment entry and per program argument, and ends with the program arguments unchanged |
| Launch.EngineArgvLayout | wasmtime/process.go:94-102 | the wasmtime argument vector is the remap flags, then one `--env=` flag per environment entry, then the program arguments, each group in order |
| Launch.UnflagFlags | wasmtime/process.go:95-100 | stripping the prefix from each flag gives the entries back |
| Launch.Unflag | wasmtime/process.go:95-100 | stripping keeps one entry per flag |
| Launch.ParseEngineArgvInverts | wasmtime/process.go:94-102 | the argument vector can be split back into the remaps, the environment and the program arguments |
| Launch.GuestArgvExact | wasm/process.go:113-122 | the wasmer argument vector is exactly `--mapdir=/:rootfs`, then one `--env=` flag per environment entry, then the program arguments |
| Launch.GuestArgvExample | wasm/process.go:113-122 | a worked guest argument vector with two environment entries |
| Launch.BuildEngineArgv | wasmtime/process.go:94-101 | the appending loops build exactly the engine argument vector |
| Launch.SandboxLaunch | wasm/process.go:108-112 | sandbox mode runs the first argument with the rest of them and no engine |
| WasmProcess.LaunchCommand | wasm/process.go:106-122 | sandbox mode runs `args[0]` with `args[1:]`; guest mode runs `wasmer` with the guest argument vector |
| WasmProcess.BuildCommand | wasm/process.go:106-122 | the command Start builds is the launch command |
| WasmProcess.SandboxExample | wasm/process.go:108-112 | a worked sandbox command |
| WasmProcess.KillResult | wasm/process.go:217-242 | the corrected kill decision: "process not started" with no OS process; success once exited; otherwise the call fails, with the signal error as is, exactly when the signal returns an error other than the operating system's error for a process that has already finished |
| WasmProcess.KillResultAsWritten | wasm/process.go:217-242 | the kill decision as written: "process not started" with no OS process; success once exited; otherwise the call fails, with the signal error as is, exactly when the signal returns an error whose text is not exactly "process already finished" |
| WasmProcess.KillRaceAsWrittenFails | wasm/process.go:237 | as written, the signal error for an already finished process fails Kill; with the error text compared exactly, it does not |
| WasmProcess.KillToleratesExit | wasm/process.go:226-239 | for the corrected decision: once started, Kill succeeds for an exited process and for the operating system's error for a process that has already finished |
| WasmProcess.Process.constructor | wasm/process.go:24-43 | a new process is created, with no OS process, no exit and no open file |
| WasmProcess.Process.Pid | wasm/process.go:49-56 | the pid is 0 until an OS process is recorded, and that process's pid afterwards |
| WasmProcess.Process.Status | wasm/process.go:80-94 | "stopped" exactly once exited; "running" exactly while an OS process is recorded and not exited; "created" exactly when no OS process is recorded |
| WasmProcess.Process.Resize | wasm/process.go:100-102 | resizing always succeeds |
| WasmProcess.Process.Delete | wasm/process.go:213-215 | deleting always succeeds |
| WasmProcess.Process.Start | wasm/process.go:104-211 | the result is the start decision. The log gains the opens, then the exec when the files opened and no OS process was recorded, and, as written, no close even when the call fails. On success the OS process, the stdin handle and the recorded files are set and the process is running; on failure they are unchanged. The exit state is unchanged |
| WasmProcess.Process.StartLocked | wasm/process.go:169-180 | "already running" when an OS process is recorded, with no exec; otherwise the exec, and on a successful spawn the OS process and stdin are recorded and Pid becomes the spawned pid |
| WasmProcess.Process.ObserveExit | wasm/process.go:185-207 | the waiter records the exit status (-1 on a wait error) and the exit time, marks the process exited, publishes exactly one exit event with its pid, then closes every recorded file in order |
| WasmProcess.Process.Kill | wasm/process.go:217-242 | the result is the kill decision as written; a signal is sent only to a started process that has not exited |
| WasmProcess.Process.SetExited | wasm/process.go:244-248 | only the exit status changes; the status stays as it was |
| WasmtimeProcess.KillResult | wasmtime/process.go:193-203 | "not started" with no OS process; otherwise the kill error as is, or success |
| WasmtimeProcess.Process.constructor | wasmtime/process.go:19-37 | a new process is created with the given pid field, no OS process, no exit and no open file |
| WasmtimeProcess.Process.Pid | wasmtime/process.go:43-45 | the stored `pid` field, fixed when the process is made; no operation assigns it, so it is not the pid of the OS process Start records |
| WasmtimeProcess.Process.Status | wasmtime/process.go:69-83 | "stopped" exactly once exited; "running" exactly while an OS process is recorded and not exited; "created" exactly when no OS process is recorded |
| WasmtimeProcess.Process.Resize | wasmtime/process.go:89-91 | resizing always succeeds |
| WasmtimeProcess.Process.Delete | wasmtime/process.go:189-191 | deleting always succeeds |
| WasmtimeProcess.Process.Start | wasmtime/process.go:93-187 | as for the wasm process (no close on failure, as written), with the wasmtime argument vector; the mutex is held afterwards exactly when it was already leaked or the files opened and an OS process was already recorded; with a leaked mutex only a Start whose files fail to open can be called, as it returns before the mutex |
| WasmtimeProcess.Process.StartLocked | wasmtime/process.go:149-159 | "already running" when an OS process is recorded, leaving the mutex held and nothing exec'd; otherwise the exec, and on a successful spawn the OS process and stdin are recorded |
| WasmtimeProcess.Process.ObserveExit | wasmtime/process.go:161-184 | the exit status (-1 on a wait error) and exit time are recorded, the process is marked exited, exactly one exit event is published with the stored pid field, then every recorded file is closed |
| WasmtimeProcess.Process.Kill | wasmtime/process.go:193-203 | the result is the kill decision; a started process is killed whatever the signal and `all` arguments |
| WasmtimeProcess.Process.SetExited | wasmtime/process.go:205-209 | only the exit status changes; the status stays as it was |
| WasmtimeContainer.HasNonBindSnoc | wasmtime/container.go:85-95 | the scan for a non-bind mount extends one mount at a time |
| WasmtimeContainer.ChooseRootfs | wasmtime/container.go:84-122 | the assembled directory when some mount is not a bind mount, else the first mount's source, else the non-empty configured root; none exactly when there is no mount and no non-empty root |
| WasmtimeContainer.FirstFailure | wasmtime/container.go:106-115 | the mount loop stops at the first refused mount, or runs to the end when none is refused |
| WasmtimeContainer.Mounts | wasmtime/container.go:106-115 | every mount is applied on the target, in order |
| WasmtimeContainer.MountPhase | wasmtime/container.go:84-115 | no step when every mount is a bind mount; otherwise the directory is created first, and the phase succeeds exactly when the mkdir succeeds and no mount is refused; a failure is the mkdir error, or else the mount error of the first refused mount |
| WasmtimeContainer.Detach | wasmtime/container.go:97-103 | unmounting everything under a target removes exactly the attachments on it |
| WasmtimeContainer.DetachAll | wasmtime/container.go:97-103 | when every attachment is on the target, unmounting everything leaves none |
| WasmtimeContainer.AttachedAt | wasmtime/container.go:106-115 | the mounts attached on a target, one per mount, in order |
| WasmtimeContainer.AttachedMounts | wasmtime/container.go:106-115 | applying the mounts in order attaches each of them in order |
| WasmtimeContainer.FailedMountsDetached | wasmtime/container.go:97-115 | mounts that fail part-way leave nothing attached once everything under the directory is unmounted |
| WasmtimeContainer.MountedAllAttached | wasmtime/container.go:105-115 | when every mount succeeds, all of them are attached in order |
| WasmtimeContainer.MountPhaseAllOrNothing | wasmtime/container.go:85-115 | a failed root filesystem leaves no mount attached; a successful one has every listed mount attached in order when one is not a bind mount, and none otherwise |
| WasmtimeContainer.SecondOfThreeMountsFails | wasmtime/container.go:97-115 | with the second of three mounts refused, the first is mounted, everything is unmounted and the mount error is returned |
| WasmtimeContainer.NewContainerPlan | wasmtime/container.go:68-144 | read, decode and missing-process errors come before any file-system step; otherwise the steps are the mount phase; the plan succeeds exactly when the configuration has a process, the mount phase succeeds and a root is found. Its error is the wrapped read or decode error, InvalidArgument "no process specification", the mount phase's own error, or InvalidArgument "no root provided", in that order |
| WasmtimeContainer.NewContainerPlanInit | wasmtime/container.go:82-144 | a successful create gives the init process the single remap `/:rootfs`, its environment, and its arguments with the first placed under the root filesystem; the directory is assembled exactly when a mount is not a bind mount |
| WasmtimeContainer.CreateRoot | wasmtime/container.go:84-95 | the directory is created once, at the first non-bind mount; a mkdir error is returned at once |
| WasmtimeContainer.MountEach | wasmtime/container.go:105-115 | the mounts are applied in order up to the first refusal, which unmounts everything and returns the mount error |
| WasmtimeContainer.AssembleRootfs | wasmtime/container.go:84-115 | the two loops take exactly the steps of the mount phase |
| WasmtimeContainer.NewContainer | wasmtime/container.go:48-164 | read and decode errors, a missing process specification, mount errors and a missing root are returned as the plan says. Otherwise a new container with an empty registry, no cgroup and a new init process with pid field 0 |
| WasmtimeContainer.CachedCgroup | wasmtime/container.go:295-301 | a cached cgroup is never replaced; one is cached only when none was and the pid is positive; a failed lookup leaves none |
| WasmtimeContainer.Route | wasmtime/container.go:243-257 | "" names the init process, failing with FailedPrecondition only when there is none; another id names its registry entry, failing with NotFound when it is absent |
| WasmtimeContainer.RouteAfterAdd | wasmtime/container.go:268-273 | after registering a process, its id routes to it and every other id routes as before |
| WasmtimeContainer.RouteAfterRemove | wasmtime/container.go:275-280 | after removing an id, it is not found and every other id routes as before |
| WasmtimeContainer.Container.constructor | wasmtime/container.go:146-151 | a container starts with its init process, an empty registry and no cgroup |
| WasmtimeContainer.Container.Process | wasmtime/container.go:243-257 | a lookup is the routing decision over the registry, which it does not change |
| WasmtimeContainer.Container.ProcessExists | wasmtime/container.go:260-265 | true exactly when the registry has the id |
| WasmtimeContainer.Container.ProcessAdd | wasmtime/container.go:268-273 | the process is registered under its id; every other lookup is unchanged |
| WasmtimeContainer.Container.ProcessRemove | wasmtime/container.go:275-280 | the id is no longer registered; every other lookup is unchanged |
| WasmtimeContainer.Container.ExecdProcesses | wasmtime/container.go:212-219 | every registered process exactly once |
| WasmtimeContainer.Container.All | wasmtime/container.go:198-209 | every registered process exactly once, followed by the init process when there is one |
| WasmtimeContainer.Container.HasPid | wasmtime/container.go:382-392 | true exactly when the init process or a registered process has the pid |
| WasmtimeContainer.Container.CgroupSet | wasmtime/container.go:236-240 | the cgroup is replaced |
| WasmtimeContainer.Container.Start | wasmtime/container.go:282-302 | a lookup error or a start error is returned with the cgroup unchanged; on success the process is returned and the cgroup becomes the cached one. The started process is left as its own Start leaves it: its effect log, OS process, stdin, recorded files, waiting flag, the mutex held exactly when it was already leaked or on a refused restart, and its exit state unchanged. A process with a leaked mutex can be started only when its files fail to open |
| WasmtimeContainer.Container.Delete | wasmtime/container.go:306-318 | a lookup error changes nothing; otherwise the process is returned and only a non-empty exec id is removed from the registry |
| WasmtimeContainer.Container.Kill | wasmtime/container.go:349-355 | a lookup error is returned; otherwise the result of the process's Kill, and its effect log gains a kill exactly when it was started |
| WasmtimeContainer.Container.CloseIO | wasmtime/container.go:358-369 | a lookup error is returned; otherwise the process's stdin is closed when it has one, and a close error is returned wrapped as "close stdin" |
| WasmtimeContainer.Container.ResizePty | wasmtime/container.go:336-346 | resizing succeeds exactly when the exec id names a process |
| WasmtimeContainer.Container.Exec | wasmtime/container.go:321-323 | always fails with NotImplemented |
| WasmtimeContainer.Container.Pause | wasmtime/container.go:326-328 | always fails with NotImplemented |
| WasmtimeContainer.Container.Resume | wasmtime/container.go:331-333 | always fails with NotImplemented |
| WasmtimeContainer.Container.Checkpoint | wasmtime/container.go:372-374 | always fails with NotImplemented |
| WasmtimeContainer.Container.Update | wasmtime/container.go:377-379 | always fails with NotImplemented |

## Left out

- Process spawning, waiting, signalling and killing are foreign OS calls. They are inputs of the operations: `spawn`, `wait` and the error texts.
- The conversion of a wait status to an integer is foreign. A nil process state from the wait, which leaves the exit status as it was, is not modelled: a successful wait always carries a status.
- File opening and closing are events in the effect log. The files themselves are not modelled.
- Reading `config.json` and decoding it as JSON are not modelled; `Config` gives their outcome.
- `os.Mkdir`, `mount.Mount` and `mount.UnmountAll` are events or inputs. A failing `UnmountAll` is only logged by the code and is not modelled.
- `cgroups.Load` is the boolean `loaded`. Only the pid-keyed legacy hierarchy the code asks for is modelled, as `Cgroup.V1`.
- Mutexes, goroutines and the `ec` channel are not modelled: each operation is atomic and the waiter is the explicit `ObserveExit` step. A blocked call is not modelled either; it is excluded by requiring `lockHeld` to be clear wherever the call would reach the leaked mutex.
- `Wait` of both processes (wasm/process.go:96-98, wasmtime/process.go:85-87) blocks until the exit channel is closed. It is not modelled: its only effect is the blocking, and the model has no blocking. The `exited` flag that `ObserveExit` sets stands for the closed channel.
- The exit time is a flag, `exitTimeSet`, not a time.
- Logging is not modelled.
- `ID`, `ExitStatus`, `ExitedAt`, `Stdin` and `Stdio` of both processes, and `Container.Pid` and `Container.Cgroup`, are plain field reads. The model reads the fields directly.
- `Join`: path cleaning of `.`, `..` and repeated separators is not modelled; joining is concatenation around "/".
- Error wrapping is simplified: a wrapped error keeps its kind and the wrapping text. For a mount failure the text names only the mount's source.
- The signal number is an unbounded natural, not a `uint32`. The window size of `ResizePty` is not truncated to 16 bits; the result does not depend on it.
- The `RootRemap` field of the container is never assigned by the code and is not modelled.
- The `waitError` field of both processes is never used and is not modelled.
- In `NewContainer` the cgroup lookup for a positive pid of the new init process is not modelled. The `wasmtime` process made there has pid field 0, so that branch is never taken.
- Registry entries are `wasmtime` processes; the code's registry holds any process implementing its interface.
- Open-file accounting is stated as lemmas in `Os` about the exact effect deltas that Start and ObserveExit ensure, not as a class invariant. For the code as written the lemmas are `StartKeepsOpenFilesAsWritten`, `WaiterClosesAll` and `LifecycleAsWritten`; `StartKeepsOpenFiles` and `LifecycleClosesAll` state the same for the corrected cleanup.
- A failed cgroup lookup is logged and `Container.Start` still succeeds, as the code does.
- WasmProcess.Process.Start, WasmtimeProcess.Process.Start: they model the deferred closes as written (none runs), so neither promises that a failed Start closes the files it opened; the intended behaviour is stated only by `Os.Cleanup` and its lemmas (see Findings).
- WasmProcess.Process.Start, WasmProcess.LaunchCommand, WasmProcess.BuildCommand: in sandbox mode they require at least one program argument. With none, `p.args[0]` at wasm/process.go:109 panics with an index out of range before any file is opened; that panic is not modelled.
- WasmtimeContainer.Container.HasPid: it requires an init process. With none, `c.process.Pid()` in `Container.Pid` (wasmtime/container.go:222-226, called at :383) panics on a nil interface; that panic is not modelled.
- WasmProcess.Process.Kill: it models the comparison as written, so it does not promise that the operating system's error for an already finished process counts as success; the intended decision is stated only by `WasmProcess.KillResult` and its lemmas (see Findings).

## Findings

The process classes model both defects as written. For each defect, the corrected definition and its property are stated beside the as-written one.

| source | as written | input that shows it | evidently intended | confidence | as-written member | corrected member |
|---|---|---|---|---|---|---|
| wasm/process.go:127-164, wasmtime/process.go:107-144 | each deferred close tests the `err` declared by `os.OpenFile` in the enclosing `if` block, which is nil once the open succeeded, so no deferred close ever runs | stdin and stdout redirected, both opens succeed and the spawn fails: Start returns the spawn error and both files stay open | a failed Start closes every file it opened, in reverse order | high, not executed | Os.CleanupAsWrittenLeaks | Os.CleanupRestoresOpenFiles |
| wasm/process.go:237 | the signal error is tolerated only when its text is exactly "process already finished" | the process exits between the `exited` check and the signal; Go's os package reports "os: process already finished", so Kill fails | a signal to a process that has already finished is treated as success | medium, not executed | WasmProcess.KillRaceAsWrittenFails | WasmProcess.KillToleratesExit |
