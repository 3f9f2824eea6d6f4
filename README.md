# sshdog process launch, in Dafny

This project models how sshdog for iOS/darwin launches a child process. On
that platform fork/exec is replaced by `posix_spawnp`, and a shell is attached
to a pseudo-terminal through a two-phase relaunch of sshdog itself:

- **`Exec`** (`exec/exec_darwin.go`) covers `Cmd.Start` and `PosixSpawn`:
  - the guards of `Start`;
  - the layout of the child files;
  - the default environment;
  - which closer lists get closed on which path;
  - the rewrite of the target for the helper relaunch;
  - the `posix_spawnattr` flag word and process group;
  - FD_CLOEXEC clearing;
  - the three dup2 file actions;
  - the thread-directory switch, undone whenever `posix_spawnp` returns;
  - recording the child's pid.
- **`SpawnHelper`** (`spawn_helper.go`) is the second phase of the relaunch:
  - decoding `[exe, "spawn", ctty] ++ args`;
  - the tolerated tty-check error;
  - the conditional `setsid`;
  - the best-effort `TIOCSCTTY`;
  - the phase-2 command that replaces the helper with `POSIX_SPAWN_SETEXEC`.
- **`PtyUnix` and `Pty`** (`pty/pty_unix.go`, `pty/pty.go`) cover attaching a
  command to the slave side of a pty, `Resize` (unsupported on darwin) and
  `Close`.
- **`Sshdog`** (`sshdog.go`) covers `getPort` (argv, then config file, then
  2222, truncated to `int16`) and the "exit" watcher `readExitInput`.
- **Support modules:**
  - `Base` holds Option/Result, files named by descriptor and closer ids.
  - `Text` holds Go's `strconv.Atoi`/`Itoa`, `strings.Contains` and
    `strings.TrimSpace`.
  - `Os` holds the `Host` class for the caller's side of the kernel: the
    calling thread's directory, the FD_CLOEXEC set, and the trace of system
    calls issued.

Every libc or kernel call is an oracle. Its outcome is a parameter (a
`SpawnOracle` or a `HelperOracle`). A call with an effect is a `Host`
method that records the call in `trace` or updates the state it changes
(`ClearCloexec` only updates the FD_CLOEXEC set). Calls without an effect
(getwd, getsid, getpid, fsync) are oracle outcomes only. The state-changing operations are methods:

- over the `Cmd` class, whose fields `Start` updates in place, with a ghost
  set `closed` of the closers closed so far;
- over `Host`.

Each such method is tied to a pure specification function:

- `PosixSpawnSpec` for `PosixSpawn`;
- `HelperSpec` and `Phase2Spec` for the helper;
- `ExitSpec` for the watcher.

The properties are proved as lemmas about those functions.

Facts about the code that shape the model:

- **Helper argv.** The argv of the first phase is `[exe, "spawn",
  itoa(Ctty)] ++ Args`. `Path` is not passed on. The second phase uses
  `Args[0]`, looked up on PATH only when it has no slash (the
  `filepath.Base(name) == name` rule of `exec.Command`); a name with a
  slash is used as the path as is. So if a caller's `Path` differs from
  `Args[0]` (Path `/bin/bash` with Args[0] `-bash`, say), that `Path` is
  lost.
- **Phase-1 flags.** The first phase's flag word comes straight from
  `SysProcAttr`, like any other spawn. After `attach_pty` that means SETSID,
  plus SETPGROUP if Setpgid was already set.
- **Directory switch.** `wrapChdir` runs on every spawn. When `Dir` is
  empty, `__pthread_chdir("")` is still issued and its failure ignored. The
  code does not pin the goroutine to an OS thread.
- **Extra files.** `ExtraFiles` are appended to `childFiles` without being
  registered in either closer list. Only descriptors 0, 1 and 2 get a dup2
  action (exec/exec_darwin.go:355-364). So, unlike the `Cmd` comment's
  promise at exec/exec_darwin.go:96-98, entry i of `ExtraFiles` does not
  become descriptor 3+i in the child: it keeps its own descriptor number.
- **FD_CLOEXEC.** The flag is cleared in the parent on every child file
  (exec/exec_darwin.go:337-339) and never set back. Every later spawn of
  the process therefore inherits those descriptors too.
- **SETEXEC spawn.** With `Chroot == "exec"` a successful `posix_spawnp`
  replaces the calling process and does not return, so the deferred
  restoring `__pthread_chdir` (exec/exec_darwin.go:388-392) is never issued
  on that path.

## Model

| member | source | states |
|---|---|---|
| Text.Itoa | exec/exec_darwin.go:245 | the decimal text starts with '-' exactly for negative numbers and is never empty |
| Text.Atoi | spawn_helper.go:17 | the empty string is a syntax error; every parsed value lies in Go's 64-bit int range; a negative value needs a leading '-' |
| Text.OverflowIsRangeError | spawn_helper.go:17 | digits too large for 64 unsigned bits are a range error whatever follows them, a bad character included |
| Text.AtoiItoa | spawn_helper.go:17 | parsing what Itoa prints gives back every 64-bit value, so the ctty survives the relaunch |
| Text.TrimSpace | sshdog.go:50 | the result neither starts nor ends with white space, and is empty only when the input is all white space |
| Text.TrimSpaceIsSlice | sshdog.go:50 | the result is one slice of the input, and everything cut off before or after it is white space |
| Text.ContainsIffOccurs | spawn_helper.go:26 | the recursive scan reports a substring exactly when it occurs at some index |
| Os.Host.ClearCloexec | exec/exec_darwin.go:338 | only the descriptor's FD_CLOEXEC flag changes |
| Os.Host.PthreadChdir | exec/exec_darwin.go:386-391 | the thread directory changes only when the call succeeds; the call is recorded either way |
| Os.Host.Spawnp | exec/exec_darwin.go:440-447 | records the spawn with everything it receives and the thread directory at that moment |
| Os.Host.Setsid | spawn_helper.go:33 | records the setsid call and changes nothing else |
| Os.Host.IoctlSetCtty | spawn_helper.go:41 | records the TIOCSCTTY request on the descriptor and changes nothing else |
| Os.Host.CloseFile | pty/pty.go:57-58 | records the close and changes nothing else |
| Exec.SpawnTarget | exec/exec_darwin.go:240-248 | with Setctty the path is the own executable and argv is [exe, "spawn", decimal Ctty] followed by the original args; otherwise path and args pass through unchanged |
| Exec.SpawnFlags | exec/exec_darwin.go:287-301 | SETSID iff Setsid, SETPGROUP iff Setpgid, SETEXEC iff Chroot == "exec", and no other bit |
| Exec.Pgroup | exec/exec_darwin.go:293-297 | a process group is set exactly when Setpgid is, and it is Pgid |
| Exec.FileActions | exec/exec_darwin.go:355-364 | exactly three dup2 actions onto 0, 1, 2 in order, from the first three child files, or from the caller's own 0, 1, 2 on the helper path |
| Exec.SumNonzeroIffSomeCallFailed | exec/exec_darwin.go:355-373 | with return codes 0 or an errno, the summed retval is nonzero iff one add call failed |
| Exec.SpawnIsBracketedByChdir | exec/exec_darwin.go:375-395 | posix_spawnp is reached only when every setup call succeeded, and is preceded by the switch to Dir; the switch back follows unless a successful SETEXEC spawn replaced the process, in which case the spawn is the last call; PosixSpawn succeeds iff it returns 0 |
| Exec.HelperBranchIgnoresPath | exec/exec_darwin.go:235-248 | on the helper branch the spawn call does not depend on Path, and argv after the three helper words is Args |
| Exec.CwdRestored | exec/exec_darwin.go:378-391 | when Getwd and the restoring chdir succeed, the thread directory is the same afterwards on every path on which posix_spawnp returns, and after a successful SETEXEC spawn it is the directory the spawn ran in |
| Exec.SetExecSpawnTrace | exec/exec_darwin.go:375-395 | for a Chroot "exec" request whose setup succeeded, the trace gains the chdir and the spawn, and the restoring chdir only when the spawn failed |
| Exec.ExtraFilesNotRemapped | exec/exec_darwin.go:355-364 | every file action targets descriptor 0, 1 or 2, so no extra file is moved to 3+i |
| Exec.CloexecClearedOnChildFiles | exec/exec_darwin.go:337-339 | FD_CLOEXEC is cleared on exactly the child files once the attributes are set up, and on nothing before |
| Exec.StartGate | exec/exec_darwin.go:156-175 | an empty path without lookPathErr is "no command", lookPathErr wins, then "already started" (which alone closes nothing), then a done context; Start proceeds iff every guard passes |
| Exec.FilesOfLayout | exec/exec_darwin.go:178-187 | one child file per stdio setup, in order |
| Exec.ChildFilesLayout | exec/exec_darwin.go:177-188 | childFiles is stdin's, stdout's and stderr's file followed by ExtraFiles, so its length is 3 + len(ExtraFiles) |
| Exec.Direct | exec/exec_darwin.go:130-147 | an os.File stream is used as it is, with no closers; any other stream gets the setup it is given |
| Exec.ResolveStdio | exec/exec_darwin.go:179-180 | stdin and stdout are set up directly; stderr shares stdout's file when it equals a non-nil Stdout whose setup worked, and is set up directly otherwise |
| Exec.StderrSharesStdout | exec/exec_darwin.go:144-148 | a Stderr equal to a non-nil Stdout shares stdout's child file and registers no closer |
| Exec.Cmd.Command | spawn_helper.go:46 | Args is [name] ++ arg; LookPath is consulted iff filepath.Base(name) == name, and its result becomes Path or lookPathErr |
| Exec.Cmd.CloseDescriptors | exec/exec_darwin.go:125-130 | every listed closer is now closed |
| Exec.Cmd.SetupChildFiles | exec/exec_darwin.go:177-187 | appends the files and closers of the setups up to the first failure, and reports that failure's message |
| Exec.Cmd.Start | exec/exec_darwin.go:155-203 | each guard's error with the lists it closes and the host untouched; a stdio failure closes both lists; otherwise the env default and the PosixSpawn outcome, with closeAfterWait closed only on failure |
| Exec.Cmd.Launch | exec/exec_darwin.go:177-202 | the part of Start after the guards, the same outcomes in terms of the resolved setups |
| Exec.BuildSpawnFlags | exec/exec_darwin.go:288-301 | the bitwise-or steps build exactly SpawnFlags, and the setpgroup call gets Pgroup |
| Exec.ClearCloexecOnAll | exec/exec_darwin.go:337-339 | the loop clears FD_CLOEXEC on the set of child descriptors and changes nothing else |
| Exec.AddDup2Actions | exec/exec_darwin.go:355-364 | the actions added are FileActions, and retval is the sum of the three return codes |
| Exec.WrapChdirSpawn | exec/exec_darwin.go:375-458 | a Dir with a NUL fails before any call; otherwise chdir to Dir, spawn in the directory then current, chdir back to the saved one unless a successful SETEXEC spawn replaced the process, and Process set iff posix_spawnp returned 0 |
| Exec.PosixSpawn | exec/exec_darwin.go:228-467 | the host state and error are PosixSpawnSpec of the request, and Process carries the pid iff no error |
| SpawnHelper.DecodeHelperArgv | spawn_helper.go:17-21 | a short argv, an unparsable argv[2], or (ctty, argv[3:]) |
| SpawnHelper.DecodeHelperArgvRoundTrip | spawn_helper.go:17-21 | decoding [exe, "spawn", itoa(ctty)] ++ args gives back ctty and args |
| SpawnHelper.HelperBranchDecodes | exec/exec_darwin.go:242-248 | the argv of the helper branch decodes to the Ctty and the original args |
| SpawnHelper.SyncError | spawn_helper.go:24-25 | a negative descriptor gives a nil file and "invalid argument"; otherwise the fsync result |
| SpawnHelper.SessionCalls | spawn_helper.go:32-43 | setsid is issued iff getsid failed or is not the pid, and TIOCSCTTY on the ctty always comes last |
| SpawnHelper.Phase2Attr | spawn_helper.go:57-59 | the phase-2 attributes give only SETEXEC and never the helper branch, so there is no further relaunch |
| SpawnHelper.Phase2Request | spawn_helper.go:46-59 | the phase-2 request runs spawnArgs with the current environment and the tty as all three child files |
| SpawnHelper.HandleSpawnHelper | spawn_helper.go:14-62 | the host state and exit are HelperSpec of argv and the outcomes |
| SpawnHelper.NewPhase2Cmd | spawn_helper.go:46-58 | the new command runs argv[0], looked up on PATH only when it has no slash and used as is otherwise, with the rest as arguments, the given environment and working directory, the tty as all three streams and the SETEXEC attribute |
| SpawnHelper.SpawnOriginal | spawn_helper.go:45-61 | the host state and exit are Phase2Spec: the phase-2 Cmd through Start, where every error is fatal |
| SpawnHelper.TtyInvalidIffNotEnotty | spawn_helper.go:24-29 | the helper stops on the tty check exactly when argv decodes and the sync error exists and nowhere mentions "inappropriate ioctl for device" |
| SpawnHelper.InappropriateIoctlTolerated | spawn_helper.go:24-29 | a sync error containing "inappropriate ioctl for device" never stops the helper |
| SpawnHelper.Phase2RunsInHelperDir | spawn_helper.go:48 | with Dir set from Getwd, the original command is spawned in the helper's own directory; the directory is unchanged afterwards when the spawn replaced the helper, or when it failed and the restore succeeded |
| SpawnHelper.Phase2SpawnsOriginal | spawn_helper.go:31-60 | when the spawn is reached, the trace is the session calls, the chdir to Dir and the spawn of argv[3:] with only SETEXEC and the tty dup2'ed onto 0, 1, 2, then the restoring chdir only if the spawn failed |
| SpawnHelper.ReplacedIffSpawnSucceeds | spawn_helper.go:60-61 | the helper is replaced by the target iff every step passes and posix_spawnp returns 0; every other outcome is fatal |
| PtyUnix.AttachAttr | pty/pty_unix.go:30-38 | Setsid and Setctty set, Ctty the tty descriptor, a zero SysProcAttr when there was none, every other field preserved |
| PtyUnix.AttachPty | pty/pty_unix.go:30-38 | SysProcAttr becomes AttachAttr of the old one, and the result is nil |
| PtyUnix.AttachIdempotent | pty/pty_unix.go:34-36 | attaching twice equals attaching once |
| PtyUnix.AttachedSpawnTakesHelperBranch | pty/pty_unix.go:34-37 | after attaching, the spawn takes the helper branch with SETSID, argv[2] is the decimal descriptor, and the helper decodes it back |
| PtyUnix.ResizePty | pty/pty_unix.go:40-42 | never nil: always the Unsupported error ("Unsupported platform") |
| Pty.OpenPty | pty/pty.go:37-45 | an allocation error is passed on; otherwise Pty is the master and Tty the slave |
| Pty.AttachPty | pty/pty.go:48-53 | all three streams become the slave, never the master, and SysProcAttr becomes AttachAttr for the slave |
| Exec.AllStreamsOneFile | pty/pty.go:48-51 | when one os.File is given as stdin, stdout and stderr, no stream fails, the three child files are that file, and no closers are registered |
| Pty.AttachedSpawnKeepsTty | pty/pty.go:48-53 | the relaunch keeps the slave open across the spawn and names it in argv[2], while dup2'ing the caller's own 0, 1, 2 |
| Pty.Resize | pty/pty.go:62-65 | never nil: the result is resize_pty's Unsupported error |
| Pty.Close | pty/pty.go:56-59 | the slave is closed, then the master |
| Sshdog.ToInt16 | sshdog.go:46 | congruent to the input modulo 2^16, and unchanged within the int16 range |
| Sshdog.GetPort | sshdog.go:41-58 | argv[1] when it parses, else the trimmed config port when it parses, else 2222, truncated to int16 |
| Sshdog.SmallPortKept | sshdog.go:42-47 | "22" gives port 22 |
| Sshdog.HighPortWraps | sshdog.go:46 | "40000" gives port -25536 |
| Sshdog.ConfigPortTrimmed | sshdog.go:49-55 | a config entry " 8022\n" gives 8022 |
| Sshdog.UnparsablePortsDefault | sshdog.go:57 | nothing parses, so the result is 2222 |
| Sshdog.Slide | sshdog.go:101 | the window keeps its length, drops its first byte and ends with the new one |
| Sshdog.MatchesMark | sshdog.go:104-109 | shouldExit iff the window is "exit" |
| Sshdog.ReadExitInput | sshdog.go:78-114 | the loop's outcome is ExitSpec from four zero bytes |
| Sshdog.WindowOf | sshdog.go:79 | the window always has four bytes |
| Sshdog.WindowIsLastFour | sshdog.go:100-103 | after four or more bytes the window is the last four, before that it starts with a zero byte |
| Sshdog.SlideWindowOf | sshdog.go:100-103 | reading one more byte slides the window by that byte |
| Sshdog.WindowMatchesIffEndsWithExit | sshdog.go:104-112 | the window matches iff the last four bytes read are "exit", so fewer than four bytes never match |
| Sshdog.ExitIffMarkSeen | sshdog.go:100-112 | without read errors, the outcome is exit 0 iff the window spelled "exit" at some point, and otherwise the loop keeps reading |
| Sshdog.ExitIffTyped | sshdog.go:78-112 | from the start, error-free input exits with 0 iff the bytes read so far end in "exit" at some point |
| Sshdog.FirstErrorDecides | sshdog.go:86-98 | once the reads before it have not spelled "exit", the first failing read decides: an early EOF returns, a later EOF exits 0, any other error exits 1 |
| Sshdog.EmptyStdinReturns | sshdog.go:87-90 | EOF within the first second on the first read returns without exiting |

## Left out

- The libc and kernel calls are not modelled. This covers `posix_spawnattr_*`, `posix_spawn_file_actions_*`, `posix_spawnp`, `__pthread_chdir`, `fcntl`, `ioctl(TIOCSCTTY)`, `setsid`, `getsid`, `getpid`, `fsync`, `os.Executable`, `os.Getwd` and `termios.Pty`. Each one's outcome is a parameter, and only the caller's side of its effect is recorded.
- The cgo marshalling is not modelled. This covers `C.CString`/`C.free` and the NULL-terminated argv and envp arrays (exec/exec_darwin.go:253-276). The spawn attribute and file-action objects are never destroyed. The model passes argv and envp as sequences.
- The `go:linkname` stdlib internals `stdin`, `stdout`, `stderr` and `envv` are not modelled. Their bodies live in Go's os/exec.
  - An `*os.File` stream is used directly.
  - Stdout is shared when Stderr equals a non-nil Stdout.
  - Every other stream's setup (null device or pipe) is a given outcome: a file with the closers it registers, or an error message.
  - `closeDescriptors` adds the closers to the ghost `closed` set. Close errors are not modelled.
- The goroutines are not modelled: the stdio copy goroutines and `errch`, the context kill watcher started after a successful spawn, `(*Pty).AttachIO`'s two `io.Copy` loops, and the `go readExitInput()` launch.
- `Run`'s `Wait` is not modelled. In the helper, a successful `Start` is taken to mean the helper process image has been replaced (SETEXEC). A real `posix_spawnp` with that flag does not return on success. The model stops the host trace at the spawn, without the deferred restore.
- Exec.Cmd.Start: after a successful SETEXEC spawn the model still returns from `Start`, and records `closeAfterStart` as closed. The real process is gone by then. In the helper these closer lists are empty, and closing is not part of the host trace.
- Exec.Cmd.Start: the context is a snapshot of `ctx.Done()` at the moment it is polled.
- Exec.Pgroup: does not model the `C.int` truncation of `Pgid`, because a Go int outside the 32-bit range is not a meaningful process group.
- Exec.AddDup2Actions: `retval` is a C `int` summed without overflow, because three errno values cannot overflow it.
- Exec.PosixSpawn: requires at least three child files. The source indexes `childFiles[0..2]` and panics otherwise, and `Start` always provides them.
- Exec.SpawnOracle: the `os.Executable` error is ignored, as in the source. The executable path is given.
- Exec.WrapChdirSpawn: one `Host.cwd` stands for the working directory of the thread that runs the goroutine. The model assumes that both `__pthread_chdir` calls and `posix_spawnp` run on that one OS thread. The source does not call `runtime.LockOSThread` (exec/exec_darwin.go:375-395), so after the blocking cgo call the deferred restore may run on another thread, leaving the first thread in `Dir`. `Exec.CwdRestored` holds only under this assumption.
- SpawnHelper.HelperOracle: `os.Getwd` in the helper is a given outcome, separate from the host's `cwd`. `SpawnHelper.Phase2RunsInHelperDir` states the case where it reports the helper's own directory.
- The directory saved by `wrapChdir` holding a NUL is not modelled separately. It only makes the restoring chdir fail, which `restoreOk` covers.
- `SysProcAttr` is a value in the model. The source shares one pointer between a caller and its `Cmd`, so aliasing between commands is not modelled.
- Only these SysProcAttr fields are modelled: Chroot, Setsid, Setpgid, Setctty, Noctty, Ctty, Foreground and Pgid. `Credential` and `Ptrace` are left out because `PosixSpawn` never reads them.
- Strings are sequences of code points. `Atoi`, `TrimSpace` and `Contains` agree with Go's byte-level versions on ASCII. UTF-8 encoding is not modelled.
- Sshdog.ReadExitInput:
  - It runs over a finite sequence of reads, and `StillReading` stands for "input not yet decided".
  - The one-second clock becomes a flag on each EOF.
  - `os.Exit` is a terminal outcome.
  - `firstErr` is never assigned in the source, so it is always nil in the model.
- Sshdog.GetPort: the rice box is replaced by the contents of its "port" file, or nothing when it cannot be read.
- `dbg.Fatalf` (spawn_helper.go:19,27,61) is read as the `Fatalf` of the `*log.Logger` embedded in `DbgLogger` (dbglog/logger.go:8-11): print and `os.Exit(1)`. The model ends the helper there with the `HelperExit` values `InvalidCtty`, `TtyInvalid` and `UnexpectedExit`, and issues no further call. The `Debugger` bool type at sshdog.go:29-38 has only `Debug` and no `NewPrefix` or `Fatalf`, so it cannot be the `dbg` the helper calls. The file that binds `dbg` to `DbgLogger` in the main package is not part of this model.
- Debug logging (`dbg.Debug`, `dbg.NewPrefix`, `dbglog`), `daemon/daemon_darwin.go`, `exec/exec_generic.go`, `spawn_debug/test.go`, the SSH server and `main` are outside this model. The dispatch from `main` into `handleSpawnHelper` is not part of the code modelled. The helper is modelled from a given argv.
