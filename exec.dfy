/** `exec/exec_darwin.go`: `Cmd.Start` and `PosixSpawn`, the replacement of
    fork/exec by `posix_spawnp`. The libc calls (`posix_spawnattr_*`,
    `posix_spawn_file_actions_*`, `posix_spawnp`, `__pthread_chdir`,
    `fcntl`) and `os.Executable`/`os.Getwd` are oracles: their return
    codes are carried in `SpawnOracle` and their effects go through
    `Os.Host`. */
module Exec {
  import opened Base
  import opened Text
  import opened Os

  /** The darwin `syscall.SysProcAttr` (the `Credential` and `Ptrace`
      fields are left out). */
  datatype SysProcAttr = SysProcAttr(
    chroot: string,
    setsid: bool,
    setpgid: bool,
    setctty: bool,
    noctty: bool,
    ctty: int,
    foreground: bool,
    pgid: int)

  /** `syscall.SysProcAttr{}`. */
  const ZeroAttr: SysProcAttr := SysProcAttr("", false, false, false, false, 0, false, 0)

  /** What a `Cmd.Stdin`/`Stdout`/`Stderr` field holds: nil, an `*os.File`,
      or some other reader or writer (identified by an id). */
  datatype Stream = Unset | OsFile(file: File) | Other(id: nat)

  /** A `context.Context`, seen at the moment `Start` polls `Done()`:
      `doneErr` is `ctx.Err()` once the context is done. */
  datatype Context = Context(doneErr: Option<string>)

  /** `os.Process`, of which the model keeps the pid. */
  datatype Process = Process(pid: int)

  /** The errors `Start` and `PosixSpawn` return. */
  datatype Error =
    | NoCommand
    | LookPathFailed(msg: string)
    | AlreadyStarted
    | ContextDone(msg: string)
    | StdioFailed(msg: string)
    | AttrInitFailed(code: int)
    | SetFlagsFailed(code: int)
    | FileActionsInitFailed(code: int)
    | FileActionsAddFailed(code: int)
    | DirInvalid
    | SpawnFailed(code: int)

  /** Bits of the `posix_spawnattr_setflags` word (a C `short`), from
      Apple's `<spawn.h>`. */
  const SetPgroupFlag: bv16 := 0x0002
  const SetExecFlag: bv16 := 0x0040
  const SetSidFlag: bv16 := 0x0400

  /** The second phase of the helper relaunch marks itself with `Chroot == "exec"`. */
  predicate IsSpawnHelper(a: Option<SysProcAttr>) {
    a.Some? && a.value.chroot == "exec"
  }

  /** A controlling terminal can only be set through the helper relaunch. */
  predicate NeedSpawnHelper(a: Option<SysProcAttr>) {
    a.Some? && a.value.setctty
  }

  /** The argument vector of the first phase: the program itself, the word
      "spawn", the terminal's descriptor in decimal, then the original argv. */
  function HelperArgv(exe: string, ctty: int, args: seq<string>): seq<string> {
    [exe, "spawn", Itoa(ctty)] + args
  }

  datatype Target = Target(path: string, argv: seq<string>)

  /** The file and argv handed to `posix_spawnp`. */
  function SpawnTarget(path: string, args: seq<string>, a: Option<SysProcAttr>, exe: string): (t: Target)
    ensures |t.argv| == |args| + (if NeedSpawnHelper(a) then 3 else 0)
    ensures t.argv[|t.argv| - |args|..] == args
    ensures NeedSpawnHelper(a) ==> t.path == exe && t.argv[..3] == [exe, "spawn", Itoa(a.value.ctty)]
    ensures !NeedSpawnHelper(a) ==> t == Target(path, args)
  {
    if NeedSpawnHelper(a) then Target(exe, HelperArgv(exe, a.value.ctty, args)) else Target(path, args)
  }

  /** The attribute flag word: exactly the bits the attributes ask for. */
  function SpawnFlags(a: Option<SysProcAttr>): (f: bv16)
    ensures (f & SetSidFlag != 0) <==> (a.Some? && a.value.setsid)
    ensures (f & SetPgroupFlag != 0) <==> (a.Some? && a.value.setpgid)
    ensures (f & SetExecFlag != 0) <==> IsSpawnHelper(a)
    ensures f & !(SetSidFlag | SetPgroupFlag | SetExecFlag) == 0
  {
    (if a.Some? && a.value.setsid then SetSidFlag else 0)
    | (if a.Some? && a.value.setpgid then SetPgroupFlag else 0)
    | (if IsSpawnHelper(a) then SetExecFlag else 0)
  }

  /** The process group passed to `posix_spawnattr_setpgroup`, if it is called. */
  function Pgroup(a: Option<SysProcAttr>): (g: Option<int>)
    ensures g.Some? <==> a.Some? && a.value.setpgid
    ensures g.Some? ==> g.value == a.value.pgid
  {
    if a.Some? && a.value.setpgid then Some(a.value.pgid) else None
  }

  /** The three dup2 actions. On the helper path the child gets the
      parent's own standard streams; otherwise the first three child files. */
  function FileActions(childFiles: seq<File>, helper: bool): (acts: seq<Dup2>)
    requires |childFiles| >= 3
    ensures |acts| == 3
    ensures forall i :: 0 <= i < 3 ==> acts[i].dst == i
    ensures !helper ==> forall i :: 0 <= i < 3 ==> acts[i].src == childFiles[i].fd
    ensures helper ==> forall i :: 0 <= i < 3 ==> acts[i].src == [StdinFd, StdoutFd, StderrFd][i]
  {
    if !helper then
      [Dup2(childFiles[0].fd, 0), Dup2(childFiles[1].fd, 1), Dup2(childFiles[2].fd, 2)]
    else
      [Dup2(StdinFd, 0), Dup2(StdoutFd, 1), Dup2(StderrFd, 2)]
  }

  /** The running total `retval +=` builds from the add calls' return codes. */
  function Sum(codes: seq<int>): int {
    if codes == [] then 0 else Sum(codes[..|codes| - 1]) + codes[|codes| - 1]
  }

  lemma SumOfThree(a: int, b: int, c: int)
    ensures Sum([a, b, c]) == a + b + c
  {
    assert [a][..0] == [];
    assert Sum([a]) == a;
    assert [a, b][..1] == [a];
    assert Sum([a, b]) == a + b;
    assert [a, b, c][..2] == [a, b];
  }

  /** For return codes that are 0 or an errno, the total is nonzero exactly
      when one of the calls failed. */
  lemma {:induction false} SumNonzeroIffSomeCallFailed(codes: seq<int>)
    requires forall i :: 0 <= i < |codes| ==> codes[i] >= 0
    ensures Sum(codes) >= 0
    ensures Sum(codes) != 0 <==> exists i :: 0 <= i < |codes| && codes[i] != 0
  {
    if codes != [] {
      var init := codes[..|codes| - 1];
      SumNonzeroIffSomeCallFailed(init);
      if Sum(init) != 0 {
        var i :| 0 <= i < |init| && init[i] != 0;
        assert codes[i] != 0;
      }
      if Sum(codes) == 0 {
        forall i | 0 <= i < |codes| ensures codes[i] == 0 {
          if i < |init| {
            assert init[i] == codes[i];
          }
        }
      }
    }
  }

  /** `syscall.BytePtrFromString` fails on a string holding a NUL byte. */
  predicate HasNul(s: string) {
    '\0' in s
  }

  /** The outcomes of the oracle calls made by one `PosixSpawn`. */
  datatype SpawnOracle = SpawnOracle(
    exe: string,                      // os.Executable (its error is ignored)
    attrInit: int,                    // posix_spawnattr_init
    setFlags: int,                    // posix_spawnattr_setflags
    actionsInit: int,                 // posix_spawn_file_actions_init
    add0: int, add1: int, add2: int,  // the three posix_spawn_file_actions_adddup2
    getwdOk: bool,                    // os.Getwd
    enterOk: bool,                    // __pthread_chdir(Dir)
    restoreOk: bool,                  // __pthread_chdir(original directory)
    spawnRet: int,                    // posix_spawnp
    pid: int)                         // the pid posix_spawnp stores

  /** The fields of a `Cmd` that `PosixSpawn` reads. */
  datatype Request = Request(
    path: string,
    args: seq<string>,
    env: seq<string>,
    dir: string,
    attr: Option<SysProcAttr>,
    childFiles: seq<File>)

  /** Every setup call before the spawn returned 0 and Dir is a valid C string. */
  predicate SetupSucceeds(r: Request, k: SpawnOracle) {
    k.attrInit == 0 && k.setFlags == 0 && k.actionsInit == 0
    && Sum([k.add0, k.add1, k.add2]) == 0 && !HasNul(r.dir)
  }

  /** The `posix_spawnp` call a request leads to, made in directory `cwd`. */
  function PlannedCall(r: Request, exe: string, cwd: string): SpawnCall
    requires |r.childFiles| >= 3
  {
    var t := SpawnTarget(r.path, r.args, r.attr, exe);
    SpawnCall(t.path, t.argv, r.env, SpawnFlags(r.attr), Pgroup(r.attr),
              FileActions(r.childFiles, NeedSpawnHelper(r.attr)), cwd)
  }

  /** On the helper branch `Path` is not passed on: two commands that differ
      only in `Path` make the same `posix_spawnp` call, and the original
      program is found again from `Args[0]` in the second phase. */
  lemma HelperBranchIgnoresPath(r: Request, otherPath: string, exe: string, cwd: string)
    requires |r.childFiles| >= 3 && NeedSpawnHelper(r.attr)
    ensures PlannedCall(r.(path := otherPath), exe, cwd) == PlannedCall(r, exe, cwd)
    ensures PlannedCall(r, exe, cwd).argv[3..] == r.args
  {
  }

  /** Only descriptors 0, 1 and 2 are set up in the child: no file action
      maps an extra file to descriptor `3 + i`, so each ExtraFiles entry is
      inherited under its own descriptor number (its FD_CLOEXEC cleared). */
  lemma ExtraFilesNotRemapped(r: Request, exe: string, cwd: string)
    requires |r.childFiles| >= 3
    ensures forall a :: a in PlannedCall(r, exe, cwd).actions ==> 0 <= a.dst < 3
  {
  }

  /** The directory `wrapChdir` restores: what `os.Getwd` returned, or "" when it failed. */
  function SavedCwd(h: HostState, k: SpawnOracle): string {
    if k.getwdOk then h.cwd else ""
  }

  /** A `posix_spawnp` with POSIX_SPAWN_SETEXEC that succeeds replaces the
      calling process image: it never returns, so nothing after it runs. */
  predicate ReplacesImage(flags: bv16, spawnRet: int) {
    flags & SetExecFlag != 0 && spawnRet == 0
  }

  /** The thread's directory while `posix_spawnp` runs. */
  function SpawnCwd(h: HostState, r: Request, k: SpawnOracle): string {
    if k.enterOk then r.dir else h.cwd
  }

  /** `wrapChdir` around `posix_spawnp`: switch to `dir`, spawn `call`, and
      (unless the spawn replaced the process image) switch back to the saved
      directory. */
  function AroundSpawn(h: HostState, dir: string, call: SpawnCall, k: SpawnOracle): HostState {
    var during := if k.enterOk then dir else h.cwd;
    var saved := SavedCwd(h, k);
    if ReplacesImage(call.flags, k.spawnRet) then
      h.(cwd := during, trace := h.trace + [Chdir(dir), Spawn(call)])
    else
      h.(cwd := if k.restoreOk then saved else during,
         trace := h.trace + [Chdir(dir), Spawn(call), Chdir(saved)])
  }

  /** `PosixSpawn` as a function of the host state before it: the host state
      after it and the error it returns. */
  function PosixSpawnSpec(h: HostState, r: Request, k: SpawnOracle): (HostState, Option<Error>)
    requires |r.childFiles| >= 3
  {
    if k.attrInit != 0 then (h, Some(AttrInitFailed(k.attrInit)))
    else if k.setFlags != 0 then (h, Some(SetFlagsFailed(k.setFlags)))
    else
      var h1 := h.(cloexec := h.cloexec - FdSet(r.childFiles));
      if k.actionsInit != 0 then (h1, Some(FileActionsInitFailed(k.actionsInit)))
      else if Sum([k.add0, k.add1, k.add2]) != 0 then (h1, Some(FileActionsAddFailed(Sum([k.add0, k.add1, k.add2]))))
      else if HasNul(r.dir) then (h1, Some(DirInvalid))
      else
        (AroundSpawn(h1, r.dir, PlannedCall(r, k.exe, SpawnCwd(h, r, k)), k),
         if k.spawnRet != 0 then Some(SpawnFailed(k.spawnRet)) else None)
  }

  /** `posix_spawnp` is reached only when every setup call succeeded. It
      comes after the switch to Dir, and whenever it returns it is followed by
      the switch back; a successful SETEXEC spawn is the last call, because
      the process image is gone. `PosixSpawn` succeeds exactly when it
      returns 0. */
  lemma SpawnIsBracketedByChdir(h: HostState, r: Request, k: SpawnOracle)
    requires |r.childFiles| >= 3
    ensures var (h', e) := PosixSpawnSpec(h, r, k);
      var spawn := Spawn(PlannedCall(r, k.exe, SpawnCwd(h, r, k)));
      && (SetupSucceeds(r, k) && !ReplacesImage(SpawnFlags(r.attr), k.spawnRet) ==>
            h'.trace == h.trace + [Chdir(r.dir), spawn, Chdir(SavedCwd(h, k))])
      && (SetupSucceeds(r, k) && ReplacesImage(SpawnFlags(r.attr), k.spawnRet) ==>
            h'.trace == h.trace + [Chdir(r.dir), spawn])
      && (!SetupSucceeds(r, k) ==> h'.trace == h.trace && e.Some?)
      && (e.None? <==> SetupSucceeds(r, k) && k.spawnRet == 0)
  {
  }

  /** For the second phase (`Chroot == "exec"`): once the setup succeeded,
      the restoring chdir follows the spawn only when the spawn failed. */
  lemma SetExecSpawnTrace(h: HostState, r: Request, k: SpawnOracle)
    requires |r.childFiles| >= 3 && IsSpawnHelper(r.attr) && SetupSucceeds(r, k)
    ensures PosixSpawnSpec(h, r, k).0.trace ==
      h.trace + [Chdir(r.dir), Spawn(PlannedCall(r, k.exe, SpawnCwd(h, r, k)))]
      + (if k.spawnRet == 0 then [] else [Chdir(SavedCwd(h, k))])
  {
    var call := PlannedCall(r, k.exe, SpawnCwd(h, r, k));
    assert call.flags & SetExecFlag != 0;
  }

  /** Whenever `os.Getwd` and the restoring `__pthread_chdir` succeed, the
      caller's directory is the same afterwards on every path on which
      `posix_spawnp` returns. After a successful SETEXEC spawn the replaced
      image keeps the directory the spawn ran in. */
  lemma CwdRestored(h: HostState, r: Request, k: SpawnOracle)
    requires |r.childFiles| >= 3
    requires k.getwdOk && k.restoreOk
    ensures PosixSpawnSpec(h, r, k).0.cwd ==
      if SetupSucceeds(r, k) && ReplacesImage(SpawnFlags(r.attr), k.spawnRet) then SpawnCwd(h, r, k) else h.cwd
  {
  }

  /** FD_CLOEXEC is cleared on every child file (and on nothing else) once
      the attributes are set up. Before that nothing is cleared. */
  lemma CloexecClearedOnChildFiles(h: HostState, r: Request, k: SpawnOracle)
    requires |r.childFiles| >= 3
    ensures var h' := PosixSpawnSpec(h, r, k).0;
      h'.cloexec == if k.attrInit == 0 && k.setFlags == 0 then h.cloexec - FdSet(r.childFiles) else h.cloexec
  {
  }

  /** The decision `Start` makes before building the child files. */
  datatype Gate = Proceed | Reject(err: Error, closeAll: bool)

  /** `lookPathErr` after the first statement of `Start`. */
  function StartLookPathErr(path: string, lookPathErr: Option<Error>): Option<Error> {
    if path == "" && lookPathErr.None? then Some(NoCommand) else lookPathErr
  }

  /** The guards of `Start`, in source order. */
  function StartGate(path: string, lookPathErr: Option<Error>, process: Option<Process>, ctx: Option<Context>): (g: Gate)
    ensures path == "" && lookPathErr.None? ==> g == Reject(NoCommand, true)
    ensures lookPathErr.Some? ==> g == Reject(lookPathErr.value, true)
    ensures g == Reject(AlreadyStarted, false) <==> path != "" && lookPathErr.None? && process.Some?
    ensures path != "" && lookPathErr.None? && process.None? && ctx.Some? && ctx.value.doneErr.Some?
            ==> g == Reject(ContextDone(ctx.value.doneErr.value), true)
    ensures g.Proceed? <==> path != "" && lookPathErr.None? && process.None? && !(ctx.Some? && ctx.value.doneErr.Some?)
  {
    var lpe := StartLookPathErr(path, lookPathErr);
    if lpe.Some? then Reject(lpe.value, true)
    else if process.Some? then Reject(AlreadyStarted, false)
    else if ctx.Some? && ctx.value.doneErr.Some? then Reject(ContextDone(ctx.value.doneErr.value), true)
    else Proceed
  }

  /** The outcome of setting up one standard stream: the file the child
      gets and the closers registered for after start and after wait. */
  datatype StdioSetup = Ready(file: File, afterStart: seq<CloserId>, afterWait: seq<CloserId>) | SetupFailed(msg: string)

  /** `os/exec` uses an `*os.File` stream directly, registering nothing;
      any other stream is opened (null device or pipe) as `supplied` says. */
  function Direct(s: Stream, supplied: StdioSetup): (r: StdioSetup)
    ensures s.OsFile? ==> r.Ready? && r.file == s.file && r.afterStart == [] && r.afterWait == []
    ensures !s.OsFile? ==> r == supplied
  {
    if s.OsFile? then Ready(s.file, [], []) else supplied
  }

  /** The setups of stdin, stdout and stderr. Stderr equal to a non-nil
      Stdout shares stdout's child file. */
  function ResolveStdio(stdin: Stream, stdout: Stream, stderr: Stream, supplied: seq<StdioSetup>): (rs: seq<StdioSetup>)
    requires |supplied| == 3
    ensures |rs| == 3
    ensures rs[0] == Direct(stdin, supplied[0]) && rs[1] == Direct(stdout, supplied[1])
    ensures stderr != Unset && stderr == stdout && rs[1].Ready? ==> rs[2] == Ready(rs[1].file, [], [])
    ensures !(stderr != Unset && stderr == stdout && rs[1].Ready?) ==> rs[2] == Direct(stderr, supplied[2])
  {
    var s0 := Direct(stdin, supplied[0]);
    var s1 := Direct(stdout, supplied[1]);
    var s2 := if stderr != Unset && stderr == stdout && s1.Ready? then Ready(s1.file, [], []) else Direct(stderr, supplied[2]);
    [s0, s1, s2]
  }

  /** Index of the first failed setup, or the length when none failed. */
  function FirstFailed(rs: seq<StdioSetup>): (j: nat)
    ensures j <= |rs|
    ensures forall i :: 0 <= i < j ==> rs[i].Ready?
    ensures j < |rs| ==> rs[j].SetupFailed?
  {
    if rs == [] then 0 else if rs[0].SetupFailed? then 0 else 1 + FirstFailed(rs[1..])
  }

  predicate AllReady(rs: seq<StdioSetup>) {
    forall i :: 0 <= i < |rs| ==> rs[i].Ready?
  }

  function FilesOf(rs: seq<StdioSetup>): seq<File>
    requires AllReady(rs)
  {
    if rs == [] then [] else FilesOf(rs[..|rs| - 1]) + [rs[|rs| - 1].file]
  }

  function StartClosersOf(rs: seq<StdioSetup>): seq<CloserId>
    requires AllReady(rs)
  {
    if rs == [] then [] else StartClosersOf(rs[..|rs| - 1]) + rs[|rs| - 1].afterStart
  }

  function WaitClosersOf(rs: seq<StdioSetup>): seq<CloserId>
    requires AllReady(rs)
  {
    if rs == [] then [] else WaitClosersOf(rs[..|rs| - 1]) + rs[|rs| - 1].afterWait
  }

  /** The files of the ready setups, one per setup and in order. */
  lemma {:induction false} FilesOfLayout(rs: seq<StdioSetup>)
    requires AllReady(rs)
    ensures |FilesOf(rs)| == |rs|
    ensures forall i :: 0 <= i < |rs| ==> FilesOf(rs)[i] == rs[i].file
  {
    if rs != [] {
      FilesOfLayout(rs[..|rs| - 1]);
    }
  }

  /** `childFiles` is stdin's, stdout's and stderr's file, then ExtraFiles
      in order, so the list entry at index `3 + i` is `ExtraFiles[i]`. This
      is a position in the list, not the descriptor the child sees. */
  lemma ChildFilesLayout(rs: seq<StdioSetup>, extra: seq<File>)
    requires |rs| == 3 && AllReady(rs)
    ensures var cf := FilesOf(rs) + extra;
      && |cf| == 3 + |extra|
      && cf[0] == rs[0].file && cf[1] == rs[1].file && cf[2] == rs[2].file
      && cf[3..] == extra
  {
    FilesOfLayout(rs);
  }

  /** When stderr is the same sink as stdout, the child's descriptors 1 and 2
      are the same file and stderr registers no closer of its own. */
  lemma StderrSharesStdout(stdin: Stream, stdout: Stream, supplied: seq<StdioSetup>)
    requires |supplied| == 3 && stdout != Unset
    requires Direct(stdout, supplied[1]).Ready?
    ensures var rs := ResolveStdio(stdin, stdout, stdout, supplied);
      rs[2] == Ready(rs[1].file, [], [])
  {
  }

  /** When all three streams are the same `*os.File`, each is used directly
      and nothing is opened or registered, so the first three child files
      are that file three times. */
  lemma AllStreamsOneFile(f: File, supplied: seq<StdioSetup>)
    requires |supplied| == 3
    ensures var rs := ResolveStdio(OsFile(f), OsFile(f), OsFile(f), supplied);
      && FirstFailed(rs) == 3
      && FilesOf(rs) == [f, f, f]
      && StartClosersOf(rs) == [] && WaitClosersOf(rs) == []
  {
    var rs := ResolveStdio(OsFile(f), OsFile(f), OsFile(f), supplied);
    assert rs == [Ready(f, [], []), Ready(f, [], []), Ready(f, [], [])];
    assert FirstFailed(rs[2..]) == 1;
    assert FirstFailed(rs[1..]) == 2;
    FilesOfLayout(rs);
    var r2, r1 := rs[..2], rs[..1];
    assert r1[..0] == [];
    assert StartClosersOf(r1) == [];
    assert WaitClosersOf(r1) == [];
    assert r2[..1] == r1;
    assert StartClosersOf(r2) == [];
    assert WaitClosersOf(r2) == [];
    assert rs[..2] == r2;
  }

  /** `exec.Command`'s rule for when it calls `LookPath`: `filepath.Base(name) == name`. */
  predicate LooksUp(name: string) {
    name == "/" || (name != "" && '/' !in name)
  }

  class Cmd {
    var path: string
    var args: seq<string>
    /** nil is `None`; a nil Env means "the current environment". */
    var env: Option<seq<string>>
    var dir: string
    var stdin: Stream
    var stdout: Stream
    var stderr: Stream
    var extraFiles: seq<File>
    var sysProcAttr: Option<SysProcAttr>
    var process: Option<Process>
    var ctx: Option<Context>
    var lookPathErr: Option<Error>
    var childFiles: seq<File>
    var closeAfterStart: seq<CloserId>
    var closeAfterWait: seq<CloserId>
    /** The closers closed so far. */
    ghost var closed: set<CloserId>

    /** Every field other than Path, Args and lookPathErr at its zero value. */
    ghost predicate Pristine()
      reads this
    {
      env.None? && dir == "" && stdin == Unset && stdout == Unset && stderr == Unset
      && extraFiles == [] && sysProcAttr.None? && process.None? && ctx.None?
      && childFiles == [] && closeAfterStart == [] && closeAfterWait == [] && closed == {}
    }

    /** The values `PosixSpawn` reads. */
    function Req(): Request
      reads this`path, this`args, this`env, this`dir, this`sysProcAttr, this`childFiles
    {
      Request(path, args, env.GetOr([]), dir, sysProcAttr, childFiles)
    }

    /** `exec.Command(name, arg...)`; `lookPath` is the outcome of `LookPath(name)`. */
    constructor Command(name: string, arg: seq<string>, lookPath: Result<string, string>)
      ensures args == [name] + arg
      ensures path == if LooksUp(name) && lookPath.Ok? then lookPath.value else name
      ensures lookPathErr == if LooksUp(name) && lookPath.Err? then Some(LookPathFailed(lookPath.error)) else None
      ensures Pristine()
    {
      path := name;
      args := [name] + arg;
      env := None;
      dir := "";
      stdin, stdout, stderr := Unset, Unset, Unset;
      extraFiles := [];
      sysProcAttr := None;
      process := None;
      ctx := None;
      lookPathErr := None;
      childFiles := [];
      closeAfterStart, closeAfterWait := [], [];
      closed := {};
      if LooksUp(name) {
        match lookPath
        case Ok(lp) => path := lp;
        case Err(e) => lookPathErr := Some(LookPathFailed(e));
      }
    }

    /** `closeDescriptors`: closes every closer in the list. */
    method CloseDescriptors(closers: seq<CloserId>)
      modifies this`closed
      ensures closed == old(closed) + Elems(closers)
    {
      closed := closed + Elems(closers);
    }

    /** The loop of `Start` over the stdin, stdout and stderr setups: it
        appends each child file and the closers it registers, and stops at
        the first failure, whose message it returns. */
    method SetupChildFiles(rs: seq<StdioSetup>) returns (failure: Option<string>)
      requires |rs| == 3
      modifies this`childFiles, this`closeAfterStart, this`closeAfterWait
      ensures var j := FirstFailed(rs);
        && childFiles == FilesOf(rs[..j])
        && closeAfterStart == old(closeAfterStart) + StartClosersOf(rs[..j])
        && closeAfterWait == old(closeAfterWait) + WaitClosersOf(rs[..j])
        && (j < 3 ==> failure == Some(rs[j].msg))
        && (j == 3 ==> failure.None?)
    {
      childFiles := [];
      var i := 0;
      while i < 3
        invariant 0 <= i <= 3
        invariant forall j :: 0 <= j < i ==> rs[j].Ready?
        invariant AllReady(rs[..i])
        invariant childFiles == FilesOf(rs[..i])
        invariant closeAfterStart == old(closeAfterStart) + StartClosersOf(rs[..i])
        invariant closeAfterWait == old(closeAfterWait) + WaitClosersOf(rs[..i])
      {
        assert rs[..i + 1][..i] == rs[..i];
        match rs[i]
        case SetupFailed(msg) =>
          assert FirstFailed(rs) == i;
          return Some(msg);
        case Ready(f, cs, cw) =>
          closeAfterStart := closeAfterStart + cs;
          closeAfterWait := closeAfterWait + cw;
          childFiles := childFiles + [f];
        i := i + 1;
      }
      assert rs[..3] == rs;
      assert FirstFailed(rs) == 3;
      return None;
    }

    /** `Cmd.Start`. `environ` is `syscall.Environ()`, `supplied` the outcome of
        opening the null device or a pipe for each of the three streams that
        is not an `*os.File`, `k` the outcomes of the calls `PosixSpawn` makes. */
    method Start(host: Host, environ: seq<string>, supplied: seq<StdioSetup>, k: SpawnOracle) returns (err: Option<Error>)
      requires |supplied| == 3
      modifies this, host
      ensures path == old(path) && args == old(args) && dir == old(dir)
      ensures stdin == old(stdin) && stdout == old(stdout) && stderr == old(stderr)
      ensures extraFiles == old(extraFiles) && sysProcAttr == old(sysProcAttr) && ctx == old(ctx)
      ensures lookPathErr == StartLookPathErr(old(path), old(lookPathErr))
      ensures var g := StartGate(old(path), old(lookPathErr), old(process), old(ctx));
        g.Reject? ==>
          && err == Some(g.err)
          && closed == old(closed) + (if g.closeAll then Elems(old(closeAfterStart)) + Elems(old(closeAfterWait)) else {})
          && process == old(process) && env == old(env) && childFiles == old(childFiles)
          && closeAfterStart == old(closeAfterStart) && closeAfterWait == old(closeAfterWait)
          && host.State() == old(host.State())
      ensures var g := StartGate(old(path), old(lookPathErr), old(process), old(ctx));
        var rs := ResolveStdio(old(stdin), old(stdout), old(stderr), supplied);
        var j := FirstFailed(rs);
        g.Proceed? && j < 3 ==>
          && err == Some(StdioFailed(rs[j].msg))
          && childFiles == FilesOf(rs[..j])
          && closeAfterStart == old(closeAfterStart) + StartClosersOf(rs[..j])
          && closeAfterWait == old(closeAfterWait) + WaitClosersOf(rs[..j])
          && closed == old(closed) + Elems(closeAfterStart) + Elems(closeAfterWait)
          && process == old(process) && env == old(env)
          && host.State() == old(host.State())
      ensures var g := StartGate(old(path), old(lookPathErr), old(process), old(ctx));
        var rs := ResolveStdio(old(stdin), old(stdout), old(stderr), supplied);
        g.Proceed? && FirstFailed(rs) == 3 ==>
          && childFiles == FilesOf(rs) + old(extraFiles)
          && closeAfterStart == old(closeAfterStart) + StartClosersOf(rs)
          && closeAfterWait == old(closeAfterWait) + WaitClosersOf(rs)
          && env == Some(old(env).GetOr(environ))
          && |childFiles| >= 3
          && (host.State(), err) == PosixSpawnSpec(old(host.State()), Req(), k)
          && process == (if err.None? then Some(Process(k.pid)) else old(process))
          && closed == old(closed) + Elems(closeAfterStart) + (if err.None? then {} else Elems(closeAfterWait))
    {
      if path == "" && lookPathErr.None? {
        lookPathErr := Some(NoCommand);
      }
      if lookPathErr.Some? {
        CloseDescriptors(closeAfterStart);
        CloseDescriptors(closeAfterWait);
        return Some(lookPathErr.value);
      }
      if process.Some? {
        return Some(AlreadyStarted);
      }
      if ctx.Some? && ctx.value.doneErr.Some? {
        CloseDescriptors(closeAfterStart);
        CloseDescriptors(closeAfterWait);
        return Some(ContextDone(ctx.value.doneErr.value));
      }

      var rs := ResolveStdio(stdin, stdout, stderr, supplied);
      err := Launch(host, environ, rs, k);
    }

    /** The part of `Start` after its guards, given the setups `rs` of the
        three standard streams: the child files, the default environment,
        the spawn, and the closers closed on each outcome. */
    method Launch(host: Host, environ: seq<string>, rs: seq<StdioSetup>, k: SpawnOracle) returns (err: Option<Error>)
      requires |rs| == 3
      modifies this`childFiles, this`closeAfterStart, this`closeAfterWait, this`closed, this`env, this`process, host
      ensures var j := FirstFailed(rs);
        j < 3 ==>
          && err == Some(StdioFailed(rs[j].msg))
          && childFiles == FilesOf(rs[..j])
          && closeAfterStart == old(closeAfterStart) + StartClosersOf(rs[..j])
          && closeAfterWait == old(closeAfterWait) + WaitClosersOf(rs[..j])
          && closed == old(closed) + Elems(closeAfterStart) + Elems(closeAfterWait)
          && process == old(process) && env == old(env)
          && host.State() == old(host.State())
      ensures FirstFailed(rs) == 3 ==>
          && childFiles == FilesOf(rs) + extraFiles
          && closeAfterStart == old(closeAfterStart) + StartClosersOf(rs)
          && closeAfterWait == old(closeAfterWait) + WaitClosersOf(rs)
          && env == Some(old(env).GetOr(environ))
          && |childFiles| >= 3
          && (host.State(), err) == PosixSpawnSpec(old(host.State()), Req(), k)
          && process == (if err.None? then Some(Process(k.pid)) else old(process))
          && closed == old(closed) + Elems(closeAfterStart) + (if err.None? then {} else Elems(closeAfterWait))
    {
      var failure := SetupChildFiles(rs);
      if failure.Some? {
        CloseDescriptors(closeAfterStart);
        CloseDescriptors(closeAfterWait);
        return Some(StdioFailed(failure.value));
      }
      assert rs[..3] == rs;
      childFiles := childFiles + extraFiles;
      ChildFilesLayout(rs, extraFiles);

      if env.None? {
        env := Some(environ);
      }

      err := PosixSpawn(this, host, k);
      ghost var r, hs := Req(), host.State();

      if err.Some? {
        CloseDescriptors(closeAfterStart);
        CloseDescriptors(closeAfterWait);
        assert Req() == r && host.State() == hs;
        return;
      }
      CloseDescriptors(closeAfterStart);
      assert Req() == r && host.State() == hs;
    }
  }

  /** The flag word, built bit by bit as `spflags |=` does, and the
      process group given to `posix_spawnattr_setpgroup`. */
  method BuildSpawnFlags(attr: Option<SysProcAttr>) returns (spflags: bv16, pgroup: Option<int>)
    ensures spflags == SpawnFlags(attr) && pgroup == Pgroup(attr)
  {
    spflags := 0;
    pgroup := None;
    if attr.Some? && attr.value.setsid {
      spflags := spflags | SetSidFlag;
    }
    if attr.Some? && attr.value.setpgid {
      spflags := spflags | SetPgroupFlag;
      pgroup := Some(attr.value.pgid);
    }
    if attr.Some? && attr.value.chroot == "exec" {
      spflags := spflags | SetExecFlag;
    }
  }

  /** The loop that clears FD_CLOEXEC on every child file. */
  method ClearCloexecOnAll(host: Host, files: seq<File>)
    modifies host
    ensures host.State() == old(host.State()).(cloexec := old(host.cloexec) - FdSet(files))
  {
    var i := 0;
    while i < |files|
      invariant 0 <= i <= |files|
      invariant host.State() == old(host.State()).(cloexec := old(host.cloexec) - FdSet(files[..i]))
    {
      assert FdSet(files[..i + 1]) == FdSet(files[..i]) + {files[i].fd} by {
        assert forall j :: 0 <= j < i ==> files[..i + 1][j] == files[..i][j];
      }
      host.ClearCloexec(files[i].fd);
      i := i + 1;
    }
    assert files[..|files|] == files;
  }

  /** The three `posix_spawn_file_actions_adddup2` calls and the running
      total of their return codes. */
  method AddDup2Actions(files: seq<File>, needSpawnHelper: bool, k: SpawnOracle) returns (actions: seq<Dup2>, retval: int)
    requires |files| >= 3
    ensures actions == FileActions(files, needSpawnHelper)
    ensures retval == Sum([k.add0, k.add1, k.add2])
  {
    var stdinF, stdoutF, stderrF := files[0], files[1], files[2];
    retval := 0;
    actions := [];
    if !needSpawnHelper {
      retval := retval + k.add0;
      actions := actions + [Dup2(stdinF.fd, 0)];
      retval := retval + k.add1;
      actions := actions + [Dup2(stdoutF.fd, 1)];
      retval := retval + k.add2;
      actions := actions + [Dup2(stderrF.fd, 2)];
    } else {
      // the helper gets this process's own standard streams
      retval := retval + k.add0;
      actions := actions + [Dup2(StdinFd, 0)];
      retval := retval + k.add1;
      actions := actions + [Dup2(StdoutFd, 1)];
      retval := retval + k.add2;
      actions := actions + [Dup2(StderrFd, 2)];
    }
    SumOfThree(k.add0, k.add1, k.add2);
  }

  /** `wrapChdir` around `runPosixSpawn` (`wrapCtty` only calls through):
      save the directory, switch the thread to Dir, spawn, and restore the
      saved directory whenever the spawn returns: it fails, or it succeeds
      without SETEXEC. A successful SETEXEC spawn has replaced the process,
      so no restore follows it (`ReplacesImage`). */
  method WrapChdirSpawn(cmd: Cmd, host: Host, k: SpawnOracle, path: string, argv: seq<string>,
                        envp: seq<string>, flags: bv16, pgroup: Option<int>, actions: seq<Dup2>)
    returns (err: Option<Error>)
    modifies cmd`process, host
    ensures HasNul(cmd.dir) ==> err == Some(DirInvalid) && host.State() == old(host.State()) && cmd.process == old(cmd.process)
    ensures !HasNul(cmd.dir) ==>
      var h0 := old(host.State());
      var during := if k.enterOk then cmd.dir else h0.cwd;
      && host.State() == AroundSpawn(h0, cmd.dir, SpawnCall(path, argv, envp, flags, pgroup, actions, during), k)
      && err == (if k.spawnRet != 0 then Some(SpawnFailed(k.spawnRet)) else None)
      && cmd.process == (if k.spawnRet != 0 then old(cmd.process) else Some(Process(k.pid)))
  {
    var oriCwd := if k.getwdOk then host.cwd else "";
    if HasNul(cmd.dir) {
      return Some(DirInvalid);
    }
    host.PthreadChdir(cmd.dir, k.enterOk);
    // runPosixSpawn
    host.Spawnp(path, argv, envp, flags, pgroup, actions);
    if k.spawnRet != 0 {
      err := Some(SpawnFailed(k.spawnRet));
    } else {
      cmd.process := Some(Process(k.pid));
      err := None;
    }
    // the deferred restore, whose errors are ignored; it never runs once a
    // SETEXEC spawn has replaced the process
    if !(flags & SetExecFlag != 0 && k.spawnRet == 0) {
      host.PthreadChdir(oriCwd, k.restoreOk);
    }
  }

  /** `PosixSpawn`: rewrites the target for the helper relaunch, builds the
      attribute flags and file actions, clears FD_CLOEXEC on the child files,
      and runs `posix_spawnp` inside `wrapChdir`. */
  method PosixSpawn(cmd: Cmd, host: Host, k: SpawnOracle) returns (err: Option<Error>)
    requires |cmd.childFiles| >= 3
    modifies cmd`process, host
    ensures (host.State(), err) == PosixSpawnSpec(old(host.State()), cmd.Req(), k)
    ensures cmd.process == if err.None? then Some(Process(k.pid)) else old(cmd.process)
  {
    ghost var h0, r := host.State(), cmd.Req();
    var path, args, envp := cmd.path, cmd.args, cmd.env.GetOr([]);
    var attr := cmd.sysProcAttr;
    var needSpawnHelper := attr.Some? && attr.value.setctty;
    if needSpawnHelper {
      path := k.exe;
      args := [path, "spawn", Itoa(attr.value.ctty)] + args;
    }
    ghost var t := SpawnTarget(r.path, r.args, r.attr, k.exe);
    assert t == Target(path, args);

    if k.attrInit != 0 {
      return Some(AttrInitFailed(k.attrInit));
    }
    var spflags, pgroup := BuildSpawnFlags(attr);
    if k.setFlags != 0 {
      return Some(SetFlagsFailed(k.setFlags));
    }

    ClearCloexecOnAll(host, cmd.childFiles);
    ghost var h1 := h0.(cloexec := h0.cloexec - FdSet(r.childFiles));
    assert host.State() == h1;

    if k.actionsInit != 0 {
      return Some(FileActionsInitFailed(k.actionsInit));
    }
    var actions, retval := AddDup2Actions(cmd.childFiles, needSpawnHelper, k);
    if retval != 0 {
      return Some(FileActionsAddFailed(retval));
    }
    ghost var during := SpawnCwd(h0, r, k);
    assert PlannedCall(r, k.exe, during) == SpawnCall(path, args, envp, spflags, pgroup, actions, during);

    err := WrapChdirSpawn(cmd, host, k, path, args, envp, spflags, pgroup, actions);
    assert cmd.Req() == r;
  }
}
