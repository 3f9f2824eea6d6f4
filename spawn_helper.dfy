/** `spawn_helper.go`: the second phase of the helper relaunch. The program
    is started again as `[exe, "spawn", ctty] ++ args`; it makes the
    descriptor `ctty` its controlling terminal and then replaces itself with
    the original command through `posix_spawnp` with `POSIX_SPAWN_SETEXEC`. */
module SpawnHelper {
  import opened Base
  import opened Text
  import opened Os
  import opened Exec

  /** What the helper's argv carries: the terminal descriptor and the
      original command line. */
  datatype HelperRequest = HelperRequest(ctty: int, spawnArgs: seq<string>)

  /** `os.Args[2]` is out of range, or it does not parse as an integer. */
  datatype DecodeError = ArgvTooShort | CttyNotANumber

  /** Reading the helper's argv: `Atoi(os.Args[2])` and `os.Args[3:]`. */
  function DecodeHelperArgv(argv: seq<string>): (r: Result<HelperRequest, DecodeError>)
    ensures |argv| < 3 <==> r == Err(ArgvTooShort)
    ensures r == Err(CttyNotANumber) <==> |argv| >= 3 && Atoi(argv[2]).Err?
    ensures r.Ok? ==> Atoi(argv[2]) == Ok(r.value.ctty) && r.value.spawnArgs == argv[3..]
  {
    if |argv| < 3 then Err(ArgvTooShort)
    else
      match Atoi(argv[2])
      case Err(_) => Err(CttyNotANumber)
      case Ok(ctty) => Ok(HelperRequest(ctty, argv[3..]))
  }

  /** Decoding the vector the first phase builds gives back the terminal
      descriptor and the original argv, for every 64-bit descriptor value. */
  lemma DecodeHelperArgvRoundTrip(exe: string, ctty: int, args: seq<string>)
    requires InInt64(ctty)
    ensures DecodeHelperArgv(HelperArgv(exe, ctty, args)) == Ok(HelperRequest(ctty, args))
  {
    var argv := HelperArgv(exe, ctty, args);
    assert argv[2] == Itoa(ctty);
    assert argv[3..] == args;
    AtoiItoa(ctty);
  }

  /** The ctty the first phase passes when the spawn takes the helper branch
      is decoded unchanged by the second phase, with the original argv. */
  lemma HelperBranchDecodes(path: string, args: seq<string>, a: Option<SysProcAttr>, exe: string)
    requires NeedSpawnHelper(a) && InInt64(a.value.ctty)
    ensures DecodeHelperArgv(SpawnTarget(path, args, a, exe).argv) == Ok(HelperRequest(a.value.ctty, args))
  {
    DecodeHelperArgvRoundTrip(exe, a.value.ctty, args);
  }

  /** `tty.Sync()` on `os.NewFile(uintptr(ctty), "tty")`: a negative value
      gives a nil file, whose methods report "invalid argument"; otherwise
      the result of `fsync` (`syncErr`). */
  function SyncError(ctty: int, syncErr: Option<string>): (e: Option<string>)
    ensures ctty < 0 ==> e == Some("invalid argument")
    ensures ctty >= 0 ==> e == syncErr
  {
    if ctty < 0 then Some("invalid argument") else syncErr
  }

  const InappropriateIoctl: string := "inappropriate ioctl for device"

  /** The tty check only fails for an error other than ENOTTY's. */
  predicate TtyFatal(e: Option<string>) {
    e.Some? && !Contains(e.value, InappropriateIoctl)
  }

  /** `setsid` is attempted unless `getsid(0)` reports this process as the
      session leader already. */
  predicate NeedsSetsid(getsid: Option<int>, pid: int) {
    getsid.None? || getsid.value != pid
  }

  /** The system calls the helper makes on the terminal before spawning. */
  function SessionCalls(getsid: Option<int>, pid: int, ctty: int): (calls: seq<Syscall>)
    ensures |calls| >= 1 && calls[|calls| - 1] == SetCtty(ctty)
    ensures NewSession in calls <==> NeedsSetsid(getsid, pid)
  {
    (if NeedsSetsid(getsid, pid) then [NewSession] else []) + [SetCtty(ctty)]
  }

  /** `&syscall.SysProcAttr{Chroot: "exec"}`: the spawn replaces the helper
      and never takes the helper branch again. */
  function Phase2Attr(): (a: SysProcAttr)
    ensures IsSpawnHelper(Some(a)) && !NeedSpawnHelper(Some(a))
    ensures SpawnFlags(Some(a)) == SetExecFlag
    ensures Pgroup(Some(a)).None?
  {
    ZeroAttr.(chroot := "exec")
  }

  /** The outcomes of what the helper asks the system. */
  datatype HelperOracle = HelperOracle(
    syncErr: Option<string>,          // tty.Sync when the descriptor is not negative
    getsid: Option<int>,              // unix.Getsid(0)
    pid: int,                         // unix.Getpid()
    lookPath: Result<string, string>, // exec.LookPath(spawnArgs[0])
    environ: seq<string>,             // syscall.Environ()
    getwd: Option<string>,            // os.Getwd()
    spawn: SpawnOracle)               // the calls PosixSpawn makes

  /** How the helper ends: a runtime panic on a short argv, a `Fatalf`, or
      the process image replaced by the original command. */
  datatype HelperExit =
    | IndexOutOfRange
    | InvalidCtty
    | TtyInvalid(msg: string)
    | UnexpectedExit(err: Error)
    | Replaced

  /** `Cmd.Path` after `exec.Command(name, ...)`. */
  function CommandPath(name: string, lookPath: Result<string, string>): string {
    if LooksUp(name) && lookPath.Ok? then lookPath.value else name
  }

  /** The request the phase-2 `Cmd` hands to `PosixSpawn`: every standard
      stream is the terminal, and there are no extra files. */
  function Phase2Request(ctty: int, spawnArgs: seq<string>, o: HelperOracle): (r: Request)
    requires |spawnArgs| >= 1
    ensures r.childFiles == [File(ctty), File(ctty), File(ctty)]
    ensures r.args == spawnArgs && r.env == o.environ && r.attr == Some(Phase2Attr())
  {
    Request(CommandPath(spawnArgs[0], o.lookPath), spawnArgs, o.environ, o.getwd.GetOr(""),
            Some(Phase2Attr()), [File(ctty), File(ctty), File(ctty)])
  }

  /** `handleSpawnHelper` as a function of the host state before it. */
  function HelperSpec(h: HostState, argv: seq<string>, o: HelperOracle): (HostState, HelperExit) {
    match DecodeHelperArgv(argv)
    case Err(ArgvTooShort) => (h, IndexOutOfRange)
    case Err(CttyNotANumber) => (h, InvalidCtty)
    case Ok(HelperRequest(ctty, spawnArgs)) =>
      var e := SyncError(ctty, o.syncErr);
      if TtyFatal(e) then (h, TtyInvalid(e.value))
      else
        Phase2Spec(h.(trace := h.trace + SessionCalls(o.getsid, o.pid, ctty)), ctty, spawnArgs, o)
  }

  /** The last step of `handleSpawnHelper`: `exec.Command(spawnArgs[0], ...)`
      filled in and run; any return from `Run` is fatal. */
  function Phase2Spec(h: HostState, ctty: int, spawnArgs: seq<string>, o: HelperOracle): (HostState, HelperExit) {
    if spawnArgs == [] then (h, IndexOutOfRange)
    else if LooksUp(spawnArgs[0]) && o.lookPath.Err? then (h, UnexpectedExit(LookPathFailed(o.lookPath.error)))
    else if CommandPath(spawnArgs[0], o.lookPath) == "" then (h, UnexpectedExit(NoCommand))
    else
      var (h2, err) := PosixSpawnSpec(h, Phase2Request(ctty, spawnArgs, o), o.spawn);
      (h2, if err.None? then Replaced else UnexpectedExit(err.value))
  }

  /** The streams are all files, so the null-device/pipe setups are never consulted. */
  const Unconsulted: seq<StdioSetup> := [SetupFailed(""), SetupFailed(""), SetupFailed("")]

  /** `handleSpawnHelper`. */
  method HandleSpawnHelper(argv: seq<string>, host: Host, o: HelperOracle) returns (exit: HelperExit)
    modifies host
    ensures (host.State(), exit) == HelperSpec(old(host.State()), argv, o)
  {
    ghost var h0 := host.State();
    if |argv| < 3 {
      return IndexOutOfRange;
    }
    var parsed := Atoi(argv[2]);
    if parsed.Err? {
      return InvalidCtty;
    }
    var ctty := parsed.value;
    var spawnArgs := argv[3..];

    // checking the tty descriptor
    var syncErr := SyncError(ctty, o.syncErr);
    if syncErr.Some? && !Contains(syncErr.value, InappropriateIoctl) {
      return TtyInvalid(syncErr.value);
    }

    // setting up the tty; neither failure stops the helper
    if o.getsid.None? || o.getsid.value != o.pid {
      host.Setsid();
    }
    host.IoctlSetCtty(ctty);
    assert host.State() == h0.(trace := h0.trace + SessionCalls(o.getsid, o.pid, ctty));

    exit := SpawnOriginal(ctty, spawnArgs, host, o);
  }

  /** `exec.Command(spawnArgs[0], spawnArgs[1:]...)` with Env, Dir, the three
      streams and SysProcAttr filled in. */
  method NewPhase2Cmd(ctty: int, spawnArgs: seq<string>, o: HelperOracle) returns (cmd: Cmd)
    requires |spawnArgs| >= 1
    ensures fresh(cmd)
    ensures cmd.path == CommandPath(spawnArgs[0], o.lookPath) && cmd.args == spawnArgs
    ensures cmd.lookPathErr == if LooksUp(spawnArgs[0]) && o.lookPath.Err? then Some(LookPathFailed(o.lookPath.error)) else None
    ensures cmd.env == Some(o.environ) && cmd.dir == o.getwd.GetOr("")
    ensures cmd.stdin == OsFile(File(ctty)) && cmd.stdout == OsFile(File(ctty)) && cmd.stderr == OsFile(File(ctty))
    ensures cmd.sysProcAttr == Some(Phase2Attr()) && cmd.extraFiles == []
    ensures cmd.process.None? && cmd.ctx.None?
  {
    cmd := new Cmd.Command(spawnArgs[0], spawnArgs[1..], o.lookPath);
    assert [spawnArgs[0]] + spawnArgs[1..] == spawnArgs;
    cmd.env := Some(o.environ);
    cmd.dir := o.getwd.GetOr("");
    var tty := File(ctty);
    cmd.stdin := OsFile(tty);
    cmd.stdout := OsFile(tty);
    cmd.stderr := OsFile(tty);
    cmd.sysProcAttr := Some(Phase2Attr());
  }

  /** Building the phase-2 `Cmd` and running it. */
  method SpawnOriginal(ctty: int, spawnArgs: seq<string>, host: Host, o: HelperOracle) returns (exit: HelperExit)
    modifies host
    ensures (host.State(), exit) == Phase2Spec(old(host.State()), ctty, spawnArgs, o)
  {
    if |spawnArgs| == 0 {
      return IndexOutOfRange;
    }
    var cmd := NewPhase2Cmd(ctty, spawnArgs, o);
    var tty := File(ctty);
    AllStreamsOneFile(tty, Unconsulted);
    assert ResolveStdio(cmd.stdin, cmd.stdout, cmd.stderr, Unconsulted)
        == ResolveStdio(OsFile(tty), OsFile(tty), OsFile(tty), Unconsulted);
    ghost var h0 := host.State();
    ghost var g := StartGate(cmd.path, cmd.lookPathErr, None, None);
    ghost var r := Phase2Request(ctty, spawnArgs, o);
    var err := cmd.Start(host, o.environ, Unconsulted, o.spawn);
    if g.Reject? {
      assert host.State() == h0 && err == Some(g.err);
    } else {
      assert cmd.childFiles == [tty, tty, tty] && cmd.Req() == r;
      assert (host.State(), err) == PosixSpawnSpec(h0, r, o.spawn);
    }
    if err.Some? {
      return UnexpectedExit(err.value);
    }
    return Replaced;
  }

  /** A tty check that fails only with ENOTTY's message does not stop the helper. */
  lemma InappropriateIoctlTolerated(h: HostState, argv: seq<string>, o: HelperOracle, pre: string, post: string)
    requires DecodeHelperArgv(argv).Ok? && DecodeHelperArgv(argv).value.ctty >= 0
    requires o.syncErr == Some(pre + InappropriateIoctl + post)
    ensures !HelperSpec(h, argv, o).1.TtyInvalid?
  {
    var msg := pre + InappropriateIoctl + post;
    ContainsInfix(pre, InappropriateIoctl, post);
  }

  /** The helper dies on the tty check exactly when the argv decodes and the
      sync error exists but does not mention ENOTTY's message anywhere. */
  lemma TtyInvalidIffNotEnotty(h: HostState, argv: seq<string>, o: HelperOracle)
    ensures HelperSpec(h, argv, o).1.TtyInvalid? <==>
      && DecodeHelperArgv(argv).Ok?
      && var e := SyncError(DecodeHelperArgv(argv).value.ctty, o.syncErr);
      && e.Some? && !Occurs(e.value, InappropriateIoctl)
  {
    var d := DecodeHelperArgv(argv);
    if d.Ok? {
      var e := SyncError(d.value.ctty, o.syncErr);
      if e.Some? {
        ContainsIffOccurs(e.value, InappropriateIoctl);
      }
    }
  }

  /** Any string that has `sub` in the middle contains it. */
  lemma {:induction false} ContainsInfix(pre: string, sub: string, post: string)
    ensures Contains(pre + sub + post, sub)
    decreases |pre|
  {
    var s := pre + sub + post;
    if pre == [] {
      assert s[..|sub|] == sub;
    } else {
      assert s[1..] == pre[1..] + sub + post;
      ContainsInfix(pre[1..], sub, post);
    }
  }

  /** Whenever the helper gets as far as `posix_spawnp`, the session calls
      come first, the phase-2 spawn runs the original argv with only
      `POSIX_SPAWN_SETEXEC` set, with the terminal on descriptors 0 to 2,
      and never takes the helper branch again. */
  lemma Phase2SpawnsOriginal(h: HostState, argv: seq<string>, o: HelperOracle)
    requires DecodeHelperArgv(argv).Ok?
    requires var q := DecodeHelperArgv(argv).value;
      && !TtyFatal(SyncError(q.ctty, o.syncErr))
      && q.spawnArgs != [] && !(LooksUp(q.spawnArgs[0]) && o.lookPath.Err?)
      && CommandPath(q.spawnArgs[0], o.lookPath) != ""
      && SetupSucceeds(Phase2Request(q.ctty, q.spawnArgs, o), o.spawn)
    ensures var q := DecodeHelperArgv(argv).value;
      var h' := HelperSpec(h, argv, o).0;
      var call := PlannedCall(Phase2Request(q.ctty, q.spawnArgs, o), o.spawn.exe,
                              if o.spawn.enterOk then o.getwd.GetOr("") else h.cwd);
      && h'.trace == h.trace + SessionCalls(o.getsid, o.pid, q.ctty)
                     + [Chdir(o.getwd.GetOr("")), Spawn(call)]
                     + (if o.spawn.spawnRet == 0 then [] else [Chdir(SavedCwd(h, o.spawn))])
      && call.argv == argv[3..]
      && call.path == CommandPath(argv[3], o.lookPath)
      && call.flags == SetExecFlag
      && call.actions == [Dup2(q.ctty, 0), Dup2(q.ctty, 1), Dup2(q.ctty, 2)]
  {
    var q := DecodeHelperArgv(argv).value;
    var r := Phase2Request(q.ctty, q.spawnArgs, o);
    var h1 := h.(trace := h.trace + SessionCalls(o.getsid, o.pid, q.ctty));
    assert HelperSpec(h, argv, o).0 == PosixSpawnSpec(h1, r, o.spawn).0;
    assert argv[3..][0] == argv[3];
    assert r.dir == o.getwd.GetOr("") && SavedCwd(h1, o.spawn) == SavedCwd(h, o.spawn);
    assert SpawnCwd(h1, r, o.spawn) == if o.spawn.enterOk then o.getwd.GetOr("") else h.cwd;
    SetExecSpawnTrace(h1, r, o.spawn);
  }

  /** `Dir` is what `os.Getwd` reports. When that is the helper's own
      directory, the original command runs in that directory whether or not
      the switch into `Dir` succeeds. The directory is the same afterwards
      when the spawn replaced the helper, or when it returned and the
      restore succeeded. */
  lemma Phase2RunsInHelperDir(h: HostState, argv: seq<string>, o: HelperOracle)
    requires DecodeHelperArgv(argv).Ok?
    requires var q := DecodeHelperArgv(argv).value;
      && !TtyFatal(SyncError(q.ctty, o.syncErr))
      && q.spawnArgs != [] && !(LooksUp(q.spawnArgs[0]) && o.lookPath.Err?)
      && CommandPath(q.spawnArgs[0], o.lookPath) != ""
      && SetupSucceeds(Phase2Request(q.ctty, q.spawnArgs, o), o.spawn)
    requires o.getwd == Some(h.cwd) && o.spawn.getwdOk
    ensures var q := DecodeHelperArgv(argv).value;
      var h' := HelperSpec(h, argv, o).0;
      && Spawn(PlannedCall(Phase2Request(q.ctty, q.spawnArgs, o), o.spawn.exe, h.cwd)) in h'.trace
      && ((o.spawn.spawnRet == 0 || o.spawn.restoreOk) ==> h'.cwd == h.cwd)
  {
    var q := DecodeHelperArgv(argv).value;
    var r := Phase2Request(q.ctty, q.spawnArgs, o);
    var h1 := h.(trace := h.trace + SessionCalls(o.getsid, o.pid, q.ctty));
    assert HelperSpec(h, argv, o).0 == PosixSpawnSpec(h1, r, o.spawn).0;
    assert r.dir == h.cwd && SpawnCwd(h1, r, o.spawn) == h.cwd;
    var call := PlannedCall(r, o.spawn.exe, h.cwd);
    assert call.flags == SetExecFlag;
    var t := PosixSpawnSpec(h1, r, o.spawn).0.trace;
    if o.spawn.spawnRet == 0 {
      assert t == h1.trace + [Chdir(r.dir), Spawn(call)];
      assert t[|t| - 1] == Spawn(call);
    } else {
      assert t == h1.trace + [Chdir(r.dir), Spawn(call), Chdir(SavedCwd(h1, o.spawn))];
      assert t[|t| - 2] == Spawn(call);
    }
  }

  /** The helper ends by replacing itself exactly when the phase-2 spawn succeeds. */
  lemma ReplacedIffSpawnSucceeds(h: HostState, argv: seq<string>, o: HelperOracle)
    ensures HelperSpec(h, argv, o).1 == Replaced <==>
      && DecodeHelperArgv(argv).Ok?
      && var q := DecodeHelperArgv(argv).value;
      && !TtyFatal(SyncError(q.ctty, o.syncErr))
      && q.spawnArgs != [] && !(LooksUp(q.spawnArgs[0]) && o.lookPath.Err?)
      && CommandPath(q.spawnArgs[0], o.lookPath) != ""
      && SetupSucceeds(Phase2Request(q.ctty, q.spawnArgs, o), o.spawn) && o.spawn.spawnRet == 0
  {
    var d := DecodeHelperArgv(argv);
    if d.Ok? {
      var q := d.value;
      if !TtyFatal(SyncError(q.ctty, o.syncErr)) && q.spawnArgs != []
         && !(LooksUp(q.spawnArgs[0]) && o.lookPath.Err?) && CommandPath(q.spawnArgs[0], o.lookPath) != "" {
        var h1 := h.(trace := h.trace + SessionCalls(o.getsid, o.pid, q.ctty));
        SpawnIsBracketedByChdir(h1, Phase2Request(q.ctty, q.spawnArgs, o), o.spawn);
      }
    }
  }
}
