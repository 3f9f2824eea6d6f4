/** The operating system as the launch code sees it. Every system call
    becomes a method of `Host`. The call's outcome is a parameter, and the
    call leaves a record in `trace`. The real kernel, libc and Go runtime
    are not modelled. */
module Os {
  import opened Base

  /** One `posix_spawn_file_actions_adddup2(fa, src, dst)` action. */
  datatype Dup2 = Dup2(src: Fd, dst: Fd)

  /** Everything one `posix_spawnp` call receives: the file to run, argv,
      envp, the attribute flag word, the process group set with
      `posix_spawnattr_setpgroup` (if any), the file actions, and the working
      directory of the calling thread at the moment of the call. */
  datatype SpawnCall = SpawnCall(
    path: string,
    argv: seq<string>,
    envp: seq<string>,
    flags: bv16,
    pgroup: Option<int>,
    actions: seq<Dup2>,
    cwd: string)

  /** The system calls whose order matters to the launch logic. */
  datatype Syscall =
    | Chdir(dir: string)       // __pthread_chdir
    | Spawn(call: SpawnCall)   // posix_spawnp
    | NewSession               // setsid
    | SetCtty(fd: Fd)          // ioctl(fd, TIOCSCTTY, 0)
    | Close(fd: Fd)            // close

  /** A snapshot of the host state, so that specifications can be pure functions. */
  datatype HostState = HostState(cwd: string, cloexec: set<Fd>, trace: seq<Syscall>)

  class Host {
    /** Working directory of the calling OS thread. */
    var cwd: string
    /** Descriptors whose FD_CLOEXEC flag is set. */
    var cloexec: set<Fd>
    /** System calls issued so far, oldest first. */
    var trace: seq<Syscall>

    function State(): HostState
      reads this
    {
      HostState(cwd, cloexec, trace)
    }

    constructor (cwd: string, cloexec: set<Fd>)
      ensures State() == HostState(cwd, cloexec, [])
    {
      this.cwd := cwd;
      this.cloexec := cloexec;
      this.trace := [];
    }

    /** `fcntl(fd, F_SETFD, 0)`: clears FD_CLOEXEC on `fd`. */
    method ClearCloexec(fd: Fd)
      modifies this
      ensures State() == old(State()).(cloexec := old(cloexec) - {fd})
    {
      cloexec := cloexec - {fd};
    }

    /** `__pthread_chdir(dir)`: changes only the calling thread's directory,
        and only when the call succeeds (`ok`). */
    method PthreadChdir(dir: string, ok: bool)
      modifies this
      ensures State() == old(State()).(cwd := if ok then dir else old(cwd),
                                       trace := old(trace) + [Chdir(dir)])
    {
      if ok {
        cwd := dir;
      }
      trace := trace + [Chdir(dir)];
    }

    /** `posix_spawnp`, made in the current directory of the calling thread. */
    method Spawnp(path: string, argv: seq<string>, envp: seq<string>, flags: bv16,
                  pgroup: Option<int>, actions: seq<Dup2>)
      modifies this
      ensures State() == old(State()).(trace := old(trace) + [Spawn(SpawnCall(path, argv, envp, flags, pgroup, actions, old(cwd)))])
    {
      trace := trace + [Spawn(SpawnCall(path, argv, envp, flags, pgroup, actions, cwd))];
    }

    /** `setsid()`. */
    method Setsid()
      modifies this
      ensures State() == old(State()).(trace := old(trace) + [NewSession])
    {
      trace := trace + [NewSession];
    }

    /** `ioctl(fd, TIOCSCTTY, 0)`. */
    method IoctlSetCtty(fd: Fd)
      modifies this
      ensures State() == old(State()).(trace := old(trace) + [SetCtty(fd)])
    {
      trace := trace + [SetCtty(fd)];
    }

    /** `(*os.File).Close()`; its error is ignored by every caller. */
    method CloseFile(fd: Fd)
      modifies this
      ensures State() == old(State()).(trace := old(trace) + [Close(fd)])
    {
      trace := trace + [Close(fd)];
    }
  }
}
