/** `pty/pty.go`: a master/slave pseudo-terminal pair and how a command is
    attached to it. The allocation itself (`termios.Pty`) is an oracle. */
module Pty {
  import opened Base
  import opened Text
  import opened Os
  import opened Exec
  import opened PtyUnix

  /** `Pty`: the master side (`Pty`) and the slave side (`Tty`). */
  datatype Pty = Pty(pty: File, tty: File)

  /** `OpenPty`; `alloc` is what `termios.Pty()` returned as (master, slave). */
  function OpenPty(alloc: Result<(File, File), string>): (r: Result<Pty, string>)
    ensures alloc.Err? <==> r.Err?
    ensures alloc.Err? ==> r.error == alloc.error
    ensures alloc.Ok? ==> r.value.pty == alloc.value.0 && r.value.tty == alloc.value.1
  {
    match alloc
    case Err(e) => Err(e)
    case Ok((pty, tty)) => Ok(Pty(pty, tty))
  }

  /** `(*Pty).AttachPty`: the command's three streams become the slave side,
      then `attach_pty` marks it as the controlling terminal. */
  method AttachPty(p: Pty, cmd: Cmd)
    modifies cmd`stdin, cmd`stdout, cmd`stderr, cmd`sysProcAttr
    ensures cmd.stdin == OsFile(p.tty) && cmd.stdout == OsFile(p.tty) && cmd.stderr == OsFile(p.tty)
    ensures cmd.sysProcAttr == Some(AttachAttr(old(cmd.sysProcAttr), p.tty))
  {
    cmd.stdout := OsFile(p.tty);
    cmd.stderr := OsFile(p.tty);
    cmd.stdin := OsFile(p.tty);
    var _ := PtyUnix.AttachPty(p.tty, cmd);
  }

  /** For an attached command, the helper relaunch keeps the slave side
      open across the spawn (its FD_CLOEXEC is cleared) and tells the helper
      its number; the helper's own descriptors 0 to 2 are the caller's. */
  lemma AttachedSpawnKeepsTty(p: Pty, h: HostState, r: Request, k: SpawnOracle)
    requires |r.childFiles| >= 3 && r.childFiles[0] == p.tty
    requires r.attr.Some? && r.attr.value.setctty && r.attr.value.ctty == p.tty.fd
    requires k.attrInit == 0 && k.setFlags == 0
    ensures p.tty.fd !in PosixSpawnSpec(h, r, k).0.cloexec
    ensures var call := PlannedCall(r, k.exe, SpawnCwd(h, r, k));
      call.argv[2] == Itoa(p.tty.fd)
      && call.actions == [Dup2(StdinFd, 0), Dup2(StdoutFd, 1), Dup2(StderrFd, 2)]
  {
    assert p.tty.fd in FdSet(r.childFiles);
    CloexecClearedOnChildFiles(h, r, k);
  }

  /** `(*Pty).Resize`: the window is packed as (rows, cols, xpix, ypix) and
      the result is that of `resize_pty`, which is always `Unsupported`. */
  function Resize(p: Pty, rows: uint16, cols: uint16, xpix: uint16, ypix: uint16): (e: Option<PtyError>)
    ensures e == Some(Unsupported)
  {
    ResizePty(p.tty, PtyWindow(rows, cols, xpix, ypix))
  }

  /** `(*Pty).Close`: the slave is closed first, then the master. */
  method Close(p: Pty, host: Host)
    modifies host
    ensures host.State() == old(host.State()).(trace := old(host.trace) + [Os.Close(p.tty.fd), Os.Close(p.pty.fd)])
  {
    host.CloseFile(p.tty.fd);
    host.CloseFile(p.pty.fd);
  }
}
