/** `pty/pty_unix.go`: the darwin part of the pty package. Attaching a
    terminal only records, in `SysProcAttr`, that the child must start a new
    session with the terminal as its controlling tty; resizing is not
    supported. */
module PtyUnix {
  import opened Base
  import opened Text
  import opened Exec
  import opened SpawnHelper

  newtype uint16 = x: int | 0 <= x < 0x1_0000

  /** `ptyWindow`, declared in `pty/pty.go`: the argument of `TIOCSWINSZ`. */
  datatype PtyWindow = PtyWindow(rows: uint16, cols: uint16, xpix: uint16, ypix: uint16)

  /** The package's one error value, `Unsupported`, is
      `errors.New("Unsupported platform")`. A Go `error` result is an
      `Option<PtyError>`, `None` standing for nil. */
  datatype PtyError = Unsupported

  /** The `SysProcAttr` after `attach_pty`: a zero one when there was none,
      then Setsid, Setctty and Ctty set, and every other field kept. */
  function AttachAttr(a: Option<SysProcAttr>, tty: File): (b: SysProcAttr)
    ensures b.setsid && b.setctty && b.ctty == tty.fd
    ensures a.None? ==> b == ZeroAttr.(setsid := true, setctty := true, ctty := tty.fd)
    ensures a.Some? ==> b.chroot == a.value.chroot && b.setpgid == a.value.setpgid && b.pgid == a.value.pgid
                        && b.noctty == a.value.noctty && b.foreground == a.value.foreground
  {
    a.GetOr(ZeroAttr).(setsid := true, setctty := true, ctty := tty.fd)
  }

  /** `attach_pty(tty, cmd)`, which always returns nil. */
  method AttachPty(tty: File, cmd: Cmd) returns (err: Option<PtyError>)
    modifies cmd`sysProcAttr
    ensures cmd.sysProcAttr == Some(AttachAttr(old(cmd.sysProcAttr), tty))
    ensures err.None?
  {
    if cmd.sysProcAttr.None? {
      cmd.sysProcAttr := Some(ZeroAttr);
    }
    var a := cmd.sysProcAttr.value;
    a := a.(setsid := true);
    a := a.(setctty := true);
    a := a.(ctty := tty.fd);
    cmd.sysProcAttr := Some(a);
    return None;
  }

  /** Attaching the same terminal twice is the same as attaching it once. */
  lemma AttachIdempotent(a: Option<SysProcAttr>, tty: File)
    ensures AttachAttr(Some(AttachAttr(a, tty)), tty) == AttachAttr(a, tty)
  {
  }

  /** A command with a terminal attached is launched through the helper: the
      spawn asks for a new session, runs this program with `argv[2]` the
      terminal's descriptor in decimal, and the helper decodes that
      descriptor and the original argv back. */
  lemma AttachedSpawnTakesHelperBranch(a: Option<SysProcAttr>, tty: File, path: string, args: seq<string>, exe: string)
    requires InInt64(tty.fd)
    ensures var b := Some(AttachAttr(a, tty));
      var t := SpawnTarget(path, args, b, exe);
      && NeedSpawnHelper(b)
      && SpawnFlags(b) & SetSidFlag != 0
      && t.path == exe
      && t.argv[2] == Itoa(tty.fd)
      && DecodeHelperArgv(t.argv) == Ok(HelperRequest(tty.fd, args))
  {
    var b := Some(AttachAttr(a, tty));
    HelperBranchDecodes(path, args, b, exe);
  }

  /** `resize_pty`: the window would be set with `TIOCSWINSZ`, but on this
      platform the call is not made and the result is always `Unsupported`. */
  function ResizePty(tty: File, win: PtyWindow): (e: Option<PtyError>)
    ensures e == Some(Unsupported)
  {
    Some(Unsupported)
  }
}
