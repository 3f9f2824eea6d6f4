/** `sshdog.go`: the listening port and the "exit" watcher on standard input. */
module Sshdog {
  import opened Base
  import opened Text

  /** Go's `int16`. */
  newtype int16 = x: int | -0x8000 <= x < 0x8000

  /** `int16(n)`: keeps the low 16 bits of `n` as a two's-complement value. */
  function ToInt16(n: int): (t: int16)
    ensures (t as int - n) % 0x1_0000 == 0
    ensures -0x8000 <= n < 0x8000 ==> t as int == n
  {
    ((n + 0x8000) % 0x1_0000 - 0x8000) as int16
  }

  const DefaultPort: int16 := 2222

  /** The port given as the first command-line argument, when it parses. */
  function ArgvPort(args: seq<string>): Option<int> {
    if |args| > 1 && Atoi(args[1]).Ok? then Some(Atoi(args[1]).value) else None
  }

  /** The port in the embedded "port" file, white space trimmed, when the file
      exists (`boxPort`) and parses. */
  function ConfigPort(boxPort: Option<string>): Option<int> {
    if boxPort.Some? && Atoi(TrimSpace(boxPort.value)).Ok? then Some(Atoi(TrimSpace(boxPort.value)).value) else None
  }

  /** `getPort`: the command line wins over the configuration file, which
      wins over 2222; a parsed value is truncated to 16 bits. */
  function GetPort(args: seq<string>, boxPort: Option<string>): (p: int16)
    ensures ArgvPort(args).Some? ==> p == ToInt16(ArgvPort(args).value)
    ensures ArgvPort(args).None? && ConfigPort(boxPort).Some? ==> p == ToInt16(ConfigPort(boxPort).value)
    ensures ArgvPort(args).None? && ConfigPort(boxPort).None? ==> p == DefaultPort
  {
    if |args| > 1 && Atoi(args[1]).Ok? then ToInt16(Atoi(args[1]).value)
    else if boxPort.Some? && Atoi(TrimSpace(boxPort.value)).Ok? then ToInt16(Atoi(TrimSpace(boxPort.value)).value)
    else 2222
  }

  /** A port in the 16-bit signed range is returned unchanged. */
  lemma SmallPortKept()
    ensures GetPort(["sshdog", "22"], None) == 22
  {
    assert DigitsValue("22") == 22 by {
      assert "22"[..1] == "2";
    }
  }

  /** A port in the upper half of the TCP range comes back negative. */
  lemma HighPortWraps()
    ensures GetPort(["sshdog", "40000"], None) == -25536
  {
    assert DigitsValue("40000") == 40000 by {
      assert "40000"[..4] == "4000" && "4000"[..3] == "400" && "400"[..2] == "40" && "40"[..1] == "4";
    }
  }

  /** Without an argument the configuration file's port is used, white
      space around it ignored. */
  lemma ConfigPortTrimmed()
    ensures GetPort(["sshdog"], Some(" 8022\n")) == 8022
  {
    assert ArgvPort(["sshdog"]).None?;
    TrimSpaceExample();
    AtoiExample();
    assert ConfigPort(Some(" 8022\n")) == Some(8022);
    assert ToInt16(8022) == 8022;
  }

  lemma TrimSpaceExample()
    ensures TrimSpace(" 8022\n") == "8022"
  {
    TrimLeftExample();
    TrimRightExample();
  }

  lemma TrimLeftExample()
    ensures TrimLeft(" 8022\n") == "8022\n"
  {
    assert " 8022\n" == [' '] + "8022\n";
    TrimLeftSkipsSpace(' ', "8022\n");
    assert "8022\n"[0] == '8' && !IsSpace('8');
  }

  lemma TrimRightExample()
    ensures TrimRight("8022\n") == "8022"
  {
    assert "8022\n" == "8022" + ['\n'];
    TrimRightSkipsSpace("8022", '\n');
    assert "8022"[3] == '2' && !IsSpace('2');
  }

  lemma AtoiExample()
    ensures Atoi("8022") == Ok(8022)
  {
    assert "8022"[0] == '8';
    assert AllDigits("8022");
    assert DigitsValue("8022") == 8022 by {
      assert "8022"[..3] == "802" && "802"[..2] == "80" && "80"[..1] == "8";
    }
  }

  /** When neither source parses the default is used. */
  lemma UnparsablePortsDefault()
    ensures GetPort(["sshdog", "x"], Some("y")) == DefaultPort
  {
    assert !IsDigit('x') && !IsDigit('y') && !IsSpace('y');
    assert "x"[0] == 'x' && "y"[0] == 'y';
    assert !AllDigits("x");
    assert TrimSpace("y") == "y" by {
      assert TrimLeft("y") == "y";
      assert TrimRight("y") == "y";
    }
    assert !AllDigits("y");
  }

  newtype byte = x: int | 0 <= x < 0x100

  /** `[]byte("exit")`. */
  const ExitMark: seq<byte> := [101, 120, 105, 116]

  /** `make([]byte, 4)`. */
  const InitialWindow: seq<byte> := [0, 0, 0, 0]

  /** One `os.Stdin.Read` of a one-byte buffer: a byte, nothing, EOF (with
      whether it came within a second of the start), or another error. */
  datatype ReadResult = Got(b: byte) | Nothing | Eof(early: bool) | Failed

  /** How `readExitInput` ends: it returns, the process exits with a status,
      or the given input runs out while it still waits for more. */
  datatype ExitOutcome = Return | Exit(code: int) | StillReading

  /** `append(lastStr[1:], b)`. */
  function Slide(w: seq<byte>, b: byte): (w': seq<byte>)
    requires |w| == 4
    ensures |w'| == 4 && w'[3] == b && w'[..3] == w[1..]
  {
    w[1..] + [b]
  }

  /** The loop of `readExitInput` over the reads still to come, from window `w`. */
  function ExitSpec(w: seq<byte>, input: seq<ReadResult>): ExitOutcome
    requires |w| == 4
    decreases |input|
  {
    if input == [] then StillReading
    else
      match input[0]
      case Eof(early) => if early then Return else Exit(0)
      case Failed => Exit(1)
      case Got(b) => if Slide(w, b) == ExitMark then Exit(0) else ExitSpec(Slide(w, b), input[1..])
      case Nothing => if w == ExitMark then Exit(0) else ExitSpec(w, input[1..])
  }

  /** The comparison loop: does the window spell "exit"? */
  method MatchesMark(w: seq<byte>) returns (shouldExit: bool)
    requires |w| == 4
    ensures shouldExit <==> w == ExitMark
  {
    shouldExit := true;
    for i := 0 to 4
      invariant shouldExit <==> w[..i] == ExitMark[..i]
    {
      if w[i] != ExitMark[i] {
        shouldExit := false;
      }
      assert w[..i + 1] == w[..i] + [w[i]] && ExitMark[..i + 1] == ExitMark[..i] + [ExitMark[i]];
    }
    assert w[..4] == w && ExitMark[..4] == ExitMark;
  }

  /** `readExitInput`, over a finite run of reads. */
  method ReadExitInput(input: seq<ReadResult>) returns (outcome: ExitOutcome)
    ensures outcome == ExitSpec(InitialWindow, input)
  {
    var lastStr := InitialWindow;
    var i := 0;
    while i < |input|
      invariant 0 <= i <= |input| && |lastStr| == 4
      invariant ExitSpec(InitialWindow, input) == ExitSpec(lastStr, input[i..])
    {
      assert input[i..][1..] == input[i + 1..];
      var r := input[i];
      if r.Eof? || r.Failed? {
        if r.Eof? && r.early {
          return Return;
        }
        if !r.Eof? {
          return Exit(1);
        } else {
          return Exit(0);
        }
      }
      if r.Got? {
        lastStr := lastStr[1..] + [r.b];
      }
      var shouldExit := MatchesMark(lastStr);
      if shouldExit {
        return Exit(0);
      }
      i := i + 1;
    }
    return StillReading;
  }

  /** The bytes the reads delivered, in order. */
  function Bytes(input: seq<ReadResult>): seq<byte> {
    if input == [] then []
    else (if input[0].Got? then [input[0].b] else []) + Bytes(input[1..])
  }

  /** The window after `bs` has been read: the last four of the zero
      padding followed by `bs`. */
  function WindowOf(bs: seq<byte>): (w: seq<byte>)
    ensures |w| == 4
  {
    (InitialWindow + bs)[|bs|..]
  }

  /** With four or more bytes read the window is their last four, and with
      fewer it still starts with a zero byte. */
  lemma WindowIsLastFour(bs: seq<byte>)
    ensures |bs| >= 4 ==> WindowOf(bs) == bs[|bs| - 4..]
    ensures |bs| < 4 ==> WindowOf(bs)[0] == 0
  {
  }

  /** The window matches exactly when the last four bytes read are "exit";
      in particular fewer than four bytes never match. */
  lemma WindowMatchesIffEndsWithExit(bs: seq<byte>)
    ensures WindowOf(bs) == ExitMark <==> |bs| >= 4 && bs[|bs| - 4..] == ExitMark
  {
    WindowIsLastFour(bs);
    if |bs| < 4 {
      assert WindowOf(bs)[0] != ExitMark[0];
    }
  }

  /** Reading one more byte slides the window by that byte. */
  lemma SlideWindowOf(bs: seq<byte>, b: byte)
    ensures Slide(WindowOf(bs), b) == WindowOf(bs + [b])
  {
    assert (InitialWindow + (bs + [b]))[|bs| + 1..] == (InitialWindow + bs)[|bs| + 1..] + [b];
  }

  predicate NoErrors(input: seq<ReadResult>) {
    forall i :: 0 <= i < |input| ==> input[i].Got? || input[i].Nothing?
  }

  lemma NoErrorsTail(input: seq<ReadResult>)
    requires NoErrors(input) && input != []
    ensures NoErrors(input[1..])
  {
    assert forall i :: 0 <= i < |input| - 1 ==> input[1..][i] == input[i + 1];
  }

  /** At some point the window after `pre` and the bytes of `input` read so
      far spells "exit". */
  ghost predicate MarkSeen(pre: seq<byte>, input: seq<ReadResult>) {
    exists i :: 0 <= i <= |input| && WindowOf(pre + Bytes(input[..i])) == ExitMark
  }

  /** The bytes of the first `i` reads are those of the first read, then
      those of the next `i - 1`. */
  lemma BytesOfPrefix(input: seq<ReadResult>, i: nat)
    requires 1 <= i <= |input|
    ensures Bytes(input[..i]) == (if input[0].Got? then [input[0].b] else []) + Bytes(input[1..][..i - 1])
  {
    assert input[..i][1..] == input[1..][..i - 1];
  }

  lemma MarkSeenStep(pre: seq<byte>, input: seq<ReadResult>)
    requires input != []
    ensures var pre' := if input[0].Got? then pre + [input[0].b] else pre;
      MarkSeen(pre, input) <==> WindowOf(pre) == ExitMark || MarkSeen(pre', input[1..])
  {
    var pre' := if input[0].Got? then pre + [input[0].b] else pre;
    assert input[..0] == [] && pre + [] == pre;
    if MarkSeen(pre, input) {
      var i :| 0 <= i <= |input| && WindowOf(pre + Bytes(input[..i])) == ExitMark;
      if i >= 1 {
        BytesOfPrefix(input, i);
        assert pre + Bytes(input[..i]) == pre' + Bytes(input[1..][..i - 1]);
      }
    }
    if MarkSeen(pre', input[1..]) {
      var i :| 0 <= i <= |input[1..]| && WindowOf(pre' + Bytes(input[1..][..i])) == ExitMark;
      BytesOfPrefix(input, i + 1);
      assert pre + Bytes(input[..i + 1]) == pre' + Bytes(input[1..][..i]);
    }
  }

  /** While every read succeeds, the watcher exits (with status 0) exactly
      when the bytes read so far end in "exit" at some point, and otherwise
      keeps reading. */
  lemma {:induction false} ExitIffMarkSeen(pre: seq<byte>, input: seq<ReadResult>)
    requires NoErrors(input) && WindowOf(pre) != ExitMark
    ensures ExitSpec(WindowOf(pre), input) in {Exit(0), StillReading}
    ensures ExitSpec(WindowOf(pre), input) == Exit(0) <==> MarkSeen(pre, input)
    decreases |input|
  {
    if input == [] {
      assert pre + Bytes(input[..0]) == pre;
    } else {
      var r := input[0];
      var pre' := if r.Got? then pre + [r.b] else pre;
      if r.Got? {
        SlideWindowOf(pre, r.b);
      }
      MarkSeenStep(pre, input);
      if WindowOf(pre') == ExitMark {
        assert pre' + Bytes(input[1..][..0]) == pre';
      } else {
        NoErrorsTail(input);
        ExitIffMarkSeen(pre', input[1..]);
      }
    }
  }

  /** From the start: the watcher exits with status 0 on error-free input
      exactly when "exit" has been typed, and never before four bytes. */
  lemma ExitIffTyped(input: seq<ReadResult>)
    requires NoErrors(input)
    ensures ExitSpec(InitialWindow, input) == Exit(0) <==>
      exists i :: 0 <= i <= |input| && |Bytes(input[..i])| >= 4
        && Bytes(input[..i])[|Bytes(input[..i])| - 4..] == ExitMark
  {
    assert WindowOf([]) == InitialWindow;
    assert InitialWindow != ExitMark;
    ExitIffMarkSeen([], input);
    forall i | 0 <= i <= |input|
      ensures WindowOf([] + Bytes(input[..i])) == ExitMark <==>
        |Bytes(input[..i])| >= 4 && Bytes(input[..i])[|Bytes(input[..i])| - 4..] == ExitMark
    {
      assert [] + Bytes(input[..i]) == Bytes(input[..i]);
      WindowMatchesIffEndsWithExit(Bytes(input[..i]));
    }
  }

  /** The first failing read decides the outcome once the watcher gets
      there (the reads before it did not spell "exit"): EOF within the first
      second returns, a later EOF exits with 0, any other error exits with 1. */
  lemma {:induction false} FirstErrorDecides(w: seq<byte>, input: seq<ReadResult>, j: nat)
    requires |w| == 4 && j < |input| && NoErrors(input[..j]) && !(input[j].Got? || input[j].Nothing?)
    requires ExitSpec(w, input[..j]) == StillReading
    ensures ExitSpec(w, input) ==
      match input[j] case Eof(early) => (if early then Return else Exit(0)) case _ => Exit(1)
    decreases j
  {
    if j > 0 {
      assert input[0] == input[..j][0];
      assert input[1..][j - 1] == input[j];
      assert input[1..][..j - 1] == input[..j][1..];
      NoErrorsTail(input[..j]);
      match input[0]
      case Got(b) => FirstErrorDecides(Slide(w, b), input[1..], j - 1);
      case Nothing => FirstErrorDecides(w, input[1..], j - 1);
    }
  }

  /** EOF on the very first read within a second (`./sshdog < /dev/null`)
      stops the watcher without exiting the process. */
  lemma EmptyStdinReturns(rest: seq<ReadResult>)
    ensures ExitSpec(InitialWindow, [Eof(true)] + rest) == Return
  {
  }
}
