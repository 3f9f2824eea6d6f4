/** The Go string helpers the launch code relies on: `strconv.Itoa`,
    `strconv.Atoi` (decimal, 64-bit `int`), `strings.Contains` and
    `strings.TrimSpace`. Strings are sequences of code points. */
module Text {
  import opened Base

  const MinInt64: int := -0x8000_0000_0000_0000
  const MaxInt64: int := 0x7FFF_FFFF_FFFF_FFFF

  /** Values of Go's 64-bit `int`. */
  predicate InInt64(n: int) {
    MinInt64 <= n <= MaxInt64
  }

  predicate IsDigit(c: char) {
    '0' <= c <= '9'
  }

  predicate AllDigits(s: string) {
    forall i :: 0 <= i < |s| ==> IsDigit(s[i])
  }

  function DigitValue(c: char): nat
    requires IsDigit(c)
  {
    c as int - '0' as int
  }

  function DigitChar(d: nat): (c: char)
    requires d < 10
    ensures IsDigit(c) && DigitValue(c) == d
  {
    ('0' as int + d) as char
  }

  /** Decimal digits of `n`, most significant first, without leading zeros. */
  function NatDigits(n: nat): (s: string)
    ensures |s| >= 1 && AllDigits(s)
    ensures |s| > 1 ==> s[0] != '0'
  {
    if n < 10 then [DigitChar(n)] else NatDigits(n / 10) + [DigitChar(n % 10)]
  }

  /** `strconv.Itoa`: a minus sign for negative values, then the digits. */
  function Itoa(n: int): (s: string)
    ensures |s| >= 1
    ensures s[0] == '-' <==> n < 0
  {
    if n < 0 then "-" + NatDigits(-n) else NatDigits(n)
  }

  /** The value of a run of decimal digits read from left to right. */
  function DigitsValue(s: string): nat
    requires AllDigits(s)
  {
    if s == [] then 0 else DigitsValue(s[..|s| - 1]) * 10 + DigitValue(s[|s| - 1])
  }

  datatype NumError = ErrSyntax | ErrRange

  const MaxUint64: int := 0xFFFF_FFFF_FFFF_FFFF

  /** The longest run of digits at the start of `s`. */
  function DigitPrefix(s: string): (p: string)
    ensures |p| <= |s| && p == s[..|p|] && AllDigits(p)
    ensures |p| < |s| ==> !IsDigit(s[|p|])
    ensures AllDigits(s) ==> p == s
  {
    if s != [] && IsDigit(s[0]) then [s[0]] + DigitPrefix(s[1..]) else []
  }

  /** `strconv.Atoi` in base 10: an optional `+` or `-`, then at least one
      digit. The digits are scanned from the left, and a value that no longer
      fits in 64 unsigned bits is a range error at once, even when a bad
      character follows; otherwise a bad character is a syntax error, and an
      all-digit value outside the signed 64-bit range a range error. */
  function Atoi(s: string): (r: Result<int, NumError>)
    ensures s == [] ==> r == Err(ErrSyntax)
    ensures r.Ok? ==> InInt64(r.value)
    ensures r.Ok? && r.value < 0 ==> s[0] == '-'
  {
    var signed := |s| > 0 && (s[0] == '+' || s[0] == '-');
    var body := if signed then s[1..] else s;
    if body == [] then Err(ErrSyntax)
    else if DigitsValue(DigitPrefix(body)) > MaxUint64 then Err(ErrRange)
    else if !AllDigits(body) then Err(ErrSyntax)
    else
      var d: int := DigitsValue(body);
      var v: int := if signed && s[0] == '-' then 0 - d else d;
      if InInt64(v) then Ok(v) else Err(ErrRange)
  }

  lemma {:induction false} DigitsValueOfNatDigits(n: nat)
    ensures DigitsValue(NatDigits(n)) == n
    decreases n
  {
    var s := NatDigits(n);
    if n >= 10 {
      assert s[..|s| - 1] == NatDigits(n / 10);
      DigitsValueOfNatDigits(n / 10);
    }
  }

  lemma {:induction false} DigitPrefixExtends(p: string, rest: string)
    requires AllDigits(p)
    ensures DigitPrefix(p + rest) == p + DigitPrefix(rest)
    decreases |p|
  {
    if p != [] {
      var s := p + rest;
      assert s[0] == p[0] && IsDigit(s[0]);
      assert DigitPrefix(s) == [s[0]] + DigitPrefix(s[1..]);
      assert s[1..] == p[1..] + rest;
      assert AllDigits(p[1..]) by {
        assert forall i :: 0 <= i < |p| - 1 ==> p[1..][i] == p[i + 1];
      }
      DigitPrefixExtends(p[1..], rest);
      assert [p[0]] + (p[1..] + DigitPrefix(rest)) == p + DigitPrefix(rest);
    } else {
      assert p + rest == rest;
    }
  }

  lemma {:induction false} DigitsValueGrows(p: string, q: string)
    requires AllDigits(p + q)
    ensures AllDigits(p) && DigitsValue(p + q) >= DigitsValue(p)
    decreases |q|
  {
    assert forall i :: 0 <= i < |p| ==> p[i] == (p + q)[i];
    if q != [] {
      var q' := q[..|q| - 1];
      assert (p + q)[..|p + q| - 1] == p + q';
      assert forall i :: 0 <= i < |p + q'| ==> (p + q')[i] == (p + q)[i];
      DigitsValueGrows(p, q');
    } else {
      assert p + q == p;
    }
  }

  /** A run of digits too large for 64 unsigned bits is a range error
      whatever follows it, a bad character included. */
  lemma OverflowIsRangeError(p: string, rest: string)
    requires p != [] && AllDigits(p) && DigitsValue(p) > MaxUint64
    ensures Atoi(p + rest) == Err(ErrRange)
  {
    var s := p + rest;
    assert s[0] == p[0] && IsDigit(s[0]);
    DigitPrefixExtends(p, rest);
    DigitsValueGrows(p, DigitPrefix(rest));
  }

  /** Parsing what `Itoa` prints gives the number back, for every 64-bit int. */
  lemma AtoiItoa(n: int)
    requires InInt64(n)
    ensures Atoi(Itoa(n)) == Ok(n)
  {
    var s := Itoa(n);
    if n < 0 {
      var body := NatDigits(-n);
      assert s == "-" + body && s[0] == '-';
      assert s[1..] == body;
      DigitsValueOfNatDigits(-n);
      assert DigitsValue(body) == -n;
    } else {
      assert s == NatDigits(n) && IsDigit(s[0]);
      DigitsValueOfNatDigits(n);
    }
  }

  predicate HasPrefix(s: string, p: string) {
    |p| <= |s| && s[..|p|] == p
  }

  /** `strings.Contains`: `sub` occurs somewhere in `s`. */
  predicate Contains(s: string, sub: string)
    decreases |s|
  {
    HasPrefix(s, sub) || (|s| > 0 && Contains(s[1..], sub))
  }

  /** `sub` starts at index `i` of `s`. */
  predicate OccursAt(s: string, sub: string, i: int) {
    0 <= i && i + |sub| <= |s| && s[i..i + |sub|] == sub
  }

  /** `sub` occurs in `s` at some index: the reference meaning of `Contains`. */
  ghost predicate Occurs(s: string, sub: string) {
    exists i :: OccursAt(s, sub, i)
  }

  /** The recursive scan finds `sub` exactly when it occurs somewhere. */
  lemma {:induction false} ContainsIffOccurs(s: string, sub: string)
    ensures Contains(s, sub) <==> Occurs(s, sub)
    decreases |s|
  {
    if HasPrefix(s, sub) {
      assert s[0..0 + |sub|] == s[..|sub|];
      assert OccursAt(s, sub, 0);
    } else if |s| > 0 {
      ContainsIffOccurs(s[1..], sub);
      assert Contains(s, sub) == Contains(s[1..], sub);
      if Occurs(s, sub) {
        var i :| OccursAt(s, sub, i);
        OccursInTail(s, sub, i);
      }
      if Occurs(s[1..], sub) {
        var i :| OccursAt(s[1..], sub, i);
        OccursAfterHead(s, sub, i);
      }
    }
  }

  lemma OccursInTail(s: string, sub: string, i: int)
    requires OccursAt(s, sub, i) && !HasPrefix(s, sub)
    ensures OccursAt(s[1..], sub, i - 1)
  {
    assert i != 0 by {
      assert s[0..0 + |sub|] == s[..|sub|];
    }
    assert s[1..][i - 1..i - 1 + |sub|] == s[i..i + |sub|];
  }

  lemma OccursAfterHead(s: string, sub: string, i: int)
    requires |s| > 0 && OccursAt(s[1..], sub, i)
    ensures OccursAt(s, sub, i + 1)
  {
    assert s[i + 1..i + 1 + |sub|] == s[1..][i..i + |sub|];
  }

  /** `unicode.IsSpace`, the test `strings.TrimSpace` uses. */
  predicate IsSpace(c: char) {
    c == '\t' || c == '\n' || c == '\U{000B}' || c == '\U{000C}' || c == '\r' || c == ' '
    || c == '\U{0085}' || c == '\U{00A0}' || c == '\U{1680}'
    || ('\U{2000}' <= c <= '\U{200A}')
    || c == '\U{2028}' || c == '\U{2029}' || c == '\U{202F}' || c == '\U{205F}' || c == '\U{3000}'
  }

  function TrimLeft(s: string): (r: string)
    ensures |r| <= |s| && r == s[|s| - |r|..]
    ensures r == [] || !IsSpace(r[0])
    ensures forall i :: 0 <= i < |s| - |r| ==> IsSpace(s[i])
  {
    if s != [] && IsSpace(s[0]) then
      var t := TrimLeft(s[1..]);
      assert s[1..][|s| - 1 - |t|..] == s[|s| - |t|..];
      assert forall i :: 1 <= i < |s| - |t| ==> s[i] == s[1..][i - 1];
      t
    else s
  }

  function TrimRight(s: string): (r: string)
    ensures |r| <= |s| && r == s[..|r|]
    ensures r == [] || !IsSpace(r[|r| - 1])
    ensures forall i :: |r| <= i < |s| ==> IsSpace(s[i])
  {
    if s != [] && IsSpace(s[|s| - 1]) then
      var t := TrimRight(s[..|s| - 1]);
      assert s[..|s| - 1][..|t|] == s[..|t|];
      assert forall i :: |t| <= i < |s| - 1 ==> s[i] == s[..|s| - 1][i];
      t
    else s
  }

  lemma TrimLeftSkipsSpace(c: char, s: string)
    requires IsSpace(c)
    ensures TrimLeft([c] + s) == TrimLeft(s)
  {
    assert ([c] + s)[1..] == s;
  }

  lemma TrimRightSkipsSpace(s: string, c: char)
    requires IsSpace(c)
    ensures TrimRight(s + [c]) == TrimRight(s)
  {
    assert (s + [c])[..|s|] == s;
  }

  /** Cutting white space off the front of `s` (giving `l`) and then off the
      back of `l` (giving `r`) keeps one slice of `s`, with only white space
      before and after it. */
  lemma {:induction false} TrimmedIsSlice(s: string, l: string, r: string) returns (a: nat, b: nat)
    requires |l| <= |s| && l == s[|s| - |l|..] && forall i :: 0 <= i < |s| - |l| ==> IsSpace(s[i])
    requires |r| <= |l| && r == l[..|r|] && forall i :: |r| <= i < |l| ==> IsSpace(l[i])
    ensures a <= b <= |s| && r == s[a..b]
    ensures forall i :: 0 <= i < a ==> IsSpace(s[i])
    ensures forall i :: b <= i < |s| ==> IsSpace(s[i])
  {
    a := |s| - |l|;
    b := a + |r|;
    assert |l| <= |s| && l == s[a..];
    assert |r| <= |l| && r == l[..|r|];
    forall k | 0 <= k < |r|
      ensures r[k] == s[a..b][k]
    {
      assert r[k] == l[k] == s[a + k];
    }
    assert r == s[a..b];
    forall i | b <= i < |s|
      ensures IsSpace(s[i])
    {
      assert s[i] == l[i - a];
    }
  }

  /** `strings.TrimSpace`: drop leading and trailing white space. */
  function TrimSpace(s: string): (r: string)
    ensures r == [] || (!IsSpace(r[0]) && !IsSpace(r[|r| - 1]))
    ensures forall i :: 0 <= i < |s| && !IsSpace(s[i]) ==> r != []
  {
    var l := TrimLeft(s);
    var r := TrimRight(l);
    assert r != [] ==> r[0] == l[0];
    r
  }

  /** `TrimSpace(s)` is one slice of `s` with only white space cut off
      either side of it. */
  lemma TrimSpaceIsSlice(s: string)
    ensures exists a, b ::
              && 0 <= a <= b <= |s| && TrimSpace(s) == s[a..b]
              && (forall i :: 0 <= i < a ==> IsSpace(s[i]))
              && (forall i :: b <= i < |s| ==> IsSpace(s[i]))
  {
    var l := TrimLeft(s);
    var r := TrimRight(l);
    var a, b := TrimmedIsSlice(s, l, r);
    assert TrimSpace(s) == r;
  }
}
