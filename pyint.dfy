/** Python's `str.strip()`, base-10 `int(text)` and `str(n)`, as the collectors use them to turn
    command output and sensor files into numbers. */
module PyInt {
  import opened Python

  /** The characters `str.strip()` and `int()` treat as whitespace. */
  predicate IsSpace(c: char) {
    var n := c as int;
    (9 <= n <= 13) || (28 <= n <= 32) || n == 0x85 || n == 0xA0 || n == 0x1680
    || (0x2000 <= n <= 0x200A) || n == 0x2028 || n == 0x2029 || n == 0x202F
    || n == 0x205F || n == 0x3000
  }

  predicate IsDigit(c: char) { '0' <= c <= '9' }

  predicate AllSpace(s: string) { forall i :: 0 <= i < |s| ==> IsSpace(s[i]) }

  /** `s.lstrip()`. */
  function TrimStart(s: string): string {
    if |s| > 0 && IsSpace(s[0]) then TrimStart(s[1..]) else s
  }

  /** `s.rstrip()`. */
  function TrimEnd(s: string): string {
    if |s| > 0 && IsSpace(s[|s| - 1]) then TrimEnd(s[..|s| - 1]) else s
  }

  /** What `lstrip()` leaves is a suffix of its argument, only whitespace was dropped, and it
      does not start with whitespace. */
  lemma {:induction false} TrimStartDrops(s: string)
    ensures var r := TrimStart(s);
      |r| <= |s| && r == s[|s| - |r|..] && AllSpace(s[..|s| - |r|]) && (r == [] || !IsSpace(r[0]))
  {
    if |s| > 0 && IsSpace(s[0]) {
      TrimStartDrops(s[1..]);
      var r := TrimStart(s);
      var n := |s| - |r|;
      forall i | 0 <= i < n ensures IsSpace(s[..n][i]) {
        if i > 0 {
          assert s[..n][i] == s[1..][..n - 1][i - 1];
        }
      }
    }
  }

  /** What `rstrip()` leaves is a prefix of its argument, only whitespace was dropped, and it
      does not end with whitespace. */
  lemma {:induction false} TrimEndDrops(s: string)
    ensures var r := TrimEnd(s);
      |r| <= |s| && r == s[..|r|] && AllSpace(s[|r|..]) && (r == [] || !IsSpace(r[|r| - 1]))
  {
    if |s| > 0 && IsSpace(s[|s| - 1]) {
      TrimEndDrops(s[..|s| - 1]);
      var r := TrimEnd(s);
      forall i | 0 <= i < |s| - |r| ensures IsSpace(s[|r|..][i]) {
        if i < |s| - 1 - |r| {
          assert s[|r|..][i] == s[..|s| - 1][|r|..][i];
        }
      }
    }
  }

  /** `s.strip()`. */
  function Strip(s: string): string {
    TrimEnd(TrimStart(s))
  }

  /** The digit part of a base-10 integer literal as `int()` accepts it: digits, with single
      underscores allowed between two digits. */
  predicate DigitGroups(b: string) {
    |b| > 0 && IsDigit(b[0]) && IsDigit(b[|b| - 1])
    && (forall i :: 0 <= i < |b| ==> IsDigit(b[i]) || b[i] == '_')
    && (forall i :: 0 <= i < |b| - 1 ==> b[i] == '_' ==> IsDigit(b[i + 1]))
  }

  /** The value of a digit string, underscores skipped. */
  function DigitsValue(b: string): nat {
    if b == [] then 0
    else if b[|b| - 1] == '_' then DigitsValue(b[..|b| - 1])
    else 10 * DigitsValue(b[..|b| - 1]) + DigitValue(b[|b| - 1])
  }

  function DigitValue(c: char): nat {
    if IsDigit(c) then (c as int) - ('0' as int) else 0
  }

  /** `int(s)` for a `str` argument: `Some(n)` when it returns `n`, `None` when it raises
      `ValueError`. Surrounding whitespace is ignored, one sign is allowed. */
  function ParseInt(s: string): Option<int> {
    ParseStripped(Strip(s))
  }

  /** `int(t)` for text without surrounding whitespace. */
  function ParseStripped(t: string): Option<int> {
    var signed := |t| > 0 && (t[0] == '-' || t[0] == '+');
    var body := if signed then t[1..] else t;
    if !DigitGroups(body) then None
    else if signed && t[0] == '-' then Some(0 - DigitsValue(body))
    else Some(DigitsValue(body))
  }

  function DigitChar(d: nat): char
    requires d < 10
  {
    ('0' as int + d) as char
  }

  /** `str(n)` for a non-negative integer: the decimal digits of `n`, most significant first. */
  function NatDecimal(n: nat): (r: string)
    ensures |r| > 0
    ensures forall i :: 0 <= i < |r| ==> IsDigit(r[i])
  {
    if n < 10 then [DigitChar(n)] else NatDecimal(n / 10) + [DigitChar(n % 10)]
  }

  /** `str(n)`. */
  function Decimal(n: int): string {
    if n < 0 then "-" + NatDecimal(-n) else NatDecimal(n)
  }

  lemma {:induction false} NatDecimalValue(n: nat)
    ensures DigitsValue(NatDecimal(n)) == n
  {
    var r := NatDecimal(n);
    if n >= 10 {
      NatDecimalValue(n / 10);
      assert r[..|r| - 1] == NatDecimal(n / 10);
    }
  }

  lemma {:induction false} TrimStartPadded(ws: string, y: string)
    requires AllSpace(ws) && |y| > 0 && !IsSpace(y[0])
    ensures TrimStart(ws + y) == y
  {
    if ws == [] {
      assert ws + y == y;
    } else {
      assert (ws + y)[1..] == ws[1..] + y;
      TrimStartPadded(ws[1..], y);
    }
  }

  lemma {:induction false} TrimEndPadded(y: string, ws: string)
    requires AllSpace(ws) && |y| > 0 && !IsSpace(y[|y| - 1])
    ensures TrimEnd(y + ws) == y
  {
    if ws == [] {
      assert y + ws == y;
    } else {
      assert (y + ws)[..|y + ws| - 1] == y + ws[..|ws| - 1];
      TrimEndPadded(y, ws[..|ws| - 1]);
    }
  }

  /** Stripping removes exactly surrounding whitespace from text that neither starts nor ends
      with whitespace. */
  lemma StripPadded(ws1: string, x: string, ws2: string)
    requires AllSpace(ws1) && AllSpace(ws2)
    requires |x| > 0 && !IsSpace(x[0]) && !IsSpace(x[|x| - 1])
    ensures Strip(ws1 + x + ws2) == x
  {
    assert ws1 + x + ws2 == ws1 + (x + ws2);
    TrimStartPadded(ws1, x + ws2);
    TrimEndPadded(x, ws2);
  }

  lemma DecimalDigitGroups(m: nat)
    ensures DigitGroups(NatDecimal(m))
  {
    var d := NatDecimal(m);
    assert IsDigit(d[0]) && IsDigit(d[|d| - 1]);
  }

  lemma ParseStrippedNat(m: nat)
    ensures ParseStripped(NatDecimal(m)) == Some(m)
  {
    var d := NatDecimal(m);
    DecimalDigitGroups(m);
    NatDecimalValue(m);
    assert IsDigit(d[0]);
  }

  lemma ParseStrippedDecimal(n: int)
    ensures ParseStripped(Decimal(n)) == Some(n)
  {
    if n < 0 {
      var d := NatDecimal(-n);
      DecimalDigitGroups(-n);
      NatDecimalValue(-n);
      assert Decimal(n)[1..] == d;
    } else {
      ParseStrippedNat(n);
    }
  }

  /** `int()` reads back what `str()` writes, with any surrounding whitespace (a command's
      trailing newline, say). */
  lemma ParseDecimal(ws1: string, n: int, ws2: string)
    requires AllSpace(ws1) && AllSpace(ws2)
    ensures ParseInt(ws1 + Decimal(n) + ws2) == Some(n)
  {
    var x := Decimal(n);
    var m: nat := if n < 0 then -n else n;
    var d := NatDecimal(m);
    assert x[|x| - 1] == d[|d| - 1];
    StripPadded(ws1, x, ws2);
    ParseStrippedDecimal(n);
  }

  lemma DecimalEnds(n: int)
    ensures |Decimal(n)| > 0 && !IsSpace(Decimal(n)[0]) && !IsSpace(Decimal(n)[|Decimal(n)| - 1])
  {
    var m: nat := if n < 0 then -n else n;
    var d := NatDecimal(m);
    assert Decimal(n)[|Decimal(n)| - 1] == d[|d| - 1];
  }

  /** `int(str(n)) == n`. */
  lemma ParseBare(n: int)
    ensures ParseInt(Decimal(n)) == Some(n)
  {
    var x := Decimal(n);
    DecimalEnds(n);
    TrimStartPadded("", x);
    assert "" + x == x;
    TrimEndPadded(x, "");
    assert x + "" == x;
    ParseStrippedDecimal(n);
  }

  /** Text without a single decimal digit (an error message, an empty output) makes `int()`
      raise. */
  lemma ParseNoDigit(s: string)
    requires forall i :: 0 <= i < |s| ==> !IsDigit(s[i])
    ensures ParseInt(s) == None
  {
    var t := Strip(s);
    var a := TrimStart(s);
    TrimStartDrops(s);
    TrimEndDrops(a);
    assert a == s[|s| - |a|..];
    assert t == a[..|t|];
    assert forall i :: 0 <= i < |t| ==> t[i] == s[|s| - |a| + i];
  }
}
