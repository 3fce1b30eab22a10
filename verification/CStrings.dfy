/**
  C strings and the few library conversions the database index codec relies on:
  "%d", "%*d", atol and strchr.  A string is the sequence of its bytes without
  the terminating NUL.
 */
module CStrings {
  import opened Common

  type Bytes = seq<byte>

  const NUL: byte := 0
  const NEWLINE: byte := 10
  const SPACE: byte := 32
  const MINUS: byte := 45
  const PLUS: byte := 43
  const ZERO: byte := 48
  const SEP: byte := 58

  predicate IsDigit(b: byte) {
    ZERO <= b < ZERO + 10
  }

  /** The characters isspace accepts in the C locale. */
  predicate IsSpace(b: byte) {
    b == SPACE || 9 <= b <= 13
  }

  /** What "%d" prints for a non-negative number. */
  function Decimal(n: nat): (s: seq<byte>)
    ensures |s| >= 1
  {
    if n < 10 then [ZERO + n] else Decimal(n / 10) + [ZERO + n % 10]
  }

  function Spaces(n: nat): (s: seq<byte>)
    ensures |s| == n
    ensures forall i | 0 <= i < n :: s[i] == SPACE
  {
    seq(n, _ => SPACE)
  }

  /** What "%*d" prints: right-justified in at least `width` columns. */
  function Padded(n: nat, width: nat): (s: seq<byte>)
    ensures |s| >= width
  {
    var d := Decimal(n);
    if |d| >= width then d else Spaces(width - |d|) + d
  }

  /** Value of the leading run of digits, continuing from `acc`. */
  function DigitsValue(s: seq<byte>, acc: nat): nat {
    if s == [] || !IsDigit(s[0]) then acc
    else DigitsValue(s[1..], 10 * acc + (s[0] - ZERO))
  }

  function SkipSpace(s: seq<byte>): seq<byte> {
    if s != [] && IsSpace(s[0]) then SkipSpace(s[1..]) else s
  }

  function Atol(s: seq<byte>): int {
    var t := SkipSpace(s);
    if t != [] && t[0] == MINUS then (var v: int := DigitsValue(t[1..], 0); -v)
    else if t != [] && t[0] == PLUS then DigitsValue(t[1..], 0)
    else DigitsValue(t, 0)
  }

  /** Position strchr finds, or |s| where it returns NULL. */
  function IndexOf(s: seq<byte>, c: byte): (i: nat)
    ensures i <= |s|
    ensures forall j | 0 <= j < i :: s[j] != c
    ensures i < |s| ==> s[i] == c
  {
    if s == [] || s[0] == c then 0 else 1 + IndexOf(s[1..], c)
  }

  lemma {:induction false} DecimalDigits(n: nat)
    ensures forall i | 0 <= i < |Decimal(n)| :: IsDigit(Decimal(n)[i])
  {
    if n >= 10 {
      DecimalDigits(n / 10);
    }
  }

  lemma {:induction false} DigitsOfDecimal(n: nat, rest: seq<byte>)
    ensures DigitsValue(Decimal(n) + rest, 0) == DigitsValue(rest, n)
  {
    if n < 10 {
      assert (Decimal(n) + rest)[1..] == rest;
    } else {
      var last: byte := ZERO + n % 10;
      DigitsOfDecimal(n / 10, [last] + rest);
      assert Decimal(n) + rest == Decimal(n / 10) + ([last] + rest);
      assert ([last] + rest)[1..] == rest;
    }
  }

  lemma {:induction false} SkipSpacesThen(n: nat, s: seq<byte>)
    requires s != [] && !IsSpace(s[0])
    ensures SkipSpace(Spaces(n) + s) == s
  {
    if n == 0 {
      assert Spaces(0) + s == s;
    } else {
      assert (Spaces(n) + s)[1..] == Spaces(n - 1) + s;
      SkipSpacesThen(n - 1, s);
    }
  }

  /** atol undoes "%d". */
  lemma AtolDecimal(n: nat)
    ensures Atol(Decimal(n)) == n
  {
    DigitsOfDecimal(n, []);
    DecimalDigits(n);
    assert Decimal(n) + [] == Decimal(n);
  }

  /** atol undoes "%*d". */
  lemma AtolPadded(n: nat, width: nat)
    ensures Atol(Padded(n, width)) == n
  {
    AtolDecimal(n);
    DecimalDigits(n);
    var d := Decimal(n);
    if |d| < width {
      SkipSpacesThen(width - |d|, d);
    }
  }

  function Pow10(k: nat): (p: nat)
    ensures p >= 1
  {
    if k == 0 then 1 else 10 * Pow10(k - 1)
  }

  lemma {:induction false} DecimalWidth(n: nat, k: nat)
    requires k >= 1 && n < Pow10(k)
    ensures |Decimal(n)| <= k
  {
    if n >= 10 {
      DecimalWidth(n / 10, k - 1);
    }
  }

  /** A number below 10^width fills exactly `width` columns. */
  lemma PaddedWidth(n: nat, width: nat)
    requires width >= 1 && n < Pow10(width)
    ensures |Padded(n, width)| == width
  {
    DecimalWidth(n, width);
  }

  lemma {:induction false} IndexOfAppend(s: seq<byte>, c: byte, t: seq<byte>)
    requires c !in s
    ensures IndexOf(s + [c] + t, c) == |s|
  {
    if s == [] {
      assert ([] + [c] + t)[0] == c;
    } else {
      assert (s + [c] + t)[1..] == s[1..] + [c] + t;
      IndexOfAppend(s[1..], c, t);
    }
  }
}
