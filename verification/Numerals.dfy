/** Decimal and hexadecimal numerals as printf writes them and the parsers read them. */
module Numerals {

  predicate IsDigit(c: char) {
    '0' <= c <= '9'
  }

  /** Value of a hexadecimal digit of either case, -1 for any other character. */
  function HexVal(c: char): (v: int)
    ensures -1 <= v < 16
  {
    if '0' <= c <= '9' then c as int - '0' as int
    else if 'a' <= c <= 'f' then c as int - 'a' as int + 10
    else if 'A' <= c <= 'F' then c as int - 'A' as int + 10
    else -1
  }

  /** The hexadecimal digits, in order of their values. */
  lemma HexDigits(c: char)
    ensures HexVal(c) >= 0 <==> c in "0123456789abcdefABCDEF"
    ensures forall i | 0 <= i < 16 :: HexVal("0123456789abcdef"[i]) == i && HexVal("0123456789ABCDEF"[i]) == i
  {
    assert "0123456789abcdef"[10..] == "abcdef" && "0123456789ABCDEF"[10..] == "ABCDEF";
    forall i | 0 <= i < 10 ensures "0123456789abcdef"[i] == "0123456789ABCDEF"[i] == ('0' as int + i) as char {
    }
  }

  function Digit(d: nat): (c: char)
    requires d < 16
    ensures HexVal(c) == d && (d < 10 ==> IsDigit(c) && c as int - '0' as int == d)
    ensures c != '.' && c != ':'
  {
    if d < 10 then ('0' as int + d) as char else ('a' as int + d - 10) as char
  }

  /** "%u" */
  function Decimal(n: nat): (s: string)
    ensures |s| >= 1
  {
    if n < 10 then [Digit(n)] else Decimal(n / 10) + [Digit(n % 10)]
  }

  /** "%x" */
  function Hex(n: nat): (s: string)
    ensures |s| >= 1
  {
    if n < 16 then [Digit(n)] else Hex(n / 16) + [Digit(n % 16)]
  }

  predicate AllDigits(s: string) {
    forall i | 0 <= i < |s| :: IsDigit(s[i])
  }

  /** Decimal value of a string of digits, with any number of leading zeros. */
  function Value(s: string): (v: nat)
    requires AllDigits(s)
  {
    if s == "" then 0 else 10 * Value(s[..|s| - 1]) + (s[|s| - 1] as int - '0' as int)
  }

  lemma {:induction false} DecimalMeans(n: nat)
    ensures AllDigits(Decimal(n)) && Value(Decimal(n)) == n
  {
    if n >= 10 {
      DecimalMeans(n / 10);
      assert Decimal(n)[..|Decimal(n)| - 1] == Decimal(n / 10);
    } else {
      assert Decimal(n)[..0] == "";
      assert Value("") == 0;
    }
  }

  /** No more digits than needed. */
  lemma {:induction false} DecimalShortest(n: nat)
    ensures n > 0 ==> Decimal(n)[0] != '0'
    ensures n == 0 ==> Decimal(n) == "0"
  {
    if n >= 10 {
      DecimalShortest(n / 10);
    }
  }

  predicate AllHex(s: string) {
    forall i | 0 <= i < |s| :: HexVal(s[i]) >= 0
  }

  /** Value of a string of hexadecimal digits. */
  function HexValue(s: string): nat
    requires AllHex(s)
  {
    if s == "" then 0 else 16 * HexValue(s[..|s| - 1]) + HexVal(s[|s| - 1])
  }

  /** "%x" writes the value in lower case with no more digits than needed. */
  lemma {:induction false} HexMeans(n: nat)
    ensures AllHex(Hex(n)) && HexValue(Hex(n)) == n
    ensures forall i | 0 <= i < |Hex(n)| :: Hex(n)[i] in "0123456789abcdef"
    ensures (n > 0 ==> Hex(n)[0] != '0') && (n == 0 ==> Hex(n) == "0")
  {
    if n >= 16 {
      HexMeans(n / 16);
      LowerCase(n % 16);
      assert Hex(n)[..|Hex(n)| - 1] == Hex(n / 16);
    } else {
      LowerCase(n);
      assert Hex(n)[..0] == "" && HexValue("") == 0;
    }
  }

  lemma LowerCase(d: nat)
    requires d < 16
    ensures Digit(d) in "0123456789abcdef"
  {
    HexDigits('0');
    assert "0123456789abcdef"[d] in "0123456789abcdef";
    assert Digit(d) == "0123456789abcdef"[d];
  }
}
