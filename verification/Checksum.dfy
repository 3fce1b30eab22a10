/** The Internet checksum of libfree/in_cksum.c (sections 1 and 2 of RFC 1071). */
module Checksum {
  import opened Common

  const UINT32 := 0x1_0000_0000

  /** The most 16-bit words whose sum cannot exceed 32 bits. */
  const MAXWORDS := 65537

  /** Words in a buffer whose length in bytes is an int. */
  const MAXLEN := 0x4000_0000

  /** A 16-bit load on a machine of either byte order. */
  function Load(b0: byte, b1: byte, big: bool): word {
    var x: int, y: int := b0, b1;
    if big then x * 256 + y else x + y * 256
  }

  /** The buffer as 16-bit words, an odd last byte followed by a zero byte. */
  function WordsOf(data: seq<byte>, big: bool): seq<word> {
    if data == [] then []
    else if |data| == 1 then [Load(data[0], 0, big)]
    else [Load(data[0], data[1], big)] + WordsOf(data[2..], big)
  }

  function Sum(w: seq<word>): nat {
    if w == [] then 0 else w[0] + Sum(w[1..])
  }

  /** One's-complement addition: the carry out of the top comes back in at the bottom. */
  function OnesAdd(a: word, b: word): word {
    if a + b < 0x10000 then a + b else a + b - 0xffff
  }

  function OnesSum(w: seq<word>): word {
    if w == [] then 0 else OnesAdd(w[0], OnesSum(w[1..]))
  }

  /** The two folds and the complement at the end of in_cksum. */
  function Fold(sum: nat): word
    requires sum < UINT32
  {
    var s1 := sum / 0x10000 + sum % 0x10000;
    var s2 := s1 + s1 / 0x10000;
    0xffff - s2 % 0x10000
  }

  // ---- what the arithmetic means --------------------------------------------------

  /** The number from 1 to 65535 congruent to s modulo 65535; 0 for 0. */
  function Residue(s: nat): (r: word) {
    if s == 0 then 0 else (s - 1) % 0xffff + 1
  }

  lemma ResidueIs(s: nat, q: nat, r: nat)
    requires s == 0xffff * q + r && (if s == 0 then r == 0 else 1 <= r <= 0xffff)
    ensures Residue(s) == r
  {
  }

  lemma {:induction false} OnesSumResidue(w: seq<word>)
    ensures OnesSum(w) == Residue(Sum(w))
  {
    if w != [] {
      var t := Sum(w[1..]);
      OnesSumResidue(w[1..]);
      var q := if t == 0 then 0 else (t - 1) / 0xffff;
      assert t == 0xffff * q + OnesSum(w[1..]);
      if w[0] + OnesSum(w[1..]) < 0x10000 {
        ResidueIs(w[0] + t, q, OnesSum(w));
      } else {
        ResidueIs(w[0] + t, q + 1, OnesSum(w));
      }
    }
  }

  /** Two folds are enough. */
  lemma FoldResidue(s: nat)
    requires s < UINT32
    ensures Fold(s) == 0xffff - Residue(s)
  {
    var h, l := s / 0x10000, s % 0x10000;
    var s1 := h + l;
    if s1 < 0x10000 {
      ResidueIs(s, h, s1);
    } else {
      ResidueIs(s, h + 1, s1 - 0xffff);
    }
  }

  lemma {:induction false} SumBound(w: seq<word>)
    ensures Sum(w) <= 0xffff * |w|
  {
    if w != [] {
      SumBound(w[1..]);
    }
  }

  /** No wrap-around, so the result is the complement of the one's-complement sum. */
  lemma FoldsToOnesSum(w: seq<word>)
    requires |w| <= MAXWORDS
    ensures Sum(w) < UINT32 && Fold(Sum(w) % UINT32) == 0xffff - OnesSum(w)
  {
    hide Sum, OnesSum, Fold, Residue;
    SumBound(w);
    assert Sum(w) % UINT32 == Sum(w);
    FoldResidue(Sum(w));
    OnesSumResidue(w);
  }

  lemma SameResidue(a: nat, b: nat, k: nat)
    requires Residue(a) == Residue(b) && a + k == b && 0 < k
    ensures k >= 0xffff
  {
    if a > 0 {
      var p, q := (a - 1) / 0xffff, (b - 1) / 0xffff;
      assert a == 0xffff * p + Residue(a) && b == 0xffff * q + Residue(b);
    }
  }

  /** A sum less what 32 bits hold of it: its residue moves by the number of wraps. */
  lemma WrappedResidue(s: nat)
    ensures Residue(s) == if s < UINT32 then Residue(s % UINT32) else Residue(s / UINT32 + s % UINT32)
  {
    var q, r := s / UINT32, s % UINT32;
    if q > 0 {
      var t := q + r;
      assert s == 0xffff * (65537 * q) + t;
      var p := (t - 1) / 0xffff;
      assert t == 0xffff * p + Residue(t);
      assert s == 0xffff * (65537 * q + p) + Residue(t);
      ResidueIs(s, 65537 * q + p, Residue(t));
    }
  }

  /** For every buffer whose length is an int: the checksum is right exactly when the
      sum does not wrap around in 32 bits. */
  lemma RightIff(w: seq<word>)
    requires |w| <= MAXLEN
    ensures Fold(Sum(w) % UINT32) == 0xffff - OnesSum(w) <==> Sum(w) < UINT32
  {
    var s := Sum(w);
    var q, r := s / UINT32, s % UINT32;
    SumBound(w);
    OnesSumResidue(w);
    FoldResidue(r);
    WrappedResidue(s);
    if s >= UINT32 && Residue(r) == Residue(q + r) {
      SameResidue(r, q + r, q);
    }
  }

  lemma {:induction false} SumSplit(a: seq<word>, b: seq<word>)
    ensures Sum(a + b) == Sum(a) + Sum(b)
  {
    if a == [] {
      assert a + b == b;
    } else {
      SumSplit(a[1..], b);
      assert (a + b)[1..] == a[1..] + b;
    }
  }

  lemma SumTake(w: seq<word>, k: nat)
    requires k < |w|
    ensures Sum(w) == w[k] + Sum(w[..k] + w[k + 1..])
  {
    hide Sum;
    assert w == w[..k] + ([w[k]] + w[k + 1..]);
    SumSplit(w[..k], [w[k]] + w[k + 1..]);
    SumSplit(w[..k], w[k + 1..]);
    SumFront(w[k], w[k + 1..]);
  }

  lemma SumFront(x: word, w: seq<word>)
    ensures Sum([x] + w) == x + Sum(w)
  {
    assert ([x] + w)[1..] == w;
  }

  /** The order of the words does not matter. */
  lemma {:induction false} OrderIrrelevant(a: seq<word>, b: seq<word>)
    requires multiset(a) == multiset(b)
    ensures Sum(a) == Sum(b) && OnesSum(a) == OnesSum(b)
    decreases |a|
  {
    hide Sum, OnesSum;
    if a != [] {
      var k := Without(a, b);
      OrderIrrelevant(a[1..], b[..k] + b[k + 1..]);
      SumTake(b, k);
      SumFront(a[0], a[1..]);
      assert a == [a[0]] + a[1..];
    } else {
      assert |multiset(b)| == 0;
    }
    OnesSumResidue(a);
    OnesSumResidue(b);
  }

  /** The first word of a taken out of both. */
  lemma Without(a: seq<word>, b: seq<word>) returns (k: nat)
    requires multiset(a) == multiset(b) && a != []
    ensures k < |b| && b[k] == a[0] && multiset(a[1..]) == multiset(b[..k] + b[k + 1..])
  {
    assert a == [a[0]] + a[1..];
    assert a[0] in multiset(b);
    k :| 0 <= k < |b| && b[k] == a[0];
    assert b == b[..k] + [b[k]] + b[k + 1..];
    assert multiset(b) == multiset{a[0]} + multiset(b[..k] + b[k + 1..]);
    assert multiset(a) == multiset{a[0]} + multiset(a[1..]);
    Cancel(a[0], multiset(a[1..]), multiset(b[..k] + b[k + 1..]));
  }

  lemma Cancel(x: word, m: multiset<word>, n: multiset<word>)
    requires multiset{x} + m == multiset{x} + n
    ensures m == n
  {
    assert (multiset{x} + m) - multiset{x} == m && (multiset{x} + n) - multiset{x} == n;
  }

  /** Storing the program's answer in a word that was zero makes its answer zero. */
  lemma SelfVerifying(w: seq<word>, k: nat)
    requires k < |w| <= MAXWORDS && w[k] == 0
    ensures var c := Fold(Sum(w) % UINT32); Fold(Sum(w[k := c]) % UINT32) == 0
  {
    OnesSelfVerifying(w, k);
    FoldsToOnesSum(w);
    FoldsToOnesSum(w[k := Fold(Sum(w) % UINT32)]);
  }

  lemma OnesSelfVerifying(w: seq<word>, k: nat)
    requires k < |w| <= MAXWORDS && w[k] == 0
    ensures var c := 0xffff - OnesSum(w); 0xffff - OnesSum(w[k := c]) == 0
  {
    var c: word := 0xffff - OnesSum(w);
    var w' := w[k := c];
    SumTake(w, k);
    SumTake(w', k);
    assert w'[..k] == w[..k] && w'[k + 1..] == w[k + 1..];
    OnesSumResidue(w);
    OnesSumResidue(w');
    var s := Sum(w);
    var q := if s == 0 then 0 else (s - 1) / 0xffff;
    assert s == 0xffff * q + OnesSum(w);
    ResidueIs(s + c, q, 0xffff);
  }

  // ---- in_cksum ---------------------------------------------------------------------

  lemma {:induction false} WordsCount(data: seq<byte>, big: bool)
    ensures |WordsOf(data, big)| == (|data| + 1) / 2
  {
    if |data| > 1 {
      WordsCount(data[2..], big);
    }
  }

  lemma NextWord(data: seq<byte>, w: nat, big: bool)
    requires w + 2 <= |data|
    ensures Sum(WordsOf(data[w..], big)) == Load(data[w], data[w + 1], big) + Sum(WordsOf(data[w + 2..], big))
  {
    var rest := data[w..];
    assert rest[2..] == data[w + 2..];
    assert WordsOf(rest, big)[1..] == WordsOf(rest[2..], big);
  }

  lemma LastByte(data: seq<byte>, w: nat, big: bool)
    requires |data| - 1 <= w <= |data|
    ensures Sum(WordsOf(data[w..], big)) == if w < |data| then Load(data[w], 0, big) else 0
  {
    if w < |data| {
      assert WordsOf(data[w..], big) == [Load(data[w], 0, big)];
    }
  }

  /** in_cksum: the complement of the one's-complement sum of the words, exactly when their
      sum fits 32 bits, as it does for up to 65537 words. */
  method InCksum(data: seq<byte>, big: bool) returns (answer: word)
    ensures answer == Fold(Sum(WordsOf(data, big)) % UINT32)
    ensures |data| < 0x8000_0000 ==>
      (answer == 0xffff - OnesSum(WordsOf(data, big)) <==> Sum(WordsOf(data, big)) < UINT32)
    ensures |WordsOf(data, big)| <= MAXWORDS ==> answer == 0xffff - OnesSum(WordsOf(data, big))
  {
    hide Sum, WordsOf, OnesSum, Fold;
    var nleft, w := |data|, 0;
    var sum := 0;
    ghost var total: nat := 0;
    assert data[0..] == data;
    while nleft > 1
      invariant 0 <= nleft <= |data| && w == |data| - nleft
      invariant sum == total % UINT32 && total + Sum(WordsOf(data[w..], big)) == Sum(WordsOf(data, big))
    {
      var x := Load(data[w], data[w + 1], big);
      NextWord(data, w, big);
      WrapAdd(total, x);
      sum, total := (sum + x) % UINT32, total + x;
      w := w + 2;
      nleft := nleft - 2;
    }
    LastByte(data, w, big);
    if nleft == 1 {
      answer := Load(data[w], 0, big);
      WrapAdd(total, answer);
      sum, total := (sum + answer) % UINT32, total + answer;
    }
    answer := Folded(sum);
    WordsCount(data, big);
    if |data| < 0x8000_0000 {
      RightIff(WordsOf(data, big));
    }
    if |WordsOf(data, big)| <= MAXWORDS {
      FoldsToOnesSum(WordsOf(data, big));
    }
  }

  /** The statements of in_cksum after the sum is taken. */
  method Folded(sum0: nat) returns (answer: word)
    requires sum0 < UINT32
    ensures answer == Fold(sum0)
  {
    var sum := sum0 / 0x10000 + sum0 % 0x10000;
    sum := sum + sum / 0x10000;
    answer := 0xffff - sum % 0x10000;
  }

  lemma WrapAdd(a: nat, x: nat)
    ensures (a % UINT32 + x) % UINT32 == (a + x) % UINT32
  {
    var q := a / UINT32;
    assert a == UINT32 * q + a % UINT32;
    ModPlus(a % UINT32 + x, q);
  }

  lemma {:induction false} ModPlus(n: nat, q: nat)
    ensures (n + UINT32 * q) % UINT32 == n % UINT32
  {
    if q > 0 {
      ModPlus(n, q - 1);
    }
  }

  lemma {:induction false} SumOfOnes(n: nat)
    ensures Sum(seq(n, _ => 0xffff)) == 0xffff * n
  {
    if n > 0 {
      SumOfOnes(n - 1);
      assert seq(n, _ => 0xffff)[1..] == seq(n - 1, _ => 0xffff);
    }
  }

  /** The bound on the number of words is exact: of any number above it there are words, all
      ones, on which the accumulator wraps and the checksum is wrong. */
  lemma MoreWordsWrap(n: nat)
    requires MAXWORDS < n <= MAXLEN
    ensures var w: seq<word> := seq(n, _ => 0xffff);
            Sum(w) >= UINT32 && Fold(Sum(w) % UINT32) != 0xffff - OnesSum(w)
  {
    SumOfOnes(n);
    RightIff(seq(n, _ => 0xffff));
  }

  // ---- byte order ---------------------------------------------------------------------

  /** The first byte of a word is its high one on a big-endian machine and its low one on the other. */
  lemma LoadBytes(b0: byte, b1: byte)
    ensures Load(b0, b1, true) / 256 == b0 && Load(b0, b1, true) % 256 == b1
    ensures Load(b0, b1, false) % 256 == b0 && Load(b0, b1, false) / 256 == b1
  {
  }

  /** An odd last byte counts as if a zero byte followed. */
  lemma {:induction false} OddPadded(data: seq<byte>, big: bool)
    requires |data| % 2 == 1
    ensures WordsOf(data, big) == WordsOf(data + [0], big)
  {
    var padded := data + [0];
    if |data| == 1 {
      assert padded[2..] == [];
    } else {
      assert padded[2..] == data[2..] + [0];
      OddPadded(data[2..], big);
    }
  }

  function Swap(x: word): word {
    var n: int := x;
    n % 256 * 256 + n / 256
  }

  lemma {:induction false} WordsSwap(data: seq<byte>, i: nat)
    requires i < (|data| + 1) / 2
    ensures |WordsOf(data, true)| == |WordsOf(data, false)| == (|data| + 1) / 2
    ensures WordsOf(data, false)[i] == Swap(WordsOf(data, true)[i])
  {
    WordsCount(data, true);
    WordsCount(data, false);
    LoadBytes(data[0], if |data| > 1 then data[1] else 0);
    if i > 0 {
      WordsSwap(data[2..], i - 1);
    }
  }

  predicate Swapped(w: seq<word>, v: seq<word>) {
    |v| == |w| && forall i | 0 <= i < |w| :: v[i] == Swap(w[i])
  }

  /** Swapping bytes is multiplying by 256 modulo 65535. */
  lemma {:induction false} SumSwap(w: seq<word>, v: seq<word>) returns (q: nat)
    requires Swapped(w, v)
    ensures Sum(v) + 0xffff * q == 256 * Sum(w) && (Sum(w) == 0 <==> Sum(v) == 0)
    decreases |w|
  {
    q := 0;
    if w != [] {
      q := SumSwap(w[1..], v[1..]);
      var n: int := w[0];
      assert v[0] + 0xffff * (n / 256) == 256 * n;
      q := q + n / 256;
    }
  }

  lemma ResidueSwap(s: nat, t: nat, q: nat)
    requires t + 0xffff * q == 256 * s && (s == 0 <==> t == 0)
    ensures Residue(t) == Swap(Residue(s))
  {
    if s > 0 {
      var r: int := Residue(s);
      var k := (s - 1) / 0xffff;
      assert s == 0xffff * k + r;
      var x: int := Swap(r);
      assert x + 0xffff * (r / 256) == 256 * r;
      var d := 256 * k + r / 256 - q;
      assert t == 0xffff * d + x;
      assert d >= 0;
      ResidueIs(t, d, x);
    }
  }

  /** Machines of either byte order store the same two bytes for the same data. */
  lemma ByteOrderIrrelevant(data: seq<byte>)
    requires (|data| + 1) / 2 <= MAXWORDS
    ensures var big, little := Fold(Sum(WordsOf(data, true)) % UINT32), Fold(Sum(WordsOf(data, false)) % UINT32);
      var b: int, l: int := big, little;
      b / 256 == l % 256 && b % 256 == l / 256
  {
    hide Sum, WordsOf, OnesSum, Fold, Residue, Swap;
    var w, v := WordsOf(data, true), WordsOf(data, false);
    WordsCount(data, true);
    WordsCount(data, false);
    forall i | 0 <= i < |w| ensures v[i] == Swap(w[i]) {
      WordsSwap(data, i);
    }
    var q := SumSwap(w, v);
    ResidueSwap(Sum(w), Sum(v), q);
    FoldsToOnesSum(w);
    FoldsToOnesSum(v);
    OnesSumResidue(w);
    OnesSumResidue(v);
    ComplementSwap(OnesSum(w));
  }

  lemma ComplementSwap(x: word)
    ensures var b: int, l: int := 0xffff - x, 0xffff - Swap(x);
      b / 256 == l % 256 && b % 256 == l / 256
  {
    var h, g: int := x as int / 256, x as int % 256;
    assert x == 256 * h + g && 0 <= g < 256 && 0 <= h < 256;
    assert 0xffff - x == 256 * (255 - h) + (255 - g);
    assert 0xffff - Swap(x) == 256 * (255 - g) + (255 - h);
  }
}
