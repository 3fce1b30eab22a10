/** Network to presentation format: libfree/inet_ntop.c. */
module InetNtop {
  import opened Common
  import opened InetText
  import opened Numerals
  import opened InetPton

  const NWORDS := 8
  const TMPSZ := 46  // sizeof "ffff:ffff:ffff:ffff:ffff:ffff:255.255.255.255"

  type Address = b: seq<byte> | |b| == IN6ADDRSZ witness Zeros(IN6ADDRSZ)

  function Word(hi: byte, lo: byte): word {
    var h: int := hi;
    h * 256 + lo
  }

  function Words(src: Address): (w: seq<word>)
    ensures |w| == NWORDS
  {
    seq(NWORDS, i requires 0 <= i < NWORDS => Word(src[2 * i], src[2 * i + 1]))
  }

  // ---- the run to shorten -----------------------------------------------------------

  predicate ZeroRun(w: seq<word>, b: int, l: int) {
    0 <= b && 0 <= l && b + l <= |w| && forall j | b <= j < b + l :: w[j] == 0
  }

  /** The first of the longest runs of at least two zero words; -1 if there is none. */
  ghost predicate IsBest(w: seq<word>, base: int, len: int) {
    if base == -1 then forall b, l | ZeroRun(w, b, l) :: l < 2
    else
      && ZeroRun(w, base, len) && len >= 2
      && forall b, l | ZeroRun(w, b, l) && l >= 1 :: l <= len && (l == len ==> base <= b)
  }

  lemma BestUnique(w: seq<word>, b1: int, l1: int, b2: int, l2: int)
    requires IsBest(w, b1, l1) && IsBest(w, b2, l2)
    ensures b1 == b2 && (b1 != -1 ==> l1 == l2)
  {
  }

  /** (base, len) beats every zero run that ends by `upto`. */
  ghost predicate Leads(w: seq<word>, base: int, len: int, upto: int) {
    forall b, l | ZeroRun(w, b, l) && l >= 1 && b + l <= upto ::
      base != -1 && l <= len && (l == len ==> base <= b)
  }

  /** The current run: words from cur to i are zero and the one before is not. */
  ghost predicate Current(w: seq<word>, cur: int, len: int, i: int) {
    if cur == -1 then i == 0 || (0 < i <= |w| && w[i - 1] != 0)
    else ZeroRun(w, cur, len) && len >= 1 && cur + len == i && (cur > 0 ==> w[cur - 1] != 0)
  }

  lemma RunsSplit(w: seq<word>, base: int, len: int, cur: int, curLen: int, i: int)
    requires Current(w, cur, curLen, i) && 0 <= i <= |w|
    requires Leads(w, base, len, if cur == -1 then i else cur)
    requires base != -1 ==> base + len <= if cur == -1 then i else cur
    ensures cur == -1 ==> Leads(w, base, len, i)
    ensures cur != -1 && (base == -1 || curLen > len) ==> Leads(w, cur, curLen, i)
    ensures cur != -1 && base != -1 && curLen <= len ==> Leads(w, base, len, i)
  {
  }

  /** The loop of inet_ntop6 that looks for the run to shorten. */
  method FindBest(w: seq<word>) returns (base: int, len: int)
    ensures IsBest(w, base, len) && base >= -1
  {
    base, len := -1, 0;
    var cur, curLen := -1, 0;
    var i := 0;
    while i < |w|
      invariant 0 <= i <= |w| && base >= -1 && cur >= -1 && Current(w, cur, curLen, i)
      invariant Leads(w, base, len, if cur == -1 then i else cur)
      invariant base != -1 ==> ZeroRun(w, base, len) && len >= 1 && base + len <= if cur == -1 then i else cur
    {
      if w[i] == 0 {
        if cur == -1 {
          cur, curLen := i, 1;
        } else {
          curLen := curLen + 1;
        }
      } else {
        RunsSplit(w, base, len, cur, curLen, i);
        if cur != -1 {
          if base == -1 || curLen > len {
            base, len := cur, curLen;
          }
          cur := -1;
        }
      }
      i := i + 1;
    }
    RunsSplit(w, base, len, cur, curLen, i);
    if cur != -1 {
      if base == -1 || curLen > len {
        base, len := cur, curLen;
      }
    }
    if base != -1 && len < 2 {
      base := -1;
    }
  }

  // ---- the text -----------------------------------------------------------------------

  /** Words in hexadecimal with single colons between them. */
  function Join(w: seq<word>): string {
    if w == [] then ""
    else if |w| == 1 then Hex(w[0])
    else Join(w[..|w| - 1]) + ":" + Hex(w[|w| - 1])
  }

  predicate EmbedsV4(w: seq<word>, base: int, len: int)
    requires |w| == NWORDS
  {
    base == 0 && (len == 6 || (len == 5 && w[5] == 0xffff))
  }

  /** The forms of section 2.2 of RFC 1884: in full, with "::" for one run of zero
      words, or with an IPv4 address in the last four bytes. */
  function Text6(src: Address, base: int, len: int): string
    requires base == -1 || (0 <= base && 0 <= len && base + len <= NWORDS)
  {
    var w := Words(src);
    if base == -1 then Join(w)
    else if EmbedsV4(w, base, len) then
      "::" + (if len == 5 then "ffff:" else "") + QuadText(src[12..])
    else Join(w[..base]) + "::" + Join(w[base + len..])
  }

  /** inet_ntop4: the size test leaves out the NUL that strcpy writes, so the copy runs one
      byte over a buffer exactly as long as the text. */
  method Ntop4(src: seq<byte>, size: nat) returns (r: Option<string>, overrun: bool)
    requires |src| == INADDRSZ
    ensures r == if |QuadText(src)| > size then None else Some(QuadText(src))
    ensures overrun <==> |QuadText(src)| == size
  {
    var tmp := Decimal(src[0]) + "." + Decimal(src[1]) + "." + Decimal(src[2]) + "." + Decimal(src[3]);
    if |tmp| > size {
      return None, false;
    }
    return Some(tmp), |tmp| + 1 > size;
  }

  /** For every address there is such a buffer, and no longer one is overrun. */
  lemma OverrunSizes(src: seq<byte>, size: nat)
    requires |src| == INADDRSZ
    ensures 7 <= |QuadText(src)| <= 15
    ensures size >= 16 ==> |QuadText(src)| != size
  {
    QuadShort(src);
  }

  lemma DecimalShort(b: byte)
    ensures |Decimal(b)| <= 3
  {
    assert b >= 10 ==> |Decimal(b / 10)| <= 2;
  }

  lemma HexShort(w: word)
    ensures |Hex(w)| <= 4
  {
    assert w / 16 < 0x1000;
    HexWidth(w, 4);
  }

  lemma {:induction false} HexWidth(n: nat, k: nat)
    requires k >= 1 && n < Pow16(k)
    ensures |Hex(n)| <= k
  {
    if n >= 16 {
      HexWidth(n / 16, k - 1);
    }
  }

  function Pow16(k: nat): nat {
    if k == 0 then 1 else 16 * Pow16(k - 1)
  }

  lemma {:induction false} JoinShort(w: seq<word>)
    ensures |Join(w)| <= 5 * |w|
  {
    if |w| == 1 {
      HexShort(w[0]);
    } else if w != [] {
      JoinShort(w[..|w| - 1]);
      HexShort(w[|w| - 1]);
    }
  }

  lemma QuadShort(b: seq<byte>)
    requires |b| == 4
    ensures |QuadText(b)| <= 15
  {
    DecimalShort(b[0]);
    DecimalShort(b[1]);
    DecimalShort(b[2]);
    DecimalShort(b[3]);
  }

  /** The text and its NUL fit the buffer `tmp`. */
  lemma TextFits(src: Address, base: int, len: int)
    requires base == -1 || (0 <= base && 0 <= len && base + len <= NWORDS)
    ensures |Text6(src, base, len)| + 1 <= TMPSZ
  {
    hide Words, Join, QuadText;
    var w := Words(src);
    if base == -1 {
      JoinShort(w);
    } else {
      JoinShort(w[..base]);
      JoinShort(w[base + len..]);
      QuadShort(src[12..]);
    }
  }

  /** Words each with a colon in front. */
  function Colons(w: seq<word>): string {
    if w == [] then "" else Colons(w[..|w| - 1]) + ":" + Hex(w[|w| - 1])
  }

  lemma {:induction false} ColonsJoin(w: seq<word>)
    requires w != []
    ensures Colons(w) == ":" + Join(w)
  {
    var v := w[..|w| - 1];
    if |w| > 1 {
      ColonsJoin(v);
    } else {
      assert Colons(v) == "";
    }
  }

  /** What stands in the buffer after i words, the run standing for its first colon. */
  function Partial(w: seq<word>, base: int, len: int, i: nat): string
    requires i <= |w| == NWORDS && (base == -1 || (0 <= base && 1 <= len && base + len <= NWORDS))
  {
    if base == -1 || i <= base then Join(w[..i])
    else Join(w[..base]) + ":" + Colons(if i <= base + len then [] else w[base + len..i])
  }

  lemma JoinLast(w: seq<word>, i: nat)
    requires i < |w|
    ensures Join(w[..i + 1]) == Join(w[..i]) + (if i != 0 then ":" else "") + Hex(w[i])
    ensures Join(w[..0]) == ""
  {
    hide Hex;
    assert w[..i + 1][..i] == w[..i];
    if i == 0 {
      assert "" + "" + Hex(w[0]) == Hex(w[0]);
    }
  }

  lemma NoColons()
    ensures Colons([]) == ""
  {
  }

  lemma ColonsLast(w: seq<word>, from: nat, i: nat)
    requires from <= i < |w|
    ensures Colons(w[from..i + 1]) == Colons(w[from..i]) + ":" + Hex(w[i])
  {
    hide Hex;
    var v := w[from..i + 1];
    assert v[..|v| - 1] == w[from..i];
  }

  lemma PartialStep(w: seq<word>, base: int, len: int, i: nat)
    requires i < |w| == NWORDS && (base == -1 || (0 <= base && 1 <= len && base + len <= NWORDS))
    ensures Partial(w, base, len, i + 1) ==
            if base != -1 && base <= i < base + len
            then Partial(w, base, len, i) + (if i == base then ":" else "")
            else Partial(w, base, len, i) + (if i != 0 then ":" else "") + Hex(w[i])
  {
    hide Join, Colons, Hex;
    if base == -1 || i < base {
      JoinLast(w, i);
    } else if i < base + len {
      NoColons();
      Unchanged(Join(w[..base]));
    } else {
      ColonsLast(w, base + len, i);
      assert w[base + len..base + len] == [];
      Regrouped(Join(w[..base]) + ":", Colons(w[base + len..i]), Hex(w[i]));
    }
  }

  lemma Unchanged(s: string)
    ensures s + ":" + "" == s + ":" && (s + ":") + "" == s + ":"
  {
  }

  lemma Regrouped(head: string, colons: string, hex: string)
    ensures head + (colons + ":" + hex) == head + colons + ":" + hex
  {
  }

  lemma PartialDone(src: Address, base: int, len: int)
    requires base == -1 || (0 <= base && 1 <= len && base + len <= NWORDS)
    requires !EmbedsV4(Words(src), base, len)
    ensures Text6(src, base, len) ==
            if base != -1 && base + len == NWORDS then Partial(Words(src), base, len, NWORDS) + ":"
            else Partial(Words(src), base, len, NWORDS)
  {
    var w := Words(src);
    assert w[..NWORDS] == w;
    if base != -1 {
      assert w[base + len..NWORDS] == w[base + len..];
      if base + len < NWORDS {
        ColonsJoin(w[base + len..]);
      } else {
        assert Join(w[..base]) + ":" + ":" == Join(w[..base]) + "::";
      }
    }
  }

  lemma PartialV4(src: Address, base: int, len: int)
    requires 0 <= base && 1 <= len && base + len <= NWORDS && EmbedsV4(Words(src), base, len)
    ensures Text6(src, base, len) == Partial(Words(src), base, len, 6) + ":" + QuadText(src[12..])
  {
    var w := Words(src);
    assert w[..0] == [];
    if len == 5 {
      assert w[5..6] == [0xffff];
      assert Colons([0xffff]) == Colons([]) + ":" + Hex(0xffff) by { assert [0xffff][..0] == []; }
      HexFfff();
    }
  }

  lemma HexFfff()
    ensures Hex(0xffff) == "ffff"
  {
    assert Hex(0xf) == "f";
    assert Hex(0xff) == "ff";
    assert Hex(0xfff) == "fff";
  }

  // ---- which addresses end in a dotted quad -------------------------------------------------

  predicate ZerosTo(src: Address, n: nat)
    requires n <= IN6ADDRSZ
  {
    forall i | 0 <= i < n :: src[i] == 0
  }

  lemma WordsAre(src: Address, i: nat)
    requires i < NWORDS
    ensures Words(src)[i] == 0 <==> src[2 * i] == 0 && src[2 * i + 1] == 0
    ensures Words(src)[i] == 0xffff <==> src[2 * i] == 255 && src[2 * i + 1] == 255
  {
  }

  /** The run is the whole of the first l words exactly when those are zero and no longer run is. */
  lemma LeadingBest(w: seq<word>, base: int, len: int, l: int)
    requires |w| == NWORDS && IsBest(w, base, len) && 4 < l < NWORDS
    requires (forall i | 0 <= i < l :: w[i] == 0) && w[l] != 0
    ensures base == 0 && len == l
  {
    assert ZeroRun(w, 0, l);
  }

  /** An IPv4-compatible address. */
  lemma CompatibleText(src: Address, base: int, len: int)
    requires IsBest(Words(src), base, len) && ZerosTo(src, 12) && (src[12] != 0 || src[13] != 0)
    ensures Text6(src, base, len) == "::" + QuadText(src[12..])
  {
    hide Join, QuadText;
    forall i | 0 <= i < 6 ensures Words(src)[i] == 0 {
      WordsAre(src, i);
    }
    WordsAre(src, 6);
    hide Words;
    LeadingBest(Words(src), base, len, 6);
    assert "::" + "" == "::";
  }

  /** An IPv4-mapped address. */
  lemma MappedText(src: Address, base: int, len: int)
    requires IsBest(Words(src), base, len) && ZerosTo(src, 10) && src[10] == src[11] == 255
    ensures Text6(src, base, len) == "::ffff:" + QuadText(src[12..])
  {
    hide Join, QuadText;
    forall i | 0 <= i < 5 ensures Words(src)[i] == 0 {
      WordsAre(src, i);
    }
    WordsAre(src, 5);
    hide Words;
    LeadingBest(Words(src), base, len, 5);
    assert "::" + "ffff:" == "::ffff:";
  }

  lemma {:induction false} HexDotless(n: nat)
    ensures '.' !in Hex(n)
  {
    if n >= 16 {
      HexDotless(n / 16);
    }
  }

  lemma {:induction false} JoinDotless(w: seq<word>)
    ensures '.' !in Join(w)
  {
    hide Hex;
    if |w| == 1 {
      HexDotless(w[0]);
    } else if w != [] {
      JoinDotless(w[..|w| - 1]);
      HexDotless(w[|w| - 1]);
    }
  }

  /** No other address. */
  lemma OtherText(src: Address, base: int, len: int)
    requires IsBest(Words(src), base, len)
    requires !(ZerosTo(src, 12) && (src[12] != 0 || src[13] != 0))
    requires !(ZerosTo(src, 10) && src[10] == src[11] == 255)
    ensures '.' !in Text6(src, base, len)
  {
    NotEmbedded(src, base, len);
    hide Words, Join, QuadText, EmbedsV4;
    var w := Words(src);
    JoinDotless(w);
    if base != -1 {
      JoinDotless(w[..base]);
      JoinDotless(w[base + len..]);
    }
  }

  lemma NotEmbedded(src: Address, base: int, len: int)
    requires IsBest(Words(src), base, len)
    requires !(ZerosTo(src, 12) && (src[12] != 0 || src[13] != 0))
    requires !(ZerosTo(src, 10) && src[10] == src[11] == 255)
    ensures base != -1 ==> !EmbedsV4(Words(src), base, len)
  {
    var w := Words(src);
    if base == 0 && len >= 5 {
      forall i | 0 <= i < len ensures src[2 * i] == 0 && src[2 * i + 1] == 0 {
        WordsAre(src, i);
      }
      WordsAre(src, 5);
      WordsAre(src, 6);
      hide Words;
      FirstBytes(src, len);
      if len == 6 {
        StopsAt(w);
      }
    }
  }

  lemma StopsAt(w: seq<word>)
    requires |w| == NWORDS && IsBest(w, 0, 6)
    ensures w[6] != 0
  {
    assert ZeroRun(w, 0, 7) <==> w[6] == 0;
  }

  lemma FirstBytes(src: Address, len: int)
    requires 5 <= len <= NWORDS && forall i | 0 <= i < len :: src[2 * i] == 0 && src[2 * i + 1] == 0
    ensures ZerosTo(src, 10) && (len >= 6 ==> ZerosTo(src, 12))
  {
    forall i | 0 <= i < 2 * len ensures src[i] == 0 {
      assert i == 2 * (i / 2) || i == 2 * (i / 2) + 1;
    }
  }

  // ---- the other text ----------------------------------------------------------------------------

  /** The words from the left, each in "%x", with single colons: what Join is. */
  lemma {:induction false} JoinMeans(v: seq<word>, w: seq<word>)
    requires v != [] && w != []
    ensures Join(v + w) == Join(v) + ":" + Join(w)
    ensures forall x: word :: Join([x]) == Hex(x)
    decreases |w|
  {
    hide Hex;
    var n := |w| - 1;
    assert (v + w)[..|v + w| - 1] == v + w[..n];
    if n == 0 {
      assert v + w[..n] == v;
    } else {
      JoinMeans(v, w[..n]);
      Regrouped(Join(v) + ":", Join(w[..n]), Hex(w[n]));
    }
  }

  /** Eight words in full where no run of two zero words is to be shortened. */
  lemma FullText(src: Address, len: int)
    ensures var w := Words(src);
      Text6(src, -1, len) == Hex(w[0]) + ":" + Hex(w[1]) + ":" + Hex(w[2]) + ":" + Hex(w[3]) + ":" + Hex(w[4]) + ":" +
        Hex(w[5]) + ":" + Hex(w[6]) + ":" + Hex(w[7])
  {
    hide Hex, Words;
    var w := Words(src);
    assert w[..8] == w;
    JoinLast(w, 7);
    JoinLast(w, 6);
    JoinLast(w, 5);
    JoinLast(w, 4);
    JoinLast(w, 3);
    JoinLast(w, 2);
    JoinLast(w, 1);
    assert w[..1] == [w[0]];
  }

  /** The first loop of inet_ntop6. */
  method CopyWords(src: Address) returns (words: seq<word>)
    ensures words == Words(src)
  {
    var w := new word[NWORDS](_ => 0);
    var i := 0;
    while i < IN6ADDRSZ
      invariant 0 <= i <= IN6ADDRSZ
      invariant forall j | 0 <= j < NWORDS ::
                  w[j] == if 2 * j + 1 < i then Word(src[2 * j], src[2 * j + 1])
                    else if 2 * j < i then Word(src[2 * j], 0) else 0
    {
      var shifted: int := src[i];
      if i % 2 == 0 {
        shifted := shifted * 256;
      }
      w[i / 2] := w[i / 2] + shifted;
      i := i + 1;
    }
    return w[..];
  }

  /** The text with its best zero run shortened, where it fits the size with its NUL. */
  ghost predicate Prints(src: Address, base: int, len: int, size: nat, r: Option<string>) {
    && IsBest(Words(src), base, len)
    && r == if |Text6(src, base, len)| + 1 > size then None else Some(Text6(src, base, len))
  }

  lemma PrintsForms(src: Address, size: nat, r: Option<string>)
    requires exists base, len :: Prints(src, base, len, size, r)
    ensures r.Some? && ZerosTo(src, 12) && (src[12] != 0 || src[13] != 0) ==> r.value == "::" + QuadText(src[12..])
    ensures r.Some? && ZerosTo(src, 10) && src[10] == src[11] == 255 ==> r.value == "::ffff:" + QuadText(src[12..])
    ensures r.Some? ==>
      || (ZerosTo(src, 12) && (src[12] != 0 || src[13] != 0)) || (ZerosTo(src, 10) && src[10] == src[11] == 255)
      || '.' !in r.value
  {
    var base, len :| Prints(src, base, len, size, r);
    hide Text6, QuadText, IsBest, Words;
    if ZerosTo(src, 12) && (src[12] != 0 || src[13] != 0) {
      CompatibleText(src, base, len);
    }
    if ZerosTo(src, 10) && src[10] == src[11] == 255 {
      MappedText(src, base, len);
    }
    if !(ZerosTo(src, 12) && (src[12] != 0 || src[13] != 0)) && !(ZerosTo(src, 10) && src[10] == src[11] == 255) {
      OtherText(src, base, len);
    }
  }

  lemma NothingYet(w: seq<word>, base: int, len: int)
    requires |w| == NWORDS && (base == -1 || (0 <= base && 1 <= len && base + len <= NWORDS))
    ensures Partial(w, base, len, 0) == ""
  {
    assert w[..0] == [];
  }

  lemma BestRange(w: seq<word>, base: int, len: int)
    requires IsBest(w, base, len) && |w| == NWORDS && base >= -1
    ensures base == -1 || (0 <= base && 1 <= len && base + len <= NWORDS)
  {
  }

  /** inet_ntop6 */
  method Ntop6(src: Address, size: nat) returns (r: Option<string>)
    ensures exists base, len :: Prints(src, base, len, size, r)
    ensures r.Some? && (forall i | 0 <= i < 12 :: src[i] == 0) && (src[12] != 0 || src[13] != 0) ==>
      r.value == "::" + QuadText(src[12..])
    ensures r.Some? && (forall i | 0 <= i < 10 :: src[i] == 0) && src[10] == src[11] == 255 ==>
      r.value == "::ffff:" + QuadText(src[12..])
    ensures r.Some? ==>
      || ((forall i | 0 <= i < 12 :: src[i] == 0) && (src[12] != 0 || src[13] != 0))
      || ((forall i | 0 <= i < 10 :: src[i] == 0) && src[10] == src[11] == 255)
      || '.' !in r.value
  {
    hide QuadText, IsBest, Hex, Join, Colons;
    var words := CopyWords(src);
    var best, bestLen := FindBest(words);
    BestRange(words, best, bestLen);
    TextFits(src, best, bestLen);
    var tmp := "";
    var i := 0;
    var v4 := false;
    NothingYet(words, best, bestLen);
    while i < NWORDS && !v4
      invariant 0 <= i <= NWORDS
      invariant if v4 then i == 6 && EmbedsV4(words, best, bestLen) && tmp == Text6(src, best, bestLen)
                else tmp == Partial(words, best, bestLen, i) && (i > 6 ==> !EmbedsV4(words, best, bestLen))
      decreases NWORDS - i, !v4
    {
      PartialStep(words, best, bestLen, i);
      if best != -1 && i >= best && i < best + bestLen {
        if i == best {
          tmp := tmp + ":";
        }
        i := i + 1;
      } else {
        if i != 0 {
          tmp := tmp + ":";
        }
        if i == 6 && best == 0 && (bestLen == 6 || (bestLen == 5 && words[5] == 0xffff)) {
          PartialV4(src, best, bestLen);
          QuadShort(src[12..]);
          var quad, overrun := Ntop4(src[12..], TMPSZ - |tmp|);
          assert !overrun;
          if quad.None? {
            return None;
          }
          tmp := tmp + quad.value;
          v4 := true;
        } else {
          tmp := tmp + Hex(words[i]);
          i := i + 1;
        }
      }
    }
    if !v4 {
      PartialDone(src, best, bestLen);
    }
    if best != -1 && best + bestLen == NWORDS {
      tmp := tmp + ":";
    }
    r := if |tmp| + 1 > size then None else Some(tmp);
    assert Prints(src, best, bestLen, size, r);
    PrintsForms(src, size, r);
  }
}
