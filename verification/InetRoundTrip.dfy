/** inet_pton6 undoes inet_ntop6: the printed text is one of the forms it reads. */
module InetRoundTrip {
  import opened Common
  import opened InetText
  import opened Numerals
  import opened InetPton
  import opened InetNtop
  import opened InetForms

  function Hexes(w: seq<word>): (g: seq<string>)
    ensures |g| == |w| && forall i | 0 <= i < |w| :: g[i] == Hex(w[i])
  {
    seq(|w|, i requires 0 <= i < |w| => Hex(w[i]))
  }

  /** The hexadecimal text of a word is a group of that value. */
  lemma {:induction false} HexGroup(n: nat)
    ensures AllHex(Hex(n)) && HexValue(Hex(n)) == n
  {
    var s := Hex(n);
    if n < 16 {
      assert s[..0] == "" && HexValue("") == 0;
    } else {
      HexGroup(n / 16);
      assert s[..|s| - 1] == Hex(n / 16);
    }
  }

  function Bytes(w: seq<word>): (b: seq<byte>)
    ensures |b| == 2 * |w|
  {
    if w == [] then [] else WordBytes(w[0]) + Bytes(w[1..])
  }

  lemma {:induction false} EachHex(w: seq<word>)
    ensures AreGroups(Hexes(w)) && GroupBytes(Hexes(w)) == Bytes(w)
    ensures w != [] ==> Join(w) + ":" == Each(Hexes(w))
  {
    hide Hex, HexValue, WordBytes, Each, Join;
    if w == [] {
      NoGroups();
    } else {
      HexGroup(w[0]);
      EachHex(w[1..]);
      assert Hexes(w)[1..] == Hexes(w[1..]);
      JoinFront(w);
      EachFront(Hexes(w));
      if |w| == 1 {
        NoGroups();
        assert Hexes(w[1..]) == [];
        assert Hex(w[0]) + ":" + "" == Hex(w[0]) + ":";
      } else {
        Chained(Hex(w[0]), Join(w[1..]));
      }
    }
  }

  lemma EachFront(groups: seq<string>)
    requires groups != []
    ensures Each(groups) == groups[0] + ":" + Each(groups[1..])
  {
  }

  lemma Chained(a: string, b: string)
    ensures (a + ":" + b) + ":" == a + ":" + (b + ":")
  {
  }

  lemma {:induction false} JoinFront(w: seq<word>)
    requires w != []
    ensures Join(w) == if |w| == 1 then Hex(w[0]) else Hex(w[0]) + ":" + Join(w[1..])
  {
    hide Hex, Join;
    var n := |w| - 1;
    JoinBack(w);
    if n == 1 {
      JoinBack(w[1..]);
      JoinBack(w[..1]);
    } else if n > 1 {
      JoinFront(w[..n]);
      JoinBack(w[1..]);
      assert w[..n][1..] == w[1..][..n - 1] && w[1..][n - 1] == w[n];
      Rejoin(Hex(w[0]), Join(w[..n][1..]), Hex(w[n]));
    }
  }

  lemma Rejoin(a: string, b: string, c: string)
    ensures (a + ":" + b) + ":" + c == a + ":" + (b + ":" + c)
  {
  }

  lemma BytesOfWord(hi: byte, lo: byte)
    ensures WordBytes(Word(hi, lo)) == [hi, lo]
  {
  }

  lemma {:induction false} BytesSplit(w: seq<word>, src: seq<byte>)
    requires |src| == 2 * |w| && forall i | 0 <= i < |w| :: w[i] == Word(src[2 * i], src[2 * i + 1])
    ensures Bytes(w) == src
  {
    hide Word, WordBytes;
    if w != [] {
      forall i | 0 <= i < |w[1..]| ensures w[1..][i] == Word(src[2..][2 * i], src[2..][2 * i + 1]) {
        assert w[1..][i] == w[i + 1] && src[2..][2 * i] == src[2 * (i + 1)] &&
          src[2..][2 * i + 1] == src[2 * (i + 1) + 1];
      }
      BytesSplit(w[1..], src[2..]);
      BytesOfWord(src[0], src[1]);
      assert [src[0], src[1]] + src[2..] == src;
    }
  }

  lemma BytesOfWords(src: Address, i: nat, j: nat)
    requires i <= j <= NWORDS
    ensures Bytes(Words(src)[i..j]) == src[2 * i..2 * j]
  {
    var w, s := Words(src)[i..j], src[2 * i..2 * j];
    forall k | 0 <= k < |w| ensures w[k] == Word(s[2 * k], s[2 * k + 1]) {
      assert w[k] == Words(src)[i + k] && s[2 * k] == src[2 * (i + k)] && s[2 * k + 1] == src[2 * (i + k) + 1];
    }
    BytesSplit(w, s);
  }

  // ---- the printed forms as shapes ------------------------------------------------------

  /** Words printed to the end: all but the last have a colon after them. */
  lemma JoinShape(w: seq<word>)
    requires w != []
    ensures var n := |w| - 1;
      && AreGroups(Hexes(w[..n])) && IsGroup(Hex(w[n]))
      && Join(w) == Each(Hexes(w[..n])) + Hex(w[n])
      && Bytes(w) == GroupBytes(Hexes(w[..n])) + LastBytes(Group(Hex(w[n])))
  {
    hide Hex, HexValue, GroupBytes, Each, WordBytes, Bytes, Join, LastBytes, AreGroups, IsGroup;
    var n := |w| - 1;
    EachHex(w[..n]);
    LastWord(w[n]);
    BytesMore(w);
    JoinBack(w);
    if n == 0 {
      NoGroups();
      NoWords();
      assert w[..0] == [];
      Empty(Hex(w[0]));
    }
  }

  lemma Empty(s: string)
    ensures "" + s == s
  {
  }

  lemma LastWord(w: word)
    ensures IsGroup(Hex(w)) && LastBytes(Group(Hex(w))) == WordBytes(w)
  {
    HexGroup(w);
  }

  lemma JoinBack(w: seq<word>)
    requires w != []
    ensures var n := |w| - 1; Join(w) == if n == 0 then Hex(w[0]) else Join(w[..n]) + ":" + Hex(w[n])
  {
    hide Hex;
  }

  lemma {:induction false} BytesMore(w: seq<word>)
    requires w != []
    ensures var n := |w| - 1; Bytes(w) == Bytes(w[..n]) + WordBytes(w[n])
  {
    hide WordBytes;
    var n := |w| - 1;
    if n == 0 {
      assert w[1..] == [] && Bytes([]) == [] && WordBytes(w[0]) + [] == [] + WordBytes(w[0]);
    } else {
      BytesMore(w[1..]);
      assert w[1..][..n - 1] == w[..n][1..] && w[1..][n - 1] == w[n];
      Assoc(WordBytes(w[0]), Bytes(w[..n][1..]), WordBytes(w[n]));
    }
  }

  lemma FullForm(src: Address)
    ensures Parse6(Join(Words(src))) == Some(src)
  {
    hide Parse6, Join, GroupBytes, Bytes, Hex, HexValue, Words, Each;
    var w := Words(src);
    JoinShape(w);
    NoGroups();
    var sh := Shape(Hexes(w[..7]), false, [], Group(Hex(w[7])));
    assert Text(sh) == Each(Hexes(w[..7])) + Hex(w[7]) by { assert "" + "" + Hex(w[7]) == Hex(w[7]); }
    Accepts(sh);
    BytesOfWords(src, 0, NWORDS);
    assert w[0..NWORDS] == w && src[0..16] == src;
    assert [] + LastBytes(sh.last) == LastBytes(sh.last);
  }

  /** A run of zero words is a run of zero bytes. */
  lemma ZeroBytes(src: Address, base: nat, len: nat)
    requires base + len <= NWORDS && ZeroRun(Words(src), base, len)
    ensures src[2 * base..2 * (base + len)] == Zeros(2 * len)
    ensures src == src[..2 * base] + Zeros(2 * len) + src[2 * (base + len)..]
  {
    forall k | 2 * base <= k < 2 * (base + len) ensures src[k] == 0 {
      assert Words(src)[k / 2] == 0;
    }
    hide Words;
    ZeroSlice(src, 2 * base, 2 * (base + len));
  }

  lemma ZeroSlice(src: seq<byte>, i: nat, j: nat)
    requires i <= j <= |src| && forall k | i <= k < j :: src[k] == 0
    ensures src[i..j] == Zeros(j - i) && src == src[..i] + Zeros(j - i) + src[j..]
  {
    assert src == src[..i] + src[i..j] + src[j..];
  }

  /** Words, "::" and words as a shape. */
  lemma DoubleShape(pre: seq<word>, post: seq<word>) returns (sh: Shape)
    requires |pre| + |post| < NWORDS
    ensures Good(sh) && Fits(sh) && sh.double && Size(sh) == 2 * |pre| + 2 * |post|
    ensures Text(sh) == Join(pre) + "::" + Join(post)
    ensures GroupBytes(sh.pre) == Bytes(pre) && Tail(sh) == Bytes(post)
  {
    hide Join, GroupBytes, Bytes, Hex, HexValue, Each, Text, LastBytes, AreGroups, IsGroup;
    NoGroups();
    NoWords();
    EachHex(pre);
    var groups, last := PostShape(post);
    sh := Shape(Hexes(pre), true, groups, last);
    DoubleText(sh, Join(pre), Join(post));
  }

  /** The words after "::" as groups and a last one. */
  lemma PostShape(post: seq<word>) returns (groups: seq<string>, last: Last)
    ensures AreGroups(groups) && GoodLast(last) && 2 * |groups| + LastSize(last) == 2 * |post|
    ensures Each(groups) + LastText(last) == Join(post) && GroupBytes(groups) + LastBytes(last) == Bytes(post)
  {
    hide Join, GroupBytes, Bytes, Hex, HexValue, Each, AreGroups, IsGroup;
    NoGroups();
    NoWords();
    groups, last := [], Nothing;
    if post != [] {
      JoinShape(post);
      groups, last := Hexes(post[..|post| - 1]), Group(Hex(post[|post| - 1]));
    } else {
      assert "" + "" == "" && LastBytes(Nothing) == [];
    }
  }

  lemma DoubleText(sh: Shape, before: string, after: string)
    requires sh.double && (if sh.pre == [] then before == "" else before + ":" == Each(sh.pre))
    requires Each(sh.post) + LastText(sh.last) == after
    ensures Text(sh) == before + "::" + after
  {
    hide Each, LastText;
    NoGroups();
    var rest := ":" + Each(sh.post) + LastText(sh.last);
    assert rest == ":" + after;
    assert before + ":" + rest == before + "::" + after;
  }

  lemma NoWords()
    ensures Join([]) == "" && Bytes([]) == [] && Hexes([]) == []
  {
  }

  lemma ShortForm(src: Address, base: nat, len: nat)
    requires 1 <= len && base + len <= NWORDS && ZeroRun(Words(src), base, len)
    ensures Parse6(Join(Words(src)[..base]) + "::" + Join(Words(src)[base + len..])) == Some(src)
  {
    hide Parse6, Join, GroupBytes, Bytes, Words, Tail, Good, Text;
    var w := Words(src);
    var pre, post := w[..base], w[base + len..];
    var sh := DoubleShape(pre, post);
    Accepts(sh);
    BytesOfWords(src, 0, base);
    BytesOfWords(src, base + len, NWORDS);
    assert w[0..base] == pre && src[0..2 * base] == src[..2 * base];
    assert w[base + len..NWORDS] == post && src[2 * (base + len)..2 * NWORDS] == src[2 * (base + len)..];
    ZeroBytes(src, base, len);
  }

  lemma QuadIs(b: seq<byte>)
    requires |b| == 4
    ensures IsQuad(QuadText(b)) && QuadValue(QuadText(b)) == b
  {
    QuadRoundTrip(b);
  }

  lemma V4Compatible(src: Address)
    requires ZeroRun(Words(src), 0, 6)
    ensures Parse6("::" + QuadText(src[12..])) == Some(src)
  {
    hide Parse6, QuadText, IsQuad, QuadValue, Words, HexValue;
    var quad := QuadText(src[12..]);
    QuadIs(src[12..]);
    var sh := Shape([], true, [], Dotted(quad));
    assert Text(sh) == "::" + quad;
    Accepts(sh);
    ZeroBytes(src, 0, 6);
    assert src[..0] + Zeros(12) == Zeros(12) && [] + Zeros(12) == Zeros(12) && [] + src[12..] == src[12..];
  }

  lemma FfffGroup()
    ensures IsGroup("ffff") && HexValue("ffff") == 0xffff && Each(["ffff"]) == "ffff:"
    ensures AreGroups(["ffff"]) && GroupBytes(["ffff"]) == [255, 255]
  {
    HexFfff();
    HexGroup(0xffff);
    hide IsGroup, HexValue, Hex;
    var g := ["ffff"];
    assert g[1..] == [] && g[0] == "ffff";
    assert Each(g) == "ffff" + ":" + Each(g[1..]);
    assert GroupBytes(g) == WordBytes(0xffff) + GroupBytes(g[1..]);
  }

  lemma MappedBytes(src: Address)
    requires ZeroRun(Words(src), 0, 5) && Words(src)[5] == 0xffff
    ensures src == Zeros(10) + ([255, 255] + src[12..])
  {
    ZeroBytes(src, 0, 5);
    assert Word(src[10], src[11]) == 0xffff;
    assert src[10..] == [255, 255] + src[12..];
  }

  lemma V4Mapped(src: Address)
    requires ZeroRun(Words(src), 0, 5) && Words(src)[5] == 0xffff
    ensures Parse6("::ffff:" + QuadText(src[12..])) == Some(src)
  {
    hide Parse6, QuadText, IsQuad, QuadValue, Words, Each, GroupBytes, HexValue;
    var quad := QuadText(src[12..]);
    QuadIs(src[12..]);
    FfffGroup();
    NoGroups();
    var sh := Shape([], true, ["ffff"], Dotted(quad));
    assert Text(sh) == ":" + "" + (":" + "ffff:" + quad);
    assert ":" + "" + (":" + "ffff:" + quad) == "::ffff:" + quad;
    Accepts(sh);
    MappedBytes(src);
    assert [] + Zeros(10) == Zeros(10);
  }

  /** Parsing the printed form of any address gives that address, whichever zero
      run was shortened. */
  lemma RoundTrip6(src: Address, base: int, len: int)
    requires IsBest(Words(src), base, len)
    ensures Parse6(Text6(src, base, len)) == Some(src)
  {
    hide Parse6, Words, Join, QuadText;
    if base == -1 {
      FullForm(src);
    } else if EmbedsV4(Words(src), base, len) {
      if len == 6 {
        V4Compatible(src);
        assert "::" + "" + QuadText(src[12..]) == "::" + QuadText(src[12..]);
      } else {
        V4Mapped(src);
        assert "::" + "ffff:" + QuadText(src[12..]) == "::ffff:" + QuadText(src[12..]);
      }
    } else {
      ShortForm(src, base, len);
    }
  }

  /** The two routines composed: printing into a buffer of at least 46 bytes and
      parsing the result restores the address. */
  method PrintAndParse(src: Address, size: nat) returns (r: Option<seq<byte>>)
    requires size >= TMPSZ
    ensures r == Some(src)
  {
    var text := Ntop6(src, size);
    ghost var base, len :| Prints(src, base, len, size, text);
    TextFits(src, base, len);
    RoundTrip6(src, base, len);
    r := Pton6(text.value);
  }
}
