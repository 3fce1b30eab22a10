/**
  Exactly which strings inet_pton6 accepts, and what they mean.  A string is groups of
  hexadecimal digits each followed by a colon, at most once an extra colon, and at the
  end a group, a dotted quad or nothing.  The forms of section 2.2 of RFC 1884 are among
  them; beyond those, groups may have more leading zeros, "::" may stand where nothing is
  missing, and one colon may follow a last group.
 */
module InetForms {
  import opened Common
  import opened InetText
  import opened Numerals
  import opened InetPton

  // ---- shapes ---------------------------------------------------------------------------

  /** A group: hexadecimal digits of either case and any number, of value below 2^16. */
  predicate IsGroup(s: string) {
    s != "" && AllHex(s) && HexValue(s) < 0x10000
  }

  predicate AreGroups(groups: seq<string>) {
    forall i | 0 <= i < |groups| :: IsGroup(groups[i])
  }

  datatype Last = Nothing | Group(g: string) | Dotted(q: string)

  /** Groups before and after an extra colon, and what stands at the end. */
  datatype Shape = Shape(pre: seq<string>, double: bool, post: seq<string>, last: Last)

  predicate GoodLast(l: Last) {
    (l.Group? ==> IsGroup(l.g)) && (l.Dotted? ==> IsQuad(l.q))
  }

  predicate Good(sh: Shape) {
    AreGroups(sh.pre) && AreGroups(sh.post) && GoodLast(sh.last) && (!sh.double ==> sh.post == [])
  }

  /** Each group with its colon. */
  function Each(groups: seq<string>): string {
    if groups == [] then "" else groups[0] + ":" + Each(groups[1..])
  }

  function LastText(l: Last): string {
    match l
    case Nothing => ""
    case Group(g) => g
    case Dotted(q) => q
  }

  function Rest(double: bool, post: seq<string>, last: Last): string {
    (if double then ":" else "") + Each(post) + LastText(last)
  }

  /** The string; a leading "::" has two colons of its own. */
  function Text(sh: Shape): string {
    (if sh.pre == [] && sh.double then ":" else "") + Each(sh.pre) + Rest(sh.double, sh.post, sh.last)
  }

  function GroupBytes(groups: seq<string>): (b: seq<byte>)
    requires AreGroups(groups)
    ensures |b| == 2 * |groups|
  {
    if groups == [] then [] else WordBytes(HexValue(groups[0])) + GroupBytes(groups[1..])
  }

  function LastBytes(l: Last): (b: seq<byte>)
    requires GoodLast(l)
    ensures |b| == LastSize(l)
  {
    match l
    case Nothing => []
    case Group(g) => WordBytes(HexValue(g))
    case Dotted(q) => QuadValue(q)
  }

  function LastSize(l: Last): nat {
    match l
    case Nothing => 0
    case Group(_) => INT16SZ
    case Dotted(_) => INADDRSZ
  }

  function Size(sh: Shape): nat {
    2 * |sh.pre| + 2 * |sh.post| + LastSize(sh.last)
  }

  /** All sixteen bytes, or no more than that around "::". */
  predicate Fits(sh: Shape) {
    if sh.double then Size(sh) <= IN6ADDRSZ else Size(sh) == IN6ADDRSZ
  }

  function Tail(sh: Shape): (b: seq<byte>)
    requires Good(sh)
    ensures |b| == 2 * |sh.post| + LastSize(sh.last)
  {
    GroupBytes(sh.post) + LastBytes(sh.last)
  }

  /** "::" stands for the bytes missing; when none is missing it erases those after it. */
  function Meaning(sh: Shape): seq<byte>
    requires Good(sh) && Fits(sh)
  {
    if !sh.double then GroupBytes(sh.pre) + Tail(sh)
    else if Size(sh) == IN6ADDRSZ then GroupBytes(sh.pre) + Zeros(|Tail(sh)|)
    else GroupBytes(sh.pre) + Zeros(IN6ADDRSZ - Size(sh)) + Tail(sh)
  }

  // ---- the scan of one token ----------------------------------------------------------------

  predicate Fresh(st: Scan6) {
    st.val == 0 && !st.saw && st.tok == "" && |st.bytes| <= IN6ADDRSZ
  }

  lemma ScanOne(c: char, rest: string, st: Scan6)
    requires HexVal(c) >= 0
    ensures var v := st.val * 16 + HexVal(c);
      Scan([c] + rest, st) == if v > 0xffff then None else Scan(rest, st.(val := v, saw := true, tok := st.tok + [c]))
  {
    assert ([c] + rest)[1..] == rest;
  }

  function Digits(s: string, st: Scan6): Scan6
    requires AllHex(s) && HexValue(s) < 0x10000
  {
    st.(val := HexValue(s), saw := true, tok := s)
  }

  /** A run of digits is read as its value, and refused when that is too large. */
  lemma {:induction false} ScanDigits(s: string, rest: string, st: Scan6)
    requires s != "" && AllHex(s) && Fresh(st)
    ensures Scan(s + rest, st) == if HexValue(s) > 0xffff then None else Scan(rest, Digits(s, st))
    decreases |s|
  {
    hide Scan;
    var n := |s| - 1;
    var init, c := s[..n], s[n];
    assert HexVal(c) >= 0;
    if n == 0 {
      assert s == [c] && "" + [c] == s;
      ScanOne(c, rest, st);
    } else {
      assert s + rest == init + ([c] + rest);
      ScanDigits(init, [c] + rest, st);
      if HexValue(init) <= 0xffff {
        ScanOne(c, rest, Digits(init, st));
        assert init + [c] == s;
      }
    }
  }

  lemma ScanColonAfterWord(rest: string, st: Scan6)
    requires st.saw
    ensures Scan(":" + rest, st) == if |st.bytes| + INT16SZ > IN6ADDRSZ then None else Scan(rest, Stored(st))
  {
    assert (":" + rest)[1..] == rest;
  }

  lemma ScanDoubleColon(rest: string, st: Scan6)
    requires Fresh(st)
    ensures Scan(":" + rest, st) == if st.colon.Some? then None else Scan(rest, st.(colon := Some(|st.bytes|)))
  {
    assert (":" + rest)[1..] == rest;
  }

  lemma ScanDot(rest: string, st: Scan6)
    requires rest != "" && rest[0] == '.'
    ensures Scan(rest, st) == if |st.bytes| + INADDRSZ <= IN6ADDRSZ then WithQuad(st, Quad(st.tok + rest)) else None
  {
    hide Quad;
  }

  lemma ScanOther(rest: string, st: Scan6)
    requires rest != "" && HexVal(rest[0]) < 0 && rest[0] != ':' && rest[0] != '.'
    ensures Scan(rest, st) == None
  {
  }

  // ---- quads ----------------------------------------------------------------------------------

  lemma {:induction false} ZeroDigits(s: string)
    requires AllDigits(s) && Value(s) == 0
    ensures AllHex(s) && HexValue(s) == 0
    decreases |s|
  {
    if s != "" {
      ZeroDigits(s[..|s| - 1]);
    }
  }

  /** The first octet of a quad, read as hexadecimal before its dot is seen, does not overflow. */
  lemma {:induction false} DigitsAsHex(s: string, k: nat)
    requires AllDigits(s) && k <= 3 &&
      Value(s) < (if k == 0 then 1 else if k == 1 then 10 else if k == 2 then 100 else 1000)
    ensures AllHex(s) && HexValue(s) < (if k == 0 then 1 else if k == 1 then 0x10 else if k == 2 then 0x100 else 0x1000)
    decreases |s|
  {
    if k == 0 {
      ZeroDigits(s);
    } else if s != "" {
      DigitsAsHex(s[..|s| - 1], k - 1);
    }
  }

  lemma FirstExtended(p: seq<string>, c: char)
    requires p != []
    ensures var q := Extended(p, c);
      && |q| == (if c == '.' then |p| + 1 else |p|)
      && q[0] == if c != '.' && |p| == 1 then p[0] + [c] else p[0]
  {
  }

  /** A text that starts with d, whole or up to a dot. */
  predicate StartsWith(s: string, d: string, whole: bool) {
    |d| <= |s| && d == s[..|d|] && (whole <==> d == s) && (!whole ==> |d| < |s| && s[|d|] == '.')
  }

  lemma StartsLonger(s: string, d: string, whole: bool, c: char)
    requires StartsWith(s, d, whole)
    ensures if !whole then StartsWith(s + [c], d, false)
            else if c == '.' then StartsWith(s + [c], d, false) else StartsWith(s + [c], d + [c], true)
  {
    assert (s + [c])[..|d|] == s[..|d|];
  }

  /** A text with several pieces is its first piece, a dot, and the rest. */
  lemma {:induction false} FirstPiece(s: string)
    ensures StartsWith(s, Pieces(s)[0], |Pieces(s)| == 1)
    decreases |s|
  {
    if s == "" {
      assert Pieces(s) == [""];
    } else {
      hide Pieces, Extended, StartsWith;
      var n := |s| - 1;
      var init, c := s[..n], s[n];
      assert s == init + [c] && s[..n + 1] == s;
      FirstPiece(init);
      PiecesStep(s, n);
      FirstExtended(Pieces(init), c);
      StartsLonger(init, Pieces(init)[0], |Pieces(init)| == 1, c);
    }
  }

  /** A quad starts with digits that also scan as a small group. */
  lemma QuadStart(q: string) returns (d: string, rest: string)
    requires IsQuad(q)
    ensures q == d + rest && d != "" && AllHex(d) && HexValue(d) < 0x10000 && rest != "" && rest[0] == '.'
    ensures HexVal(q[0]) >= 0
  {
    hide Pieces, Value, HexValue;
    d := Pieces(q)[0];
    FirstPiece(q);
    DigitsAsHex(d, 3);
    rest := q[|d|..];
    assert q[0] == d[0];
  }

  // ---- every shape that fits is accepted ---------------------------------------------------------

  lemma ScanQuad(q: string, st: Scan6)
    requires IsQuad(q) && Fresh(st) && |st.bytes| + INADDRSZ <= IN6ADDRSZ
    ensures Result(Scan(q, st)) == Complete(st.bytes + QuadValue(q), st.colon)
  {
    var d, rest := QuadStart(q);
    hide Scan, IsQuad, HexValue, Complete, QuadValue;
    ScanDigits(d, rest, st);
    ScanDot(rest, Digits(d, st));
  }

  lemma ScanLast(l: Last, st: Scan6)
    requires GoodLast(l) && Fresh(st) && |st.bytes| + LastSize(l) <= IN6ADDRSZ
    ensures Result(Scan(LastText(l), st)) == Complete(st.bytes + LastBytes(l), st.colon)
  {
    hide HexValue, IsQuad, QuadValue, Complete, WordBytes;
    match l
    case Nothing => assert st.bytes + [] == st.bytes;
    case Group(g) =>
      ScanDigits(g, "", st);
      assert g + "" == g;
    case Dotted(q) => ScanQuad(q, st);
  }

  lemma Assoc(a: seq<byte>, b: seq<byte>, c: seq<byte>)
    ensures a + b + c == a + (b + c)
  {
  }

  lemma {:induction false} ScanEach(groups: seq<string>, rest: string, st: Scan6)
    requires AreGroups(groups) && Fresh(st) && |st.bytes| + 2 * |groups| <= IN6ADDRSZ
    ensures Scan(Each(groups) + rest, st) == Scan(rest, st.(bytes := st.bytes + GroupBytes(groups)))
    decreases |groups|
  {
    hide Scan, HexValue, WordBytes;
    if groups == [] {
      assert "" + rest == rest && st.bytes + [] == st.bytes;
    } else {
      var g, more := groups[0], groups[1..];
      var tail := Each(more) + rest;
      assert IsGroup(g);
      assert Each(groups) + rest == g + (":" + tail);
      ScanDigits(g, ":" + tail, st);
      ScanColonAfterWord(tail, Digits(g, st));
      assert |WordBytes(HexValue(g))| == 2 by { WordSize(HexValue(g)); }
      ScanEach(more, rest, Stored(Digits(g, st)));
      Assoc(st.bytes, WordBytes(HexValue(g)), GroupBytes(more));
    }
  }

  lemma WordSize(w: word)
    ensures |WordBytes(w)| == 2
  {
  }

  /** The shift at the end, between what stood before and after "::". */
  lemma Completed(x: seq<byte>, y: seq<byte>)
    requires |x| + |y| <= IN6ADDRSZ
    ensures Complete(x + y, Some(|x|)) ==
      Some(if |x| + |y| == IN6ADDRSZ then x + Zeros(|y|) else x + Zeros(IN6ADDRSZ - |x| - |y|) + y)
  {
    var b := x + y;
    assert b[..|x|] == x && b[|x|..] == y;
  }

  /** From the extra colon, if there is one, to the end. */
  lemma ScanTail(sh: Shape, st: Scan6)
    requires Good(sh) && Fits(sh) && Fresh(st) && st.colon.None? && st.bytes == GroupBytes(sh.pre)
    ensures Result(Scan(Rest(sh.double, sh.post, sh.last), st)) == Some(Meaning(sh))
  {
    hide Scan, HexValue, IsQuad, GroupBytes, LastBytes, Zeros, AreGroups, Each;
    var end := LastText(sh.last);
    if sh.double {
      var more := Each(sh.post) + end;
      assert Rest(true, sh.post, sh.last) == ":" + more;
      ScanDoubleColon(more, st);
      ScanMore(sh, st.(colon := Some(|st.bytes|)));
      Completed(GroupBytes(sh.pre), Tail(sh));
    } else {
      NoGroups();
      assert Rest(false, [], sh.last) == end;
      ScanLast(sh.last, st);
      assert [] + LastBytes(sh.last) == LastBytes(sh.last);
    }
  }

  lemma NoGroups()
    ensures Each([]) == "" && AreGroups([]) && GroupBytes([]) == []
  {
  }

  lemma ScanMore(sh: Shape, st: Scan6)
    requires Good(sh) && Fits(sh) && Fresh(st) && st.bytes == GroupBytes(sh.pre)
    ensures Result(Scan(Each(sh.post) + LastText(sh.last), st)) == Complete(st.bytes + Tail(sh), st.colon)
  {
    hide Scan, HexValue, IsQuad, GroupBytes, LastBytes, AreGroups, Each, LastText, Complete;
    ScanEach(sh.post, LastText(sh.last), st);
    ScanLast(sh.last, st.(bytes := st.bytes + GroupBytes(sh.post)));
    Assoc(st.bytes, GroupBytes(sh.post), LastBytes(sh.last));
  }

  lemma FirstOfGroups(groups: seq<string>, rest: string)
    requires AreGroups(groups) && groups != []
    ensures var s := Each(groups) + rest; s != "" && HexVal(s[0]) >= 0 && s[0] != ':'
  {
    hide HexValue;
    assert IsGroup(groups[0]);
    assert (Each(groups) + rest)[0] == groups[0][0];
  }

  lemma FirstOfLast(l: Last)
    requires GoodLast(l)
    ensures LastText(l) == "" || HexVal(LastText(l)[0]) >= 0
  {
    if l.Dotted? {
      var d, rest := QuadStart(l.q);
    }
  }

  lemma BeginsSomehow(sh: Shape)
    requires Good(sh) && Fits(sh)
    ensures sh.pre != [] || sh.double
  {
  }

  lemma Accepts(sh: Shape)
    requires Good(sh) && Fits(sh)
    ensures Parse6(Text(sh)) == Some(Meaning(sh))
  {
    hide Scan, HexValue, IsQuad, GroupBytes, Meaning;
    var rest := Rest(sh.double, sh.post, sh.last);
    NoGroups();
    BeginsSomehow(sh);
    if sh.pre == [] {
      ScanTail(sh, START);
      assert Text(sh) == ":" + rest && (":" + rest)[1..] == rest && rest[0] == ':';
    } else {
      FirstOfGroups(sh.pre, rest);
      assert Text(sh) == Each(sh.pre) + rest;
      ScanEach(sh.pre, rest, START);
      assert [] + GroupBytes(sh.pre) == GroupBytes(sh.pre);
      ScanTail(sh, START.(bytes := GroupBytes(sh.pre)));
    }
  }

  // ---- and nothing else is --------------------------------------------------------------------------

  function HexRun(s: string): (n: nat)
    ensures n <= |s| && AllHex(s[..n]) && (n < |s| ==> HexVal(s[n]) < 0)
  {
    if s != "" && HexVal(s[0]) >= 0 then 1 + HexRun(s[1..]) else 0
  }

  /** What a scan from the start of a token has found. */
  predicate Found(rest: string, st: Scan6, sh: Shape) {
    && Good(sh) && rest == Each(sh.pre) + Rest(sh.double, sh.post, sh.last)
    && |st.bytes| + Size(sh) <= IN6ADDRSZ
    && (sh.double ==> st.colon.None?)
    && (!sh.double && st.colon.None? ==> |st.bytes| + Size(sh) == IN6ADDRSZ)
  }

  lemma FoundNothing(st: Scan6)
    requires Fresh(st) && Result(Scan("", st)).Some?
    ensures Found("", st, Shape([], false, [], Nothing))
  {
  }

  lemma FoundGroup(g: string, st: Scan6)
    requires Fresh(st) && IsGroup(g) && Result(Scan(g, st)).Some?
    ensures Found(g, st, Shape([], false, [], Group(g)))
  {
    ScanDigits(g, "", st);
    hide HexValue;
    assert g + "" == g;
    NoGroups();
    assert "" + ("" + "" + g) == g;
  }

  lemma FoundQuad(q: string, st: Scan6)
    requires Fresh(st) && IsQuad(q) && Result(Scan(q, st)).Some?
    ensures Found(q, st, Shape([], false, [], Dotted(q)))
  {
    var d, rest := QuadStart(q);
    hide HexValue, IsQuad, QuadValue;
    ScanDigits(d, rest, st);
    ScanDot(rest, Digits(d, st));
    NoGroups();
    assert "" + ("" + "" + q) == q;
    QuadBytes(q, st);
  }

  lemma QuadBytes(q: string, st: Scan6)
    requires IsQuad(q)
    ensures Quad(q).Some? && |Quad(q).value| == 4
  {
  }

  /** An extra colon: all groups found after it stand after "::". */
  lemma FoundColon(rest: string, st: Scan6, sh: Shape)
    requires Fresh(st) && st.colon.None? && Found(rest, st.(colon := Some(|st.bytes|)), sh)
    ensures Found(":" + rest, st, Shape([], true, sh.pre, sh.last))
  {
    hide HexValue, IsQuad;
    NoGroups();
    var t := LastText(sh.last);
    assert rest == Each(sh.pre) + ("" + "" + t);
    assert ":" + rest == "" + (":" + Each(sh.pre) + t);
  }

  lemma FoundMore(g: string, rest: string, st: Scan6, sh: Shape)
    requires Fresh(st) && IsGroup(g) && |st.bytes| + INT16SZ <= IN6ADDRSZ && Found(rest, Stored(Digits(g, st)), sh)
    ensures Found(g + ":" + rest, st, sh.(pre := [g] + sh.pre))
  {
    hide HexValue, IsQuad, Rest;
    WordSize(HexValue(g));
    var pre := [g] + sh.pre;
    assert pre[1..] == sh.pre;
    assert forall i | 0 <= i < |pre| :: i > 0 ==> pre[i] == sh.pre[i - 1];
    assert g + ":" + rest == Each(pre) + Rest(sh.double, sh.post, sh.last);
  }

  lemma NoQuadHere(s: string)
    requires s != "" && s[0] == '.'
    ensures !IsQuad(s)
  {
    if IsQuad(s) {
      var d, rest := QuadStart(s);
    }
  }

  /** Whatever a scan from the start of a token accepts has a shape. */
  lemma {:induction false} ScanFinds(s: string, st: Scan6) returns (sh: Shape)
    requires Fresh(st) && Result(Scan(s, st)).Some?
    ensures Found(s, st, sh)
    decreases |s|
  {
    hide Scan, Found, IsQuad, HexValue;
    var n := HexRun(s);
    if s == "" {
      FoundNothing(st);
      sh := Shape([], false, [], Nothing);
    } else if n == 0 {
      var rest := s[1..];
      if s[0] == ':' {
        assert s == ":" + rest;
        ScanDoubleColon(rest, st);
        var sh1 := ScanFinds(rest, st.(colon := Some(|st.bytes|)));
        FoundColon(rest, st, sh1);
        sh := Shape([], true, sh1.pre, sh1.last);
      } else if s[0] == '.' {
        assert "" + s == s;
        ScanDot(s, st);
        NoQuadHere(s);
      } else {
        ScanOther(s, st);
      }
    } else {
      sh := GroupFinds(s, st, n);
    }
  }

  lemma {:induction false} GroupFinds(s: string, st: Scan6, n: nat) returns (sh: Shape)
    requires Fresh(st) && Result(Scan(s, st)).Some? && n == HexRun(s) > 0
    ensures Found(s, st, sh)
    decreases |s|, 0
  {
    hide Scan, Found, IsQuad, HexValue;
    var g, after := s[..n], s[n..];
    assert s == g + after;
    ScanDigits(g, after, st);
    if after == "" {
      assert g == s;
      FoundGroup(g, st);
      sh := Shape([], false, [], Group(g));
    } else if after[0] == ':' {
      var rest := after[1..];
      assert after == ":" + rest && s == g + ":" + rest;
      ScanColonAfterWord(rest, Digits(g, st));
      WordSize(HexValue(g));
      var sh1 := ScanFinds(rest, Stored(Digits(g, st)));
      FoundMore(g, rest, st, sh1);
      sh := sh1.(pre := [g] + sh1.pre);
    } else if after[0] == '.' {
      ScanDot(after, Digits(g, st));
      FoundQuad(s, st);
      sh := Shape([], false, [], Dotted(s));
    } else {
      ScanOther(after, Digits(g, st));
    }
  }

  lemma HasShape(s: string) returns (sh: Shape)
    requires Parse6(s).Some?
    ensures Good(sh) && Fits(sh) && Text(sh) == s
  {
    hide Scan, IsQuad, HexValue, Each, AreGroups, GoodLast, LastText;
    NoGroups();
    if s != "" && s[0] == ':' {
      sh := ScanFinds(s[1..], START);
      assert s == ":" + s[1..];
      StartsDouble(sh, s[1..]);
    } else {
      sh := ScanFinds(s, START);
    }
  }

  lemma StartsDouble(sh: Shape, rest: string)
    requires Found(rest, START, sh) && rest != "" && rest[0] == ':'
    ensures sh.pre == [] && sh.double
  {
    hide HexValue, IsQuad;
    NoGroups();
    FirstOfLast(sh.last);
    assert "" + ("" + "" + LastText(sh.last)) == LastText(sh.last);
    if sh.pre != [] {
      FirstOfGroups(sh.pre, Rest(sh.double, sh.post, sh.last));
    }
  }

  /** The strings inet_pton6 accepts are the shapes that fit, with their meanings. */
  lemma ParsesExactly(s: string, b: seq<byte>)
    ensures Parse6(s) == Some(b) <==> exists sh :: Good(sh) && Fits(sh) && Text(sh) == s && Meaning(sh) == b
  {
    hide Parse6, Good, Fits, Text, Meaning;
    if Parse6(s) == Some(b) {
      var sh := HasShape(s);
      Accepts(sh);
    }
    forall sh | Good(sh) && Fits(sh) && Text(sh) == s && Meaning(sh) == b ensures Parse6(s) == Some(b) {
      Accepts(sh);
    }
  }

  /** In an address that gives all sixteen bytes "::" is ignored exactly when only zeros follow it. */
  lemma DoubleColonInFullAddress(sh: Shape)
    requires Good(sh) && sh.double && Size(sh) == IN6ADDRSZ
    ensures Parse6(Text(sh)) == Some(GroupBytes(sh.pre) + Zeros(|Tail(sh)|))
    ensures Parse6(Text(sh)) == Some(GroupBytes(sh.pre) + Tail(sh)) <==> Tail(sh) == Zeros(|Tail(sh)|)
  {
    hide Parse6, GroupBytes, Tail, Zeros, Text, AreGroups, GoodLast;
    Accepts(sh);
    SameHead(GroupBytes(sh.pre), Zeros(|Tail(sh)|), Tail(sh));
  }

  lemma SameHead(a: seq<byte>, b: seq<byte>, c: seq<byte>)
    ensures a + b == a + c ==> b == c
  {
    assert (a + b)[|a|..] == b && (a + c)[|a|..] == c;
  }
}
