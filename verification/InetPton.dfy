/** Presentation to network format: libfree/inet_pton.c. */
module InetPton {
  import opened Common
  import opened InetText
  import opened Numerals

  const INADDRSZ := 4
  const INT16SZ := 2
  const IN6ADDRSZ := 16

  // ---- inet_pton4 ---------------------------------------------------------------

  /** No continuation of a string with these pieces is a dotted quad. */
  ghost predicate Spoiled(p: seq<string>) {
    || |p| > 4
    || (exists j :: 0 <= j < |p| - 1 && !IsOctet(p[j]))
    || (p != [] && !(AllDigits(p[|p| - 1]) && Value(p[|p| - 1]) <= 255))
  }

  lemma {:induction false} PiecesGrow(s: string, t: string)
    ensures var p, q := Pieces(s), Pieces(s + t);
            && |p| <= |q|
            && (forall j | 0 <= j < |p| - 1 :: q[j] == p[j])
            && p[|p| - 1] <= q[|p| - 1]
  {
    hide Pieces, Extended;
    if t == "" {
      assert s + t == s;
    } else {
      var u, n := s + t, |s + t| - 1;
      PiecesGrow(s, t[..|t| - 1]);
      assert u[..n] == s + t[..|t| - 1] && u[..n + 1] == u;
      PiecesStep(u, n);
      ExtendedGrows(Pieces(s), Pieces(u[..n]), u[n]);
    }
  }

  lemma ExtendedGrows(p: seq<string>, q: seq<string>, c: char)
    requires 1 <= |p| <= |q| && (forall j | 0 <= j < |p| - 1 :: q[j] == p[j]) && p[|p| - 1] <= q[|p| - 1]
    ensures var r := Extended(q, c);
      |p| <= |r| && (forall j | 0 <= j < |p| - 1 :: r[j] == p[j]) && p[|p| - 1] <= r[|p| - 1]
  {
  }

  lemma {:induction false} ValuePrefix(a: string, b: string)
    requires a <= b && AllDigits(b)
    ensures AllDigits(a) && Value(a) <= Value(b)
  {
    if a != b {
      ValuePrefix(a, b[..|b| - 1]);
    }
  }

  lemma SpoiledGrows(p: seq<string>, q: seq<string>)
    requires p != [] && Spoiled(p) && |p| <= |q| && p[|p| - 1] <= q[|p| - 1]
    requires forall j | 0 <= j < |p| - 1 :: q[j] == p[j]
    ensures |q| != 4 || exists j :: 0 <= j < 4 && !IsOctet(q[j])
  {
    var k := |p| - 1;
    if |q| == 4 && AllDigits(q[k]) {
      ValuePrefix(p[k], q[k]);
      if Value(p[k]) > 255 {
        assert !IsOctet(q[k]);
      }
    }
  }

  lemma SpoiledStays(src: string, i: nat)
    requires i <= |src| && Spoiled(Pieces(src[..i]))
    ensures Quad(src) == None
  {
    PiecesGrow(src[..i], src[i..]);
    assert src[..i] + src[i..] == src;
    SpoiledGrows(Pieces(src[..i]), Pieces(src));
  }

  /** What the loop of inet_pton4 has read, by pieces: complete octets, and the
      value of a started one. */
  ghost predicate Reading(p: seq<string>, tmp: seq<byte>, tp: nat, saw: bool) {
    && |p| == tp + 1 <= |tmp|
    && (forall j | 0 <= j < tp :: IsOctet(p[j]) && Value(p[j]) == tmp[j])
    && AllDigits(p[tp]) && Value(p[tp]) == tmp[tp]
    && (saw <==> p[tp] != "")
  }

  lemma DigitRead(p: seq<string>, c: char, tmp: seq<byte>, tp: nat, saw: bool)
    requires Reading(p, tmp, tp, saw) && IsDigit(c)
    ensures var v := tmp[tp] * 10 + (c as int - '0' as int);
            if v > 255 then Spoiled(Extended(p, c)) else Reading(Extended(p, c), tmp[tp := v], tp, true)
  {
    var last := p[tp] + [c];
    assert last[..|last| - 1] == p[tp];
    assert Value(last) == 10 * Value(p[tp]) + (c as int - '0' as int);
  }

  lemma DotRead(p: seq<string>, tmp: seq<byte>, tp: nat)
    requires Reading(p, tmp, tp, true) && |tmp| == INADDRSZ
    ensures if tp == 3 then Spoiled(Extended(p, '.')) else Reading(Extended(p, '.'), tmp[tp + 1 := 0], tp + 1, false)
  {
    assert Value("") == 0;
  }

  lemma OtherRead(p: seq<string>, c: char, tmp: seq<byte>, tp: nat, saw: bool)
    requires Reading(p, tmp, tp, saw) && !IsDigit(c) && (c == '.' ==> !saw)
    ensures Spoiled(Extended(p, c))
  {
    var q := Extended(p, c);
    if c == '.' {
      assert !IsOctet(q[tp]);
    } else {
      assert q[tp][|p[tp]|] == c;
    }
  }

  lemma NoneRead()
    ensures Reading(Pieces(""), [0, 0, 0, 0], 0, false)
  {
  }

  lemma AllRead(src: string, tmp: seq<byte>, tp: nat, saw: bool)
    requires Reading(Pieces(src), tmp, tp, saw) && |tmp| == INADDRSZ
    ensures Quad(src) == if tp == 3 && saw then Some(tmp) else None
  {
    if tp == 3 && saw {
      QuadOf(src, Pieces(src), tmp);
    }
  }

  /** inet_pton4: accepts exactly the dotted quads and stores their four values. */
  method Pton4(src: string) returns (r: Option<seq<byte>>)
    ensures r == Quad(src)
  {
    hide Reading, Spoiled, Pieces, Extended, Quad;
    var saw, octets, tp := false, 0, 0;
    var tmp := new byte[INADDRSZ](_ => 0);
    var i := 0;
    NoneRead();
    assert src[..0] == "" && tmp[..] == [0, 0, 0, 0];
    while i < |src|
      invariant 0 <= i <= |src| && 0 <= tp < INADDRSZ && octets == tp + (if saw then 1 else 0)
      invariant Reading(Pieces(src[..i]), tmp[..], tp, saw)
    {
      var ch := src[i];
      ghost var p := Pieces(src[..i]);
      PiecesStep(src, i);
      if IsDigit(ch) {
        var value := tmp[tp] * 10 + (ch as int - '0' as int);
        DigitRead(p, ch, tmp[..], tp, saw);
        if value > 255 {
          SpoiledStays(src, i + 1);
          return None;
        }
        ghost var tmp0 := tmp[..];
        tmp[tp] := value;
        assert tmp[..] == tmp0[tp := tmp[tp]];
        if !saw {
          octets := octets + 1;
          if octets > 4 {
            return None;
          }
          saw := true;
        }
      } else if ch == '.' && saw {
        DotRead(p, tmp[..], tp);
        if octets == 4 {
          SpoiledStays(src, i + 1);
          return None;
        }
        ghost var tmp0 := tmp[..];
        tp := tp + 1;
        tmp[tp] := 0;
        assert tmp[..] == tmp0[tp := 0];
        saw := false;
      } else {
        OtherRead(p, ch, tmp[..], tp, saw);
        SpoiledStays(src, i + 1);
        return None;
      }
      i := i + 1;
    }
    assert src[..|src|] == src;
    AllRead(src, tmp[..], tp, saw);
    if octets < 4 {
      return None;
    }
    return Some(tmp[..]);
  }

  // ---- inet_pton6 ---------------------------------------------------------------

  /** Variables of the loop of inet_pton6: bytes stored so far, where "::" stood,
      the word being read, and the text since the last colon. */
  datatype Scan6 = Scan6(bytes: seq<byte>, colon: Option<nat>, val: word, saw: bool, tok: string)

  const START := Scan6([], None, 0, false, "")

  function WordBytes(w: word): seq<byte> {
    [w / 256, w % 256]
  }

  function Stored(st: Scan6): Scan6 {
    st.(bytes := st.bytes + WordBytes(st.val), val := 0, saw := false, tok := "")
  }

  function WithQuad(st: Scan6, q: Option<seq<byte>>): Option<Scan6> {
    if q.None? then None else Some(st.(bytes := st.bytes + q.value, saw := false))
  }

  function Scan(rest: string, st: Scan6): Option<Scan6> {
    if rest == "" then Some(st)
    else
      var ch, d := rest[0], HexVal(rest[0]);
      if d >= 0 then
        var v := st.val * 16 + d;
        if v > 0xffff then None else Scan(rest[1..], st.(val := v, saw := true, tok := st.tok + [ch]))
      else if ch == ':' then
        if !st.saw then
          if st.colon.Some? then None else Scan(rest[1..], st.(colon := Some(|st.bytes|), tok := ""))
        else if |st.bytes| + INT16SZ > IN6ADDRSZ then None
        else Scan(rest[1..], Stored(st))
      else if ch == '.' && |st.bytes| + INADDRSZ <= IN6ADDRSZ then WithQuad(st, Quad(st.tok + rest))
      else None
  }

  lemma ScanDigit(src: string, i: nat, st: Scan6)
    requires i < |src| && HexVal(src[i]) >= 0
    ensures var v := st.val * 16 + HexVal(src[i]);
            Scan(src[i..], st) ==
            if v > 0xffff then None else Scan(src[i + 1..], st.(val := v, saw := true, tok := st.tok + [src[i]]))
  {
    assert src[i..][1..] == src[i + 1..];
  }

  lemma ScanColon(src: string, i: nat, st: Scan6)
    requires i < |src| && src[i] == ':'
    ensures Scan(src[i..], st) ==
            if !st.saw then
              if st.colon.Some? then None else Scan(src[i + 1..], st.(colon := Some(|st.bytes|), tok := ""))
            else if |st.bytes| + INT16SZ > IN6ADDRSZ then None
            else Scan(src[i + 1..], Stored(st))
  {
    assert src[i..][1..] == src[i + 1..];
  }

  lemma ScanRest(src: string, cur: nat, i: nat, st: Scan6)
    requires cur <= i < |src| && HexVal(src[i]) < 0 && src[i] != ':' && st.tok == src[cur..i]
    ensures Scan(src[i..], st) ==
            if src[i] == '.' && |st.bytes| + INADDRSZ <= IN6ADDRSZ then WithQuad(st, Quad(src[cur..])) else None
  {
    assert src[cur..i] + src[i..] == src[cur..];
  }

  lemma ScanEnd(st: Scan6)
    ensures Scan("", st) == Some(st)
  {
  }

  function Zeros(n: nat): seq<byte> {
    seq(n, _ => 0)
  }

  /** The bytes after "::" moved to the end.  When all 16 bytes were given they are
      zeroed instead. */
  function Spread(bytes: seq<byte>, colon: nat): seq<byte>
    requires colon <= |bytes| <= IN6ADDRSZ
  {
    if |bytes| == IN6ADDRSZ then bytes[..colon] + Zeros(IN6ADDRSZ - colon)
    else bytes[..colon] + Zeros(IN6ADDRSZ - |bytes|) + bytes[colon..]
  }

  function Complete(b: seq<byte>, colon: Option<nat>): Option<seq<byte>> {
    if colon.Some? && colon.value <= |b| <= IN6ADDRSZ then Some(Spread(b, colon.value))
    else if colon.None? && |b| == IN6ADDRSZ then Some(b)
    else None
  }

  function Finish(st: Scan6): Option<seq<byte>> {
    if !st.saw then Complete(st.bytes, st.colon)
    else if |st.bytes| + INT16SZ > IN6ADDRSZ then None
    else Complete(st.bytes + WordBytes(st.val), st.colon)
  }

  /** What inet_pton6 makes of a string. */
  function Parse6(src: string): Option<seq<byte>> {
    if src != "" && src[0] == ':' then
      if |src| == 1 || src[1] != ':' then None else Result(Scan(src[1..], START))
    else Result(Scan(src, START))
  }

  function Result(st: Option<Scan6>): Option<seq<byte>> {
    if st.None? then None else Finish(st.value)
  }

  /** The shift that inet_pton6 does by hand on its own buffer. */
  method SpreadInPlace(tmp: array<byte>, colon: nat, tp: nat)
    requires tmp.Length == IN6ADDRSZ && colon <= tp <= IN6ADDRSZ
    requires forall j | tp <= j < IN6ADDRSZ :: tmp[j] == 0
    modifies tmp
    ensures tmp[..] == Spread(old(tmp[..tp]), colon)
  {
    ghost var b := tmp[..tp];
    var n := tp - colon;
    var i := 1;
    while i <= n
      invariant 1 <= i <= n + 1
      invariant forall j | 0 <= j < IN6ADDRSZ :: tmp[j] == Shifted(b, i - 1, j)
    {
      tmp[IN6ADDRSZ - i] := tmp[tp - i];
      tmp[tp - i] := 0;
      i := i + 1;
    }
    SpreadIs(tmp[..], b, colon);
  }

  /** Byte j of the buffer when the last k bytes given have been moved. */
  function Shifted(b: seq<byte>, k: nat, j: nat): byte
    requires k <= |b| <= IN6ADDRSZ && j < IN6ADDRSZ
  {
    if j >= IN6ADDRSZ - k then if |b| == IN6ADDRSZ then 0 else b[j - (IN6ADDRSZ - |b|)]
    else if j >= |b| - k then 0
    else b[j]
  }

  lemma SpreadIs(t: seq<byte>, b: seq<byte>, colon: nat)
    requires |t| == IN6ADDRSZ && colon <= |b| <= IN6ADDRSZ
    requires forall j | 0 <= j < IN6ADDRSZ :: t[j] == Shifted(b, |b| - colon, j)
    ensures t == Spread(b, colon)
  {
  }

  /** Store bytes at `tp`; everything after them is still zero. */
  method Put(tmp: array<byte>, tp: nat, bytes: seq<byte>)
    requires tp + |bytes| <= tmp.Length && forall j | tp <= j < tmp.Length :: tmp[j] == 0
    modifies tmp
    ensures tmp[..tp + |bytes|] == old(tmp[..tp]) + bytes
    ensures forall j | tp + |bytes| <= j < tmp.Length :: tmp[j] == 0
  {
    for k := 0 to |bytes|
      invariant tmp[..tp] == old(tmp[..tp])
      invariant forall j | 0 <= j < k :: tmp[tp + j] == bytes[j]
      invariant forall j | tp + k <= j < tmp.Length :: tmp[j] == 0
    {
      tmp[tp + k] := bytes[k];
    }
  }

  /** The loop of inet_pton6, from offset `start` of the string. */
  method ScanLoop(src: string, start: nat, tmp: array<byte>)
    returns (ok: bool, tp: nat, colonp: Option<nat>, val: word, saw: bool, ghost tok: string)
    requires start <= |src| && tmp.Length == IN6ADDRSZ && forall j | 0 <= j < IN6ADDRSZ :: tmp[j] == 0
    modifies tmp
    ensures tp <= IN6ADDRSZ && (colonp.Some? ==> colonp.value <= tp) && forall j | tp <= j < IN6ADDRSZ :: tmp[j] == 0
    ensures Scan(src[start..], START) == if ok then Some(Scan6(tmp[..tp], colonp, val, saw, tok)) else None
  {
    hide Scan, Quad;
    var i := start;
    tp, colonp, saw, val, tok := 0, None, false, 0, "";
    var curtok := i;
    ghost var goal := Scan(src[i..], START);
    assert tmp[..0] == [] && src[curtok..i] == "";
    while i < |src|
      invariant start <= curtok <= i <= |src| && 0 <= tp <= IN6ADDRSZ
      invariant colonp.Some? ==> colonp.value <= tp
      invariant forall j | tp <= j < IN6ADDRSZ :: tmp[j] == 0
      invariant Scan(src[i..], Scan6(tmp[..tp], colonp, val, saw, src[curtok..i])) == goal
    {
      var ch := src[i];
      var d := HexVal(ch);
      ghost var st := Scan6(tmp[..tp], colonp, val, saw, src[curtok..i]);
      if d >= 0 {
        ScanDigit(src, i, st);
        var v: int := val * 16 + d;
        if v > 0xffff {
          return false, tp, colonp, val, saw, tok;
        }
        val, saw := v, true;
        assert src[curtok..i] + [ch] == src[curtok..i + 1];
        i := i + 1;
        continue;
      }
      if ch == ':' {
        ScanColon(src, i, st);
        curtok := i + 1;
        assert src[curtok..i + 1] == "";
        if !saw {
          if colonp.Some? {
            return false, tp, colonp, val, saw, tok;
          }
          colonp := Some(tp);
        } else {
          if tp + INT16SZ > IN6ADDRSZ {
            return false, tp, colonp, val, saw, tok;
          }
          Put(tmp, tp, WordBytes(val));
          tp := tp + INT16SZ;
          saw, val := false, 0;
        }
        i := i + 1;
        continue;
      }
      ScanRest(src, curtok, i, st);
      if ch == '.' && tp + INADDRSZ <= IN6ADDRSZ {
        var q := Pton4(src[curtok..]);
        if q.Some? {
          Put(tmp, tp, q.value);
          return true, tp + INADDRSZ, colonp, val, false, src[curtok..i];
        }
      }
      return false, tp, colonp, val, saw, tok;
    }
    assert src[i..] == "";
    ScanEnd(Scan6(tmp[..tp], colonp, val, saw, src[curtok..i]));
    tok := src[curtok..i];
    ok := true;
  }

  /** inet_pton6 */
  method Pton6(src: string) returns (r: Option<seq<byte>>)
    ensures r == Parse6(src)
  {
    var tmp := new byte[IN6ADDRSZ](_ => 0);
    var start := 0;
    if |src| > 0 && src[0] == ':' {
      start := 1;
      if |src| == 1 || src[1] != ':' {
        return None;
      }
    }
    assert src[0..] == src;
    var ok, tp, colonp, val, saw;
    ghost var tok;
    ok, tp, colonp, val, saw, tok := ScanLoop(src, start, tmp);
    if !ok {
      return None;
    }
    r := Conclude(tmp, tp, colonp, val, saw, tok);
  }

  /** The part of inet_pton6 after its loop. */
  method Conclude(tmp: array<byte>, tp0: nat, colonp: Option<nat>, val: word, saw: bool, ghost tok: string)
    returns (r: Option<seq<byte>>)
    requires tmp.Length == IN6ADDRSZ && tp0 <= IN6ADDRSZ && (colonp.Some? ==> colonp.value <= tp0)
    requires forall j | tp0 <= j < IN6ADDRSZ :: tmp[j] == 0
    modifies tmp
    ensures r == old(Finish(Scan6(tmp[..tp0], colonp, val, saw, tok)))
  {
    var tp := tp0;
    if saw {
      if tp + INT16SZ > IN6ADDRSZ {
        return None;
      }
      Put(tmp, tp, WordBytes(val));
      tp := tp + INT16SZ;
    }
    if colonp.Some? {
      SpreadInPlace(tmp, colonp.value, tp);
      tp := IN6ADDRSZ;
    }
    if tp != IN6ADDRSZ {
      return None;
    }
    assert tmp[..IN6ADDRSZ] == tmp[..];
    return Some(tmp[..]);
  }
}
