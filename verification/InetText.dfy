/**
  Text forms of internet addresses: dotted quads, and the IPv6 forms of section
  2.2 of RFC 1884.  These definitions say what the strings mean; the parsers and
  printers of libfree are proved against them.
 */
module InetText {
  import opened Common
  import opened Numerals

  // ---- dotted quads -----------------------------------------------------------

  /** The pieces of a string between its dots. */
  function Pieces(s: string): (p: seq<string>)
    ensures |p| >= 1
  {
    if s == "" then [""]
    else
      var p, c := Pieces(s[..|s| - 1]), s[|s| - 1];
      if c == '.' then p + [""] else p[..|p| - 1] + [p[|p| - 1] + [c]]
  }

  predicate IsOctet(s: string) {
    s != "" && AllDigits(s) && Value(s) <= 255
  }

  /** Four non-empty runs of decimal digits, each at most 255, separated by single dots. */
  predicate IsQuad(s: string) {
    var p := Pieces(s);
    |p| == 4 && IsOctet(p[0]) && IsOctet(p[1]) && IsOctet(p[2]) && IsOctet(p[3])
  }

  function QuadValue(s: string): (b: seq<byte>)
    requires IsQuad(s)
    ensures |b| == 4
  {
    var p := Pieces(s);
    [Value(p[0]), Value(p[1]), Value(p[2]), Value(p[3])]
  }

  function Quad(s: string): (r: Option<seq<byte>>)
    ensures r.Some? ==> |r.value| == 4
  {
    if IsQuad(s) then Some(QuadValue(s)) else None
  }

  function QuadText(b: seq<byte>): string
    requires |b| == 4
  {
    Decimal(b[0]) + "." + Decimal(b[1]) + "." + Decimal(b[2]) + "." + Decimal(b[3])
  }

  function Extended(p: seq<string>, c: char): seq<string>
    requires p != []
  {
    if c == '.' then p + [""] else p[..|p| - 1] + [p[|p| - 1] + [c]]
  }

  lemma PiecesStep(src: string, i: nat)
    requires i < |src|
    ensures Pieces(src[..i + 1]) == Extended(Pieces(src[..i]), src[i])
  {
    assert src[..i + 1][..i] == src[..i];
  }

  /** The last piece made longer. */
  function Longer(p: seq<string>, t: string): seq<string>
    requires p != []
  {
    p[..|p| - 1] + [p[|p| - 1] + t]
  }

  lemma LongerStill(p: seq<string>, t: string, c: char)
    requires p != [] && c != '.'
    ensures Extended(Longer(p, t), c) == Longer(p, t + [c]) && Longer(p, "") == p
  {
    var last := p[|p| - 1];
    assert last + t + [c] == last + (t + [c]) && last + "" == last;
  }

  lemma {:induction false} PiecesDigits(s: string, t: string)
    requires AllDigits(t)
    ensures Pieces(s + t) == Longer(Pieces(s), t)
  {
    hide Pieces, Longer, Extended;
    LongerStill(Pieces(s), "", '0');
    if t == "" {
      assert s + t == s;
    } else {
      var n, u := |t| - 1, s + t;
      var k := |u| - 1;
      PiecesDigits(s, t[..n]);
      assert u[..k] == s + t[..n] && u[..k + 1] == u && u[k] == t[n] && t[..n] + [t[n]] == t;
      PiecesStep(u, k);
      LongerStill(Pieces(s), t[..n], t[n]);
    }
  }

  lemma PiecesDot(s: string)
    ensures Pieces(s + ".") == Pieces(s) + [""]
  {
    assert (s + ".")[..|s|] == s;
  }

  lemma PiecesNext(s: string, p: seq<string>, last: string, t: string)
    requires Pieces(s) == p + [last] && AllDigits(t)
    ensures Pieces(s + "." + t) == p + [last, t]
  {
    PiecesDot(s);
    PiecesDigits(s + ".", t);
    assert "" + t == t;
    assert (Pieces(s) + [""])[..|p| + 1] == p + [last];
    assert p + [last] + [t] == p + [last, t];
  }

  lemma PiecesOfFour(d0: string, d1: string, d2: string, d3: string)
    requires AllDigits(d0) && AllDigits(d1) && AllDigits(d2) && AllDigits(d3)
    ensures Pieces(d0 + "." + d1 + "." + d2 + "." + d3) == [d0, d1, d2, d3]
  {
    PiecesDigits("", d0);
    assert "" + d0 == d0;
    assert Pieces(d0) == [] + [d0];
    PiecesNext(d0, [], d0, d1);
    PiecesNext(d0 + "." + d1, [d0], d1, d2);
    PiecesNext(d0 + "." + d1 + "." + d2, [d0, d1], d2, d3);
  }

  lemma QuadOf(s: string, p: seq<string>, b: seq<byte>)
    requires Pieces(s) == p && |p| == 4 && |b| == 4
    requires forall i | 0 <= i < 4 :: p[i] != "" && AllDigits(p[i]) && Value(p[i]) == b[i]
    ensures Quad(s) == Some(b)
  {
    assert IsOctet(p[0]) && IsOctet(p[1]) && IsOctet(p[2]) && IsOctet(p[3]);
    assert QuadValue(s) == b;
  }

  /** Printing a quad and reading it back is the identity. */
  lemma QuadRoundTrip(b: seq<byte>)
    requires |b| == 4
    ensures Quad(QuadText(b)) == Some(b)
  {
    DecimalMeans(b[0]);
    DecimalMeans(b[1]);
    DecimalMeans(b[2]);
    DecimalMeans(b[3]);
    var p := [Decimal(b[0]), Decimal(b[1]), Decimal(b[2]), Decimal(b[3])];
    PiecesOfFour(p[0], p[1], p[2], p[3]);
    QuadOf(QuadText(b), p, b);
  }
}
