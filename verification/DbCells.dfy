/**
  A file as a set of non-overlapping cells.  A cell at offset x is a pointer
  field of seven bytes followed by a tail (empty for a header slot, the rest of
  the index record otherwise).  These lemmas say what an in-place write and an
  append do to the cells, whatever the bytes mean.
 */
module DbCells {
  import opened Common

  const PTR_SZ := 7

  /** `b` stands at offset `o` of file `f`. */
  predicate Has(f: seq<byte>, o: nat, b: seq<byte>) {
    o + |b| <= |f| && forall i | 0 <= i < |b| :: f[o + i] == b[i]
  }

  /** File contents after writing `b` at offset `o`. */
  function Splice(f: seq<byte>, o: nat, b: seq<byte>): (r: seq<byte>)
    requires o <= |f|
    ensures |r| == if o + |b| <= |f| then |f| else o + |b|
  {
    f[..o] + b + (if o + |b| <= |f| then f[o + |b|..] else [])
  }

  /** Bytes read(2) delivers: fewer than asked for near the end of the file. */
  function ReadAt(f: seq<byte>, o: nat, n: nat): seq<byte> {
    if o >= |f| then [] else if o + n <= |f| then f[o..o + n] else f[o..]
  }

  predicate Separate(q: map<nat, seq<byte>>, x: nat, y: nat) {
    x in q && (x < y ==> x + PTR_SZ + |q[x]| <= y)
  }

  ghost predicate Cell(f: seq<byte>, p: map<nat, seq<byte>>, q: map<nat, seq<byte>>, x: nat) {
    x in p && x in q && |p[x]| == PTR_SZ && Has(f, x, p[x]) && Has(f, x + PTR_SZ, q[x])
  }

  ghost predicate Cells(f: seq<byte>, p: map<nat, seq<byte>>, q: map<nat, seq<byte>>) {
    && p.Keys == q.Keys
    && (forall x {:trigger Cell(f, p, q, x)} | x in p :: Cell(f, p, q, x))
    && (forall x, y {:trigger Separate(q, x, y)} | x in p && y in p :: Separate(q, x, y))
  }

  lemma SpliceHere(f: seq<byte>, o: nat, b: seq<byte>)
    requires o <= |f|
    ensures Has(Splice(f, o, b), o, b)
  {
  }

  lemma SpliceElsewhere(f: seq<byte>, o: nat, b: seq<byte>, p: nat, c: seq<byte>)
    requires o <= |f| && Has(f, p, c)
    requires p + |c| <= o || o + |b| <= p
    ensures Has(Splice(f, o, b), p, c)
  {
    var g := Splice(f, o, b);
    assert forall i | p <= i < p + |c| :: g[i] == f[i];
  }

  lemma HasParts(f: seq<byte>, o: nat, a: seq<byte>, b: seq<byte>)
    requires Has(f, o, a + b)
    ensures Has(f, o, a) && Has(f, o + |a|, b)
  {
    forall i | 0 <= i < |a|
      ensures f[o + i] == a[i]
    {
      assert (a + b)[i] == a[i];
    }
    forall i | 0 <= i < |b|
      ensures f[o + |a| + i] == b[i]
    {
      assert (a + b)[|a| + i] == b[i];
    }
  }

  /** Overwriting one pointer field. */
  lemma OverwritePtr(f: seq<byte>, p: map<nat, seq<byte>>, q: map<nat, seq<byte>>, x: nat, b: seq<byte>)
    requires Cells(f, p, q) && x in p && |b| == PTR_SZ
    ensures x + PTR_SZ <= |f| && Cells(Splice(f, x, b), p[x := b], q)
  {
    assert Cell(f, p, q, x);
    SpliceHere(f, x, b);
    forall y | y in p
      ensures Cell(Splice(f, x, b), p[x := b], q, y)
    {
      assert Cell(f, p, q, y) && Separate(q, x, y) && Separate(q, y, x);
      if y != x {
        SpliceElsewhere(f, x, b, y, p[y]);
      }
      SpliceElsewhere(f, x, b, y + PTR_SZ, q[y]);
    }
  }

  /** Overwriting a whole cell by one of the same length. */
  lemma OverwriteCell(f: seq<byte>, p: map<nat, seq<byte>>, q: map<nat, seq<byte>>, x: nat, b: seq<byte>, c: seq<byte>)
    requires Cells(f, p, q) && x in p && |b| == PTR_SZ && |c| == |q[x]|
    ensures x + PTR_SZ + |c| <= |f| && Cells(Splice(f, x, b + c), p[x := b], q[x := c])
  {
    assert Cell(f, p, q, x);
    SpliceHere(f, x, b + c);
    HasParts(Splice(f, x, b + c), x, b, c);
    forall y | y in p
      ensures Cell(Splice(f, x, b + c), p[x := b], q[x := c], y)
    {
      if y != x {
        assert Cell(f, p, q, y) && Separate(q, x, y) && Separate(q, y, x);
        SpliceElsewhere(f, x, b + c, y, p[y]);
        SpliceElsewhere(f, x, b + c, y + PTR_SZ, q[y]);
      }
    }
    forall y, z | y in p && z in p
      ensures Separate(q[x := c], y, z)
    {
      assert Separate(q, y, z);
    }
  }

  /** Appending a cell. */
  lemma AppendCell(f: seq<byte>, p: map<nat, seq<byte>>, q: map<nat, seq<byte>>, b: seq<byte>, c: seq<byte>)
    requires Cells(f, p, q) && |b| == PTR_SZ
    ensures |f| !in p
    ensures Cells(Splice(f, |f|, b + c), p[|f| := b], q[|f| := c])
  {
    var x := |f|;
    assert x in p ==> Cell(f, p, q, x);
    SpliceHere(f, x, b + c);
    HasParts(Splice(f, x, b + c), x, b, c);
    forall y | y in p
      ensures y < x && Cell(Splice(f, x, b + c), p[x := b], q[x := c], y) && Separate(q[x := c], y, x)
    {
      assert Cell(f, p, q, y);
      SpliceElsewhere(f, x, b + c, y, p[y]);
      SpliceElsewhere(f, x, b + c, y + PTR_SZ, q[y]);
    }
    var p' := p[x := b];
    forall y, z | y in p' && z in p'
      ensures Separate(q[x := c], y, z)
    {
      if y != x && z != x { assert Separate(q, y, z); }
    }
  }
}
