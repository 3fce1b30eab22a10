/**
  Byte layout of the index file of the hash database (db.c, apue_db.h): a header
  of 138 seven-column chain pointers and a newline, then index records back to
  back.  A record starts with its own chain pointer, so a "pointer location" is
  either a header slot or a record's offset.
 */
module DbFormat {
  import opened Common
  import opened CStrings
  import opened DbCells
  import opened DbRecord

  const IDXLEN_SZ := 4
  const PTR_MAX := 9999999
  const NHASH := 137
  const FREE_OFF := 0

  /** Offset of the first index record: 138 pointers and a newline. */
  const BASE := 967

  /** Parsed index file: every pointer field, every record body, and the file order. */
  datatype Index = Index(ptrs: map<nat, nat>, bodies: map<nat, seq<byte>>, order: seq<nat>)

  /** A record after its chain pointer: the length of the body, then the body. */
  function Tail(body: seq<byte>): seq<byte> {
    Padded(|body|, IDXLEN_SZ) + body
  }

  predicate IsSlot(x: nat) {
    x % PTR_SZ == 0 && x < BASE - 1
  }

  ghost function PtrImages(g: Index): map<nat, seq<byte>> {
    map x | x in g.ptrs :: Padded(g.ptrs[x], PTR_SZ)
  }

  ghost function Tails(g: Index): map<nat, seq<byte>> {
    map x | x in g.ptrs :: if x in g.bodies then Tail(g.bodies[x]) else []
  }

  /** Offset of the i-th record, or the end of the file. */
  function At(order: seq<nat>, size: nat, i: nat): nat {
    if i < |order| then order[i] else size
  }

  /** The records stand back to back, in the order listed, up to the end. */
  ghost predicate Adjoins(tails: map<nat, seq<byte>>, order: seq<nat>, size: nat, i: nat) {
    i < |order| && order[i] in tails && order[i] + PTR_SZ + |tails[order[i]]| == At(order, size, i + 1)
  }

  ghost predicate InOrder(tails: map<nat, seq<byte>>, order: seq<nat>, size: nat) {
    && (forall i | 0 <= i < |order| :: Adjoins(tails, order, size, i))
    && At(order, size, 0) == BASE
  }

  ghost predicate PtrFits(g: Index, x: nat) {
    x in g.ptrs && g.ptrs[x] <= PTR_MAX
  }

  ghost predicate BodyFits(g: Index, x: nat) {
    x in g.bodies && x in g.ptrs && x in g.order && BASE <= x <= PTR_MAX && IDXLEN_MIN <= |g.bodies[x]| <= IDXLEN_MAX
  }

  ghost predicate WellFormed(g: Index) {
    && (forall x {:trigger IsSlot(x)} :: IsSlot(x) ==> x in g.ptrs)
    && (forall x {:trigger PtrFits(g, x)} | x in g.ptrs :: PtrFits(g, x) && (IsSlot(x) || x in g.bodies))
    && (forall x {:trigger BodyFits(g, x)} | x in g.bodies :: BodyFits(g, x))
    && (forall i {:trigger g.order[i]} | 0 <= i < |g.order| :: g.order[i] in g.bodies)
  }

  /** The bytes `f` are exactly the file that `g` describes. */
  ghost predicate Parses(f: seq<byte>, g: Index) {
    && |f| >= BASE && f[BASE - 1] == NEWLINE
    && WellFormed(g)
    && Cells(f, PtrImages(g), Tails(g))
    && InOrder(Tails(g), g.order, |f|)
  }

  // ---- writes -----------------------------------------------------------

  lemma PtrWidth(v: nat)
    requires v <= PTR_MAX
    ensures |Padded(v, PTR_SZ)| == PTR_SZ
  {
    assert Pow10(7) == 10000000 by {
      assert Pow10(4) == 10000;
    }
    PaddedWidth(v, PTR_SZ);
  }

  lemma TailWidth(b: seq<byte>)
    requires |b| <= IDXLEN_MAX
    ensures |Padded(|b|, IDXLEN_SZ)| == IDXLEN_SZ
    ensures |Tail(b)| == IDXLEN_SZ + |b|
  {
    assert Pow10(4) == 10000;
    PaddedWidth(|b|, IDXLEN_SZ);
  }

  ghost function WithPtr(g: Index, x: nat, v: nat): Index {
    g.(ptrs := g.ptrs[x := v])
  }

  ghost function WithBody(g: Index, x: nat, body: seq<byte>, v: nat): Index {
    g.(ptrs := g.ptrs[x := v], bodies := g.bodies[x := body])
  }

  ghost function WithNew(g: Index, x: nat, body: seq<byte>, v: nat): Index {
    Index(g.ptrs[x := v], g.bodies[x := body], g.order + [x])
  }

  lemma ImagesWithPtr(g: Index, x: nat, v: nat)
    requires x in g.ptrs
    ensures PtrImages(WithPtr(g, x, v)) == PtrImages(g)[x := Padded(v, PTR_SZ)]
    ensures Tails(WithPtr(g, x, v)) == Tails(g)
  {
  }

  lemma WellFormedWithPtr(g: Index, x: nat, v: nat)
    requires WellFormed(g) && x in g.ptrs && v <= PTR_MAX
    ensures WellFormed(WithPtr(g, x, v))
  {
    var g' := WithPtr(g, x, v);
    forall y | y in g'.ptrs ensures PtrFits(g', y) && (IsSlot(y) || y in g'.bodies) {
      assert PtrFits(g, y);
    }
    forall y | y in g'.bodies ensures BodyFits(g', y) {
      assert BodyFits(g, y);
    }
  }

  lemma NewlineKept(f: seq<byte>, x: nat, b: seq<byte>)
    requires |f| >= BASE && f[BASE - 1] == NEWLINE
    requires x <= |f| && ((IsSlot(x) && |b| == PTR_SZ) || x >= BASE)
    ensures |Splice(f, x, b)| >= BASE && Splice(f, x, b)[BASE - 1] == NEWLINE
  {
  }

  /** _db_writeptr keeps the file parsed, changing one pointer. */
  lemma WritePtrParses(f: seq<byte>, g: Index, x: nat, v: nat)
    requires Parses(f, g) && x in g.ptrs && v <= PTR_MAX
    ensures x + PTR_SZ <= |f|
    ensures Parses(Splice(f, x, Padded(v, PTR_SZ)), WithPtr(g, x, v))
  {
    PtrWidth(v);
    OverwritePtr(f, PtrImages(g), Tails(g), x, Padded(v, PTR_SZ));
    ImagesWithPtr(g, x, v);
    WellFormedWithPtr(g, x, v);
    assert PtrFits(g, x) && (x in g.bodies ==> BodyFits(g, x));
    NewlineKept(f, x, Padded(v, PTR_SZ));
  }

  lemma WellFormedWithBody(g: Index, x: nat, body: seq<byte>, v: nat)
    requires WellFormed(g) && x in g.bodies && v <= PTR_MAX && |body| == |g.bodies[x]|
    ensures WellFormed(WithBody(g, x, body, v))
  {
    var g' := WithBody(g, x, body, v);
    assert BodyFits(g, x);
    forall y | y in g'.ptrs ensures PtrFits(g', y) && (IsSlot(y) || y in g'.bodies) {
      assert PtrFits(g, y);
    }
    forall y | y in g'.bodies ensures BodyFits(g', y) {
      assert BodyFits(g, y);
    }
  }

  lemma ImagesWithBody(g: Index, x: nat, body: seq<byte>, v: nat)
    requires x in g.ptrs && x in g.bodies
    ensures PtrImages(WithBody(g, x, body, v)) == PtrImages(g)[x := Padded(v, PTR_SZ)]
    ensures Tails(WithBody(g, x, body, v)) == Tails(g)[x := Tail(body)]
  {
  }

  lemma SameSizeInOrder(tails: map<nat, seq<byte>>, order: seq<nat>, size: nat, x: nat, c: seq<byte>)
    requires InOrder(tails, order, size) && x in tails && |c| == |tails[x]|
    ensures InOrder(tails[x := c], order, size)
  {
    var tails' := tails[x := c];
    forall i | 0 <= i < |order| ensures Adjoins(tails', order, size, i) {
      assert Adjoins(tails, order, size, i);
    }
  }

  /** _db_writeidx over an existing record of the same size. */
  lemma RewriteParses(f: seq<byte>, g: Index, x: nat, body: seq<byte>, v: nat)
    requires Parses(f, g) && x in g.bodies && v <= PTR_MAX
    requires |body| == |g.bodies[x]|
    ensures x + PTR_SZ + |Tail(body)| <= |f|
    ensures Parses(Splice(f, x, Padded(v, PTR_SZ) + Tail(body)), WithBody(g, x, body, v))
  {
    var b, c := Padded(v, PTR_SZ), Tail(body);
    assert BodyFits(g, x);
    PtrWidth(v);
    TailWidth(body);
    TailWidth(g.bodies[x]);
    OverwriteCell(f, PtrImages(g), Tails(g), x, b, c);
    WellFormedWithBody(g, x, body, v);
    ImagesWithBody(g, x, body, v);
    SameSizeInOrder(Tails(g), g.order, |f|, x, c);
    NewlineKept(f, x, b + c);
  }

  lemma WellFormedWithNew(g: Index, x: nat, body: seq<byte>, v: nat)
    requires WellFormed(g) && v <= PTR_MAX && BASE <= x <= PTR_MAX
    requires IDXLEN_MIN <= |body| <= IDXLEN_MAX
    ensures WellFormed(WithNew(g, x, body, v))
  {
    var g' := WithNew(g, x, body, v);
    assert g'.order[|g.order|] == x;
    forall y | y in g'.ptrs ensures PtrFits(g', y) && (IsSlot(y) || y in g'.bodies) {
      assert y != x ==> PtrFits(g, y);
    }
    forall y | y in g'.bodies ensures BodyFits(g', y) {
      if y != x {
        assert BodyFits(g, y);
      }
    }
  }

  lemma ImagesWithNew(g: Index, x: nat, body: seq<byte>, v: nat)
    requires x !in g.bodies
    ensures PtrImages(WithNew(g, x, body, v)) == PtrImages(g)[x := Padded(v, PTR_SZ)]
    ensures Tails(WithNew(g, x, body, v)) == Tails(g)[x := Tail(body)]
  {
  }

  lemma AppendInOrder(tails: map<nat, seq<byte>>, order: seq<nat>, size: nat, c: seq<byte>)
    requires InOrder(tails, order, size) && size !in tails
    ensures InOrder(tails[size := c], order + [size], size + PTR_SZ + |c|)
  {
    var tails', order', size' := tails[size := c], order + [size], size + PTR_SZ + |c|;
    forall i | 0 <= i < |order'| ensures Adjoins(tails', order', size', i) {
      if i < |order| {
        assert Adjoins(tails, order, size, i);
      }
    }
  }

  /** _db_writeidx at the end of the file. */
  lemma AppendParses(f: seq<byte>, g: Index, body: seq<byte>, v: nat)
    requires Parses(f, g) && v <= PTR_MAX && |f| <= PTR_MAX
    requires IDXLEN_MIN <= |body| <= IDXLEN_MAX
    ensures |f| !in g.ptrs
    ensures Parses(Splice(f, |f|, Padded(v, PTR_SZ) + Tail(body)), WithNew(g, |f|, body, v))
  {
    hide Padded, Tail, Cells, WellFormed, InOrder;
    var b, c := Padded(v, PTR_SZ), Tail(body);
    PtrWidth(v);
    AppendCell(f, PtrImages(g), Tails(g), b, c);
    NotInBodies(g, |f|);
    WellFormedWithNew(g, |f|, body, v);
    ImagesWithNew(g, |f|, body, v);
    AppendInOrder(Tails(g), g.order, |f|, c);
    NewlineKept(f, |f|, b + c);
  }

  lemma NotInBodies(g: Index, x: nat)
    requires WellFormed(g) && x !in g.ptrs
    ensures x !in g.bodies
  {
    assert x in g.bodies ==> BodyFits(g, x);
  }

  // ---- reads ------------------------------------------------------------

  lemma HasSlice(f: seq<byte>, o: nat, b: seq<byte>)
    requires Has(f, o, b)
    ensures f[o..o + |b|] == b
  {
  }

  /** _db_readptr undoes _db_writeptr. */
  lemma PaddedAt(f: seq<byte>, x: nat, v: nat)
    requires Has(f, x, Padded(v, PTR_SZ)) && v <= PTR_MAX
    ensures x + PTR_SZ <= |f| && Atol(f[x..x + PTR_SZ]) == v
  {
    PtrWidth(v);
    HasSlice(f, x, Padded(v, PTR_SZ));
    AtolPadded(v, PTR_SZ);
  }

  /** A length-prefixed body stands at offset `y`. */
  predicate Holds(f: seq<byte>, y: nat, body: seq<byte>) {
    && y + IDXLEN_SZ + |body| <= |f|
    && Atol(f[y..y + IDXLEN_SZ]) == |body|
    && f[y + IDXLEN_SZ..y + IDXLEN_SZ + |body|] == body
  }

  lemma TailAt(f: seq<byte>, y: nat, body: seq<byte>)
    requires Has(f, y, Tail(body)) && |body| <= IDXLEN_MAX
    ensures Holds(f, y, body)
  {
    TailWidth(body);
    HasParts(f, y, Padded(|body|, IDXLEN_SZ), body);
    HasSlice(f, y, Padded(|body|, IDXLEN_SZ));
    HasSlice(f, y + IDXLEN_SZ, body);
    AtolPadded(|body|, IDXLEN_SZ);
  }

  /** Every pointer location of a parsed file holds its pointer. */
  lemma PtrAt(f: seq<byte>, g: Index, x: nat)
    requires Parses(f, g) && x in g.ptrs
    ensures g.ptrs[x] <= PTR_MAX && Has(f, x, Padded(g.ptrs[x], PTR_SZ))
  {
    assert Cell(f, PtrImages(g), Tails(g), x);
    assert PtrFits(g, x);
  }

  /** Every record offset holds, after the pointer, the length-prefixed body. */
  lemma RecordAt(f: seq<byte>, g: Index, x: nat)
    requires Parses(f, g) && x in g.bodies
    ensures BodyFits(g, x) && Has(f, x + PTR_SZ, Tail(g.bodies[x]))
  {
    assert BodyFits(g, x);
    assert Cell(f, PtrImages(g), Tails(g), x);
  }
}
