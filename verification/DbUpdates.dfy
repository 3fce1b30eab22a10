/**
  What the update sequences of the database do to its files: each lemma takes a
  sound pair of files through the writes of one code path.
 */
module DbUpdates {
  import opened CStrings
  import opened DbCells
  import opened DbRecord
  import opened DbFormat
  import opened DbLists
  import opened DbContents

  /** Everything the two files mean. */
  datatype Image = Image(g: Index, recs: map<nat, Rec>, t: Lists, where: map<Bytes, nat>)

  ghost predicate Encoded(g: Index, recs: map<nat, Rec>, x: nat) {
    x in recs && x in g.bodies && g.bodies[x] == Body(recs[x]) && GoodRec(recs[x])
  }

  ghost predicate Encodes(g: Index, recs: map<nat, Rec>) {
    && g.bodies.Keys == recs.Keys
    && forall x {:trigger Encoded(g, recs, x)} | x in recs :: Encoded(g, recs, x)
  }

  /** Files and image agree; the records in `loose` are on no list. */
  ghost predicate Sound(idx: Bytes, dat: Bytes, m: Image, h: Hasher, loose: set<nat>) {
    && Parses(idx, m.g)
    && Encodes(m.g, m.recs)
    && Threaded(m.g.ptrs, m.t)
    && m.t.home.Keys == m.recs.Keys - loose
    && Keyed(m.recs, m.t.home, m.where, h)
    && Extents(dat, m.recs)
  }

  ghost function Contents(dat: Bytes, m: Image): map<Bytes, Bytes> {
    View(dat, m.recs, m.where)
  }

  function Blanked(r: Rec): Rec {
    Rec(Spaces(|r.key|), r.datoff, r.datlen)
  }

  lemma BlankedGood(r: Rec)
    requires GoodRec(r)
    ensures GoodRec(Blanked(r)) && |Body(Blanked(r))| == |Body(r)|
  {
  }

  lemma EncodesUpdate(g: Index, recs: map<nat, Rec>, g': Index, o: nat, r: Rec)
    requires Encodes(g, recs) && GoodRec(r) && g'.bodies == g.bodies[o := Body(r)]
    ensures Encodes(g', recs[o := r])
  {
    var recs' := recs[o := r];
    forall x | x in recs' ensures Encoded(g', recs', x) {
      assert x != o ==> Encoded(g, recs, x);
    }
  }

  /** The pointer fields of a list are pointer locations holding valid pointers. */
  lemma ListPointers(g: Index, t: Lists, l: nat, k: nat)
    requires WellFormed(g) && Threaded(g.ptrs, t) && l < NLISTS && k <= |t.chains[l]|
    ensures Node(l, t.chains[l], k) in g.ptrs && Succ(t.chains[l], k) <= PTR_MAX
    ensures g.ptrs[Node(l, t.chains[l], k)] == Succ(t.chains[l], k)
  {
    var c := t.chains[l];
    assert Linked(g.ptrs, l, c);
    assert g.ptrs[Node(l, c, k)] == Succ(c, k);
    assert PtrFits(g, Node(l, c, k));
  }

  // ---- _db_dodelete -----------------------------------------------------

  ghost function DeletedIdx(idx: Bytes, o: nat, r: Rec, free: nat, node: nat, save: nat): Bytes
    requires o <= |idx| && node <= |idx|
  {
    var idx1 := Splice(idx, o, Padded(free, PTR_SZ) + Tail(Body(Blanked(r))));
    var idx2 := Splice(idx1, FREE_OFF, Padded(o, PTR_SZ));
    Splice(idx2, node, Padded(save, PTR_SZ))
  }

  ghost function DeletedIndex(g: Index, o: nat, r: Rec, free: nat, node: nat, save: nat): Index {
    WithPtr(WithPtr(WithBody(g, o, Body(Blanked(r)), free), FREE_OFF, o), node, save)
  }

  lemma PtrWithin(idx: Bytes, g: Index, x: nat)
    requires Parses(idx, g) && x in g.ptrs
    ensures x + PTR_SZ <= |idx|
  {
    PtrAt(idx, g, x);
    PtrWidth(g.ptrs[x]);
  }

  lemma DeleteParses(idx: Bytes, g: Index, o: nat, r: Rec, free: nat, node: nat, save: nat)
    requires Parses(idx, g) && o in g.bodies && g.bodies[o] == Body(r) && GoodRec(r)
    requires node in g.ptrs && free <= PTR_MAX && save <= PTR_MAX
    ensures o <= |idx| && node <= |idx|
    ensures |DeletedIdx(idx, o, r, free, node, save)| == |idx|
    ensures Parses(DeletedIdx(idx, o, r, free, node, save), DeletedIndex(g, o, r, free, node, save))
  {
    BlankedGood(r);
    var body := Body(Blanked(r));
    PtrWithin(idx, g, node);
    RewriteParses(idx, g, o, body, free);
    var idx1 := Splice(idx, o, Padded(free, PTR_SZ) + Tail(body));
    var g1 := WithBody(g, o, body, free);
    assert IsSlot(FREE_OFF) && BodyFits(g, o);
    PtrWidth(free);
    PtrWidth(o);
    PtrWidth(save);
    WritePtrParses(idx1, g1, FREE_OFF, o);
    WritePtrParses(Splice(idx1, FREE_OFF, Padded(o, PTR_SZ)), WithPtr(g1, FREE_OFF, o), node, save);
  }

  ghost predicate OnChain(m: Image, key: Bytes, l: nat, k: nat) {
    && 0 < l < |m.t.chains| && k < |m.t.chains[l]|
    && key in m.where && m.where[key] in m.recs && m.t.chains[l][k] == m.where[key]
  }

  ghost function DeletedImage(m: Image, key: Bytes, l: nat, k: nat): Image
    requires OnChain(m, key, l, k)
  {
    var o, c := m.where[key], m.t.chains[l];
    Image(DeletedIndex(m.g, o, m.recs[o], Succ(m.t.chains[0], 0), Node(l, c, k), Succ(c, k + 1)),
          m.recs[o := Blanked(m.recs[o])],
          Attached(Detached(m.t, l, k), 0, o),
          m.where - {key})
  }

  ghost function BlankedDat(dat: Bytes, r: Rec): Bytes
    requires Extent(dat, r)
  {
    Wrote(dat, r.datoff, Spaces(r.datlen - 1))
  }

  lemma DeleteKeyed(m: Image, h: Hasher, key: Bytes, l: nat, k: nat)
    requires Keyed(m.recs, m.t.home, m.where, h) && OnChain(m, key, l, k)
    ensures var m' := DeletedImage(m, key, l, k); Keyed(m'.recs, m'.t.home, m'.where, h)
  {
    var m', o := DeletedImage(m, key, l, k), m.where[key];
    assert Findable(m.recs, m.t.home, m.where, key);
    forall p | p in m'.t.home ensures Placed(m'.recs, m'.t.home, m'.where, h, p) {
      if p != o {
        assert Placed(m.recs, m.t.home, m.where, h, p);
        assert m.t.home[p] != 0 ==> m.recs[p].key != key;
      }
    }
    forall q | q in m'.where ensures Findable(m'.recs, m'.t.home, m'.where, q) {
      assert Findable(m.recs, m.t.home, m.where, q);
    }
  }

  lemma DeleteContents(dat: Bytes, m: Image, h: Hasher, key: Bytes, l: nat, k: nat)
    requires Keyed(m.recs, m.t.home, m.where, h) && Extents(dat, m.recs) && OnChain(m, key, l, k)
    ensures Extent(dat, m.recs[m.where[key]])
    ensures var dat', m' := BlankedDat(dat, m.recs[m.where[key]]), DeletedImage(m, key, l, k);
            Extents(dat', m'.recs) && Contents(dat', m') == Contents(dat, m) - {key}
  {
    var o := m.where[key];
    var r := m.recs[o];
    assert Extent(dat, m.recs[o]);
    var dat', m' := BlankedDat(dat, r), DeletedImage(m, key, l, k);
    OverwriteExtent(dat, m.recs, o, Spaces(r.datlen - 1));
    SameExtents(dat', m.recs, o, Blanked(r));
    assert Findable(m.recs, m.t.home, m.where, key);
    forall q | q in m.where && q != key
      ensures Kept(dat, m.recs, dat', m'.recs, m.where[q])
    {
      assert Findable(m.recs, m.t.home, m.where, q);
      assert Kept(dat, m.recs, dat', m.recs, m.where[q]);
    }
    ViewWithout(dat, m.recs, m.where, dat', m'.recs, key);
  }

  /** Deleting the record of `key`, found at position k of its chain. */
  lemma DeleteSound(idx: Bytes, dat: Bytes, m: Image, h: Hasher, key: Bytes, l: nat, k: nat)
    requires Sound(idx, dat, m, h, {}) && OnChain(m, key, l, k)
    ensures var o, c := m.where[key], m.t.chains[l];
            && o <= |idx| && Extent(dat, m.recs[o]) && Node(l, c, k) <= |idx|
            && var idx' := DeletedIdx(idx, o, m.recs[o], Succ(m.t.chains[0], 0), Node(l, c, k), Succ(c, k + 1));
               && |idx'| == |idx| && |BlankedDat(dat, m.recs[o])| == |dat|
               && Sound(idx', BlankedDat(dat, m.recs[o]), DeletedImage(m, key, l, k), h, {})
    ensures Contents(BlankedDat(dat, m.recs[m.where[key]]), DeletedImage(m, key, l, k)) == Contents(dat, m) - {key}
  {
    hide Parses, Threaded, Keyed, Extents, Contents, Body, Padded, WellFormed;
    ParsesWell(idx, m.g);
    ListCount(m.g.ptrs, m.t);
    var o := m.where[key];
    var r, c := m.recs[o], m.t.chains[l];
    assert Encoded(m.g, m.recs, o);
    ListPointers(m.g, m.t, l, k);
    ListPointers(m.g, m.t, l, k + 1);
    ListPointers(m.g, m.t, 0, 0);
    DeleteParses(idx, m.g, o, r, Succ(m.t.chains[0], 0), Node(l, c, k), Succ(c, k + 1));
    BlankedGood(r);
    EncodesUpdate(m.g, m.recs, DeletedImage(m, key, l, k).g, o, Blanked(r));
    MoveToFree(m.g.ptrs, m.t, l, k);
    DeleteKeyed(m, h, key, l, k);
    DeleteContents(dat, m, h, key, l, k);
  }

  // ---- db_store: a record that was not there ------------------------------

  /** Image after record o, loose until now, becomes the head of list l with key and extent r. */
  ghost function StoredImage(m: Image, g: Index, o: nat, r: Rec, l: nat): Image
    requires l < |m.t.chains|
  {
    Image(WithPtr(g, PTR_SZ * l, o), m.recs[o := r], Attached(m.t, l, o), m.where[r.key := o])
  }

  lemma StoreKeyed(m: Image, h: Hasher, g: Index, o: nat, r: Rec, l: nat)
    requires Keyed(m.recs, m.t.home, m.where, h) && o !in m.t.home && r.key !in m.where
    requires l == h(r.key) + 1 < |m.t.chains|
    ensures var m' := StoredImage(m, g, o, r, l); Keyed(m'.recs, m'.t.home, m'.where, h)
  {
    var m' := StoredImage(m, g, o, r, l);
    forall p | p in m'.t.home ensures Placed(m'.recs, m'.t.home, m'.where, h, p) {
      assert p != o ==> Placed(m.recs, m.t.home, m.where, h, p);
    }
    forall q | q in m'.where ensures Findable(m'.recs, m'.t.home, m'.where, q) {
      assert q != r.key ==> Findable(m.recs, m.t.home, m.where, q);
    }
  }

  lemma StoreContents(dat: Bytes, dat': Bytes, m: Image, h: Hasher, g: Index, o: nat, r: Rec, l: nat, data: Bytes)
    requires Keyed(m.recs, m.t.home, m.where, h) && o !in m.t.home && l < |m.t.chains|
    requires Data(dat', r) == data
    requires forall y | y in m.recs && y != o :: Kept(dat, m.recs, dat', m.recs, y)
    ensures Contents(dat', StoredImage(m, g, o, r, l)) == Contents(dat, m)[r.key := data]
  {
    var recs' := m.recs[o := r];
    forall q | q in m.where
      ensures Kept(dat, m.recs, dat', recs', m.where[q])
    {
      assert Findable(m.recs, m.t.home, m.where, q);
      assert Kept(dat, m.recs, dat', m.recs, m.where[q]);
    }
    ViewWith(dat, m.recs, m.where, dat', recs', r.key, o);
  }

  /** The index side of a sound database. */
  ghost predicate IndexSound(idx: Bytes, m: Image, h: Hasher) {
    && Parses(idx, m.g)
    && Encodes(m.g, m.recs)
    && Threaded(m.g.ptrs, m.t)
    && Keyed(m.recs, m.t.home, m.where, h)
  }

  lemma LinkThreaded(m: Image, g: Index, o: nat, l: nat)
    requires Threaded(m.g.ptrs, m.t) && l < NLISTS && o !in m.t.home && o >= BASE
    requires g.ptrs == m.g.ptrs[o := Succ(m.t.chains[l], 0)]
    ensures Threaded(g.ptrs[PTR_SZ * l := o], Attached(m.t, l, o))
  {
    LooseThreaded(m.g.ptrs, m.t, o, Succ(m.t.chains[l], 0));
    AttachThreaded(g.ptrs, m.t, l, o);
  }

  lemma ParsesWell(idx: Bytes, g: Index)
    requires Parses(idx, g)
    ensures WellFormed(g)
  {
    hide Cells, InOrder, WellFormed;
  }

  lemma SlotThere(idx: Bytes, g: Index, l: nat)
    requires Parses(idx, g) && l < NLISTS
    ensures PTR_SZ * l in g.ptrs
  {
    hide Cells, InOrder, PtrFits, BodyFits;
    assert IsSlot(PTR_SZ * l);
  }

  /** Record r, in place at o with the old head of its list as pointer, is linked to the front. */
  lemma LinkSound(idx: Bytes, m: Image, h: Hasher, g: Index, o: nat, r: Rec, l: nat)
    requires Parses(idx, g) && Encodes(g, m.recs[o := r])
    requires Threaded(m.g.ptrs, m.t) && l == h(r.key) + 1 < NLISTS
    requires g.ptrs == m.g.ptrs[o := Succ(m.t.chains[l], 0)] && BASE <= o <= PTR_MAX && o !in m.t.home
    requires Keyed(m.recs, m.t.home, m.where, h) && r.key !in m.where
    ensures PTR_SZ * l <= |idx|
    ensures IndexSound(Splice(idx, PTR_SZ * l, Padded(o, PTR_SZ)), StoredImage(m, g, o, r, l), h)
  {
    hide Encodes, Threaded, Keyed, Padded;
    ListCount(m.g.ptrs, m.t);
    SlotThere(idx, g, l);
    hide Parses;
    WritePtrParses(idx, g, PTR_SZ * l, o);
    EncodesSame(g, WithPtr(g, PTR_SZ * l, o), m.recs[o := r]);
    LinkThreaded(m, g, o, l);
    StoreKeyed(m, h, g, o, r, l);
  }

  /** Files after appending record r with this data and linking it into list l. */
  ghost function AppendedIdx(idx: Bytes, r: Rec, head: nat, l: nat): Bytes
    requires PTR_SZ * l <= |idx|
  {
    Splice(Splice(idx, |idx|, Padded(head, PTR_SZ) + Tail(Body(r))), PTR_SZ * l, Padded(|idx|, PTR_SZ))
  }

  ghost function AppendedImage(idx: Bytes, m: Image, r: Rec, l: nat): Image
    requires l < |m.t.chains|
  {
    StoredImage(m, WithNew(m.g, |idx|, Body(r), Succ(m.t.chains[l], 0)), |idx|, r, l)
  }

  lemma AppendIndex(idx: Bytes, m: Image, h: Hasher, r: Rec, l: nat)
    requires IndexSound(idx, m, h) && m.t.home.Keys == m.recs.Keys
    requires r.key !in m.where && |idx| <= PTR_MAX && GoodRec(r) && l == h(r.key) + 1 < NLISTS
    ensures PTR_SZ * l <= |idx| && |idx| !in m.recs
    ensures IndexSound(AppendedIdx(idx, r, Succ(m.t.chains[l], 0), l), AppendedImage(idx, m, r, l), h)
  {
    var head, o := Succ(m.t.chains[l], 0), |idx|;
    ListPointers(m.g, m.t, l, 0);
    PtrWithin(idx, m.g, PTR_SZ * l);
    AppendParses(idx, m.g, Body(r), head);
    NotInBodies(m.g, o);
    EncodesUpdate(m.g, m.recs, WithNew(m.g, o, Body(r), head), o, r);
    LinkSound(Splice(idx, o, Padded(head, PTR_SZ) + Tail(Body(r))), m, h, WithNew(m.g, o, Body(r), head), o, r, l);
  }

  lemma AppendData(dat: Bytes, m: Image, h: Hasher, g: Index, o: nat, r: Rec, l: nat, data: Bytes)
    requires Keyed(m.recs, m.t.home, m.where, h) && Extents(dat, m.recs) && o !in m.recs && o !in m.t.home
    requires NUL !in data && l < |m.t.chains| && r.datoff == |dat| && r.datlen == |data| + 1
    ensures Extents(Wrote(dat, r.datoff, data), StoredImage(m, g, o, r, l).recs)
    ensures Contents(Wrote(dat, r.datoff, data), StoredImage(m, g, o, r, l)) == Contents(dat, m)[r.key := data]
  {
    AppendExtent(dat, m.recs, data, o, r);
    StoreContents(dat, Wrote(dat, r.datoff, data), m, h, g, o, r, l, data);
  }

  /** Appending a record for a key that is not there. */
  lemma AppendSound(idx: Bytes, dat: Bytes, m: Image, h: Hasher, r: Rec, l: nat, data: Bytes)
    requires Sound(idx, dat, m, h, {}) && r.key !in m.where && NUL !in data && |idx| <= PTR_MAX
    requires r == Rec(r.key, |dat|, |data| + 1) && GoodRec(r) && l == h(r.key) + 1 < NLISTS
    ensures PTR_SZ * l <= |idx|
    ensures Sound(AppendedIdx(idx, r, Succ(m.t.chains[l], 0), l), Wrote(dat, r.datoff, data), AppendedImage(idx, m,
      r, l), h, {})
    ensures Contents(Wrote(dat, r.datoff, data), AppendedImage(idx, m, r, l)) == Contents(dat, m)[r.key := data]
  {
    AppendIndex(idx, m, h, r, l);
    AppendData(dat, m, h, WithNew(m.g, |idx|, Body(r), Succ(m.t.chains[l], 0)), |idx|, r, l, data);
  }

  // ---- db_store: reusing a free record ------------------------------------

  ghost predicate OnFree(m: Image, k: nat) {
    |m.t.chains| > 0 && k < |m.t.chains[0]| && m.t.chains[0][k] in m.recs
  }

  ghost function FreedImage(m: Image, k: nat): Image
    requires OnFree(m, k)
  {
    var c := m.t.chains[0];
    m.(g := WithPtr(m.g, Node(0, c, k), Succ(c, k + 1)), t := Detached(m.t, 0, k))
  }

  /** _db_findfree takes a record off the free list: it is then on no list. */
  lemma TakeFreeSound(idx: Bytes, dat: Bytes, m: Image, h: Hasher, k: nat)
    requires Sound(idx, dat, m, h, {}) && OnFree(m, k)
    ensures var c := m.t.chains[0];
            && Node(0, c, k) <= |idx|
            && Sound(Splice(idx, Node(0, c, k), Padded(Succ(c, k + 1), PTR_SZ)), dat, FreedImage(m, k), h, {c[k]})
  {
    var c, m' := m.t.chains[0], FreedImage(m, k);
    ListPointers(m.g, m.t, 0, k);
    ListPointers(m.g, m.t, 0, k + 1);
    WritePtrParses(idx, m.g, Node(0, c, k), Succ(c, k + 1));
    DetachThreaded(m.g.ptrs, m.t, 0, k);
    EncodesSame(m.g, m'.g, m.recs);
    assert c[k] in c && m.t.home[c[k]] == 0;
    TakeFreeKeyed(m, h, k);
  }

  lemma EncodesSame(g: Index, g': Index, recs: map<nat, Rec>)
    requires Encodes(g, recs) && g'.bodies == g.bodies
    ensures Encodes(g', recs)
  {
    forall x | x in recs ensures Encoded(g', recs, x) {
      assert Encoded(g, recs, x);
    }
  }

  lemma TakeFreeKeyed(m: Image, h: Hasher, k: nat)
    requires Keyed(m.recs, m.t.home, m.where, h) && OnFree(m, k)
    requires m.t.chains[0][k] in m.t.home && m.t.home[m.t.chains[0][k]] == 0
    ensures Keyed(m.recs, FreedImage(m, k).t.home, m.where, h)
  {
    var m' := FreedImage(m, k);
    forall p | p in m'.t.home ensures Placed(m.recs, m'.t.home, m.where, h, p) {
      assert Placed(m.recs, m.t.home, m.where, h, p);
    }
    forall q | q in m.where ensures Findable(m.recs, m'.t.home, m.where, q) {
      assert Findable(m.recs, m.t.home, m.where, q);
    }
  }

  ghost function ReusedIdx(idx: Bytes, o: nat, r: Rec, head: nat, l: nat): Bytes
    requires o <= |idx| && PTR_SZ * l <= |idx|
  {
    Splice(Splice(idx, o, Padded(head, PTR_SZ) + Tail(Body(r))), PTR_SZ * l, Padded(o, PTR_SZ))
  }

  ghost function ReusedImage(m: Image, o: nat, r: Rec, l: nat): Image
    requires l < |m.t.chains|
  {
    StoredImage(m, WithBody(m.g, o, Body(r), Succ(m.t.chains[l], 0)), o, r, l)
  }

  /** A key and data of the sizes of the old ones fill the record exactly. */
  lemma SameSizes(was: Rec, key: Bytes)
    requires GoodRec(was) && IsKey(key) && |key| == |was.key|
    ensures var r := Rec(key, was.datoff, was.datlen);
            GoodRec(r) && |Body(r)| == |Body(was)|
  {
  }

  lemma ReuseIndex(idx: Bytes, m: Image, h: Hasher, o: nat, r: Rec, l: nat)
    requires IndexSound(idx, m, h) && o !in m.t.home && o in m.recs
    requires r.key !in m.where && IsKey(r.key) && l == h(r.key) + 1 < NLISTS
    requires |m.recs[o].key| == |r.key| && r == Rec(r.key, m.recs[o].datoff, m.recs[o].datlen)
    ensures o <= |idx| && PTR_SZ * l <= |idx|
    ensures IndexSound(ReusedIdx(idx, o, r, Succ(m.t.chains[l], 0), l), ReusedImage(m, o, r, l), h)
  {
    var head := Succ(m.t.chains[l], 0);
    ListPointers(m.g, m.t, l, 0);
    PtrWithin(idx, m.g, PTR_SZ * l);
    assert Encoded(m.g, m.recs, o) && BodyFits(m.g, o);
    SameSizes(m.recs[o], r.key);
    RewriteParses(idx, m.g, o, Body(r), head);
    EncodesUpdate(m.g, m.recs, WithBody(m.g, o, Body(r), head), o, r);
    LinkSound(Splice(idx, o, Padded(head, PTR_SZ) + Tail(Body(r))), m, h, WithBody(m.g, o, Body(r), head), o, r, l);
  }

  lemma ReuseData(dat: Bytes, m: Image, h: Hasher, g: Index, o: nat, r: Rec, l: nat, data: Bytes)
    requires Keyed(m.recs, m.t.home, m.where, h) && Extents(dat, m.recs) && o in m.recs && o !in m.t.home
    requires NUL !in data && l < |m.t.chains|
    requires r.datoff == m.recs[o].datoff && r.datlen == m.recs[o].datlen == |data| + 1
    ensures r.datoff <= |dat|
    ensures Extents(Wrote(dat, r.datoff, data), StoredImage(m, g, o, r, l).recs)
    ensures Contents(Wrote(dat, r.datoff, data), StoredImage(m, g, o, r, l)) == Contents(dat, m)[r.key := data]
  {
    hide Keyed, Extents, Contents, Wrote;
    OverwriteExtent(dat, m.recs, o, data);
    SameExtents(Wrote(dat, r.datoff, data), m.recs, o, r);
    StoreContents(dat, Wrote(dat, r.datoff, data), m, h, g, o, r, l, data);
  }

  /** Rewriting a loose record of exactly the right sizes for a key that is not there. */
  lemma ReuseSound(idx: Bytes, dat: Bytes, m: Image, h: Hasher, o: nat, r: Rec, l: nat, data: Bytes)
    requires Sound(idx, dat, m, h, {o}) && o in m.recs && NUL !in data
    requires r.key !in m.where && IsKey(r.key) && l == h(r.key) + 1 < NLISTS
    requires |m.recs[o].key| == |r.key| && r == Rec(r.key, m.recs[o].datoff, m.recs[o].datlen) && r.datlen == |data| + 1
    ensures o <= |idx| && PTR_SZ * l <= |idx| && r.datoff <= |dat|
    ensures Sound(ReusedIdx(idx, o, r, Succ(m.t.chains[l], 0), l), Wrote(dat, r.datoff, data), ReusedImage(m, o, r,
      l), h, {})
    ensures Contents(Wrote(dat, r.datoff, data), ReusedImage(m, o, r, l)) == Contents(dat, m)[r.key := data]
  {
    ReuseIndex(idx, m, h, o, r, l);
    ReuseData(dat, m, h, WithBody(m.g, o, Body(r), Succ(m.t.chains[l], 0)), o, r, l, data);
  }

  // ---- db_store: data of the same size --------------------------------------

  lemma OverwriteSound(idx: Bytes, dat: Bytes, m: Image, h: Hasher, key: Bytes, data: Bytes)
    requires Sound(idx, dat, m, h, {}) && key in m.where && m.where[key] in m.recs && NUL !in data
    requires m.recs[m.where[key]].datlen == |data| + 1
    ensures m.recs[m.where[key]].datoff <= |dat|
    ensures Sound(idx, Wrote(dat, m.recs[m.where[key]].datoff, data), m, h, {})
    ensures Contents(Wrote(dat, m.recs[m.where[key]].datoff, data), m) == Contents(dat, m)[key := data]
  {
    var o := m.where[key];
    OverwriteExtent(dat, m.recs, o, data);
    assert Findable(m.recs, m.t.home, m.where, key);
    var dat' := Wrote(dat, m.recs[o].datoff, data);
    forall q | q in m.where && q != key
      ensures Kept(dat, m.recs, dat', m.recs, m.where[q])
    {
      assert Findable(m.recs, m.t.home, m.where, q);
    }
    ViewWith(dat, m.recs, m.where, dat', m.recs, key, o);
    assert m.where[key := o] == m.where;
  }

  // ---- db_open of a new database ----------------------------------------------

  ghost function FreshImage(): Image {
    Image(Index(map x: nat | 0 <= x < BASE - 1 && IsSlot(x) :: 0, map[], []), map[],
          Lists(seq(NLISTS, _ => []), map[]), map[])
  }

  /** Header of `n` zero pointers. */
  ghost predicate ZeroSlots(f: Bytes, n: nat) {
    |f| == PTR_SZ * n && forall l {:trigger ZeroAt(f, l)} | 0 <= l < n :: ZeroAt(f, l)
  }

  ghost predicate ZeroAt(f: Bytes, l: nat) {
    Has(f, PTR_SZ * l, Padded(0, PTR_SZ))
  }

  lemma ZeroSlotsExtend(f: Bytes, n: nat)
    requires ZeroSlots(f, n)
    ensures ZeroSlots(f + Padded(0, PTR_SZ), n + 1)
  {
    PtrWidth(0);
    var f' := f + Padded(0, PTR_SZ);
    forall l | 0 <= l <= n ensures ZeroAt(f', l) {
      assert l < n ==> ZeroAt(f, l);
    }
  }

  lemma FreshSound(f: Bytes, h: Hasher)
    requires ZeroSlots(f, NLISTS)
    ensures Sound(f + [NEWLINE], [], FreshImage(), h, {})
    ensures Contents([], FreshImage()) == map[]
  {
    FreshCells(f);
    FreshThreaded();
  }

  lemma FreshCells(f: Bytes)
    requires ZeroSlots(f, NLISTS)
    ensures Parses(f + [NEWLINE], FreshImage().g)
  {
    var idx, g := f + [NEWLINE], FreshImage().g;
    PtrWidth(0);
    forall x | x in g.ptrs ensures Cell(idx, PtrImages(g), Tails(g), x) && PtrFits(g, x) {
      assert ZeroAt(f, x / PTR_SZ);
      assert PTR_SZ * (x / PTR_SZ) == x;
    }
    forall x, y | x in g.ptrs && y in g.ptrs ensures Separate(Tails(g), x, y) {
      assert IsSlot(x) && IsSlot(y);
    }
  }

  lemma FreshThreaded()
    ensures Threaded(FreshImage().g.ptrs, FreshImage().t)
  {
    var ptrs, t := FreshImage().g.ptrs, FreshImage().t;
    forall l | 0 <= l < NLISTS ensures Linked(ptrs, l, t.chains[l]) {
      assert IsSlot(PTR_SZ * l);
    }
  }
}
