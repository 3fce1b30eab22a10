/** The sequential scan of the index file: db_rewind followed by db_nextrec calls. */
module DbScan {
  import opened Common
  import opened CStrings
  import opened DbCells
  import opened DbRecord
  import opened DbFormat
  import opened DbLists
  import opened DbContents
  import opened DbUpdates
  import opened DbWalk

  /** First record at or after position i whose key is not blank, or the number of records. */
  ghost function NextLive(m: Image, i: nat): (j: nat)
    requires i <= |m.g.order| && forall x | x in m.g.order :: x in m.recs
    ensures i <= j <= |m.g.order|
    decreases |m.g.order| - i
  {
    if i == |m.g.order| || !Blank(m.recs[m.g.order[i]].key) then i else NextLive(m, i + 1)
  }

  /** What an uninterrupted scan yields for the first n records of the file. */
  ghost function Listing(dat: Bytes, m: Image, n: nat): seq<(Bytes, Bytes)>
    requires n <= |m.g.order| && forall x | x in m.g.order :: x in m.recs
  {
    if n == 0 then []
    else
      var r := m.recs[m.g.order[n - 1]];
      Listing(dat, m, n - 1) + if Blank(r.key) then [] else [(r.key, Data(dat, r))]
  }

  lemma OrderKnown(idx: Bytes, dat: Bytes, m: Image, h: Hasher)
    requires Sound(idx, dat, m, h, {})
    ensures forall x | x in m.g.order :: x in m.recs
  {
    forall x | x in m.g.order ensures x in m.recs {
      var i :| 0 <= i < |m.g.order| && m.g.order[i] == x;
      assert m.g.order[i] in m.g.bodies;
    }
  }

  /** The i-th record stands at the i-th offset, and the next one follows it. */
  lemma RecordInOrder(idx: Bytes, dat: Bytes, m: Image, h: Hasher, i: nat)
    requires Sound(idx, dat, m, h, {}) && i < |m.g.order|
    ensures var o := m.g.order[i];
            && o in m.recs && o in m.g.ptrs && o < |idx| && Stands(idx, o, m.g.ptrs[o], m.recs[o])
            && o + PTR_SZ + IDXLEN_SZ + |Body(m.recs[o])| == At(m.g.order, |idx|, i + 1)
            && Extent(dat, m.recs[o])
  {
    var o := m.g.order[i];
    assert m.g.order[i] in m.g.bodies;
    RecordStands(idx, m.g, m.recs, o);
    assert Encoded(m.g, m.recs, o);
    assert Adjoins(Tails(m.g), m.g.order, |idx|, i);
    TailWidth(Body(m.recs[o]));
    PtrWithin(idx, m.g, o);
    assert Extent(dat, m.recs[o]);
  }

  lemma {:induction false} Increasing(tails: map<nat, seq<byte>>, order: seq<nat>, size: nat, i: nat, j: nat)
    requires InOrder(tails, order, size) && i < j < |order|
    ensures order[i] < order[j]
  {
    assert Adjoins(tails, order, size, j - 1);
    if i < j - 1 {
      Increasing(tails, order, size, i, j - 1);
    }
  }

  /** A record with a non-blank key is the live record of that key. */
  lemma NonBlankLive(idx: Bytes, dat: Bytes, m: Image, h: Hasher, o: nat)
    requires Sound(idx, dat, m, h, {}) && o in m.recs && !Blank(m.recs[o].key)
    ensures m.recs[o].key in m.where && m.where[m.recs[o].key] == o
  {
    assert Placed(m.recs, m.t.home, m.where, h, o);
  }

  lemma ListingStep(dat: Bytes, m: Image, i: nat, j: nat)
    requires i <= j <= |m.g.order| && (forall x | x in m.g.order :: x in m.recs) && NextLive(m, i) == j
    ensures Listing(dat, m, j) == Listing(dat, m, i)
    ensures j < |m.g.order| ==>
              Listing(dat, m, j + 1) == Listing(dat, m, i) + [(m.recs[m.g.order[j]].key, Data(dat,
                m.recs[m.g.order[j]]))]
    decreases j - i
  {
    if i < j {
      ListingStep(dat, m, i + 1, j);
    }
  }

  /** The first n records contribute exactly the entries of their non-blank keys. */
  lemma {:induction false} ListingMembers(dat: Bytes, m: Image, n: nat, e: (Bytes, Bytes))
    requires n <= |m.g.order| && forall x | x in m.g.order :: x in m.recs
    ensures e in Listing(dat, m, n) <==>
            exists i :: 0 <= i < n && Entry(dat, m, i, e)
  {
    if n > 0 {
      ListingMembers(dat, m, n - 1, e);
      if e in Listing(dat, m, n) && e !in Listing(dat, m, n - 1) {
        assert Entry(dat, m, n - 1, e);
      }
    }
  }

  ghost predicate Entry(dat: Bytes, m: Image, i: nat, e: (Bytes, Bytes)) {
    && i < |m.g.order| && m.g.order[i] in m.recs
    && var r := m.recs[m.g.order[i]];
       !Blank(r.key) && e == (r.key, Data(dat, r))
  }

  /** A scan yields a key with data exactly when the database maps the key to them and some byte
      of it is no space. */
  lemma ListingExact(idx: Bytes, dat: Bytes, m: Image, h: Hasher, e: (Bytes, Bytes))
    requires Sound(idx, dat, m, h, {})
    requires forall x | x in m.g.order :: x in m.recs
    ensures e in Listing(dat, m, |m.g.order|) <==>
            e.0 in Contents(dat, m) && Contents(dat, m)[e.0] == e.1 && exists k :: 0 <= k < |e.0| && e.0[k] != 32
  {
    ListingMembers(dat, m, |m.g.order|, e);
    if i :| 0 <= i < |m.g.order| && Entry(dat, m, i, e) {
      NonBlankLive(idx, dat, m, h, m.g.order[i]);
    }
    if e.0 in Contents(dat, m) && Contents(dat, m)[e.0] == e.1 && !Blank(e.0) {
      assert Findable(m.recs, m.t.home, m.where, e.0);
      var o := m.where[e.0];
      assert Encoded(m.g, m.recs, o) && BodyFits(m.g, o);
      var i :| 0 <= i < |m.g.order| && m.g.order[i] == o;
      assert Entry(dat, m, i, e);
    }
  }

  ghost predicate DistinctKeys(s: seq<(Bytes, Bytes)>) {
    forall i, j | 0 <= i < j < |s| :: s[i].0 != s[j].0
  }

  lemma OffsetsDiffer(idx: Bytes, dat: Bytes, m: Image, h: Hasher, i: nat, j: nat)
    requires Sound(idx, dat, m, h, {}) && i < j < |m.g.order|
    ensures m.g.order[i] != m.g.order[j]
  {
    Increasing(Tails(m.g), m.g.order, |idx|, i, j);
  }

  /** A record listed before the n-th one has another key. */
  lemma EarlierDiffers(idx: Bytes, dat: Bytes, m: Image, h: Hasher, n: nat, e: (Bytes, Bytes))
    requires Sound(idx, dat, m, h, {}) && n < |m.g.order|
    requires forall x | x in m.g.order :: x in m.recs
    requires e in Listing(dat, m, n) && !Blank(m.recs[m.g.order[n]].key)
    ensures e.0 != m.recs[m.g.order[n]].key
  {
    hide Sound, Blank, Data, Listing;
    ListingMembers(dat, m, n, e);
    var i :| 0 <= i < n && Entry(dat, m, i, e);
    NonBlankLive(idx, dat, m, h, m.g.order[i]);
    NonBlankLive(idx, dat, m, h, m.g.order[n]);
    OffsetsDiffer(idx, dat, m, h, i, n);
  }

  lemma DistinctMore(s: seq<(Bytes, Bytes)>, e: (Bytes, Bytes))
    requires DistinctKeys(s) && forall d | d in s :: d.0 != e.0
    ensures DistinctKeys(s + [e])
  {
    var t := s + [e];
    forall i, j | 0 <= i < j < |t| ensures t[i].0 != t[j].0 {
      assert t[i] in s;
    }
  }

  /** No key is yielded twice. */
  lemma {:induction false} ListingDistinct(idx: Bytes, dat: Bytes, m: Image, h: Hasher, n: nat)
    requires Sound(idx, dat, m, h, {}) && n <= |m.g.order|
    requires forall x | x in m.g.order :: x in m.recs
    ensures DistinctKeys(Listing(dat, m, n))
  {
    hide Sound, Blank, Data;
    if n > 0 {
      ListingDistinct(idx, dat, m, h, n - 1);
      var s, o := Listing(dat, m, n - 1), m.g.order[n - 1];
      if !Blank(m.recs[o].key) {
        forall e | e in s ensures e.0 != m.recs[o].key {
          EarlierDiffers(idx, dat, m, h, n - 1, e);
        }
        DistinctMore(s, (m.recs[o].key, Data(dat, m.recs[o])));
      }
    }
  }

  // ---- the shape of every sound database ------------------------------------

  /** The free list and the hash chains are acyclic, pairwise disjoint and cover all records. */
  lemma ListsPartition(idx: Bytes, dat: Bytes, m: Image, h: Hasher)
    requires Sound(idx, dat, m, h, {})
    ensures |m.t.chains| == NHASH + 1
    ensures forall l, i, j | 0 <= l <= NHASH && 0 <= i < j < |m.t.chains[l]| :: m.t.chains[l][i] != m.t.chains[l][j]
    ensures forall l, l', o | 0 <= l <= NHASH && 0 <= l' <= NHASH && o in m.t.chains[l] && o in m.t.chains[l'] ::
      l == l'
    ensures forall o :: o in m.recs <==> exists l :: 0 <= l <= NHASH && o in m.t.chains[l]
  {
    forall l, i, j | 0 <= l <= NHASH && 0 <= i < j < |m.t.chains[l]| ensures m.t.chains[l][i] != m.t.chains[l][j] {
      assert NoDup(m.t.chains[l]);
      assert Differ(m.t.chains[l], i, j);
    }
    forall o ensures o in m.recs <==> exists l :: 0 <= l <= NHASH && o in m.t.chains[l] {
      if o in m.recs {
        assert o in m.t.home && Housed(m.t, o);
      }
    }
  }

  /** A chained record is on the chain its key hashes to, and no other chained record has its key. */
  lemma ChainedKeys(idx: Bytes, dat: Bytes, m: Image, h: Hasher, l: nat, o: nat, l': nat, o': nat)
    requires Sound(idx, dat, m, h, {})
    requires 1 <= l <= NHASH && o in m.t.chains[l] && 1 <= l' <= NHASH && o' in m.t.chains[l']
    ensures o in m.recs && o' in m.recs && h(m.recs[o].key) + 1 == l
    ensures m.recs[o].key == m.recs[o'].key ==> o == o'
  {
    assert Placed(m.recs, m.t.home, m.where, h, o) && Placed(m.recs, m.t.home, m.where, h, o');
  }

  /** Distinct records own disjoint parts of the data file. */
  lemma ExtentsDisjoint(idx: Bytes, dat: Bytes, m: Image, h: Hasher, o: nat, o': nat)
    requires Sound(idx, dat, m, h, {}) && o in m.recs && o' in m.recs && o != o'
    ensures End(m.recs[o]) <= |dat| && (End(m.recs[o]) <= m.recs[o'].datoff || End(m.recs[o']) <= m.recs[o].datoff)
  {
    assert Extent(dat, m.recs[o]) && Apart(m.recs[o], m.recs[o']);
  }
}
