/** Reading a sound index file: every list can be walked, and a walk decides membership. */
module DbWalk {
  import opened CStrings
  import opened DbCells
  import opened DbRecord
  import opened DbFormat
  import opened DbLists
  import opened DbContents
  import opened DbUpdates

  /** At offset `o` stands a record with chain pointer `v`. */
  ghost predicate Stands(f: Bytes, o: nat, v: nat, r: Rec) {
    && v <= PTR_MAX && GoodRec(r)
    && Has(f, o, Padded(v, PTR_SZ)) && Has(f, o + PTR_SZ, Tail(Body(r)))
  }

  /** What _db_readidx gets out of the record at `o`: chain pointer, record, length. */
  function ScanRecord(f: Bytes, o: nat): Outcome<(int, Rec, nat)> {
    var ascii := ReadAt(f, o, PTR_SZ + IDXLEN_SZ);
    if |ascii| != PTR_SZ + IDXLEN_SZ then Aborted
    else
      var p, len := Atol(ascii[..PTR_SZ]), Atol(ascii[PTR_SZ..]);
      if len < IDXLEN_MIN || len > IDXLEN_MAX then Aborted
      else
        var buf := ReadAt(f, o + PTR_SZ + IDXLEN_SZ, len);
        if |buf| != len then Aborted
        else
          var rec :- ParseBody(buf);
          Value((p, rec, len))
  }

  lemma RawReads(f: Bytes, o: nat, n: nat)
    requires o + PTR_SZ + IDXLEN_SZ + n <= |f|
    ensures var ascii, y := ReadAt(f, o, PTR_SZ + IDXLEN_SZ), o + PTR_SZ;
            && |ascii| == PTR_SZ + IDXLEN_SZ
            && ascii[..PTR_SZ] == f[o..o + PTR_SZ]
            && ascii[PTR_SZ..] == f[y..y + IDXLEN_SZ]
            && ReadAt(f, o + PTR_SZ + IDXLEN_SZ, n) == f[y + IDXLEN_SZ..y + IDXLEN_SZ + n]
  {
  }

  lemma ScanFields(f: Bytes, o: nat, v: nat, body: Bytes)
    requires v <= PTR_MAX && Has(f, o, Padded(v, PTR_SZ)) && Has(f, o + PTR_SZ, Tail(body))
    requires IDXLEN_MIN <= |body| <= IDXLEN_MAX
    ensures o + PTR_SZ + IDXLEN_SZ + |body| <= |f|
    ensures var rec := ParseBody(body);
            rec.Value? ==> ScanRecord(f, o) == Value((v, rec.value, |body|))
  {
    PaddedAt(f, o, v);
    TailAt(f, o + PTR_SZ, body);
    RawReads(f, o, |body|);
  }

  /** Reading back a record that _db_writeidx wrote recovers all its fields. */
  lemma ScanInverts(f: Bytes, o: nat, v: nat, r: Rec)
    requires Stands(f, o, v, r)
    ensures ScanRecord(f, o) == Value((v, r, |Body(r)|))
    ensures o + PTR_SZ + IDXLEN_SZ + |Body(r)| <= |f|
  {
    ParseBodyInverts(r);
    ScanFields(f, o, v, Body(r));
  }

  ghost predicate NodeOk(f: Bytes, c: seq<nat>, rs: seq<Rec>, k: nat) {
    k < |c| == |rs| && c[k] != 0 && Stands(f, c[k], Succ(c, k + 1), rs[k])
  }

  /** The list starting at header slot 7 * l can be walked through the records `rs`. */
  ghost predicate Walkable(f: Bytes, l: nat, c: seq<nat>, rs: seq<Rec>) {
    && |rs| == |c|
    && Succ(c, 0) <= PTR_MAX && Has(f, PTR_SZ * l, Padded(Succ(c, 0), PTR_SZ))
    && forall k | 0 <= k < |c| :: NodeOk(f, c, rs, k)
  }

  ghost predicate RecordsOn(recs: map<nat, Rec>, c: seq<nat>, rs: seq<Rec>) {
    |rs| == |c| && forall k {:trigger rs[k]} | 0 <= k < |c| :: c[k] in recs && rs[k] == recs[c[k]]
  }

  lemma RecordStands(f: Bytes, g: Index, recs: map<nat, Rec>, o: nat)
    requires Parses(f, g) && Encodes(g, recs) && o in recs
    ensures o in g.ptrs && BASE <= o <= PTR_MAX && Stands(f, o, g.ptrs[o], recs[o])
  {
    assert Encoded(g, recs, o);
    RecordAt(f, g, o);
    PtrAt(f, g, o);
  }

  lemma NodeStands(f: Bytes, m: Image, l: nat, k: nat)
    requires Parses(f, m.g) && Encodes(m.g, m.recs) && Threaded(m.g.ptrs, m.t) && m.t.home.Keys <= m.recs.Keys
    requires l < NLISTS && k < |m.t.chains[l]|
    ensures m.t.chains[l][k] in m.recs && m.t.chains[l][k] != 0
    ensures Stands(f, m.t.chains[l][k], Succ(m.t.chains[l], k + 1), m.recs[m.t.chains[l][k]])
  {
    var c := m.t.chains[l];
    assert c[k] in c && m.t.home[c[k]] == l;
    RecordStands(f, m.g, m.recs, c[k]);
    ListPointers(m.g, m.t, l, k + 1);
  }

  /** Every list of a sound index file can be walked. */
  lemma ListWalkable(f: Bytes, m: Image, l: nat) returns (rs: seq<Rec>)
    requires Parses(f, m.g) && Encodes(m.g, m.recs) && Threaded(m.g.ptrs, m.t) && m.t.home.Keys <= m.recs.Keys
    requires l < NLISTS
    ensures RecordsOn(m.recs, m.t.chains[l], rs) && Walkable(f, l, m.t.chains[l], rs)
  {
    var c := m.t.chains[l];
    ListPointers(m.g, m.t, l, 0);
    PtrAt(f, m.g, PTR_SZ * l);
    forall k | 0 <= k < |c|
      ensures c[k] in m.recs
    {
      NodeStands(f, m, l, k);
    }
    rs := seq(|c|, k requires 0 <= k < |c| => m.recs[c[k]]);
    forall k | 0 <= k < |c|
      ensures NodeOk(f, c, rs, k)
    {
      NodeStands(f, m, l, k);
    }
  }

  lemma KeyOnChain(m: Image, h: Hasher, key: Bytes, c: seq<nat>, rs: seq<Rec>) returns (j: nat)
    requires Threaded(m.g.ptrs, m.t) && Keyed(m.recs, m.t.home, m.where, h)
    requires h(key) + 1 < NLISTS && c == m.t.chains[h(key) + 1] && RecordsOn(m.recs, c, rs)
    requires key in m.where
    ensures j < |c| && rs[j].key == key && c[j] == m.where[key]
  {
    var o := m.where[key];
    assert Findable(m.recs, m.t.home, m.where, key);
    assert Placed(m.recs, m.t.home, m.where, h, o);
    assert Housed(m.t, o);
    j :| 0 <= j < |c| && c[j] == o;
    assert rs[j] == m.recs[c[j]];
  }

  /** The first record with this key on its chain, if any, is the one `where` names. */
  lemma ChainDecides(m: Image, h: Hasher, key: Bytes, c: seq<nat>, rs: seq<Rec>, k: nat)
    requires Threaded(m.g.ptrs, m.t) && Keyed(m.recs, m.t.home, m.where, h)
    requires h(key) + 1 < NLISTS && c == m.t.chains[h(key) + 1] && RecordsOn(m.recs, c, rs)
    requires k <= |c| && forall j | 0 <= j < k :: rs[j].key != key
    requires k < |c| ==> rs[k].key == key
    ensures k < |c| <==> key in m.where
    ensures k < |c| ==> OnChain(m, key, h(key) + 1, k) && m.recs[c[k]] == rs[k]
  {
    if k < |c| {
      assert c[k] in c && m.t.home[c[k]] == h(key) + 1;
      assert rs[k] == m.recs[c[k]];
      assert Placed(m.recs, m.t.home, m.where, h, c[k]);
    } else if key in m.where {
      var _ := KeyOnChain(m, h, key, c, rs);
    }
  }
}
