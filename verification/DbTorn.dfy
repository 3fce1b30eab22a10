/** What a db_store leaves behind when its append ends the process (db.c:686-698, 719-737). */
module DbTorn {
  import opened CStrings
  import opened DbCells
  import opened DbRecord
  import opened DbFormat
  import opened DbLists
  import opened DbContents
  import opened DbUpdates
  import opened DbWalk

  /** A record of these fields can be appended to an index file of this size. */
  predicate Appendable(size: nat, r: Rec) {
    size <= 9999999 && 6 <= |Body(r)| <= 1024
  }

  /** The record a store of `data` under `key` appends. */
  function NewRec(key: Bytes, data: Bytes, dat: Bytes): Rec {
    Rec(key, |dat|, |data| + 1)
  }

  /** The files after an append to idx1 and dat1 that failed: the data are written; so is the
      index record, unless its length is out of range; no chain leads to it. */
  predicate Torn(idx1: Bytes, dat1: Bytes, key: Bytes, data: Bytes, ptr: nat, idx: Bytes, dat: Bytes) {
    var r := NewRec(key, data, dat1);
    && ptr <= PTR_MAX && !Appendable(|idx1|, r) && dat == dat1 + (data + [NEWLINE])
    && idx == if IDXLEN_MIN <= |Body(r)| <= IDXLEN_MAX then idx1 + (Padded(ptr, PTR_SZ) + Tail(Body(r))) else idx1
  }

  lemma ExtentGrows(dat: Bytes, more: Bytes, r: Rec)
    requires Extent(dat, r)
    ensures Extent(dat + more, r) && Data(dat + more, r) == Data(dat, r)
  {
    assert (dat + more)[r.datoff..End(r) - 1] == dat[r.datoff..End(r) - 1];
  }

  /** Bytes after the end of the data file change no record's data. */
  lemma ContentsGrow(dat: Bytes, more: Bytes, m: Image)
    requires Extents(dat, m.recs)
    ensures Extents(dat + more, m.recs) && Contents(dat + more, m) == Contents(dat, m)
  {
    hide Extent, Data, Apart;
    forall x | x in m.recs ensures Extent(dat + more, m.recs[x]) &&
      Look(dat + more, m.recs, x) == Look(dat, m.recs, x) {
      assert Extent(dat, m.recs[x]);
      ExtentGrows(dat, more, m.recs[x]);
    }
  }

  lemma HasGrows(f: Bytes, more: Bytes, o: nat, b: Bytes)
    requires Has(f, o, b)
    ensures Has(f + more, o, b)
  {
    forall i | 0 <= i < |b| ensures (f + more)[o + i] == b[i] {
      assert f[o + i] == b[i];
    }
  }

  /** Bytes after the end of the index file change no walk of a list. */
  lemma WalkGrows(f: Bytes, more: Bytes, l: nat, c: seq<nat>, rs: seq<Rec>)
    requires Walkable(f, l, c, rs)
    ensures Walkable(f + more, l, c, rs)
  {
    hide Has, Padded, Tail, GoodRec;
    HasGrows(f, more, PTR_SZ * l, Padded(Succ(c, 0), PTR_SZ));
    forall k | 0 <= k < |c| ensures NodeOk(f + more, c, rs, k) {
      assert NodeOk(f, c, rs, k);
      HasGrows(f, more, c[k], Padded(Succ(c, k + 1), PTR_SZ));
      HasGrows(f, more, c[k] + PTR_SZ, Tail(Body(rs[k])));
    }
  }

  lemma TailStands(f: Bytes, ptr: nat, r: Rec)
    requires ptr <= PTR_MAX && GoodRec(r)
    ensures Stands(f + (Padded(ptr, PTR_SZ) + Tail(Body(r))), |f|, ptr, r)
  {
    hide Padded, Tail, Body;
    PtrWidth(ptr);
    var p, b := Padded(ptr, PTR_SZ), Tail(Body(r));
    var g := f + (p + b);
    assert forall i | 0 <= i < |p| :: g[|f| + i] == p[i];
    assert forall i | 0 <= i < |b| :: g[|f| + PTR_SZ + i] == b[i];
  }

  /** The length was out of range: the database is as it was, with idle bytes in the data file. */
  lemma TornShort(idx1: Bytes, dat1: Bytes, m: Image, h: Hasher, key: Bytes, data: Bytes, ptr: nat, idx: Bytes,
    dat: Bytes)
    requires Sound(idx1, dat1, m, h, {}) && Torn(idx1, dat1, key, data, ptr, idx, dat)
    requires !(IDXLEN_MIN <= |Body(NewRec(key, data, dat1))| <= IDXLEN_MAX)
    ensures Sound(idx, dat, m, h, {}) && Contents(dat, m) == Contents(dat1, m)
  {
    hide Parses, Encodes, Threaded, Keyed, Extents, Contents, Body, Padded;
    ContentsGrow(dat1, data + [NEWLINE], m);
  }

  /** The index file was too long: every list is walked as before and every key has its data;
      the new record stands at the old end, where a scan reads it, and is on no list. */
  lemma TornLong(idx1: Bytes, dat1: Bytes, m: Image, h: Hasher, key: Bytes, data: Bytes, ptr: nat,
                 idx: Bytes, dat: Bytes, l: nat)
      returns (rs: seq<Rec>)
    requires Sound(idx1, dat1, m, h, {}) && Torn(idx1, dat1, key, data, ptr, idx, dat) && l < NLISTS
    requires IsKey(key) && DATLEN_MIN <= |data| + 1 <= DATLEN_MAX
    requires IDXLEN_MIN <= |Body(NewRec(key, data, dat1))| <= IDXLEN_MAX
    ensures Walkable(idx, l, m.t.chains[l], rs) && RecordsOn(m.recs, m.t.chains[l], rs)
    ensures Contents(dat, m) == Contents(dat1, m)
    ensures var r := NewRec(key, data, dat1); ScanRecord(idx, |idx1|) == Value((ptr, r, |Body(r)|))
    ensures |idx1| > PTR_MAX && |idx1| !in m.t.chains[l]
  {
    hide Parses, Encodes, Threaded, Keyed, Extents, Contents, Body, Padded, Tail, Walkable, ScanRecord, Stands;
    ContentsGrow(dat1, data + [NEWLINE], m);
    var r := NewRec(key, data, dat1);
    ListCount(m.g.ptrs, m.t);
    rs := ListWalkable(idx1, m, l);
    WalkGrows(idx1, Padded(ptr, PTR_SZ) + Tail(Body(r)), l, m.t.chains[l], rs);
    TailStands(idx1, ptr, r);
    ScanInverts(idx, |idx1|, ptr, r);
    if |idx1| in m.t.chains[l] {
      var k :| 0 <= k < |m.t.chains[l]| && m.t.chains[l][k] == |idx1|;
      NodeStands(idx1, m, l, k);
      RecordStands(idx1, m.g, m.recs, |idx1|);
    }
  }
}
