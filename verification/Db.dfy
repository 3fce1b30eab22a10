/**
  The hash database library (db.c).  Object fields are the members of struct DB
  that the algorithms use, plus the contents of the two files and the offset of
  the index descriptor.  Lock calls are left to the lock protocol model.
 */
module Db {
  import opened Common
  import opened CStrings
  import opened DbCells
  import opened DbRecord
  import opened DbFormat
  import opened DbLists
  import opened DbContents
  import opened DbUpdates
  import opened DbWalk
  import opened DbScan
  import opened DbTorn
  import opened DbSpec
  import opened DbLaws

  predicate GoodOp(op: Op) {
    IsKey(op.key) && (op.StoreOp? ==> NUL !in op.data)
  }

  /** A store lengthens each file by at most one record of the largest size. */
  predicate Grown(idx0: nat, idx1: nat, dat0: nat, dat1: nat) {
    idx1 <= idx0 + PTR_SZ + IDXLEN_SZ + IDXLEN_MAX && dat1 <= dat0 + DATLEN_MAX
  }

  /** The live records of `m`, read from `dat`, are the map `d`. */
  ghost predicate Shows(dat: Bytes, m: Image, d: Dict) {
    Contents(dat, m) == d
  }

  class Database {
    var idx: Bytes      // contents of the index file
    var dat: Bytes      // contents of the data file
    var pos: nat        // offset of the index descriptor
    var idxbuf: Bytes   // index buffer, as the C string it holds
    var idxoff: nat
    var idxlen: nat
    var datoff: nat
    var datlen: nat
    var ptrval: int
    var ptroff: nat
    var chainoff: nat
    const hash: Hasher  // the function _db_hash computes

    ghost var m: Image
    ghost var dict: Dict  // what the two files mean to a caller

    ghost predicate Hashing() {
      forall k {:trigger Hash(k)} :: hash(k) == Hash(k)
    }

    ghost predicate Valid()
      reads this
    {
      Hashing() && Sound(idx, dat, m, hash, {}) && Shows(dat, m, dict)
    }

    /** db_open with O_CREAT | O_TRUNC: 138 zero pointers and a newline. */
    constructor ()
      ensures Valid() && dict == map[] && |idx| == BASE && |dat| == 0
    {
      var header: Bytes := [];
      var i := 0;
      while i < NHASH + 1
        invariant i <= NHASH + 1 && ZeroSlots(header, i)
      {
        ZeroSlotsExtend(header, i);
        header := header + Padded(0, PTR_SZ);
        i := i + 1;
      }
      idx, dat := header + [NEWLINE], [];
      pos, idxoff := BASE, BASE;
      idxbuf, idxlen, datoff, datlen, ptrval, ptroff, chainoff := [], 0, 0, 0, 0, 0, 0;
      hash := Hash;
      m, dict := FreshImage(), map[];
      FreshSound(header, Hash);
    }

    // ---- reading and writing the files ------------------------------------

    /** _db_readptr: undoes _db_writeptr, and aborts exactly on a short read. */
    method ReadPtr(offset: nat, ghost v: nat) returns (r: Outcome<int>)
      modifies `pos
      ensures r.Aborted? <==> offset + PTR_SZ > |idx|
      ensures v <= PTR_MAX && Has(idx, offset, Padded(v, PTR_SZ)) ==> r == Value(v)
    {
      pos := offset;
      var ascii := ReadAt(idx, pos, PTR_SZ);
      pos := pos + |ascii|;
      if |ascii| != PTR_SZ {
        return Aborted;
      }
      if v <= PTR_MAX && Has(idx, offset, Padded(v, PTR_SZ)) {
        PaddedAt(idx, offset, v);
      }
      return Value(Atol(ascii));
    }

    /** _db_readidx: -1 at end of file when asked for the next sequential record; undoes _db_writeidx. */
    method ReadIdx(offset: nat, ghost v: nat, ghost rec: Rec) returns (r: Outcome<int>)
      modifies `pos, `idxbuf, `idxoff, `idxlen, `datoff, `datlen, `ptrval
      ensures idxoff == if offset == 0 then old(pos) else offset
      ensures if offset == 0 && idxoff >= |idx| then r == Value(-1) && pos == old(pos)
              else r.Aborted? <==> ScanRecord(idx, idxoff).Aborted?
      ensures Stands(idx, idxoff, v, rec) ==>
                && r == Value(v) && ptrval == v
                && idxbuf == rec.key && datoff == rec.datoff && datlen == rec.datlen
                && pos == idxoff + PTR_SZ + IDXLEN_SZ + |Body(rec)|
    {
      hide ScanRecord, Stands;
      idxoff := if offset == 0 then pos else offset;
      pos := idxoff;
      if Stands(idx, idxoff, v, rec) {
        ScanInverts(idx, idxoff, v, rec);
      }
      if offset == 0 && pos >= |idx| {
        return Value(-1);
      }
      var scanned := ScanRecord(idx, idxoff);
      if scanned.Aborted? {
        return Aborted;
      }
      var (p, fields, len) := scanned.value;
      ptrval, idxlen := p, len;
      idxbuf, datoff, datlen := fields.key, fields.datoff, fields.datlen;
      pos := pos + PTR_SZ + IDXLEN_SZ + len;
      return Value(ptrval);
    }

    /** _db_readdat: the data as the C string left in the data buffer. */
    method ReadDat(ghost rec: Rec) returns (r: Outcome<Bytes>)
      requires datlen >= 1
      ensures r.Aborted? <==> datoff + datlen > |dat| || dat[datoff + datlen - 1] != NEWLINE
      ensures Extent(dat, rec) && datoff == rec.datoff && datlen == rec.datlen ==> r == Value(Data(dat, rec))
    {
      var buf := ReadAt(dat, datoff, datlen);
      if |buf| != datlen || buf[datlen - 1] != NEWLINE {
        return Aborted;
      }
      var line := buf[..datlen - 1];
      if Extent(dat, rec) && datoff == rec.datoff && datlen == rec.datlen {
        assert line == dat[rec.datoff..End(rec) - 1];
        assert line[..IndexOf(line, NUL)] == line;
      }
      return Value(line[..IndexOf(line, NUL)]);
    }

    /** _db_writedat: SEEK_END when `append`, else SEEK_SET. */
    method WriteDat(data: Bytes, offset: nat, append: bool)
      requires !append ==> offset <= |dat|
      modifies `dat, `datoff, `datlen
      ensures datoff == (if append then |old(dat)| else offset) && datlen == |data| + 1
      ensures dat == Wrote(old(dat), datoff, data)
    {
      datoff := if append then |dat| else offset;
      datlen := |data| + 1;
      dat := Splice(dat, datoff, data + [NEWLINE]);
    }

    /** _db_writeidx */
    method WriteIdx(key: Bytes, offset: nat, append: bool, ptr: int) returns (r: Outcome<()>)
      requires !append ==> offset <= |idx|
      modifies `idx, `pos, `idxbuf, `idxoff, `ptrval
      ensures var body := Body(Rec(key, datoff, datlen));
              if 0 <= ptr <= PTR_MAX && IDXLEN_MIN <= |body| <= IDXLEN_MAX then
                && r == Value(())
                && idxoff == (if append then |old(idx)| else offset)
                && idx == Splice(old(idx), idxoff, Padded(ptr, PTR_SZ) + Tail(body))
              else r == Aborted && idx == old(idx)
    {
      ptrval := ptr;
      if ptr < 0 || ptr > PTR_MAX {
        return Aborted;
      }
      idxbuf := Body(Rec(key, datoff, datlen));
      var len := |idxbuf|;
      if len < IDXLEN_MIN || len > IDXLEN_MAX {
        return Aborted;
      }
      idxoff := if append then |idx| else offset;
      var image := Padded(ptr, PTR_SZ) + (Padded(len, IDXLEN_SZ) + idxbuf);
      idx := Splice(idx, idxoff, image);
      pos := idxoff + |image|;
      return Value(());
    }

    /** _db_writeptr */
    method WritePtr(offset: nat, ptr: int) returns (r: Outcome<()>)
      requires offset <= |idx|
      modifies `idx, `pos
      ensures if 0 <= ptr <= PTR_MAX
              then r == Value(()) && idx == Splice(old(idx), offset, Padded(ptr, PTR_SZ))
              else r == Aborted && idx == old(idx)
    {
      if ptr < 0 || ptr > PTR_MAX {
        return Aborted;
      }
      idx := Splice(idx, offset, Padded(ptr, PTR_SZ));
      pos := offset + |Padded(ptr, PTR_SZ)|;
      return Value(());
    }

    /** _db_hash */
    method ComputeHash(key: Bytes) returns (h: nat)
      ensures h == Hash(key)
    {
      var hval := 0;
      var i := 1;
      while i <= |key|
        invariant 1 <= i <= |key| + 1 && hval == HashSum(key, i - 1)
      {
        hval := (hval + SignedChar(key[i - 1]) * i) % WORD;
        i := i + 1;
      }
      return hval % NHASH;
    }

    // ---- the list walks ---------------------------------------------------

    /** The loop of _db_find_and_lock: the first record of the chain with this key. */
    method WalkChain(key: Bytes, ghost l: nat, ghost c: seq<nat>, ghost rs: seq<Rec>)
      returns (r: Outcome<bool>, ghost k: nat)
      requires Walkable(idx, l, c, rs) && ptroff == PTR_SZ * l
      modifies `pos, `idxbuf, `idxoff, `idxlen, `datoff, `datlen, `ptrval, `ptroff
      ensures k <= |c| && r == Value(k < |c|)
      ensures forall j | 0 <= j < k :: rs[j].key != key
      ensures k < |c| ==>
                && idxoff == c[k] && ptroff == Node(l, c, k) && ptrval == Succ(c, k + 1)
                && idxbuf == key && Rec(key, datoff, datlen) == rs[k]
    {
      hide ScanRecord, Stands, Padded, Body;
      var first := ReadPtr(ptroff, Succ(c, 0));
      k := 0;
      if first.Aborted? {
        return Aborted, k;
      }
      var offset := first.value;
      while offset != 0
        invariant k <= |c| && offset == Succ(c, k) && ptroff == Node(l, c, k)
        invariant forall j | 0 <= j < k :: rs[j].key != key
        decreases |c| - k
      {
        assert NodeOk(idx, c, rs, k);
        var next := ReadIdx(offset, Succ(c, k + 1), rs[k]);
        if next.Aborted? {
          return Aborted, k;
        }
        if idxbuf == key {
          break;
        }
        ptroff := offset;
        offset := next.value;
        k := k + 1;
      }
      assert k < |c| ==> NodeOk(idx, c, rs, k);
      return Value(offset != 0), k;
    }

    /** _db_find_and_lock: the ghost result is the position on the chain. */
    method FindAndLock(key: Bytes, ghost c: seq<nat>, ghost rs: seq<Rec>) returns (r: Outcome<bool>, ghost k: nat)
      requires Hashing() && Walkable(idx, hash(key) + 1, c, rs)
      modifies `pos, `idxbuf, `idxoff, `idxlen, `datoff, `datlen, `ptrval, `ptroff, `chainoff
      ensures hash(key) < NHASH && chainoff == PTR_SZ * (hash(key) + 1)
      ensures k <= |c| && r == Value(k < |c|)
      ensures forall j | 0 <= j < k :: rs[j].key != key
      ensures k < |c| ==>
                && idxoff == c[k] && ptroff == Node(hash(key) + 1, c, k) && ptrval == Succ(c, k + 1)
                && idxbuf == key && Rec(key, datoff, datlen) == rs[k]
    {
      var h := ComputeHash(key);
      chainoff := h * PTR_SZ + PTR_SZ;
      ptroff := chainoff;
      r, k := WalkChain(key, h + 1, c, rs);
    }

    /** _db_findfree: the first free record of exactly these sizes, taken off the free list. */
    method FindFree(keylen: nat, dlen: nat, ghost c: seq<nat>, ghost rs: seq<Rec>)
      returns (r: Outcome<bool>, ghost k: nat)
      requires Walkable(idx, 0, c, rs)
      modifies `idx, `pos, `idxbuf, `idxoff, `idxlen, `datoff, `datlen, `ptrval
      ensures k <= |c| && r == Value(k < |c|)
      ensures forall j | 0 <= j < k :: !(|rs[j].key| == keylen && rs[j].datlen == dlen)
      ensures k == |c| ==> idx == old(idx)
      ensures k < |c| ==>
                && |rs[k].key| == keylen && rs[k].datlen == dlen
                && idxoff == c[k] && datoff == rs[k].datoff && Node(0, c, k) <= |old(idx)|
                && idx == Splice(old(idx), Node(0, c, k), Padded(Succ(c, k + 1), PTR_SZ))
    {
      hide ScanRecord, Padded, Body;
      var saveoffset := FREE_OFF;
      var first := ReadPtr(saveoffset, Succ(c, 0));
      k := 0;
      if first.Aborted? {
        return Aborted, k;
      }
      var offset := first.value;
      while offset != 0
        invariant idx == old(idx) && k <= |c| && offset == Succ(c, k) && saveoffset == Node(0, c, k) <= |idx|
        invariant forall j | 0 <= j < k :: !(|rs[j].key| == keylen && rs[j].datlen == dlen)
        decreases |c| - k
      {
        assert NodeOk(idx, c, rs, k);
        var next := ReadIdx(offset, Succ(c, k + 1), rs[k]);
        if next.Aborted? {
          return Aborted, k;
        }
        if |idxbuf| == keylen && datlen == dlen {
          break;
        }
        saveoffset := offset;
        offset := next.value;
        k := k + 1;
      }
      assert k < |c| ==> NodeOk(idx, c, rs, k);
      if offset != 0 {
        var w := WritePtr(saveoffset, ptrval);
        if w.Aborted? {
          return Aborted, k;
        }
      }
      return Value(offset != 0), k;
    }

    /** _db_dodelete of the record the struct describes. */
    method DoDelete(ghost rec: Rec, ghost free: nat, ghost idx': Bytes, ghost dat': Bytes) returns (r: Outcome<()>)
      requires free <= PTR_MAX && Has(idx, FREE_OFF, Padded(free, PTR_SZ))
      requires idxoff <= |idx| && ptroff <= |idx| && idxoff <= PTR_MAX && 0 <= ptrval <= PTR_MAX
      requires rec == Rec(idxbuf, datoff, datlen) && GoodRec(rec) && datoff <= |dat|
      requires idx' == DeletedIdx(idx, idxoff, rec, free, ptroff, ptrval)
      requires dat' == Wrote(dat, rec.datoff, Spaces(rec.datlen - 1))
      modifies `idx, `dat, `pos, `idxbuf, `idxoff, `datoff, `datlen, `ptrval
      ensures r == Value(()) && idx == idx' && dat == dat'
    {
      hide Padded, Body, Tail, Has, Splice, Wrote, GoodRec, IsKey, DeletedIdx, Spaces;
      BlankedGood(rec);
      SpaceCount(rec);
      idxbuf := Spaces(|idxbuf|);
      assert Blanked(rec) == Rec(idxbuf, datoff, datlen);
      WriteDat(Spaces(datlen - 1), datoff, false);
      var freeptr := ReadPtr(FREE_OFF, free);
      if freeptr.Aborted? {
        return Aborted;
      }
      r := Relink(rec, freeptr.value);
    }

    /** The index writes of _db_dodelete: the blank record, the free list head, the unlinking. */
    method Relink(ghost rec: Rec, freeptr: nat) returns (r: Outcome<()>)
      requires freeptr <= PTR_MAX && idxoff <= |idx| && ptroff <= |idx| && idxoff <= PTR_MAX && 0 <= ptrval <= PTR_MAX
      requires Blanked(rec) == Rec(idxbuf, datoff, datlen) && GoodRec(Blanked(rec))
      modifies `idx, `pos, `idxbuf, `idxoff, `ptrval
      ensures r == Value(())
      ensures idx == DeletedIdx(old(idx), old(idxoff), rec, freeptr, old(ptroff), old(ptrval))
    {
      hide Padded, Body, Tail, Splice, IsKey, DeletedIdx;
      ghost var idx0, o := idx, idxoff;
      var saveptr := ptrval;
      r := WriteIdx(idxbuf, idxoff, false, freeptr);
      if r.Aborted? {
        return;
      }
      ghost var idx1 := idx;
      r := WritePtr(FREE_OFF, idxoff);
      if r.Aborted? {
        return;
      }
      ghost var idx2 := idx;
      r := WritePtr(ptroff, saveptr);
      DeletedSteps(idx0, o, rec, freeptr, ptroff, saveptr, idx1, idx2, idx);
    }

    // ---- the calls of apue_db.h ---------------------------------------------

    /** db_fetch */
    method Fetch(key: Bytes) returns (r: Outcome<Option<Bytes>>)
      requires Valid()
      modifies `pos, `idxbuf, `idxoff, `idxlen, `datoff, `datlen, `ptrval, `ptroff, `chainoff
      ensures Valid() && dict == old(dict)
      ensures r == Value(SpecFetch(dict, key))
    {
      hide Parses, Encodes, Threaded, Keyed, Extents, Shows, Contents, Data;
      ghost var c, rs := ChainFor(key);
      var found;
      ghost var k;
      found, k := FindAndLock(key, c, rs);
      ChainDecides(m, hash, key, c, rs, k);
      SoundWhere(idx, dat, m, dict, hash, key);
      if found.Aborted? {
        return Aborted;
      }
      if !found.value {
        return Value(None);
      }
      var data := ReadDat(rs[k]);
      if data.Aborted? {
        return Aborted;
      }
      return Value(Some(data.value));
    }

    lemma ChainFor(key: Bytes) returns (c: seq<nat>, rs: seq<Rec>)
      requires Valid()
      ensures hash(key) < NHASH && c == m.t.chains[hash(key) + 1]
      ensures RecordsOn(m.recs, c, rs) && Walkable(idx, hash(key) + 1, c, rs)
    {
      assert hash(key) == Hash(key);
      c := m.t.chains[hash(key) + 1];
      rs := ListWalkable(idx, m, hash(key) + 1);
    }

    /** db_delete */
    method Delete(key: Bytes) returns (r: Outcome<int>)
      requires Valid()
      modifies this
      ensures Valid()
      ensures r == Value(SpecDelete(old(dict), key).1) && dict == SpecDelete(old(dict), key).0
      ensures |idx| == old(|idx|) && |dat| == old(|dat|)
    {
      hide Parses, Encodes, Threaded, Keyed, Extents, Shows;
      ghost var c, rs := ChainFor(key);
      var found;
      ghost var k;
      found, k := FindAndLock(key, c, rs);
      ChainDecides(m, hash, key, c, rs, k);
      SoundWhere(idx, dat, m, dict, hash, key);
      if found.Aborted? {
        return Aborted;
      }
      if !found.value {
        return Value(-1);
      }
      var done := DeleteFound(key, k);
      if done.Aborted? {
        return Aborted;
      }
      return Value(0);
    }

    /** _db_dodelete of the record that _db_find_and_lock has just found. */
    method DeleteFound(key: Bytes, ghost k: nat) returns (r: Outcome<()>)
      requires Valid() && OnChain(m, key, hash(key) + 1, k)
      requires idxoff == m.where[key] && ptroff == Node(hash(key) + 1, m.t.chains[hash(key) + 1], k)
      requires ptrval == Succ(m.t.chains[hash(key) + 1], k + 1)
      requires idxbuf == key && m.recs[idxoff] == Rec(key, datoff, datlen)
      modifies `idx, `dat, `pos, `idxbuf, `idxoff, `datoff, `datlen, `ptrval, `m, `dict
      ensures r == Value(()) && Valid() && dict == old(dict) - {key}
      ensures |idx| == old(|idx|) && |dat| == old(|dat|)
    {
      hide Sound;
      ghost var idx', dat', m' := DeletePlan(idx, dat, m, dict, hash, key, hash(key) + 1, k);
      r := DoDelete(m.recs[m.where[key]], Succ(m.t.chains[0], 0), idx', dat');
      m, dict := m', dict - {key};
    }

    ghost predicate HasFree(keylen: nat, dlen: nat)
      reads this
    {
      exists o :: IsFree(m, o, keylen, dlen)
    }

    /** A new record for this key and data can be appended to both files. */
    ghost predicate CanAppend(key: Bytes, data: Bytes)
      reads this
    {
      Appendable(|idx|, Rec(key, |dat|, |data| + 1))
    }

    /** When db_store ends the process instead of returning. */
    ghost predicate StoreAborts(key: Bytes, data: Bytes, flag: int)
      reads this
    {
      && flag in {1, 2, 3}
      && (|| !(2 <= |data| + 1 <= 1024)
          || (key !in dict && flag != DB_REPLACE && !HasFree(|key|, |data| + 1) && !CanAppend(key, data))
          || (key in dict && flag != DB_INSERT && |dict[key]| != |data| && !CanAppend(key, data)))
    }

    /** An append has failed after these contents of the files. */
    ghost predicate TornFrom(idx1: Bytes, dat1: Bytes, key: Bytes, data: Bytes)
      reads this
    {
      exists ptr: nat :: Torn(idx1, dat1, key, data, ptr, idx, dat)
    }

    /** What a db_store that ends the process leaves: a sound database that shows `dict`,
        and behind it what the failed append has written. */
    ghost predicate Left(key: Bytes, data: Bytes)
      reads this
    {
      exists idx1, dat1 :: LeftFrom(idx1, dat1, key, data)
    }

    ghost predicate LeftFrom(idx1: Bytes, dat1: Bytes, key: Bytes, data: Bytes)
      reads this
    {
      Sound(idx1, dat1, m, hash, {}) && Shows(dat1, m, dict) && TornFrom(idx1, dat1, key, data)
    }

    /** Append a data record and an index record and make it the head of its chain. */
    method AppendRecord(key: Bytes, data: Bytes, ptr: nat, ghost l: nat, ghost idx': Bytes, ghost dat': Bytes)
      returns (r: Outcome<int>)
      requires ptr <= PTR_MAX && chainoff == PTR_SZ * l <= |idx|
      requires dat' == Wrote(dat, |dat|, data) && idx' == AppendedIdx(idx, Rec(key, |dat|, |data| + 1), ptr, l)
      modifies `idx, `dat, `pos, `idxbuf, `idxoff, `datoff, `datlen, `ptrval
      ensures if Appendable(old(|idx|), Rec(key, old(|dat|), |data| + 1))
              then r == Value(0) && idx == idx' && dat == dat'
              else r == Aborted && Torn(old(idx), old(dat), key, data, ptr, idx, dat)
    {
      hide Padded, Body, Tail;
      WriteDat(data, 0, true);
      var w := WriteIdx(key, 0, true, ptr);
      if w.Aborted? {
        return Aborted;
      }
      w := WritePtr(chainoff, idxoff);
      if w.Aborted? {
        return Aborted;
      }
      return Value(0);
    }

    /** db_store: the new record goes to the ends of the files. */
    method StoreAppend(key: Bytes, data: Bytes, ptr: nat) returns (r: Outcome<int>)
      requires Valid() && IsKey(key) && NUL !in data && DATLEN_MIN <= |data| + 1 <= DATLEN_MAX
      requires key !in m.where && hash(key) < NHASH
      requires ptr == Succ(m.t.chains[hash(key) + 1], 0) && chainoff == PTR_SZ * (hash(key) + 1)
      modifies this
      ensures if old(CanAppend(key, data))
              then r == Value(0) && Valid() && dict == old(dict)[key := data]
              else r == Aborted && m == old(m) && dict == old(dict) && TornFrom(old(idx), old(dat), key, data)
      ensures r.Value? ==> Grown(old(|idx|), |idx|, old(|dat|), |dat|)
    {
      hide Sound;
      ghost var idx', dat', m' := AppendPlan(idx, dat, m, dict, hash, Rec(key, |dat|, |data| + 1), hash(key) + 1, data);
      r := AppendRecord(key, data, ptr, hash(key) + 1, idx', dat');
      if r.Aborted? {
        return;
      }
      m, dict := m', dict[key := data];
    }

    /** Rewrite the free record the struct describes and make it the head of its new chain. */
    method RewriteRecord(key: Bytes, data: Bytes, ptr: nat, ghost l: nat, ghost idx': Bytes, ghost dat': Bytes)
      returns (r: Outcome<int>)
      requires ptr <= PTR_MAX && idxoff <= PTR_MAX && chainoff == PTR_SZ * l <= |idx| && idxoff <= |idx|
      requires datoff <= |dat|
      requires IDXLEN_MIN <= |Body(Rec(key, datoff, |data| + 1))| <= IDXLEN_MAX
      requires dat' == Wrote(dat, datoff, data) && idx' == ReusedIdx(idx, idxoff, Rec(key, datoff, |data| + 1), ptr, l)
      modifies `idx, `dat, `pos, `idxbuf, `idxoff, `datoff, `datlen, `ptrval
      ensures r == Value(0) && idx == idx' && dat == dat'
    {
      WriteDat(data, datoff, false);
      var w := WriteIdx(key, idxoff, false, ptr);
      if w.Aborted? {
        return Aborted;
      }
      w := WritePtr(chainoff, idxoff);
      if w.Aborted? {
        return Aborted;
      }
      return Value(0);
    }

    /** db_store: the new record goes into the free record _db_findfree has taken off its list. */
    method StoreReuse(key: Bytes, data: Bytes, ptr: nat, ghost idx0: Bytes, ghost k: nat) returns (r: Outcome<int>)
      requires Hashing() && Sound(idx0, dat, m, hash, {}) && Shows(dat, m, dict) && OnFree(m, k)
      requires IsKey(key) && NUL !in data && key !in m.where && hash(key) < NHASH
      requires ptr == Succ(m.t.chains[hash(key) + 1], 0) <= PTR_MAX && chainoff == PTR_SZ * (hash(key) + 1)
      requires idxoff == m.t.chains[0][k] && datoff == m.recs[idxoff].datoff
      requires |m.recs[idxoff].key| == |key| && m.recs[idxoff].datlen == |data| + 1
      requires Node(0, m.t.chains[0], k) <= |idx0|
      requires idx == Splice(idx0, Node(0, m.t.chains[0], k), Padded(Succ(m.t.chains[0], k + 1), PTR_SZ))
      modifies this
      ensures r == Value(0) && Valid() && dict == old(dict)[key := data]
      ensures |idx| == |idx0| && |dat| == old(|dat|)
    {
      hide Sound, Shows, Body, Padded, IsKey;
      ghost var l := hash(key) + 1;
      ghost var idx', dat', m' := ReusePlan(idx0, idx, dat, m, dict, hash, Rec(key, datoff, |data| + 1), l, data, k);
      r := RewriteRecord(key, data, ptr, l, idx', dat');
      m, dict := m', dict[key := data];
    }

    /** db_store when the key is not there and the flag allows inserting it. */
    method StoreNew(key: Bytes, data: Bytes) returns (r: Outcome<int>)
      requires Valid() && IsKey(key) && NUL !in data && DATLEN_MIN <= |data| + 1 <= DATLEN_MAX
      requires key !in m.where && hash(key) < NHASH && chainoff == PTR_SZ * (hash(key) + 1)
      modifies this
      ensures if old(HasFree(|key|, |data| + 1) || CanAppend(key, data))
              then r == Value(0) && Valid() && dict == old(dict)[key := data]
              else r == Aborted && m == old(m) && dict == old(dict) && TornFrom(old(idx), old(dat), key, data)
      ensures r.Value? ==> Grown(old(|idx|), |idx|, old(|dat|), |dat|)
    {
      hide Sound, Torn, Appendable, Body, Shows;
      ghost var l := hash(key) + 1;
      ghost var c, rs := FreeFor();
      HeadReady(idx, dat, m, hash, l);
      var ptr := ReadPtr(chainoff, Succ(m.t.chains[l], 0));
      if ptr.Aborted? {
        return Aborted;
      }
      var found;
      ghost var k;
      ghost var idx0 := idx;
      found, k := FindFree(|key|, |data| + 1, c, rs);
      if found.Aborted? {
        return Aborted;
      }
      FreeDecides(m, dat, idx0, hash, c, rs, k, |key|, |data| + 1);
      if !found.value {
        r := StoreAppend(key, data, ptr.value);
      } else {
        r := StoreReuse(key, data, ptr.value, idx0, k);
      }
    }

    lemma FreeFor() returns (c: seq<nat>, rs: seq<Rec>)
      requires Valid()
      ensures c == m.t.chains[0] && RecordsOn(m.recs, c, rs) && Walkable(idx, 0, c, rs)
    {
      c := m.t.chains[0];
      rs := ListWalkable(idx, m, 0);
    }

    /** db_store when the key is there and the flag allows replacing its data. */
    method StoreFound(key: Bytes, data: Bytes, ghost k: nat) returns (r: Outcome<int>)
      requires Valid() && IsKey(key) && NUL !in data && DATLEN_MIN <= |data| + 1 <= DATLEN_MAX
      requires hash(key) < NHASH && chainoff == PTR_SZ * (hash(key) + 1) && OnChain(m, key, hash(key) + 1, k)
      requires idxoff == m.where[key] && ptroff == Node(hash(key) + 1, m.t.chains[hash(key) + 1], k)
      requires ptrval == Succ(m.t.chains[hash(key) + 1], k + 1)
      requires idxbuf == key && m.recs[idxoff] == Rec(key, datoff, datlen)
      modifies this
      ensures if old(datlen == |data| + 1 || CanAppend(key, data))
              then r == Value(0) && Valid() && dict == old(dict)[key := data]
              else r == Aborted && dict == old(dict) - {key} && Left(key, data)
      ensures r.Value? ==> Grown(old(|idx|), |idx|, old(|dat|), |dat|)
    {
      hide Parses, Encodes, Threaded, Keyed, Extents, Body;
      if |data| + 1 != datlen {
        var done := DeleteFound(key, k);
        if done.Aborted? {
          return Aborted;
        }
        ghost var l := hash(key) + 1;
        HeadReady(idx, dat, m, hash, l);
        SoundWhere(idx, dat, m, dict, hash, key);
        var ptr := ReadPtr(chainoff, Succ(m.t.chains[l], 0));
        if ptr.Aborted? {
          return Aborted;
        }
        ghost var idx1, dat1 := idx, dat;
        r := StoreAppend(key, data, ptr.value);
        if r.Aborted? {
          assert LeftFrom(idx1, dat1, key, data);
          return;
        }
        ReAdd(old(dict), key, data);
      } else {
        OverwriteSound(idx, dat, m, hash, key, data);
        WriteDat(data, datoff, false);
        dict := dict[key := data];
        return Value(0);
      }
    }

    /** db_store */
    method Store(key: Bytes, data: Bytes, flag: int) returns (r: Outcome<int>)
      requires Valid() && IsKey(key) && NUL !in data
      modifies this
      ensures r.Aborted? <==> old(StoreAborts(key, data, flag))
      ensures r.Aborted? ==>
        if 2 <= |data| + 1 <= 1024 then dict == old(dict) - {key} && Left(key, data)
        else Valid() && dict == old(dict) && idx == old(idx) && dat == old(dat)
      ensures r.Aborted? && key !in old(dict) && 2 <= |data| + 1 <= 1024 ==>
        TornFrom(old(idx), old(dat), key, data)
      ensures r.Value? ==> Valid() && (dict, r.value) == SpecStore(old(dict), key, data, flag)
      ensures r.Value? ==> Grown(old(|idx|), |idx|, old(|dat|), |dat|)
    {
      hide Parses, Encodes, Threaded, Keyed, Extents, Shows, Body, Torn, Appendable;
      if flag != DB_INSERT && flag != DB_REPLACE && flag != DB_STORE {
        return Value(-1);
      }
      if |data| + 1 < DATLEN_MIN || |data| + 1 > DATLEN_MAX {
        return Aborted;
      }
      ghost var c, rs := ChainFor(key);
      var found;
      ghost var k;
      found, k := FindAndLock(key, c, rs);
      ChainDecides(m, hash, key, c, rs, k);
      SoundWhere(idx, dat, m, dict, hash, key);
      if found.Aborted? {
        return Aborted;
      }
      if !found.value {
        if flag == DB_REPLACE {
          return Value(-1);
        }
        r := StoreNew(key, data);
        if r.Aborted? {
          assert LeftFrom(old(idx), old(dat), key, data);
          assert dict == old(dict) - {key};
        }
      } else {
        if flag == DB_INSERT {
          return Value(1);
        }
        r := StoreFound(key, data, k);
      }
    }

    // ---- the sequential scan ------------------------------------------------

    /** The descriptor stands at the i-th record (or at the end of the file). */
    ghost predicate AtRecord(i: nat)
      reads this
    {
      i <= |m.g.order| && pos == At(m.g.order, |idx|, i)
    }

    /** db_rewind */
    method Rewind()
      requires Valid()
      modifies `pos, `idxoff
      ensures Valid() && AtRecord(0)
    {
      pos := (NHASH + 1) * PTR_SZ + 1;
      idxoff := pos;
    }

    /** db_nextrec: the next record with a non-blank key, or NULL. */
    method NextRec(ghost i: nat) returns (r: Outcome<Option<(Bytes, Bytes)>>, ghost j: nat)
      requires Valid() && AtRecord(i)
      modifies `pos, `idxbuf, `idxoff, `idxlen, `datoff, `datlen, `ptrval
      ensures forall x | x in m.g.order :: x in m.recs
      ensures Valid() && j == NextLive(m, i)
      ensures i <= j <= |m.g.order|
      ensures forall n, k | i <= n < j && 0 <= k < |m.recs[m.g.order[n]].key| :: m.recs[m.g.order[n]].key[k] == 32
      ensures j < |m.g.order| ==>
        var key := m.recs[m.g.order[j]].key; exists k :: 0 <= k < |key| && key[k] != 32
      ensures j == |m.g.order| ==> r == Value(None) && AtRecord(j)
      ensures j < |m.g.order| ==>
                && r == Value(Some((m.recs[m.g.order[j]].key, Data(dat, m.recs[m.g.order[j]]))))
                && AtRecord(j + 1)
    {
      hide ScanRecord, Stands, Sound;
      OrderKnown(idx, dat, m, hash);
      j := i;
      while true
        invariant i <= j && AtRecord(j) && NextLive(m, i) == NextLive(m, j)
        invariant forall n, k | i <= n < j && 0 <= k < |m.recs[m.g.order[n]].key| :: m.recs[m.g.order[n]].key[k] == 32
        decreases |m.g.order| - j
      {
        if j < |m.g.order| {
          RecordInOrder(idx, dat, m, hash, j);
        }
        ghost var rec := if j < |m.g.order| then m.recs[m.g.order[j]] else Rec([], 0, 0);
        ghost var v := if j < |m.g.order| then m.g.ptrs[m.g.order[j]] else 0;
        var next := ReadIdx(0, v, rec);
        if next.Aborted? {
          return Aborted, j;
        }
        if next.value < 0 {
          return Value(None), j;
        }
        if !Blank(idxbuf) {
          var key := idxbuf;
          var data := ReadDat(rec);
          if data.Aborted? {
            return Aborted, j;
          }
          return Value(Some((key, data.value))), j;
        }
        j := j + 1;
      }
    }

    /** A caller's loop: db_rewind, then db_nextrec until it returns NULL. */
    method ScanAll() returns (r: Outcome<seq<(Bytes, Bytes)>>)
      requires Valid()
      modifies `pos, `idxbuf, `idxoff, `idxlen, `datoff, `datlen, `ptrval
      ensures Valid() && r.Value?
      ensures forall key | key in dict && (exists k :: 0 <= k < |key| && key[k] != 32) :: (key, dict[key]) in r.value
      ensures forall e | e in r.value ::
        e.0 in dict && dict[e.0] == e.1 && exists k :: 0 <= k < |e.0| && e.0[k] != 32
      ensures forall i, j | 0 <= i < j < |r.value| :: r.value[i].0 != r.value[j].0
    {
      hide Sound, Shows, NextLive;
      Rewind();
      OrderKnown(idx, dat, m, hash);
      var s := [];
      ghost var i := 0;
      while true
        invariant Valid() && AtRecord(i) && s == Listing(dat, m, i)
        decreases |m.g.order| - i
      {
        var rec;
        ghost var j;
        rec, j := NextRec(i);
        ListingStep(dat, m, i, j);
        if rec.Aborted? {
          return Aborted;
        }
        if rec.value.None? {
          i := j;
          break;
        }
        s := s + [rec.value.value];
        i := j + 1;
      }
      assert s == Listing(dat, m, |m.g.order|);
      ScanExact(idx, dat, m, dict, hash);
      return Value(s);
    }
  }

  lemma ScanExact(idx: Bytes, dat: Bytes, m: Image, d: Dict, h: Hasher)
    requires Sound(idx, dat, m, h, {}) && Shows(dat, m, d) && forall x | x in m.g.order :: x in m.recs
    ensures var s := Listing(dat, m, |m.g.order|);
      && (forall key | key in d && (exists k :: 0 <= k < |key| && key[k] != 32) :: (key, d[key]) in s)
      && (forall e | e in s :: e.0 in d && d[e.0] == e.1 && exists k :: 0 <= k < |e.0| && e.0[k] != 32)
      && forall i, j | 0 <= i < j < |s| :: s[i].0 != s[j].0
  {
    hide Sound, Listing;
    ListingDistinct(idx, dat, m, h, |m.g.order|);
    var s := Listing(dat, m, |m.g.order|);
    forall key | key in d && (exists k :: 0 <= k < |key| && key[k] != 32) ensures (key, d[key]) in s {
      ListingExact(idx, dat, m, h, (key, d[key]));
    }
    forall e | e in s ensures e.0 in d && d[e.0] == e.1 && exists k :: 0 <= k < |e.0| && e.0[k] != 32 {
      ListingExact(idx, dat, m, h, e);
    }
  }

  /** So many calls cannot fill the index file, whatever they store. */
  const SAFE_OPS := 9661

  /** A store of sizes that every record can hold. */
  predicate Fits(op: Op) {
    op.StoreOp? ==> 1 <= |op.key| <= 1010 && DATLEN_MIN <= |op.data| + 1 <= DATLEN_MAX
  }

  /** The sizes of the files after n calls on a new database. */
  predicate Small(idx: nat, dat: nat, n: nat) {
    idx <= BASE + n * (PTR_SZ + IDXLEN_SZ + IDXLEN_MAX) && dat <= n * DATLEN_MAX
  }

  lemma RoomToAppend(key: Bytes, data: Bytes, idx: nat, dat: nat, n: nat)
    requires Small(idx, dat, n) && n < SAFE_OPS && Fits(StoreOp(key, data, 0))
    ensures Appendable(idx, Rec(key, dat, |data| + 1))
  {
    assert Pow10(7) == 10000000 by {
      assert Pow10(4) == 10000;
    }
    DecimalWidth(dat, 7);
    assert Pow10(4) == 10000;
    DecimalWidth(|data| + 1, 4);
  }

  /** One call. */
  method Perform(db: Database, op: Op, ghost n: nat) returns (r: Outcome<Reply>)
    requires db.Valid() && GoodOp(op) && Small(|db.idx|, |db.dat|, n)
    modifies db
    ensures r.Value? ==> db.Valid() && (db.dict, r.value) == SpecStep(old(db.dict), op)
    ensures r.Value? ==> Small(|db.idx|, |db.dat|, n + 1)
    ensures r.Aborted? ==> op.StoreOp? && !(n < SAFE_OPS && Fits(op))
  {
    hide Sound, Shows, Body, IsKey;
    match op {
      case StoreOp(key, data, flag) =>
        if n < SAFE_OPS && Fits(op) {
          RoomToAppend(key, data, |db.idx|, |db.dat|, n);
        }
        var rc := db.Store(key, data, flag);
        if rc.Aborted? {
          return Aborted;
        }
        return Value(Code(rc.value));
      case FetchOp(key) =>
        var text := db.Fetch(key);
        if text.Aborted? {
          return Aborted;
        }
        return Value(Text(text.value));
      case DeleteOp(key) =>
        var rc := db.Delete(key);
        if rc.Aborted? {
          return Aborted;
        }
        return Value(Code(rc.value));
    }
  }

  lemma NoOps(ops: seq<Op>)
    ensures SpecRun(map[], ops[..0]) == (map[], [])
  {
  }

  /** Any run of calls on a new database answers as the plain map does, and as the calls
      before tell, up to the first call that ends the process, which can only be a db_store;
      a scan at the end lists, once, each key with a byte that is no space and its last data. */
  method Run(ops: seq<Op>) returns (replies: seq<Reply>, scan: seq<(Bytes, Bytes)>)
    requires forall i | 0 <= i < |ops| :: GoodOp(ops[i])
    ensures |replies| <= |ops| && replies == SpecRun(map[], ops[..|replies|]).1
    ensures forall n | 0 <= n < |replies| :: Answers(ops, replies, n)
    ensures |replies| == |ops| ==> forall key, data ::
      (key, data) in scan <==> Remembers(ops, replies, |ops|, key, data) && exists k :: 0 <= k < |key| && key[k] != 32
    ensures |replies| == |ops| ==> forall i, j | 0 <= i < j < |scan| :: scan[i].0 != scan[j].0
    ensures |replies| < |ops| ==> ops[|replies|].StoreOp?
    ensures |ops| <= SAFE_OPS && (forall i | 0 <= i < |ops| :: Fits(ops[i])) ==> |replies| == |ops|
  {
    hide Sound, Shows, SpecStep, Fits, SpecRun, Answers, Remembers;
    var db := new Database();
    replies, scan := [], [];
    NoOps(ops);
    while |replies| < |ops|
      invariant fresh(db) && db.Valid() && |replies| <= |ops|
      invariant Small(|db.idx|, |db.dat|, |replies|)
      invariant SpecRun(map[], ops[..|replies|]) == (db.dict, replies)
    {
      var n := |replies|;
      SpecRunStep(map[], ops, n);
      ghost var before := db.dict;
      var r := Perform(db, ops[n], n);
      if r.Aborted? {
        ToldBefore(ops, before, replies);
        return;
      }
      replies := replies + [r.value];
    }
    assert ops[..|replies|] == ops;
    Told(ops, db.dict, replies);
    var all := db.ScanAll();
    scan := all.value;
  }

  lemma ReAdd(d: Dict, key: Bytes, data: Bytes)
    ensures (d - {key})[key := data] == d[key := data]
  {
  }

  lemma SoundWhere(idx: Bytes, dat: Bytes, m: Image, d: Dict, h: Hasher, key: Bytes)
    requires Sound(idx, dat, m, h, {}) && Shows(dat, m, d)
    ensures key in d <==> key in m.where
    ensures key in d ==> m.where[key] in m.recs && |d[key]| + 1 == m.recs[m.where[key]].datlen
    ensures key in d ==> d[key] == Data(dat, m.recs[m.where[key]]) && Extent(dat, m.recs[m.where[key]])
  {
    hide Keyed, Extents, Shows, Parses, Encodes, Threaded;
    DictWhere(dat, m, d, h, key);
  }

  lemma DictWhere(dat: Bytes, m: Image, d: Dict, h: Hasher, key: Bytes)
    requires Keyed(m.recs, m.t.home, m.where, h) && Extents(dat, m.recs) && Shows(dat, m, d)
    ensures key in d <==> key in m.where
    ensures key in d ==> m.where[key] in m.recs && |d[key]| + 1 == m.recs[m.where[key]].datlen
    ensures key in d ==> d[key] == Data(dat, m.recs[m.where[key]]) && Extent(dat, m.recs[m.where[key]])
  {
    if key in m.where {
      assert Findable(m.recs, m.t.home, m.where, key);
      assert Extent(dat, m.recs[m.where[key]]);
    }
  }

  /** A record on the free list with a key and data of these lengths. */
  ghost predicate IsFree(m: Image, o: nat, keylen: nat, dlen: nat) {
    && o in m.t.home && m.t.home[o] == 0
    && o in m.recs && |m.recs[o].key| == keylen && m.recs[o].datlen == dlen
  }

  lemma FreeDecides(m: Image, dat: Bytes, idx: Bytes, h: Hasher, c: seq<nat>, rs: seq<Rec>, k: nat,
                    keylen: nat, dlen: nat)
    requires Sound(idx, dat, m, h, {}) && c == m.t.chains[0] && RecordsOn(m.recs, c, rs) && k <= |c|
    requires forall j | 0 <= j < k :: !(|rs[j].key| == keylen && rs[j].datlen == dlen)
    requires k < |c| ==> |rs[k].key| == keylen && rs[k].datlen == dlen
    ensures k < |c| <==> exists o :: IsFree(m, o, keylen, dlen)
    ensures k < |c| ==> OnFree(m, k) && m.recs[c[k]] == rs[k]
  {
    if k < |c| {
      assert c[k] in c && rs[k] == m.recs[c[k]];
      assert IsFree(m, c[k], keylen, dlen);
    } else {
      forall o | IsFree(m, o, keylen, dlen) ensures exists j :: 0 <= j < |c| && rs[j] == m.recs[o] {
        assert Housed(m.t, o);
        var j :| 0 <= j < |c| && c[j] == o;
        assert rs[j] == m.recs[c[j]];
      }
    }
  }

  lemma ReuseReady(idx: Bytes, dat: Bytes, m: Image, h: Hasher, k: nat)
    requires Sound(idx, dat, m, h, {}) && OnFree(m, k)
    ensures var c := m.t.chains[0];
            && c[k] in m.recs && c[k] <= PTR_MAX && GoodRec(m.recs[c[k]]) && Extent(dat, m.recs[c[k]])
            && c[k] + PTR_SZ + IDXLEN_SZ + |Body(m.recs[c[k]])| <= |idx|
            && Node(0, c, k) + PTR_SZ <= |idx| && Succ(c, k + 1) <= PTR_MAX
  {
    var c := m.t.chains[0];
    var o := c[k];
    RecordStands(idx, m.g, m.recs, o);
    PtrWidth(m.g.ptrs[o]);
    TailWidth(Body(m.recs[o]));
    ListPointers(m.g, m.t, 0, k);
    ListPointers(m.g, m.t, 0, k + 1);
    PtrWithin(idx, m.g, Node(0, c, k));
    assert Extent(dat, m.recs[o]);
  }

  /** Reusing a record rewrites exactly the bytes it has. */
  lemma ReuseSizes(idx: Bytes, idx1: Bytes, dat: Bytes, m: Image, h: Hasher, r: Rec, l: nat, data: Bytes, k: nat)
    requires Sound(idx, dat, m, h, {}) && OnFree(m, k) && IsKey(r.key) && l < NLISTS
    requires var c := m.t.chains[0];
             && c[k] in m.recs && |m.recs[c[k]].key| == |r.key| && r == Rec(r.key, m.recs[c[k]].datoff, |data| + 1)
             && m.recs[c[k]].datlen == |data| + 1
             && Node(0, c, k) <= |idx|
             && idx1 == Splice(idx, Node(0, c, k), Padded(Succ(c, k + 1), PTR_SZ))
    ensures m.t.chains[0][k] <= |idx1| && PTR_SZ * l <= |idx1| && r.datoff <= |dat| && l < |m.t.chains|
    ensures |ReusedIdx(idx1, m.t.chains[0][k], r, Succ(m.t.chains[l], 0), l)| == |idx|
    ensures |Wrote(dat, r.datoff, data)| == |dat|
  {
    hide Sound, Body, Padded;
    var o := m.t.chains[0][k];
    ReuseReady(idx, dat, m, h, k);
    HeadReady(idx, dat, m, h, l);
    SameSizes(m.recs[o], r.key);
    PtrWidth(Succ(m.t.chains[0], k + 1));
    ReusedSize(idx1, o, r, Succ(m.t.chains[l], 0), l);
  }

  lemma ReusePlan(idx: Bytes, idx1: Bytes, dat: Bytes, m: Image, d: Dict, h: Hasher, r: Rec, l: nat,
                  data: Bytes, k: nat)
    returns (idx': Bytes, dat': Bytes, m': Image)
    requires Sound(idx, dat, m, h, {}) && Shows(dat, m, d) && OnFree(m, k)
    requires r.key !in m.where && IsKey(r.key) && NUL !in data && 0 < l == h(r.key) + 1 < NLISTS
    requires var c := m.t.chains[0];
             && |m.recs[c[k]].key| == |r.key| && r == Rec(r.key, m.recs[c[k]].datoff, |data| + 1)
             && m.recs[c[k]].datlen == |data| + 1
             && Node(0, c, k) <= |idx|
             && idx1 == Splice(idx, Node(0, c, k), Padded(Succ(c, k + 1), PTR_SZ))
    ensures m.t.chains[0][k] <= PTR_MAX && m.t.chains[0][k] <= |idx1|
    ensures PTR_SZ * l <= |idx1| && r.datoff <= |dat| && IDXLEN_MIN <= |Body(r)| <= IDXLEN_MAX
    ensures idx' == ReusedIdx(idx1, m.t.chains[0][k], r, Succ(m.t.chains[l], 0), l)
    ensures dat' == Wrote(dat, r.datoff, data)
    ensures Sound(idx', dat', m', h, {}) && Shows(dat', m', d[r.key := data])
    ensures |idx'| == |idx| && |dat'| == |dat|
  {
    hide Sound;
    ReuseSizes(idx, idx1, dat, m, h, r, l, data, k);
    ReuseReady(idx, dat, m, h, k);
    var o, m1 := m.t.chains[0][k], FreedImage(m, k);
    TakeFreeSound(idx, dat, m, h, k);
    SameSizes(m.recs[o], r.key);
    ReuseSound(idx1, dat, m1, h, o, r, l, data);
    idx', dat' := ReusedIdx(idx1, o, r, Succ(m.t.chains[l], 0), l), Wrote(dat, r.datoff, data);
    m' := ReusedImage(m1, o, r, l);
  }

  lemma SpaceCount(r: Rec)
    requires GoodRec(r)
    ensures |Spaces(r.datlen - 1)| + 1 == r.datlen && Blanked(r) == Rec(Spaces(|r.key|), r.datoff, r.datlen)
  {
    hide Body, IsKey;
  }

  lemma DeletedSteps(idx: Bytes, o: nat, r: Rec, free: nat, node: nat, save: nat, idx1: Bytes, idx2: Bytes, idx3: Bytes)
    requires o <= |idx| && node <= |idx| && idx1 == Splice(idx, o, Padded(free, PTR_SZ) + Tail(Body(Blanked(r))))
    requires idx2 == Splice(idx1, FREE_OFF, Padded(o, PTR_SZ))
    requires node <= |idx2| && idx3 == Splice(idx2, node, Padded(save, PTR_SZ))
    ensures idx3 == DeletedIdx(idx, o, r, free, node, save)
  {
  }

  lemma AppendedSize(idx: Bytes, r: Rec, head: nat, l: nat)
    requires PTR_SZ * l + PTR_SZ <= |idx| <= PTR_MAX && head <= PTR_MAX && |Body(r)| <= IDXLEN_MAX
    ensures |AppendedIdx(idx, r, head, l)| == |idx| + PTR_SZ + IDXLEN_SZ + |Body(r)|
  {
    hide Padded, Body;
    PtrWidth(head);
    PtrWidth(|idx|);
    TailWidth(Body(r));
  }

  lemma ReusedSize(idx: Bytes, o: nat, r: Rec, head: nat, l: nat)
    requires PTR_SZ * l + PTR_SZ <= |idx| && head <= PTR_MAX && o <= PTR_MAX && |Body(r)| <= IDXLEN_MAX
    requires o + PTR_SZ + IDXLEN_SZ + |Body(r)| <= |idx|
    ensures |ReusedIdx(idx, o, r, head, l)| == |idx|
  {
    hide Padded, Body;
    PtrWidth(head);
    PtrWidth(o);
    TailWidth(Body(r));
  }

  lemma HeadReady(idx: Bytes, dat: Bytes, m: Image, h: Hasher, l: nat)
    requires Sound(idx, dat, m, h, {}) && l < NLISTS
    ensures l < |m.t.chains|
    ensures PTR_SZ * l <= |idx| && Succ(m.t.chains[l], 0) <= PTR_MAX
    ensures Has(idx, PTR_SZ * l, Padded(Succ(m.t.chains[l], 0), PTR_SZ))
    ensures PTR_SZ * l + PTR_SZ <= |idx|
  {
    ListPointers(m.g, m.t, l, 0);
    PtrAt(idx, m.g, PTR_SZ * l);
    PtrWithin(idx, m.g, PTR_SZ * l);
  }

  lemma AppendPlan(idx: Bytes, dat: Bytes, m: Image, d: Dict, h: Hasher, r: Rec, l: nat, data: Bytes)
    returns (idx': Bytes, dat': Bytes, m': Image)
    requires Sound(idx, dat, m, h, {}) && Shows(dat, m, d)
    requires r.key !in m.where && IsKey(r.key) && NUL !in data && l == h(r.key) + 1 < NLISTS
    requires r == Rec(r.key, |dat|, |data| + 1) && DATLEN_MIN <= r.datlen <= DATLEN_MAX
    ensures PTR_SZ * l <= |idx| && Succ(m.t.chains[l], 0) <= PTR_MAX
    ensures idx' == AppendedIdx(idx, r, Succ(m.t.chains[l], 0), l) && dat' == Wrote(dat, |dat|, data)
    ensures Appendable(|idx|, r) ==> Sound(idx', dat', m', h, {}) && Shows(dat', m', d[r.key := data])
    ensures Appendable(|idx|, r) ==> Grown(|idx|, |idx'|, |dat|, |dat'|)
  {
    HeadReady(idx, dat, m, h, l);
    idx', dat' := AppendedIdx(idx, r, Succ(m.t.chains[l], 0), l), Wrote(dat, r.datoff, data);
    m' := AppendedImage(idx, m, r, l);
    if Appendable(|idx|, r) {
      AppendSound(idx, dat, m, h, r, l, data);
      AppendedSize(idx, r, Succ(m.t.chains[l], 0), l);
    }
  }

  /** _db_dodelete can do all its reads and writes. */
  lemma DeleteReady(idx: Bytes, dat: Bytes, m: Image, h: Hasher, key: Bytes, l: nat, k: nat)
    requires Sound(idx, dat, m, h, {}) && OnChain(m, key, l, k)
    ensures Succ(m.t.chains[0], 0) <= PTR_MAX && Has(idx, FREE_OFF, Padded(Succ(m.t.chains[0], 0), PTR_SZ))
    ensures m.where[key] <= |idx| && m.where[key] <= PTR_MAX
    ensures Node(l, m.t.chains[l], k) <= |idx| && Succ(m.t.chains[l], k + 1) <= PTR_MAX
    ensures GoodRec(m.recs[m.where[key]]) && m.recs[m.where[key]].datoff <= |dat|
  {
    var c := m.t.chains[l];
    ListPointers(m.g, m.t, 0, 0);
    PtrAt(idx, m.g, FREE_OFF);
    ListPointers(m.g, m.t, l, k);
    PtrWithin(idx, m.g, Node(l, c, k));
    ListPointers(m.g, m.t, l, k + 1);
    RecordStands(idx, m.g, m.recs, c[k]);
    assert Extent(dat, m.recs[c[k]]);
  }

  lemma DeletePlan(idx: Bytes, dat: Bytes, m: Image, d: Dict, h: Hasher, key: Bytes, l: nat, k: nat)
      returns (idx': Bytes, dat': Bytes, m': Image)
    requires Sound(idx, dat, m, h, {}) && OnChain(m, key, l, k) && Shows(dat, m, d)
    ensures Succ(m.t.chains[0], 0) <= PTR_MAX && Has(idx, FREE_OFF, Padded(Succ(m.t.chains[0], 0), PTR_SZ))
    ensures m.where[key] <= |idx| && m.where[key] <= PTR_MAX
    ensures Node(l, m.t.chains[l], k) <= |idx| && Succ(m.t.chains[l], k + 1) <= PTR_MAX
    ensures GoodRec(m.recs[m.where[key]]) && m.recs[m.where[key]].datoff <= |dat|
    ensures idx' == DeletedIdx(idx, m.where[key], m.recs[m.where[key]], Succ(m.t.chains[0], 0),
                               Node(l, m.t.chains[l], k), Succ(m.t.chains[l], k + 1))
    ensures dat' == Wrote(dat, m.recs[m.where[key]].datoff, Spaces(m.recs[m.where[key]].datlen - 1))
    ensures |idx'| == |idx| && |dat'| == |dat|
    ensures Sound(idx', dat', m', h, {}) && Shows(dat', m', d - {key})
  {
    DeleteReady(idx, dat, m, h, key, l, k);
    DeleteSound(idx, dat, m, h, key, l, k);
    m' := DeletedImage(m, key, l, k);
    idx' := DeletedIdx(idx, m.where[key], m.recs[m.where[key]], Succ(m.t.chains[0], 0),
                       Node(l, m.t.chains[l], k), Succ(m.t.chains[l], k + 1));
    dat' := BlankedDat(dat, m.recs[m.where[key]]);
  }
}
