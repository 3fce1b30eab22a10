/**
  What the lists mean: which record holds a key, and which bytes of the data
  file belong to a record.
 */
module DbContents {
  import opened Common
  import opened CStrings
  import opened DbCells
  import opened DbRecord
  import opened DbFormat

  /** Value of a char on a machine where char is signed. */
  function SignedChar(b: byte): int {
    if b < 128 then b else b - 256
  }

  const WORD := 0x1_0000_0000_0000_0000

  /** Sum over the first n characters of character times 1-based index, in unsigned long. */
  function HashSum(key: seq<byte>, n: nat): (h: nat)
    requires n <= |key|
    ensures h < WORD
  {
    if n == 0 then 0 else (HashSum(key, n - 1) + SignedChar(key[n - 1]) * n) % WORD
  }

  function Hash(key: seq<byte>): (h: nat)
    ensures h < NHASH
  {
    HashSum(key, |key|) % NHASH
  }

  predicate Blank(key: seq<byte>) {
    forall i | 0 <= i < |key| :: key[i] == SPACE
  }

  type Hasher = seq<byte> -> nat

  /** The record at `o`, on some list, has the key its list requires. */
  ghost predicate Placed(recs: map<nat, Rec>, home: map<nat, nat>, where: map<seq<byte>, nat>, h: Hasher, o: nat) {
    && o in recs && o in home
    && if home[o] == 0 then Blank(recs[o].key)
       else recs[o].key in where && where[recs[o].key] == o && home[o] == h(recs[o].key) + 1
  }

  ghost predicate Findable(recs: map<nat, Rec>, home: map<nat, nat>, where: map<seq<byte>, nat>, k: seq<byte>) {
    k in where && where[k] in home && where[k] in recs && home[where[k]] != 0 && recs[where[k]].key == k
  }

  /** `where` finds exactly the records on hash chains, each on the chain of its
      own key; records on the free list have blank keys. */
  ghost predicate Keyed(recs: map<nat, Rec>, home: map<nat, nat>, where: map<seq<byte>, nat>, h: Hasher) {
    && (forall o {:trigger Placed(recs, home, where, h, o)} | o in home :: Placed(recs, home, where, h, o))
    && (forall k {:trigger Findable(recs, home, where, k)} | k in where :: Findable(recs, home, where, k))
  }

  function End(r: Rec): nat {
    r.datoff + r.datlen
  }

  predicate Extent(dat: seq<byte>, r: Rec) {
    r.datlen >= 1 && End(r) <= |dat| && dat[End(r) - 1] == NEWLINE && NUL !in dat[r.datoff..End(r) - 1]
  }

  predicate Apart(r: Rec, s: Rec) {
    End(r) <= s.datoff || End(s) <= r.datoff
  }

  /** Every record owns an extent of the data file; extents do not overlap. */
  ghost predicate Extents(dat: seq<byte>, recs: map<nat, Rec>) {
    && (forall x {:trigger Extent(dat, recs[x])} | x in recs :: Extent(dat, recs[x]))
    && (forall x, y {:trigger Apart(recs[x], recs[y])} | x in recs && y in recs && x != y :: Apart(recs[x], recs[y]))
  }

  function Data(dat: seq<byte>, r: Rec): seq<byte> {
    if Extent(dat, r) then dat[r.datoff..End(r) - 1] else []
  }

  function Look(dat: seq<byte>, recs: map<nat, Rec>, o: nat): seq<byte> {
    if o in recs then Data(dat, recs[o]) else []
  }

  /** The database seen as a map from keys to data. */
  ghost function View(dat: seq<byte>, recs: map<nat, Rec>, where: map<seq<byte>, nat>): map<seq<byte>, seq<byte>> {
    map k | k in where :: Look(dat, recs, where[k])
  }

  /** Record o has the same data before and after. */
  ghost predicate Kept(dat: seq<byte>, recs: map<nat, Rec>, dat': seq<byte>, recs': map<nat, Rec>, o: nat) {
    Look(dat', recs', o) == Look(dat, recs, o)
  }

  lemma ViewWithout(dat: seq<byte>, recs: map<nat, Rec>, where: map<seq<byte>, nat>,
                    dat': seq<byte>, recs': map<nat, Rec>, key: seq<byte>)
    requires key in where
    requires forall q {:trigger where[q]} | q in where && q != key :: Kept(dat, recs, dat', recs', where[q])
    ensures View(dat', recs', where - {key}) == View(dat, recs, where) - {key}
  {
  }

  lemma ViewWith(dat: seq<byte>, recs: map<nat, Rec>, where: map<seq<byte>, nat>,
                 dat': seq<byte>, recs': map<nat, Rec>, key: seq<byte>, o: nat)
    requires forall q {:trigger where[q]} | q in where && q != key :: Kept(dat, recs, dat', recs', where[q])
    ensures View(dat', recs', where[key := o]) == View(dat, recs, where)[key := Look(dat', recs', o)]
  {
  }

  lemma OneExtentWritten(dat: seq<byte>, r: Rec, s: seq<byte>)
    requires Extent(dat, r) && |s| + 1 == r.datlen && NUL !in s
    ensures var dat' := Splice(dat, r.datoff, s + [NEWLINE]);
            Extent(dat', r) && Data(dat', r) == s
  {
    var dat' := Splice(dat, r.datoff, s + [NEWLINE]);
    assert dat'[r.datoff..End(r) - 1] == s;
  }

  lemma OtherExtentKept(dat: seq<byte>, o: nat, b: seq<byte>, r: Rec)
    requires o <= |dat| && Extent(dat, r) && (End(r) <= o || o + |b| <= r.datoff)
    ensures Extent(Splice(dat, o, b), r) && Data(Splice(dat, o, b), r) == Data(dat, r)
  {
    var dat' := Splice(dat, o, b);
    assert dat'[r.datoff..End(r) - 1] == dat[r.datoff..End(r) - 1];
  }

  /** The data file after _db_writedat writes `s` at `off`. */
  function Wrote(dat: seq<byte>, off: nat, s: seq<byte>): seq<byte>
    requires off <= |dat|
  {
    Splice(dat, off, s + [NEWLINE])
  }

  /** _db_writedat over the extent of record x changes that record's data only. */
  lemma OverwriteExtent(dat: seq<byte>, recs: map<nat, Rec>, x: nat, s: seq<byte>)
    requires Extents(dat, recs) && x in recs && |s| + 1 == recs[x].datlen && NUL !in s
    ensures recs[x].datoff <= |dat|
    ensures Extents(Wrote(dat, recs[x].datoff, s), recs) && Data(Wrote(dat, recs[x].datoff, s), recs[x]) == s
    ensures forall y | y in recs && y != x :: Kept(dat, recs, Wrote(dat, recs[x].datoff, s), recs, y)
  {
    var r := recs[x];
    assert Extent(dat, recs[x]);
    OneExtentWritten(dat, r, s);
    forall y | y in recs && y != x
      ensures Extent(Wrote(dat, r.datoff, s), recs[y]) && Kept(dat, recs, Wrote(dat, r.datoff, s), recs, y)
    {
      assert Extent(dat, recs[y]);
      assert Apart(recs[x], recs[y]);
      OtherExtentKept(dat, r.datoff, s + [NEWLINE], recs[y]);
    }
  }

  /** _db_writedat at the end of the data file keeps every record's data and
      gives the new record its own. */
  lemma AppendExtent(dat: seq<byte>, recs: map<nat, Rec>, s: seq<byte>, o: nat, r: Rec)
    requires Extents(dat, recs) && o !in recs && NUL !in s
    requires r.datoff == |dat| && r.datlen == |s| + 1
    ensures Extents(Wrote(dat, r.datoff, s), recs[o := r]) && Data(Wrote(dat, r.datoff, s), r) == s
    ensures forall y | y in recs :: Kept(dat, recs, Wrote(dat, r.datoff, s), recs, y)
  {
    var dat', recs' := Wrote(dat, r.datoff, s), recs[o := r];
    assert dat'[|dat|..|dat| + |s|] == s;
    forall y | y in recs
      ensures Extent(dat', recs[y]) && Kept(dat, recs, dat', recs, y) && End(recs[y]) <= |dat|
    {
      assert Extent(dat, recs[y]);
      OtherExtentKept(dat, |dat|, s + [NEWLINE], recs[y]);
    }
    forall x, y | x in recs' && y in recs' && x != y
      ensures Apart(recs'[x], recs'[y])
    {
      if x != o && y != o { assert Apart(recs[x], recs[y]); }
    }
  }

  /** Extents do not depend on the keys. */
  lemma SameExtents(dat: seq<byte>, recs: map<nat, Rec>, o: nat, r: Rec)
    requires Extents(dat, recs) && o in recs && r.datoff == recs[o].datoff && r.datlen == recs[o].datlen
    ensures Extents(dat, recs[o := r])
  {
    var recs' := recs[o := r];
    forall x | x in recs' ensures Extent(dat, recs'[x]) {
      assert Extent(dat, recs[x]);
    }
    forall x, y | x in recs' && y in recs' && x != y
      ensures Apart(recs'[x], recs'[y])
    {
      assert Apart(recs[x], recs[y]);
    }
  }

  // ---- the hash in closed form ----------------------------------------------------------------

  /** The sum of the numbers, weighted i, i + 1, i + 2 and so on. */
  function Weighted(v: seq<int>, i: nat): int {
    if v == [] then 0 else v[0] * i + Weighted(v[1..], i + 1)
  }

  lemma {:induction false} WeightedLast(v: seq<int>, i: nat)
    requires v != []
    ensures Weighted(v, i) == Weighted(v[..|v| - 1], i) + v[|v| - 1] * (i + |v| - 1)
  {
    if |v| > 1 {
      WeightedLast(v[1..], i + 1);
      assert v[1..][..|v| - 2] == v[..|v| - 1][1..];
    }
  }

  lemma WrapStep(a: int, b: int)
    ensures (a % WORD + b) % WORD == (a + b) % WORD
  {
  }

  /** The numbers are the bytes as signed chars. */
  predicate SignedChars(key: seq<byte>, v: seq<int>) {
    |v| == |key| && forall i | 0 <= i < |v| :: -128 <= v[i] < 128 && (v[i] - key[i]) % 256 == 0
  }

  lemma SignedIs(b: byte, x: int)
    requires -128 <= x < 128 && (x - b) % 256 == 0
    ensures SignedChar(b) == x
  {
  }

  lemma {:induction false} HashSumMeans(key: seq<byte>, v: seq<int>, n: nat)
    requires SignedChars(key, v) && n <= |key|
    ensures HashSum(key, n) == Weighted(v[..n], 1) % WORD
  {
    hide SignedChar;
    if n > 0 {
      HashSumMeans(key, v, n - 1);
      WeightedLast(v[..n], 1);
      SignedIs(key[n - 1], v[n - 1]);
      assert v[..n][..n - 1] == v[..n - 1];
      WrapStep(Weighted(v[..n - 1], 1), v[n - 1] * n);
    }
  }

  /** The hash is the sum of signed char times position from 1, modulo 2^64, modulo 137. */
  lemma HashMeans(key: seq<byte>, v: seq<int>)
    requires SignedChars(key, v)
    ensures Hash(key) == Weighted(v, 1) % 0x1_0000_0000_0000_0000 % 137
  {
    HashSumMeans(key, v, |key|);
    assert v[..|key|] == v;
  }
}
