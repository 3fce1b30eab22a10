/**
  The asynchronous rot13 pipeline of advio/rot13c2.c: buffers are read, translated
  and written with POSIX asynchronous I/O, in whatever order the kernel completes
  the operations.  Reads and writes succeed and are not short, except that the
  read at the end of the file delivers what is left.
 */
module Rot13 {
  import opened Common

  predicate IsAlpha(c: byte) {
    ('A' as int <= c <= 'Z' as int) || ('a' as int <= c <= 'z' as int)
  }

  function Translate(c: byte): byte {
    if IsAlpha(c) then
      if c >= 'n' as int then c - 13
      else if c >= 'a' as int then c + 13
      else if c >= 'N' as int then c - 13
      else c + 13
    else c
  }

  function TranslateAll(s: seq<byte>): (t: seq<byte>)
    ensures |t| == |s|
  {
    seq(|s|, i requires 0 <= i < |s| => Translate(s[i]))
  }

  /** Every letter goes thirteen places on in its alphabet, around the end; nothing else changes. */
  lemma TranslateShifts(c: byte)
    ensures 65 <= c < 91 ==> Translate(c) == 65 + (c - 65 + 13) % 26
    ensures 97 <= c < 123 ==> Translate(c) == 97 + (c - 97 + 13) % 26
    ensures !(65 <= c < 91) && !(97 <= c < 123) ==> Translate(c) == c
  {
  }

  /** Translating twice changes nothing. */
  lemma TranslateInvolution(s: seq<byte>)
    ensures TranslateAll(TranslateAll(s)) == s
  {
    forall i | 0 <= i < |s| ensures TranslateAll(TranslateAll(s))[i] == s[i] {
      assert Translate(Translate(s[i])) == s[i];
    }
  }

  datatype Op = Unused | ReadPending | WritePending

  /** A buffer; `done` is set by the kernel when its pending operation completes. */
  datatype Buf = Buf(op: Op, last: bool, offset: nat, data: seq<byte>, done: bool)

  function Busy(bufs: seq<Buf>): nat {
    if bufs == [] then 0 else (if bufs[0].op.Unused? then 0 else 1) + Busy(bufs[1..])
  }

  /** How many visits the operations in flight still need. */
  function Stages(bufs: seq<Buf>): nat {
    if bufs == [] then 0 else Stage(bufs[0]) + Stages(bufs[1..])
  }

  function Stage(b: Buf): nat {
    match b.op
    case Unused => 0
    case ReadPending => 2
    case WritePending => 1
  }

  function Waiting(bufs: seq<Buf>): nat {
    if bufs == [] then 0 else (if !bufs[0].op.Unused? && !bufs[0].done then 1 else 0) + Waiting(bufs[1..])
  }

  lemma {:induction false} SumsUpdate(bufs: seq<Buf>, i: nat, b: Buf)
    requires i < |bufs|
    ensures Busy(bufs[i := b]) == Busy(bufs) - Busy([bufs[i]]) + Busy([b])
    ensures Stages(bufs[i := b]) == Stages(bufs) - Stage(bufs[i]) + Stage(b)
    ensures Waiting(bufs[i := b]) == Waiting(bufs) - Waiting([bufs[i]]) + Waiting([b])
  {
    if i == 0 {
      assert bufs[0 := b][1..] == bufs[1..];
    } else {
      assert bufs[i := b][1..] == bufs[1..][i - 1 := b];
      SumsUpdate(bufs[1..], i - 1, b);
    }
  }

  lemma {:induction false} BusyZero(bufs: seq<Buf>)
    ensures Busy(bufs) == 0 <==> forall i | 0 <= i < |bufs| :: bufs[i].op.Unused?
  {
    if bufs != [] {
      BusyZero(bufs[1..]);
      if forall i | 0 <= i < |bufs| :: bufs[i].op.Unused? {
        assert bufs[0].op.Unused?;
        assert forall i | 0 <= i < |bufs[1..]| :: bufs[1..][i] == bufs[i + 1];
      }
    }
  }

  function Min(a: nat, b: nat): nat {
    if a < b then a else b
  }

  /** The bytes of the block at `offset`. */
  function Block(input: seq<byte>, offset: nat, bsz: nat): seq<byte>
    requires offset <= |input|
  {
    input[offset..Min(offset + bsz, |input|)]
  }

  ghost predicate BufOk(input: seq<byte>, bsz: nat, off: nat, b: Buf) {
    && (!b.op.Unused? ==> b.offset < |input| && b.offset < off)
    && (b.op.ReadPending? && b.offset + bsz >= |input| ==> b.last)
    && (b.op.WritePending? ==> b.data == TranslateAll(Block(input, b.offset, bsz)))
  }

  ghost predicate Covers(bufs: seq<Buf>, bsz: nat, i: nat, p: nat) {
    i < |bufs| && !bufs[i].op.Unused? && bufs[i].offset <= p < bufs[i].offset + bsz
  }

  /** Every byte the pipeline has begun with is in the output or in some buffer. */
  ghost predicate Accounted(bufs: seq<Buf>, bsz: nat, out: map<nat, byte>, p: nat) {
    p in out || exists i :: Covers(bufs, bsz, i, p)
  }

  ghost predicate AllAccounted(bufs: seq<Buf>, bsz: nat, out: map<nat, byte>, n: nat) {
    forall p {:trigger Accounted(bufs, bsz, out, p)} | 0 <= p < n :: Accounted(bufs, bsz, out, p)
  }

  class Pipeline {
    const input: seq<byte>
    const bsz: nat
    const nbuf: nat
    var bufs: seq<Buf>
    var off: nat
    var numop: nat
    var out: map<nat, byte>  // what has been written to the output file

    ghost predicate Valid()
      reads this
    {
      && bsz >= 1 && nbuf >= 1 && |bufs| == nbuf
      && numop == Busy(bufs)
      && (forall i | 0 <= i < |bufs| :: BufOk(input, bsz, off, bufs[i]))
      && (forall p | p in out :: p < |input| && out[p] == Translate(input[p]))
      && AllAccounted(bufs, bsz, out, Min(off, |input|))
    }

    ghost function Work(): nat
      reads this
    {
      3 * (if off < |input| then |input| - off else 0) + Stages(bufs)
    }

    constructor (input: seq<byte>, bsz: nat, nbuf: nat)
      requires bsz >= 1 && nbuf >= 1
      ensures Valid() && this.input == input && this.bsz == bsz && this.nbuf == nbuf
      ensures off == 0 && out == map[]
    {
      this.input, this.bsz, this.nbuf := input, bsz, nbuf;
      bufs := seq(nbuf, _ => Buf(Unused, false, 0, [], false));
      off, numop, out := 0, 0, map[];
      new;
      BusyZero(bufs);
    }

    /** The kernel may complete a pending operation at any time. */
    method MayComplete(i: nat)
      requires Valid() && i < |bufs| && !bufs[i].op.Unused?
      modifies `bufs
      ensures Valid() && bufs == old(bufs)[i := old(bufs)[i].(done := bufs[i].done)]
      ensures Stages(bufs) == old(Stages(bufs)) && (old(bufs)[i].done ==> bufs[i].done)
    {
      var finish: bool := *;
      if finish {
        Complete(i);
      }
    }

    /** The kernel completes operation i. */
    method Complete(i: nat)
      requires Valid() && i < |bufs| && !bufs[i].op.Unused?
      modifies `bufs
      ensures Valid() && bufs == old(bufs)[i := old(bufs)[i].(done := true)]
      ensures Stages(bufs) == old(Stages(bufs))
      ensures !old(bufs)[i].done ==> Waiting(bufs) < old(Waiting(bufs))
    {
      var b := bufs[i].(done := true);
      SumsUpdate(bufs, i, b);
      CoverKept(bufs, i, b, bsz, out, Min(off, |input|));
      bufs := bufs[i := b];
    }

    /** case UNUSED: start reading the next block, if there is one. */
    method StartRead(i: nat)
      requires Valid() && i < |bufs| && bufs[i].op.Unused?
      modifies `bufs, `off, `numop
      ensures Valid()
      ensures old(off) < |input| ==> Work() < old(Work()) && !bufs[i].op.Unused?
      ensures old(off) >= |input| ==> bufs == old(bufs) && off == old(off)
    {
      if off < |input| {
        var b := Buf(ReadPending, bufs[i].last || off + bsz >= |input|, off, bufs[i].data, false);
        SumsUpdate(bufs, i, b);
        CoverNew(bufs, i, b, bsz, out, Min(off, |input|));
        bufs := bufs[i := b];
        off := off + bsz;
        numop := numop + 1;
      }
    }

    /** case READ_PENDING, completed: translate the buffer and write it. */
    method StartWrite(i: nat) returns (ok: bool)
      requires Valid() && i < |bufs| && bufs[i].op.ReadPending? && bufs[i].done
      modifies `bufs
      ensures ok && Valid() && Work() < old(Work())
    {
      var data := Block(input, bufs[i].offset, bsz);
      var n := |data|;
      if n != bsz && !bufs[i].last {
        return false;  // short read
      }
      var t := TranslateBuffer(data);
      var b := Buf(WritePending, bufs[i].last, bufs[i].offset, t, false);
      SumsUpdate(bufs, i, b);
      CoverKept(bufs, i, b, bsz, out, Min(off, |input|));
      bufs := bufs[i := b];
      ok := true;
    }

    /** case WRITE_PENDING, completed: the block is in the file, the buffer is free. */
    method FinishWrite(i: nat)
      requires Valid() && i < |bufs| && bufs[i].op.WritePending? && bufs[i].done
      modifies `bufs, `out, `numop
      ensures Valid() && Work() < old(Work())
    {
      var b := bufs[i].(op := Unused);
      SumsUpdate(bufs, i, b);
      var out' := Written(out, bufs[i].offset, bufs[i].data);
      CoverWritten(input, bufs, i, b, bsz, out, Min(off, |input|));
      WrittenRight(input, bufs[i].offset, bsz, out);
      out := out';
      bufs := bufs[i := b];
      numop := numop - 1;
    }

    /** One turn of the inner loop. */
    method Visit(i: nat) returns (ok: bool)
      requires Valid() && i < |bufs|
      modifies this
      ensures ok && Valid()
      ensures Work() < old(Work()) || (bufs == old(bufs) && off == old(off))
      ensures bufs == old(bufs) && off == old(off) ==> if bufs[i].op.Unused? then off >= |input| else !bufs[i].done
    {
      ok := true;
      if bufs[i].op.Unused? {
        StartRead(i);
      } else {
        MayComplete(i);
        if bufs[i].done {
          if bufs[i].op.ReadPending? {
            ok := StartWrite(i);
          } else {
            FinishWrite(i);
          }
        } else {
          assert bufs == old(bufs);
        }
      }
    }

    /** aio_suspend: returns once some pending operation has completed. */
    method Suspend()
      requires Valid() && numop > 0
      modifies `bufs
      ensures Valid() && Work() == old(Work())
      ensures (forall j | 0 <= j < |bufs| :: !old(bufs)[j].op.Unused? ==> !old(bufs)[j].done) ==>
        Waiting(bufs) < old(Waiting(bufs))
    {
      BusyZero(bufs);
      var k :| 0 <= k < |bufs| && !bufs[k].op.Unused?;
      Complete(k);
    }

    /** The main loop: it ends, with every byte of the input translated in the output. */
    method Run() returns (ok: bool)
      requires Valid()
      modifies this
      ensures ok && Valid() && numop == 0
      ensures out == map p | 0 <= p < |input| :: Translate(input[p])
    {
      while true
        invariant Valid()
        decreases Work(), Waiting(bufs)
      {
        ghost var work, bufs0, off0 := Work(), bufs, off;
        var i := 0;
        while i < nbuf
          invariant Valid() && 0 <= i <= nbuf
          invariant Work() < work || (bufs == bufs0 && off == off0)
          invariant Work() == work ==> forall j | 0 <= j < i :: Quiet(bufs[j], off, |input|)
        {
          ok := Visit(i);
          if !ok {
            return;
          }
          i := i + 1;
        }
        BusyZero(bufs);
        assert Work() == work ==> Quiet(bufs[0], off, |input|);
        if numop == 0 {
          if off >= |input| {
            break;
          }
        } else {
          Suspend();
        }
      }
      AllWritten(input, bufs, bsz, out);
      ok := true;
    }
  }

  /** Nothing was to be done for this buffer. */
  predicate Quiet(b: Buf, off: nat, size: nat) {
    if b.op.Unused? then off >= size else !b.done
  }

  lemma AllWritten(input: seq<byte>, bufs: seq<Buf>, bsz: nat, out: map<nat, byte>)
    requires Busy(bufs) == 0 && AllAccounted(bufs, bsz, out, |input|)
    requires forall p | p in out :: p < |input| && out[p] == Translate(input[p])
    ensures out == map p | 0 <= p < |input| :: Translate(input[p])
  {
    BusyZero(bufs);
    forall p | 0 <= p < |input| ensures p in out {
      assert Accounted(bufs, bsz, out, p);
    }
  }

  /** The pipeline run on its own output restores the file. */
  method RunTwice(input: seq<byte>, bsz1: nat, nbuf1: nat, bsz2: nat, nbuf2: nat) returns (out: map<nat, byte>)
    requires bsz1 >= 1 && nbuf1 >= 1 && bsz2 >= 1 && nbuf2 >= 1
    ensures out == map p | 0 <= p < |input| :: input[p]
  {
    var first := new Pipeline(input, bsz1, nbuf1);
    var ok := first.Run();
    var middle := seq(|input|, p requires 0 <= p < |input| && p in first.out reads first => first.out[p]);
    assert middle == TranslateAll(input);
    TranslateInvolution(input);
    var second := new Pipeline(middle, bsz2, nbuf2);
    ok := second.Run();
    out := second.out;
    forall p | 0 <= p < |input| ensures Translate(middle[p]) == input[p] {
      assert TranslateAll(middle)[p] == input[p];
    }
  }

  method TranslateBuffer(data: seq<byte>) returns (t: seq<byte>)
    ensures t == TranslateAll(data)
  {
    t := data;
    var j := 0;
    while j < |data|
      invariant 0 <= j <= |data| == |t|
      invariant forall k | 0 <= k < |data| :: t[k] == if k < j then Translate(data[k]) else data[k]
    {
      t := t[j := Translate(t[j])];
      j := j + 1;
    }
  }

  /** The byte of `data` that lands at file offset p when written at `offset`. */
  function Placed(data: seq<byte>, offset: nat, p: nat): byte
    requires offset <= p < offset + |data|
  {
    data[p - offset]
  }

  function Written(out: map<nat, byte>, offset: nat, data: seq<byte>): map<nat, byte> {
    out + (map p | offset <= p < offset + |data| :: Placed(data, offset, p))
  }

  /** Changing a buffer without changing which block it holds. */
  lemma CoverKept(bufs: seq<Buf>, i: nat, b: Buf, bsz: nat, out: map<nat, byte>, n: nat)
    requires i < |bufs| && !b.op.Unused? && b.offset == bufs[i].offset
    requires AllAccounted(bufs, bsz, out, n)
    ensures AllAccounted(bufs[i := b], bsz, out, n)
  {
    var bufs' := bufs[i := b];
    forall p | 0 <= p < n ensures Accounted(bufs', bsz, out, p) {
      assert Accounted(bufs, bsz, out, p);
      if p !in out {
        var j :| Covers(bufs, bsz, j, p);
        assert Covers(bufs', bsz, j, p);
      }
    }
  }

  lemma CoverNew(bufs: seq<Buf>, i: nat, b: Buf, bsz: nat, out: map<nat, byte>, n: nat)
    requires i < |bufs| && bufs[i].op.Unused? && b.op.ReadPending? && b.offset == n
    requires AllAccounted(bufs, bsz, out, n)
    ensures AllAccounted(bufs[i := b], bsz, out, n + bsz)
  {
    var bufs' := bufs[i := b];
    forall p | 0 <= p < n + bsz ensures Accounted(bufs', bsz, out, p) {
      if p >= n {
        assert Covers(bufs', bsz, i, p);
      } else {
        assert Accounted(bufs, bsz, out, p);
        if p !in out {
          var j :| Covers(bufs, bsz, j, p);
          assert Covers(bufs', bsz, j, p);
        }
      }
    }
  }

  lemma CoverWritten(input: seq<byte>, bufs: seq<Buf>, i: nat, b: Buf, bsz: nat, out: map<nat, byte>, n: nat)
    requires i < |bufs| && b.op.Unused? && n <= |input| && bufs[i].offset <= |input|
    requires bufs[i].data == TranslateAll(Block(input, bufs[i].offset, bsz))
    requires AllAccounted(bufs, bsz, out, n)
    ensures AllAccounted(bufs[i := b], bsz, Written(out, bufs[i].offset, bufs[i].data), n)
  {
    var bufs', out' := bufs[i := b], Written(out, bufs[i].offset, bufs[i].data);
    forall p | 0 <= p < n ensures Accounted(bufs', bsz, out', p) {
      assert Accounted(bufs, bsz, out, p);
      if p !in out' {
        var j :| Covers(bufs, bsz, j, p);
        assert Covers(bufs', bsz, j, p);
      }
    }
  }

  lemma WrittenRight(input: seq<byte>, offset: nat, bsz: nat, out: map<nat, byte>)
    requires offset <= |input| && forall p | p in out :: p < |input| && out[p] == Translate(input[p])
    ensures var out' := Written(out, offset, TranslateAll(Block(input, offset, bsz)));
            forall p | p in out' :: p < |input| && out'[p] == Translate(input[p])
  {
  }
}
