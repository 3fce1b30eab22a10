/**
  What a step of one process leaves alone.  A process writes only what it has to itself: its
  chain, the free list while it holds that lock, the record it owns, the end of a file while
  it holds that lock.  So what any other process knows of the files stays true.
 */
module DbSharedFrame {
  import opened Common
  import opened CStrings
  import opened DbCells
  import opened DbRecord
  import opened DbFormat
  import opened DbLists
  import opened DbContents
  import opened DbSpec
  import opened DbShared
  import L = DbLocks
  import A = DbAtomic

  function Get<T>(m: map<nat, T>, x: nat): Option<T> {
    if x in m then Some(m[x]) else None
  }

  predicate SameAt(mem: Mem, g: Ghost, mem': Mem, g': Ghost, x: nat) {
    && Get(mem'.ptrs, x) == Get(mem.ptrs, x) && Get(mem'.cells, x) == Get(mem.cells, x)
    && Get(g'.want, x) == Get(g.want, x) && Get(g'.t.home, x) == Get(g.t.home, x)
  }

  /** The bytes of the extent are as they were. */
  predicate SameData(data: Bytes, data': Bytes, r: Rec) {
    End(r) <= |data| && End(r) <= |data'| && data'[r.datoff..End(r)] == data[r.datoff..End(r)]
  }

  /** The locations that the process may change. */
  predicate Mine(pc: L.Pc, job: Job, t: Lists, idxEnd: nat, x: nat) {
    || FieldOf(t, L.ChainOf(pc) + 1, x)
    || (pc.Freeing? && FieldOf(t, 0, x))
    || Own(job) == Some(x)
    || (pc.AppendingIndex? && x >= idxEnd)
  }

  /** Data of the call are in the data file and not yet on the chain. */
  predicate Pending(job: Job) {
    job.at == ReuseIndex || job.at == Link || job.at == SeekIndex || job.at == WriteIndex
  }

  lemma HasSame(data: Bytes, data': Bytes, r: Rec, text: Bytes)
    requires SameData(data, data', r) && |text| == r.datlen && Has(data, r.datoff, text)
    ensures Has(data', r.datoff, text)
  {
    forall k | 0 <= k < |text| ensures data'[r.datoff + k] == text[k] {
      assert data'[r.datoff..End(r)][k] == data[r.datoff..End(r)][k];
    }
  }

  lemma OnListFields(want: map<nat, nat>, t: Lists, l: nat, job: Job)
    requires Threaded(want, t) && l < NLISTS && OnList(t, l, job)
    ensures FieldOf(t, l, job.o) && FieldOf(t, l, job.prev) && job.o in t.home && t.home[job.o] == l
  {
    MembersHome(want, t, l);
    hide Threaded;
    var k: nat :| OnListAt(t, l, job, k);
    var c := t.chains[l];
    assert c[k] in c;
    if k > 0 {
      assert c[k - 1] in c;
    }
  }

  lemma OnListSame(t: Lists, l: nat, job: Job, t': Lists)
    requires OnList(t, l, job) && |t'.chains| == |t.chains| && (l < |t.chains| ==> t'.chains[l] == t.chains[l])
    ensures OnList(t', l, job)
  {
    var k: nat :| OnListAt(t, l, job, k);
    assert OnListAt(t', l, job, k);
  }

  /** Everything the call may rely on is the same. */
  ghost predicate SameFor(pc: L.Pc, job: Job, mem: Mem, g: Ghost, mem': Mem, g': Ghost) {
    && |g'.t.chains| == |g.t.chains| == NLISTS && L.ChainOf(pc) < NHASH
    && g'.t.chains[L.ChainOf(pc) + 1] == g.t.chains[L.ChainOf(pc) + 1]
    && (pc.Freeing? ==> g'.t.chains[0] == g.t.chains[0])
    && (forall x {:trigger SameAt(mem, g, mem', g', x)} | Mine(pc, job, g.t, mem.idxEnd, x) ::
          SameAt(mem, g, mem', g', x))
    && (pc.AppendingData? ==> |mem'.data| == |mem.data|)
    && (pc.AppendingIndex? ==> mem'.idxEnd == mem.idxEnd)
    && (Pending(job) ==> SameData(mem.data, mem'.data, job.r))
  }

  lemma KnowsOnList(pc: L.Pc, job: Job, l: nat, mem: Mem, g: Ghost, mem': Mem, g': Ghost)
    requires SameFor(pc, job, mem, g, mem', g') && Threaded(g.want, g.t)
    requires l == L.ChainOf(pc) + 1 || (l == 0 && pc.Freeing?)
    requires OnList(g.t, l, job) && HasCell(mem, job)
    ensures OnList(g'.t, l, job) && HasCell(mem', job)
  {
    hide Threaded, OnList;
    OnListFields(g.want, g.t, l, job);
    OnListSame(g.t, l, job, g'.t);
    assert SameAt(mem, g, mem', g', job.o);
  }

  lemma KnowsField(pc: L.Pc, job: Job, mem: Mem, g: Ghost, mem': Mem, g': Ghost)
    requires SameFor(pc, job, mem, g, mem', g')
    requires FieldOf(g.t, L.ChainOf(pc) + 1, job.prev) && Wants(g.want, job.prev, job.save)
    ensures FieldOf(g'.t, L.ChainOf(pc) + 1, job.prev) && Wants(g'.want, job.prev, job.save)
  {
    assert SameAt(mem, g, mem', g', job.prev);
  }

  lemma KnowsOwn(pc: L.Pc, job: Job, mem: Mem, g: Ghost, mem': Mem, g': Ghost)
    requires SameFor(pc, job, mem, g, mem', g') && Own(job) == Some(job.o) && job.o !in g.t.home && job.o in mem.cells
    ensures job.o !in g'.t.home && job.o in mem'.cells && mem'.cells[job.o] == mem.cells[job.o]
    ensures forall v | Wants(g.want, job.o, v) :: Wants(g'.want, job.o, v)
  {
    assert SameAt(mem, g, mem', g', job.o);
  }

  /** The points at which the call stands at a record of a list. */
  predicate AtRecord(at: Point) {
    at == Blank || at == GetFree || at == Rewrite || at == Overwrite || at == TakeFree
  }

  lemma KnowsAtRecord(pc: L.Pc, job: Job, mem: Mem, g: Ghost, mem': Mem, g': Ghost)
    requires SameFor(pc, job, mem, g, mem', g') && Threaded(g.want, g.t) && PcOk(pc, job) && AtRecord(job.at)
    requires Knows(job, L.ChainOf(pc) + 1, mem, g.t, g.want)
    ensures Knows(job, L.ChainOf(pc) + 1, mem', g'.t, g'.want)
  {
    hide Threaded, OnList, FieldOf, Mine, SameAt, Has, Wants, SameData, HasCell, L.ChainOf;
    KnowsOnList(pc, job, if job.at == TakeFree then 0 else L.ChainOf(pc) + 1, mem, g, mem', g');
  }

  lemma KnowsInHand(pc: L.Pc, job: Job, mem: Mem, g: Ghost, mem': Mem, g': Ghost)
    requires SameFor(pc, job, mem, g, mem', g') && PcOk(pc, job) && !AtRecord(job.at)
    requires Knows(job, L.ChainOf(pc) + 1, mem, g.t, g.want)
    ensures Knows(job, L.ChainOf(pc) + 1, mem', g'.t, g'.want)
  {
    hide OnList, FieldOf, Mine, SameAt, Has, Wants, SameData, L.ChainOf;
    if Pending(job) {
      HasSame(mem.data, mem'.data, job.r, job.op.data + [NEWLINE]);
    }
    if Own(job).Some? {
      KnowsOwn(pc, job, mem, g, mem', g');
    }
    if job.at == Push || job.at == Unlink {
      KnowsField(pc, job, mem, g, mem', g');
    }
  }

  lemma KnowsFrame(pc: L.Pc, job: Job, mem: Mem, g: Ghost, mem': Mem, g': Ghost)
    requires SameFor(pc, job, mem, g, mem', g') && Threaded(g.want, g.t) && PcOk(pc, job)
    requires Knows(job, L.ChainOf(pc) + 1, mem, g.t, g.want)
    ensures Knows(job, L.ChainOf(pc) + 1, mem', g'.t, g'.want)
  {
    hide SameFor, Threaded, PcOk, Knows, L.ChainOf;
    if AtRecord(job.at) {
      KnowsAtRecord(pc, job, mem, g, mem', g');
    } else {
      KnowsInHand(pc, job, mem, g, mem', g');
    }
  }

  // ---- two processes ------------------------------------------------------------------------------

  /** A record a call owns is on no list, and stands in the file. */
  predicate OwnLoose(job: Job, t: Lists, idxEnd: nat) {
    Own(job).Some? ==> Own(job).value !in t.home && BASE <= Own(job).value < idxEnd
  }

  lemma Disjoint(pc: L.Pc, job: Job, pc': L.Pc, job': Job, t: Lists, idxEnd: nat, x: nat)
    requires L.ChainOf(pc) != L.ChainOf(pc') && L.ChainOf(pc) < NHASH && L.ChainOf(pc') < NHASH
    requires !(pc.Freeing? && pc'.Freeing?) && !(pc.AppendingIndex? && pc'.AppendingIndex?)
    requires OwnLoose(job, t, idxEnd) && OwnLoose(job', t, idxEnd) && idxEnd >= BASE
    requires Own(job).Some? ==> Own(job) != Own(job')
    requires x in t.home ==> BASE <= x < idxEnd
    ensures !(Mine(pc, job, t, idxEnd, x) && Mine(pc', job', t, idxEnd, x))
  {
    hide L.ChainOf, Own;
  }

  lemma HomeInside(s: State, g: Ghost, x: nat)
    requires Spots(s, g)
    ensures x in g.t.home ==> BASE <= x < s.mem.idxEnd
  {
    hide Owned, Broken, Chained;
    assert SpotOk(s, g, x);
  }

  lemma OwnedLoose(s: State, g: Ghost, i: Pid)
    requires Spots(s, g) && Procs(s, g) && i in s.jobs
    ensures OwnLoose(s.jobs[i], g.t, s.mem.idxEnd)
    ensures Own(s.jobs[i]).Some? ==> s.jobs[i].o in s.mem.cells
  {
    hide Spots, Procs, JobOk, Knows, Own, RecLen, Owned, Broken, Chained;
    if Own(s.jobs[i]).Some? {
      ProcIs(s, g, i);
      JobKnows(s.locks.pcs[i], s.jobs[i], s.mem, g);
      OwnKnown(s.jobs[i], L.ChainOf(s.locks.pcs[i]) + 1, s.mem, g.t, g.want);
      SpotIs(s, g, s.jobs[i].o);
    }
  }

  lemma ProcIs(s: State, g: Ghost, i: Pid)
    requires Procs(s, g) && i in s.jobs
    ensures i in s.locks.pcs && L.ChainOf(s.locks.pcs[i]) in g.abs.chains
    ensures JobOk(s.locks.pcs[i], s.jobs[i], s.mem, g.t, g.want, g.abs.chains[L.ChainOf(s.locks.pcs[i])])
  {
    hide JobOk, Own, L.ChainOf;
    assert ProcOk(s, g, i);
  }

  lemma JobKnows(pc: L.Pc, job: Job, mem: Mem, g: Ghost)
    requires L.ChainOf(pc) in g.abs.chains && JobOk(pc, job, mem, g.t, g.want, g.abs.chains[L.ChainOf(pc)])
    ensures Knows(job, L.ChainOf(pc) + 1, mem, g.t, g.want) && PcOk(pc, job)
  {
    hide Knows, PcOk;
  }

  lemma SpotIs(s: State, g: Ghost, x: nat)
    requires Spots(s, g)
    ensures SpotOk(s, g, x)
  {
    hide SpotOk;
  }

  lemma OwnKnown(job: Job, l: nat, mem: Mem, t: Lists, want: map<nat, nat>)
    requires Knows(job, l, mem, t, want) && Own(job).Some?
    ensures Own(job) == Some(job.o) && job.o in mem.cells && job.o !in t.home
  {
    hide OnList, FieldOf, Wants, HasData, SameLengths;
  }

  /** A step in which only process i, and only with what it has to itself, changes anything. */
  ghost predicate Only(s: State, g: Ghost, i: Pid, s': State, g': Ghost) {
    && i in s.jobs && i in s.locks.pcs && s'.locks == s.locks && i in s'.jobs && s'.jobs == s.jobs[i := s'.jobs[i]]
    && L.WritesChain(s.locks.pcs[i])
    && |g'.t.chains| == NLISTS && g'.abs.chains.Keys == g.abs.chains.Keys
    && var pc, job, l := s.locks.pcs[i], s.jobs[i], L.ChainOf(s.locks.pcs[i]) + 1;
       && (forall m | 0 <= m < |g.t.chains| && m < NLISTS && m != l && !(m == 0 && pc.Freeing?) ::
             g'.t.chains[m] == g.t.chains[m])
       && (forall h | h in g.abs.chains && h + 1 != l :: g'.abs.chains[h] == g.abs.chains[h])
       && (forall x {:trigger SameAt(s.mem, g, s'.mem, g', x)} | !Mine(pc, job, g.t, s.mem.idxEnd, x) ::
             SameAt(s.mem, g, s'.mem, g', x))
       && (!pc.AppendingData? ==> |s'.mem.data| == |s.mem.data|)
       && (!pc.AppendingIndex? ==> s'.mem.idxEnd == s.mem.idxEnd)
       && (forall a {:trigger DataKept(s, s', a)} | Claims(s, a) && !Claimant(s, g, i, a) :: DataKept(s, s', a))
  }

  /** The claim is the process's own. */
  predicate Claimant(s: State, g: Ghost, i: Pid, a: Claim)
    requires i in s.jobs && i in s.locks.pcs
  {
    match a
    case Of(o) => Mine(s.locks.pcs[i], s.jobs[i], g.t, s.mem.idxEnd, o)
    case By(j) => i == j
  }

  predicate DataKept(s: State, s': State, a: Claim) {
    Claims(s, a) && SameData(s.mem.data, s'.mem.data, Claimed(s, a))
  }

  /** Whatever the two processes do, what is one's is not the other's. */
  lemma Exclusive(s: State, g: Ghost, i: Pid, j: Pid, x: nat)
    requires Inv(s, g) && i in s.jobs && j in s.jobs && i != j
    requires i in s.locks.pcs && j in s.locks.pcs && L.WritesChain(s.locks.pcs[i]) && L.WritesChain(s.locks.pcs[j])
    ensures var end := s.mem.idxEnd;
      !(Mine(s.locks.pcs[i], s.jobs[i], g.t, end, x) && Mine(s.locks.pcs[j], s.jobs[j], g.t, end, x))
  {
    LocksApart(s, g, i, j);
    OwnedLoose(s, g, i);
    OwnedLoose(s, g, j);
    HomeInside(s, g, x);
    assert OwnApart(s.jobs, i, j);
    hide Inv, Procs, OwnLoose, Mine, Own, L.ChainOf, L.WritesChain;
    Disjoint(s.locks.pcs[i], s.jobs[i], s.locks.pcs[j], s.jobs[j], g.t, s.mem.idxEnd, x);
  }

  /** What the four locks exclude. */
  lemma LocksApart(s: State, g: Ghost, i: Pid, j: Pid)
    requires Inv(s, g) && i != j && i in s.locks.pcs && j in s.locks.pcs && L.WritesChain(s.locks.pcs[i])
    ensures var pc, pc' := s.locks.pcs[i], s.locks.pcs[j];
      && L.ChainOf(pc) < NHASH && L.ChainOf(pc') < NHASH && s.mem.idxEnd >= BASE
      && (L.WritesChain(pc') || pc'.Fetching? ==> L.ChainOf(pc) != L.ChainOf(pc'))
      && !(pc.Freeing? && pc'.Freeing?) && !(pc.AppendingIndex? && pc'.AppendingIndex?)
      && !(pc.AppendingData? && pc'.AppendingData?)
  {
    LocksHold(s, g);
    hide Inv;
    var pc := s.locks.pcs[i];
    L.Alone(s.locks, i, j, L.Chain(L.ChainOf(pc)));
    if pc.Freeing? {
      L.Alone(s.locks, i, j, L.FreeList);
    } else if pc.AppendingIndex? {
      L.Alone(s.locks, i, j, L.EndOfIndex);
    } else if pc.AppendingData? {
      L.Alone(s.locks, i, j, L.EndOfData);
    }
  }

  lemma LocksHold(s: State, g: Ghost)
    requires Inv(s, g)
    ensures L.Inv(s.locks) && A.Inv(g.abs) && s.mem.idxEnd >= BASE && Threaded(g.want, g.t) && |g.t.chains| == NLISTS
  {
    hide L.Inv, Threaded, Spots, RecsApart, ClaimsOk, KeysOk, Procs;
    AbsLocks(g.abs);
    ListCount(g.want, g.t);
  }

  lemma AbsLocks(s: A.State)
    requires A.Inv(s)
    ensures L.Inv(s.locks)
  {
    hide L.Inv, A.ProcOk, A.ChainOk, A.Replayed;
  }

  /** What process j may rely on is untouched by a step of process i. */
  lemma OthersSame(s: State, g: Ghost, i: Pid, s': State, g': Ghost, j: Pid)
    requires Inv(s, g) && Only(s, g, i, s', g') && j != i && j in s.jobs && j in s.locks.pcs
    requires L.WritesChain(s.locks.pcs[j]) && ProcOk(s, g, j)
    ensures SameFor(s.locks.pcs[j], s.jobs[j], s.mem, g, s'.mem, g')
  {
    hide Inv, Mine, SameAt, L.WritesChain, L.ChainOf, ProcOk, SameData, Claims, Claimed, Claimant, DataKept;
    hide Threaded, Pending, L.Inv, A.Inv;
    LocksApart(s, g, i, j);
    LocksHold(s, g);
    var pc, job := s.locks.pcs[j], s.jobs[j];
    forall x | Mine(pc, job, g.t, s.mem.idxEnd, x) ensures SameAt(s.mem, g, s'.mem, g', x) {
      Exclusive(s, g, i, j, x);
    }
    if Pending(job) {
      PendingSame(s, g, i, s', g', j);
    }
  }

  lemma PendingSame(s: State, g: Ghost, i: Pid, s': State, g': Ghost, j: Pid)
    requires Inv(s, g) && Only(s, g, i, s', g') && j != i && j in s.jobs && j in s.locks.pcs
    requires L.WritesChain(s.locks.pcs[j]) && ProcOk(s, g, j) && Pending(s.jobs[j])
    ensures SameData(s.mem.data, s'.mem.data, s.jobs[j].r)
  {
    hide Inv, Mine, SameAt, L.WritesChain, L.ChainOf, ProcOk, SameData, Pending, Reserve, Own;
    var job := s.jobs[j];
    PendingClaim(s, g, j);
    var a := if Reserve(job).Some? then By(j) else Of(job.o);
    OwnMine(s.locks.pcs[j], job, g.t, s.mem.idxEnd);
    if a.Of? {
      Exclusive(s, g, i, j, job.o);
    }
    assert DataKept(s, s', a);
  }

  lemma OwnMine(pc: L.Pc, job: Job, t: Lists, idxEnd: nat)
    ensures Own(job).Some? ==> Mine(pc, job, t, idxEnd, Own(job).value)
  {
  }

  lemma PendingClaim(s: State, g: Ghost, j: Pid)
    requires ProcOk(s, g, j) && Pending(s.jobs[j])
    ensures var job := s.jobs[j];
      var a := if Reserve(job).Some? then By(j) else Of(job.o);
      Claims(s, a) && Claimed(s, a) == job.r && (a.Of? ==> Own(job) == Some(job.o))
  {
    hide OnList, FieldOf, Wants, HasData, SameLengths, HasPtr, Absent, Hash, PcOk;
  }

  /** A call that does not write its chain has not looked at anything yet, or has answered. */
  lemma NotWriting(pc: L.Pc, job: Job)
    requires PcOk(pc, job) && !L.WritesChain(pc)
    ensures job.at == Fresh || job.at == Answered
  {
  }

  lemma JobFrame(pc: L.Pc, job: Job, mem: Mem, g: Ghost, chain: Dict, mem': Mem, g': Ghost, chain': Dict)
    requires JobOk(pc, job, mem, g.t, g.want, chain) && Threaded(g.want, g.t)
    requires L.WritesChain(pc) ==> SameFor(pc, job, mem, g, mem', g') && chain' == chain
    ensures JobOk(pc, job, mem', g'.t, g'.want, chain')
  {
    if L.WritesChain(pc) {
      KnowsFrame(pc, job, mem, g, mem', g');
      hide Knows, Hash, PcOk, L.WritesChain;
    } else {
      NotWriting(pc, job);
    }
  }

  lemma ProcFrame(s: State, g: Ghost, i: Pid, s': State, g': Ghost, j: Pid)
    requires Inv(s, g) && Only(s, g, i, s', g') && j != i && j in s.jobs && ProcOk(s, g, j)
    ensures ProcOk(s', g', j)
  {
    hide Inv, JobOk, SameFor, Mine, SameAt, DataKept;
    var pc := s.locks.pcs[j];
    LocksHold(s, g);
    LocksApart(s, g, i, j);
    if L.WritesChain(pc) {
      OthersSame(s, g, i, s', g', j);
    }
    hide L.WritesChain, L.ChainOf;
    JobFrame(pc, s.jobs[j], s.mem, g, g.abs.chains[L.ChainOf(pc)], s'.mem, g', g'.abs.chains[L.ChainOf(pc)]);
  }

  /** All the processes, when the one that moved is in order. */
  lemma ProcsFrame(s: State, g: Ghost, i: Pid, s': State, g': Ghost)
    requires Inv(s, g) && Only(s, g, i, s', g') && ProcOk(s', g', i)
    requires Own(s'.jobs[i]).Some? ==> Mine(s.locks.pcs[i], s.jobs[i], g.t, s.mem.idxEnd, Own(s'.jobs[i]).value)
    ensures Procs(s', g')
  {
    hide Own, Mine, ProcOk, SameAt, DataKept, L.WritesChain, L.ChainOf;
    forall j | j in s'.jobs ensures ProcOk(s', g', j) {
      if j != i {
        assert ProcOk(s, g, j);
        ProcFrame(s, g, i, s', g', j);
      }
    }
    forall j, k | j in s'.jobs && k in s'.jobs ensures OwnApart(s'.jobs, j, k) {
      assert j in s.jobs && k in s.jobs && OwnApart(s.jobs, j, k);
      if j != k && (j == i || k == i) && Own(s'.jobs[i]).Some? {
        OwnNotMine(s, g, i, if j == i then k else j, Own(s'.jobs[i]).value);
      }
    }
  }

  lemma OwnNotMine(s: State, g: Ghost, i: Pid, j: Pid, x: nat)
    requires Inv(s, g) && i in s.jobs && j in s.jobs && i != j && i in s.locks.pcs && L.WritesChain(s.locks.pcs[i])
    requires Mine(s.locks.pcs[i], s.jobs[i], g.t, s.mem.idxEnd, x)
    ensures Own(s.jobs[j]) != Some(x)
  {
    if Own(s.jobs[j]) == Some(x) {
      assert ProcOk(s, g, j);
      hide Inv;
      OwnWrites(s.locks.pcs[j], s.jobs[j]);
      Exclusive(s, g, i, j, x);
    }
  }

  lemma OwnWrites(pc: L.Pc, job: Job)
    requires PcOk(pc, job) && Own(job).Some?
    ensures L.WritesChain(pc)
  {
  }
}
