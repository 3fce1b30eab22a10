/** Every read and write of a call in progress keeps the invariant. */
module DbSharedActs {
  import opened Common
  import opened CStrings
  import opened DbCells
  import opened DbRecord
  import opened DbFormat
  import opened DbLists
  import opened DbContents
  import opened DbSpec
  import opened DbShared
  import opened DbSharedFrame
  import opened DbSharedParts
  import L = DbLocks
  import A = DbAtomic

  /** The call-by-call view takes a step of its own, or stands still. */
  ghost predicate Refines(a: A.State, a': A.State) {
    a' == a || A.Steps(a, a')
  }

  /** The process keeps to what it has to itself, or only reads. */
  ghost predicate Confined(s: State, g: Ghost, i: Pid, s': State, g': Ghost) {
    Only(s, g, i, s', g') || (s'.mem == s.mem && g'.t == g.t)
  }

  /** A process at work at `at`, before and after what it does there. */
  ghost predicate Acting(s: State, g: Ghost, i: Pid, s': State, at: Point) {
    Inv(s, g) && Step(s, i, Act, s') && s.jobs[i].at == at && ProcOk(s, g, i)
  }

  /** Process i has moved while it has its chain to itself; locks and log are as before. */
  ghost predicate Moved(s: State, i: Pid, s': State) {
    && i in s.jobs && i in s.locks.pcs && s'.locks == s.locks && i in s'.jobs && s'.jobs == s.jobs[i := s'.jobs[i]]
    && s'.log == s.log && L.WritesChain(s.locks.pcs[i])
  }

  lemma JobsMove(s: State, i: Pid, s': State)
    requires Moved(s, i, s')
    ensures JobsMoved(s.jobs, i, s'.jobs)
  {
    hide L.WritesChain;
  }

  /** What every action leaves alone. */
  lemma ActFrame(s: State, g: Ghost, i: Pid, s': State, at: Point)
    requires Acting(s, g, i, s', at)
    ensures Inv(s, g) && Moved(s, i, s') && JobsMoved(s.jobs, i, s'.jobs)
    ensures Acts(s.mem, s.locks.pcs[i], s.jobs[i], s'.mem, s'.jobs[i]) && s.jobs[i].at == at
    ensures L.ChainOf(s.locks.pcs[i]) in g.abs.chains && L.ChainOf(s.locks.pcs[i]) < NHASH
    ensures JobOk(s.locks.pcs[i], s.jobs[i], s.mem, g.t, g.want, g.abs.chains[L.ChainOf(s.locks.pcs[i])])
  {
    hide Inv, JobOk;
    JobChain(s.locks.pcs[i], s.jobs[i], s.mem, g, g.abs.chains[L.ChainOf(s.locks.pcs[i])]);
  }

  lemma JobChain(pc: L.Pc, job: Job, mem: Mem, g: Ghost, chain: Dict)
    requires JobOk(pc, job, mem, g.t, g.want, chain)
    ensures L.ChainOf(pc) < NHASH && Hash(job.op.key) == L.ChainOf(pc)
  {
    hide PcOk, Knows, L.ChainOf, Absent, HasPtr;
  }

  lemma Parts(s: State, g: Ghost)
    requires Inv(s, g)
    ensures Coupled(s, g) && Threaded(g.want, g.t) && s.mem.idxEnd >= BASE && s.mem.ptrs.Keys == g.want.Keys
    ensures Spots(s, g) && RecsApart(s.mem.cells) && ClaimsOk(s)
    ensures KeysOk(s.mem.cells, g.t.home, g.abs.chains) && Procs(s, g) && |g.t.chains| == NLISTS
  {
    hide Coupled, Threaded, Spots, RecsApart, ClaimsOk, KeysOk, Procs;
    ListCount(g.want, g.t);
  }

  /** The parts put together again. */
  lemma Assemble(s: State, g: Ghost, i: Pid, s': State, g': Ghost)
    requires Inv(s, g) && Only(s, g, i, s', g') && ProcOk(s', g', i)
    requires Own(s'.jobs[i]).Some? ==> Mine(s.locks.pcs[i], s.jobs[i], g.t, s.mem.idxEnd, Own(s'.jobs[i]).value)
    requires Coupled(s', g') && Threaded(g'.want, g'.t) && s'.mem.idxEnd >= BASE && s'.mem.ptrs.Keys == g'.want.Keys
    requires Spots(s', g') && RecsApart(s'.mem.cells) && ClaimsOk(s') && KeysOk(s'.mem.cells, g'.t.home, g'.abs.chains)
    ensures Inv(s', g')
  {
    hide Coupled, Threaded, Spots, RecsApart, ClaimsOk, KeysOk, Procs, ProcOk, Only, Own, Mine;
    ProcsFrame(s, g, i, s', g');
  }

  // ---- the call-by-call view -------------------------------------------------------------------------

  lemma AbsPut(jobs: map<Pid, Job>, i: Pid, job': Job)
    requires i in jobs
    ensures AbsJobs(jobs[i := job']) == AbsJobs(jobs)[i := AbsJob(job')]
    ensures i in AbsJobs(jobs) && AbsJobs(jobs)[i] == AbsJob(jobs[i])
    ensures AbsJob(job') == AbsJob(jobs[i]) ==> AbsJobs(jobs[i := job']) == AbsJobs(jobs)
  {
    hide AbsJob;
  }

  /** An action that the view does not notice. */
  lemma Stutter(s: State, g: Ghost, i: Pid, s': State, g': Ghost)
    requires Coupled(s, g) && i in s.jobs && i in s'.jobs && s'.jobs == s.jobs[i := s'.jobs[i]] && s'.locks == s.locks
    requires s'.log == s.log && g'.abs == g.abs && AbsJob(s'.jobs[i]) == AbsJob(s.jobs[i])
    ensures Coupled(s', g') && Refines(g.abs, g'.abs)
  {
    hide A.Inv, AbsJob, AbsJobs;
    AbsPut(s.jobs, i, s'.jobs[i]);
  }

  function WithoutKey(abs: A.State, i: Pid, h: nat, key: Bytes, job': Job): A.State
    requires h in abs.chains
  {
    abs.(chains := abs.chains[h := abs.chains[h] - {key}], jobs := abs.jobs[i := AbsJob(job')])
  }

  function WithKey(abs: A.State, i: Pid, h: nat, key: Bytes, data: Bytes, job': Job): A.State
    requires h in abs.chains
  {
    abs.(chains := abs.chains[h := abs.chains[h][key := data]], jobs := abs.jobs[i := AbsJob(job')])
  }

  lemma EraseSim(s: State, g: Ghost, i: Pid, s': State, g': Ghost)
    requires Coupled(s, g) && i in s.jobs && i in s'.jobs && s'.jobs == s.jobs[i := s'.jobs[i]] && s'.locks == s.locks
    requires s'.log == s.log && i in s.locks.pcs && s.locks.pcs[i].Freeing? && L.ChainOf(s.locks.pcs[i]) in g.abs.chains
    requires AbsJob(s.jobs[i]).remove && AbsJob(s'.jobs[i]) == AbsJob(s.jobs[i]).(remove := false)
    requires g'.abs == WithoutKey(g.abs, i, L.ChainOf(s.locks.pcs[i]), s.jobs[i].op.key, s'.jobs[i])
    ensures Coupled(s', g') && Refines(g.abs, g'.abs)
  {
    hide A.Inv, AbsJobs, L.ChainOf;
    AbsPut(s.jobs, i, s'.jobs[i]);
    assert A.Step(g.abs, i, A.Erase, g'.abs);
    A.StepInv(g.abs, i, A.Erase, g'.abs);
  }

  lemma PlaceSim(s: State, g: Ghost, i: Pid, s': State, g': Ghost)
    requires Coupled(s, g) && i in s.jobs && i in s'.jobs && s'.jobs == s.jobs[i := s'.jobs[i]] && s'.locks == s.locks
    requires s'.log == s.log && i in s.locks.pcs && s.locks.pcs[i].Linking? && L.ChainOf(s.locks.pcs[i]) in g.abs.chains
    requires AbsJob(s.jobs[i]).put && AbsJob(s'.jobs[i]) == AbsJob(s.jobs[i]).(put := false)
    requires s.jobs[i].op.StoreOp?
    requires g'.abs == WithKey(g.abs, i, L.ChainOf(s.locks.pcs[i]), s.jobs[i].op.key, s.jobs[i].op.data, s'.jobs[i])
    ensures Coupled(s', g') && Refines(g.abs, g'.abs)
  {
    hide A.Inv, AbsJobs, L.ChainOf;
    AbsPut(s.jobs, i, s'.jobs[i]);
    assert A.Step(g.abs, i, A.Place, g'.abs);
    A.StepInv(g.abs, i, A.Place, g'.abs);
  }

  // ---- writes to the data file -----------------------------------------------------------------------

  /** The data of record o, which process i has to itself, are overwritten. */
  predicate WroteAt(s: State, g: Ghost, i: Pid, o: nat, text: Bytes, s': State, g': Ghost) {
    && o in s.mem.cells && |text| + 1 == s.mem.cells[o].datlen
    && WritesData(s.mem, s.mem.cells[o].datoff, text, s'.mem)
    && i in s.jobs && i in s.locks.pcs && Mine(s.locks.pcs[i], s.jobs[i], g.t, s.mem.idxEnd, o)
    && g'.t == g.t && g'.want == g.want
  }

  lemma SpliceSame(data: Bytes, off: nat, text: Bytes, r: Rec)
    requires off <= |data| && End(r) <= |data| && (off + |text| <= r.datoff || End(r) <= off)
    ensures SameData(data, Splice(data, off, text), r)
  {
    var data' := Splice(data, off, text);
    forall k | 0 <= k < r.datlen ensures data'[r.datoff..End(r)][k] == data[r.datoff..End(r)][k] {
    }
  }

  lemma WriteKeeps(s: State, g: Ghost, i: Pid, o: nat, text: Bytes, s': State, g': Ghost, a: Claim)
    requires ClaimsOk(s) && WroteAt(s, g, i, o, text, s', g') && Claims(s, a) && a != Of(o)
    ensures DataKept(s, s', a)
  {
    hide Mine, Splice, SameData;
    assert ClaimOk(s, a) && ClaimsApart(s, Of(o), a);
    SpliceSame(s.mem.data, s.mem.cells[o].datoff, text + [NEWLINE], Claimed(s, a));
  }

  lemma WriteHas(s: State, g: Ghost, i: Pid, o: nat, text: Bytes, s': State, g': Ghost)
    requires ClaimsOk(s) && WroteAt(s, g, i, o, text, s', g')
    ensures Has(s'.mem.data, s.mem.cells[o].datoff, text + [NEWLINE]) && |s'.mem.data| == |s.mem.data|
  {
    hide Mine, Splice, Has;
    assert ClaimOk(s, Of(o));
    SpliceHere(s.mem.data, s.mem.cells[o].datoff, text + [NEWLINE]);
  }

  lemma DataOnly(s: State, g: Ghost, i: Pid, o: nat, text: Bytes, s': State, g': Ghost)
    requires ClaimsOk(s) && WroteAt(s, g, i, o, text, s', g') && |g.t.chains| == NLISTS
    requires s'.locks == s.locks && i in s'.jobs && s'.jobs == s.jobs[i := s'.jobs[i]]
    requires L.WritesChain(s.locks.pcs[i]) && g'.abs.chains.Keys == g.abs.chains.Keys
    requires forall h | h in g.abs.chains && h != L.ChainOf(s.locks.pcs[i]) :: g'.abs.chains[h] == g.abs.chains[h]
    ensures Only(s, g, i, s', g')
  {
    hide L.ChainOf, L.WritesChain, Mine, ClaimsOk, Claims, SameData, Has, Splice;
    WriteHas(s, g, i, o, text, s', g');
    forall a | Claims(s, a) && !Claimant(s, g, i, a) ensures DataKept(s, s', a) {
      WriteKeeps(s, g, i, o, text, s', g', a);
    }
  }

  lemma DataClaims(s: State, g: Ghost, i: Pid, o: nat, text: Bytes, s': State, g': Ghost)
    requires ClaimsOk(s) && WroteAt(s, g, i, o, text, s', g')
    requires i in s'.jobs && s'.jobs == s.jobs[i := s'.jobs[i]] && Reserve(s'.jobs[i]) == None
    ensures ClaimsOk(s')
  {
    hide Mine, ClaimsOk, Splice, Has;
    WriteHas(s, g, i, o, text, s', g');
    forall a | Claims(s', a) ensures SameExtent(s, a, s', a) {
    }
    ClaimsSame(s, s');
  }

  /** Locations other than the record written. */
  lemma DataSpot(s: State, g: Ghost, i: Pid, o: nat, text: Bytes, s': State, g': Ghost, x: nat)
    requires ClaimsOk(s) && WroteAt(s, g, i, o, text, s', g') && SpotOk(s, g, x) && x != o
    requires JobsMoved(s.jobs, i, s'.jobs) && MarksKeep(s.jobs, i, s'.jobs, x)
    requires x in s.mem.cells && x in g.t.home && g.t.home[x] > 0 && g.t.home[x] - 1 in g.abs.chains ==>
      g.t.home[x] - 1 in g'.abs.chains &&
      ViewKeeps(g.abs.chains[g.t.home[x] - 1], g'.abs.chains[g.t.home[x] - 1], s.mem.cells[x].key)
    ensures SpotOk(s', g', x)
  {
    hide SpotOk, Mine, ClaimsOk, Splice, SameData, JobsMoved, MarksKeep, ViewKeeps;
    if x in s.mem.cells {
      WriteKeeps(s, g, i, o, text, s', g', Of(x));
    }
    SpotKept(s, g, i, s', g', x);
  }

  /** What a process at a point with its record on list l has to itself. */
  lemma ListedMine(want: map<nat, nat>, g: Ghost, pc: L.Pc, job: Job, idxEnd: nat, l: nat)
    requires Threaded(want, g.t) && L.ChainOf(pc) < NHASH && OnList(g.t, l, job)
    requires l == L.ChainOf(pc) + 1 || (l == 0 && pc.Freeing?)
    ensures Mine(pc, job, g.t, idxEnd, job.o) && Mine(pc, job, g.t, idxEnd, job.prev)
    ensures job.o in g.t.home && g.t.home[job.o] == l
  {
    hide Threaded, OnList, L.ChainOf;
    OnListFields(want, g.t, l, job);
  }

  lemma SpotHere(s: State, g: Ghost, x: nat)
    requires Spots(s, g)
    ensures SpotOk(s, g, x)
  {
    hide SpotOk;
  }

  /** _db_dodelete blanks the data of the record, which is still on its chain. */
  lemma BlankFacts(pc: L.Pc, job: Job, mem: Mem, g: Ghost, chain: Dict, mem': Mem, job': Job)
    requires JobOk(pc, job, mem, g.t, g.want, chain) && Acts(mem, pc, job, mem', job') && job.at == Blank
    ensures JobOk(pc, job', mem', g.t, g.want, chain) && AbsJob(job') == AbsJob(job)
    ensures OnList(g.t, L.ChainOf(pc) + 1, job) && HasCell(mem, job) && Own(job') == None && Spoil(job') == Some(job.o)
    ensures Own(job) == None && Break(job) == None && Spoil(job) == None && Reserve(job') == None && job.r.datlen >= 1
    ensures WritesData(mem, job.r.datoff, Spaces(job.r.datlen - 1), mem')
  {
    hide OnList, Hash, Splice, L.ChainOf;
    OnListStays(g.t, L.ChainOf(pc) + 1, job, job');
  }

  lemma SpoiledNow(jobs: map<Pid, Job>, i: Pid, o: nat)
    requires i in jobs && Spoil(jobs[i]) == Some(o)
    ensures Spoiled(jobs, o)
  {
  }

  lemma SpoiledSpot(s: State, g: Ghost, i: Pid, s': State, o: nat)
    requires SpotOk(s, g, o) && JobsMoved(s.jobs, i, s'.jobs) && MarksKeep(s.jobs, i, s'.jobs, o) && Spoiled(s'.jobs, o)
    requires s'.mem == s.mem.(data := s'.mem.data)
    ensures SpotOk(s', g, o)
  {
    hide Owned, Broken, Spoiled, MarksAt, JobsMoved, Hash, RecLen, Has;
    OwnedKept(s.jobs, i, s'.jobs, o);
    BrokenKept(s.jobs, i, s'.jobs, o);
  }

  lemma BlankSpots(s: State, g: Ghost, i: Pid, o: nat, text: Bytes, s': State)
    requires Spots(s, g) && ClaimsOk(s) && WroteAt(s, g, i, o, text, s', g) && JobsMoved(s.jobs, i, s'.jobs)
    requires Own(s.jobs[i]) == None && Break(s.jobs[i]) == None && Spoil(s.jobs[i]) == None
    requires i in s'.jobs && Spoil(s'.jobs[i]) == Some(o)
    ensures Spots(s', g)
  {
    hide Spots, ClaimsOk, WroteAt, JobsMoved, SpotOk, Own, Break, Spoil, Reserve;
    SpoiledNow(s'.jobs, i, o);
    forall x: nat ensures SpotOk(s', g, x) {
      SpotHere(s, g, x);
      if x == o {
        WroteData(s, g, i, o, text, s', g);
        SpoiledSpot(s, g, i, s', o);
      } else {
        DataSpot(s, g, i, o, text, s', g, x);
      }
    }
    AllSpots(s', g);
  }

  lemma AllSpots(s: State, g: Ghost)
    requires forall x: nat {:trigger SpotOk(s, g, x)} :: SpotOk(s, g, x)
    ensures Spots(s, g)
  {
    hide SpotOk;
  }

  lemma WroteData(s: State, g: Ghost, i: Pid, o: nat, text: Bytes, s': State, g': Ghost)
    requires WroteAt(s, g, i, o, text, s', g')
    ensures s'.mem == s.mem.(data := s'.mem.data) && o in s.mem.cells && g'.t == g.t && g'.want == g.want
  {
  }

  lemma BlankInv(s: State, g: Ghost, i: Pid, s': State) returns (g': Ghost)
    requires Acting(s, g, i, s', Blank)
    ensures Inv(s', g') && Refines(g.abs, g'.abs) && Confined(s, g, i, s', g')
  {
    hide Acting, Inv, Acts, JobOk, JobsMoved, L.WritesChain, L.ChainOf, Own, Break, Spoil, Reserve, AbsJob;
    hide Spots, Threaded, ClaimsOk, RecsApart, KeysOk, Procs, Coupled, WritesData;
    ActFrame(s, g, i, s', Blank);
    g' := g;
    var pc, job, job' := s.locks.pcs[i], s.jobs[i], s'.jobs[i];
    BlankFacts(pc, job, s.mem, g, g.abs.chains[L.ChainOf(pc)], s'.mem, job');
    Parts(s, g);
    hide Mine, OnList;
    ListedMine(g.want, g, pc, job, s.mem.idxEnd, L.ChainOf(pc) + 1);
    var text := Spaces(job.r.datlen - 1);
    WroteData(s, g, i, job.o, text, s', g);
    DataOnly(s, g, i, job.o, text, s', g);
    DataClaims(s, g, i, job.o, text, s', g);
    BlankSpots(s, g, i, job.o, text, s');
    Stutter(s, g, i, s', g);
    hide Only, WroteAt, HasCell;
    Assemble(s, g, i, s', g);
  }

  lemma OnListStays(t: Lists, l: nat, job: Job, job': Job)
    requires job'.o == job.o && job'.prev == job.prev && job'.save == job.save
    ensures OnList(t, l, job) ==> OnList(t, l, job')
  {
    if OnList(t, l, job) {
      var k: nat :| OnListAt(t, l, job, k);
      assert OnListAt(t, l, job', k);
    }
  }

  /** db_store writes its data over those of the record it has taken off the free list. */
  lemma ReuseDataFacts(pc: L.Pc, job: Job, mem: Mem, g: Ghost, chain: Dict, mem': Mem, job': Job)
    requires JobOk(pc, job, mem, g.t, g.want, chain) && Acts(mem, pc, job, mem', job') && job.at == ReuseData
    ensures job' == job.(at := ReuseIndex) && AbsJob(job') == AbsJob(job)
    ensures HasCell(mem, job) && Own(job) == Own(job') == Some(job.o) && job.o !in g.t.home && SameLengths(job)
    ensures Break(job) == None && Spoil(job) == None && Reserve(job') == None
    ensures WritesData(mem, job.r.datoff, job.op.data, mem')
  {
    hide OnList, Hash, Splice, L.ChainOf;
  }

  lemma ReuseDataOk(pc: L.Pc, job: Job, mem: Mem, g: Ghost, chain: Dict, mem': Mem, job': Job)
    requires JobOk(pc, job, mem, g.t, g.want, chain) && Acts(mem, pc, job, mem', job') && job.at == ReuseData
    requires Has(mem'.data, job.r.datoff, job.op.data + [NEWLINE])
    ensures JobOk(pc, job', mem', g.t, g.want, chain)
  {
    hide OnList, Hash, Splice, Has;
  }

  lemma LooseSpot(s: State, g: Ghost, i: Pid, o: nat, text: Bytes, s': State, g': Ghost)
    requires WroteAt(s, g, i, o, text, s', g') && SpotOk(s, g, o) && o !in g.t.home
    requires JobsMoved(s.jobs, i, s'.jobs) && MarksKeep(s.jobs, i, s'.jobs, o)
    ensures SpotOk(s', g', o)
  {
    hide SpotOk, Mine, Splice, JobsMoved, MarksKeep;
    SpotKept(s, g, i, s', g', o);
  }

  lemma ReuseDataSpots(s: State, g: Ghost, i: Pid, o: nat, text: Bytes, s': State)
    requires Spots(s, g) && ClaimsOk(s) && WroteAt(s, g, i, o, text, s', g) && JobsMoved(s.jobs, i, s'.jobs)
    requires i in s'.jobs && Own(s.jobs[i]) == Own(s'.jobs[i]) && Break(s.jobs[i]) == None && Spoil(s.jobs[i]) == None
    requires o !in g.t.home
    ensures Spots(s', g)
  {
    hide Spots, ClaimsOk, WroteAt, JobsMoved, SpotOk, Own, Break, Spoil, Reserve;
    forall x: nat ensures SpotOk(s', g, x) {
      SpotHere(s, g, x);
      if x == o {
        LooseSpot(s, g, i, o, text, s', g);
      } else {
        DataSpot(s, g, i, o, text, s', g, x);
      }
    }
    AllSpots(s', g);
  }

  lemma ReuseDataInv(s: State, g: Ghost, i: Pid, s': State) returns (g': Ghost)
    requires Acting(s, g, i, s', ReuseData)
    ensures Inv(s', g') && Refines(g.abs, g'.abs) && Confined(s, g, i, s', g')
  {
    hide Acting, Inv, Acts, JobOk, JobsMoved, L.WritesChain, L.ChainOf, Own, Break, Spoil, Reserve, AbsJob;
    hide Spots, Threaded, ClaimsOk, RecsApart, KeysOk, Procs, Coupled, WritesData;
    ActFrame(s, g, i, s', ReuseData);
    g' := g;
    var pc, job, job' := s.locks.pcs[i], s.jobs[i], s'.jobs[i];
    ReuseDataFacts(pc, job, s.mem, g, g.abs.chains[L.ChainOf(pc)], s'.mem, job');
    Parts(s, g);
    var text := job.op.data;
    OwnMine(pc, job, g.t, s.mem.idxEnd);
    hide Mine, FieldOf, Has;
    WroteData(s, g, i, job.o, text, s', g);
    WriteHas(s, g, i, job.o, text, s', g);
    ReuseDataOk(pc, job, s.mem, g, g.abs.chains[L.ChainOf(pc)], s'.mem, job');
    DataOnly(s, g, i, job.o, text, s', g);
    DataClaims(s, g, i, job.o, text, s', g);
    ReuseDataSpots(s, g, i, job.o, text, s');
    Stutter(s, g, i, s', g);
    hide Only, WroteAt, HasCell;
    Assemble(s, g, i, s', g);
  }

  /** A call that has its answer relies on nothing any more. */
  lemma AnsweredOk(pc: L.Pc, job: Job, mem: Mem, t: Lists, want: map<nat, nat>, chain: Dict)
    requires PcOk(pc, job) && (job.at == Answered || job.at == Fresh) && Hash(job.op.key) == L.ChainOf(pc)
    ensures JobOk(pc, job, mem, t, want, chain)
  {
    hide PcOk, Hash, L.ChainOf;
  }

  /** db_store replaces data by data of the same length. */
  lemma OverwriteFacts(pc: L.Pc, job: Job, mem: Mem, g: Ghost, chain: Dict, mem': Mem, job': Job)
    requires JobOk(pc, job, mem, g.t, g.want, chain) && Acts(mem, pc, job, mem', job') && job.at == Overwrite
    ensures PcOk(pc, job') && job'.at == Answered && job'.op == job.op
    ensures pc.Linking? && AbsJob(job).put && AbsJob(job') == AbsJob(job).(put := false)
    ensures OnList(g.t, L.ChainOf(pc) + 1, job) && HasCell(mem, job) && job.r.key == job.op.key && SameLengths(job)
    ensures Own(job) == None && Break(job) == None && Spoil(job) == None && Own(job') == None && Reserve(job') == None
    ensures WritesData(mem, job.r.datoff, job.op.data, mem')
  {
    hide OnList, Hash, Splice, L.ChainOf, HasPtr, Absent, HasHead;
  }

  /** The record written has the new data, and the view has them too. */
  lemma OverwrittenSpot(s: State, g: Ghost, i: Pid, o: nat, h: nat, data: Bytes, s': State, g': Ghost)
    requires WroteAt(s, g, i, o, data, s', g') && SpotOk(s, g, o)
    requires Has(s'.mem.data, s.mem.cells[o].datoff, data + [NEWLINE])
    requires JobsMoved(s.jobs, i, s'.jobs) && MarksKeep(s.jobs, i, s'.jobs, o)
    requires o in g.t.home && g.t.home[o] == h + 1 && h in g.abs.chains
    requires g'.abs.chains == g.abs.chains[h := g.abs.chains[h][s.mem.cells[o].key := data]]
    ensures SpotOk(s', g', o)
  {
    hide Owned, Broken, Spoiled, MarksAt, JobsMoved, Hash, RecLen, Has, Splice, Mine;
    OwnedKept(s.jobs, i, s'.jobs, o);
    BrokenKept(s.jobs, i, s'.jobs, o);
  }

  lemma OverwriteSpots(s: State, g: Ghost, i: Pid, o: nat, h: nat, data: Bytes, s': State, g': Ghost)
    requires Spots(s, g) && ClaimsOk(s) && WroteAt(s, g, i, o, data, s', g') && JobsMoved(s.jobs, i, s'.jobs)
    requires Own(s.jobs[i]) == None && Break(s.jobs[i]) == None && Spoil(s.jobs[i]) == None
    requires KeysOk(s.mem.cells, g.t.home, g.abs.chains)
    requires o in g.t.home && g.t.home[o] == h + 1 && h in g.abs.chains
    requires g'.abs.chains == g.abs.chains[h := g.abs.chains[h][s.mem.cells[o].key := data]]
    ensures Spots(s', g')
  {
    hide Spots, ClaimsOk, WroteAt, JobsMoved, SpotOk, Own, Break, Spoil, Reserve, Has;
    forall x: nat ensures SpotOk(s', g', x) {
      SpotHere(s, g, x);
      if x == o {
        WriteHas(s, g, i, o, data, s', g');
        OverwrittenSpot(s, g, i, o, h, data, s', g');
      } else {
        if x in g.t.home {
          assert KeysDiffer(s.mem.cells, g.t.home, x, o);
        }
        DataSpot(s, g, i, o, data, s', g', x);
      }
    }
    AllSpots(s', g');
  }

  lemma OverwriteInv(s: State, g: Ghost, i: Pid, s': State) returns (g': Ghost)
    requires Acting(s, g, i, s', Overwrite)
    ensures Inv(s', g') && Refines(g.abs, g'.abs) && Confined(s, g, i, s', g')
  {
    hide PcOk, Hash;
    hide Acting, Inv, Acts, JobOk, JobsMoved, L.WritesChain, L.ChainOf, Own, Break, Spoil, Reserve, AbsJob;
    hide Spots, Threaded, ClaimsOk, RecsApart, KeysOk, Procs, Coupled, WritesData;
    ActFrame(s, g, i, s', Overwrite);
    var pc, job, job' := s.locks.pcs[i], s.jobs[i], s'.jobs[i];
    var h := L.ChainOf(pc);
    OverwriteFacts(pc, job, s.mem, g, g.abs.chains[h], s'.mem, job');
    JobChain(pc, job, s.mem, g, g.abs.chains[h]);
    Parts(s, g);
    hide Mine, OnList;
    ListedMine(g.want, g, pc, job, s.mem.idxEnd, h + 1);
    var data := job.op.data;
    g' := g.(abs := WithKey(g.abs, i, h, job.op.key, data, job'));
    AnsweredOk(pc, job', s'.mem, g.t, g.want, g'.abs.chains[h]);
    WroteData(s, g, i, job.o, data, s', g');
    DataOnly(s, g, i, job.o, data, s', g');
    DataClaims(s, g, i, job.o, data, s', g');
    OverwriteSpots(s, g, i, job.o, h, data, s', g');
    PlaceSim(s, g, i, s', g');
    SameKeySet(g.abs.chains, h, s.mem.cells, g.t.home, job.o, data);
    hide Only, WroteAt, HasCell;
    Assemble(s, g, i, s', g');
  }

  /** The view of the chain has the same keys as before. */
  lemma SameKeySet(chains: map<nat, Dict>, h: nat, cells: map<nat, Rec>, home: map<nat, nat>, o: nat, data: Bytes)
    requires h in chains && KeysOk(cells, home, chains) && o in cells && o in home && home[o] == h + 1
    ensures KeysOk(cells, home, chains[h := chains[h][cells[o].key := data]])
  {
    var chains' := chains[h := chains[h][cells[o].key := data]];
    forall m, key | m in chains' && m < NHASH && key in chains'[m] ensures KeyHome(cells, home, m, key) {
      if m == h && key == cells[o].key {
        assert HasKey(cells, o, key);
      } else {
        assert KeyHome(cells, home, m, key);
      }
    }
  }

  // ---- appending data ----------------------------------------------------------------------------------

  /** db_store appends its data while it has the end of the data file to itself. */
  lemma WriteDataFacts(pc: L.Pc, job: Job, mem: Mem, g: Ghost, chain: Dict, mem': Mem, job': Job)
    requires JobOk(pc, job, mem, g.t, g.want, chain) && Acts(mem, pc, job, mem', job') && job.at == WriteData
    ensures pc.AppendingData? && job.op.StoreOp? && AbsJob(job') == AbsJob(job)
    ensures job.r == Rec(job.op.key, |mem.data|, |job.op.data| + 1)
    ensures mem' == mem.(data := Splice(mem.data, |mem.data|, job.op.data + [NEWLINE]))
    ensures Own(job) == None && Break(job) == None && Spoil(job) == None && Own(job') == None
    ensures Reserve(job') == Some(job.r) && job'.r == job.r
  {
    hide OnList, Hash, Splice, L.ChainOf;
  }

  lemma WriteDataOk(pc: L.Pc, job: Job, mem: Mem, g: Ghost, chain: Dict, mem': Mem, job': Job)
    requires JobOk(pc, job, mem, g.t, g.want, chain) && Acts(mem, pc, job, mem', job') && job.at == WriteData
    requires Has(mem'.data, job.r.datoff, job.op.data + [NEWLINE])
    ensures JobOk(pc, job', mem', g.t, g.want, chain)
  {
    hide OnList, Hash, Splice, Has;
  }

  /** The data file has grown by `text`. */
  predicate Grew(s: State, text: Bytes, s': State) {
    s'.mem == s.mem.(data := Splice(s.mem.data, |s.mem.data|, text + [NEWLINE]))
  }

  lemma GrewKeeps(s: State, text: Bytes, s': State, a: Claim)
    requires ClaimsOk(s) && Grew(s, text, s') && Claims(s, a)
    ensures DataKept(s, s', a)
  {
    hide Splice, SameData;
    assert ClaimOk(s, a);
    SpliceSame(s.mem.data, |s.mem.data|, text + [NEWLINE], Claimed(s, a));
  }

  lemma GrewSpots(s: State, g: Ghost, i: Pid, text: Bytes, s': State)
    requires Spots(s, g) && ClaimsOk(s) && Grew(s, text, s') && JobsMoved(s.jobs, i, s'.jobs) && i in s.jobs
    requires Own(s.jobs[i]) == None && Break(s.jobs[i]) == None && Spoil(s.jobs[i]) == None
    ensures Spots(s', g)
  {
    hide Spots, ClaimsOk, JobsMoved, SpotOk, Own, Break, Spoil, Reserve, Splice, SameData;
    forall x: nat ensures SpotOk(s', g, x) {
      SpotHere(s, g, x);
      if x in s.mem.cells {
        GrewKeeps(s, text, s', Of(x));
      }
      SpotKept(s, g, i, s', g, x);
    }
    AllSpots(s', g);
  }

  lemma GrewClaims(s: State, i: Pid, text: Bytes, s': State)
    requires ClaimsOk(s) && Grew(s, text, s') && i in s'.jobs && i in s.jobs && s'.jobs == s.jobs[i := s'.jobs[i]]
    requires Reserve(s'.jobs[i]).Some? && s'.jobs[i].r.datoff == |s.mem.data| && s'.jobs[i].r.datlen == |text| + 1
    ensures ClaimsOk(s')
  {
    hide ClaimsOk, Splice;
    forall a | Claims(s', a) && a != By(i) ensures SameExtent(s, a, s', a) {
    }
    ClaimsGrow(s, s', By(i));
  }

  lemma GrewOnly(s: State, g: Ghost, i: Pid, text: Bytes, s': State)
    requires ClaimsOk(s) && Grew(s, text, s') && |g.t.chains| == NLISTS && i in s.jobs && i in s.locks.pcs
    requires s'.locks == s.locks && i in s'.jobs && s'.jobs == s.jobs[i := s'.jobs[i]] && s.locks.pcs[i].AppendingData?
    ensures Only(s, g, i, s', g)
  {
    hide L.ChainOf, Mine, ClaimsOk, Claims, SameData, Splice;
    forall a | Claims(s, a) && !Claimant(s, g, i, a) ensures DataKept(s, s', a) {
      GrewKeeps(s, text, s', a);
    }
  }

  lemma WriteDataInv(s: State, g: Ghost, i: Pid, s': State) returns (g': Ghost)
    requires Acting(s, g, i, s', WriteData)
    ensures Inv(s', g') && Refines(g.abs, g'.abs) && Confined(s, g, i, s', g')
  {
    hide Acting, Inv, Acts, JobOk, JobsMoved, L.WritesChain, L.ChainOf, Own, Break, Spoil, Reserve, AbsJob, Splice;
    hide Spots, Threaded, ClaimsOk, RecsApart, KeysOk, Procs, Coupled, Has;
    ActFrame(s, g, i, s', WriteData);
    g' := g;
    var pc, job, job' := s.locks.pcs[i], s.jobs[i], s'.jobs[i];
    WriteDataFacts(pc, job, s.mem, g, g.abs.chains[L.ChainOf(pc)], s'.mem, job');
    Parts(s, g);
    var text := job.op.data;
    SpliceHere(s.mem.data, |s.mem.data|, text + [NEWLINE]);
    WriteDataOk(pc, job, s.mem, g, g.abs.chains[L.ChainOf(pc)], s'.mem, job');
    GrewOnly(s, g, i, text, s');
    GrewClaims(s, i, text, s');
    GrewSpots(s, g, i, text, s');
    Stutter(s, g, i, s', g);
    hide Only, Grew;
    Assemble(s, g, i, s', g);
  }
}
