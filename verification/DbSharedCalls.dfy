/**
  Calls that begin and end, locks that change hands, and the searches; then every step and
  every run of the processes on the shared files.
 */
module DbSharedCalls {
  import opened Common
  import opened CStrings
  import opened DbCells
  import opened DbRecord
  import opened DbFormat
  import opened DbLists
  import opened DbContents
  import opened DbSpec
  import opened DbShared
  import opened DbSharedFrame
  import opened DbSharedParts
  import opened DbSharedActs
  import opened DbSharedReads
  import L = DbLocks
  import A = DbAtomic

  // ---- the call-by-call view -----------------------------------------------------------------------------

  /** The state with the view after its own step. */
  lemma Simulates(s: State, g: Ghost, i: Pid, mv: A.Move, s': State, a': A.State)
    requires Coupled(s, g) && A.Step(g.abs, i, mv, a')
    requires a'.locks == s'.locks && a'.log == s'.log && a'.jobs == AbsJobs(s'.jobs)
    ensures Coupled(s', g.(abs := a')) && Refines(g.abs, a')
  {
    hide A.Inv, A.Step, AbsJobs;
    A.StepInv(g.abs, i, mv, a');
  }

  lemma ViewHere(s: State, g: Ghost, i: Pid)
    requires Coupled(s, g) && i in s.locks.pcs
    ensures i in g.abs.locks.pcs && L.ChainOf(s.locks.pcs[i]) in g.abs.chains && L.ChainOf(s.locks.pcs[i]) < NHASH
    ensures A.ProcOk(g.abs, i)
  {
    hide A.Inv, A.JobOk, A.Slice, AbsJobs, L.ChainOf;
    A.Processes(g.abs, i);
  }

  /** What the view knows of a call that searches its chain. */
  lemma SearcherIs(s: State, g: Ghost, i: Pid)
    requires Coupled(s, g) && i in s.jobs && i in s.locks.pcs && s.locks.pcs[i].Searching?
    ensures var op := s.jobs[i].op; !op.FetchOp? && (op.StoreOp? ==> A.GoodFlag(op.flag))
  {
    hide A.Inv, A.Slice, A.Midway, A.NeedsPut, AbsJobs, Hash, SpecStep;
    ViewHere(s, g, i);
    AbsAt(s.jobs, i);
  }

  lemma AbsAt(jobs: map<Pid, Job>, i: Pid)
    ensures i in AbsJobs(jobs) <==> i in jobs
    ensures i in jobs ==> AbsJobs(jobs)[i] == AbsJob(jobs[i])
  {
    hide AbsJob;
  }

  /** A process without a call, or between calls, has no marks. */
  lemma IdleNoJob(s: State, g: Ghost, i: Pid)
    requires Procs(s, g) && i in s.locks.pcs
    requires (s.locks.pcs[i].Idle? || s.locks.pcs[i].WantList? || s.locks.pcs[i].Listing?)
    ensures i !in s.jobs
  {
    hide Procs, Knows, Hash, Absent, HasPtr, L.ChainOf;
    if i in s.jobs {
      ProcIs(s, g, i);
    }
  }

  lemma LocksMove(s: L.State, i: Pid, a: L.Action, s': L.State)
    requires L.Step(s, i, a, s')
    ensures i in s.pcs && i in s'.pcs && L.Moves(s.pcs[i], a, s'.pcs[i])
    ensures forall j | j != i :: Get(s'.pcs, j) == Get(s.pcs, j)
  {
    hide L.Moves;
  }

  // ---- steps of a process without a call -------------------------------------------------------------------

  lemma RefuseInv(s: State, g: Ghost, i: Pid, op: Op, s': State) returns (g': Ghost)
    requires Inv(s, g) && Step(s, i, Refuse(op), s')
    ensures Inv(s', g') && Refines(g.abs, g'.abs) && Confined(s, g, i, s', g')
  {
    hide Inv, Spots, Threaded, ClaimsOk, RecsApart, KeysOk, Procs, Coupled, A.GoodFlag, ProcOk, Refines;
    Parts(s, g);
    ViewHere(s, g, i);
    var a' := g.abs.(log := g.abs.log + [(op, Code(-1))]);
    g' := g.(abs := a');
    CoupledIs(s, g);
    assert A.Step(g.abs, i, A.Refuse(op), a');
    Simulates(s, g, i, A.Refuse(op), s', a');
    IdleNoJob(s, g, i);
    StillInv(s, g, i, s', g');
  }

  lemma CoupledIs(s: State, g: Ghost)
    requires Coupled(s, g)
    ensures g.abs.locks == s.locks && g.abs.log == s.log && g.abs.jobs == AbsJobs(s.jobs)
  {
    hide A.Inv, AbsJobs;
  }

  lemma FreshOk(op: Op, mem: Mem, g: Ghost, chain: Dict, job: Job)
    requires job == Job(op, Fresh, None, 0, Rec([], 0, 0), 0, 0, 0)
    ensures JobOk(A.First(op), job, mem, g.t, g.want, chain) && L.ChainOf(A.First(op)) == Hash(op.key)
    ensures AbsJob(job) == A.Job(op, None, false, false)
    ensures Own(job) == None && Break(job) == None && Spoil(job) == None && Reserve(job) == None
  {
    hide Hash;
  }

  lemma BeginInv(s: State, g: Ghost, i: Pid, op: Op, s': State) returns (g': Ghost)
    requires Inv(s, g) && Step(s, i, Begin(op), s')
    ensures Inv(s', g') && Refines(g.abs, g'.abs) && Confined(s, g, i, s', g')
  {
    hide Inv, Spots, Threaded, ClaimsOk, RecsApart, KeysOk, Procs, Coupled, A.GoodFlag, JobOk, Refines, Hash, L.Step;
    hide A.First;
    hide L.ChainOf, Own, Break, Spoil, Reserve, AbsJob, AbsJobs;
    Parts(s, g);
    ViewHere(s, g, i);
    CoupledIs(s, g);
    IdleNoJob(s, g, i);
    LocksMove(s.locks, i, L.Proceed, s'.locks);
    var job := s'.jobs[i];
    ChainThere(g.abs, Hash(op.key)) by {
      CoupledView(s, g);
    }
    FreshOk(op, s.mem, g, g.abs.chains[Hash(op.key)], job);
    AbsAdd(s.jobs, i, job);
    var a' := g.abs.(locks := s'.locks, jobs := g.abs.jobs[i := A.Job(op, None, false, false)]);
    g' := g.(abs := a');
    assert A.Step(g.abs, i, A.Begin(op), a');
    Simulates(s, g, i, A.Begin(op), s', a');
    StillInv(s, g, i, s', g');
  }

  lemma CoupledView(s: State, g: Ghost)
    requires Coupled(s, g)
    ensures A.Inv(g.abs)
  {
    hide A.Inv;
  }

  lemma ChainThere(a: A.State, h: nat)
    requires A.Inv(a) && h < NHASH
    ensures h in a.chains
  {
    hide A.Inv;
    A.HasChain(a, h);
  }

  lemma AbsAdd(jobs: map<Pid, Job>, i: Pid, job: Job)
    ensures AbsJobs(jobs[i := job]) == AbsJobs(jobs)[i := AbsJob(job)]
    ensures AbsJobs(jobs - {i}) == AbsJobs(jobs) - {i}
  {
    hide AbsJob;
  }

  lemma ScanInv(s: State, g: Ghost, i: Pid, s': State) returns (g': Ghost)
    requires Inv(s, g) && Step(s, i, Scan, s')
    ensures Inv(s', g') && Refines(g.abs, g'.abs) && Confined(s, g, i, s', g')
  {
    hide Inv, Spots, Threaded, ClaimsOk, RecsApart, KeysOk, Procs, Coupled, ProcOk, Refines, L.Step, AbsJobs;
    Parts(s, g);
    ViewHere(s, g, i);
    CoupledIs(s, g);
    IdleNoJob(s, g, i);
    LocksMove(s.locks, i, L.Proceed, s'.locks);
    var a' := g.abs.(locks := s'.locks);
    g' := g.(abs := a');
    assert A.Step(g.abs, i, A.Scan, a');
    Simulates(s, g, i, A.Scan, s', a');
    StillInv(s, g, i, s', g');
  }

  // ---- locks ----------------------------------------------------------------------------------------------

  lemma TakenPc(pc: L.Pc, lock: L.Lock, pc': L.Pc, job: Job)
    requires L.Moves(pc, L.Acquire(lock), pc') && PcOk(pc, job)
    ensures PcOk(pc', job) && L.ChainOf(pc') == L.ChainOf(pc) && (HasPtr(pc', job) ==> HasPtr(pc, job))
  {
  }

  lemma TakenOk(pc: L.Pc, lock: L.Lock, pc': L.Pc, job: Job, mem: Mem, g: Ghost, chain: Dict)
    requires L.Moves(pc, L.Acquire(lock), pc') && JobOk(pc, job, mem, g.t, g.want, chain)
    ensures JobOk(pc', job, mem, g.t, g.want, chain) && L.ChainOf(pc') == L.ChainOf(pc)
  {
    hide Hash, Knows, PcOk, HasPtr, Absent, HasHead, L.Moves, L.ChainOf;
    TakenPc(pc, lock, pc', job);
  }

  lemma TakeInv(s: State, g: Ghost, i: Pid, lock: L.Lock, s': State) returns (g': Ghost)
    requires Inv(s, g) && Step(s, i, Take(lock), s')
    ensures Inv(s', g') && Refines(g.abs, g'.abs) && Confined(s, g, i, s', g')
  {
    hide Inv, Spots, Threaded, ClaimsOk, RecsApart, KeysOk, Procs, Coupled, JobOk, Refines, L.Step, L.Moves;
    hide L.ChainOf, AbsJobs;
    Parts(s, g);
    ViewHere(s, g, i);
    CoupledIs(s, g);
    LocksMove(s.locks, i, L.Acquire(lock), s'.locks);
    if i in s.jobs {
      ProcIs(s, g, i);
      var pc := s.locks.pcs[i];
      TakenOk(pc, lock, s'.locks.pcs[i], s.jobs[i], s.mem, g, g.abs.chains[L.ChainOf(pc)]);
    }
    var a' := g.abs.(locks := s'.locks);
    g' := g.(abs := a');
    assert A.Step(g.abs, i, A.Take(lock), a');
    Simulates(s, g, i, A.Take(lock), s', a');
    StillInv(s, g, i, s', g');
  }

  /** After the work under a lock the call goes on without it. */
  lemma GivenPc(pc: L.Pc, region: L.Region, pc': L.Pc, job: Job, mem: Mem)
    requires L.Moves(pc, L.Release(region), pc') && PcOk(pc, job) && MayGive(pc, job, pc')
    requires !pc.Fetching? && !pc.Linking?
    ensures var job' := Reread(pc, job, mem);
      && PcOk(pc', job') && L.ChainOf(pc') == L.ChainOf(pc) && AbsJob(job') == AbsJob(job) && SameMarks(job, job')
      && job'.op == job.op && Absent(job') == Absent(job) && (job' == job || job'.at == SeekData)
      && (HasPtr(pc', job') ==> HasPtr(pc, job) || (pc.Freeing? && pc.next == L.Append && job.at == SeekData))
  {
  }

  lemma GivenOk(pc: L.Pc, region: L.Region, pc': L.Pc, job: Job, mem: Mem, g: Ghost, chain: Dict)
    requires L.Moves(pc, L.Release(region), pc') && JobOk(pc, job, mem, g.t, g.want, chain) && MayGive(pc, job, pc')
    requires !pc.Fetching? && !pc.Linking?
    requires pc.Freeing? && pc.next == L.Append ==>
      Slot(pc.h) in mem.ptrs && HasHead(g.t, L.ChainOf(pc) + 1, mem.ptrs[Slot(pc.h)])
    ensures var job' := Reread(pc, job, mem);
      && JobOk(pc', job', mem, g.t, g.want, chain) && L.ChainOf(pc') == L.ChainOf(pc) && AbsJob(job') == AbsJob(job)
      && SameMarks(job, job')
  {
    hide Hash, HasHead, PcOk, Knows, HasPtr, Absent, AbsJob, SameMarks, L.Moves, MayGive, L.ChainOf;
    GivenPc(pc, region, pc', job, mem);
    SeekKnows(Reread(pc, job, mem), L.ChainOf(pc) + 1, mem, g.t, g.want);
  }

  lemma SeekKnows(job: Job, l: nat, mem: Mem, t: Lists, want: map<nat, nat>)
    ensures job.at == SeekData ==> Knows(job, l, mem, t, want)
  {
  }

  lemma GivenView(pc: L.Pc, job: Job, pc': L.Pc, mem: Mem, g: Ghost, chain: Dict)
    requires JobOk(pc, job, mem, g.t, g.want, chain) && MayGive(pc, job, pc')
    ensures pc.Freeing? ==> !AbsJob(job).remove && Break(job) == None
    ensures pc.Fetching? ==> AbsJob(job).reply.Some?
    ensures pc.Fetching? ==> Own(job) == None && Break(job) == None && Spoil(job) == None && Reserve(job) == None
  {
    hide Hash, Knows;
  }

  /** A lock is released in the middle of a call. */
  lemma PassInv(s: State, g: Ghost, i: Pid, region: L.Region, s': State) returns (g': Ghost)
    requires Inv(s, g) && Step(s, i, Give(region), s') && i in s.jobs && !s.locks.pcs[i].Fetching?
    ensures Inv(s', g') && Refines(g.abs, g'.abs) && Confined(s, g, i, s', g')
  {
    hide Inv, Spots, Threaded, ClaimsOk, RecsApart, KeysOk, Procs, Coupled, JobOk, Refines, L.Step, L.Moves;
    hide L.ChainOf, AbsJobs;
    hide Own, Break, Spoil, Reserve, AbsJob, HasHead, MayGive, Reread, L.WritesChain;
    Parts(s, g);
    ViewHere(s, g, i);
    CoupledIs(s, g);
    LocksMove(s.locks, i, L.Release(region), s'.locks);
    ProcIs(s, g, i);
    var pc, pc', job := s.locks.pcs[i], s'.locks.pcs[i], s.jobs[i];
    var chain := g.abs.chains[L.ChainOf(pc)];
    GivenView(pc, job, pc', s.mem, g, chain);
    if pc.Freeing? && pc.next == L.Append {
      FreeingWrites(pc);
      HeadIs(s, g, i, L.ChainOf(pc) + 1);
    }
    GivenOk(pc, region, pc', job, s.mem, g, chain);
    AbsPut(s.jobs, i, s'.jobs[i]);
    var a' := g.abs.(locks := s'.locks);
    g' := g.(abs := a');
    assert A.Step(g.abs, i, A.Give(region), a');
    Simulates(s, g, i, A.Give(region), s', a');
    StillInv(s, g, i, s', g');
  }

  lemma FreeingWrites(pc: L.Pc)
    ensures pc.Freeing? ==> L.WritesChain(pc) && L.ChainOf(pc) == pc.h && Slot(pc.h) == PTR_SZ * (L.ChainOf(pc) + 1)
  {
  }

  /** db_fetch returns, or a listing ends. */
  lemma LeaveInv(s: State, g: Ghost, i: Pid, region: L.Region, s': State) returns (g': Ghost)
    requires Inv(s, g) && Step(s, i, Give(region), s') && (i !in s.jobs || s.locks.pcs[i].Fetching?)
    ensures Inv(s', g') && Refines(g.abs, g'.abs) && Confined(s, g, i, s', g')
  {
    hide Inv, Spots, Threaded, ClaimsOk, RecsApart, KeysOk, Procs, Coupled, JobOk, Refines, L.Step, L.Moves;
    hide L.ChainOf, AbsJobs;
    hide Own, Break, Spoil, Reserve, AbsJob, HasHead, MayGive, Reread, L.WritesChain;
    Parts(s, g);
    ViewHere(s, g, i);
    CoupledIs(s, g);
    LocksMove(s.locks, i, L.Release(region), s'.locks);
    var pc := s.locks.pcs[i];
    AbsAt(s.jobs, i);
    if i in s.jobs {
      ProcIs(s, g, i);
      GivenView(pc, s.jobs[i], s'.locks.pcs[i], s.mem, g, g.abs.chains[L.ChainOf(pc)]);
      AbsAdd(s.jobs, i, s.jobs[i]);
    } else {
      NoJobGives(s, g, i);
    }
    var a' := g.abs.(locks := s'.locks, jobs := AbsJobs(s'.jobs));
    g' := g.(abs := a');
    assert A.Step(g.abs, i, A.Give(region), a');
    Simulates(s, g, i, A.Give(region), s', a');
    StillInv(s, g, i, s', g');
  }

  /** A process that fetches or writes its chain has a call. */
  lemma NoJobGives(s: State, g: Ghost, i: Pid)
    requires Coupled(s, g) && i in s.locks.pcs && i !in s.jobs
    ensures !s.locks.pcs[i].Freeing? && !s.locks.pcs[i].Fetching?
  {
    hide A.Inv, A.Slice, A.Midway, A.NeedsPut, AbsJobs, Hash, SpecStep;
    ViewHere(s, g, i);
    AbsAt(s.jobs, i);
  }

  lemma GiveInv(s: State, g: Ghost, i: Pid, region: L.Region, s': State) returns (g': Ghost)
    requires Inv(s, g) && Step(s, i, Give(region), s')
    ensures Inv(s', g') && Refines(g.abs, g'.abs) && Confined(s, g, i, s', g')
  {
    hide Inv, Refines, Confined, L.Step, MayGive, Reread;
    if i in s.jobs && !s.locks.pcs[i].Fetching? {
      g' := PassInv(s, g, i, region, s');
    } else {
      g' := LeaveInv(s, g, i, region, s');
    }
  }

  /** db_store or db_delete returns. */
  lemma FinishInv(s: State, g: Ghost, i: Pid, s': State) returns (g': Ghost)
    requires Inv(s, g) && Step(s, i, Finish, s')
    ensures Inv(s', g') && Refines(g.abs, g'.abs) && Confined(s, g, i, s', g')
  {
    hide Inv, Spots, Threaded, ClaimsOk, RecsApart, KeysOk, Procs, Coupled, JobOk, Refines, L.Step, L.Moves;
    hide L.ChainOf, AbsJobs;
    hide Own, Break, Spoil, Reserve, AbsJob, SpecStep;
    Parts(s, g);
    ViewHere(s, g, i);
    CoupledIs(s, g);
    LocksMove(s.locks, i, L.Release(L.ChainRegion(L.ChainOf(s.locks.pcs[i]))), s'.locks);
    AbsAt(s.jobs, i);
    AnsweredIs(s.jobs[i]);
    AbsAdd(s.jobs, i, s.jobs[i]);
    var job := AbsJob(s.jobs[i]);
    var a' := g.abs.(locks := s'.locks, jobs := AbsJobs(s'.jobs), dict := SpecStep(g.abs.dict, job.op).0,
                     log := g.abs.log + [(job.op, job.reply.value)]);
    g' := g.(abs := a');
    assert A.Step(g.abs, i, A.Finish, a');
    Simulates(s, g, i, A.Finish, s', a');
    StillInv(s, g, i, s', g');
  }

  lemma AnsweredIs(job: Job)
    requires job.at == Answered
    ensures AbsJob(job) == A.Job(job.op, job.reply, false, false)
    ensures Own(job) == None && Break(job) == None && Spoil(job) == None && Reserve(job) == None
  {
  }

  // ---- searches -------------------------------------------------------------------------------------------

  lemma LookMarks(job: Job, reply: Reply)
    requires job.at == Fresh
    ensures var job' := job.(at := Answered, reply := Some(reply));
      && AbsJob(job') == AbsJob(job).(reply := Some(reply)) && SameMarks(job, job')
      && Break(job) == None && Spoil(job) == None
  {
  }

  lemma LookPc(pc: L.Pc, job: Job, reply: Reply)
    requires PcOk(pc, job) && pc.Fetching? && job.at == Fresh
    ensures PcOk(pc, job.(at := Answered, reply := Some(reply))) && job.reply == None
  {
  }

  lemma LookOk(pc: L.Pc, job: Job, mem: Mem, g: Ghost, chain: Dict, reply: Reply)
    requires JobOk(pc, job, mem, g.t, g.want, chain) && pc.Fetching? && job.at == Fresh
    ensures JobOk(pc, job.(at := Answered, reply := Some(reply)), mem, g.t, g.want, chain) && job.reply == None
  {
    hide Hash, Knows, HasPtr, Absent, PcOk, L.ChainOf;
    LookPc(pc, job, reply);
    AnsweredOk(pc, job.(at := Answered, reply := Some(reply)), mem, g.t, g.want, chain);
  }

  /** db_fetch searches its chain and reads the data. */
  lemma LookInv(s: State, g: Ghost, i: Pid, c: seq<nat>, s': State) returns (g': Ghost)
    requires Inv(s, g) && Step(s, i, Look(c), s')
    ensures Inv(s', g') && Refines(g.abs, g'.abs) && Confined(s, g, i, s', g')
  {
    hide Inv, Spots, Threaded, ClaimsOk, RecsApart, KeysOk, Procs, Coupled, JobOk, Refines, L.Step, L.Moves;
    hide L.ChainOf, AbsJobs;
    hide Own, Break, Spoil, Reserve, AbsJob, Followed, Found, SpecFetch;
    Parts(s, g);
    ViewHere(s, g, i);
    CoupledIs(s, g);
    ProcIs(s, g, i);
    var pc, job := s.locks.pcs[i], s.jobs[i];
    var chain, reply := g.abs.chains[L.ChainOf(pc)], Text(Found(s.mem, c, job.op.key));
    LookOk(pc, job, s.mem, g, chain, reply);
    LookMarks(job, reply);
    FetchReads(s, g, i, c, job.op.key);
    OpAt(job);
    AbsAt(s.jobs, i);
    AbsAdd(s.jobs, i, s'.jobs[i]);
    var a' := g.abs.(jobs := AbsJobs(s'.jobs), log := s'.log);
    g' := g.(abs := a');
    assert A.Step(g.abs, i, A.Look, a');
    Simulates(s, g, i, A.Look, s', a');
    StillInv(s, g, i, s', g');
  }

  lemma OpAt(job: Job)
    ensures AbsJob(job).op == job.op && AbsJob(job).reply == job.reply
  {
  }

  /** The search decides as the view does. */
  lemma DecidedSim(job: Job, mem: Mem, h: nat, c: seq<nat>, chain: Dict)
    requires !job.op.FetchOp? && (job.op.StoreOp? ==> A.GoodFlag(job.op.flag))
    requires FirstKey(mem.cells, c, job.op.key) < |c| <==> job.op.key in chain
    requires job.op.key in chain ==>
      mem.cells[c[FirstKey(mem.cells, c, job.op.key)]].datlen == |chain[job.op.key]| + 1
    ensures AbsJob(Decided(job, mem, h, c)) == A.Decided(job.op, chain)
    ensures DecidedPc(Decided(job, mem, h, c), h) == A.AfterSearch(job.op, chain, h)
  {
    hide FirstKey;
  }

  lemma DecidedPcOk(pc: L.Pc, job: Job, mem: Mem, h: nat, c: seq<nat>)
    requires PcOk(pc, job) && pc.Searching? && L.ChainOf(pc) == h && !job.op.FetchOp?
    ensures var job' := Decided(job, mem, h, c);
      && PcOk(DecidedPc(job', h), job') && L.ChainOf(DecidedPc(job', h)) == h && SameMarks(job, job')
      && Break(job) == None && job'.op == job.op
  {
    hide FirstKey;
  }

  lemma DecidedKnows(job: Job, mem: Mem, g: Ghost, h: nat)
    requires h + 1 < |g.t.chains| && !job.op.FetchOp?
    ensures Knows(Decided(job, mem, h, g.t.chains[h + 1]), h + 1, mem, g.t, g.want)
  {
    hide FirstKey;
    var c := g.t.chains[h + 1];
    var k := FirstKey(mem.cells, c, job.op.key);
    if k < |c| {
      assert OnListAt(g.t, h + 1, StoppedAt(job, mem, h + 1, c, k), k);
      OnListStays(g.t, h + 1, StoppedAt(job, mem, h + 1, c, k), Decided(job, mem, h, c));
    }
    hide OnList;
  }

  lemma DecidedAt(job: Job, mem: Mem, h: nat, c: seq<nat>)
    ensures var job' := Decided(job, mem, h, c);
      && (job'.at == LookFree || job'.at == Answered || job'.at == Blank || job'.at == Overwrite)
      && (job'.at == LookFree ==> FirstKey(mem.cells, c, job.op.key) == |c| && job'.ptr == Succ(c, 0))
  {
    hide FirstKey, StoppedAt;
  }

  lemma DecidedPtr(pc: L.Pc, job: Job)
    requires job.at == LookFree || job.at == Answered || job.at == Blank || job.at == Overwrite
    ensures Absent(job) || HasPtr(pc, job) ==> job.at == LookFree
  {
  }

  lemma DecidedOk(pc: L.Pc, job: Job, mem: Mem, g: Ghost, h: nat, chain: Dict)
    requires JobOk(pc, job, mem, g.t, g.want, chain) && pc.Searching? && L.ChainOf(pc) == h && h + 1 < |g.t.chains|
    requires !job.op.FetchOp?
    requires FirstKey(mem.cells, g.t.chains[h + 1], job.op.key) < |g.t.chains[h + 1]| <==> job.op.key in chain
    ensures var job' := Decided(job, mem, h, g.t.chains[h + 1]);
      && JobOk(DecidedPc(job', h), job', mem, g.t, g.want, chain) && L.ChainOf(DecidedPc(job', h)) == h
      && SameMarks(job, job') && Break(job) == None
  {
    hide FirstKey, Hash, Decided, DecidedPc, PcOk, Knows, HasPtr, Absent, SameMarks, Break;
    var c := g.t.chains[h + 1];
    DecidedPcOk(pc, job, mem, h, c);
    DecidedKnows(job, mem, g, h);
    DecidedAt(job, mem, h, c);
    DecidedPtr(DecidedPc(Decided(job, mem, h, c), h), Decided(job, mem, h, c));
  }

  lemma SearchInv(s: State, g: Ghost, i: Pid, c: seq<nat>, s': State) returns (g': Ghost)
    requires Inv(s, g) && Step(s, i, Search(c), s')
    ensures Inv(s', g') && Refines(g.abs, g'.abs) && Confined(s, g, i, s', g')
  {
    hide Inv, Spots, Threaded, ClaimsOk, RecsApart, KeysOk, Procs, Coupled, JobOk, Refines, L.Step, L.Moves;
    hide L.ChainOf, AbsJobs;
    hide Own, Break, Spoil, Reserve, AbsJob, Followed, FirstKey, Decided, DecidedPc, HomeOk, L.WritesChain, A.Decided;
    hide A.AfterSearch;
    hide A.GoodFlag;
    Parts(s, g);
    ViewHere(s, g, i);
    CoupledIs(s, g);
    ProcIs(s, g, i);
    SearcherIs(s, g, i);
    var pc, job := s.locks.pcs[i], s.jobs[i];
    var h := L.ChainOf(pc);
    var chain := g.abs.chains[h];
    SearcherReads(s, g, i);
    FollowedIs(s, g, i, h + 1, c);
    SearchFinds(s, g, h, job.op.key);
    SearchLength(s, g, h, job.op.key);
    DecidedSim(job, s.mem, h, c, chain);
    DecidedOk(pc, job, s.mem, g, h, chain);
    LocksMove(s.locks, i, L.Proceed, s'.locks);
    OpAt(job);
    AbsAt(s.jobs, i);
    AbsAdd(s.jobs, i, s'.jobs[i]);
    var a' := g.abs.(locks := s'.locks, jobs := AbsJobs(s'.jobs));
    g' := g.(abs := a');
    assert A.Step(g.abs, i, A.Decide, a');
    Simulates(s, g, i, A.Decide, s', a');
    StillInv(s, g, i, s', g');
  }

  lemma SearcherReads(s: State, g: Ghost, i: Pid)
    requires Procs(s, g) && i in s.jobs && i in s.locks.pcs && s.locks.pcs[i].Searching?
    ensures MayRead(s, i, L.ChainOf(s.locks.pcs[i]) + 1)
  {
    hide Procs, Knows, Hash, Absent, HasPtr, L.ChainOf;
    ProcIs(s, g, i);
  }

  lemma SearchLength(s: State, g: Ghost, h: nat, key: Bytes)
    requires h < NHASH && h in g.abs.chains && |g.t.chains| == NLISTS
    requires var c := g.t.chains[h + 1]; var k := FirstKey(s.mem.cells, c, key);
      k < |c| ==> HomeOk(s, g, c[k]) && g.t.home[c[k]] == h + 1
    ensures var c := g.t.chains[h + 1]; var k := FirstKey(s.mem.cells, c, key);
      k < |c| ==> key in g.abs.chains[h] && s.mem.cells[c[k]].datlen == |g.abs.chains[h][key]| + 1
  {
    hide FirstKey, Hash, Has, Spoiled;
  }

  lemma FittedOk(pc: L.Pc, job: Job, mem: Mem, g: Ghost, chain: Dict)
    requires JobOk(pc, job, mem, g.t, g.want, chain) && pc.Freeing? && job.at == LookFree && job.op.StoreOp?
    requires |g.t.chains| > 0
    ensures var job' := Fitted(job, mem, g.t.chains[0]);
      && JobOk(pc, job', mem, g.t, g.want, chain) && AbsJob(job') == AbsJob(job)
      && SameMarks(job, job')
      && Break(job) == None
  {
    hide FirstFit, Hash, L.ChainOf;
    var c := g.t.chains[0];
    var k := FirstFit(mem.cells, c, |job.op.key|, |job.op.data| + 1);
    if k < |c| {
      assert OnListAt(g.t, 0, StoppedAt(job, mem, 0, c, k), k);
      OnListStays(g.t, 0, StoppedAt(job, mem, 0, c, k), Fitted(job, mem, c));
    }
  }

  /** _db_findfree searches the free list. */
  lemma FitInv(s: State, g: Ghost, i: Pid, c: seq<nat>, s': State) returns (g': Ghost)
    requires Inv(s, g) && Step(s, i, Fit(c), s')
    ensures Inv(s', g') && Refines(g.abs, g'.abs) && Confined(s, g, i, s', g')
  {
    hide Inv, Spots, Threaded, ClaimsOk, RecsApart, KeysOk, Procs, Coupled, JobOk, Refines, L.Step, L.Moves;
    hide L.ChainOf, AbsJobs;
    hide Own, Break, Spoil, Reserve, AbsJob, Followed, Fitted;
    Parts(s, g);
    ProcIs(s, g, i);
    g' := g;
    var pc, job := s.locks.pcs[i], s.jobs[i];
    FittedOk(pc, job, s.mem, g, g.abs.chains[L.ChainOf(pc)]);
    FollowedIs(s, g, i, 0, c);
    FreeingWrites(pc);
    JobsMove(s, i, s');
    ReadInv(s, g, i, s');
  }

  // ---- every step and every run -----------------------------------------------------------------------

  /** Whatever a process does next, the invariant stays and the call-by-call view can follow. */
  lemma StepInv(s: State, g: Ghost, i: Pid, mv: Move, s': State) returns (g': Ghost)
    requires Inv(s, g) && Step(s, i, mv, s')
    ensures Inv(s', g') && Refines(g.abs, g'.abs) && Confined(s, g, i, s', g')
  {
    hide Inv, Step, Refines, Confined;
    match mv
    case Refuse(op) => g' := RefuseInv(s, g, i, op, s');
    case Begin(op) => g' := BeginInv(s, g, i, op, s');
    case Scan => g' := ScanInv(s, g, i, s');
    case Take(lock) => g' := TakeInv(s, g, i, lock, s');
    case Look(c) => g' := LookInv(s, g, i, c, s');
    case Search(c) => g' := SearchInv(s, g, i, c, s');
    case Fit(c) => g' := FitInv(s, g, i, c, s');
    case Act => g' := ActInv(s, g, i, s');
    case Give(region) => g' := GiveInv(s, g, i, region, s');
    case Finish => g' := FinishInv(s, g, i, s');
  }
}
