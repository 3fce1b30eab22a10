/** No call on the shared files gets stuck: a process that waits for no lock can take its next step. */
module DbSharedProgress {
  import opened Common
  import opened CStrings
  import opened DbCells
  import opened DbRecord
  import opened DbLists
  import opened DbContents
  import opened DbSpec
  import opened DbShared
  import opened DbSharedFrame
  import opened DbSharedActs
  import opened DbSharedIndex
  import opened DbSharedReads
  import opened DbSharedCalls
  import opened DbSharedRuns
  import L = DbLocks
  import A = DbAtomic

  ghost predicate CanStep(s: State, i: Pid) {
    exists mv, s' :: Step(s, i, mv, s')
  }

  /** The next thing the call does is a read or a write, */
  predicate Working(pc: L.Pc, at: Point) {
    || (pc.Freeing? && (at == Blank || at == GetFree || at == Rewrite || at == Push || at == Unlink || at == TakeFree))
    || (pc.Linking? && (at == ReuseData || at == ReuseIndex || at == Link || at == Overwrite))
    || (pc.AppendingData? && (at == SeekData || at == WriteData))
    || (pc.AppendingIndex? && (at == SeekIndex || at == WriteIndex))
  }

  /** or to follow a list, */
  predicate Looking(pc: L.Pc, at: Point) {
    (at == Fresh && (pc.Fetching? || pc.Searching?)) || (at == LookFree && pc.Freeing?)
  }

  /** or to release a lock. */
  predicate Leaving(pc: L.Pc, at: Point) {
    || (pc.Freeing? && (at == SeekData || at == ReuseData || at == Answered))
    || (pc.AppendingData? && at == SeekIndex)
    || (pc.AppendingIndex? && at == Link)
    || ((pc.Fetching? || pc.Linking?) && at == Answered)
  }

  lemma NextThing(pc: L.Pc, job: Job)
    requires PcOk(pc, job) && L.Wanted(pc) == {}
    ensures Working(pc, job.at) || Looking(pc, job.at) || Leaving(pc, job.at)
  {
  }

  // ---- reads and writes ---------------------------------------------------------------------------------

  predicate StoresData(at: Point) {
    at == ReuseData || at == Overwrite || at == WriteData
  }

  /** What the read or write asks of the files. */
  predicate Ready(mem: Mem, job: Job) {
    && 0 in mem.ptrs && (job.at == Blank ==> job.r.datlen >= 1)
    && (job.at == Blank || StoresData(job.at) ==> job.r.datoff <= |mem.data|)
    && (StoresData(job.at) || job.at == SeekData ==> job.op.StoreOp?)
  }

  lemma CanAct(mem: Mem, pc: L.Pc, job: Job) returns (mem': Mem, job': Job)
    requires Working(pc, job.at) && Ready(mem, job)
    ensures Acts(mem, pc, job, mem', job')
  {
    mem', job' := mem, job;
    var r := job.r;
    match job.at
    case Blank =>
      mem' := mem.(data := Splice(mem.data, r.datoff, Spaces(r.datlen - 1) + [NEWLINE]));
      job' := job.(at := GetFree);
    case GetFree => job' := job.(at := Rewrite, ptr := mem.ptrs[0]);
    case Rewrite => mem', job' := Rewritten(mem, job.o, r.(key := Spaces(|r.key|)), job.ptr), job.(at := Push);
    case Push => mem', job' := mem.(ptrs := mem.ptrs[0 := job.o]), job.(at := Unlink);
    case Unlink =>
      mem' := mem.(ptrs := mem.ptrs[job.prev := job.save]);
      job' := job.(at := if job.op.StoreOp? then SeekData else Answered);
    case TakeFree => mem', job' := mem.(ptrs := mem.ptrs[job.prev := job.save]), job.(at := ReuseData);
    case ReuseData =>
      mem', job' := mem.(data := Splice(mem.data, r.datoff, job.op.data + [NEWLINE])), job.(at := ReuseIndex);
    case ReuseIndex =>
      mem' := Rewritten(mem, job.o, r.(key := job.op.key), job.ptr);
      job' := job.(at := Link, r := r.(key := job.op.key));
    case SeekData => job' := job.(at := WriteData, r := Rec(job.op.key, |mem.data|, |job.op.data| + 1));
    case WriteData =>
      mem', job' := mem.(data := Splice(mem.data, r.datoff, job.op.data + [NEWLINE])), job.(at := SeekIndex);
    case SeekIndex => job' := job.(at := WriteIndex, o := mem.idxEnd);
    case WriteIndex => mem', job' := Rewritten(mem, job.o, r, job.ptr), job.(at := Link);
    case Link => mem', job' := mem.(ptrs := mem.ptrs[Slot(pc.h) := job.o]), job.(at := Answered);
    case Overwrite =>
      mem', job' := mem.(data := Splice(mem.data, r.datoff, job.op.data + [NEWLINE])), job.(at := Answered);
  }

  function Rewritten(mem: Mem, o: nat, r: Rec, ptr: nat): (mem': Mem)
    ensures WritesRec(mem, o, r, ptr, mem')
  {
    mem.(cells := mem.cells[o := r], ptrs := mem.ptrs[o := ptr],
         idxEnd := if o + RecLen(r) <= mem.idxEnd then mem.idxEnd else o + RecLen(r))
  }

  lemma ReadyKnown(pc: L.Pc, job: Job, l: nat, mem: Mem, t: Lists, want: map<nat, nat>)
    requires PcOk(pc, job) && Knows(job, l, mem, t, want)
    ensures job.at == Blank || job.at == ReuseData || job.at == Overwrite ==> HasCell(mem, job)
    ensures job.at == WriteData ==> job.r.datoff == |mem.data|
    ensures StoresData(job.at) || job.at == SeekData ==> job.op.StoreOp?
  {
    hide OnList, FieldOf, Wants, HasHead, HasData;
  }

  lemma IsReady(s: State, g: Ghost, i: Pid)
    requires Inv(s, g) && i in s.jobs
    ensures Ready(s.mem, s.jobs[i])
  {
    hide Inv, Spots, Threaded, ClaimsOk, RecsApart, KeysOk, Procs, Coupled, Knows, PcOk, JobOk, L.ChainOf;
    Parts(s, g);
    FreeSlot(s, g);
    ProcIs(s, g, i);
    var pc, job := s.locks.pcs[i], s.jobs[i];
    JobKnows(pc, job, s.mem, g);
    ReadyKnown(pc, job, L.ChainOf(pc) + 1, s.mem, g.t, g.want);
    if job.at == Blank || job.at == ReuseData || job.at == Overwrite {
      ClaimHere(s, Of(job.o));
    }
    assert PTR_SZ * 0 in s.mem.ptrs;
  }

  lemma WorkerSteps(s: State, g: Ghost, i: Pid)
    requires Inv(s, g) && i in s.jobs && i in s.locks.pcs && Working(s.locks.pcs[i], s.jobs[i].at)
    ensures CanStep(s, i)
  {
    hide Inv, Ready, Working, Acts;
    IsReady(s, g, i);
    var mem', job' := CanAct(s.mem, s.locks.pcs[i], s.jobs[i]);
    assert Step(s, i, Act, s.(mem := mem', jobs := s.jobs[i := job']));
  }

  // ---- searches ---------------------------------------------------------------------------------------------

  lemma LookerReads(pc: L.Pc, job: Job)
    requires PcOk(pc, job) && Looking(pc, job.at)
    ensures Break(job) == None && (pc.Searching? || pc.Fetching? || (pc.Freeing? && job.op.StoreOp?))
    ensures pc.Searching? ==> pc.storing == job.op.StoreOp? && L.WritesChain(pc)
  {
  }

  lemma Proceeds(s: L.State, i: Pid, pc': L.Pc) returns (s': L.State)
    requires L.Inv(s) && i in s.pcs && L.Moves(s.pcs[i], L.Proceed, pc')
    ensures L.Step(s, i, L.Proceed, s') && s'.pcs[i] == pc'
  {
    hide L.Moves;
    s' := L.State(s.pcs[i := pc'], s.held);
  }

  lemma DecidedMoves(pc: L.Pc, job: Job, mem: Mem, h: nat, c: seq<nat>)
    requires pc.Searching? && pc.h == h && pc.storing == job.op.StoreOp? && !job.op.FetchOp?
    ensures L.Moves(pc, L.Proceed, DecidedPc(Decided(job, mem, h, c), h))
  {
    hide FirstKey;
  }

  lemma SearcherSteps(s: State, g: Ghost, i: Pid)
    requires Inv(s, g) && i in s.jobs && i in s.locks.pcs && s.locks.pcs[i].Searching?
    ensures CanStep(s, i)
  {
    hide Inv, Spots, Threaded, ClaimsOk, RecsApart, KeysOk, Procs, Coupled, Knows, JobOk, L.Inv, Followed, Decided;
    hide DecidedPc;
    hide L.Step, L.Moves;
    Parts(s, g);
    LocksHold(s, g);
    ProcIs(s, g, i);
    var pc, job := s.locks.pcs[i], s.jobs[i];
    JobKnows(pc, job, s.mem, g);
    JobChain(pc, job, s.mem, g, g.abs.chains[L.ChainOf(pc)]);
    SearcherIs(s, g, i);
    SearcherReads(s, g, i);
    hide MayRead;
    CanFollow(s, g, i, pc.h + 1);
    var c := g.t.chains[pc.h + 1];
    DecidedMoves(pc, job, s.mem, pc.h, c);
    var job' := Decided(job, s.mem, pc.h, c);
    var locks' := Proceeds(s.locks, i, DecidedPc(job', pc.h));
    assert Step(s, i, Search(c), s.(locks := locks', jobs := s.jobs[i := job']));
  }

  lemma FetcherSteps(s: State, g: Ghost, i: Pid)
    requires Inv(s, g) && i in s.jobs && i in s.locks.pcs && s.locks.pcs[i].Fetching? && s.jobs[i].at == Fresh
    ensures CanStep(s, i)
  {
    hide Inv, Spots, Threaded, ClaimsOk, RecsApart, KeysOk, Procs, Coupled, Knows, JobOk, Followed, Found;
    Parts(s, g);
    ProcIs(s, g, i);
    var pc, job := s.locks.pcs[i], s.jobs[i];
    JobChain(pc, job, s.mem, g, g.abs.chains[L.ChainOf(pc)]);
    CanFollow(s, g, i, pc.h + 1);
    var c := g.t.chains[pc.h + 1];
    var reply := Text(Found(s.mem, c, job.op.key));
    var job' := job.(at := Answered, reply := Some(reply));
    assert Step(s, i, Look(c), s.(jobs := s.jobs[i := job'], log := s.log + [(job.op, reply)]));
  }

  lemma FitterSteps(s: State, g: Ghost, i: Pid)
    requires Inv(s, g) && i in s.jobs && i in s.locks.pcs && s.locks.pcs[i].Freeing? && s.jobs[i].at == LookFree
    ensures CanStep(s, i)
  {
    hide Inv, Spots, Threaded, ClaimsOk, RecsApart, KeysOk, Procs, Coupled, Knows, JobOk, Followed, Fitted;
    Parts(s, g);
    ProcIs(s, g, i);
    var pc, job := s.locks.pcs[i], s.jobs[i];
    JobKnows(pc, job, s.mem, g);
    CanFollow(s, g, i, 0);
    var c := g.t.chains[0];
    assert Step(s, i, Fit(c), s.(jobs := s.jobs[i := Fitted(job, s.mem, c)]));
  }

  // ---- locks ------------------------------------------------------------------------------------------------

  lemma Releases(s: L.State, i: Pid, r: L.Region, pc': L.Pc) returns (s': L.State)
    requires L.Inv(s) && i in s.pcs && L.Moves(s.pcs[i], L.Release(r), pc')
    ensures L.Step(s, i, L.Release(r), s') && s'.pcs[i] == pc'
  {
    hide L.Moves, L.Drop;
    s' := L.State(s.pcs[i := pc'], s.held[i := L.Drop(s.held[i], r)]);
  }

  lemma LeavesTo(pc: L.Pc, job: Job) returns (r: L.Region, pc': L.Pc)
    requires PcOk(pc, job) && Leaving(pc, job.at)
    ensures L.Moves(pc, L.Release(r), pc') && MayGive(pc, job, pc')
    ensures (pc.Linking? ==> r == L.ChainRegion(L.ChainOf(pc)))
  {
    if pc.Freeing? {
      r, pc' := L.FREE_LIST, if job.at == SeekData then L.WantData(pc.h) else L.Linking(pc.h);
    } else if pc.AppendingData? {
      r, pc' := L.WHOLE_DATA, L.WantEnd(pc.h);
    } else if pc.AppendingIndex? {
      r, pc' := L.INDEX_END, L.Linking(pc.h);
    } else {
      r, pc' := L.ChainRegion(pc.h), L.Idle;
    }
  }

  lemma LeaverAnswered(pc: L.Pc, job: Job)
    requires PcOk(pc, job) && Leaving(pc, job.at) && pc.Linking?
    ensures job.at == Answered && job.reply.Some?
  {
  }

  lemma LeaverSteps(s: State, g: Ghost, i: Pid)
    requires Inv(s, g) && i in s.jobs && i in s.locks.pcs && Leaving(s.locks.pcs[i], s.jobs[i].at)
    ensures CanStep(s, i)
  {
    hide Inv, Spots, Threaded, ClaimsOk, RecsApart, KeysOk, Procs, Coupled, Knows, JobOk, PcOk, L.Inv, Leaving;
    hide MayGive, Reread;
    hide L.Step, L.Moves, L.ChainOf;
    Parts(s, g);
    LocksHold(s, g);
    ProcIs(s, g, i);
    var pc, job := s.locks.pcs[i], s.jobs[i];
    JobKnows(pc, job, s.mem, g);
    var r, pc' := LeavesTo(pc, job);
    var locks' := Releases(s.locks, i, r, pc');
    if pc.Linking? {
      LeaverAnswered(pc, job);
      assert Step(s, i, Finish, s.(locks := locks', jobs := s.jobs - {i}, log := s.log + [(job.op, job.reply.value)]));
    } else {
      var jobs' := if pc.Fetching? then s.jobs - {i} else s.jobs[i := Reread(pc, job, s.mem)];
      assert Step(s, i, Give(r), s.(locks := locks', jobs := jobs'));
    }
  }

  // ---- everybody ----------------------------------------------------------------------------------------------

  /** A call in progress that waits for no lock goes on. */
  lemma CallSteps(s: State, g: Ghost, i: Pid)
    requires Inv(s, g) && i in s.jobs && i in s.locks.pcs && L.Wanted(s.locks.pcs[i]) == {}
    ensures CanStep(s, i)
  {
    hide Inv, Procs, Knows, JobOk, CanStep, Working, Leaving, L.Wanted;
    HasProc(s, g, i);
    var pc, job := s.locks.pcs[i], s.jobs[i];
    JobKnows(pc, job, s.mem, g);
    NextThing(pc, job);
    hide PcOk;
    if Working(pc, job.at) {
      WorkerSteps(s, g, i);
    } else if Leaving(pc, job.at) {
      LeaverSteps(s, g, i);
    } else if pc.Searching? {
      SearcherSteps(s, g, i);
    } else if pc.Fetching? {
      FetcherSteps(s, g, i);
    } else {
      FitterSteps(s, g, i);
    }
  }

  lemma JoblessPc(s: State, g: Ghost, i: Pid)
    requires Coupled(s, g) && i in s.locks.pcs && i !in s.jobs
    ensures var pc := s.locks.pcs[i]; pc.Idle? || pc.WantIndex? || pc.Initialising? || pc.WantList? || pc.Listing?
  {
    hide A.Inv, A.Slice, A.Midway, A.NeedsPut, AbsJobs, Hash, SpecStep;
    ViewHere(s, g, i);
    AbsAt(s.jobs, i);
  }

  /** A process with no call in progress can go on too. */
  lemma JoblessSteps(s: State, g: Ghost, i: Pid)
    requires Inv(s, g) && i !in s.jobs && i in s.locks.pcs && L.Wanted(s.locks.pcs[i]) == {}
    ensures CanStep(s, i)
  {
    hide Inv, Spots, Threaded, ClaimsOk, RecsApart, KeysOk, Procs, Coupled, L.Inv, L.Step;
    Parts(s, g);
    LocksHold(s, g);
    JoblessPc(s, g, i);
    var pc := s.locks.pcs[i];
    if pc.Idle? {
      var locks' := Proceeds(s.locks, i, L.WantList);
      assert Step(s, i, Scan, s.(locks := locks'));
    } else {
      var r := if pc.Listing? then L.FREE_LIST else L.WHOLE_INDEX;
      var locks' := Releases(s.locks, i, r, L.Idle);
      assert Step(s, i, Give(r), s.(locks := locks'));
    }
  }

  /** A process whose lock nobody holds gets it. */
  lemma WaiterSteps(s: State, g: Ghost, i: Pid, l: L.Lock)
    requires Inv(s, g) && i in s.locks.pcs && l in L.Wanted(s.locks.pcs[i]) && forall j :: !L.WaitsFor(s.locks, i, j)
    ensures CanStep(s, i)
  {
    hide Inv, L.Inv, L.Wanted, L.Moves, L.BlockedBy;
    LocksHold(s, g);
    var pc' := L.Granted(s.locks.pcs[i], l);
    forall j ensures !L.BlockedBy(s.locks, i, l, j) {
      assert !L.WaitsFor(s.locks, i, j);
    }
    TableHas(s.locks, i);
    var locks' := L.State(s.locks.pcs[i := pc'], s.locks.held[i := s.locks.held[i] + {l}]);
    assert L.Step(s.locks, i, L.Acquire(l), locks');
    assert Step(s, i, Take(l), s.(locks := locks'));
  }

  lemma TableHas(s: L.State, i: Pid)
    requires L.Inv(s) && i in s.pcs
    ensures i in s.held
  {
  }

  lemma FreeToStep(s: State, g: Ghost, i: Pid)
    requires Inv(s, g) && i in s.locks.pcs && forall j :: !L.WaitsFor(s.locks, i, j)
    ensures CanStep(s, i)
  {
    hide Inv, CanStep, L.Wanted, L.WaitsFor;
    if l :| l in L.Wanted(s.locks.pcs[i]) {
      WaiterSteps(s, g, i, l);
    } else if i in s.jobs {
      CallSteps(s, g, i);
    } else {
      JoblessSteps(s, g, i);
    }
  }

  /** Behind every process, at every moment of a run, there is one that can take its next step:
      itself, or one it waits for in the end. */
  lemma SomeoneCanStep(run: seq<State>, k: nat, i: Pid) returns (path: seq<Pid>)
    requires Run(run) && k < |run| && i in run[k].locks.pcs
    ensures path != [] && path[0] == i && L.WaitPath(run[k].locks, path) && CanStep(run[k], path[|path| - 1])
  {
    hide Run, Inv, L.WaitPath, CanStep;
    var g := RunInv(run, k);
    path := WaitChain(run[k], g, i);
  }

  lemma {:induction false} WaitChain(s: State, g: Ghost, i: Pid) returns (path: seq<Pid>)
    requires Inv(s, g) && i in s.locks.pcs
    ensures path != [] && path[0] == i && L.WaitPath(s.locks, path) && CanStep(s, path[|path| - 1])
    decreases 4 - L.Level(s.locks.pcs[i])
  {
    hide Inv, CanStep, L.WaitsFor, L.Inv;
    if j :| L.WaitsFor(s.locks, i, j) {
      LocksHold(s, g);
      L.WaitLevel(s.locks, i, j);
      L.AtMostFour(s.locks.pcs[j]);
      var rest := WaitChain(s, g, j);
      path := [i] + rest;
      forall n | 0 <= n < |path| - 1 ensures L.WaitEdge(s.locks, path, n) {
        if n > 0 {
          assert L.WaitEdge(s.locks, rest, n - 1);
        }
      }
    } else {
      FreeToStep(s, g, i);
      path := [i];
    }
  }
}
