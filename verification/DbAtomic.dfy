/**
  The call-by-call view of processes calling db_fetch, db_store and db_delete at the same
  time under the lock protocol of DbLocks.  What is shared here is the contents of each hash
  chain as a map; a call reads and changes its chain in three moments, while it holds the
  chain's lock.  The files themselves, with their records, free list and ends, are in
  DbShared, whose runs refine the runs of this module.
 */
module DbAtomic {
  import opened Common
  import opened DbFormat
  import opened DbContents
  import opened DbSpec
  import L = DbLocks

  type Pid = L.Pid

  predicate GoodFlag(flag: int) {
    flag == DB_INSERT || flag == DB_REPLACE || flag == DB_STORE
  }

  /** A call in progress: what it will return once that is known, and what it still has to
      do to its chain: take the old record off, put the new one on. */
  datatype Job = Job(op: Op, reply: Option<Reply>, remove: bool, put: bool)

  /** `dict` and `log` are history: the plain map, and the calls with their answers in the
      order in which they took effect. */
  datatype State = State(
    locks: L.State, chains: map<nat, Dict>, jobs: map<Pid, Job>, dict: Dict, log: seq<(Op, Reply)>)

  /** The part of the map that chain h holds. */
  function Slice(d: Dict, h: nat): Dict {
    map k | k in d && Hash(k) == h :: d[k]
  }

  // ---- the steps ---------------------------------------------------------------------------

  /** db_store and db_delete take the old record off its chain. */
  predicate NeedsRemove(op: Op, d: Dict) {
    match op
    case FetchOp(_) => false
    case DeleteOp(key) => key in d
    case StoreOp(key, data, flag) => key in d && flag != DB_INSERT && |d[key]| != |data|
  }

  /** db_store puts a record on its chain, or new data in the record there. */
  predicate NeedsPut(op: Op, d: Dict) {
    op.StoreOp? && SpecStore(d, op.key, op.data, op.flag).1 == 0
  }

  /** Where the code goes after the search of the chain. */
  function AfterSearch(op: Op, d: Dict, h: nat): L.Pc {
    match op
    case FetchOp(_) => L.Linking(h)
    case DeleteOp(key) => if key in d then L.WantFree(h, L.Finish) else L.Linking(h)
    case StoreOp(key, data, flag) =>
      if SpecStore(d, key, data, flag).1 != 0 then L.Linking(h)
      else if key !in d then L.WantFree(h, L.AppendOrFinish)
      else if |d[key]| != |data| then L.WantFree(h, L.Append)
      else L.Linking(h)
  }

  datatype Move =
    | Refuse(op: Op)          // db_store with an unknown flag returns at once
    | Begin(op: Op)
    | Scan                    // db_nextrec starts
    | Take(lock: L.Lock)      // a lock is granted
    | Look                    // db_fetch searches its chain and reads the data
    | Decide                  // db_store or db_delete has searched its chain
    | Erase                   // _db_dodelete unlinks the old record
    | Place                   // the new record is linked in, or the data are overwritten
    | Give(region: L.Region)  // a lock is released that does not end a db_store or db_delete
    | Finish                  // the chain is unlocked after a db_store or db_delete

  function First(op: Op): L.Pc {
    if op.FetchOp? then L.WantRead(Hash(op.key)) else L.WantWrite(Hash(op.key), op.StoreOp?)
  }

  ghost predicate Step(s: State, i: Pid, mv: Move, s': State) {
    && i in s.locks.pcs
    && var pc, h := s.locks.pcs[i], L.ChainOf(s.locks.pcs[i]);
       && h in s.chains
       && match mv
          case Refuse(op) =>
            pc.Idle? && op.StoreOp? && !GoodFlag(op.flag) && s' == s.(log := s.log + [(op, Code(-1))])
          case Begin(op) =>
            && pc.Idle? && (op.StoreOp? ==> GoodFlag(op.flag))
            && L.Step(s.locks, i, L.Proceed, s'.locks) && s'.locks.pcs[i] == First(op)
            && s' == s.(locks := s'.locks, jobs := s.jobs[i := Job(op, None, false, false)])
          case Scan =>
            && pc.Idle? && L.Step(s.locks, i, L.Proceed, s'.locks) && s'.locks.pcs[i].WantList?
            && s' == s.(locks := s'.locks)
          case Take(lock) => L.Step(s.locks, i, L.Acquire(lock), s'.locks) && s' == s.(locks := s'.locks)
          case Look =>
            && pc.Fetching? && i in s.jobs && s.jobs[i].reply == None
            && var job := s.jobs[i]; var reply := Text(SpecFetch(s.chains[h], job.op.key));
               s' == s.(jobs := s.jobs[i := job.(reply := Some(reply))], log := s.log + [(job.op, reply)])
          case Decide =>
            && pc.Searching? && i in s.jobs
            && var job, d := s.jobs[i], s.chains[h];
               && L.Step(s.locks, i, L.Proceed, s'.locks) && s'.locks.pcs[i] == AfterSearch(job.op, d, h)
               && s' == s.(locks := s'.locks, jobs := s.jobs[i := Decided(job.op, d)])
          case Erase =>
            && pc.Freeing? && i in s.jobs && s.jobs[i].remove
            && s' == s.(chains := s.chains[h := s.chains[h] - {s.jobs[i].op.key}],
                        jobs := s.jobs[i := s.jobs[i].(remove := false)])
          case Place =>
            && pc.Linking? && i in s.jobs && s.jobs[i].put && s.jobs[i].op.StoreOp?
            && s' == s.(chains := s.chains[h := s.chains[h][s.jobs[i].op.key := s.jobs[i].op.data]],
                        jobs := s.jobs[i := s.jobs[i].(put := false)])
          case Give(region) =>
            && L.Step(s.locks, i, L.Release(region), s'.locks) && !pc.Linking?
            && (pc.Freeing? ==> i in s.jobs && !s.jobs[i].remove)
            && (pc.Fetching? ==> i in s.jobs && s.jobs[i].reply.Some?)
            && s' == s.(locks := s'.locks, jobs := if pc.Fetching? then s.jobs - {i} else s.jobs)
          case Finish =>
            && pc.Linking? && L.Step(s.locks, i, L.Release(L.ChainRegion(h)), s'.locks)
            && i in s.jobs && s.jobs[i].reply.Some? && !s.jobs[i].put
            && s' == s.(locks := s'.locks, jobs := s.jobs - {i}, dict := SpecStep(s.dict, s.jobs[i].op).0,
                        log := s.log + [(s.jobs[i].op, s.jobs[i].reply.value)])
  }

  function Decided(op: Op, d: Dict): Job {
    Job(op, Some(SpecStep(d, op).1), NeedsRemove(op, d), NeedsPut(op, d))
  }

  ghost predicate Initial(s: State) {
    && L.Initial(s.locks) && s.jobs == map[] && s.dict == map[] && s.log == []
    && forall h | 0 <= h < NHASH :: h in s.chains && s.chains[h] == map[]
  }

  // ---- the invariant -------------------------------------------------------------------------

  /** The thread may be changing its chain. */
  predicate Changing(pc: L.Pc) {
    L.WritesChain(pc) && !pc.Searching?
  }

  /** Chain contents part of the way from `slice` to what the call makes of it. */
  predicate Midway(op: Op, job: Job, slice: Dict, chain: Dict) {
    && (job.remove ==> NeedsRemove(op, slice)) && (job.put ==> NeedsPut(op, slice))
    && var base := if NeedsRemove(op, slice) && !job.remove then slice - {op.key} else slice;
       chain == if NeedsPut(op, slice) && !job.put && op.StoreOp? then base[op.key := op.data] else base
  }

  /** A process at `pc` on a chain with these contents, where the map has `slice`. */
  predicate JobOk(pc: L.Pc, has: Option<Job>, chain: Dict, slice: Dict) {
    && (has.Some? <==> pc.WantRead? || pc.Fetching? || pc.WantWrite? || L.WritesChain(pc))
    && (has.Some? ==>
          && var job := has.value;
             && Hash(job.op.key) == L.ChainOf(pc)
             && (job.op.FetchOp? <==> pc.WantRead? || pc.Fetching?)
             && (job.op.StoreOp? ==> GoodFlag(job.op.flag))
             && (job.remove ==> pc.WantFree? || pc.Freeing?)
             && (pc.WantFree? || pc.Freeing? ==> (job.put <==> NeedsPut(job.op, slice)))
             && (Changing(pc) ==> job.reply == Some(SpecStep(slice, job.op).1) && Midway(job.op, job, slice, chain)))
  }

  function JobAt(s: State, i: Pid): Option<Job> {
    if i in s.jobs then Some(s.jobs[i]) else None
  }

  ghost predicate ProcOk(s: State, i: Pid) {
    && i in s.locks.pcs
    && var h := L.ChainOf(s.locks.pcs[i]);
       h < NHASH && h in s.chains && JobOk(s.locks.pcs[i], JobAt(s, i), s.chains[h], Slice(s.dict, h))
  }

  /** Nobody is changing chain h. */
  ghost predicate Quiet(s: State, h: nat) {
    forall i | i in s.locks.pcs :: !(Changing(s.locks.pcs[i]) && L.ChainOf(s.locks.pcs[i]) == h)
  }

  ghost predicate ChainOk(s: State, h: nat) {
    h in s.chains && (Quiet(s, h) ==> s.chains[h] == Slice(s.dict, h))
  }

  function Ops(log: seq<(Op, Reply)>): (ops: seq<Op>)
    ensures |ops| == |log|
  {
    seq(|log|, k requires 0 <= k < |log| => log[k].0)
  }

  function Replies(log: seq<(Op, Reply)>): (replies: seq<Reply>)
    ensures |replies| == |log|
  {
    seq(|log|, k requires 0 <= k < |log| => log[k].1)
  }

  /** The calls logged so far, one after the other on the plain map, give these answers and this map. */
  ghost predicate Replayed(s: State) {
    SpecRun(map[], Ops(s.log)) == (s.dict, Replies(s.log))
  }

  ghost predicate Inv(s: State) {
    && L.Inv(s.locks) && Replayed(s)
    && (forall i {:trigger ProcOk(s, i)} | i in s.locks.pcs :: ProcOk(s, i))
    && (forall h {:trigger ChainOk(s, h)} | 0 <= h < NHASH :: ChainOk(s, h))
    && (forall i | i in s.jobs :: i in s.locks.pcs)
  }

  // ---- the log ---------------------------------------------------------------------------------

  lemma Logged(log: seq<(Op, Reply)>, d: Dict, op: Op, reply: Reply)
    requires SpecRun(map[], Ops(log)) == (d, Replies(log)) && reply == SpecStep(d, op).1
    ensures SpecRun(map[], Ops(log + [(op, reply)])) == (SpecStep(d, op).0, Replies(log + [(op, reply)]))
  {
    hide SpecStep;
    var more := log + [(op, reply)];
    var n := |log|;
    assert Ops(more)[..n] == Ops(log) && Ops(more)[n] == op;
    assert Replies(more) == Replies(log) + [reply];
  }

  /** A call depends on its own chain's part of the map, and changes only that. */
  lemma SliceStep(d: Dict, op: Op, h: nat)
    ensures Hash(op.key) == h ==> SpecStep(Slice(d, h), op).1 == SpecStep(d, op).1
    ensures Hash(op.key) == h ==> Slice(SpecStep(d, op).0, h) == SpecStep(Slice(d, h), op).0
    ensures Hash(op.key) != h ==> Slice(SpecStep(d, op).0, h) == Slice(d, h)
  {
    hide Hash;
  }

  /** Once nothing is left to do the chain holds what the call makes of it. */
  lemma MidwayDone(op: Op, job: Job, slice: Dict, chain: Dict)
    requires Midway(op, job, slice, chain) && !job.remove && !job.put && (op.StoreOp? ==> GoodFlag(op.flag))
    ensures chain == SpecStep(slice, op).0
  {
  }

  lemma DecidedMidway(op: Op, slice: Dict)
    requires op.StoreOp? ==> GoodFlag(op.flag)
    ensures Midway(op, Decided(op, slice), slice, slice)
  {
  }

  lemma ErasedMidway(op: Op, job: Job, slice: Dict, chain: Dict)
    requires Midway(op, job, slice, chain) && job.remove && (job.put <==> NeedsPut(op, slice))
    ensures Midway(op, job.(remove := false), slice, chain - {op.key})
  {
  }

  lemma PlacedMidway(op: Op, job: Job, slice: Dict, chain: Dict)
    requires Midway(op, job, slice, chain) && !job.remove && job.put && op.StoreOp?
    ensures Midway(op, job.(put := false), slice, chain[op.key := op.data])
  {
  }

  // ---- every step keeps the invariant --------------------------------------------------------------

  lemma OtherKeeps(s: State, s': State, j: Pid)
    requires ProcOk(s, j) && j in s'.locks.pcs && s'.locks.pcs[j] == s.locks.pcs[j] && JobAt(s', j) == JobAt(s, j)
    requires s'.chains.Keys == s.chains.Keys
    requires var h := L.ChainOf(s.locks.pcs[j]);
      !L.WritesChain(s.locks.pcs[j]) || (s'.chains[h] == s.chains[h] && Slice(s'.dict, h) == Slice(s.dict, h))
    ensures ProcOk(s', j)
  {
    hide Hash, Midway, SpecStep, NeedsPut, Slice;
  }

  /** No chain that was being changed falls quiet by this step. */
  lemma QuietBefore(s: State, s': State, i: Pid, h: nat)
    requires i in s.locks.pcs && i in s'.locks.pcs && s'.locks.pcs == s.locks.pcs[i := s'.locks.pcs[i]]
    requires var pc, pc' := s.locks.pcs[i], s'.locks.pcs[i];
      Changing(pc) && L.ChainOf(pc) == h ==> Changing(pc') && L.ChainOf(pc') == h
    requires Quiet(s', h)
    ensures Quiet(s, h)
  {
    hide Changing, L.ChainOf;
    forall j | j in s.locks.pcs ensures !(Changing(s.locks.pcs[j]) && L.ChainOf(s.locks.pcs[j]) == h) {
      assert j != i ==> s'.locks.pcs[j] == s.locks.pcs[j];
    }
  }

  /** Whoever reads or searches a chain finds there its part of the map. */
  lemma SeesSlice(s: State, i: Pid)
    requires Inv(s) && i in s.locks.pcs && (s.locks.pcs[i].Fetching? || s.locks.pcs[i].Searching?)
    ensures var h := L.ChainOf(s.locks.pcs[i]); h in s.chains && h < NHASH && s.chains[h] == Slice(s.dict, h)
  {
    hide JobOk, Slice, Replayed, L.Inv;
    assert ProcOk(s, i);
    var h := L.ChainOf(s.locks.pcs[i]);
    forall j | j in s.locks.pcs ensures !(Changing(s.locks.pcs[j]) && L.ChainOf(s.locks.pcs[j]) == h) {
      if j != i && Changing(s.locks.pcs[j]) && L.ChainOf(s.locks.pcs[j]) == h {
        L.Alone(s.locks, j, i, L.Chain(h));
      }
    }
    assert ChainOk(s, h);
  }

  /** While one process has a chain to itself, no other writes it. */
  lemma SoleWriter(s: State, i: Pid, j: Pid)
    requires Inv(s) && i in s.locks.pcs && j in s.locks.pcs && i != j && L.WritesChain(s.locks.pcs[i])
    ensures !(L.WritesChain(s.locks.pcs[j]) && L.ChainOf(s.locks.pcs[j]) == L.ChainOf(s.locks.pcs[i]))
  {
    hide JobOk, Slice, Replayed, L.Inv;
    L.Alone(s.locks, i, j, L.Chain(L.ChainOf(s.locks.pcs[i])));
  }

  /** A step of process i after which chains and map are as before. */
  lemma SameDataInv(s: State, i: Pid, s': State)
    requires Inv(s) && i in s.locks.pcs && i in s'.locks.pcs && s'.locks.pcs == s.locks.pcs[i := s'.locks.pcs[i]]
    requires L.Inv(s'.locks) && Replayed(s') && s'.chains == s.chains && s'.dict == s.dict
    requires forall j | j != i :: JobAt(s', j) == JobAt(s, j)
    requires ProcOk(s', i)
    requires Changing(s.locks.pcs[i]) ==>
      Changing(s'.locks.pcs[i]) && L.ChainOf(s'.locks.pcs[i]) == L.ChainOf(s.locks.pcs[i])
    ensures Inv(s')
  {
    hide JobOk, Slice, L.Inv, Changing, Replayed, Quiet, L.ChainOf, L.WritesChain;
    forall j | j in s'.locks.pcs ensures ProcOk(s', j) {
      if j != i {
        assert ProcOk(s, j);
        OtherKeeps(s, s', j);
      }
    }
    forall h | 0 <= h < NHASH ensures ChainOk(s', h) {
      assert ChainOk(s, h);
      if Quiet(s', h) {
        QuietBefore(s, s', i, h);
      }
    }
    forall j | j in s'.jobs ensures j in s'.locks.pcs {
      assert j != i ==> JobAt(s', j) == JobAt(s, j);
    }
  }

  /** Locks change hands; what the process still has to do stays the same. */
  lemma MoveJob(pc: L.Pc, a: L.Action, pc': L.Pc, has: Option<Job>, chain: Dict, slice: Dict)
    requires L.Moves(pc, a, pc') && JobOk(pc, has, chain, slice)
    requires a.Acquire? || (a.Release? && !pc.Linking? && !pc.Fetching?)
    requires pc.Freeing? ==> has.Some? && !has.value.remove
    ensures JobOk(pc', has, chain, slice)
    ensures has.Some? ==> L.ChainOf(pc') == L.ChainOf(pc)
    ensures Changing(pc) ==> Changing(pc')
  {
    hide Hash, Midway, SpecStep, NeedsPut;
  }

  lemma NoJob(pc: L.Pc, chain: Dict, slice: Dict, chain': Dict, slice': Dict)
    requires JobOk(pc, None, chain, slice)
    ensures JobOk(pc, None, chain', slice')
  {
  }

  lemma LockInv(s: State, i: Pid, a: L.Action, s': State)
    requires Inv(s) && ProcOk(s, i) && L.Step(s.locks, i, a, s'.locks) && s' == s.(locks := s'.locks)
    requires a.Acquire? || (a.Release? && !s.locks.pcs[i].Linking? && !s.locks.pcs[i].Fetching?)
    requires s.locks.pcs[i].Freeing? ==> i in s.jobs && !s.jobs[i].remove
    ensures Inv(s')
  {
    hide Inv, JobOk, Slice, L.Inv, L.Step, L.Moves, L.ChainOf, Changing, Replayed;
    LockStep(s, i, a, s');
    var pc, pc', h := s.locks.pcs[i], s'.locks.pcs[i], L.ChainOf(s.locks.pcs[i]);
    MoveJob(pc, a, pc', JobAt(s, i), s.chains[h], Slice(s.dict, h));
    if JobAt(s, i) == None {
      var h' := L.ChainOf(pc');
      HasChain(s, h');
      NoJob(pc', s.chains[h], Slice(s.dict, h), s.chains[h'], Slice(s.dict, h'));
    }
    ChangingHasJob(pc, JobAt(s, i), s.chains[h], Slice(s.dict, h));
    Replaying(s);
    SameLog(s, s');
    SameDataInv(s, i, s');
  }

  lemma ChangingHasJob(pc: L.Pc, has: Option<Job>, chain: Dict, slice: Dict)
    requires JobOk(pc, has, chain, slice)
    ensures Changing(pc) ==> has.Some?
  {
    hide Hash, Midway, SpecStep, NeedsPut;
  }

  lemma LockStep(s: State, i: Pid, a: L.Action, s': State)
    requires Inv(s) && L.Step(s.locks, i, a, s'.locks)
    ensures L.Inv(s'.locks) && L.Moves(s.locks.pcs[i], a, s'.locks.pcs[i])
    ensures i in s'.locks.pcs && s'.locks.pcs == s.locks.pcs[i := s'.locks.pcs[i]] && L.ChainOf(s'.locks.pcs[i]) < NHASH
  {
    hide JobOk, Slice, Replayed, L.Moves, L.Holds, L.ChainOf;
    L.StepInv(s.locks, i, a, s'.locks);
  }

  lemma HasChain(s: State, h: nat)
    requires Inv(s) && h < NHASH
    ensures h in s.chains
  {
    hide ProcOk, L.Inv, Replayed, Slice, Quiet;
    assert ChainOk(s, h);
  }

  lemma FirstOk(op: Op, chain: Dict, slice: Dict)
    requires op.StoreOp? ==> GoodFlag(op.flag)
    ensures JobOk(First(op), Some(Job(op, None, false, false)), chain, slice)
    ensures L.ChainOf(First(op)) == Hash(op.key) && !Changing(L.Idle)
  {
    hide Hash, Midway, SpecStep, NeedsPut;
  }

  lemma ScanOk(pc: L.Pc, chain: Dict, slice: Dict)
    requires pc.WantList?
    ensures JobOk(pc, None, chain, slice) && L.ChainOf(pc) == 0 && !Changing(L.Idle)
  {
  }

  lemma Replaying(s: State)
    requires Inv(s)
    ensures Replayed(s) && L.Inv(s.locks)
  {
    hide ProcOk, ChainOk, L.Inv, Replayed;
  }

  /** An idle process has no job. */
  lemma IdleHasNone(s: State, i: Pid)
    requires ProcOk(s, i) && s.locks.pcs[i].Idle?
    ensures i !in s.jobs
  {
    hide Slice, Midway, SpecStep, Hash;
  }

  /** A call that begins has done nothing yet. */
  lemma BeginInv(s: State, i: Pid, op: Op, s': State)
    requires Inv(s) && ProcOk(s, i) && Step(s, i, Begin(op), s')
    ensures Inv(s')
  {
    hide Inv, Slice, L.Inv, L.Step, L.Moves, Replayed, JobOk, Hash, Changing, L.ChainOf, First, GoodFlag;
    LockStep(s, i, L.Proceed, s');
    HasChain(s, Hash(op.key));
    FirstOk(op, s.chains[Hash(op.key)], Slice(s.dict, Hash(op.key)));
    Replaying(s);
    SameLog(s, s');
    SameDataInv(s, i, s');
  }

  lemma ScanInv(s: State, i: Pid, s': State)
    requires Inv(s) && ProcOk(s, i) && Step(s, i, Scan, s')
    ensures Inv(s')
  {
    hide Inv, Slice, L.Inv, L.Step, L.Moves, Replayed, JobOk, Changing, L.ChainOf;
    LockStep(s, i, L.Proceed, s');
    IdleHasNone(s, i);
    HasChain(s, 0);
    ScanOk(s'.locks.pcs[i], s.chains[0], Slice(s.dict, 0));
    Replaying(s);
    SameLog(s, s');
    SameDataInv(s, i, s');
  }

  lemma RefuseInv(s: State, i: Pid, op: Op, s': State)
    requires Inv(s) && ProcOk(s, i) && Step(s, i, Refuse(op), s')
    ensures Inv(s')
  {
    Logged(s.log, s.dict, op, Code(-1));
    hide Slice, L.Inv, Quiet, Hash, Midway, JobOk;
    SameDataInv(s, i, s');
  }

  lemma LookOk(pc: L.Pc, job: Job, chain: Dict, slice: Dict, reply: Reply)
    requires JobOk(pc, Some(job), chain, slice) && pc.Fetching?
    ensures JobOk(pc, Some(job.(reply := Some(reply))), chain, slice) && job.op.FetchOp? &&
      Hash(job.op.key) == L.ChainOf(pc)
  {
    hide Hash, Midway, SpecStep, NeedsPut;
  }

  lemma FetchReply(d: Dict, op: Op, h: nat)
    requires op.FetchOp? && Hash(op.key) == h
    ensures Text(SpecFetch(Slice(d, h), op.key)) == SpecStep(d, op).1 && SpecStep(d, op).0 == d
  {
    hide Hash;
  }

  lemma LogGrows(s: State, op: Op, reply: Reply, s': State)
    requires Replayed(s) && s'.dict == SpecStep(s.dict, op).0 && reply == SpecStep(s.dict, op).1
    requires s'.log == s.log + [(op, reply)]
    ensures Replayed(s')
  {
    hide SpecStep, SpecRun;
    Logged(s.log, s.dict, op, reply);
  }

  /** db_fetch takes effect when it reads. */
  lemma LookInv(s: State, i: Pid, s': State)
    requires Inv(s) && ProcOk(s, i) && Step(s, i, Look, s')
    ensures Inv(s')
  {
    hide Inv, Slice, L.Inv, JobOk, Hash, Changing, L.ChainOf, SpecStep, SpecFetch, Replayed;
    var job, h := s.jobs[i], L.ChainOf(s.locks.pcs[i]);
    SeesSlice(s, i);
    var reply := Text(SpecFetch(s.chains[h], job.op.key));
    LookOk(s.locks.pcs[i], job, s.chains[h], Slice(s.dict, h), reply);
    FetchReply(s.dict, job.op, h);
    Replaying(s);
    LogGrows(s, job.op, reply, s');
    SameDataInv(s, i, s');
  }

  lemma DecideInv(s: State, i: Pid, s': State)
    requires Inv(s) && ProcOk(s, i) && Step(s, i, Decide, s')
    ensures Inv(s')
  {
    hide Inv, Slice, L.Inv, L.Step, L.Moves, Replayed, JobOk, Decided, AfterSearch, Changing, L.ChainOf;
    var job, h := s.jobs[i], L.ChainOf(s.locks.pcs[i]);
    SeesSlice(s, i);
    LockStep(s, i, L.Proceed, s');
    DecidedOk(job.op, s.chains[h], h, s.locks.pcs[i], job);
    Replaying(s);
    SameLog(s, s');
    SameDataInv(s, i, s');
  }

  lemma DecidedOk(op: Op, d: Dict, h: nat, pc: L.Pc, job: Job)
    requires JobOk(pc, Some(job), d, d) && job.op == op && pc.Searching? && L.ChainOf(pc) == h
    ensures JobOk(AfterSearch(op, d, h), Some(Decided(op, d)), d, d)
    ensures L.ChainOf(AfterSearch(op, d, h)) == h && !Changing(pc)
  {
    hide Hash, Midway;
    DecidedMidway(op, d);
  }

  lemma SameLog(s: State, s': State)
    requires Replayed(s) && s'.dict == s.dict && s'.log == s.log
    ensures Replayed(s')
  {
    hide SpecRun;
  }

  /** A step of process i that changes the chain it has to itself, and not the map. */
  lemma ChainStepInv(s: State, i: Pid, s': State)
    requires Inv(s) && ProcOk(s, i) && Changing(s.locks.pcs[i]) && s'.locks == s.locks && s'.dict == s.dict &&
      s'.log == s.log
    requires var h := L.ChainOf(s.locks.pcs[i]); h in s'.chains && s'.chains == s.chains[h := s'.chains[h]]
    requires forall j | j != i :: JobAt(s', j) == JobAt(s, j)
    requires ProcOk(s', i)
    ensures Inv(s')
  {
    hide JobOk, Slice, L.Inv, Replayed, L.ChainOf;
    var h0 := L.ChainOf(s.locks.pcs[i]);
    SameLog(s, s');
    forall j | j in s'.locks.pcs ensures ProcOk(s', j) {
      if j != i {
        assert ProcOk(s, j);
        SoleWriter(s, i, j);
        OtherKeeps(s, s', j);
      }
    }
    forall h | 0 <= h < NHASH ensures ChainOk(s', h) {
      assert ChainOk(s, h);
      if h != h0 && Quiet(s', h) {
        QuietBefore(s, s', i, h);
      }
    }
    forall j | j in s'.jobs ensures j in s'.locks.pcs {
      assert j != i ==> JobAt(s', j) == JobAt(s, j);
    }
  }

  lemma EraseOk(pc: L.Pc, job: Job, chain: Dict, slice: Dict)
    requires JobOk(pc, Some(job), chain, slice) && pc.Freeing? && job.remove
    ensures JobOk(pc, Some(job.(remove := false)), chain - {job.op.key}, slice) && Changing(pc)
  {
    hide Hash, Midway, SpecStep, NeedsPut;
    ErasedMidway(job.op, job, slice, chain);
  }

  lemma PlaceOk(pc: L.Pc, job: Job, chain: Dict, slice: Dict)
    requires JobOk(pc, Some(job), chain, slice) && pc.Linking? && job.put && job.op.StoreOp?
    ensures JobOk(pc, Some(job.(put := false)), chain[job.op.key := job.op.data], slice) && Changing(pc)
  {
    hide Hash, Midway, SpecStep, NeedsPut;
    PlacedMidway(job.op, job, slice, chain);
  }

  lemma EraseInv(s: State, i: Pid, s': State)
    requires Inv(s) && ProcOk(s, i) && Step(s, i, Erase, s')
    ensures Inv(s')
  {
    hide Inv, Slice, JobOk, Changing, L.ChainOf;
    var job, h := s.jobs[i], L.ChainOf(s.locks.pcs[i]);
    EraseOk(s.locks.pcs[i], job, s.chains[h], Slice(s.dict, h));
    ChainStepInv(s, i, s');
  }

  lemma PlaceInv(s: State, i: Pid, s': State)
    requires Inv(s) && ProcOk(s, i) && Step(s, i, Place, s')
    ensures Inv(s')
  {
    hide Inv, Slice, JobOk, Changing, L.ChainOf;
    var job, h := s.jobs[i], L.ChainOf(s.locks.pcs[i]);
    PlaceOk(s.locks.pcs[i], job, s.chains[h], Slice(s.dict, h));
    ChainStepInv(s, i, s');
  }

  /** db_fetch returns. */
  lemma ReturnInv(s: State, i: Pid, region: L.Region, s': State)
    requires Inv(s) && ProcOk(s, i) && s.locks.pcs[i].Fetching?
    requires L.Step(s.locks, i, L.Release(region), s'.locks) && s' == s.(locks := s'.locks, jobs := s.jobs - {i})
    ensures Inv(s')
  {
    hide Inv, Slice, L.Inv, L.Step, L.Holds, L.Moves, Replayed, JobOk, Changing, L.ChainOf;
    LockStep(s, i, L.Release(region), s');
    FetchEnds(s.locks.pcs[i], L.Release(region), s'.locks.pcs[i]);
    Replaying(s);
    SameLog(s, s');
    HasChain(s, 0);
    IdleOk(s.chains[0], Slice(s.dict, 0));
    SameDataInv(s, i, s');
  }

  lemma FetchEnds(pc: L.Pc, a: L.Action, pc': L.Pc)
    requires L.Moves(pc, a, pc') && (pc.Fetching? || pc.Linking?)
    ensures pc' == L.Idle && (pc.Fetching? ==> !Changing(pc))
  {
  }

  lemma GiveInv(s: State, i: Pid, region: L.Region, s': State)
    requires Inv(s) && ProcOk(s, i) && Step(s, i, Give(region), s')
    ensures Inv(s')
  {
    hide Inv, ProcOk, L.Step;
    if s.locks.pcs[i].Fetching? {
      ReturnInv(s, i, region, s');
    } else {
      LockInv(s, i, L.Release(region), s');
    }
  }

  /** What an ended db_store or db_delete leaves: the map has caught up with the chain. */
  predicate CaughtUp(s: State, i: Pid, h0: nat, s': State) {
    && i in s.locks.pcs && L.WritesChain(s.locks.pcs[i]) && L.ChainOf(s.locks.pcs[i]) == h0 && h0 in s.chains
    && s'.locks.pcs == s.locks.pcs[i := L.Idle] && s'.chains == s.chains && s'.jobs == s.jobs - {i}
    && s.chains[h0] == Slice(s'.dict, h0)
    && forall h | 0 <= h < NHASH && h != h0 :: Slice(s'.dict, h) == Slice(s.dict, h)
  }

  lemma CaughtUpProc(s: State, i: Pid, h0: nat, s': State, j: Pid)
    requires Inv(s) && CaughtUp(s, i, h0, s') && j in s'.locks.pcs && ProcOk(s, j)
    ensures ProcOk(s', j)
  {
    hide Inv, JobOk, Slice, L.ChainOf, L.WritesChain;
    if j == i {
      HasChain(s, 0);
      IdleOk(s'.chains[0], Slice(s'.dict, 0));
    } else {
      SoleWriter(s, i, j);
      OtherKeeps(s, s', j);
    }
  }

  lemma CaughtUpChain(s: State, i: Pid, h0: nat, s': State, h: nat)
    requires CaughtUp(s, i, h0, s') && h < NHASH && ChainOk(s, h)
    ensures ChainOk(s', h)
  {
    hide Slice, L.ChainOf, Changing, Quiet, L.WritesChain;
    if h != h0 && Quiet(s', h) {
      QuietBefore(s, s', i, h);
    }
  }

  /** db_store and db_delete take effect when they unlock their chain. */
  lemma FinishInv(s: State, i: Pid, s': State)
    requires Inv(s) && ProcOk(s, i) && Step(s, i, Finish, s')
    ensures Inv(s')
  {
    hide L.Inv, ProcOk, ChainOk, Replayed, Step, Slice;
    var h0 := FinishCatches(s, i, s');
    forall j | j in s'.locks.pcs ensures ProcOk(s', j) {
      assert ProcOk(s, j);
      CaughtUpProc(s, i, h0, s', j);
    }
    forall h | 0 <= h < NHASH ensures ChainOk(s', h) {
      assert ChainOk(s, h);
      CaughtUpChain(s, i, h0, s', h);
    }
  }

  lemma FinishCatches(s: State, i: Pid, s': State) returns (h0: nat)
    requires Inv(s) && ProcOk(s, i) && Step(s, i, Finish, s')
    ensures CaughtUp(s, i, h0, s') && Replayed(s') && L.Inv(s'.locks)
  {
    FinishData(s, i, s');
    FinishFrame(s, i, s');
    hide Inv, JobOk, Slice, Step, Replayed, L.Inv;
    h0 := L.ChainOf(s.locks.pcs[i]);
  }

  lemma FinishFrame(s: State, i: Pid, s': State)
    requires Inv(s) && Step(s, i, Finish, s')
    ensures L.Inv(s'.locks) && i in s'.locks.pcs && s'.locks.pcs == s.locks.pcs[i := L.Idle] &&
      s'.locks.pcs[i] == L.Idle
    ensures s'.chains == s.chains && s'.jobs == s.jobs - {i} && L.WritesChain(s.locks.pcs[i])
  {
    var r := L.Release(L.ChainRegion(L.ChainOf(s.locks.pcs[i])));
    LockStep(s, i, r, s');
    hide Inv, L.Step, L.Inv, L.Moves, SpecStep;
    FetchEnds(s.locks.pcs[i], r, s'.locks.pcs[i]);
  }

  lemma IdleOk(chain: Dict, slice: Dict)
    ensures JobOk(L.Idle, None, chain, slice) && L.ChainOf(L.Idle) == 0
  {
  }

  lemma FinishData(s: State, i: Pid, s': State)
    requires Inv(s) && ProcOk(s, i) && Step(s, i, Finish, s')
    ensures var h0 := L.ChainOf(s.locks.pcs[i]);
      && Replayed(s') && s.chains[h0] == Slice(s'.dict, h0)
      && forall h | 0 <= h < NHASH && h != h0 :: Slice(s'.dict, h) == Slice(s.dict, h)
  {
    hide Inv, L.Step, Hash, Slice, SpecStep, Replayed, Midway, NeedsPut;
    var job, h0 := s.jobs[i], L.ChainOf(s.locks.pcs[i]);
    Replaying(s);
    MidwayDone(job.op, job, Slice(s.dict, h0), s.chains[h0]);
    SliceStep(s.dict, job.op, h0);
    LogGrows(s, job.op, job.reply.value, s');
    forall h | 0 <= h < NHASH && h != h0 ensures Slice(s'.dict, h) == Slice(s.dict, h) {
      SliceStep(s.dict, job.op, h);
    }
  }

  lemma Processes(s: State, i: Pid)
    requires Inv(s) && i in s.locks.pcs
    ensures ProcOk(s, i)
  {
    hide ProcOk, ChainOk, L.Inv, Replayed;
  }

  lemma StepInv(s: State, i: Pid, mv: Move, s': State)
    requires Inv(s) && Step(s, i, mv, s')
    ensures Inv(s')
  {
    Processes(s, i);
    hide Inv, ProcOk, Step;
    match mv
    case Refuse(op) => RefuseInv(s, i, op, s');
    case Begin(op) => BeginInv(s, i, op, s');
    case Scan => ScanInv(s, i, s');
    case Take(lock) => TakeInv(s, i, lock, s');
    case Look => LookInv(s, i, s');
    case Decide => DecideInv(s, i, s');
    case Erase => EraseInv(s, i, s');
    case Place => PlaceInv(s, i, s');
    case Give(region) => GiveInv(s, i, region, s');
    case Finish => FinishInv(s, i, s');
  }

  lemma TakeInv(s: State, i: Pid, lock: L.Lock, s': State)
    requires Inv(s) && ProcOk(s, i) && Step(s, i, Take(lock), s')
    ensures Inv(s')
  {
    hide Inv, ProcOk;
    NotFreeing(s, i, lock, s');
    LockInv(s, i, L.Acquire(lock), s');
  }

  lemma NotFreeing(s: State, i: Pid, lock: L.Lock, s': State)
    requires Step(s, i, Take(lock), s')
    ensures !s.locks.pcs[i].Freeing?
  {
  }

  // ---- whole runs ---------------------------------------------------------------------------------

  ghost predicate Steps(s: State, s': State) {
    exists i, mv :: Step(s, i, mv, s')
  }

  ghost predicate Linked(run: seq<State>, k: nat) {
    k + 1 < |run| && Steps(run[k], run[k + 1])
  }

  ghost predicate Run(run: seq<State>) {
    && run != [] && Initial(run[0])
    && forall k {:trigger Linked(run, k)} | 0 <= k < |run| - 1 :: Linked(run, k)
  }

  lemma InitialInv(s: State)
    requires Initial(s)
    ensures Inv(s)
  {
    assert Ops([]) == [] && Replies([]) == [];
    forall i | i in s.locks.pcs ensures ProcOk(s, i) {
      assert s.locks.pcs[i] == L.Idle;
      IdleOk(s.chains[0], Slice(s.dict, 0));
    }
    forall h | 0 <= h < NHASH ensures ChainOk(s, h) {
      assert Slice(map[], h) == map[];
    }
  }

  lemma {:induction false} RunInv(run: seq<State>, k: nat)
    requires Run(run) && k < |run|
    ensures Inv(run[k])
  {
    hide Inv, Step, Initial;
    if k == 0 {
      InitialInv(run[0]);
    } else {
      RunInv(run, k - 1);
      assert Linked(run, k - 1);
      var i, mv :| Step(run[k - 1], i, mv, run[k]);
      StepInv(run[k - 1], i, mv, run[k]);
    }
  }

  /**
    The chain locks serialise the calls on the maps of the chains: in the order in which they
    took effect the calls have answered as calls on one plain map, and a chain that nobody is
    changing holds its part of that map.
   */
  lemma ChainsSerialise(run: seq<State>, k: nat)
    requires Run(run) && k < |run|
    ensures SpecRun(map[], Ops(run[k].log)) == (run[k].dict, Replies(run[k].log))
    ensures forall h | 0 <= h < NHASH && Quiet(run[k], h) ::
      h in run[k].chains && run[k].chains[h] == Slice(run[k].dict, h)
  {
    hide ProcOk, Slice, Quiet, SpecRun, Run, L.Inv;
    RunInv(run, k);
    forall h | 0 <= h < NHASH && Quiet(run[k], h) ensures h in run[k].chains &&
      run[k].chains[h] == Slice(run[k].dict, h) {
      assert ChainOk(run[k], h);
    }
  }
}
