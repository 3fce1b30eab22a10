/**
  The three-member System V semaphore of lib/semaph.c as a protocol: any number
  of processes call sem_create, sem_open, sem_op and sem_close on one key and may die
  at any step, when the kernel applies their SEM_UNDO adjustments.

  Each action is one system call.  Member [0] is the user's value, [1] counts
  down from BIGCOUNT with every attachment, [2] is the lock.
 */
module Semaphore {
  import opened Common

  const BIGCOUNT := 10000

  type Pid = nat

  /** The set in the kernel; `id` tells one incarnation from another. */
  datatype SemSet = SemSet(id: nat, v0: nat, v1: nat, v2: nat)

  /** Where a process stands in sem_create, sem_open or sem_close. */
  datatype Pc =
    | Idle        // in its own code
    | Again       // sem_create, before semget
    | Lock        // sem_create, before semop(op_lock)
    | Check       // sem_create, locked, before GETVAL
    | Set0        // sem_create, before SETVAL of [0]
    | Set1        // sem_create, before SETVAL of [1]
    | EndCreate   // sem_create, before semop(op_endcreate)
    | Opening     // sem_open, before semop(op_open)
    | CloseCheck  // sem_close, locked, before GETVAL
    | Remove      // sem_close, before IPC_RMID
    | Unlock      // sem_close, before semop(op_unlock)

  /** A process: position, semaphore id, and kernel undo adjustments for the set. */
  datatype Proc = Proc(pc: Pc, id: nat, adj0: int, adj1: int, adj2: int)

  /** History variables: `att` counts the attachments each process has outstanding, `inited`
      says that the current set was initialised, `holder` is the process that last locked
      [2].  The calls themselves do not read them; `att` only limits who calls: sem_op and
      sem_close are called by processes that are attached to the set that exists. */
  datatype State = State(sem: Option<SemSet>, nextId: nat, procs: map<Pid, Proc>, att: multiset<Pid>, inited: bool,
                         holder: Option<Pid>)

  datatype Action =
    | Spawn(p: Pid)
    | Create(p: Pid)
    | Get(p: Pid)
    | LockIt(p: Pid)
    | LockGone(p: Pid)
    | GetVal(p: Pid)
    | SetVal0(p: Pid, initval: nat)
    | SetVal1(p: Pid)
    | FinishCreate(p: Pid)
    | OpenGet(p: Pid)
    | OpenIt(p: Pid)
    | SemOp(p: Pid, amount: int)
    | CloseLock(p: Pid)
    | CloseGetVal(p: Pid)
    | RemoveSet(p: Pid)
    | UnlockIt(p: Pid)
    | Crash(p: Pid)

  predicate InCs(pc: Pc) {
    !(pc.Idle? || pc.Again? || pc.Lock? || pc.Opening?)
  }

  function At(s: State, p: Pid, pc: Pc): State
    requires p in s.procs
  {
    s.(procs := s.procs[p := s.procs[p].(pc := pc)])
  }

  predicate Mine(s: State, p: Pid) {
    p in s.procs && s.sem.Some? && s.sem.value.id == s.procs[p].id
  }

  /** Undo on exit: a value never goes below zero. */
  function Undone(v: nat, adj: int): nat {
    if v + adj < 0 then 0 else v + adj
  }

  function ClearAdj(procs: map<Pid, Proc>, m: nat): map<Pid, Proc> {
    map q | q in procs ::
      if m == 0 then procs[q].(adj0 := 0) else if m == 1 then procs[q].(adj1 := 0)
      else procs[q].(adj0 := 0, adj1 := 0, adj2 := 0)
  }

  /** The effect of one action, where the kernel allows it now. */
  ghost predicate Next(s: State, a: Action, s': State) {
    var p := a.p;
    if a.Spawn? then
      p !in s.procs && s' == s.(procs := s.procs[p := Proc(Idle, 0, 0, 0, 0)])
    else
      && p in s.procs
      && var q := s.procs[p];
         match a
         case Create(_) => q.pc.Idle? && s' == At(s, p, Again)
         case Get(_) =>
           && q.pc.Again?
           && (if s.sem.Some?
               then s' == s.(procs := s.procs[p := q.(pc := Lock, id := s.sem.value.id)])
               else s' == s.(sem := Some(SemSet(s.nextId, 0, 0, 0)), nextId := s.nextId + 1, inited := false,
                             procs := s.procs[p := q.(pc := Lock, id := s.nextId)]))
         case LockIt(_) =>
           && q.pc.Lock? && Mine(s, p) && s.sem.value.v2 == 0
           && s' == s.(sem := Some(s.sem.value.(v2 := 1)), holder := Some(p),
                       procs := s.procs[p := q.(pc := Check, adj2 := q.adj2 - 1)])
         case LockGone(_) => q.pc.Lock? && !Mine(s, p) && s' == At(s, p, Again)
         case GetVal(_) =>
           && q.pc.Check? && Mine(s, p)
           && s' == At(s, p, if s.sem.value.v1 == 0 then Set0 else EndCreate)
         case SetVal0(_, initval) =>
           && q.pc.Set0? && Mine(s, p)
           && s' == s.(sem := Some(s.sem.value.(v0 := initval)),
                       procs := ClearAdj(s.procs[p := q.(pc := Set1)], 0))
         case SetVal1(_) =>
           && q.pc.Set1? && Mine(s, p)
           && s' == s.(sem := Some(s.sem.value.(v1 := BIGCOUNT)), inited := true,
                       procs := ClearAdj(s.procs[p := q.(pc := EndCreate)], 1))
         case FinishCreate(_) =>
           && q.pc.EndCreate? && Mine(s, p) && s.sem.value.v1 >= 1 && s.sem.value.v2 >= 1
           && s' == s.(sem := Some(s.sem.value.(v1 := s.sem.value.v1 - 1, v2 := s.sem.value.v2 - 1)),
                       att := s.att + multiset{p}, holder := None,
                       procs := s.procs[p := q.(pc := Idle, adj1 := q.adj1 + 1, adj2 := q.adj2 + 1)])
         case OpenGet(_) =>
           && q.pc.Idle?
           && s' == if s.sem.Some? then s.(procs := s.procs[p := q.(pc := Opening, id := s.sem.value.id)]) else s
         case OpenIt(_) =>
           && q.pc.Opening? && Mine(s, p) && s.sem.value.v1 >= 1
           && s' == s.(sem := Some(s.sem.value.(v1 := s.sem.value.v1 - 1)), att := s.att + multiset{p},
                       procs := s.procs[p := q.(pc := Idle, adj1 := q.adj1 + 1)])
         case SemOp(_, amount) =>
           && q.pc.Idle? && p in s.att && amount != 0 && Mine(s, p) && s.sem.value.v0 + amount >= 0
           && s' == s.(sem := Some(s.sem.value.(v0 := s.sem.value.v0 + amount)),
                       procs := s.procs[p := q.(adj0 := q.adj0 - amount)])
         case CloseLock(_) =>
           && q.pc.Idle? && p in s.att && Mine(s, p) && s.sem.value.v2 == 0
           && s' == s.(sem := Some(s.sem.value.(v1 := s.sem.value.v1 + 1, v2 := 1)),
                       att := s.att - multiset{p}, holder := Some(p),
                       procs := s.procs[p := q.(pc := CloseCheck, adj1 := q.adj1 - 1, adj2 := q.adj2 - 1)])
         case CloseGetVal(_) =>
           && q.pc.CloseCheck? && Mine(s, p) && s.sem.value.v1 <= BIGCOUNT
           && s' == At(s, p, if s.sem.value.v1 == BIGCOUNT then Remove else Unlock)
         case RemoveSet(_) =>
           && q.pc.Remove? && Mine(s, p)
           && s' == s.(sem := None, inited := false, holder := None, att := multiset{},
                       procs := ClearAdj(s.procs[p := q.(pc := Idle)], 2))
         case UnlockIt(_) =>
           && q.pc.Unlock? && Mine(s, p) && s.sem.value.v2 >= 1
           && s' == s.(sem := Some(s.sem.value.(v2 := s.sem.value.v2 - 1)), holder := None,
                       procs := s.procs[p := q.(pc := Idle, adj2 := q.adj2 + 1)])
         case Crash(_) =>
           s' == s.(procs := s.procs - {p}, att := s.att[p := 0],
                    holder := if s.holder == Some(p) then None else s.holder,
                    sem := if s.sem.None? then None
                           else Some(s.sem.value.(v0 := Undone(s.sem.value.v0, q.adj0),
                                                  v1 := Undone(s.sem.value.v1, q.adj1),
                                                  v2 := Undone(s.sem.value.v2, q.adj2))))
  }

  ghost predicate Initial(s: State) {
    s.sem == None && s.procs == map[] && s.att == multiset{} && !s.inited && s.holder == None
  }

  // ---- the invariant --------------------------------------------------------

  ghost predicate ProcOk(s: State, p: Pid) {
    && p in s.procs
    && var q := s.procs[p];
       && (InCs(q.pc) <==> s.holder == Some(p))
       && q.adj2 == (if InCs(q.pc) then -1 else 0)
       && q.adj1 == s.att[p]
       && (InCs(q.pc) || p in s.att ==> Mine(s, p))
       && (q.pc.Set0? || q.pc.Set1? ==> !s.inited)
       && (q.pc.EndCreate? || q.pc.CloseCheck? || q.pc.Remove? || q.pc.Unlock? ==> s.inited)
  }

  /** sem_create reads the process counter of an initialised set with BIGCOUNT attachments. */
  predicate Full(s: State, a: Action) {
    a.GetVal? && s.inited && |s.att| == BIGCOUNT
  }

  ghost predicate Inv(s: State) {
    && (forall p {:trigger ProcOk(s, p)} | p in s.procs :: ProcOk(s, p))
    && (forall p | p in s.att :: p in s.procs)
    && (s.holder.Some? ==> s.holder.value in s.procs && s.sem.Some?)
    && (s.sem.None? ==> s.att == multiset{} && !s.inited)
    && (s.sem.Some? ==>
          && s.sem.value.id < s.nextId
          && s.sem.value.v2 == (if s.holder.Some? then 1 else 0)
          && (if s.inited then s.sem.value.v1 + |s.att| == BIGCOUNT
              else s.sem.value.v1 == 0 && s.att == multiset{}))
  }

  lemma EnterInv(s: State, a: Action, s': State)
    requires a.Spawn? || a.Create? || a.Get? || a.LockIt? || a.LockGone? || a.GetVal?
    requires Inv(s) && !Full(s, a) && Next(s, a, s')
    ensures Inv(s')
  {
    var p := a.p;
    assert p in s.procs ==> ProcOk(s, p);
    assert s.holder.Some? ==> ProcOk(s, s.holder.value);
    forall q | q in s'.procs ensures ProcOk(s', q) {
      assert q in s.procs ==> ProcOk(s, q);
    }
  }

  lemma CreateInv(s: State, a: Action, s': State)
    requires a.SetVal0? || a.SetVal1? || a.FinishCreate? || a.SemOp? || a.OpenGet? || a.OpenIt?
    requires Inv(s) && Next(s, a, s')
    ensures Inv(s')
  {
    var p := a.p;
    assert p in s.procs ==> ProcOk(s, p);
    assert s.holder.Some? ==> ProcOk(s, s.holder.value);
    forall q | q in s'.procs ensures ProcOk(s', q) {
      assert q in s.procs ==> ProcOk(s, q);
    }
  }

  lemma CloseLockInv(s: State, a: Action, s': State)
    requires a.CloseLock?
    requires Inv(s) && Next(s, a, s')
    ensures Inv(s')
  {
    var p := a.p;
    assert p in s.procs ==> ProcOk(s, p);
    forall q | q in s'.procs ensures ProcOk(s', q) {
      assert q in s.procs ==> ProcOk(s, q);
    }
  }

  lemma CloseGetInv(s: State, a: Action, s': State)
    requires a.CloseGetVal?
    requires Inv(s) && Next(s, a, s')
    ensures Inv(s')
  {
    var p := a.p;
    assert p in s.procs ==> ProcOk(s, p);
    assert s.holder.Some? ==> ProcOk(s, s.holder.value);
    forall q | q in s'.procs ensures ProcOk(s', q) {
      assert q in s.procs ==> ProcOk(s, q);
    }
  }

  lemma ReleaseInv(s: State, a: Action, s': State)
    requires a.RemoveSet? || a.UnlockIt?
    requires Inv(s) && Next(s, a, s')
    ensures Inv(s')
  {
    var p := a.p;
    assert p in s.procs ==> ProcOk(s, p);
    assert s.holder.Some? ==> ProcOk(s, s.holder.value);
    forall q | q in s'.procs ensures ProcOk(s', q) {
      assert q in s.procs ==> ProcOk(s, q);
    }
  }

  lemma CrashInv(s: State, a: Action, s': State)
    requires a.Crash?
    requires Inv(s) && Next(s, a, s')
    ensures Inv(s')
  {
    var p := a.p;
    assert p in s.procs ==> ProcOk(s, p);
    assert s.holder.Some? ==> ProcOk(s, s.holder.value);
    forall q | q in s'.procs ensures ProcOk(s', q) {
      assert q in s.procs ==> ProcOk(s, q);
    }
  }

  lemma StepInv(s: State, a: Action, s': State)
    requires Inv(s) && !Full(s, a) && Next(s, a, s')
    ensures Inv(s')
  {
    hide Inv, Next, Full;
    match a
    case Crash(_) => CrashInv(s, a, s');
    case SetVal0(_, _) => CreateInv(s, a, s');
    case SetVal1(_) => CreateInv(s, a, s');
    case FinishCreate(_) => CreateInv(s, a, s');
    case SemOp(_, _) => CreateInv(s, a, s');
    case OpenGet(_) => CreateInv(s, a, s');
    case OpenIt(_) => CreateInv(s, a, s');
    case CloseLock(_) => CloseLockInv(s, a, s');
    case CloseGetVal(_) => CloseGetInv(s, a, s');
    case RemoveSet(_) => ReleaseInv(s, a, s');
    case UnlockIt(_) => ReleaseInv(s, a, s');
    case _ => EnterInv(s, a, s');
  }

  // ---- whole runs ---------------------------------------------------------------

  /** Any sequence of actions from nothing. */
  ghost predicate Path(states: seq<State>, actions: seq<Action>) {
    && |states| == |actions| + 1
    && Initial(states[0])
    && (forall i | 0 <= i < |actions| :: Next(states[i], actions[i], states[i + 1]))
  }

  /** A path on which no sem_create reads the counter when BIGCOUNT attachments are outstanding. */
  ghost predicate Run(states: seq<State>, actions: seq<Action>) {
    && Path(states, actions)
    && (forall i | 0 <= i < |actions| :: !Full(states[i], actions[i]))
  }

  lemma {:induction false} RunInv(states: seq<State>, actions: seq<Action>, i: nat)
    requires Run(states, actions) && i < |states|
    ensures Inv(states[i])
  {
    if i > 0 {
      RunInv(states, actions, i - 1);
      assert Next(states[i - 1], actions[i - 1], states[i - 1 + 1]);
      StepInv(states[i - 1], actions[i - 1], states[i]);
    }
  }

  ghost function InSection(s: State): set<Pid> {
    set p | p in s.procs && InCs(s.procs[p].pc)
  }

  /** In every reachable state the lock counter is the number of processes in the
      critical section, which is 0 or 1, and an initialised set has its process
      counter at BIGCOUNT less the outstanding attachments. */
  lemma LockAndCount(states: seq<State>, actions: seq<Action>, i: nat)
    requires Run(states, actions) && i < |states| && states[i].sem.Some?
    ensures states[i].sem.value.v2 == |InSection(states[i])| <= 1
    ensures states[i].inited ==> states[i].sem.value.v1 + |states[i].att| == 10000
    ensures !states[i].inited ==> states[i].sem.value.v1 == 0
  {
    var s := states[i];
    RunInv(states, actions, i);
    forall p | p in s.procs ensures InCs(s.procs[p].pc) <==> s.holder == Some(p) {
      assert ProcOk(s, p);
    }
    if s.holder.Some? {
      assert InSection(s) == {s.holder.value};
    } else {
      assert InSection(s) == {};
    }
  }

  /** A set goes only by IPC_RMID, and whoever is attached to it or in the critical section has it. */
  lemma RemovalSafe(states: seq<State>, actions: seq<Action>, i: nat)
    requires Run(states, actions) && i < |actions|
    ensures states[i].sem.Some? && (states[i + 1].sem.None? || states[i + 1].sem.value.id != states[i].sem.value.id) ==>
              actions[i].RemoveSet? && states[i + 1].sem.None?
    ensures forall p | p in states[i].procs && (p in states[i].att || InCs(states[i].procs[p].pc)) :: Mine(states[i], p)
  {
    var s := states[i];
    RunInv(states, actions, i);
    assert Next(s, actions[i], states[i + 1]);
    forall p | p in s.procs && (p in s.att || InCs(s.procs[p].pc)) ensures Mine(s, p) {
      assert ProcOk(s, p);
    }
    assert actions[i].p in s.procs ==> ProcOk(s, actions[i].p);
  }

  /** Once initialised, a set is never initialised again while it exists, and its
      user value then changes only through sem_op or a process's death. */
  lemma NeverReinitialised(states: seq<State>, actions: seq<Action>, i: nat)
    requires Run(states, actions) && i < |actions| && states[i].inited
    ensures !actions[i].SetVal0? && !actions[i].SetVal1?
    ensures states[i].sem.Some?
    ensures states[i + 1].sem.Some? ==>
              && states[i + 1].inited && states[i + 1].sem.value.id == states[i].sem.value.id
              && (states[i + 1].sem.value.v0 != states[i].sem.value.v0 ==> actions[i].SemOp? || actions[i].Crash?)
  {
    var s := states[i];
    RunInv(states, actions, i);
    assert Next(s, actions[i], states[i + 1]);
    assert actions[i].p in s.procs ==> ProcOk(s, actions[i].p);
  }

  ghost predicate CanStep(s: State, p: Pid) {
    exists a: Action, s': State :: a.p == p && !a.Crash? && Next(s, a, s')
  }

  lemma SectionSteps(s: State, p: Pid)
    requires Inv(s) && p in s.procs && InCs(s.procs[p].pc) && !(s.procs[p].pc.EndCreate? && |s.att| == BIGCOUNT)
    ensures CanStep(s, p)
  {
    assert ProcOk(s, p);
    var q := s.procs[p];
    match q.pc
    case Check => assert Next(s, GetVal(p), At(s, p, if s.sem.value.v1 == 0 then Set0 else EndCreate));
    case Set0 => assert Next(s, SetVal0(p, 0), s.(sem := Some(s.sem.value.(v0 := 0)),
                                                 procs := ClearAdj(s.procs[p := q.(pc := Set1)], 0)));
    case Set1 => assert Next(s, SetVal1(p), s.(sem := Some(s.sem.value.(v1 := BIGCOUNT)), inited := true,
                                              procs := ClearAdj(s.procs[p := q.(pc := EndCreate)], 1)));
    case EndCreate =>
      assert Next(s, FinishCreate(p),
                          s.(sem := Some(s.sem.value.(v1 := s.sem.value.v1 - 1, v2 := s.sem.value.v2 - 1)),
                             att := s.att + multiset{p}, holder := None,
                             procs := s.procs[p := q.(pc := Idle, adj1 := q.adj1 + 1, adj2 := q.adj2 + 1)]));
    case CloseCheck => assert Next(s, CloseGetVal(p), At(s, p, if s.sem.value.v1 == BIGCOUNT then Remove else Unlock));
    case Remove => assert Next(s, RemoveSet(p), s.(sem := None, inited := false, holder := None, att := multiset{},
                                                  procs := ClearAdj(s.procs[p := q.(pc := Idle)], 2)));
    case Unlock => assert Next(s, UnlockIt(p), s.(sem := Some(s.sem.value.(v2 := s.sem.value.v2 - 1)), holder := None,
                                                 procs := s.procs[p := q.(pc := Idle, adj2 := q.adj2 + 1)]));
    case _ =>
  }

  lemma SectionBlocks(s: State, p: Pid)
    requires Inv(s) && p in s.procs && s.procs[p].pc.EndCreate? && |s.att| == BIGCOUNT
    ensures !CanStep(s, p)
  {
    assert ProcOk(s, p);
  }

  /** No error exit of the source is reached: in the critical section GETVAL gives at most
      BIGCOUNT to sem_close; and nothing blocks there but the closing semop of sem_create,
      exactly when sem_open has brought the attachments to BIGCOUNT. */
  lemma SectionProgress(states: seq<State>, actions: seq<Action>, i: nat, p: Pid)
    requires Run(states, actions) && i < |states|
    requires p in states[i].procs && InCs(states[i].procs[p].pc)
    ensures Mine(states[i], p) && states[i].sem.value.v1 <= BIGCOUNT && states[i].sem.value.v2 == 1
    ensures CanStep(states[i], p) <==> !(states[i].procs[p].pc.EndCreate? && |states[i].att| == BIGCOUNT)
  {
    hide Next, CanStep;
    var s := states[i];
    RunInv(states, actions, i);
    assert ProcOk(s, p);
    if s.procs[p].pc.EndCreate? && |s.att| == BIGCOUNT {
      SectionBlocks(s, p);
    } else {
      SectionSteps(s, p);
    }
  }

  /** sem_create goes on to initialise an already initialised set precisely when it reads
      the counter with BIGCOUNT attachments outstanding. */
  lemma ReinitialisedIff(s: State, p: Pid, s': State)
    requires Inv(s) && s.inited && p in s.procs && Next(s, GetVal(p), s')
    ensures s'.procs[p].pc.Set0? <==> Full(s, GetVal(p))
  {
    assert ProcOk(s, p);
  }

  /** The states of a lone process p that creates a set with value `initval` and closes it. */
  function Lone(p: Pid, initval: nat, i: nat): State
    requires i <= 11
  {
    var none := multiset{};
    var set0 := SemSet(0, 0, 0, 0);
    var locked := SemSet(0, 0, 0, 1);
    var ready := SemSet(0, initval, BIGCOUNT, 1);
    if i == 0 then State(None, 0, map[], none, false, None)
    else if i == 1 then State(None, 0, map[p := Proc(Idle, 0, 0, 0, 0)], none, false, None)
    else if i == 2 then State(None, 0, map[p := Proc(Again, 0, 0, 0, 0)], none, false, None)
    else if i == 3 then State(Some(set0), 1, map[p := Proc(Lock, 0, 0, 0, 0)], none, false, None)
    else if i == 4 then State(Some(locked), 1, map[p := Proc(Check, 0, 0, 0, -1)], none, false, Some(p))
    else if i == 5 then State(Some(locked), 1, map[p := Proc(Set0, 0, 0, 0, -1)], none, false, Some(p))
    else if i == 6 then State(Some(locked.(v0 := initval)), 1, map[p := Proc(Set1, 0, 0, 0, -1)], none, false, Some(p))
    else if i == 7 then State(Some(ready), 1, map[p := Proc(EndCreate, 0, 0, 0, -1)], none, true, Some(p))
    else if i == 8 then
      State(Some(ready.(v1 := BIGCOUNT - 1, v2 := 0)), 1, map[p := Proc(Idle, 0, 0, 1, 0)], multiset{p}, true, None)
    else if i == 9 then State(Some(ready), 1, map[p := Proc(CloseCheck, 0, 0, 0, -1)], none, true, Some(p))
    else if i == 10 then State(Some(ready), 1, map[p := Proc(Remove, 0, 0, 0, -1)], none, true, Some(p))
    else State(None, 1, map[p := Proc(Idle, 0, 0, 0, 0)], none, false, None)
  }

  function LoneActions(p: Pid, initval: nat): (a: seq<Action>)
    ensures |a| == 11
  {
    [Spawn(p), Create(p), Get(p), LockIt(p), GetVal(p), SetVal0(p, initval), SetVal1(p), FinishCreate(p),
     CloseLock(p), CloseGetVal(p), RemoveSet(p)]
  }

  lemma LoneLocks(p: Pid, initval: nat, i: nat)
    requires 0 <= i < 4
    ensures Next(Lone(p, initval, i), LoneActions(p, initval)[i], Lone(p, initval, i + 1))
  {
  }

  lemma LoneInitialises(p: Pid, initval: nat, i: nat)
    requires 4 <= i < 8
    ensures Next(Lone(p, initval, i), LoneActions(p, initval)[i], Lone(p, initval, i + 1))
  {
  }

  lemma LoneCloses(p: Pid, initval: nat, i: nat)
    requires 8 <= i < 11
    ensures Next(Lone(p, initval, i), LoneActions(p, initval)[i], Lone(p, initval, i + 1))
  {
  }

  /** A lone process gets a set with the value it asked for, and its close removes the set. */
  lemma LoneUser(p: Pid, initval: nat)
    ensures var states := seq(12, i requires 0 <= i < 12 => Lone(p, initval, i));
      && Run(states, LoneActions(p, initval))
      && states[8].inited && states[8].att == multiset{p} && states[8].sem.value.v0 == initval
      && states[11].sem.None? && states[11].procs[p] == Proc(Idle, 0, 0, 0, 0)
  {
    hide Next;
    var states := seq(12, i requires 0 <= i < 12 => Lone(p, initval, i));
    var actions := LoneActions(p, initval);
    forall i | 0 <= i < |actions| ensures Next(states[i], actions[i], states[i + 1]) {
      if i < 4 {
        LoneLocks(p, initval, i);
      } else if i < 8 {
        LoneInitialises(p, initval, i);
      } else {
        LoneCloses(p, initval, i);
      }
    }
  }

  // ---- the bound is reached, and beyond it the set is initialised again ---------------

  lemma Extend(states: seq<State>, actions: seq<Action>, a: Action, s': State)
    requires Run(states, actions) && Next(states[|actions|], a, s')
    ensures Path(states + [s'], actions + [a])
    ensures !Full(states[|actions|], a) ==> Run(states + [s'], actions + [a])
  {
    hide Next, Full;
    var t, b := states + [s'], actions + [a];
    forall i | 0 <= i < |b| ensures Next(t[i], b[i], t[i + 1]) {
      assert i < |actions| ==> t[i] == states[i] && t[i + 1] == states[i + 1] && b[i] == actions[i];
    }
    forall i | 0 <= i < |b| && !Full(states[|actions|], a) ensures !Full(t[i], b[i]) {
      assert i < |actions| ==> t[i] == states[i] && b[i] == actions[i];
    }
  }

  /** Process p alone, attached n times; `initval` is the user value. */
  function Attached(p: Pid, initval: nat, n: nat): State
    requires n <= BIGCOUNT
  {
    var procs := map[p := Proc(Idle, 0, 0, n, 0)];
    State(Some(SemSet(0, initval, BIGCOUNT - n, 0)), 1, procs, multiset{}[p := n], true, None)
  }

  /** The states of one more sem_create. */
  function Round(p: Pid, initval: nat, n: nat, i: nat): State
    requires n <= BIGCOUNT && i <= 5 && (i == 5 ==> n < BIGCOUNT)
  {
    var s := Attached(p, initval, n);
    var locked := s.(sem := Some(SemSet(0, initval, BIGCOUNT - n, 1)), holder := Some(p));
    if i == 0 then s
    else if i == 1 then s.(procs := map[p := Proc(Again, 0, 0, n, 0)])
    else if i == 2 then s.(procs := map[p := Proc(Lock, 0, 0, n, 0)])
    else if i == 3 then locked.(procs := map[p := Proc(Check, 0, 0, n, -1)])
    else if i == 4 then locked.(procs := map[p := Proc(if n == BIGCOUNT then Set0 else EndCreate, 0, 0, n, -1)])
    else Attached(p, initval, n + 1)
  }

  function RoundActions(p: Pid): (a: seq<Action>)
    ensures |a| == 5
  {
    [Create(p), Get(p), LockIt(p), GetVal(p), FinishCreate(p)]
  }

  lemma RoundLocks(p: Pid, initval: nat, n: nat, i: nat)
    requires n <= BIGCOUNT && i < 3
    ensures Next(Round(p, initval, n, i), RoundActions(p)[i], Round(p, initval, n, i + 1))
    ensures !Full(Round(p, initval, n, i), RoundActions(p)[i])
  {
  }

  lemma RoundReads(p: Pid, initval: nat, n: nat)
    requires n <= BIGCOUNT
    ensures Next(Round(p, initval, n, 3), GetVal(p), Round(p, initval, n, 4))
    ensures Full(Round(p, initval, n, 3), GetVal(p)) <==> n == BIGCOUNT
  {
  }

  lemma RoundEnds(p: Pid, initval: nat, n: nat)
    requires n < BIGCOUNT
    ensures Next(Round(p, initval, n, 4), FinishCreate(p), Round(p, initval, n, 5))
  {
    assert multiset{}[p := n] + multiset{p} == multiset{}[p := n + 1];
  }

  lemma RoundStep(p: Pid, initval: nat, n: nat, i: nat)
    requires n <= BIGCOUNT && i < 5 && (i == 4 ==> n < BIGCOUNT)
    ensures Next(Round(p, initval, n, i), RoundActions(p)[i], Round(p, initval, n, i + 1))
    ensures Full(Round(p, initval, n, i), RoundActions(p)[i]) <==> i == 3 && n == BIGCOUNT
  {
    hide Next, Round;
    if i < 3 {
      RoundLocks(p, initval, n, i);
    } else if i == 3 {
      RoundReads(p, initval, n);
    } else {
      RoundEnds(p, initval, n);
    }
  }

  /** Up to k steps of one more sem_create. */
  lemma {:induction false} RoundRun(states: seq<State>, actions: seq<Action>, p: Pid, initval: nat, n: nat, k: nat)
      returns (t: seq<State>, b: seq<Action>)
    requires n <= BIGCOUNT && Run(states, actions) && states[|actions|] == Attached(p, initval, n)
    requires k <= (if n < BIGCOUNT then 5 else 3)
    ensures Run(t, b) && t[|b|] == Round(p, initval, n, k)
    decreases k
  {
    hide Next, Full, Run;
    t, b := states, actions;
    if k > 0 {
      t, b := RoundRun(states, actions, p, initval, n, k - 1);
      RoundStep(p, initval, n, k - 1);
      StepOn(t, b, RoundActions(p)[k - 1], Round(p, initval, n, k));
      t, b := t + [Round(p, initval, n, k)], b + [RoundActions(p)[k - 1]];
    }
  }

  lemma StepOn(states: seq<State>, actions: seq<Action>, a: Action, s': State)
    requires Run(states, actions) && Next(states[|actions|], a, s') && !Full(states[|actions|], a)
    ensures Run(states + [s'], actions + [a]) && (states + [s'])[|actions + [a]|] == s'
  {
    hide Next, Full;
    Extend(states, actions, a, s');
  }

  /** A lone process attaches any number of times up to BIGCOUNT. */
  lemma {:induction false} Fills(p: Pid, initval: nat, n: nat) returns (states: seq<State>, actions: seq<Action>)
    requires 1 <= n <= BIGCOUNT
    ensures Run(states, actions) && states[|actions|] == Attached(p, initval, n) && |states[|actions|].att| == n
    decreases n
  {
    hide Next, Full;
    if n == 1 {
      states, actions := LoneAttached(p, initval);
    } else {
      var t, b := Fills(p, initval, n - 1);
      states, actions := RoundRun(t, b, p, initval, n - 1, 5);
    }
  }

  lemma LoneAttached(p: Pid, initval: nat) returns (states: seq<State>, actions: seq<Action>)
    ensures Run(states, actions) && states[|actions|] == Attached(p, initval, 1)
  {
    hide Next;
    LoneUser(p, initval);
    states := seq(9, i requires 0 <= i < 9 => Lone(p, initval, i));
    actions := LoneActions(p, initval)[..8];
    var longer := seq(12, i requires 0 <= i < 12 => Lone(p, initval, i));
    forall i | 0 <= i < 8 ensures Next(states[i], actions[i], states[i + 1]) && !Full(states[i], actions[i]) {
      assert states[i] == longer[i] && states[i + 1] == longer[i + 1];
    }
    assert multiset{}[p := 1] == multiset{p};
  }

  /** So the condition on runs cannot be dropped: after BIGCOUNT attachments one more
      sem_create resets the value of the set in use. */
  lemma Reinitialises(p: Pid, initval: nat, other: nat) returns (states: seq<State>, actions: seq<Action>)
    ensures Path(states, actions) && |actions| >= 2
    ensures var n := |actions| - 1;
      && actions[n] == SetVal0(p, other) && states[n].inited && |states[n].att| == BIGCOUNT
      && states[n].sem.Some? && states[n].sem.value.v0 == initval
      && states[n + 1].sem == Some(states[n].sem.value.(v0 := other))
  {
    hide Next;
    states, actions := Fills(p, initval, BIGCOUNT);
    states, actions := RoundRun(states, actions, p, initval, BIGCOUNT, 3);
    var s3, s4 := Round(p, initval, BIGCOUNT, 3), Round(p, initval, BIGCOUNT, 4);
    RoundStep(p, initval, BIGCOUNT, 3);
    Extend(states, actions, GetVal(p), s4);
    states, actions := states + [s4], actions + [GetVal(p)];
    var s5 := Reset(p, initval, other);
    ResetStep(p, initval, other);
    PathOn(states, actions, SetVal0(p, other), s5);
    states, actions := states + [s5], actions + [SetVal0(p, other)];
  }

  function Reset(p: Pid, initval: nat, other: nat): State {
    var s := Round(p, initval, BIGCOUNT, 4);
    s.(sem := Some(s.sem.value.(v0 := other)), procs := map[p := Proc(Set1, 0, 0, BIGCOUNT, -1)])
  }

  lemma ResetStep(p: Pid, initval: nat, other: nat)
    ensures Next(Round(p, initval, BIGCOUNT, 4), SetVal0(p, other), Reset(p, initval, other))
  {
  }

  lemma PathOn(states: seq<State>, actions: seq<Action>, a: Action, s': State)
    requires Path(states, actions) && Next(states[|actions|], a, s')
    ensures Path(states + [s'], actions + [a])
  {
    hide Next;
    var t, b := states + [s'], actions + [a];
    forall i | 0 <= i < |b| ensures Next(t[i], b[i], t[i + 1]) {
      assert i < |actions| ==> t[i] == states[i] && t[i + 1] == states[i + 1] && b[i] == actions[i];
    }
  }

  // ---- removal and sem_open -----------------------------------------------------------------

  /** At step k process q attached by sem_open, and it has not died before step m. */
  ghost predicate OpenedSince(actions: seq<Action>, k: nat, m: nat, q: Pid) {
    k < m <= |actions| && actions[k] == OpenIt(q) && forall n | k < n < m :: actions[n] != Crash(q)
  }

  /** It did so after step j. */
  ghost predicate Opened(actions: seq<Action>, j: nat, m: nat, q: Pid) {
    exists k: nat :: j < k && OpenedSince(actions, k, m, q)
  }

  /** Process p has read BIGCOUNT at step j and has not moved since. */
  ghost predicate Waiting(states: seq<State>, actions: seq<Action>, j: nat, m: nat, p: Pid) {
    && j < m <= |actions| && m < |states| && actions[j] == CloseGetVal(p)
    && p in states[j + 1].procs && states[j + 1].procs[p].pc.Remove?
    && forall n | j < n < m :: actions[n].p != p
  }

  /** While one process is about to remove the set, only sem_open and deaths change who is attached. */
  lemma AttachedChange(s: State, a: Action, s': State, p: Pid)
    requires Inv(s) && Next(s, a, s') && p in s.procs && s.procs[p].pc.Remove? && a.p != p
    ensures p in s'.procs && s'.procs[p].pc.Remove?
    ensures s'.att == if a.OpenIt? then s.att + multiset{a.p} else if a.Crash? then s.att[a.p := 0] else s.att
  {
    assert ProcOk(s, p);
    assert a.p in s.procs ==> ProcOk(s, a.p);
  }

  lemma OpenedStep(actions: seq<Action>, j: nat, m: nat, q: Pid)
    requires j < m < |actions|
    ensures Opened(actions, j, m + 1, q) <==>
      actions[m] == OpenIt(q) || (actions[m] != Crash(q) && Opened(actions, j, m, q))
  {
    if actions[m] == OpenIt(q) {
      assert OpenedSince(actions, m, m + 1, q);
    } else if actions[m] != Crash(q) && Opened(actions, j, m, q) {
      var k: nat :| j < k && OpenedSince(actions, k, m, q);
      assert OpenedSince(actions, k, m + 1, q);
    }
    if Opened(actions, j, m + 1, q) {
      var k: nat :| j < k && OpenedSince(actions, k, m + 1, q);
      if k < m {
        assert OpenedSince(actions, k, m, q);
      }
    }
  }

  lemma WaitStep(states: seq<State>, actions: seq<Action>, j: nat, m: nat, p: Pid)
    requires Waiting(states, actions, j, m + 1, p) && j < m
    ensures Waiting(states, actions, j, m, p) && actions[m].p != p
  {
  }

  /** Attached then are exactly those who have called sem_open since, and live. */
  lemma {:induction false} AttachedSince(states: seq<State>, actions: seq<Action>, j: nat, m: nat, p: Pid, q: Pid)
    requires Run(states, actions) && Waiting(states, actions, j, m, p)
    ensures p in states[m].procs && states[m].procs[p].pc.Remove?
    ensures q in states[m].att <==> Opened(actions, j, m, q)
    decreases m
  {
    hide Next, Opened, Inv;
    if m == j + 1 {
      RunInv(states, actions, j);
      assert Next(states[j], actions[j], states[j + 1]);
      NobodyLeft(states[j], p, states[j + 1]);
      NotYet(actions, j, q);
    } else {
      WaitStep(states, actions, j, m - 1, p);
      AttachedSince(states, actions, j, m - 1, p, q);
      RunInv(states, actions, m - 1);
      assert Next(states[m - 1], actions[m - 1], states[m - 1 + 1]);
      AttachedChange(states[m - 1], actions[m - 1], states[m], p);
      OpenedStep(actions, j, m - 1, q);
    }
  }

  lemma NobodyLeft(s: State, p: Pid, s': State)
    requires Inv(s) && Next(s, CloseGetVal(p), s') && s'.procs[p].pc.Remove?
    ensures s'.att == multiset{}
  {
    assert ProcOk(s, p);
  }

  lemma NotYet(actions: seq<Action>, j: nat, q: Pid)
    ensures !Opened(actions, j, j + 1, q)
  {
  }

  lemma CameTo(s: State, a: Action, s': State, p: Pid)
    requires Next(s, a, s') && p in s'.procs && s'.procs[p].pc.Remove?
    ensures a == CloseGetVal(p) || (a.p != p && p in s.procs && s.procs[p].pc.Remove?)
  {
  }

  /** Whoever is about to remove the set has read BIGCOUNT. */
  lemma {:induction false} LastRead(states: seq<State>, actions: seq<Action>, i: nat, p: Pid) returns (j: nat)
    requires Run(states, actions) && i < |states| && p in states[i].procs && states[i].procs[p].pc.Remove?
    ensures Waiting(states, actions, j, i, p)
  {
    hide Next;
    assert i > 0;
    assert Next(states[i - 1], actions[i - 1], states[i - 1 + 1]);
    CameTo(states[i - 1], actions[i - 1], states[i], p);
    if actions[i - 1] == CloseGetVal(p) {
      j := i - 1;
    } else {
      j := LastRead(states, actions, i - 1, p);
    }
  }

  lemma RemoverWaits(states: seq<State>, actions: seq<Action>, i: nat, p: Pid)
    requires Run(states, actions) && i < |actions| && actions[i] == RemoveSet(p)
    ensures p in states[i].procs && states[i].procs[p].pc.Remove? && states[i + 1].sem == None
  {
    assert Next(states[i], actions[i], states[i + 1]);
  }

  /** The set is removed with a process still attached exactly when that process has come by
      sem_open since the remover read BIGCOUNT, and lives. */
  lemma RemovedWhileAttached(states: seq<State>, actions: seq<Action>, i: nat, p: Pid) returns (j: nat)
    requires Run(states, actions) && i < |actions| && actions[i] == RemoveSet(p)
    ensures Waiting(states, actions, j, i, p) && states[i + 1].sem == None
    ensures forall q :: q in states[i].att <==> Opened(actions, j, i, q)
    ensures states[i].att == multiset{} <==> forall q :: !Opened(actions, j, i, q)
  {
    hide Next, Run, Waiting, Opened;
    RunLength(states, actions);
    RemoverWaits(states, actions, i, p);
    j := LastRead(states, actions, i, p);
    forall q ensures q in states[i].att <==> Opened(actions, j, i, q) {
      AttachedSince(states, actions, j, i, p, q);
    }
    if states[i].att != multiset{} {
      var q :| q in states[i].att;
      assert Opened(actions, j, i, q);
    }
  }

  /** Process q opens while p closes: the states after p, alone, has attached. */
  function Late(p: Pid, q: Pid, initval: nat, i: nat): State
    requires i <= 6
  {
    var s := Attached(p, initval, 1);
    var ready := SemSet(0, initval, BIGCOUNT, 1);
    var opening := Proc(Opening, 0, 0, 0, 0);
    var procs := map[p := Proc(CloseCheck, 0, 0, 0, -1), q := opening];
    var closing := State(Some(ready), 1, procs, multiset{}, true, Some(p));
    var late := map[p := Proc(Remove, 0, 0, 0, -1), q := Proc(Idle, 0, 0, 1, 0)];
    if i == 0 then s
    else if i == 1 then s.(procs := s.procs[q := Proc(Idle, 0, 0, 0, 0)])
    else if i == 2 then s.(procs := s.procs[q := opening])
    else if i == 3 then closing
    else if i == 4 then closing.(procs := closing.procs[p := Proc(Remove, 0, 0, 0, -1)])
    else if i == 5 then closing.(sem := Some(ready.(v1 := BIGCOUNT - 1)), att := multiset{q}, procs := late)
    else State(None, 1, map[p := Proc(Idle, 0, 0, 0, 0), q := Proc(Idle, 0, 0, 0, 0)], multiset{}, false, None)
  }

  function LateActions(p: Pid, q: Pid): (a: seq<Action>)
    ensures |a| == 6
  {
    [Spawn(q), OpenGet(q), CloseLock(p), CloseGetVal(p), OpenIt(q), RemoveSet(p)]
  }

  lemma LateOpens(p: Pid, q: Pid, initval: nat, i: nat)
    requires p != q && (i < 2 || i == 4)
    ensures Next(Late(p, q, initval, i), LateActions(p, q)[i], Late(p, q, initval, i + 1))
  {
  }

  lemma LateLocks(p: Pid, q: Pid, initval: nat)
    requires p != q
    ensures Next(Late(p, q, initval, 2), CloseLock(p), Late(p, q, initval, 3))
  {
    assert multiset{}[p := 1] - multiset{p} == multiset{};
  }

  lemma LateReads(p: Pid, q: Pid, initval: nat)
    requires p != q
    ensures Next(Late(p, q, initval, 3), CloseGetVal(p), Late(p, q, initval, 4))
  {
  }

  lemma LateRemoves(p: Pid, q: Pid, initval: nat)
    requires p != q
    ensures Next(Late(p, q, initval, 5), RemoveSet(p), Late(p, q, initval, 6))
  {
  }

  lemma {:induction false} LateRun(p: Pid, q: Pid, initval: nat, k: nat)
      returns (states: seq<State>, actions: seq<Action>)
    requires p != q && k <= 6
    ensures Run(states, actions) && states[|actions|] == Late(p, q, initval, k) && |actions| >= k
    ensures actions[|actions| - k..] == LateActions(p, q)[..k]
  {
    hide Next, Full, Run, Late;
    if k == 0 {
      states, actions := LoneAttached(p, initval);
      LateStart(p, q, initval);
    } else {
      var t, b := LateRun(p, q, initval, k - 1);
      if k - 1 < 2 || k - 1 == 4 {
        LateOpens(p, q, initval, k - 1);
      } else if k - 1 == 2 {
        LateLocks(p, q, initval);
      } else if k - 1 == 3 {
        LateReads(p, q, initval);
      } else {
        LateRemoves(p, q, initval);
      }
      var a, s' := LateActions(p, q)[k - 1], Late(p, q, initval, k);
      RunLength(t, b);
      NeverFull(t[|b|], p, q, k - 1);
      StepOn(t, b, a, s');
      states, actions := t + [s'], b + [a];
      assert actions[|actions| - k..] == b[|b| - (k - 1)..] + [a];
      assert LateActions(p, q)[..k] == LateActions(p, q)[..k - 1] + [a];
    }
  }

  lemma LateStart(p: Pid, q: Pid, initval: nat)
    ensures Late(p, q, initval, 0) == Attached(p, initval, 1)
  {
  }

  lemma NeverFull(s: State, p: Pid, q: Pid, i: nat)
    requires i < 6
    ensures !Full(s, LateActions(p, q)[i])
  {
  }

  /** So it happens: a set is removed under a process that has just opened it. */
  lemma OpenedTooLate(p: Pid, q: Pid, initval: nat) returns (states: seq<State>, actions: seq<Action>)
    requires p != q
    ensures Run(states, actions) && |actions| >= 6
    ensures var n := |actions| - 1;
      && actions[n] == RemoveSet(p) && actions[n - 1] == OpenIt(q) && actions[n - 2] == CloseGetVal(p)
      && states[n].att == multiset{q} && states[n + 1].sem == None
  {
    hide Next, Run;
    states, actions := LateRun(p, q, initval, 5);
    var s' := Late(p, q, initval, 6);
    var last := actions[|actions| - 5..];
    assert last[4] == LateActions(p, q)[..5][4] && last[3] == LateActions(p, q)[..5][3];
    assert actions[|actions| - 1] == last[4] && actions[|actions| - 2] == last[3];
    RunLength(states, actions);
    LateRemoves(p, q, initval);
    StepOn(states, actions, RemoveSet(p), s');
    states, actions := states + [s'], actions + [RemoveSet(p)];
  }

  lemma RunLength(states: seq<State>, actions: seq<Action>)
    requires Run(states, actions)
    ensures |states| == |actions| + 1
  {
  }
}
