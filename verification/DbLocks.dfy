/**
  The record-locking protocol of db.c: any number of processes, one handle each,
  whose operations lock byte ranges of the index and data files with fcntl.  A step
  is one lock call that succeeds, one unlock call, or the start of an operation.
 */
module DbLocks {
  import opened DbCells
  import opened DbFormat

  datatype File = IndexFile | DataFile

  /** A byte range; length 0 means to the end of the file, however far it grows. */
  datatype Region = Region(file: File, start: nat, len: nat)

  datatype Mode = Shared | Exclusive
  datatype Lock = Lock(region: Region, mode: Mode)

  /** One byte of the range, if it has that byte. */
  predicate Covers(r: Region, file: File, at: nat) {
    r.file == file && r.start <= at && (r.len == 0 || at < r.start + r.len)
  }

  predicate Overlap(a: Region, b: Region) {
    && a.file == b.file
    && (a.len == 0 || b.start < a.start + a.len)
    && (b.len == 0 || a.start < b.start + b.len)
  }

  predicate Conflict(a: Lock, b: Lock) {
    Overlap(a.region, b.region) && (a.mode == Exclusive || b.mode == Exclusive)
  }

  /** Two ranges overlap exactly when they have a byte in common. */
  lemma OverlapMeans(a: Region, b: Region)
    ensures Overlap(a, b) <==> exists at: nat :: Covers(a, a.file, at) && Covers(b, a.file, at)
  {
    if Overlap(a, b) {
      var at := if a.start < b.start then b.start else a.start;
      assert Covers(a, a.file, at) && Covers(b, a.file, at);
    }
  }

  // ---- the ranges db.c locks -----------------------------------------------------------

  function ChainRegion(h: nat): Region {
    Region(IndexFile, h * PTR_SZ + PTR_SZ, 1)
  }

  const FREE_LIST := Region(IndexFile, FREE_OFF, 1)
  const INDEX_END := Region(IndexFile, (NHASH + 1) * PTR_SZ + 1, 0)
  const WHOLE_INDEX := Region(IndexFile, 0, 0)
  const WHOLE_DATA := Region(DataFile, 0, 0)

  // ---- the operations --------------------------------------------------------------------

  /** What follows the free-list section of a delete or a store. */
  datatype Next = Finish | AppendOrFinish | Append

  datatype Pc =
    | Idle
    | WantIndex | Initialising                       // db_open, creating
    | WantRead(h: nat) | Fetching(h: nat)            // db_fetch
    | WantWrite(h: nat, storing: bool)               // db_delete, db_store
    | Searching(h: nat, storing: bool)
    | WantFree(h: nat, next: Next) | Freeing(h: nat, next: Next)   // _db_dodelete, _db_findfree
    | WantData(h: nat) | AppendingData(h: nat)       // _db_writedat, SEEK_END
    | WantEnd(h: nat) | AppendingIndex(h: nat)       // _db_writeidx, SEEK_END
    | Linking(h: nat)                                // the last writes before the chain is unlocked
    | WantList | Listing                             // db_nextrec

  datatype Action = Proceed | Acquire(lock: Lock) | Release(region: Region)

  /** What the code does next at each point. */
  predicate Moves(pc: Pc, a: Action, pc': Pc) {
    match pc
    case Idle =>
      && a == Proceed
      && (pc' == WantIndex || pc' == WantList || ((pc'.WantRead? || pc'.WantWrite?) && pc'.h < NHASH))
    case WantIndex => a == Acquire(Lock(WHOLE_INDEX, Exclusive)) && pc' == Initialising
    case Initialising => a == Release(WHOLE_INDEX) && pc' == Idle
    case WantRead(h) => a == Acquire(Lock(ChainRegion(h), Shared)) && pc' == Fetching(h)
    case Fetching(h) => a == Release(ChainRegion(h)) && pc' == Idle
    case WantWrite(h, storing) => a == Acquire(Lock(ChainRegion(h), Exclusive)) && pc' == Searching(h, storing)
    case Searching(h, storing) =>
      || (a == Proceed && (if storing then pc' == WantFree(h, AppendOrFinish) || pc' == WantFree(h, Append)
                         else pc' == WantFree(h, Finish)))
      || (a == Proceed && pc' == Linking(h))
    case WantFree(h, next) => a == Acquire(Lock(FREE_LIST, Exclusive)) && pc' == Freeing(h, next)
    case Freeing(h, next) =>
      && a == Release(FREE_LIST)
      && ((next != Append && pc' == Linking(h)) || (next != Finish && pc' == WantData(h)))
    case WantData(h) => a == Acquire(Lock(WHOLE_DATA, Exclusive)) && pc' == AppendingData(h)
    case AppendingData(h) => a == Release(WHOLE_DATA) && pc' == WantEnd(h)
    case WantEnd(h) => a == Acquire(Lock(INDEX_END, Exclusive)) && pc' == AppendingIndex(h)
    case AppendingIndex(h) => a == Release(INDEX_END) && pc' == Linking(h)
    case Linking(h) => a == Release(ChainRegion(h)) && pc' == Idle
    case WantList => a == Acquire(Lock(FREE_LIST, Shared)) && pc' == Listing
    case Listing => a == Release(FREE_LIST) && pc' == Idle
  }

  // ---- the system -------------------------------------------------------------------------

  type Pid = nat

  /** Where each process is, and the kernel's table of the locks it holds. */
  datatype State = State(pcs: map<Pid, Pc>, held: map<Pid, set<Lock>>)

  ghost predicate Initial(s: State) {
    s.pcs.Keys == s.held.Keys && forall i | i in s.pcs :: s.pcs[i] == Idle && s.held[i] == {}
  }

  ghost predicate BlockedBy(s: State, i: Pid, lock: Lock, j: Pid) {
    j != i && j in s.held && exists l | l in s.held[j] :: Conflict(lock, l)
  }

  function Drop(held: set<Lock>, r: Region): set<Lock> {
    set l | l in held && l.region != r
  }

  ghost predicate Step(s: State, i: Pid, a: Action, s': State) {
    && i in s.pcs && i in s.held && i in s'.pcs
    && Moves(s.pcs[i], a, s'.pcs[i])
    && s'.pcs == s.pcs[i := s'.pcs[i]]
    && match a
       case Proceed => s'.held == s.held
       case Acquire(lock) =>
         && (forall j :: !BlockedBy(s, i, lock, j))
         && s'.held == s.held[i := s.held[i] + {lock}]
       case Release(r) => s'.held == s.held[i := Drop(s.held[i], r)]
  }

  ghost predicate Steps(s: State, s': State) {
    exists i, a :: Step(s, i, a, s')
  }

  ghost predicate CanStep(s: State, i: Pid) {
    exists a, s' :: Step(s, i, a, s')
  }

  ghost predicate Run(run: seq<State>) {
    && run != [] && Initial(run[0])
    && forall k {:trigger Linked(run, k)} | 0 <= k < |run| - 1 :: Linked(run, k)
  }

  ghost predicate Linked(run: seq<State>, k: nat) {
    k + 1 < |run| && Steps(run[k], run[k + 1])
  }

  // ---- the invariant -------------------------------------------------------------------------

  function ChainOf(pc: Pc): nat {
    match pc
    case WantRead(h) => h
    case Fetching(h) => h
    case WantWrite(h, _) => h
    case Searching(h, _) => h
    case WantFree(h, _) => h
    case Freeing(h, _) => h
    case WantData(h) => h
    case AppendingData(h) => h
    case WantEnd(h) => h
    case AppendingIndex(h) => h
    case Linking(h) => h
    case _ => 0
  }

  /** From the time the chain is found to the last pointer written, its lock is held throughout. */
  predicate WritesChain(pc: Pc) {
    || pc.Searching? || pc.WantFree? || pc.Freeing? || pc.WantData? || pc.AppendingData? || pc.WantEnd?
    || pc.AppendingIndex? || pc.Linking?
  }

  function Holds(pc: Pc): set<Lock> {
    (if WritesChain(pc) then {Lock(ChainRegion(ChainOf(pc)), Exclusive)} else {}) +
    match pc
    case Initialising => {Lock(WHOLE_INDEX, Exclusive)}
    case Fetching(h) => {Lock(ChainRegion(h), Shared)}
    case Freeing(_, _) => {Lock(FREE_LIST, Exclusive)}
    case AppendingData(_) => {Lock(WHOLE_DATA, Exclusive)}
    case AppendingIndex(_) => {Lock(INDEX_END, Exclusive)}
    case Listing => {Lock(FREE_LIST, Shared)}
    case _ => {}
  }

  predicate Compatible(a: set<Lock>, b: set<Lock>) {
    forall x, y | x in a && y in b :: !Conflict(x, y)
  }

  /** The table says what the program points say, and no two processes' locks conflict. */
  ghost predicate Inv(s: State) {
    && s.pcs.Keys == s.held.Keys
    && (forall i | i in s.pcs :: ChainOf(s.pcs[i]) < NHASH && s.held[i] == Holds(s.pcs[i]))
    && (forall i, j {:trigger s.held[i], s.held[j]} | i in s.held && j in s.held && i != j ::
      Compatible(s.held[i], s.held[j]))
  }

  lemma MoveHolds(pc: Pc, a: Action, pc': Pc)
    requires Moves(pc, a, pc') && ChainOf(pc) < NHASH
    ensures ChainOf(pc') < NHASH
    ensures Holds(pc') ==
      match a
      case Proceed => Holds(pc)
      case Acquire(lock) => Holds(pc) + {lock}
      case Release(r) => Drop(Holds(pc), r)
  {
  }

  lemma StepInv(s: State, i: Pid, a: Action, s': State)
    requires Inv(s) && Step(s, i, a, s')
    ensures Inv(s')
  {
    hide Moves, Holds, ChainOf, Conflict, Compatible, Drop;
    MoveHolds(s.pcs[i], a, s'.pcs[i]);
    forall j | j in s'.held && j != i ensures Compatible(s'.held[i], s'.held[j]) && Compatible(s'.held[j], s'.held[i]) {
      var mine, theirs := s.held[i], s.held[j];
      assert Compatible(mine, theirs);
      match a
      case Proceed => BothWays(mine, theirs);
      case Acquire(lock) =>
        assert !BlockedBy(s, i, lock, j);
        OneMore(mine, lock, theirs);
      case Release(r) => OneLess(mine, r, theirs);
    }
  }

  lemma BothWays(a: set<Lock>, b: set<Lock>)
    requires Compatible(a, b)
    ensures Compatible(b, a)
  {
    hide Conflict;
    forall x, y | x in b && y in a ensures !Conflict(x, y) {
      Symmetric(x, y);
    }
  }

  lemma OneMore(a: set<Lock>, lock: Lock, b: set<Lock>)
    requires Compatible(a, b) && forall l | l in b :: !Conflict(lock, l)
    ensures Compatible(a + {lock}, b) && Compatible(b, a + {lock})
  {
    hide Conflict;
    BothWays(a + {lock}, b);
  }

  lemma OneLess(a: set<Lock>, r: Region, b: set<Lock>)
    requires Compatible(a, b)
    ensures Compatible(Drop(a, r), b) && Compatible(b, Drop(a, r))
  {
    hide Conflict;
    BothWays(Drop(a, r), b);
  }

  lemma Symmetric(x: Lock, y: Lock)
    ensures Conflict(x, y) <==> Conflict(y, x)
  {
  }

  lemma {:induction false} RunInv(run: seq<State>, k: nat)
    requires Run(run) && k < |run|
    ensures Inv(run[k])
  {
    if k > 0 {
      RunInv(run, k - 1);
      assert Linked(run, k - 1);
      var i, a :| Step(run[k - 1], i, a, run[k]);
      StepInv(run[k - 1], i, a, run[k]);
    }
  }

  // ---- what the locks protect ------------------------------------------------------------

  /** The data that the code at this point reads or writes under a lock. */
  datatype Resource = Chain(h: nat) | FreeList | EndOfIndex | EndOfData | EmptyFile

  predicate Writes(pc: Pc, r: Resource) {
    match r
    case Chain(h) => WritesChain(pc) && ChainOf(pc) == h
    case FreeList => pc.Freeing?
    case EndOfIndex => pc.AppendingIndex?
    case EndOfData => pc.AppendingData?
    case EmptyFile => pc.Initialising?
  }

  predicate Reads(pc: Pc, r: Resource) {
    match r
    case Chain(h) => pc == Fetching(h)
    case FreeList => pc.Listing?
    case EndOfIndex => false
    case EndOfData => false
    case EmptyFile => pc.Fetching? || pc.Listing? || WritesChain(pc)
  }

  function Guard(r: Resource): Region {
    match r
    case Chain(h) => ChainRegion(h)
    case FreeList => FREE_LIST
    case EndOfIndex => INDEX_END
    case EndOfData => WHOLE_DATA
    case EmptyFile => WHOLE_INDEX
  }

  lemma WriterHolds(pc: Pc, r: Resource)
    requires Writes(pc, r)
    ensures Lock(Guard(r), Exclusive) in Holds(pc)
  {
  }

  lemma UserHolds(pc: Pc, r: Resource) returns (l: Lock)
    requires Writes(pc, r) || Reads(pc, r)
    ensures l in Holds(pc) && Overlap(Guard(r), l.region)
  {
    if Writes(pc, r) {
      l := Lock(Guard(r), Exclusive);
    } else if pc.Fetching? {
      l := Lock(ChainRegion(pc.h), Shared);
    } else if pc.Listing? {
      l := Lock(FREE_LIST, Shared);
    } else {
      l := Lock(ChainRegion(ChainOf(pc)), Exclusive);
    }
  }

  lemma Apart(a: set<Lock>, x: Lock, b: set<Lock>, y: Lock)
    requires Compatible(a, b) && x in a && y in b
    ensures !Conflict(x, y)
  {
  }

  lemma Alone(s: State, i: Pid, j: Pid, r: Resource)
    requires Inv(s) && i in s.pcs && j in s.pcs && i != j && Writes(s.pcs[i], r)
    ensures !Writes(s.pcs[j], r) && !Reads(s.pcs[j], r)
  {
    hide Writes, Reads, Holds, Overlap;
    if Writes(s.pcs[j], r) || Reads(s.pcs[j], r) {
      WriterHolds(s.pcs[i], r);
      var l := UserHolds(s.pcs[j], r);
      assert Compatible(s.held[i], s.held[j]);
      Apart(s.held[i], Lock(Guard(r), Exclusive), s.held[j], l);
    }
  }

  /**
    In every reachable state whoever writes a chain, the free list, the end of either
    file, or a file being created is alone with it: no second writer and no reader.
   */
  lemma NoInterference(run: seq<State>, k: nat, i: Pid, j: Pid, r: Resource)
    requires Run(run) && k < |run| && i in run[k].pcs && j in run[k].pcs && i != j
    requires Writes(run[k].pcs[i], r)
    ensures !Writes(run[k].pcs[j], r) && !Reads(run[k].pcs[j], r)
  {
    RunInv(run, k);
    hide Writes, Reads, Inv, Run;
    Alone(run[k], i, j, r);
  }

  // ---- waiting ----------------------------------------------------------------------------

  /** The lock a process is asking for. */
  function Wanted(pc: Pc): set<Lock> {
    match pc
    case WantIndex => {Lock(WHOLE_INDEX, Exclusive)}
    case WantRead(h) => {Lock(ChainRegion(h), Shared)}
    case WantWrite(h, _) => {Lock(ChainRegion(h), Exclusive)}
    case WantFree(_, _) => {Lock(FREE_LIST, Exclusive)}
    case WantData(_) => {Lock(WHOLE_DATA, Exclusive)}
    case WantEnd(_) => {Lock(INDEX_END, Exclusive)}
    case WantList => {Lock(FREE_LIST, Shared)}
    case _ => {}
  }

  ghost predicate WaitsFor(s: State, i: Pid, j: Pid) {
    i in s.pcs && exists l | l in Wanted(s.pcs[i]) :: BlockedBy(s, i, l, j)
  }

  /** The second process is in the way of the first: where the calls really meet, and nowhere else. */
  predicate InTheWay(pc: Pc, other: Pc) {
    match pc
    case WantRead(h) => other.Initialising? || (WritesChain(other) && ChainOf(other) == h)
    case WantWrite(h, _) => other.Initialising? || ((WritesChain(other) || other.Fetching?) && ChainOf(other) == h)
    case WantFree(_, _) => other.Initialising? || other.Freeing? || other.Listing?
    case WantList => other.Initialising? || other.Freeing?
    case WantData(_) => other.AppendingData?
    case WantEnd(_) => other.Initialising? || other.AppendingIndex?
    case WantIndex => other.Initialising? || other.Listing? || other.Fetching? || WritesChain(other)
    case _ => false
  }

  predicate Clash(a: set<Lock>, b: set<Lock>) {
    exists x, y | x in a && y in b :: Conflict(x, y)
  }

  lemma ChainClash(pc: Pc, other: Pc)
    requires ChainOf(pc) < NHASH && ChainOf(other) < NHASH && (pc.WantRead? || pc.WantWrite?)
    ensures Clash(Wanted(pc), Holds(other)) <==> InTheWay(pc, other)
  {
    var mine := if pc.WantRead? then Lock(ChainRegion(pc.h), Shared) else Lock(ChainRegion(pc.h), Exclusive);
    assert Wanted(pc) == {mine};
    if InTheWay(pc, other) {
      var l := if other.Initialising? then Lock(WHOLE_INDEX, Exclusive)
               else if WritesChain(other) then Lock(ChainRegion(ChainOf(other)), Exclusive)
               else Lock(ChainRegion(ChainOf(other)), Shared);
      assert l in Holds(other) && Conflict(mine, l);
    }
  }

  lemma OtherClash(pc: Pc, other: Pc)
    requires ChainOf(pc) < NHASH && ChainOf(other) < NHASH && !pc.WantRead? && !pc.WantWrite? && !pc.WantIndex?
    ensures Clash(Wanted(pc), Holds(other)) <==> InTheWay(pc, other)
  {
    if InTheWay(pc, other) {
      var mine := if pc.WantFree? then Lock(FREE_LIST, Exclusive)
                  else if pc.WantList? then Lock(FREE_LIST, Shared)
                  else if pc.WantData? then Lock(WHOLE_DATA, Exclusive)
                  else Lock(INDEX_END, Exclusive);
      assert mine in Wanted(pc);
      var l := if other.Initialising? then Lock(WHOLE_INDEX, Exclusive)
               else if other.Freeing? then Lock(FREE_LIST, Exclusive)
               else if other.Listing? then Lock(FREE_LIST, Shared)
               else if other.AppendingData? then Lock(WHOLE_DATA, Exclusive)
               else Lock(INDEX_END, Exclusive);
      assert l in Holds(other) && Conflict(mine, l);
    }
  }

  lemma IndexClash(pc: Pc, other: Pc)
    requires ChainOf(other) < NHASH && pc.WantIndex?
    ensures Clash(Wanted(pc), Holds(other)) <==> InTheWay(pc, other)
  {
    var mine := Lock(WHOLE_INDEX, Exclusive);
    if InTheWay(pc, other) {
      var l := if other.Initialising? then Lock(WHOLE_INDEX, Exclusive)
               else if other.Listing? then Lock(FREE_LIST, Shared)
               else if other.Fetching? then Lock(ChainRegion(other.h), Shared)
               else Lock(ChainRegion(ChainOf(other)), Exclusive);
      assert l in Holds(other) && Conflict(mine, l);
    }
  }

  /** Exactly whom a process waits for: processes on different chains, or at different ends, never meet. */
  lemma WaitsExactly(s: State, i: Pid, j: Pid)
    requires Inv(s) && i in s.pcs && j in s.pcs && i != j
    ensures WaitsFor(s, i, j) <==> InTheWay(s.pcs[i], s.pcs[j])
  {
    var pc, other := s.pcs[i], s.pcs[j];
    assert ChainOf(pc) < NHASH && ChainOf(other) < NHASH && s.held[j] == Holds(other);
    hide Inv, Wanted, Holds, InTheWay, Conflict, ChainOf, WritesChain;
    if pc.WantRead? || pc.WantWrite? {
      ChainClash(pc, other);
    } else if pc.WantIndex? {
      IndexClash(pc, other);
    } else {
      OtherClash(pc, other);
    }
    HoldsLocks(s, j);
    if Clash(Wanted(pc), Holds(other)) {
      var x, y :| x in Wanted(pc) && y in Holds(other) && Conflict(x, y);
      assert BlockedBy(s, i, x, j);
    }
  }

  lemma HoldsLocks(s: State, j: Pid)
    requires Inv(s) && j in s.pcs
    ensures j in s.held && s.held[j] == Holds(s.pcs[j])
  {
    hide Holds, ChainOf, Compatible;
  }

  /** The order in which locks are asked for; a process that waits for none is last. */
  function Level(pc: Pc): nat {
    match pc
    case WantIndex => 0
    case WantRead(_) => 1
    case WantWrite(_, _) => 1
    case WantList => 2
    case WantFree(_, _) => 2
    case WantData(_) => 3
    case WantEnd(_) => 3
    case _ => 4
  }

  lemma HolderLevel(i: Pc, wanted: Lock, j: Pc, held: Lock)
    requires wanted in Wanted(i) && held in Holds(j) && Conflict(wanted, held)
    requires ChainOf(i) < NHASH && ChainOf(j) < NHASH
    ensures Level(i) < Level(j)
  {
  }

  /** Whoever is waited for asks for a later lock, or for none. */
  lemma WaitLevel(s: State, i: Pid, j: Pid)
    requires Inv(s) && WaitsFor(s, i, j)
    ensures i in s.pcs && j in s.pcs && Level(s.pcs[i]) < Level(s.pcs[j])
  {
    hide Holds, Wanted, Level, ChainOf, Conflict;
    var wanted :| wanted in Wanted(s.pcs[i]) && BlockedBy(s, i, wanted, j);
    var held :| held in s.held[j] && Conflict(wanted, held);
    HolderLevel(s.pcs[i], wanted, s.pcs[j], held);
  }

  /** A walk along the wait-for graph. */
  ghost predicate WaitPath(s: State, path: seq<Pid>) {
    forall n {:trigger WaitEdge(s, path, n)} | 0 <= n < |path| - 1 :: WaitEdge(s, path, n)
  }

  ghost predicate WaitEdge(s: State, path: seq<Pid>, n: nat) {
    n + 1 < |path| && WaitsFor(s, path[n], path[n + 1])
  }

  lemma {:induction false} PathClimbs(s: State, path: seq<Pid>)
    requires Inv(s) && |path| >= 2 && WaitPath(s, path)
    ensures path[0] in s.pcs && path[|path| - 1] in s.pcs
    ensures Level(s.pcs[path[0]]) + |path| - 1 <= Level(s.pcs[path[|path| - 1]]) <= 4
    decreases |path|
  {
    hide WaitsFor, Level, Inv;
    var n := |path| - 1;
    assert WaitEdge(s, path, n - 1);
    WaitLevel(s, path[n - 1], path[n]);
    AtMostFour(s.pcs[path[n]]);
    if n >= 2 {
      var init := path[..n];
      forall m | 0 <= m < |init| - 1 ensures WaitEdge(s, init, m) {
        assert WaitEdge(s, path, m);
      }
      PathClimbs(s, init);
    }
  }

  /** No deadlock: in every reachable state a path of waits has at most five processes and never returns. */
  lemma NoWaitCycle(run: seq<State>, k: nat, path: seq<Pid>)
    requires Run(run) && k < |run| && |path| >= 2 && WaitPath(run[k], path)
    ensures path[0] != path[|path| - 1] && |path| <= 5
  {
    hide Level, WaitPath;
    RunInv(run, k);
    PathClimbs(run[k], path);
  }

  lemma FreeToStep(s: State, i: Pid)
    requires Inv(s) && i in s.pcs && forall j :: !WaitsFor(s, i, j)
    ensures CanStep(s, i)
  {
    hide Wanted, Moves, Drop, BlockedBy, Holds, ChainOf, Compatible;
    HoldsLocks(s, i);
    var pc := s.pcs[i];
    if l :| l in Wanted(pc) {
      var pc' := Granted(pc, l);
      forall j ensures !BlockedBy(s, i, l, j) {
        assert !WaitsFor(s, i, j);
      }
      assert Step(s, i, Acquire(l), State(s.pcs[i := pc'], s.held[i := s.held[i] + {l}]));
    } else {
      var a, pc' := Unhindered(pc);
      var held := if a.Release? then s.held[i := Drop(s.held[i], a.region)] else s.held;
      assert Step(s, i, a, State(s.pcs[i := pc'], held));
    }
  }

  lemma Granted(pc: Pc, l: Lock) returns (pc': Pc)
    requires l in Wanted(pc)
    ensures Moves(pc, Acquire(l), pc')
  {
    match pc
    case WantIndex => pc' := Initialising;
    case WantRead(h) => pc' := Fetching(h);
    case WantWrite(h, storing) => pc' := Searching(h, storing);
    case WantFree(h, next) => pc' := Freeing(h, next);
    case WantData(h) => pc' := AppendingData(h);
    case WantEnd(h) => pc' := AppendingIndex(h);
    case _ => pc' := Listing;
  }

  lemma Unhindered(pc: Pc) returns (a: Action, pc': Pc)
    requires Wanted(pc) == {}
    ensures Moves(pc, a, pc') && !a.Acquire?
  {
    match pc
    case Idle => a, pc' := Proceed, WantList;
    case Initialising => a, pc' := Release(WHOLE_INDEX), Idle;
    case Fetching(h) => a, pc' := Release(ChainRegion(h)), Idle;
    case Searching(h, _) => a, pc' := Proceed, Linking(h);
    case Freeing(h, next) => a, pc' := Release(FREE_LIST), if next == Append then WantData(h) else Linking(h);
    case AppendingData(h) => a, pc' := Release(WHOLE_DATA), WantEnd(h);
    case AppendingIndex(h) => a, pc' := Release(INDEX_END), Linking(h);
    case Linking(h) => a, pc' := Release(ChainRegion(h)), Idle;
    case _ => a, pc' := Release(FREE_LIST), Idle;
  }

  /** Behind every process there is one that can go on: itself, or one it waits for in the end. */
  lemma {:induction false} SomeoneCanStep(s: State, i: Pid) returns (path: seq<Pid>)
    requires Inv(s) && i in s.pcs
    ensures path != [] && path[0] == i && WaitPath(s, path) && CanStep(s, path[|path| - 1])
    decreases 4 - Level(s.pcs[i])
  {
    hide WaitsFor, CanStep, Inv;
    if j :| WaitsFor(s, i, j) {
      WaitLevel(s, i, j);
      AtMostFour(s.pcs[j]);
      var rest := SomeoneCanStep(s, j);
      path := [i] + rest;
      forall n | 0 <= n < |path| - 1 ensures WaitEdge(s, path, n) {
        if n > 0 {
          assert WaitEdge(s, rest, n - 1);
        }
      }
    } else {
      FreeToStep(s, i);
      path := [i];
    }
  }

  lemma AtMostFour(pc: Pc)
    ensures Level(pc) <= 4
  {
  }
}
