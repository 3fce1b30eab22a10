/**
  Whole runs of any number of processes on the shared files: the calls answer as calls on one
  plain map, every record is on one list or in the hands of one call, and no two of them
  share a byte of the files.
 */
module DbSharedRuns {
  import opened Common
  import opened CStrings
  import opened DbRecord
  import opened DbFormat
  import opened DbLists
  import opened DbContents
  import opened DbSpec
  import opened DbLaws
  import opened DbShared
  import opened DbSharedFrame
  import opened DbSharedActs
  import opened DbSharedReads
  import opened DbSharedCalls
  import L = DbLocks
  import A = DbAtomic

  ghost predicate Steps(s: State, s': State) {
    exists i, mv :: Step(s, i, mv, s')
  }

  ghost predicate Follows(run: seq<State>, k: nat) {
    k + 1 < |run| && Steps(run[k], run[k + 1])
  }

  ghost predicate Run(run: seq<State>) {
    && run != [] && Initial(run[0])
    && forall k {:trigger Follows(run, k)} | 0 <= k < |run| - 1 :: Follows(run, k)
  }

  // ---- the beginning ---------------------------------------------------------------------------------------

  ghost function NoLists(): Lists {
    Lists(seq(NLISTS, _ => []), map[])
  }

  function NoKeys(n: nat): (chains: map<nat, Dict>)
    ensures forall h | 0 <= h < n :: h in chains && chains[h] == map[]
  {
    if n == 0 then map[] else NoKeys(n - 1)[n - 1 := map[]]
  }

  lemma InitialThreaded(s: State)
    requires Initial(s)
    ensures Threaded(s.mem.ptrs, NoLists())
  {
    var t := NoLists();
    forall l | 0 <= l < NLISTS ensures Linked(s.mem.ptrs, l, t.chains[l]) {
      assert EmptySlot(s.mem, l);
    }
  }

  lemma InitialParts(s: State, g: Ghost)
    requires s.jobs == map[] && s.mem.cells == map[] && s.mem.idxEnd == BASE && g.want == s.mem.ptrs
    requires g.t.home == map[]
    requires (forall x | x in s.mem.ptrs :: x < BASE)
    requires forall h | h in g.abs.chains && h < NHASH :: g.abs.chains[h] == map[]
    ensures Spots(s, g) && RecsApart(s.mem.cells) && ClaimsOk(s) && KeysOk(s.mem.cells, g.t.home, g.abs.chains)
    ensures Procs(s, g)
  {
    hide Broken, Owned;
    forall x: nat ensures SpotOk(s, g, x) {
    }
  }

  lemma InitialInv(s: State) returns (g: Ghost)
    requires Initial(s)
    ensures Inv(s, g) && A.Initial(g.abs)
  {
    hide Threaded, Spots, RecsApart, ClaimsOk, KeysOk, Procs, A.Inv, L.Initial;
    g := Ghost(NoLists(), s.mem.ptrs, A.State(s.locks, NoKeys(NHASH), map[], map[], []));
    InitialThreaded(s);
    InitialParts(s, g);
    assert A.Initial(g.abs);
    A.InitialInv(g.abs);
    assert AbsJobs(s.jobs) == map[];
  }

  // ---- every run ---------------------------------------------------------------------------------------------

  /** One moment of a run beside the call-by-call view of it. */
  ghost predicate Viewed(run: seq<State>, gs: seq<Ghost>, k: nat) {
    k < |run| && k < |gs| && Inv(run[k], gs[k]) && (k > 0 ==> Refines(gs[k - 1].abs, gs[k].abs))
  }

  /** The run on the files is, call by call, a run of DbAtomic. */
  lemma {:induction false} RunRefines(run: seq<State>, n: nat) returns (gs: seq<Ghost>)
    requires Run(run) && n < |run|
    ensures |gs| == n + 1 && A.Initial(gs[0].abs)
    ensures forall k {:trigger Viewed(run, gs, k)} | 0 <= k <= n :: Viewed(run, gs, k)
  {
    hide Inv, Step, Initial, Refines, A.Initial;
    if n == 0 {
      var g := InitialInv(run[0]);
      gs := [g];
    } else {
      var before := RunRefines(run, n - 1);
      assert Viewed(run, before, n - 1) && Follows(run, n - 1);
      var i, mv :| Step(run[n - 1], i, mv, run[n]);
      var g := StepInv(run[n - 1], before[n - 1], i, mv, run[n]);
      gs := before + [g];
      forall k | 0 <= k <= n ensures Viewed(run, gs, k) {
        if k < n {
          assert Viewed(run, before, k);
        }
      }
    }
  }

  lemma RunInv(run: seq<State>, k: nat) returns (g: Ghost)
    requires Run(run) && k < |run|
    ensures Inv(run[k], g)
  {
    hide Run, Inv, Refines, A.Initial;
    var gs := RunRefines(run, k);
    assert Viewed(run, gs, k);
    g := gs[k];
  }

  // ---- one at a time --------------------------------------------------------------------------------------------

  /** Nobody is changing chain h. */
  ghost predicate Quiet(s: State, h: nat) {
    forall i | i in s.locks.pcs :: !(A.Changing(s.locks.pcs[i]) && L.ChainOf(s.locks.pcs[i]) == h)
  }

  /** Chain h, followed in the files, holds for each of its keys what the map holds. */
  ghost predicate ChainHolds(mem: Mem, h: nat, c: seq<nat>, d: Dict) {
    Followed(mem, h + 1, c) && forall key | Hash(key) == h :: Found(mem, c, key) == SpecFetch(d, key)
  }

  lemma ViewLog(s: State, g: Ghost)
    requires Coupled(s, g)
    ensures SpecRun(map[], A.Ops(s.log)) == (g.abs.dict, A.Replies(s.log))
  {
    hide A.Ops, A.Replies, SpecRun, L.Inv, A.ProcOk, A.ChainOk, AbsJobs;
  }

  lemma ViewChain(s: State, g: Ghost, h: nat)
    requires Coupled(s, g) && Quiet(s, h) && h < NHASH
    ensures h in g.abs.chains && g.abs.chains[h] == A.Slice(g.abs.dict, h)
  {
    hide A.Replayed, L.Inv, A.ProcOk, AbsJobs, A.Slice, A.Changing, L.ChainOf;
    assert A.ChainOk(g.abs, h);
  }

  lemma SliceFetch(d: Dict, h: nat, key: Bytes)
    requires Hash(key) == h
    ensures SpecFetch(A.Slice(d, h), key) == SpecFetch(d, key)
  {
    hide Hash;
  }

  /** A call that breaks or spoils anything is changing its chain. */
  lemma MarkerChanges(pc: L.Pc, job: Job, l: nat, mem: Mem, t: Lists, want: map<nat, nat>)
    requires PcOk(pc, job) && Knows(job, l, mem, t, want) && (Break(job).Some? || Spoil(job).Some?)
    ensures A.Changing(pc)
  {
    hide Knows;
  }

  lemma QuietFor(s: State, h: nat, j: Pid)
    requires Quiet(s, h) && j in s.locks.pcs
    ensures !(A.Changing(s.locks.pcs[j]) && L.ChainOf(s.locks.pcs[j]) == h)
  {
    hide A.Changing, L.ChainOf;
  }

  lemma QuietUnbroken(s: State, g: Ghost, h: nat, x: nat)
    requires Inv(s, g) && Quiet(s, h) && h < NHASH && FieldOf(g.t, h + 1, x)
    ensures !Broken(s.jobs, x)
  {
    hide JobOk;
    hide Inv, FieldOf, Break, L.WritesChain, L.ChainOf, Knows, PcOk, Threaded, Spots, ClaimsOk, KeysOk, Procs;
    hide RecsApart, Coupled;
    hide A.Changing, Quiet;
    if Broken(s.jobs, x) {
      var j :| j in s.jobs && Break(s.jobs[j]) == Some(x);
      Parts(s, g);
      ProcIs(s, g, j);
      var pc := s.locks.pcs[j];
      QuietFor(s, h, j);
      JobKnows(pc, s.jobs[j], s.mem, g);
      JobChain(pc, s.jobs[j], s.mem, g, g.abs.chains[L.ChainOf(pc)]);
      BreakFacts(pc, s.jobs[j], L.ChainOf(pc) + 1, s.mem, g.t, g.want);
      MarkerChanges(pc, s.jobs[j], L.ChainOf(pc) + 1, s.mem, g.t, g.want);
      FieldsApart(g.want, g.t, h + 1, L.ChainOf(pc) + 1, x);
    }
  }

  lemma QuietUnspoiled(s: State, g: Ghost, h: nat, o: nat)
    requires Inv(s, g) && Quiet(s, h) && o in g.t.home && g.t.home[o] == h + 1
    ensures !Spoiled(s.jobs, o)
  {
    hide JobOk;
    hide Inv, FieldOf, Spoil, L.WritesChain, L.ChainOf, Knows, PcOk, Threaded, Spots, ClaimsOk, KeysOk, Procs;
    hide RecsApart, Coupled;
    hide A.Changing, OnList, Quiet;
    if Spoiled(s.jobs, o) {
      var j :| j in s.jobs && Spoil(s.jobs[j]) == Some(o);
      Parts(s, g);
      ProcIs(s, g, j);
      var pc := s.locks.pcs[j];
      QuietFor(s, h, j);
      JobKnows(pc, s.jobs[j], s.mem, g);
      JobChain(pc, s.jobs[j], s.mem, g, g.abs.chains[L.ChainOf(pc)]);
      SpoilFacts(pc, s.jobs[j], L.ChainOf(pc) + 1, s.mem, g.t, g.want);
      MarkerChanges(pc, s.jobs[j], L.ChainOf(pc) + 1, s.mem, g.t, g.want);
      OnListFields(g.want, g.t, L.ChainOf(pc) + 1, s.jobs[j]);
    }
  }

  lemma QuietFetch(s: State, g: Ghost, h: nat, key: Bytes)
    requires Inv(s, g) && Quiet(s, h) && h < NHASH && h in g.abs.chains
    ensures |g.t.chains| == NLISTS
    ensures Found(s.mem, g.t.chains[h + 1], key) == SpecFetch(g.abs.chains[h], key)
  {
    hide Inv, Quiet, HomeOk, FirstKey, Spoiled;
    SearchFinds(s, g, h, key);
    var c := g.t.chains[h + 1];
    var k := FirstKey(s.mem.cells, c, key);
    if k < |c| {
      HomeFacts(s, g, c[k]);
      QuietUnspoiled(s, g, h, c[k]);
      ChainedData(s, g, c[k]);
    }
  }

  lemma QuietChain(s: State, g: Ghost, h: nat, d: Dict)
    requires Inv(s, g) && Quiet(s, h) && h < NHASH && d == g.abs.dict
    ensures |g.t.chains| == NLISTS && ChainHolds(s.mem, h, g.t.chains[h + 1], d)
  {
    hide Inv, Quiet, Spots, Threaded, ClaimsOk, RecsApart, KeysOk, Procs, Coupled, FieldOf, Broken, Found, SpecFetch;
    hide A.Slice;
    Parts(s, g);
    ViewChain(s, g, h);
    var c := g.t.chains[h + 1];
    assert Unhurt(s, g.t, h + 1) by {
      forall x | FieldOf(g.t, h + 1, x) ensures !Broken(s.jobs, x) {
        QuietUnbroken(s, g, h, x);
      }
    }
    FollowUnbroken(s, g, h + 1);
    forall key | Hash(key) == h ensures Found(s.mem, c, key) == SpecFetch(d, key) {
      QuietFetch(s, g, h, key);
      SliceFetch(d, h, key);
    }
  }

  /**
    In every interleaving of the reads and writes of any number of processes, the calls, in the
    order in which they took effect, have answered as calls on one plain map; and a chain that
    nobody is changing, followed in the files, holds its part of that map.
   */
  lemma Atomic(run: seq<State>, k: nat)
    requires Run(run) && k < |run|
    ensures SpecRun(map[], A.Ops(run[k].log)).1 == A.Replies(run[k].log)
    ensures forall n | 0 <= n < |run[k].log| :: Answers(A.Ops(run[k].log), A.Replies(run[k].log), n)
    ensures forall h | 0 <= h < NHASH && Quiet(run[k], h) ::
      exists c :: ChainHolds(run[k].mem, h, c, SpecRun(map[], A.Ops(run[k].log)).0)
  {
    hide Run, Inv, Quiet, ChainHolds, SpecRun, A.Ops, A.Replies, Answers, Spots;
    hide Threaded, ClaimsOk, RecsApart, KeysOk, Procs;
    hide Coupled;
    var g := RunInv(run, k);
    Parts(run[k], g);
    ViewLog(run[k], g);
    Told(A.Ops(run[k].log), g.abs.dict, A.Replies(run[k].log));
    forall h | 0 <= h < NHASH && Quiet(run[k], h)
      ensures exists c :: ChainHolds(run[k].mem, h, c, SpecRun(map[], A.Ops(run[k].log)).0)
    {
      QuietChain(run[k], g, h, g.abs.dict);
    }
  }

  // ---- who has a record, and who has a byte -----------------------------------------------------------------------

  /** A list of the index file, or a call between unlinking and linking. */
  datatype Holder = OnTheList(l: nat) | InHand(i: Pid)

  ghost predicate Holds(s: State, t: Lists, o: nat, who: Holder) {
    match who
    case OnTheList(l) => l < |t.chains| && o in t.chains[l]
    case InHand(i) => i in s.jobs && Own(s.jobs[i]) == Some(o)
  }

  /** No unlinking from list l is under way. */
  ghost predicate Unhurt(s: State, t: Lists, l: nat) {
    forall x | FieldOf(t, l, x) :: !Broken(s.jobs, x)
  }

  /** The lists are those in the file, where no unlinking is under way. */
  ghost predicate ListsOf(s: State, t: Lists) {
    && |t.chains| == NLISTS
    && forall l | 0 <= l < NLISTS && Unhurt(s, t, l) :: Followed(s.mem, l, t.chains[l])
  }

  lemma FollowUnbroken(s: State, g: Ghost, l: nat)
    requires Inv(s, g) && l < NLISTS && Unhurt(s, g.t, l)
    ensures |g.t.chains| == NLISTS && Followed(s.mem, l, g.t.chains[l])
  {
    hide Inv, Spots, Threaded, ClaimsOk, RecsApart, KeysOk, Procs, Coupled, FieldOf, Broken;
    Parts(s, g);
    ListLinked(s, g, l);
    var d := g.t.chains[l];
    forall k | 0 <= k <= |d| ensures Node(l, d, k) in s.mem.ptrs && s.mem.ptrs[Node(l, d, k)] == Succ(d, k) {
      NodeField(g.want, g.t, l, k);
      assert Node(l, d, k) in g.want;
      PtrIs(s, g, Node(l, d, k));
    }
  }

  lemma SomeHolder(s: State, g: Ghost, o: nat) returns (who: Holder)
    requires Inv(s, g) && o in s.mem.cells
    ensures Holds(s, g.t, o, who)
  {
    hide Inv, Spots, Threaded, ClaimsOk, RecsApart, KeysOk, Procs, Coupled, Own;
    Parts(s, g);
    if o in g.t.home {
      HousedIn(g.want, g.t, o);
      who := OnTheList(g.t.home[o]);
    } else {
      LooseOwned(s, g, o);
      var i :| i in s.jobs && Own(s.jobs[i]) == Some(o);
      who := InHand(i);
    }
  }

  lemma LooseOwned(s: State, g: Ghost, o: nat)
    requires Spots(s, g) && o in s.mem.cells && o !in g.t.home
    ensures Owned(s.jobs, o)
  {
    hide Owned, PtrOk, HomeOk;
    SpotHere(s, g, o);
  }

  lemma ListHome(want: map<nat, nat>, t: Lists, l: nat, o: nat)
    requires Threaded(want, t) && l < |t.chains| && o in t.chains[l]
    ensures o in t.home && t.home[o] == l
  {
    ListCount(want, t);
    hide Housed, NoDup, Linked;
  }

  lemma OneHolder(s: State, g: Ghost, o: nat, who: Holder, whom: Holder)
    requires Inv(s, g) && Holds(s, g.t, o, who) && Holds(s, g.t, o, whom)
    ensures who == whom
  {
    hide Inv, Spots, Threaded, ClaimsOk, RecsApart, KeysOk, Procs, Coupled, Own;
    Parts(s, g);
    if who.OnTheList? {
      ListHome(g.want, g.t, who.l, o);
    } else {
      OwnedLoose(s, g, who.i);
    }
    if whom.OnTheList? {
      ListHome(g.want, g.t, whom.l, o);
    } else {
      OwnedLoose(s, g, whom.i);
    }
    if who.InHand? && whom.InHand? {
      OwnersApart(s, g, who.i, whom.i);
    }
  }

  lemma OwnersApart(s: State, g: Ghost, i: Pid, j: Pid)
    requires Procs(s, g) && i in s.jobs && j in s.jobs
    ensures OwnApart(s.jobs, i, j)
  {
    hide ProcOk, Own;
  }

  /** At every moment each record is on exactly one list or in the hands of exactly one call, and
      those on the free list have blank keys. */
  lemma RecordsHeldOnce(run: seq<State>, k: nat) returns (t: Lists)
    requires Run(run) && k < |run|
    ensures ListsOf(run[k], t) && forall l | 0 <= l < NLISTS :: NoDup(t.chains[l])
    ensures forall o, i | o in t.chains[0] && o in run[k].mem.cells && 0 <= i < |run[k].mem.cells[o].key| ::
      run[k].mem.cells[o].key[i] == 32
    ensures forall o | o in run[k].mem.cells :: exists who :: Holds(run[k], t, o, who)
    ensures forall o, who, whom | Holds(run[k], t, o, who) && Holds(run[k], t, o, whom) :: who == whom
  {
    hide Run, Inv, Holds, Spots, Threaded, ClaimsOk, RecsApart, KeysOk, Procs, Coupled, NoDup, Followed, FieldOf;
    hide Broken;
    var s := run[k];
    var g := RunInv(run, k);
    t := g.t;
    Parts(s, g);
    forall l | 0 <= l < NLISTS ensures NoDup(t.chains[l]) {
      OneNoDup(g.want, t, l);
    }
    forall l | 0 <= l < NLISTS && Unhurt(s, t, l) ensures Followed(s.mem, l, t.chains[l]) {
      FollowUnbroken(s, g, l);
    }
    forall o | o in t.chains[0] && o in s.mem.cells ensures AllSpaces(s.mem.cells[o].key) {
      ListHome(g.want, t, 0, o);
      FreeBlank(s, g, o);
    }
    forall o | o in s.mem.cells ensures exists who :: Holds(s, t, o, who) {
      var who := SomeHolder(s, g, o);
    }
    forall o, who, whom | Holds(s, t, o, who) && Holds(s, t, o, whom) ensures who == whom {
      OneHolder(s, g, o, who, whom);
    }
  }

  lemma FreeBlank(s: State, g: Ghost, o: nat)
    requires Spots(s, g) && o in g.t.home && g.t.home[o] == 0
    ensures o in s.mem.cells && AllSpaces(s.mem.cells[o].key)
  {
    hide AllSpaces, Spots;
    HomeHere(s, g, o);
  }

  lemma OneNoDup(want: map<nat, nat>, t: Lists, l: nat)
    requires Threaded(want, t) && l < NLISTS
    ensures NoDup(t.chains[l])
  {
    hide NoDup, Housed, Linked;
  }

  /** At every moment records do not overlap in the index file, and the data of records and of
      calls about to append one do not overlap in the data file. */
  lemma NothingOverlaps(run: seq<State>, k: nat)
    requires Run(run) && k < |run|
    ensures var cells := run[k].mem.cells;
      && (forall x | x in cells :: BASE <= x && x + RecLen(cells[x]) <= run[k].mem.idxEnd)
      && forall x, y | x in cells && y in cells && x < y :: x + RecLen(cells[x]) <= y
    ensures forall a | Claims(run[k], a) :: End(Claimed(run[k], a)) <= |run[k].mem.data|
    ensures forall a, b | Claims(run[k], a) && Claims(run[k], b) && a != b ::
      Apart(Claimed(run[k], a), Claimed(run[k], b))
  {
    hide Run, Inv, Spots, Threaded, ClaimsOk, RecsApart, KeysOk, Procs, Coupled, RecLen, Claims, Claimed;
    var s := run[k];
    var g := RunInv(run, k);
    Parts(s, g);
    forall x | x in s.mem.cells ensures BASE <= x && x + RecLen(s.mem.cells[x]) <= s.mem.idxEnd {
      CellHere(s, g, x);
    }
    forall x, y | x in s.mem.cells && y in s.mem.cells && x < y ensures x + RecLen(s.mem.cells[x]) <= y {
      RecsHere(s.mem.cells, x, y);
    }
    forall a | Claims(s, a) ensures End(Claimed(s, a)) <= |s.mem.data| {
      ClaimHere(s, a);
    }
    forall a, b | Claims(s, a) && Claims(s, b) && a != b ensures Apart(Claimed(s, a), Claimed(s, b)) {
      ClaimsHere(s, a, b);
    }
  }

  lemma CellHere(s: State, g: Ghost, x: nat)
    requires Spots(s, g) && x in s.mem.cells
    ensures CellOk(s, g, x)
  {
    hide CellOk, PtrOk, HomeOk;
    SpotHere(s, g, x);
  }

  lemma RecsHere(cells: map<nat, Rec>, x: nat, y: nat)
    requires RecsApart(cells) && x in cells && y in cells
    ensures RecApart(cells, x, y)
  {
    hide RecApart;
  }

  lemma ClaimHere(s: State, a: Claim)
    requires ClaimsOk(s) && Claims(s, a)
    ensures ClaimOk(s, a)
  {
    hide ClaimOk, ClaimsApart;
  }

  lemma ClaimsHere(s: State, a: Claim, b: Claim)
    requires ClaimsOk(s) && Claims(s, a) && Claims(s, b)
    ensures ClaimsApart(s, a, b)
  {
    hide ClaimOk, ClaimsApart;
  }

  // ---- reading under a lock -----------------------------------------------------------------------------------

  lemma NotTheirs(s: State, g: Ghost, i: Pid, j: Pid, l: nat, x: nat)
    requires Inv(s, g) && i != j && i in s.jobs && i in s.locks.pcs && L.WritesChain(s.locks.pcs[i])
    requires MayRead(s, j, l) && l < NLISTS && FieldOf(g.t, l, x)
    ensures !Mine(s.locks.pcs[i], s.jobs[i], g.t, s.mem.idxEnd, x)
    ensures l != L.ChainOf(s.locks.pcs[i]) + 1 && !(l == 0 && s.locks.pcs[i].Freeing?)
  {
    hide Inv, FieldOf, L.WritesChain, L.ChainOf, Own, Break, Spots, Threaded, ClaimsOk, RecsApart, KeysOk, Procs;
    hide Coupled;
    Parts(s, g);
    LocksApart(s, g, i, j);
    OwnedLoose(s, g, i);
    HomeInside(s, g, x);
    FieldPlace(g.t, l, x);
    var pc := s.locks.pcs[i];
    if FieldOf(g.t, L.ChainOf(pc) + 1, x) {
      FieldsApart(g.want, g.t, l, L.ChainOf(pc) + 1, x);
    }
    if FieldOf(g.t, 0, x) {
      FieldsApart(g.want, g.t, l, 0, x);
    }
  }

  lemma FieldPlace(t: Lists, l: nat, x: nat)
    requires FieldOf(t, l, x) && l < NLISTS
    ensures x < BASE || x in t.home
  {
  }

  /** The records of the list are the same, and so are their data. */
  ghost predicate SameRecords(s: State, c: seq<nat>, s': State) {
    forall o | o in c :: o in s.mem.cells && o in s'.mem.cells && s'.mem.cells[o] == s.mem.cells[o] &&
      SameData(s.mem.data, s'.mem.data, s.mem.cells[o])
  }

  lemma ConfinedReads(s: State, g: Ghost, i: Pid, s': State, g': Ghost, j: Pid, l: nat, c: seq<nat>)
    requires Inv(s, g) && Only(s, g, i, s', g') && i != j && MayRead(s, j, l) && l < NLISTS && Followed(s.mem, l, c)
    ensures Followed(s'.mem, l, c) && SameRecords(s, c, s')
  {
    hide Inv, FieldOf, MayRead, Mine, Spots, Threaded, ClaimsOk, RecsApart, KeysOk, Procs, Coupled, L.WritesChain;
    hide L.ChainOf;
    hide SameData, Linked;
    Parts(s, g);
    FollowedIs(s, g, j, l, c);
    ListLinked(s, g, l);
    forall k | 0 <= k <= |c| ensures SameAt(s.mem, g, s'.mem, g', Node(l, c, k)) {
      NodeField(g.want, g.t, l, k);
      NotTheirs(s, g, i, j, l, Node(l, c, k));
    }
    LinkedSame(s.mem, g, s'.mem, g', l, c);
    forall o | o in c
      ensures o in s.mem.cells && o in s'.mem.cells && s'.mem.cells[o] == s.mem.cells[o]
      ensures SameData(s.mem.data, s'.mem.data, s.mem.cells[o])
    {
      MemberField(g.t, l, o);
      NotTheirs(s, g, i, j, l, o);
      assert SameAt(s.mem, g, s'.mem, g', o);
      assert DataKept(s, s', Of(o));
    }
  }

  lemma MemberField(t: Lists, l: nat, o: nat)
    requires o in t.home && t.home[o] == l
    ensures FieldOf(t, l, o)
  {
  }

  lemma LinkedSame(mem: Mem, g: Ghost, mem': Mem, g': Ghost, l: nat, c: seq<nat>)
    requires Linked(mem.ptrs, l, c) && forall k | 0 <= k <= |c| :: SameAt(mem, g, mem', g', Node(l, c, k))
    ensures Linked(mem'.ptrs, l, c)
  {
    forall k | 0 <= k <= |c| ensures Node(l, c, k) in mem'.ptrs && mem'.ptrs[Node(l, c, k)] == Succ(c, k) {
      assert SameAt(mem, g, mem', g', Node(l, c, k));
    }
  }

  lemma StillReads(s: State, g: Ghost, l: nat, c: seq<nat>)
    requires Inv(s, g) && Followed(s.mem, l, c)
    ensures SameRecords(s, c, s)
  {
    hide Inv, Spots, Threaded, ClaimsOk, RecsApart, KeysOk, Procs, Coupled, Linked;
    Parts(s, g);
    forall o | o in c ensures SameData(s.mem.data, s.mem.data, s.mem.cells[o]) {
      ClaimHere(s, Of(o));
    }
  }

  /**
    Between the reads of one process on a list it may read, no step of another process changes
    a pointer, a record or the data of that list: read one by one they are what they were at once.
   */
  lemma ReadsUndisturbed(run: seq<State>, k: nat, i: Pid, mv: Move, j: Pid, l: nat, c: seq<nat>)
    requires Run(run) && k + 1 < |run| && Step(run[k], i, mv, run[k + 1]) && i != j
    requires MayRead(run[k], j, l) && l < NLISTS && Followed(run[k].mem, l, c)
    ensures Followed(run[k + 1].mem, l, c) && SameRecords(run[k], c, run[k + 1])
  {
    hide Run, Inv, Step, MayRead, Followed, Refines, Only, SameRecords;
    var g := RunInv(run, k);
    var g' := StepInv(run[k], g, i, mv, run[k + 1]);
    if Only(run[k], g, i, run[k + 1], g') {
      ConfinedReads(run[k], g, i, run[k + 1], g', j, l, c);
    } else {
      StillReads(run[k], g, l, c);
      SameMem(run[k], run[k + 1], c);
    }
  }

  lemma SameMem(s: State, s': State, c: seq<nat>)
    requires s'.mem == s.mem && SameRecords(s, c, s)
    ensures SameRecords(s, c, s')
  {
  }
}
