/** The writes of a call in progress to the index file keep the invariant. */
module DbSharedIndex {
  import opened Common
  import opened CStrings
  import opened DbCells
  import opened DbRecord
  import opened DbFormat
  import opened DbLists
  import opened DbContents
  import opened DbSpec
  import opened DbShared
  import opened DbSharedFrame
  import opened DbSharedParts
  import opened DbSharedActs
  import L = DbLocks

  // ---- a step that touches two locations -------------------------------------------------------------

  ghost predicate Touches(s: State, g: Ghost, s': State, g': Ghost, a: nat, b: nat) {
    && s'.mem.data == s.mem.data && s.mem.idxEnd <= s'.mem.idxEnd
    && forall x | x != a && x != b :: SameAt(s.mem, g, s'.mem, g', x)
  }

  /** The lists and views that the process may not change are as they were. */
  ghost predicate ListsKept(pc: L.Pc, g: Ghost, g': Ghost) {
    && |g'.t.chains| == |g.t.chains| == NLISTS && g'.abs.chains.Keys == g.abs.chains.Keys
    && (forall m | 0 <= m < NLISTS && m != L.ChainOf(pc) + 1 && !(m == 0 && pc.Freeing?) ::
          g'.t.chains[m] == g.t.chains[m])
    && (forall h | h in g.abs.chains && h != L.ChainOf(pc) :: g'.abs.chains[h] == g.abs.chains[h])
  }

  lemma TouchOnly(s: State, g: Ghost, i: Pid, s': State, g': Ghost, a: nat, b: nat)
    requires ClaimsOk(s) && Moved(s, i, s') && Touches(s, g, s', g', a, b) && ListsKept(s.locks.pcs[i], g, g')
    requires Mine(s.locks.pcs[i], s.jobs[i], g.t, s.mem.idxEnd, a)
    requires Mine(s.locks.pcs[i], s.jobs[i], g.t, s.mem.idxEnd, b)
    requires !s.locks.pcs[i].AppendingIndex? ==> s'.mem.idxEnd == s.mem.idxEnd
    ensures Only(s, g, i, s', g')
  {
    hide L.ChainOf, L.WritesChain, Mine, Claims, Claimed, SameAt;
    forall a | Claims(s, a) && !Claimant(s, g, i, a) ensures DataKept(s, s', a) {
      assert ClaimOk(s, a);
    }
  }

  lemma TouchSpots(s: State, g: Ghost, i: Pid, s': State, g': Ghost, a: nat, b: nat)
    requires Spots(s, g) && ClaimsOk(s) && Moved(s, i, s') && Touches(s, g, s', g', a, b)
    requires forall x | x != a && x != b :: MarksKeep(s.jobs, i, s'.jobs, x)
    requires forall x {:trigger ViewOk(s, g, g', x)} | x != a && x != b :: ViewOk(s, g, g', x)
    requires SpotOk(s', g', a) && SpotOk(s', g', b)
    ensures Spots(s', g')
  {
    JobsMove(s, i, s');
    hide Spots, SpotOk, MarksAt, SameAt, MarksKeep, JobsMoved, Moved, ViewKeeps;
    forall x: nat ensures SpotOk(s', g', x) {
      SpotHere(s, g, x);
      if x != a && x != b {
        assert ViewOk(s, g, g', x);
        if x in s.mem.cells {
          assert ClaimOk(s, Of(x));
        }
        SpotKept(s, g, i, s', g', x);
      }
    }
    AllSpots(s', g');
  }

  /** The view has for the record at x what it had. */
  predicate ViewOk(s: State, g: Ghost, g': Ghost, x: nat) {
    x in s.mem.cells && x in g.t.home && g.t.home[x] > 0 && g.t.home[x] - 1 in g.abs.chains ==>
      g.t.home[x] - 1 in g'.abs.chains &&
      ViewKeeps(g.abs.chains[g.t.home[x] - 1], g'.abs.chains[g.t.home[x] - 1], s.mem.cells[x].key)
  }

  predicate SameBytes(r: Rec, r': Rec) {
    r'.datoff == r.datoff && r'.datlen == r.datlen
  }

  /** No claim changes its extent. */
  lemma TouchClaims(s: State, i: Pid, s': State)
    requires ClaimsOk(s) && Moved(s, i, s') && s'.mem.data == s.mem.data && Reserve(s'.jobs[i]) == None
    requires forall x | x in s'.mem.cells :: x in s.mem.cells && SameBytes(s.mem.cells[x], s'.mem.cells[x])
    ensures ClaimsOk(s')
  {
    hide ClaimsOk, L.WritesChain, Reserve;
    forall a | Claims(s', a) ensures SameExtent(s, a, s', a) {
    }
    ClaimsSame(s, s');
  }

  lemma HomeHasCell(cells: map<nat, Rec>, home: map<nat, nat>, chains: map<nat, Dict>, x: nat)
    requires KeysOk(cells, home, chains) && x in home
    ensures x in cells
  {
    assert KeysDiffer(cells, home, x, x);
  }

  /** Nothing on a chain has changed. */
  lemma TouchKeys(cells: map<nat, Rec>, home: map<nat, nat>, chains: map<nat, Dict>,
                  cells': map<nat, Rec>, home': map<nat, nat>)
    requires KeysOk(cells, home, chains)
    requires forall x | x in home' :: x in cells'
    requires forall x | x in home && home[x] > 0 :: x in home' && home'[x] == home[x] && Get(cells', x) == Get(cells, x)
    requires forall x | x in home' && home'[x] > 0 :: x in home && home[x] > 0
    ensures KeysOk(cells', home', chains)
  {
    forall x | x in home ensures x in cells {
      HomeHasCell(cells, home, chains, x);
    }
    hide KeysOk;
    forall x | ChainHome(home', x).Some? || ChainHome(home, x).Some?
      ensures ChainHome(home', x) == ChainHome(home, x) && x in cells && x in cells' && cells'[x].key == cells[x].key
    {
      assert x in home && x in home' && Get(cells', x) == Get(cells, x);
    }
    KeysSame(cells, home, chains, cells', home', chains);
  }

  lemma OwnedNow(jobs: map<Pid, Job>, i: Pid, o: nat)
    requires i in jobs && Own(jobs[i]) == Some(o)
    ensures Owned(jobs, o)
  {
  }

  lemma BrokenNow(jobs: map<Pid, Job>, i: Pid, x: nat)
    requires i in jobs && Break(jobs[i]) == Some(x)
    ensures Broken(jobs, x)
  {
  }

  // ---- the deleted record goes to the front of the free list -------------------------------------------

  lemma PushFacts(pc: L.Pc, job: Job, mem: Mem, g: Ghost, chain: Dict, mem': Mem, job': Job)
    requires JobOk(pc, job, mem, g.t, g.want, chain) && Acts(mem, pc, job, mem', job') && job.at == Push
    ensures pc.Freeing? && AbsJob(job') == AbsJob(job) && mem' == mem.(ptrs := mem.ptrs[0 := job.o])
    ensures job.o in mem.cells && job.o !in g.t.home && HasHead(g.t, 0, job.ptr) && Wants(g.want, job.o, job.ptr)
    ensures AllSpaces(mem.cells[job.o].key)
    ensures Own(job) == Some(job.o) && Own(job') == None && Break(job') == Break(job) == Some(job.prev)
    ensures Spoil(job) == Spoil(job') == None && Reserve(job') == None
    ensures FieldOf(g.t, L.ChainOf(pc) + 1, job.prev) && Wants(g.want, job.prev, job.save)
  {
    hide OnList, Hash, L.ChainOf;
  }

  lemma PushOk(pc: L.Pc, job: Job, mem: Mem, g: Ghost, chain: Dict, mem': Mem, job': Job, g': Ghost)
    requires JobOk(pc, job, mem, g.t, g.want, chain) && Acts(mem, pc, job, mem', job') && job.at == Push
    requires g'.want == g.want[0 := job.o] && g'.t.home == g.t.home[job.o := 0] && job.o != job.prev && job.prev != 0
    ensures JobOk(pc, job', mem', g'.t, g'.want, chain)
  {
    hide OnList, Hash, L.ChainOf;
  }

  lemma FieldNonzero(want: map<nat, nat>, t: Lists, l: nat, x: nat)
    requires Threaded(want, t) && FieldOf(t, l, x) && l > 0
    ensures x != 0
  {
    hide Linked, NoDup;
    if x in t.home {
      assert Housed(t, x);
    }
  }

  lemma LowSpot(s: State, g: Ghost, x: nat)
    requires SpotOk(s, g, x) && x < BASE
    ensures x !in s.mem.cells && x !in g.t.home
  {
    hide Broken, Owned, Chained, RecLen;
  }

  /** A header slot whose pointer is the one wanted. */
  lemma SlotSpot(s: State, g: Ghost, x: nat)
    requires x in s.mem.ptrs && x in g.want && x < s.mem.idxEnd && s.mem.ptrs[x] == g.want[x]
    requires x !in s.mem.cells && x !in g.t.home
    ensures SpotOk(s, g, x)
  {
  }

  /** A loose record that a process owns. */
  lemma LooseIs(s: State, g: Ghost, i: Pid)
    requires Spots(s, g) && Procs(s, g) && i in s.jobs && Own(s.jobs[i]) == Some(s.jobs[i].o)
    ensures var o := s.jobs[i].o; BASE <= o < s.mem.idxEnd && o !in g.t.home && o in s.mem.cells && SpotOk(s, g, o)
  {
    hide Spots, Procs, SpotOk, Own;
    OwnedLoose(s, g, i);
    SpotHere(s, g, s.jobs[i].o);
  }

  lemma FreedSpot(s: State, g: Ghost, i: Pid, s': State, g': Ghost, o: nat)
    requires SpotOk(s, g, o) && o in s.mem.cells && o > 0 && AllSpaces(s.mem.cells[o].key)
    requires JobsMoved(s.jobs, i, s'.jobs) && MarksAt(s'.jobs, i).broken == MarksAt(s.jobs, i).broken
    requires s'.mem == s.mem.(ptrs := s.mem.ptrs[0 := o]) && g'.want == g.want[0 := o]
    requires g'.t.home == g.t.home[o := 0]
    ensures SpotOk(s', g', o)
  {
    hide Broken, Owned, Chained, RecLen, JobsMoved, MarksAt;
    BrokenKept(s.jobs, i, s'.jobs, o);
  }

  lemma PushSpots(s: State, g: Ghost, i: Pid, s': State, g': Ghost, o: nat)
    requires Spots(s, g) && ClaimsOk(s) && Moved(s, i, s') && o in s.mem.cells && o >= BASE && 0 in s.mem.ptrs
    requires AllSpaces(s.mem.cells[o].key)
    requires s'.mem == s.mem.(ptrs := s.mem.ptrs[0 := o]) && s.mem.idxEnd >= BASE
    requires g' == g.(t := g'.t, want := g.want[0 := o]) && g'.t.home == g.t.home[o := 0] && o !in g.t.home
    requires Own(s.jobs[i]) == Some(o) && Break(s'.jobs[i]) == Break(s.jobs[i]) && Spoil(s.jobs[i]) == None
    ensures Spots(s', g') && Touches(s, g, s', g', 0, o)
  {
    hide Spots, SpotOk, ClaimsOk, Own, Break, Spoil, Reserve, L.WritesChain;
    SpotHere(s, g, 0);
    SpotHere(s, g, o);
    JobsMove(s, i, s');
    LowSpot(s, g, 0);
    SlotSpot(s', g', 0);
    hide JobsMoved;
    FreedSpot(s, g, i, s', g', o);
    TouchSpots(s, g, i, s', g', 0, o);
  }

  lemma PushInv(s: State, g: Ghost, i: Pid, s': State) returns (g': Ghost)
    requires Acting(s, g, i, s', Push)
    ensures Inv(s', g') && Refines(g.abs, g'.abs) && Confined(s, g, i, s', g')
  {
    hide Acting, Inv, Acts, JobOk, JobsMoved, L.WritesChain, L.ChainOf, Own, Break, Spoil, Reserve, AbsJob;
    hide Spots, Threaded, ClaimsOk, RecsApart, KeysOk, Procs, Coupled, SpotOk;
    ActFrame(s, g, i, s', Push);
    var pc, job, job' := s.locks.pcs[i], s.jobs[i], s'.jobs[i];
    var h, o := L.ChainOf(pc), job.o;
    PushFacts(pc, job, s.mem, g, g.abs.chains[h], s'.mem, job');
    Parts(s, g);
    LooseIs(s, g, i);
    FieldNonzero(g.want, g.t, h + 1, job.prev);
    FieldAway(g.t, h + 1, job.prev, o);
    g' := Ghost(Attached(g.t, 0, o), g.want[0 := o], g.abs);
    AttachThreaded(g.want, g.t, 0, o);
    FreeSlot(s, g);
    PushOk(pc, job, s.mem, g, g.abs.chains[h], s'.mem, job', g');
    PushSpots(s, g, i, s', g', o);
    OwnMine(pc, job, g.t, s.mem.idxEnd);
    TouchOnly(s, g, i, s', g', 0, o);
    TouchClaims(s, i, s');
    HomesHaveCells(s.mem.cells, g.t.home, g.abs.chains);
    TouchKeys(s.mem.cells, g.t.home, g.abs.chains, s.mem.cells, g'.t.home);
    Stutter(s, g, i, s', g');
    hide Only, Mine, Touches, ListsKept, Moved, FieldOf;
    Assemble(s, g, i, s', g');
  }

  lemma HomesHaveCells(cells: map<nat, Rec>, home: map<nat, nat>, chains: map<nat, Dict>)
    requires KeysOk(cells, home, chains)
    ensures forall x | x in home :: x in cells
  {
    forall x | x in home ensures x in cells {
      HomeHasCell(cells, home, chains, x);
    }
  }

  /** A record on no list that stands behind the header is not a field of a list. */
  lemma FieldAway(t: Lists, l: nat, x: nat, o: nat)
    requires FieldOf(t, l, x) && o !in t.home && o >= BASE && l < NLISTS
    ensures x != o
  {
  }

  lemma FreeSlot(s: State, g: Ghost)
    requires Threaded(g.want, g.t) && s.mem.ptrs.Keys == g.want.Keys
    ensures forall l: nat | l < NLISTS :: PTR_SZ * l in s.mem.ptrs
  {
    forall l: nat | l < NLISTS ensures PTR_SZ * l in s.mem.ptrs {
      SlotIn(g.want, g.t, l);
    }
  }

  lemma SlotIn(want: map<nat, nat>, t: Lists, l: nat)
    requires Threaded(want, t) && l < NLISTS
    ensures PTR_SZ * l in want
  {
    hide NoDup, Housed;
    assert Linked(want, l, t.chains[l]);
    assert Node(l, t.chains[l], 0) in want;
  }

  // ---- pointer writes -------------------------------------------------------------------------------------

  /** A pointer field that gets the pointer wanted of it. */
  lemma PtrSpot(s: State, g: Ghost, i: Pid, s': State, g': Ghost, x: nat)
    requires SpotOk(s, g, x) && x in s.mem.ptrs && JobsMoved(s.jobs, i, s'.jobs)
    requires MarksAt(s.jobs, i).own != Some(x) && MarksAt(s.jobs, i).spoiled != Some(x)
    requires Get(s'.mem.cells, x) == Get(s.mem.cells, x) && Get(g'.t.home, x) == Get(g.t.home, x)
    requires s'.mem.data == s.mem.data && s'.mem.idxEnd == s.mem.idxEnd && ViewOk(s, g, g', x)
    requires x in s'.mem.ptrs && x in g'.want && (s'.mem.ptrs[x] == g'.want[x] || Broken(s'.jobs, x))
    ensures SpotOk(s', g', x)
  {
    hide Broken, Owned, Spoiled, RecLen, JobsMoved, MarksAt, Hash, Has;
    OwnedKept(s.jobs, i, s'.jobs, x);
    SpoiledKept(s.jobs, i, s'.jobs, x);
  }

  /** A record that the process owns and no list has. */
  lemma OwnSpot(s: State, g: Ghost, i: Pid, o: nat)
    requires i in s.jobs && Own(s.jobs[i]) == Some(o) && o !in g.t.home && o in s.mem.cells && BASE <= o
    requires o + RecLen(s.mem.cells[o]) <= s.mem.idxEnd
    requires o in s.mem.ptrs && o in g.want && (s.mem.ptrs[o] == g.want[o] || Broken(s.jobs, o))
    ensures SpotOk(s, g, o)
  {
    hide Broken, Owned, Own;
    OwnedNow(s.jobs, i, o);
    RecLenPositive(s.mem.cells[o]);
    hide RecLen;
  }

  lemma RecLenPositive(r: Rec)
    ensures RecLen(r) > 0
  {
  }

  /** _db_dodelete takes the deleted record off its chain. */
  lemma UnlinkFacts(pc: L.Pc, job: Job, mem: Mem, g: Ghost, chain: Dict, mem': Mem, job': Job)
    requires JobOk(pc, job, mem, g.t, g.want, chain) && Acts(mem, pc, job, mem', job') && job.at == Unlink
    ensures AbsJob(job') == AbsJob(job) && mem' == mem.(ptrs := mem.ptrs[job.prev := job.save])
    ensures Own(job) == Own(job') == None && Spoil(job) == None && Reserve(job') == None && Break(job) == Some(job.prev)
    ensures FieldOf(g.t, L.ChainOf(pc) + 1, job.prev) && Wants(g.want, job.prev, job.save)
  {
    hide OnList, Hash, L.ChainOf;
  }

  lemma UnlinkOk(pc: L.Pc, job: Job, mem: Mem, g: Ghost, chain: Dict, mem': Mem, job': Job)
    requires JobOk(pc, job, mem, g.t, g.want, chain) && Acts(mem, pc, job, mem', job') && job.at == Unlink
    ensures JobOk(pc, job', mem', g.t, g.want, chain)
  {
    hide OnList, Hash, FieldOf, Wants, HasHead;
    if !job.op.StoreOp? {
      AnsweredOk(pc, job', mem', g.t, g.want, chain);
    }
  }

  lemma UnlinkSpots(s: State, g: Ghost, i: Pid, s': State, x: nat, v: nat)
    requires Spots(s, g) && ClaimsOk(s) && Moved(s, i, s') && x in s.mem.ptrs && Wants(g.want, x, v)
    requires s'.mem == s.mem.(ptrs := s.mem.ptrs[x := v])
    requires Own(s.jobs[i]) == None && Spoil(s.jobs[i]) == None && Break(s.jobs[i]) == Some(x)
    ensures Spots(s', g) && Touches(s, g, s', g, x, x)
  {
    hide Spots, SpotOk, ClaimsOk, Own, Break, Spoil, Reserve, L.WritesChain, JobsMoved;
    SpotHere(s, g, x);
    JobsMove(s, i, s');
    PtrSpot(s, g, i, s', g, x);
    TouchSpots(s, g, i, s', g, x, x);
  }

  lemma UnlinkInv(s: State, g: Ghost, i: Pid, s': State) returns (g': Ghost)
    requires Acting(s, g, i, s', Unlink)
    ensures Inv(s', g') && Refines(g.abs, g'.abs) && Confined(s, g, i, s', g')
  {
    hide Acting, Inv, Acts, JobOk, JobsMoved, L.WritesChain, L.ChainOf, Own, Break, Spoil, Reserve, AbsJob;
    hide Spots, Threaded, ClaimsOk, RecsApart, KeysOk, Procs, Coupled, SpotOk;
    ActFrame(s, g, i, s', Unlink);
    g' := g;
    var pc, job, job' := s.locks.pcs[i], s.jobs[i], s'.jobs[i];
    UnlinkFacts(pc, job, s.mem, g, g.abs.chains[L.ChainOf(pc)], s'.mem, job');
    UnlinkOk(pc, job, s.mem, g, g.abs.chains[L.ChainOf(pc)], s'.mem, job');
    Parts(s, g);
    UnlinkSpots(s, g, i, s', job.prev, job.save);
    TouchOnly(s, g, i, s', g, job.prev, job.prev);
    TouchClaims(s, i, s');
    Stutter(s, g, i, s', g);
    hide Only, Mine, Touches, ListsKept, Moved, FieldOf;
    Assemble(s, g, i, s', g);
  }

  lemma PrevDiffers(want: map<nat, nat>, t: Lists, l: nat, job: Job, k: nat)
    requires Threaded(want, t) && l < NLISTS && OnListAt(t, l, job, k)
    ensures job.prev != job.o && job.o >= BASE && job.o in t.home && t.home[job.o] == l && job.prev in want
  {
    MembersHome(want, t, l);
    assert t.chains[l][k] in t.chains[l];
    assert NoDup(t.chains[l]) && Linked(want, l, t.chains[l]);
    hide Threaded;
    assert k > 0 ==> Differ(t.chains[l], k - 1, k);
  }

  /** _db_findfree takes the record it has found off the free list. */
  lemma TakeFreeFacts(pc: L.Pc, job: Job, mem: Mem, g: Ghost, chain: Dict, mem': Mem, job': Job)
    requires JobOk(pc, job, mem, g.t, g.want, chain) && Acts(mem, pc, job, mem', job') && job.at == TakeFree
    ensures pc.Freeing? && AbsJob(job') == AbsJob(job) && mem' == mem.(ptrs := mem.ptrs[job.prev := job.save])
    ensures Own(job) == None && Own(job') == Some(job.o) && Spoil(job) == None && Reserve(job') == None
    ensures Break(job) == None
    ensures OnList(g.t, 0, job) && HasCell(mem, job) && SameLengths(job)
  {
    hide OnList, Hash, L.ChainOf;
  }

  lemma TakeFreeOk(pc: L.Pc, job: Job, mem: Mem, g: Ghost, chain: Dict, mem': Mem, job': Job, g': Ghost)
    requires JobOk(pc, job, mem, g.t, g.want, chain) && Acts(mem, pc, job, mem', job') && job.at == TakeFree
    requires job.o !in g'.t.home && |g'.t.chains| == |g.t.chains|
    requires L.ChainOf(pc) + 1 < |g.t.chains| && g'.t.chains[L.ChainOf(pc) + 1] == g.t.chains[L.ChainOf(pc) + 1]
    ensures JobOk(pc, job', mem', g'.t, g'.want, chain)
  {
    hide OnList, Hash, L.ChainOf;
  }

  lemma TakeFreeSpots(s: State, g: Ghost, i: Pid, s': State, g': Ghost, x: nat, v: nat, o: nat)
    requires Spots(s, g) && ClaimsOk(s) && Moved(s, i, s') && x in s.mem.ptrs && o in s.mem.cells && x != o
    requires x in g.want
    requires s'.mem == s.mem.(ptrs := s.mem.ptrs[x := v]) && o in g.t.home
    requires g' == g.(t := g'.t, want := g.want[x := v]) && g'.t.home == g.t.home - {o}
    requires Own(s.jobs[i]) == None && Spoil(s.jobs[i]) == None && Break(s.jobs[i]) == None
    requires Own(s'.jobs[i]) == Some(o)
    ensures Spots(s', g') && Touches(s, g, s', g', x, o)
  {
    hide Spots, SpotOk, ClaimsOk, Own, Break, Spoil, Reserve, L.WritesChain, JobsMoved, RecLen;
    SpotHere(s, g, x);
    SpotHere(s, g, o);
    JobsMove(s, i, s');
    PtrSpot(s, g, i, s', g', x);
    TakenSpot(s, g, i, s', g', x, v, o);
    TouchSpots(s, g, i, s', g', x, o);
  }

  lemma TakenSpot(s: State, g: Ghost, i: Pid, s': State, g': Ghost, x: nat, v: nat, o: nat)
    requires SpotOk(s, g, o) && JobsMoved(s.jobs, i, s'.jobs) && x != o && o in s.mem.cells && i in s.jobs
    requires i in s'.jobs
    requires s'.mem == s.mem.(ptrs := s.mem.ptrs[x := v])
    requires g' == g.(t := g'.t, want := g.want[x := v]) && g'.t.home == g.t.home - {o}
    requires Break(s.jobs[i]) == None && Own(s'.jobs[i]) == Some(o)
    ensures SpotOk(s', g', o)
  {
    hide Broken, Owned, Chained, RecLen, JobsMoved, Own, Break, Spoil, Reserve;
    BrokenKept(s.jobs, i, s'.jobs, o);
    OwnSpot(s', g', i, o);
  }

  lemma TakeFreeInv(s: State, g: Ghost, i: Pid, s': State) returns (g': Ghost)
    requires Acting(s, g, i, s', TakeFree)
    ensures Inv(s', g') && Refines(g.abs, g'.abs) && Confined(s, g, i, s', g')
  {
    hide Acting, Inv, Acts, JobOk, JobsMoved, L.WritesChain, L.ChainOf, Own, Break, Spoil, Reserve, AbsJob;
    hide Spots, Threaded, ClaimsOk, RecsApart, KeysOk, Procs, Coupled, SpotOk;
    ActFrame(s, g, i, s', TakeFree);
    var pc, job, job' := s.locks.pcs[i], s.jobs[i], s'.jobs[i];
    var chain := g.abs.chains[L.ChainOf(pc)];
    TakeFreeFacts(pc, job, s.mem, g, chain, s'.mem, job');
    Parts(s, g);
    ListedMine(g.want, g, pc, job, s.mem.idxEnd, 0);
    var k: nat :| OnListAt(g.t, 0, job, k);
    PrevDiffers(g.want, g.t, 0, job, k);
    DetachThreaded(g.want, g.t, 0, k);
    g' := Ghost(Detached(g.t, 0, k), g.want[job.prev := job.save], g.abs);
    TakeFreeOk(pc, job, s.mem, g, chain, s'.mem, job', g');
    TakeFreeSpots(s, g, i, s', g', job.prev, job.save, job.o);
    TouchOnly(s, g, i, s', g', job.prev, job.o);
    TouchClaims(s, i, s');
    HomesHaveCells(s.mem.cells, g.t.home, g.abs.chains);
    TouchKeys(s.mem.cells, g.t.home, g.abs.chains, s.mem.cells, g'.t.home);
    Stutter(s, g, i, s', g');
    hide Only, Mine, Touches, ListsKept, Moved, FieldOf;
    Assemble(s, g, i, s', g');
  }

  /** db_store makes its record the head of the chain. */
  lemma LinkFacts(pc: L.Pc, job: Job, mem: Mem, g: Ghost, chain: Dict, mem': Mem, job': Job)
    requires JobOk(pc, job, mem, g.t, g.want, chain) && Acts(mem, pc, job, mem', job') && job.at == Link
    ensures PcOk(pc, job') && job'.at == Answered && job'.op == job.op
    ensures pc.Linking? && AbsJob(job).put && AbsJob(job') == AbsJob(job).(put := false)
    ensures mem' == mem.(ptrs := mem.ptrs[PTR_SZ * (L.ChainOf(pc) + 1) := job.o])
    ensures Own(job) == Some(job.o) && Own(job') == None && Spoil(job) == None && Reserve(job') == None
    ensures Break(job) == None
    ensures job.o !in g.t.home && HasCell(mem, job) && job.r.key == job.op.key && HasData(mem, job)
    ensures Wants(g.want, job.o, job.ptr) && HasHead(g.t, L.ChainOf(pc) + 1, job.ptr) && job.op.key !in chain
    ensures Hash(job.op.key) == L.ChainOf(pc)
  {
    hide OnList, Hash;
  }

  /** The record linked in has the key and data that the view now has. */
  lemma LinkedSpot(s: State, g: Ghost, i: Pid, s': State, g': Ghost, o: nat, h: nat, data: Bytes)
    requires SpotOk(s, g, o) && JobsMoved(s.jobs, i, s'.jobs) && o in s.mem.cells && i in s.jobs
    requires Break(s.jobs[i]) == None
    requires s'.mem == s.mem.(ptrs := s.mem.ptrs[PTR_SZ * (h + 1) := o]) && PTR_SZ * (h + 1) != o && h in g.abs.chains
    requires g'.want == g.want[PTR_SZ * (h + 1) := o] && g'.t.home == g.t.home[o := h + 1]
    requires g'.abs.chains == g.abs.chains[h := g.abs.chains[h][s.mem.cells[o].key := data]]
    requires Hash(s.mem.cells[o].key) == h && s.mem.cells[o].datlen == |data| + 1
    requires Has(s.mem.data, s.mem.cells[o].datoff, data + [NEWLINE])
    ensures SpotOk(s', g', o)
  {
    hide Broken, Owned, Spoiled, RecLen, JobsMoved, Own, Break, Spoil, Reserve, Hash, Has;
    BrokenKept(s.jobs, i, s'.jobs, o);
  }

  lemma LinkSpots(s: State, g: Ghost, i: Pid, s': State, g': Ghost, o: nat, h: nat, data: Bytes)
    requires Spots(s, g) && ClaimsOk(s) && Moved(s, i, s') && o in s.mem.cells && BASE <= o && h < NHASH
    requires h in g.abs.chains
    requires s'.mem == s.mem.(ptrs := s.mem.ptrs[PTR_SZ * (h + 1) := o]) && PTR_SZ * (h + 1) in s.mem.ptrs
    requires s.mem.idxEnd >= BASE && o !in g.t.home
    requires g'.want == g.want[PTR_SZ * (h + 1) := o] && g'.t.home == g.t.home[o := h + 1]
    requires g'.abs.chains == g.abs.chains[h := g.abs.chains[h][s.mem.cells[o].key := data]]
    requires s.mem.cells[o].key !in g.abs.chains[h]
    requires Hash(s.mem.cells[o].key) == h && s.mem.cells[o].datlen == |data| + 1
    requires Has(s.mem.data, s.mem.cells[o].datoff, data + [NEWLINE])
    requires Own(s.jobs[i]) == Some(o) && Spoil(s.jobs[i]) == None && Break(s.jobs[i]) == None
    ensures Spots(s', g') && Touches(s, g, s', g', PTR_SZ * (h + 1), o)
  {
    hide Spots, SpotOk, ClaimsOk, Own, Break, Spoil, Reserve, L.WritesChain, JobsMoved, RecLen, Hash, Has;
    var x := PTR_SZ * (h + 1);
    assert x < BASE;
    SpotHere(s, g, x);
    SpotHere(s, g, o);
    JobsMove(s, i, s');
    LowSpot(s, g, x);
    SlotSpot(s', g', x);
    LinkedSpot(s, g, i, s', g', o, h, data);
    TouchSpots(s, g, i, s', g', x, o);
  }

  /** A key that the view lacks is on no record of the chain. */
  lemma KeyAbsent(s: State, g: Ghost, h: nat, key: Bytes)
    requires Spots(s, g) && h in g.abs.chains && key !in g.abs.chains[h]
    ensures forall x | x in g.t.home && x in s.mem.cells && g.t.home[x] == h + 1 :: s.mem.cells[x].key != key
  {
    forall x | x in g.t.home && x in s.mem.cells && g.t.home[x] == h + 1 ensures s.mem.cells[x].key != key {
      SpotHere(s, g, x);
      hide Broken, Owned, Spoiled, RecLen, Hash, Has;
    }
  }

  lemma LinkInv(s: State, g: Ghost, i: Pid, s': State) returns (g': Ghost)
    requires Acting(s, g, i, s', Link)
    ensures Inv(s', g') && Refines(g.abs, g'.abs) && Confined(s, g, i, s', g')
  {
    hide PcOk;
    hide Acting, Inv, Acts, JobOk, JobsMoved, L.WritesChain, L.ChainOf, Own, Break, Spoil, Reserve, AbsJob;
    hide Spots, Threaded, ClaimsOk, RecsApart, KeysOk, Procs, Coupled, SpotOk, Hash, Has;
    ActFrame(s, g, i, s', Link);
    var pc, job, job' := s.locks.pcs[i], s.jobs[i], s'.jobs[i];
    var h, o, key := L.ChainOf(pc), job.o, job.op.key;
    LinkFacts(pc, job, s.mem, g, g.abs.chains[h], s'.mem, job');
    var data := job.op.data;
    Parts(s, g);
    LooseIs(s, g, i);
    FreeSlot(s, g);
    g' := Ghost(Attached(g.t, h + 1, o), g.want[PTR_SZ * (h + 1) := o], WithKey(g.abs, i, h, key, data, job'));
    AttachThreaded(g.want, g.t, h + 1, o);
    AnsweredOk(pc, job', s'.mem, g'.t, g'.want, g'.abs.chains[h]);
    LinkSpots(s, g, i, s', g', o, h, data);
    OwnMine(pc, job, g.t, s.mem.idxEnd);
    TouchOnly(s, g, i, s', g', PTR_SZ * (h + 1), o);
    TouchClaims(s, i, s');
    KeyAbsent(s, g, h, key);
    KeysAdded(s.mem.cells, g.t.home, g.abs.chains, o, key, h, data);
    PlaceSim(s, g, i, s', g');
    hide Only, Mine, Touches, ListsKept, Moved, FieldOf;
    Assemble(s, g, i, s', g');
  }

  // ---- record writes ----------------------------------------------------------------------------------------

  /** _db_dodelete blanks the key of the record, and has the record to itself from here on. */
  lemma RewriteFacts(pc: L.Pc, job: Job, mem: Mem, g: Ghost, chain: Dict, mem': Mem, job': Job)
    requires JobOk(pc, job, mem, g.t, g.want, chain) && Acts(mem, pc, job, mem', job') && job.at == Rewrite
    ensures pc.Freeing? && AbsJob(job).remove && AbsJob(job') == AbsJob(job).(remove := false)
    ensures WritesRec(mem, job.o, job.r.(key := Spaces(|job.r.key|)), job.ptr, mem')
    ensures Own(job) == None && Own(job') == Some(job.o) && Spoil(job) == Some(job.o) && Spoil(job') == None
    ensures Reserve(job') == None && Break(job) == None && Break(job') == Some(job.prev)
    ensures OnList(g.t, L.ChainOf(pc) + 1, job) && HasCell(mem, job) && job.r.key == job.op.key
    ensures HasHead(g.t, 0, job.ptr)
  {
    hide OnList, Hash, L.ChainOf, RecLen;
  }

  lemma RewriteOk(pc: L.Pc, job: Job, mem: Mem, g: Ghost, chain: Dict, mem': Mem, job': Job, g': Ghost)
    requires JobOk(pc, job, mem, g.t, g.want, chain) && Acts(mem, pc, job, mem', job') && job.at == Rewrite
    requires g'.want == g.want[job.prev := job.save][job.o := job.ptr] && job.o != job.prev
    requires HasHead(g'.t, 0, job.ptr) && job.o !in g'.t.home && FieldOf(g'.t, L.ChainOf(pc) + 1, job.prev)
    ensures JobOk(pc, job', mem', g'.t, g'.want, chain - {job.op.key})
  {
    hide OnList, Hash, L.ChainOf, RecLen, FieldOf;
  }

  /** A record rewritten in place with a key of the same length. */
  lemma InPlace(s: State, g: Ghost, o: nat, r: Rec, ptr: nat, s': State)
    requires SpotOk(s, g, o) && o in s.mem.cells && RecLen(r) == RecLen(s.mem.cells[o])
    requires WritesRec(s.mem, o, r, ptr, s'.mem)
    ensures s'.mem == s.mem.(cells := s.mem.cells[o := r], ptrs := s.mem.ptrs[o := ptr])
    ensures BASE <= o && o + RecLen(r) <= s'.mem.idxEnd && o in s.mem.ptrs
  {
    hide Broken, Owned, Chained, RecLen;
  }

  lemma RewriteSpots(s: State, g: Ghost, i: Pid, s': State, g': Ghost, x: nat, v: nat, o: nat, r: Rec, ptr: nat, h: nat)
    requires Spots(s, g) && ClaimsOk(s) && Moved(s, i, s') && x in s.mem.ptrs && o in s.mem.cells && x != o
    requires x in g.want
    requires s'.mem == s.mem.(cells := s.mem.cells[o := r], ptrs := s.mem.ptrs[o := ptr])
    requires BASE <= o && o + RecLen(r) <= s'.mem.idxEnd
    requires g'.want == g.want[x := v][o := ptr] && g'.t.home == g.t.home - {o} && o in g.t.home && g.t.home[o] == h + 1
    requires h in g.abs.chains && KeysOk(s.mem.cells, g.t.home, g.abs.chains)
    requires g'.abs.chains == g.abs.chains[h := g.abs.chains[h] - {s.mem.cells[o].key}]
    requires Own(s.jobs[i]) == None && Spoil(s.jobs[i]) == Some(o) && Break(s.jobs[i]) == None
    requires Own(s'.jobs[i]) == Some(o) && Break(s'.jobs[i]) == Some(x)
    ensures Spots(s', g') && Touches(s, g, s', g', x, o)
  {
    hide Spots, SpotOk, ClaimsOk, Own, Break, Spoil, Reserve, L.WritesChain, JobsMoved, RecLen;
    SpotHere(s, g, x);
    JobsMove(s, i, s');
    BrokenNow(s'.jobs, i, x);
    forall y | y != o ensures ViewOk(s, g, g', y) {
      if y in g.t.home {
        assert KeysDiffer(s.mem.cells, g.t.home, y, o);
      }
    }
    PtrSpot(s, g, i, s', g', x);
    OwnSpot(s', g', i, o);
    TouchSpots(s, g, i, s', g', x, o);
  }

  lemma RewriteThreads(want: map<nat, nat>, t: Lists, l: nat, k: nat, job: Job) returns (t': Lists)
    requires Threaded(want, t) && 0 < l < NLISTS && OnListAt(t, l, job, k) && HasHead(t, 0, job.ptr)
    ensures Threaded(want[job.prev := job.save][job.o := job.ptr], t') && |t'.chains| == |t.chains| == NLISTS
    ensures t'.home == t.home - {job.o} && forall m | 0 <= m < NLISTS && m != l :: t'.chains[m] == t.chains[m]
    ensures HasHead(t', 0, job.ptr) && FieldOf(t', l, job.prev) && job.prev != job.o && job.prev in want
  {
    ListCount(want, t);
    PrevDiffers(want, t, l, job, k);
    OnListFields(want, t, l, job) by {
      assert OnListAt(t, l, job, k);
    }
    DetachThreaded(want, t, l, k);
    t' := Detached(t, l, k);
    hide Threaded;
    LooseThreaded(want[job.prev := job.save], t', job.o, job.ptr);
  }

  lemma RewriteInv(s: State, g: Ghost, i: Pid, s': State) returns (g': Ghost)
    requires Acting(s, g, i, s', Rewrite)
    ensures Inv(s', g') && Refines(g.abs, g'.abs) && Confined(s, g, i, s', g')
  {
    hide Acting, Inv, Acts, JobOk, JobsMoved, L.WritesChain, L.ChainOf, Own, Break, Spoil, Reserve, AbsJob;
    hide Spots, Threaded, ClaimsOk, RecsApart, KeysOk, Procs, Coupled, SpotOk, RecLen, OnList, OnListAt, Mine, FieldOf;
    ActFrame(s, g, i, s', Rewrite);
    var pc, job, job' := s.locks.pcs[i], s.jobs[i], s'.jobs[i];
    var h, o, r := L.ChainOf(pc), job.o, job.r.(key := Spaces(|job.r.key|));
    RewriteFacts(pc, job, s.mem, g, g.abs.chains[h], s'.mem, job');
    Parts(s, g);
    ListedMine(g.want, g, pc, job, s.mem.idxEnd, h + 1);
    SpotHere(s, g, o);
    SameRecLen(job.r, r.key);
    InPlace(s, g, o, r, job.ptr, s');
    var k := OnListWhere(g.t, h + 1, job);
    var t' := RewriteThreads(g.want, g.t, h + 1, k, job);
    g' := Ghost(t', g.want[job.prev := job.save][o := job.ptr], WithoutKey(g.abs, i, h, job.op.key, job'));
    RewriteOk(pc, job, s.mem, g, g.abs.chains[h], s'.mem, job', g');
    RewriteSpots(s, g, i, s', g', job.prev, job.save, o, r, job.ptr, h);
    TouchOnly(s, g, i, s', g', job.prev, o);
    TouchClaims(s, i, s');
    KeysRemoved(s.mem.cells, g.t.home, g.abs.chains, o, r, h);
    RecsSame(s.mem.cells, s'.mem.cells);
    EraseSim(s, g, i, s', g');
    hide Only, Touches, ListsKept, Moved;
    Assemble(s, g, i, s', g');
  }

  lemma OnListWhere(t: Lists, l: nat, job: Job) returns (k: nat)
    requires OnList(t, l, job)
    ensures OnListAt(t, l, job, k)
  {
    k :| OnListAt(t, l, job, k);
  }

  /** db_store rewrites the record it has taken off the free list. */
  lemma ReuseIndexFacts(pc: L.Pc, job: Job, mem: Mem, g: Ghost, chain: Dict, mem': Mem, job': Job)
    requires JobOk(pc, job, mem, g.t, g.want, chain) && Acts(mem, pc, job, mem', job') && job.at == ReuseIndex
    ensures AbsJob(job') == AbsJob(job) && WritesRec(mem, job.o, job.r.(key := job.op.key), job.ptr, mem')
    ensures Own(job) == Own(job') == Some(job.o) && Spoil(job) == None && Reserve(job') == None && Break(job) == None
    ensures HasCell(mem, job) && SameLengths(job) && Wants(g.want[job.o := job.ptr], job.o, job.ptr)
    ensures JobOk(pc, job', mem', g.t, g.want[job.o := job.ptr], chain)
  {
    hide OnList, Hash, L.ChainOf, RecLen;
  }

  lemma RecordSpots(s: State, g: Ghost, i: Pid, s': State, g': Ghost, o: nat, r: Rec, ptr: nat)
    requires Spots(s, g) && ClaimsOk(s) && Moved(s, i, s') && s.mem.idxEnd <= s'.mem.idxEnd && s'.mem.data == s.mem.data
    requires s'.mem.cells == s.mem.cells[o := r] && s'.mem.ptrs == s.mem.ptrs[o := ptr]
    requires BASE <= o && o + RecLen(r) <= s'.mem.idxEnd && o !in g.t.home
    requires g' == g.(want := g.want[o := ptr])
    requires Own(s.jobs[i]).Some? ==> Own(s.jobs[i]) == Some(o)
    requires Spoil(s.jobs[i]) == None && Break(s.jobs[i]) == None && Own(s'.jobs[i]) == Some(o)
    ensures Spots(s', g') && Touches(s, g, s', g', o, o)
  {
    hide Spots, SpotOk, ClaimsOk, Own, Break, Spoil, Reserve, L.WritesChain, JobsMoved, RecLen;
    OwnSpot(s', g', i, o);
    TouchSpots(s, g, i, s', g', o, o);
  }

  lemma ReuseIndexInv(s: State, g: Ghost, i: Pid, s': State) returns (g': Ghost)
    requires Acting(s, g, i, s', ReuseIndex)
    ensures Inv(s', g') && Refines(g.abs, g'.abs) && Confined(s, g, i, s', g')
  {
    hide Acting, Inv, Acts, JobOk, JobsMoved, L.WritesChain, L.ChainOf, Own, Break, Spoil, Reserve, AbsJob;
    hide Spots, Threaded, ClaimsOk, RecsApart, KeysOk, Procs, Coupled, SpotOk, RecLen;
    ActFrame(s, g, i, s', ReuseIndex);
    var pc, job, job' := s.locks.pcs[i], s.jobs[i], s'.jobs[i];
    var h, o, r := L.ChainOf(pc), job.o, job.r.(key := job.op.key);
    ReuseIndexFacts(pc, job, s.mem, g, g.abs.chains[h], s'.mem, job');
    Parts(s, g);
    LooseIs(s, g, i);
    SameRecLen(job.r, r.key);
    InPlace(s, g, o, r, job.ptr, s');
    g' := g.(want := g.want[o := job.ptr]);
    LooseThreaded(g.want, g.t, o, job.ptr);
    RecordSpots(s, g, i, s', g', o, r, job.ptr);
    OwnMine(pc, job, g.t, s.mem.idxEnd);
    TouchOnly(s, g, i, s', g', o, o);
    TouchClaims(s, i, s');
    HomesHaveCells(s.mem.cells, g.t.home, g.abs.chains);
    TouchKeys(s.mem.cells, g.t.home, g.abs.chains, s'.mem.cells, g.t.home);
    RecsSame(s.mem.cells, s'.mem.cells);
    Stutter(s, g, i, s', g');
    hide Only, Mine, Touches, ListsKept, Moved, FieldOf;
    Assemble(s, g, i, s', g');
  }

  /** db_store appends its record while it has the end of the index file to itself. */
  lemma WriteIndexFacts(pc: L.Pc, job: Job, mem: Mem, g: Ghost, chain: Dict, mem': Mem, job': Job)
    requires JobOk(pc, job, mem, g.t, g.want, chain) && Acts(mem, pc, job, mem', job') && job.at == WriteIndex
    ensures pc.AppendingIndex? && AbsJob(job') == AbsJob(job) && WritesRec(mem, job.o, job.r, job.ptr, mem')
    ensures job.o == mem.idxEnd && Own(job) == None && Own(job') == Some(job.o) && Spoil(job) == None
    ensures Break(job) == None
    ensures Reserve(job) == Some(job.r) && Reserve(job') == None
  {
    hide OnList, Hash, L.ChainOf, RecLen;
  }

  lemma WriteIndexOk(pc: L.Pc, job: Job, mem: Mem, g: Ghost, chain: Dict, mem': Mem, job': Job)
    requires JobOk(pc, job, mem, g.t, g.want, chain) && Acts(mem, pc, job, mem', job') && job.at == WriteIndex
    requires job.o !in g.t.home
    ensures JobOk(pc, job', mem', g.t, g.want[job.o := job.ptr], chain)
  {
    hide OnList, Hash, L.ChainOf, RecLen, Has;
  }

  lemma PassedClaims(s: State, i: Pid, s': State, o: nat)
    requires ClaimsOk(s) && Moved(s, i, s') && s'.mem.data == s.mem.data && o !in s.mem.cells
    requires s'.mem.cells == s.mem.cells[o := s.jobs[i].r]
    requires Reserve(s.jobs[i]).Some? && Reserve(s'.jobs[i]) == None
    ensures ClaimsOk(s')
  {
    hide ClaimsOk, L.WritesChain, Reserve;
    forall a | Claims(s', a) && a != Of(o) ensures SameExtent(s, a, s', a) {
    }
    ClaimsPass(s, s', By(i), Of(o));
  }

  lemma CellsInside(s: State, g: Ghost)
    requires Spots(s, g)
    ensures forall x | x in s.mem.cells :: x + RecLen(s.mem.cells[x]) <= s.mem.idxEnd
    ensures s.mem.idxEnd !in s.mem.cells
  {
    hide Broken, Owned, Chained, RecLen;
    forall x | x in s.mem.cells ensures x + RecLen(s.mem.cells[x]) <= s.mem.idxEnd && RecLen(s.mem.cells[x]) > 0 {
      SpotHere(s, g, x);
      RecLenPositive(s.mem.cells[x]);
    }
  }

  lemma WriteIndexInv(s: State, g: Ghost, i: Pid, s': State) returns (g': Ghost)
    requires Acting(s, g, i, s', WriteIndex)
    ensures Inv(s', g') && Refines(g.abs, g'.abs) && Confined(s, g, i, s', g')
  {
    hide Acting, Inv, Acts, JobOk, JobsMoved, L.WritesChain, L.ChainOf, Own, Break, Spoil, Reserve, AbsJob;
    hide Spots, Threaded, ClaimsOk, RecsApart, KeysOk, Procs, Coupled, SpotOk, RecLen;
    ActFrame(s, g, i, s', WriteIndex);
    var pc, job, job' := s.locks.pcs[i], s.jobs[i], s'.jobs[i];
    var h, o, r := L.ChainOf(pc), job.o, job.r;
    WriteIndexFacts(pc, job, s.mem, g, g.abs.chains[h], s'.mem, job');
    Parts(s, g);
    CellsInside(s, g);
    HomeInside(s, g, o);
    WriteIndexOk(pc, job, s.mem, g, g.abs.chains[h], s'.mem, job');
    g' := g.(want := g.want[o := job.ptr]);
    LooseThreaded(g.want, g.t, o, job.ptr);
    RecordSpots(s, g, i, s', g', o, r, job.ptr);
    TouchOnly(s, g, i, s', g', o, o);
    PassedClaims(s, i, s', o);
    HomesHaveCells(s.mem.cells, g.t.home, g.abs.chains);
    TouchKeys(s.mem.cells, g.t.home, g.abs.chains, s'.mem.cells, g.t.home);
    RecsGrow(s.mem.cells, o, r);
    Stutter(s, g, i, s', g');
    hide Only, Mine, Touches, ListsKept, Moved, FieldOf;
    Assemble(s, g, i, s', g');
  }
}
