/**
  The steps that leave the files alone: calls begin and end, locks change hands, lists are
  followed and pointers read.  What a process reads under its lock is what the lists and the
  call-by-call view have.
 */
module DbSharedReads {
  import opened Common
  import opened CStrings
  import opened DbCells
  import opened DbRecord
  import opened DbFormat
  import opened DbLists
  import opened DbContents
  import opened DbSpec
  import opened DbShared
  import opened DbSharedFrame
  import opened DbSharedParts
  import opened DbSharedActs
  import opened DbSharedIndex
  import L = DbLocks

  // ---- following a list ---------------------------------------------------------------------------------

  /** Two walks from the same slot along the same pointers have the same beginning. */
  lemma {:induction false} SamePrefix(p: map<nat, nat>, q: map<nat, nat>, l: nat, c: seq<nat>, d: seq<nat>, k: nat)
    requires Linked(p, l, c) && Linked(q, l, d) && 0 !in c && k <= |c|
    requires forall x | x in p && x in q :: p[x] == q[x] || forall j | 0 <= j <= |d| :: Node(l, d, j) != x
    ensures k <= |d| && c[..k] == d[..k]
  {
    if k > 0 {
      SamePrefix(p, q, l, c, d, k - 1);
      var x := Node(l, d, k - 1);
      assert k > 1 ==> c[..k - 1][k - 2] == d[..k - 1][k - 2];
      assert Node(l, c, k - 1) == x;
      assert p[x] == Succ(c, k - 1) && q[x] == Succ(d, k - 1);
      assert c[k - 1] in c;
      assert c[..k] == c[..k - 1] + [c[k - 1]];
      assert d[..k] == d[..k - 1] + [d[k - 1]];
    }
  }

  lemma SameWalk(p: map<nat, nat>, q: map<nat, nat>, l: nat, c: seq<nat>, d: seq<nat>)
    requires Linked(p, l, c) && Linked(q, l, d) && 0 !in c && 0 !in d
    requires forall x | x in p && x in q :: p[x] == q[x] || forall j | 0 <= j <= |d| :: Node(l, d, j) != x
    ensures c == d
  {
    assert forall j | 0 <= j < |d| :: d[j] != 0;
    SamePrefix(p, q, l, c, d, |c|);
    var n := |c|;
    assert c[..n] == c;
    assert n > 0 ==> d[..n][n - 1] == d[n - 1];
    assert Node(l, c, n) == Node(l, d, n);
    assert p[Node(l, d, n)] == 0 == q[Node(l, d, n)];
    assert d == d[..n];
  }

  /** Process i may read list l: the free list, or the chain it has locked. */
  ghost predicate MayRead(s: State, i: Pid, l: nat) {
    && i in s.jobs && i in s.locks.pcs && Break(s.jobs[i]) == None
    && var pc := s.locks.pcs[i];
       || (l == 0 && pc.Freeing?)
       || (l == L.ChainOf(pc) + 1 && (L.WritesChain(pc) || pc.Fetching?))
  }

  lemma BreakFacts(pc: L.Pc, job: Job, l: nat, mem: Mem, t: Lists, want: map<nat, nat>)
    requires PcOk(pc, job) && Knows(job, l, mem, t, want) && Break(job).Some?
    ensures L.WritesChain(pc) && Break(job) == Some(job.prev) && FieldOf(t, l, job.prev)
  {
    hide OnList, FieldOf;
  }

  lemma FieldsApart(want: map<nat, nat>, t: Lists, l: nat, m: nat, x: nat)
    requires Threaded(want, t) && FieldOf(t, l, x) && FieldOf(t, m, x) && l < NLISTS && m < NLISTS
    ensures l == m
  {
    hide Linked, NoDup;
    if x in t.home {
      assert Housed(t, x);
    }
  }

  /** Nobody is changing a pointer field that the process may read. */
  lemma Unbroken(s: State, g: Ghost, i: Pid, l: nat, x: nat)
    requires Inv(s, g) && MayRead(s, i, l) && FieldOf(g.t, l, x)
    ensures !Broken(s.jobs, x)
  {
    hide JobOk;
    hide Inv, FieldOf, Break, L.WritesChain, L.ChainOf, Knows, PcOk, Threaded, Spots, ClaimsOk, KeysOk, Procs;
    hide RecsApart, Coupled;
    if Broken(s.jobs, x) {
      var j :| j in s.jobs && Break(s.jobs[j]) == Some(x);
      Parts(s, g);
      ProcIs(s, g, j);
      ProcIs(s, g, i);
      var pc := s.locks.pcs[j];
      JobKnows(pc, s.jobs[j], s.mem, g);
      BreakFacts(pc, s.jobs[j], L.ChainOf(pc) + 1, s.mem, g.t, g.want);
      LocksApart(s, g, j, i);
      FieldsApart(g.want, g.t, l, L.ChainOf(pc) + 1, x);
    }
  }

  lemma PtrIs(s: State, g: Ghost, x: nat)
    requires Spots(s, g) && !Broken(s.jobs, x) && x in s.mem.ptrs
    ensures x in g.want && s.mem.ptrs[x] == g.want[x]
  {
    hide Broken, CellOk, HomeOk;
    SpotHere(s, g, x);
  }

  lemma NodeField(want: map<nat, nat>, t: Lists, l: nat, j: nat)
    requires Threaded(want, t) && l < NLISTS && j <= |t.chains[l]|
    ensures FieldOf(t, l, Node(l, t.chains[l], j))
  {
    MembersHome(want, t, l);
    hide Threaded;
    assert j > 0 ==> t.chains[l][j - 1] in t.chains[l];
  }

  lemma NoZero(s: State, g: Ghost, c: seq<nat>)
    requires Spots(s, g) && forall o | o in c :: o in s.mem.cells
    ensures 0 !in c
  {
    hide Broken, Owned, HomeOk, RecLen;
    SpotHere(s, g, 0);
  }

  lemma ListLinked(s: State, g: Ghost, l: nat)
    requires Inv(s, g) && l < NLISTS
    ensures |g.t.chains| == NLISTS && Linked(g.want, l, g.t.chains[l]) && 0 !in g.t.chains[l]
    ensures forall o | o in g.t.chains[l] :: o in s.mem.cells && o in g.t.home && g.t.home[o] == l
  {
    hide Inv, Spots, Threaded, ClaimsOk, RecsApart, KeysOk, Procs, Coupled, Linked;
    Parts(s, g);
    MembersHome(g.want, g.t, l);
    HomesHaveCells(s.mem.cells, g.t.home, g.abs.chains);
    OneLinked(g.want, g.t, l);
  }

  lemma OneLinked(want: map<nat, nat>, t: Lists, l: nat)
    requires Threaded(want, t) && l < NLISTS
    ensures Linked(want, l, t.chains[l])
  {
    hide NoDup, Housed, Linked;
  }

  /** Who follows a list that it may read finds that list. */
  lemma FollowedIs(s: State, g: Ghost, i: Pid, l: nat, c: seq<nat>)
    requires Inv(s, g) && MayRead(s, i, l) && l < NLISTS && Followed(s.mem, l, c)
    ensures |g.t.chains| == NLISTS && c == g.t.chains[l]
  {
    hide Inv, MayRead, Spots, Threaded, ClaimsOk, RecsApart, KeysOk, Procs, Coupled, FieldOf, Broken, Linked;
    Parts(s, g);
    ListLinked(s, g, l);
    NoZero(s, g, c);
    var d := g.t.chains[l];
    forall x | x in s.mem.ptrs && x in g.want
      ensures s.mem.ptrs[x] == g.want[x] || forall j | 0 <= j <= |d| :: Node(l, d, j) != x
    {
      if j :| 0 <= j <= |d| && Node(l, d, j) == x {
        NodeField(g.want, g.t, l, j);
        Unbroken(s, g, i, l, x);
        PtrIs(s, g, x);
      }
    }
    SameWalk(s.mem.ptrs, g.want, l, c, d);
  }

  /** And a walk finds its way: the list can be followed. */
  lemma CanFollow(s: State, g: Ghost, i: Pid, l: nat)
    requires Inv(s, g) && MayRead(s, i, l) && l < NLISTS
    ensures |g.t.chains| == NLISTS && Followed(s.mem, l, g.t.chains[l])
  {
    hide Inv, MayRead, Spots, Threaded, ClaimsOk, RecsApart, KeysOk, Procs, Coupled, FieldOf, Broken;
    Parts(s, g);
    ListLinked(s, g, l);
    var d := g.t.chains[l];
    forall k | 0 <= k <= |d| ensures Node(l, d, k) in s.mem.ptrs && s.mem.ptrs[Node(l, d, k)] == Succ(d, k) {
      NodeField(g.want, g.t, l, k);
      Unbroken(s, g, i, l, Node(l, d, k));
      assert Node(l, d, k) in g.want;
      PtrIs(s, g, Node(l, d, k));
    }
  }

  /** The pointer in the slot of a list that the process may read is its head. */
  lemma HeadIs(s: State, g: Ghost, i: Pid, l: nat)
    requires Inv(s, g) && MayRead(s, i, l) && l < NLISTS
    ensures PTR_SZ * l in s.mem.ptrs && HasHead(g.t, l, s.mem.ptrs[PTR_SZ * l])
  {
    hide Inv, MayRead;
    CanFollow(s, g, i, l);
    assert Node(l, g.t.chains[l], 0) == PTR_SZ * l;
  }

  // ---- what a search of the chain finds -------------------------------------------------------------------

  /** The view of the chain has a key exactly when the walk finds it, with data of that length. */
  lemma SearchFinds(s: State, g: Ghost, h: nat, key: Bytes)
    requires Inv(s, g) && h < NHASH && h in g.abs.chains
    ensures |g.t.chains| == NLISTS
    ensures var c, chain := g.t.chains[h + 1], g.abs.chains[h];
      var k := FirstKey(s.mem.cells, c, key);
      && (k < |c| <==> key in chain)
      && (k < |c| ==> HomeOk(s, g, c[k]) && g.t.home[c[k]] == h + 1)
  {
    hide Inv, Spots, Threaded, ClaimsOk, RecsApart, Procs, Coupled, HomeOk, FirstKey, Linked;
    Parts(s, g);
    ListLinked(s, g, h + 1);
    var c, chain := g.t.chains[h + 1], g.abs.chains[h];
    var k := FirstKey(s.mem.cells, c, key);
    if key in chain {
      assert KeyHome(s.mem.cells, g.t.home, h, key);
      var o :| o in g.t.home && g.t.home[o] == h + 1 && HasKey(s.mem.cells, o, key);
      HousedIn(g.want, g.t, o);
      var j :| 0 <= j < |c| && c[j] == o;
    }
    if k < |c| {
      assert c[k] in c;
      HomeHere(s, g, c[k]);
      HomeKey(s, g, c[k]);
    }
  }

  lemma HousedIn(want: map<nat, nat>, t: Lists, o: nat)
    requires Threaded(want, t) && o in t.home
    ensures t.home[o] < |t.chains| && o in t.chains[t.home[o]]
  {
    hide NoDup, Linked;
    assert Housed(t, o);
  }

  lemma HomeHere(s: State, g: Ghost, o: nat)
    requires Spots(s, g) && o in g.t.home
    ensures HomeOk(s, g, o)
  {
    hide HomeOk, CellOk, PtrOk;
    SpotHere(s, g, o);
  }

  lemma HomeKey(s: State, g: Ghost, o: nat)
    requires HomeOk(s, g, o)
    ensures o in s.mem.cells
    ensures g.t.home[o] > 0 ==> g.t.home[o] - 1 in g.abs.chains && s.mem.cells[o].key in g.abs.chains[g.t.home[o] - 1]
    ensures g.t.home[o] > 0 ==>
      |g.abs.chains[g.t.home[o] - 1][s.mem.cells[o].key]| + 1 == s.mem.cells[o].datlen
  {
    hide Spoiled, Hash, Has;
  }

  lemma SpoilFacts(pc: L.Pc, job: Job, l: nat, mem: Mem, t: Lists, want: map<nat, nat>)
    requires PcOk(pc, job) && Knows(job, l, mem, t, want) && Spoil(job).Some?
    ensures L.WritesChain(pc) && Spoil(job) == Some(job.o) && OnList(t, l, job)
  {
    hide OnList, FieldOf;
  }

  /** The records of a chain that a process fetches from have their data. */
  lemma Unspoiled(s: State, g: Ghost, i: Pid, o: nat)
    requires Inv(s, g) && i in s.locks.pcs && s.locks.pcs[i].Fetching?
    requires o in g.t.home && g.t.home[o] == L.ChainOf(s.locks.pcs[i]) + 1 && i in s.jobs && Spoil(s.jobs[i]) == None
    ensures !Spoiled(s.jobs, o)
  {
    hide JobOk;
    hide Inv, FieldOf, Spoil, L.WritesChain, L.ChainOf, Knows, PcOk, Threaded, Spots, ClaimsOk, KeysOk, Procs;
    hide RecsApart, Coupled;
    hide OnList;
    if Spoiled(s.jobs, o) {
      var j :| j in s.jobs && Spoil(s.jobs[j]) == Some(o);
      Parts(s, g);
      ProcIs(s, g, j);
      var pc := s.locks.pcs[j];
      JobKnows(pc, s.jobs[j], s.mem, g);
      SpoilFacts(pc, s.jobs[j], L.ChainOf(pc) + 1, s.mem, g.t, g.want);
      LocksApart(s, g, j, i);
      OnListFields(g.want, g.t, L.ChainOf(pc) + 1, s.jobs[j]);
    }
  }

  lemma DataIs(data: Bytes, r: Rec, text: Bytes)
    requires Has(data, r.datoff, text + [NEWLINE]) && r.datlen == |text| + 1
    ensures End(r) <= |data| && data[r.datoff..End(r) - 1] == text
  {
    forall k | 0 <= k < |text| ensures data[r.datoff..End(r) - 1][k] == text[k] {
      assert (text + [NEWLINE])[k] == text[k];
    }
  }

  lemma ChainedData(s: State, g: Ghost, o: nat)
    requires HomeOk(s, g, o) && g.t.home[o] > 0 && !Spoiled(s.jobs, o)
    ensures var h, r := g.t.home[o] - 1, s.mem.cells[o];
      && h in g.abs.chains && r.key in g.abs.chains[h] && 1 <= r.datlen && End(r) <= |s.mem.data|
      && s.mem.data[r.datoff..End(r) - 1] == g.abs.chains[h][r.key]
  {
    hide Hash, Has, Spoiled;
    var h, r := g.t.home[o] - 1, s.mem.cells[o];
    DataIs(s.mem.data, r, g.abs.chains[h][r.key]);
  }

  /** db_fetch reads what the view has. */
  lemma FetchReads(s: State, g: Ghost, i: Pid, c: seq<nat>, key: Bytes)
    requires Inv(s, g) && i in s.locks.pcs && s.locks.pcs[i].Fetching? && i in s.jobs
    requires L.ChainOf(s.locks.pcs[i]) < NHASH
    requires Spoil(s.jobs[i]) == None && Break(s.jobs[i]) == None && L.ChainOf(s.locks.pcs[i]) in g.abs.chains
    requires Followed(s.mem, L.ChainOf(s.locks.pcs[i]) + 1, c)
    ensures Found(s.mem, c, key) == SpecFetch(g.abs.chains[L.ChainOf(s.locks.pcs[i])], key)
  {
    hide Inv, Spoil, Break, L.ChainOf, Followed, HomeOk, FirstKey, Spoiled;
    var h := L.ChainOf(s.locks.pcs[i]);
    FollowedIs(s, g, i, h + 1, c);
    SearchFinds(s, g, h, key);
    var k := FirstKey(s.mem.cells, c, key);
    if k < |c| {
      HomeFacts(s, g, c[k]);
      Unspoiled(s, g, i, c[k]);
      ChainedData(s, g, c[k]);
    }
  }

  lemma HomeFacts(s: State, g: Ghost, o: nat)
    requires HomeOk(s, g, o)
    ensures o in g.t.home && o in s.mem.cells
  {
    hide Chained;
  }

  // ---- reads of a call in progress ---------------------------------------------------------------------

  /** An action after which files, lists and view are as before. */
  lemma ReadInv(s: State, g: Ghost, i: Pid, s': State)
    requires Moved(s, i, s') && s'.mem == s.mem && AbsJob(s'.jobs[i]) == AbsJob(s.jobs[i])
    requires Inv(s, g) && MarksAt(s'.jobs, i) == MarksAt(s.jobs, i) && ProcOk(s', g, i)
    ensures Inv(s', g) && Refines(g.abs, g.abs) && Confined(s, g, i, s', g)
  {
    hide Inv, MarksAt, JobsMoved, Acts, JobOk, L.WritesChain, L.ChainOf, AbsJob;
    hide Spots, Threaded, ClaimsOk, RecsApart, KeysOk, Procs, Coupled;
    JobsMove(s, i, s');
    Parts(s, g);
    Stutter(s, g, i, s', g);
    StillInv(s, g, i, s', g);
  }

  lemma GetFreeFacts(pc: L.Pc, job: Job, mem: Mem, g: Ghost, chain: Dict, mem': Mem, job': Job)
    requires JobOk(pc, job, mem, g.t, g.want, chain) && Acts(mem, pc, job, mem', job') && job.at == GetFree
    ensures pc.Freeing? && 0 in mem.ptrs && mem' == mem && AbsJob(job') == AbsJob(job) && Break(job) == None
    ensures SameMarks(job, job')
    ensures HasHead(g.t, 0, mem.ptrs[0]) ==> JobOk(pc, job', mem', g.t, g.want, chain)
  {
    hide OnList, Hash, L.ChainOf;
    OnListStays(g.t, L.ChainOf(pc) + 1, job, job');
  }

  lemma GetFreeInv(s: State, g: Ghost, i: Pid, s': State) returns (g': Ghost)
    requires Acting(s, g, i, s', GetFree)
    ensures Inv(s', g') && Refines(g.abs, g'.abs) && Confined(s, g, i, s', g')
  {
    hide Acting, Inv, Acts, JobOk, JobsMoved, L.WritesChain, L.ChainOf, Own, Break, Spoil, Reserve, AbsJob;
    ActFrame(s, g, i, s', GetFree);
    g' := g;
    var pc := s.locks.pcs[i];
    GetFreeFacts(pc, s.jobs[i], s.mem, g, g.abs.chains[L.ChainOf(pc)], s'.mem, s'.jobs[i]);
    HeadIs(s, g, i, 0);
    ReadInv(s, g, i, s');
  }

  lemma SeekFacts(pc: L.Pc, job: Job, mem: Mem, g: Ghost, chain: Dict, mem': Mem, job': Job)
    requires JobOk(pc, job, mem, g.t, g.want, chain) && Acts(mem, pc, job, mem', job')
    requires job.at == SeekData || job.at == SeekIndex
    ensures mem' == mem && AbsJob(job') == AbsJob(job) && JobOk(pc, job', mem', g.t, g.want, chain)
    ensures SameMarks(job, job')
  {
    hide Hash, L.ChainOf, Has;
  }

  lemma SeekInv(s: State, g: Ghost, i: Pid, s': State, at: Point) returns (g': Ghost)
    requires Acting(s, g, i, s', at) && (at == SeekData || at == SeekIndex)
    ensures Inv(s', g') && Refines(g.abs, g'.abs) && Confined(s, g, i, s', g')
  {
    hide Acting, Inv, Acts, JobOk, JobsMoved, L.WritesChain, L.ChainOf, Own, Break, Spoil, Reserve, AbsJob;
    ActFrame(s, g, i, s', at);
    g' := g;
    var pc := s.locks.pcs[i];
    SeekFacts(pc, s.jobs[i], s.mem, g, g.abs.chains[L.ChainOf(pc)], s'.mem, s'.jobs[i]);
    ReadInv(s, g, i, s');
  }

  lemma ActInv(s: State, g: Ghost, i: Pid, s': State) returns (g': Ghost)
    requires Inv(s, g) && Step(s, i, Act, s')
    ensures Inv(s', g') && Refines(g.abs, g'.abs) && Confined(s, g, i, s', g')
  {
    var at := s.jobs[i].at;
    HasProc(s, g, i);
    hide Inv, Step, ProcOk, Refines, Confined;
    match at
    case Blank => g' := BlankInv(s, g, i, s');
    case GetFree => g' := GetFreeInv(s, g, i, s');
    case Rewrite => g' := RewriteInv(s, g, i, s');
    case Push => g' := PushInv(s, g, i, s');
    case Unlink => g' := UnlinkInv(s, g, i, s');
    case TakeFree => g' := TakeFreeInv(s, g, i, s');
    case ReuseData => g' := ReuseDataInv(s, g, i, s');
    case ReuseIndex => g' := ReuseIndexInv(s, g, i, s');
    case SeekData => g' := SeekInv(s, g, i, s', SeekData);
    case WriteData => g' := WriteDataInv(s, g, i, s');
    case SeekIndex => g' := SeekInv(s, g, i, s', SeekIndex);
    case WriteIndex => g' := WriteIndexInv(s, g, i, s');
    case Link => g' := LinkInv(s, g, i, s');
    case Overwrite => g' := OverwriteInv(s, g, i, s');
    case _ => NoAct(s, i, s');
  }

  lemma HasProc(s: State, g: Ghost, i: Pid)
    requires Inv(s, g) && i in s.jobs
    ensures ProcOk(s, g, i)
  {
    hide Inv, Spots, Threaded, ClaimsOk, RecsApart, KeysOk, Coupled, JobOk, Procs;
    Parts(s, g);
    ProcIs(s, g, i);
  }

  lemma NoAct(s: State, i: Pid, s': State)
    requires Step(s, i, Act, s')
    ensures var at := s.jobs[i].at; at != Fresh && at != LookFree && at != Answered
  {
  }
}
