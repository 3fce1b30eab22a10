/** The parts of the invariant one by one: what keeps each of them when a process has moved. */
module DbSharedParts {
  import opened Common
  import opened CStrings
  import opened DbCells
  import opened DbRecord
  import opened DbFormat
  import opened DbLists
  import opened DbContents
  import opened DbSpec
  import opened DbShared
  import opened DbSharedFrame

  // ---- marks that calls leave on the files ----------------------------------------------------------

  /** Only process i has moved. */
  ghost predicate JobsMoved(jobs: map<Pid, Job>, i: Pid, jobs': map<Pid, Job>) {
    forall j | j != i :: Get(jobs', j) == Get(jobs, j)
  }

  /** The marks of process i, if it has a call in progress. */
  datatype Marks = Marks(own: Option<nat>, broken: Option<nat>, spoiled: Option<nat>, reserved: Option<Rec>)

  predicate SameMarks(job: Job, job': Job) {
    Own(job') == Own(job) && Break(job') == Break(job) && Spoil(job') == Spoil(job) && Reserve(job') == Reserve(job)
  }

  function MarksAt(jobs: map<Pid, Job>, i: Pid): Marks {
    if i in jobs then Marks(Own(jobs[i]), Break(jobs[i]), Spoil(jobs[i]), Reserve(jobs[i]))
    else Marks(None, None, None, None)
  }

  lemma OwnedKept(jobs: map<Pid, Job>, i: Pid, jobs': map<Pid, Job>, x: nat)
    requires JobsMoved(jobs, i, jobs')
    requires MarksAt(jobs, i).own == Some(x) ==> MarksAt(jobs', i).own == Some(x)
    ensures Owned(jobs, x) ==> Owned(jobs', x)
  {
    hide Own, Break, Spoil, Reserve;
    if Owned(jobs, x) {
      var j :| j in jobs && Own(jobs[j]) == Some(x);
      assert j != i ==> Get(jobs', j) == Get(jobs, j);
      assert j in jobs' && Own(jobs'[j]) == Some(x);
    }
  }

  lemma BrokenKept(jobs: map<Pid, Job>, i: Pid, jobs': map<Pid, Job>, x: nat)
    requires JobsMoved(jobs, i, jobs')
    requires MarksAt(jobs, i).broken == Some(x) ==> MarksAt(jobs', i).broken == Some(x)
    ensures Broken(jobs, x) ==> Broken(jobs', x)
  {
    hide Own, Break, Spoil, Reserve;
    if Broken(jobs, x) {
      var j :| j in jobs && Break(jobs[j]) == Some(x);
      assert j != i ==> Get(jobs', j) == Get(jobs, j);
      assert j in jobs' && Break(jobs'[j]) == Some(x);
    }
  }

  lemma SpoiledKept(jobs: map<Pid, Job>, i: Pid, jobs': map<Pid, Job>, x: nat)
    requires JobsMoved(jobs, i, jobs')
    requires MarksAt(jobs, i).spoiled == Some(x) ==> MarksAt(jobs', i).spoiled == Some(x)
    ensures Spoiled(jobs, x) ==> Spoiled(jobs', x)
  {
    hide Own, Break, Spoil, Reserve;
    if Spoiled(jobs, x) {
      var j :| j in jobs && Spoil(jobs[j]) == Some(x);
      assert j != i ==> Get(jobs', j) == Get(jobs, j);
      assert j in jobs' && Spoil(jobs'[j]) == Some(x);
    }
  }

  // ---- one location ----------------------------------------------------------------------------------

  /** Process i has no mark on x that it drops. */
  predicate MarksKeep(jobs: map<Pid, Job>, i: Pid, jobs': map<Pid, Job>, x: nat) {
    && (MarksAt(jobs, i).own == Some(x) ==> MarksAt(jobs', i).own == Some(x))
    && (MarksAt(jobs, i).broken == Some(x) ==> MarksAt(jobs', i).broken == Some(x))
    && (MarksAt(jobs, i).spoiled == Some(x) ==> MarksAt(jobs', i).spoiled == Some(x))
  }

  predicate ViewKeeps(chain: Dict, chain': Dict, key: Bytes) {
    key in chain ==> key in chain' && chain'[key] == chain[key]
  }

  /** What the view and the data file have for a record of a chain is as it was. */
  predicate RecordKept(s: State, g: Ghost, s': State, g': Ghost, x: nat) {
    x in s.mem.cells && x in g.t.home && g.t.home[x] > 0 && g.t.home[x] - 1 in g.abs.chains ==>
      && var h, r := g.t.home[x] - 1, s.mem.cells[x];
         && h in g'.abs.chains && ViewKeeps(g.abs.chains[h], g'.abs.chains[h], r.key)
         && SameData(s.mem.data, s'.mem.data, r)
  }

  lemma SpotKept(s: State, g: Ghost, i: Pid, s': State, g': Ghost, x: nat)
    requires SpotOk(s, g, x) && SameAt(s.mem, g, s'.mem, g', x) && s.mem.idxEnd <= s'.mem.idxEnd
    requires JobsMoved(s.jobs, i, s'.jobs) && MarksKeep(s.jobs, i, s'.jobs, x)
    requires RecordKept(s, g, s', g', x)
    ensures SpotOk(s', g', x)
  {
    hide Owned, Broken, Spoiled, MarksAt, JobsMoved, Hash, RecLen, SameData;
    OwnedKept(s.jobs, i, s'.jobs, x);
    BrokenKept(s.jobs, i, s'.jobs, x);
    SpoiledKept(s.jobs, i, s'.jobs, x);
    if x in g.t.home && g.t.home[x] > 0 {
      var h, r := g.t.home[x] - 1, s.mem.cells[x];
      var spoiled, spoiled' := Spoiled(s.jobs, x), Spoiled(s'.jobs, x);
      ChainedKept(r, s.mem.data, s'.mem.data, h, g.abs.chains[h], g'.abs.chains[h], spoiled, spoiled');
    }
  }

  lemma ChainedKept(r: Rec, data: Bytes, data': Bytes, h: nat, chain: Dict, chain': Dict, spoiled: bool, spoiled': bool)
    requires Chained(r, data, h, chain, spoiled) && ViewKeeps(chain, chain', r.key) && (spoiled ==> spoiled')
    requires SameData(data, data', r)
    ensures Chained(r, data', h, chain', spoiled')
  {
    hide Hash, Has, SameData;
    if !spoiled {
      HasSame(data, data', r, chain[r.key] + [NEWLINE]);
    }
  }

  // ---- extents ------------------------------------------------------------------------------------------

  /** A claim with the extent of a claim before. */
  predicate SameExtent(s: State, a: Claim, s': State, b: Claim) {
    && Claims(s, a) && Claims(s', b)
    && Claimed(s', b).datoff == Claimed(s, a).datoff && Claimed(s', b).datlen == Claimed(s, a).datlen
  }

  lemma ClaimsSame(s: State, s': State)
    requires ClaimsOk(s) && |s.mem.data| <= |s'.mem.data|
    requires forall a {:trigger SameExtent(s, a, s', a)} | Claims(s', a) :: SameExtent(s, a, s', a)
    ensures ClaimsOk(s')
  {
    hide Claims, Claimed;
    forall a | Claims(s', a) ensures ClaimOk(s', a) {
      assert SameExtent(s, a, s', a) && ClaimOk(s, a);
    }
    forall a, b | Claims(s', a) && Claims(s', b) ensures ClaimsApart(s', a, b) {
      assert SameExtent(s, a, s', a) && SameExtent(s, b, s', b) && ClaimsApart(s, a, b);
    }
  }

  /** A new claim beyond all others. */
  lemma ClaimsGrow(s: State, s': State, n: Claim)
    requires ClaimsOk(s) && |s.mem.data| <= |s'.mem.data|
    requires Claims(s', n) && Claimed(s', n).datoff == |s.mem.data| && Claimed(s', n).datlen >= 1
    requires End(Claimed(s', n)) <= |s'.mem.data|
    requires forall a {:trigger SameExtent(s, a, s', a)} | Claims(s', a) && a != n :: SameExtent(s, a, s', a)
    ensures ClaimsOk(s')
  {
    hide Claims, Claimed;
    forall a | Claims(s', a) ensures ClaimOk(s', a) && (a != n ==> End(Claimed(s', a)) <= |s.mem.data|) {
      if a != n {
        assert SameExtent(s, a, s', a) && ClaimOk(s, a);
      }
    }
    forall a, b | Claims(s', a) && Claims(s', b) ensures ClaimsApart(s', a, b) {
      if a != n && b != n {
        assert SameExtent(s, a, s', a) && SameExtent(s, b, s', b) && ClaimsApart(s, a, b);
      } else if a != n {
        assert ClaimOk(s', a);
      } else if b != n {
        assert ClaimOk(s', b);
      }
    }
  }

  /** One claim takes the place of another. */
  lemma ClaimsPass(s: State, s': State, m: Claim, n: Claim)
    requires ClaimsOk(s) && |s.mem.data| <= |s'.mem.data|
    requires SameExtent(s, m, s', n) && !Claims(s', m)
    requires forall a {:trigger SameExtent(s, a, s', a)} | Claims(s', a) && a != n :: SameExtent(s, a, s', a)
    ensures ClaimsOk(s')
  {
    hide Claims, Claimed;
    forall a | Claims(s', a) ensures ClaimOk(s', a) {
      var a0 := if a == n then m else a;
      assert a != n ==> SameExtent(s, a, s', a);
      assert ClaimOk(s, a0);
    }
    forall a, b | Claims(s', a) && Claims(s', b) ensures ClaimsApart(s', a, b) {
      var a0, b0 := if a == n then m else a, if b == n then m else b;
      assert a != n ==> SameExtent(s, a, s', a);
      assert b != n ==> SameExtent(s, b, s', b);
      assert ClaimsApart(s, a0, b0);
    }
  }

  // ---- records in the index file --------------------------------------------------------------------------

  lemma RecsSame(cells: map<nat, Rec>, cells': map<nat, Rec>)
    requires RecsApart(cells)
    requires forall x | x in cells' :: x in cells && RecLen(cells'[x]) == RecLen(cells[x])
    ensures RecsApart(cells')
  {
    hide RecLen;
    forall x, y | x in cells' && y in cells' ensures RecApart(cells', x, y) {
      assert RecApart(cells, x, y);
    }
  }

  lemma RecsGrow(cells: map<nat, Rec>, o: nat, r: Rec)
    requires RecsApart(cells) && forall x | x in cells :: x + RecLen(cells[x]) <= o
    ensures RecsApart(cells[o := r])
  {
    hide RecLen;
    var cells' := cells[o := r];
    forall x, y | x in cells' && y in cells' ensures RecApart(cells', x, y) {
      if x != o && y != o {
        assert RecApart(cells, x, y);
      }
    }
  }

  /** A record with a key of the same length takes the same space. */
  lemma SameRecLen(r: Rec, key: Bytes)
    requires |key| == |r.key|
    ensures RecLen(r.(key := key)) == RecLen(r)
  {
    hide Numbers;
  }

  // ---- keys -------------------------------------------------------------------------------------------

  /** The chain, if any, that a record is on. */
  function ChainHome(home: map<nat, nat>, x: nat): Option<nat> {
    if x in home && home[x] > 0 then Some(home[x]) else None
  }

  /** The same records with the same keys are on chains. */
  ghost predicate KeysKept(cells: map<nat, Rec>, home: map<nat, nat>, cells': map<nat, Rec>, home': map<nat, nat>) {
    && (forall x | x in home' :: x in cells')
    && (forall x | ChainHome(home', x).Some? || ChainHome(home, x).Some? ::
          ChainHome(home', x) == ChainHome(home, x) && x in cells && x in cells' && cells'[x].key == cells[x].key)
  }

  lemma KeysSame(cells: map<nat, Rec>, home: map<nat, nat>, chains: map<nat, Dict>,
                 cells': map<nat, Rec>, home': map<nat, nat>, chains': map<nat, Dict>)
    requires KeysOk(cells, home, chains) && KeysKept(cells, home, cells', home')
    requires forall h | h in chains' :: h in chains && chains'[h].Keys == chains[h].Keys
    ensures KeysOk(cells', home', chains')
  {
    forall x, y | x in home' && y in home' ensures KeysDiffer(cells', home', x, y) {
      if home'[x] == home'[y] > 0 {
        assert ChainHome(home', x).Some? && ChainHome(home', y).Some?;
        assert KeysDiffer(cells, home, x, y);
      }
    }
    forall h, key | h in chains' && h < NHASH && key in chains'[h] ensures KeyHome(cells', home', h, key) {
      assert key in chains[h].Keys;
      assert KeyHome(cells, home, h, key);
      var o :| o in home && home[o] == h + 1 && HasKey(cells, o, key);
      assert ChainHome(home, o).Some?;
      assert o in home' && home'[o] == h + 1 && HasKey(cells', o, key);
    }
  }

  lemma KeysRemoved(cells: map<nat, Rec>, home: map<nat, nat>, chains: map<nat, Dict>, o: nat, r: Rec, h: nat)
    requires KeysOk(cells, home, chains) && o in home && home[o] == h + 1 && o in cells && h in chains
    ensures KeysOk(cells[o := r], home - {o}, chains[h := chains[h] - {cells[o].key}])
  {
    var cells', home', chains' := cells[o := r], home - {o}, chains[h := chains[h] - {cells[o].key}];
    forall x, y | x in home' && y in home' ensures KeysDiffer(cells', home', x, y) {
      assert KeysDiffer(cells, home, x, y);
    }
    forall m, key | m in chains' && m < NHASH && key in chains'[m] ensures KeyHome(cells', home', m, key) {
      assert KeyHome(cells, home, m, key);
      var x :| x in home && home[x] == m + 1 && HasKey(cells, x, key);
      assert x in home' && home'[x] == m + 1 && HasKey(cells', x, key);
    }
  }

  lemma KeysAdded(cells: map<nat, Rec>, home: map<nat, nat>, chains: map<nat, Dict>,
                  o: nat, key: Bytes, h: nat, d: Bytes)
    requires KeysOk(cells, home, chains) && o !in home && HasKey(cells, o, key) && h in chains
    requires forall x | x in home && x in cells && home[x] == h + 1 :: cells[x].key != key
    ensures KeysOk(cells, home[o := h + 1], chains[h := chains[h][key := d]])
  {
    var home', chains' := home[o := h + 1], chains[h := chains[h][key := d]];
    forall x, y | x in home' && y in home' ensures KeysDiffer(cells, home', x, y) {
      if x != o {
        assert KeysDiffer(cells, home, x, x);
      }
      if y != o {
        assert KeysDiffer(cells, home, y, y);
      }
      if x != o && y != o {
        assert KeysDiffer(cells, home, x, y);
      }
    }
    forall m, k | m in chains' && m < NHASH && k in chains'[m] ensures KeyHome(cells, home', m, k) {
      if m == h && k == key {
        assert o in home' && home'[o] == h + 1 && HasKey(cells, o, key);
      } else {
        assert KeyHome(cells, home, m, k);
        var x :| x in home && home[x] == m + 1 && HasKey(cells, x, k);
        assert x in home' && home'[x] == m + 1 && HasKey(cells, x, k);
      }
    }
  }

  // ---- steps that leave the files alone ------------------------------------------------------------------

  /** Process i has moved; files, lists and view are as before, and it has the same marks on them. */
  ghost predicate Still(s: State, g: Ghost, i: Pid, s': State, g': Ghost) {
    && s'.mem == s.mem && g'.t == g.t && g'.want == g.want && g'.abs.chains == g.abs.chains
    && JobsMoved(s.jobs, i, s'.jobs) && MarksAt(s'.jobs, i) == MarksAt(s.jobs, i)
    && (forall j | j != i :: Get(s'.locks.pcs, j) == Get(s.locks.pcs, j))
  }

  lemma StillSpots(s: State, g: Ghost, i: Pid, s': State, g': Ghost)
    requires Spots(s, g) && ClaimsOk(s) && Still(s, g, i, s', g')
    ensures Spots(s', g')
  {
    hide SpotOk, JobsMoved, MarksAt;
    forall x: nat ensures SpotOk(s', g', x) {
      assert SpotOk(s, g, x);
      if x in s.mem.cells {
        assert ClaimOk(s, Of(x));
      }
      SpotKept(s, g, i, s', g', x);
    }
  }

  lemma StillClaims(s: State, g: Ghost, i: Pid, s': State, g': Ghost)
    requires ClaimsOk(s) && Still(s, g, i, s', g')
    ensures ClaimsOk(s')
  {
    StillData(s, g, i, s', g');
    forall a | Claims(s', a) ensures SameExtent(s, a, s', a) {
      StillClaim(s, g, i, s', g', a);
    }
    hide Still, Claims, Claimed, SameExtent;
    ClaimsSame(s, s');
  }

  lemma StillData(s: State, g: Ghost, i: Pid, s': State, g': Ghost)
    requires Still(s, g, i, s', g')
    ensures s'.mem == s.mem
  {
  }

  lemma StillClaim(s: State, g: Ghost, i: Pid, s': State, g': Ghost, a: Claim)
    requires Still(s, g, i, s', g') && Claims(s', a)
    ensures SameExtent(s, a, s', a)
  {
    if a.By? {
      assert a.i != i ==> Get(s'.jobs, a.i) == Get(s.jobs, a.i);
    }
  }

  lemma StillProcs(s: State, g: Ghost, i: Pid, s': State, g': Ghost)
    requires Procs(s, g) && Still(s, g, i, s', g') && (i in s'.jobs ==> ProcOk(s', g', i))
    ensures Procs(s', g')
  {
    hide Own, JobOk;
    forall j | j in s'.jobs ensures ProcOk(s', g', j) {
      if j != i {
        assert Get(s'.jobs, j) == Get(s.jobs, j) && Get(s'.locks.pcs, j) == Get(s.locks.pcs, j);
        assert ProcOk(s, g, j);
      }
    }
    forall j, k | j in s'.jobs && k in s'.jobs ensures OwnApart(s'.jobs, j, k) {
      StillOwn(s, g, i, s', g', j);
      StillOwn(s, g, i, s', g', k);
      if j != k && Own(s'.jobs[j]).Some? && Own(s'.jobs[k]).Some? {
        assert OwnApart(s.jobs, j, k);
      }
    }
  }

  lemma StillOwn(s: State, g: Ghost, i: Pid, s': State, g': Ghost, j: Pid)
    requires Still(s, g, i, s', g') && j in s'.jobs
    ensures Own(s'.jobs[j]).Some? ==> j in s.jobs && Own(s.jobs[j]) == Own(s'.jobs[j])
  {
    hide Own, Spoil, Break, Reserve;
    assert j != i ==> Get(s'.jobs, j) == Get(s.jobs, j);
  }

  lemma StillInv(s: State, g: Ghost, i: Pid, s': State, g': Ghost)
    requires Inv(s, g) && Still(s, g, i, s', g') && Coupled(s', g')
    requires i in s'.jobs ==> ProcOk(s', g', i)
    ensures Inv(s', g')
  {
    hide Coupled, Threaded, Spots, RecsApart, ClaimsOk, KeysOk, Procs, ProcOk, JobsMoved, MarksAt;
    StillSpots(s, g, i, s', g');
    StillClaims(s, g, i, s', g');
    StillProcs(s, g, i, s', g');
  }
}
