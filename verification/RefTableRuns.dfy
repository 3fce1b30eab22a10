/** What holds in every interleaving of threads on the object table. */
module RefTableRuns {
  import opened Common
  import opened RefTable
  import opened RefTableUpdates
  import opened RefTableSteps

  // ---- whole runs -------------------------------------------------------------------------

  /** Any interleaving from an empty table in which callers use references they hold. */
  ghost predicate Run(run: seq<State>) {
    && |run| > 0 && Initial(run[0])
    && forall i | 0 <= i < |run| - 1 :: Next(run[i], run[i + 1])
  }

  lemma {:induction false} RunInv(run: seq<State>, i: nat)
    requires Run(run) && i < |run|
    ensures Inv(run[i])
  {
    if i == 0 {
      InitialInv(run[0]);
    } else {
      RunInv(run, i - 1);
      var s, s' := run[i - 1], run[i - 1 + 1];
      assert Next(s, s');
      var t :| t in s.pcs && Touches(s.pcs[t]) <= s.heap.Keys && Step(s, t, s.pcs[t], s');
      assert ThreadOk(s, t);
      StepInv(s, t, s');
    }
  }

  lemma InitialInv(s: State)
    requires Initial(s)
    ensures Inv(s)
  {
    forall h | 0 <= h < NHASH ensures ChainOk(s, h) {
      assert s.chains[h] == [];
    }
    forall t | t in s.pcs ensures ThreadOk(s, t) {
      assert s.pcs[t] == Idle;
    }
  }

  /** Counts are exact: an object's count is the number of references outstanding. */
  lemma CountsExact(run: seq<State>, i: nat, f: Ref)
    requires Run(run) && i < |run| && f in run[i].heap
    ensures f in run[i].refs && run[i].heap[f].count == |run[i].refs[f]| >= 1
  {
    RunInv(run, i);
    assert ObjOk(run[i], f);
  }

  /** Whatever a thread touches next, and whatever is on a chain, has not been freed. */
  lemma NothingFreedIsUsed(run: seq<State>, i: nat)
    requires Run(run) && i < |run|
    ensures forall t | t in run[i].pcs :: Touches(run[i].pcs[t]) <= run[i].heap.Keys
    ensures forall h, f | 0 <= h < NHASH && h < |run[i].chains| && f in run[i].chains[h] :: f in run[i].heap
    ensures forall t, f | t in run[i].pcs && f in run[i].refs && t in run[i].refs[f] :: f in run[i].heap
  {
    var s := run[i];
    RunInv(run, i);
    forall t | t in s.pcs ensures Touches(s.pcs[t]) <= s.heap.Keys {
      assert ThreadOk(s, t);
    }
    forall h, f | 0 <= h < NHASH && f in s.chains[h] ensures f in s.heap {
      assert ChainOk(s, h);
      var k := InChainIndex(s, h, f);
    }
  }

  /** foo_rele never follows a null pointer when it unlinks: the bucket has a head, every
      object the loop visits has a next one, and f is always still ahead. */
  lemma UnlinkFindsTarget(run: seq<State>, i: nat, t: Tid, f: Ref)
    requires Run(run) && i < |run| && t in run[i].pcs && Unlinks(run[i].pcs[t], f)
    ensures var s := run[i]; f in s.heap && |s.chains| == NHASH && |s.heads| == NHASH
    ensures var s, pc := run[i], run[i].pcs[t];
            var h := HashOf(s.heap[f].id);
            && f in s.chains[h]
            && (pc.ReleHead? ==> s.chains[h] != [] && s.heads[h] == Some(s.chains[h][0]))
            && (pc.ReleSearch? ==>
                  && pc.tfp in s.heap && pc.k + 1 < |s.chains[h]| && f in s.chains[h][pc.k + 1..]
                  && s.heap[pc.tfp].next == Some(s.chains[h][pc.k + 1]))
  {
    hide Inv, ThreadOk, ChainOk, HashOf, Run;
    var s, pc := run[i], run[i].pcs[t];
    RunInv(run, i);
    Threads(s, t);
    UnlinkingFacts(s, t, f);
    ChainCount(s);
    var h := HashOf(s.heap[f].id);
    Chains(s, h);
    HeadOf(s, h, f);
    if pc.ReleSearch? {
      Searching(s, t);
      NextOf(s, h, pc.k);
    }
  }

  lemma Threads(s: State, t: Tid)
    requires Inv(s) && t in s.pcs
    ensures ThreadOk(s, t)
  {
    hide ThreadOk, ObjOk, ChainOk;
  }

  // ---- no deadlock ----------------------------------------------------------------------------

  /** Thread t is blocked on a mutex that u holds. */
  ghost predicate WaitsFor(s: State, t: Tid, u: Tid) {
    && t in s.pcs && u in s.pcs
    && (|| (WaitsHash(s.pcs[t]) && s.hash == Some(u))
        || (WaitsObj(s.pcs[t]) && s.pcs[t].f in s.heap && s.heap[s.pcs[t].f].lock == Some(u)))
  }

  function Rank(pc: Pc): nat {
    if WaitsHash(pc) then 2 else if WaitsObj(pc) then 1 else 0
  }

  lemma WaitRank(s: State, t: Tid, u: Tid)
    requires Inv(s) && WaitsFor(s, t, u)
    ensures Rank(s.pcs[u]) < Rank(s.pcs[t])
  {
    hide Inv, ThreadOk, ObjOk;
    Threads(s, t);
    Threads(s, u);
    HashHeld(s, u);
    if WaitsObj(s.pcs[t]) {
      Objects(s, s.pcs[t].f);
      LockedAt(s, s.pcs[t].f, u);
    }
  }

  lemma LockedAt(s: State, f: Ref, u: Tid)
    requires ObjOk(s, f) && s.heap[f].lock == Some(u)
    ensures u in s.pcs && HoldsObj(s.pcs[u])
  {
    hide HashOf, HoldsObj, Private;
  }

  /** A walk along the wait-for graph. */
  ghost predicate WaitPath(s: State, path: seq<Tid>) {
    forall n {:trigger WaitEdge(s, path, n)} | 0 <= n < |path| - 1 :: WaitEdge(s, path, n)
  }

  ghost predicate WaitEdge(s: State, path: seq<Tid>, n: nat) {
    n + 1 < |path| && WaitsFor(s, path[n], path[n + 1])
  }

  lemma {:induction false} PathFalls(s: State, path: seq<Tid>)
    requires Inv(s) && |path| >= 2 && WaitPath(s, path)
    ensures path[0] in s.pcs && path[|path| - 1] in s.pcs
    ensures Rank(s.pcs[path[|path| - 1]]) + |path| - 1 <= Rank(s.pcs[path[0]]) <= 2
    decreases |path|
  {
    hide Inv, WaitsFor;
    var n := |path| - 1;
    assert WaitEdge(s, path, n - 1);
    Waiters(s, path[n - 1], path[n]);
    WaitRank(s, path[n - 1], path[n]);
    if n >= 2 {
      var init := path[..n];
      forall m | 0 <= m < |init| - 1 ensures WaitEdge(s, init, m) {
        assert WaitEdge(s, path, m);
      }
      PathFalls(s, init);
    }
  }

  lemma Waiters(s: State, t: Tid, u: Tid)
    requires WaitsFor(s, t, u)
    ensures t in s.pcs && u in s.pcs
  {
  }

  /** Waits never form a cycle: every path of waits gets strictly closer to a thread that runs. */
  lemma NoWaitCycle(run: seq<State>, i: nat, path: seq<Tid>)
    requires Run(run) && i < |run| && |path| >= 2 && WaitPath(run[i], path)
    ensures path[0] != path[|path| - 1] && |path| <= 3
  {
    hide Run, Inv, WaitPath, Rank;
    RunInv(run, i);
    PathFalls(run[i], path);
  }

  // ---- progress -------------------------------------------------------------------------------

  ghost predicate CanStep(s: State, t: Tid) {
    && t in s.pcs && |s.heads| == NHASH && |s.chains| == NHASH
    && Touches(s.pcs[t]) <= s.heap.Keys && s.heap.Keys == s.refs.Keys
    && exists s' :: Step(s, t, s.pcs[t], s')
  }

  /** The mutex the thread asks for, if any, is not held. */
  predicate MutexFree(s: State, t: Tid) {
    && t in s.pcs && (WaitsHash(s.pcs[t]) ==> s.hash == None)
    && (WaitsObj(s.pcs[t]) ==> s.pcs[t].f in s.heap && s.heap[s.pcs[t].f].lock == None)
  }

  lemma StepFacts(s: State, t: Tid)
    requires Inv(s) && ThreadOk(s, t)
    ensures |s.heads| == NHASH && |s.chains| == NHASH && Touches(s.pcs[t]) <= s.heap.Keys && s.heap.Keys == s.refs.Keys
  {
    hide ObjOk, ChainOk, ObjPart, WalkPart;
  }

  predicate AllocPc(pc: Pc) {
    pc.AllocLock? || pc.AllocLink? || pc.AllocLockObj? || pc.AllocUnlockHash? || pc.AllocUnlockObj?
  }

  predicate HoldPc(pc: Pc) {
    pc.HoldLock? || pc.HoldInc? || pc.HoldUnlock?
  }

  predicate FindPc(pc: Pc) {
    pc.FindLock? || pc.FindWalk? || pc.FindLockObj? || pc.FindInc? || pc.FindUnlockObj? || pc.FindUnlockHash?
  }

  predicate DropPc(pc: Pc) {
    || pc.ReleLock? || pc.ReleTest? || pc.ReleDec? || pc.ReleUnlock? || pc.ReleDrop? || pc.ReleLockHash?
    || pc.ReleRelock? || pc.ReleRecheck? || pc.ReleDec2? || pc.ReleUnlockObj2? || pc.ReleUnlockHash2?
  }

  predicate CountPc(pc: Pc) {
    pc.ReleTest? || pc.ReleDec? || pc.ReleRecheck? || pc.ReleDec2?
  }

  predicate UnlinkPc(pc: Pc) {
    pc.ReleHead? || pc.ReleSearch? || pc.ReleUnhash? || pc.ReleUnobj? || pc.ReleFree?
  }

  lemma AllocMoves(s: State, t: Tid)
    requires |s.heads| == NHASH && |s.chains| == NHASH && t in s.pcs && MutexFree(s, t)
    requires Touches(s.pcs[t]) <= s.heap.Keys && s.heap.Keys == s.refs.Keys
    ensures AllocPc(s.pcs[t]) ==> exists s' :: AllocStep(s, t, s.pcs[t], s')
  {
    hide HashOf;
    match s.pcs[t]
    case AllocLock(f) => assert AllocStep(s, t, s.pcs[t], Go(s, t, AllocLink(f)).(hash := Some(t)));
    case AllocLink(f) => assert AllocStep(s, t, s.pcs[t], Linked(s, t, f));
    case AllocLockObj(f) => assert AllocStep(s, t, s.pcs[t], SetLock(Go(s, t, AllocUnlockHash(f)), f, Some(t)));
    case AllocUnlockHash(f) => assert AllocStep(s, t, s.pcs[t], Go(s, t, AllocUnlockObj(f)).(hash := None));
    case AllocUnlockObj(f) => assert AllocStep(s, t, s.pcs[t], SetLock(Go(s, t, Idle), f, None));
    case _ =>
  }

  function Recounted(s: State, t: Tid, f: Ref, n: nat, r: multiset<Tid>, pc': Pc): State
    requires f in s.heap
  {
    SetRefs(SetCount(Go(s, t, pc'), f, n), f, r)
  }

  lemma HoldMoves(s: State, t: Tid)
    requires |s.heads| == NHASH && |s.chains| == NHASH && t in s.pcs && MutexFree(s, t)
    requires Touches(s.pcs[t]) <= s.heap.Keys && s.heap.Keys == s.refs.Keys
    ensures HoldPc(s.pcs[t]) ==> exists s' :: HoldStep(s, t, s.pcs[t], s')
  {
    match s.pcs[t]
    case HoldLock(f) => assert HoldStep(s, t, s.pcs[t], SetLock(Go(s, t, HoldInc(f)), f, Some(t)));
    case HoldInc(f) =>
      assert HoldStep(s, t, s.pcs[t], Recounted(s, t, f, s.heap[f].count + 1, s.refs[f] + multiset{t}, HoldUnlock(f)));
    case HoldUnlock(f) => assert HoldStep(s, t, s.pcs[t], SetLock(Go(s, t, Idle), f, None));
    case _ =>
  }

  lemma FindMoves(s: State, t: Tid)
    requires |s.heads| == NHASH && |s.chains| == NHASH && t in s.pcs && MutexFree(s, t)
    requires Touches(s.pcs[t]) <= s.heap.Keys && s.heap.Keys == s.refs.Keys
    ensures FindPc(s.pcs[t]) ==> exists s' :: FindStep(s, t, s.pcs[t], s')
  {
    hide HashOf;
    var pc := s.pcs[t];
    match pc
    case FindLock(id) => assert FindStep(s, t, pc, Go(s, t, FindWalk(id, s.heads[HashOf(id)], 0)).(hash := Some(t)));
    case FindWalk(id, cur, k) =>
      var pc' := if cur.None? then FindUnlockHash(id, None)
                 else if s.heap[cur.value].id == id then FindLockObj(cur.value, id)
                 else FindWalk(id, s.heap[cur.value].next, k + 1);
      assert FindStep(s, t, pc, Go(s, t, pc'));
    case FindLockObj(f, id) => assert FindStep(s, t, pc, SetLock(Go(s, t, FindInc(f, id)), f, Some(t)));
    case FindInc(f, id) =>
      assert FindStep(s, t, pc, Recounted(s, t, f, s.heap[f].count + 1, s.refs[f] + multiset{t}, FindUnlockObj(f, id)));
    case FindUnlockObj(f, id) => assert FindStep(s, t, pc, SetLock(Go(s, t, FindUnlockHash(id, Some(f))), f, None));
    case FindUnlockHash(_, _) => assert FindStep(s, t, pc, Go(s, t, Idle).(hash := None));
    case _ =>
  }

  lemma DropFirst(s: State, t: Tid)
    requires |s.heads| == NHASH && |s.chains| == NHASH && t in s.pcs && MutexFree(s, t)
    requires Touches(s.pcs[t]) <= s.heap.Keys && s.heap.Keys == s.refs.Keys
    ensures s.pcs[t].ReleLock? || s.pcs[t].ReleUnlock? ==> exists s' :: DropStep(s, t, s.pcs[t], s')
  {
    var pc := s.pcs[t];
    match pc
    case ReleLock(f) => assert DropStep(s, t, pc, SetLock(Go(s, t, ReleTest(f)), f, Some(t)));
    case ReleUnlock(f) => assert DropStep(s, t, pc, SetLock(Go(s, t, Idle), f, None));
    case _ =>
  }

  lemma DropMoves(s: State, t: Tid)
    requires |s.heads| == NHASH && |s.chains| == NHASH && t in s.pcs && MutexFree(s, t)
    requires Touches(s.pcs[t]) <= s.heap.Keys && s.heap.Keys == s.refs.Keys
    ensures DropPc(s.pcs[t]) && !CountPc(s.pcs[t]) ==> exists s' :: DropStep(s, t, s.pcs[t], s')
  {
    var pc := s.pcs[t];
    DropFirst(s, t);
    match pc
    case ReleDrop(f) => assert DropStep(s, t, pc, SetLock(Go(s, t, ReleLockHash(f)), f, None));
    case ReleLockHash(f) => assert DropStep(s, t, pc, Go(s, t, ReleRelock(f)).(hash := Some(t)));
    case ReleRelock(f) => assert DropStep(s, t, pc, SetLock(Go(s, t, ReleRecheck(f)), f, Some(t)));
    case ReleUnlockObj2(f) => assert DropStep(s, t, pc, SetLock(Go(s, t, ReleUnlockHash2), f, None));
    case ReleUnlockHash2 => assert DropStep(s, t, pc, Go(s, t, Idle).(hash := None));
    case _ =>
  }

  lemma CountMoves(s: State, t: Tid)
    requires |s.heads| == NHASH && |s.chains| == NHASH && t in s.pcs && MutexFree(s, t)
    requires Touches(s.pcs[t]) <= s.heap.Keys && s.heap.Keys == s.refs.Keys
    requires s.pcs[t].ReleDec? || s.pcs[t].ReleDec2? ==> s.pcs[t].f in s.heap && s.heap[s.pcs[t].f].count >= 1
    ensures CountPc(s.pcs[t]) ==> exists s' :: DropStep(s, t, s.pcs[t], s')
  {
    var pc := s.pcs[t];
    match pc
    case ReleTest(f) => assert DropStep(s, t, pc, Go(s, t, if s.heap[f].count == 1 then ReleDrop(f) else ReleDec(f)));
    case ReleDec(f) =>
      assert DropStep(s, t, pc, Recounted(s, t, f, s.heap[f].count - 1, s.refs[f] - multiset{t}, ReleUnlock(f)));
    case ReleRecheck(f) =>
      assert DropStep(s, t, pc, Go(s, t, if s.heap[f].count != 1 then ReleDec2(f) else ReleHead(f)));
    case ReleDec2(f) =>
      assert DropStep(s, t, pc, Recounted(s, t, f, s.heap[f].count - 1, s.refs[f] - multiset{t}, ReleUnlockObj2(f)));
    case _ =>
  }

  lemma HeadMoves(s: State, t: Tid, f: Ref)
    requires |s.heads| == NHASH && |s.chains| == NHASH && t in s.pcs && s.pcs[t] == ReleHead(f)
    requires Touches(s.pcs[t]) <= s.heap.Keys && s.heap.Keys == s.refs.Keys
    requires f in s.heap && s.heads[HashOf(s.heap[f].id)].Some?
    ensures exists s' :: UnlinkStep(s, t, s.pcs[t], s')
  {
    hide HashOf, WithoutAt, Touches;
    var h := HashOf(s.heap[f].id);
    if s.heads[h].value == f {
      assert UnlinkStep(s, t, ReleHead(f), Unlinked(s, t, f, 0));
    } else {
      assert UnlinkStep(s, t, ReleHead(f), Go(s, t, ReleSearch(f, s.heads[h].value, 0)));
    }
  }

  lemma SearchMoves(s: State, t: Tid, f: Ref, tfp: Ref, k: nat)
    requires |s.heads| == NHASH && |s.chains| == NHASH && t in s.pcs && s.pcs[t] == ReleSearch(f, tfp, k)
    requires Touches(s.pcs[t]) <= s.heap.Keys && s.heap.Keys == s.refs.Keys
    requires f in s.heap && tfp in s.heap && s.heap[tfp].next.Some?
    ensures exists s' :: UnlinkStep(s, t, s.pcs[t], s')
  {
    hide HashOf, WithoutAt, Touches;
    var h, next := HashOf(s.heap[f].id), s.heap[tfp].next.value;
    if next == f {
      var out := Upd(Go(s, t, ReleUnhash(f)), tfp, s.heap[tfp].(next := s.heap[f].next));
      var s' := out.(chains := s.chains[h := WithoutAt(s.chains[h], k + 1)]);
      assert UnlinkStep(s, t, ReleSearch(f, tfp, k), s');
    } else {
      assert UnlinkStep(s, t, ReleSearch(f, tfp, k), Go(s, t, ReleSearch(f, next, k + 1)));
    }
  }

  lemma UnlinkMoves(s: State, t: Tid)
    requires |s.heads| == NHASH && |s.chains| == NHASH && t in s.pcs
    requires Touches(s.pcs[t]) <= s.heap.Keys && s.heap.Keys == s.refs.Keys
    requires s.pcs[t].ReleHead? ==> s.pcs[t].f in s.heap && s.heads[HashOf(s.heap[s.pcs[t].f].id)].Some?
    requires s.pcs[t].ReleSearch? ==> s.pcs[t].tfp in s.heap && s.heap[s.pcs[t].tfp].next.Some?
    ensures UnlinkPc(s.pcs[t]) ==> exists s' :: UnlinkStep(s, t, s.pcs[t], s')
  {
    hide HashOf, WithoutAt;
    var pc := s.pcs[t];
    match pc
    case ReleHead(f) => HeadMoves(s, t, f);
    case ReleSearch(f, tfp, k) => SearchMoves(s, t, f, tfp, k);
    case ReleUnhash(f) => assert UnlinkStep(s, t, pc, Go(s, t, ReleUnobj(f)).(hash := None));
    case ReleUnobj(f) => assert UnlinkStep(s, t, pc, SetLock(Go(s, t, ReleFree(f)), f, None));
    case ReleFree(f) => assert UnlinkStep(s, t, pc, Go(s, t, Idle).(heap := s.heap - {f}, refs := s.refs - {f}));
    case _ =>
  }

  lemma UnlinkReady(s: State, t: Tid)
    requires Inv(s) && ThreadOk(s, t) && t in s.pcs && |s.heads| == NHASH
    ensures s.pcs[t].ReleHead? ==> s.pcs[t].f in s.heap && s.heads[HashOf(s.heap[s.pcs[t].f].id)].Some?
    ensures s.pcs[t].ReleSearch? ==> s.pcs[t].tfp in s.heap && s.heap[s.pcs[t].tfp].next.Some?
  {
    hide Inv, ThreadOk, ChainOk, HashOf;
    var pc := s.pcs[t];
    if pc.ReleHead? || pc.ReleSearch? {
      UnlinkingFacts(s, t, pc.f);
      var h := HashOf(s.heap[pc.f].id);
      Chains(s, h);
      HeadOf(s, h, pc.f);
      if pc.ReleSearch? {
        Searching(s, t);
        NextOf(s, h, pc.k);
      }
    }
  }

  lemma WaitsForHash(s: State, t: Tid, u: Tid)
    requires Inv(s) && t in s.pcs && WaitsHash(s.pcs[t]) && s.hash == Some(u)
    ensures WaitsFor(s, t, u)
  {
    hide ThreadOk, ObjOk, ChainOk;
  }

  lemma WaitsForObj(s: State, t: Tid, f: Ref, u: Tid)
    requires ObjOk(s, f) && t in s.pcs && WaitsObj(s.pcs[t]) && s.pcs[t].f == f && s.heap[f].lock == Some(u)
    ensures WaitsFor(s, t, u)
  {
    hide HashOf, HoldsObj, Private;
  }

  lemma Unblocked(s: State, t: Tid)
    requires Inv(s) && ThreadOk(s, t) && t in s.pcs && forall u :: !WaitsFor(s, t, u)
    ensures MutexFree(s, t)
  {
    hide Inv, ThreadOk, HashOf, ObjOk, WaitsFor;
    if WaitsHash(s.pcs[t]) && s.hash.Some? {
      WaitsForHash(s, t, s.hash.value);
    }
    if WaitsObj(s.pcs[t]) {
      HeldObj(s, t);
      var f := s.pcs[t].f;
      Objects(s, f);
      if s.heap[f].lock.Some? {
        WaitsForObj(s, t, f, s.heap[f].lock.value);
      }
    }
  }

  /** A thread that waits for no mutex can take a step: no null pointer and no count of zero stops it. */
  lemma FreeToStep(s: State, t: Tid)
    requires Inv(s) && t in s.pcs && forall u :: !WaitsFor(s, t, u)
    ensures CanStep(s, t)
  {
    hide Inv, ThreadOk, WaitsFor, Touches, AllocStep, HoldStep, FindStep, DropStep, UnlinkStep, HashOf, MutexFree;
    Threads(s, t);
    StepFacts(s, t);
    Unblocked(s, t);
    UnlinkReady(s, t);
    if s.pcs[t].ReleDec? || s.pcs[t].ReleDec2? {
      DecOwned(s, t);
    }
    var pc := s.pcs[t];
    AllocMoves(s, t);
    HoldMoves(s, t);
    FindMoves(s, t);
    DropMoves(s, t);
    CountMoves(s, t);
    UnlinkMoves(s, t);
    if pc.Idle? {
      assert Step(s, t, pc, Go(s, t, FindLock(0)));
    } else if s' :| AllocStep(s, t, pc, s') && AllocPc(pc) {
      assert Step(s, t, pc, s');
    } else if s' :| HoldStep(s, t, pc, s') && HoldPc(pc) {
      assert Step(s, t, pc, s');
    } else if s' :| FindStep(s, t, pc, s') && FindPc(pc) {
      assert Step(s, t, pc, s');
    } else if s' :| DropStep(s, t, pc, s') && DropPc(pc) {
      assert Step(s, t, pc, s');
    } else {
      var s' :| UnlinkStep(s, t, pc, s');
      assert Step(s, t, pc, s');
    }
  }

  /** Behind every thread there is one that can go on: itself, or one it waits for in the end. */
  lemma {:induction false} SomeoneCanStep(s: State, t: Tid) returns (path: seq<Tid>)
    requires Inv(s) && t in s.pcs
    ensures path != [] && path[0] == t && WaitPath(s, path) && CanStep(s, path[|path| - 1])
    decreases Rank(s.pcs[t])
  {
    hide Inv, WaitsFor, CanStep;
    if u :| WaitsFor(s, t, u) {
      Waiters(s, t, u);
      WaitRank(s, t, u);
      var rest := SomeoneCanStep(s, u);
      path := [t] + rest;
      forall n | 0 <= n < |path| - 1 ensures WaitEdge(s, path, n) {
        if n > 0 {
          assert WaitEdge(s, rest, n - 1);
        }
      }
    } else {
      FreeToStep(s, t);
      path := [t];
    }
  }
}
