/**
  What foo_find returns: the first object of its chain that foo_alloc has made with the id asked
  for, held by the caller; or nothing, when no object on any chain was made with that id.
 */
module RefTableFinds {
  import opened Common
  import opened RefTable
  import opened RefTableUpdates
  import opened RefTableSteps
  import opened RefTableRuns

  // ---- ids -----------------------------------------------------------------------------------

  /** foo_alloc was called for the object with this id. */
  predicate HasId(s: State, f: Ref, id: int) {
    f in s.made && s.made[f] == id
  }

  ghost predicate MadeOk(s: State) {
    forall f | f in s.heap :: HasId(s, f, s.heap[f].id)
  }

  /** No object among the first k of the chain was made with the id. */
  predicate NotAmong(s: State, h: nat, k: nat, id: int) {
    h < |s.chains| && k <= |s.chains[h]| && forall j | 0 <= j < k :: !HasId(s, s.chains[h][j], id)
  }

  predicate FirstAt(s: State, f: Ref, id: int, k: nat) {
    && HasId(s, f, id) && |s.chains| == NHASH && k < |s.chains[HashOf(id)]| && s.chains[HashOf(id)][k] == f
    && NotAmong(s, HashOf(id), k, id)
  }

  /** The first object made with the id, on the chain of that id. */
  ghost predicate First(s: State, f: Ref, id: int) {
    exists k :: FirstAt(s, f, id, k)
  }

  ghost predicate Nowhere(s: State, id: int) {
    forall h {:trigger NotOn(s, h, id)} | 0 <= h < NHASH :: NotOn(s, h, id)
  }

  predicate NotOn(s: State, h: nat, id: int) {
    h < |s.chains| && NotAmong(s, h, |s.chains[h]|, id)
  }

  /** What a thread in foo_find has established so far. */
  ghost predicate FindOk(s: State, t: Tid) {
    t in s.pcs ==>
      match s.pcs[t]
      case FindWalk(id, _, k) => NotAmong(s, HashOf(id), k, id)
      case FindLockObj(f, id) => First(s, f, id)
      case FindInc(f, id) => First(s, f, id)
      case FindUnlockObj(f, id) => First(s, f, id)
      case FindUnlockHash(id, found) =>
        if found.Some? then
          First(s, found.value, id) && found.value in s.refs && t in s.refs[found.value]
        else Nowhere(s, id)
      case _ => true
  }

  // ---- a step of another thread -----------------------------------------------------------------

  /** Chains and the ids of the objects on them are as they were. */
  ghost predicate SameIds(s: State, s': State) {
    && s'.chains == s.chains
    && forall h, k, id | 0 <= h < |s.chains| && 0 <= k < |s.chains[h]| ::
         HasId(s', s.chains[h][k], id) <==> HasId(s, s.chains[h][k], id)
  }

  lemma NotAmongSame(s: State, s': State, h: nat, k: nat, id: int)
    requires NotAmong(s, h, k, id) && SameIds(s, s')
    ensures NotAmong(s', h, k, id)
  {
  }

  lemma FirstSame(s: State, s': State, f: Ref, id: int)
    requires First(s, f, id) && SameIds(s, s')
    ensures First(s', f, id)
  {
    var k :| FirstAt(s, f, id, k);
    NotAmongSame(s, s', HashOf(id), k, id);
    assert FirstAt(s', f, id, k);
  }

  lemma NowhereAt(s: State, id: int, h: nat)
    requires Nowhere(s, id) && h < NHASH
    ensures h < |s.chains| && NotAmong(s, h, |s.chains[h]|, id)
  {
    assert NotOn(s, h, id);
  }

  lemma NowhereSame(s: State, s': State, id: int)
    requires Nowhere(s, id) && SameIds(s, s')
    ensures Nowhere(s', id)
  {
    hide NotAmong, SameIds;
    SameChains(s, s');
    forall h | 0 <= h < NHASH ensures NotOn(s', h, id) {
      NowhereAt(s, id, h);
      NotAmongSame(s, s', h, |s.chains[h]|, id);
    }
  }

  lemma SameChains(s: State, s': State)
    requires SameIds(s, s')
    ensures s'.chains == s.chains
  {
  }

  lemma FindSame(s: State, s': State, t: Tid)
    requires FindOk(s, t) && SameIds(s, s') && t in s.pcs && t in s'.pcs && s'.pcs[t] == s.pcs[t]
    requires forall f | f in s.refs && t in s.refs[f] :: f in s'.refs && t in s'.refs[f]
    ensures FindOk(s', t)
  {
    hide SameIds, NotAmong, First, Nowhere, HashOf;
    var pc := s.pcs[t];
    if pc.FindWalk? {
      NotAmongSame(s, s', HashOf(pc.id), pc.k, pc.id);
    } else if pc.FindLockObj? || pc.FindInc? || pc.FindUnlockObj? {
      FirstSame(s, s', pc.f, pc.id);
    } else if pc.FindUnlockHash? && pc.found.Some? {
      FirstSame(s, s', pc.found.value, pc.id);
    } else if pc.FindUnlockHash? {
      NowhereSame(s, s', pc.id);
    }
  }

  /** What a step leaves alone of the ids, of other threads' program counters and of their references. */
  ghost predicate Effect(s: State, u: Tid, s': State) {
    && u in s.pcs && (forall t | t in s.pcs && t != u :: t in s'.pcs && s'.pcs[t] == s.pcs[t])
    && (forall f, id | f != s.nextRef :: HasId(s', f, id) <==> HasId(s, f, id))
    && (forall f | f in s'.heap && f != s.nextRef :: f in s.heap && s'.heap[f].id == s.heap[f].id)
    && (s.nextRef in s'.heap && s.nextRef !in s.heap ==> HasId(s', s.nextRef, s'.heap[s.nextRef].id))
    && forall f, t | t != u && f in s.refs && t in s.refs[f] && s.pcs[u] != ReleFree(f) ::
         f in s'.refs && t in s'.refs[f]
  }

  ghost predicate Stands(s: State) {
    |s.heads| == NHASH && |s.chains| == NHASH && s.heap.Keys == s.refs.Keys
  }

  predicate OthersStay(s: State, u: Tid, s': State) {
    u in s.pcs && u in s'.pcs && s'.pcs == s.pcs[u := s'.pcs[u]] && s'.made == s.made && s'.nextRef == s.nextRef
  }

  /** Only the program counter, and perhaps hashlock. */
  predicate Moves(s: State, u: Tid, s': State) {
    OthersStay(s, u, s') && s'.heap == s.heap && s'.refs == s.refs && s'.chains == s.chains
  }

  /** One object's lock or count, and the thread's own references to it. */
  predicate Tweaks(s: State, u: Tid, s': State, f: Ref) {
    && OthersStay(s, u, s') && s'.chains == s.chains && f in s.heap && f in s.refs && f in s'.heap && f in s'.refs
    && s'.heap == s.heap[f := s'.heap[f]] && s'.heap[f].id == s.heap[f].id
    && s'.refs == s.refs[f := s'.refs[f]] && MoreBut(s.refs[f], s'.refs[f], u)
  }

  /** Nobody but u has fewer. */
  predicate MoreBut(r: multiset<Tid>, r': multiset<Tid>, u: Tid) {
    forall t | t in r && t != u :: t in r'
  }

  /** A next pointer, the head of a chain and the chain. */
  ghost predicate Relinks(s: State, u: Tid, s': State) {
    && OthersStay(s, u, s') && s'.refs == s.refs && s'.heap.Keys == s.heap.Keys
    && forall f | f in s.heap :: s'.heap[f].id == s.heap[f].id
  }

  lemma MoveEffect(s: State, u: Tid, s': State)
    requires Moves(s, u, s')
    ensures Effect(s, u, s')
  {
  }

  lemma TweakEffect(s: State, u: Tid, s': State, f: Ref)
    requires Tweaks(s, u, s', f)
    ensures Effect(s, u, s')
  {
  }

  lemma RelinkEffect(s: State, u: Tid, s': State)
    requires Relinks(s, u, s')
    ensures Effect(s, u, s')
  {
  }

  lemma AllocKind(s: State, u: Tid, s': State)
    requires Stands(s) && u in s.pcs && Touches(s.pcs[u]) <= s.heap.Keys && AllocStep(s, u, s.pcs[u], s')
    ensures s.pcs[u].AllocLock? || s.pcs[u].AllocUnlockHash? ==> Moves(s, u, s')
    ensures s.pcs[u].AllocLockObj? || s.pcs[u].AllocUnlockObj? ==> Tweaks(s, u, s', s.pcs[u].f)
    ensures s.pcs[u].AllocLink? ==> Relinks(s, u, s')
  {
    hide HashOf;
  }

  lemma HoldKind(s: State, u: Tid, s': State)
    requires Stands(s) && u in s.pcs && Touches(s.pcs[u]) <= s.heap.Keys && HoldStep(s, u, s.pcs[u], s')
    ensures HoldPc(s.pcs[u]) ==> Tweaks(s, u, s', s.pcs[u].f)
  {
  }

  lemma FindKind(s: State, u: Tid, s': State)
    requires Stands(s) && u in s.pcs && Touches(s.pcs[u]) <= s.heap.Keys && FindStep(s, u, s.pcs[u], s')
    ensures s.pcs[u].FindLock? || s.pcs[u].FindWalk? || s.pcs[u].FindUnlockHash? ==> Moves(s, u, s')
  {
    hide HashOf;
  }

  lemma FindTweak(s: State, u: Tid, s': State)
    requires Stands(s) && u in s.pcs && Touches(s.pcs[u]) <= s.heap.Keys && FindStep(s, u, s.pcs[u], s')
    ensures s.pcs[u].FindLockObj? || s.pcs[u].FindInc? || s.pcs[u].FindUnlockObj? ==> Tweaks(s, u, s', s.pcs[u].f)
  {
    hide HashOf;
  }

  predicate DropMove(pc: Pc) {
    pc.ReleTest? || pc.ReleLockHash? || pc.ReleRecheck? || pc.ReleUnlockHash2?
  }

  lemma DropKind(s: State, u: Tid, s': State)
    requires Stands(s) && u in s.pcs && Touches(s.pcs[u]) <= s.heap.Keys && DropStep(s, u, s.pcs[u], s')
    ensures DropMove(s.pcs[u]) ==> Moves(s, u, s')
  {
  }

  lemma DropTweak(s: State, u: Tid, s': State)
    requires Stands(s) && u in s.pcs && Touches(s.pcs[u]) <= s.heap.Keys && DropStep(s, u, s.pcs[u], s')
    ensures DropPc(s.pcs[u]) && !DropMove(s.pcs[u]) && !s.pcs[u].ReleDec? && !s.pcs[u].ReleDec2? ==>
      Tweaks(s, u, s', s.pcs[u].f)
  {
  }

  lemma DecTweak(s: State, u: Tid, s': State)
    requires Stands(s) && u in s.pcs && Touches(s.pcs[u]) <= s.heap.Keys && DropStep(s, u, s.pcs[u], s')
    ensures s.pcs[u].ReleDec? || s.pcs[u].ReleDec2? ==> Tweaks(s, u, s', s.pcs[u].f)
  {
  }

  lemma UnlinkKind(s: State, u: Tid, s': State)
    requires Stands(s) && u in s.pcs && Touches(s.pcs[u]) <= s.heap.Keys && UnlinkStep(s, u, s.pcs[u], s')
    ensures s.pcs[u].ReleUnhash? ==> Moves(s, u, s')
    ensures s.pcs[u].ReleUnobj? ==> Tweaks(s, u, s', s.pcs[u].f)
    ensures s.pcs[u].ReleFree? ==> s' == Go(s, u, Idle).(heap := s.heap - {s.pcs[u].f}, refs := s.refs - {s.pcs[u].f})
  {
    hide HashOf, WithoutAt;
  }

  lemma UnlinkRelinks(s: State, u: Tid, s': State)
    requires Stands(s) && u in s.pcs && Touches(s.pcs[u]) <= s.heap.Keys && UnlinkStep(s, u, s.pcs[u], s')
    ensures s.pcs[u].ReleHead? || s.pcs[u].ReleSearch? ==> Relinks(s, u, s')
  {
    hide HashOf, WithoutAt;
  }

  lemma FreeEffect(s: State, u: Tid, s': State, f: Ref)
    requires u in s.pcs && s.pcs[u] == ReleFree(f) && s' == Go(s, u, Idle).(heap := s.heap - {f}, refs := s.refs - {f})
    ensures Effect(s, u, s') && s'.chains == s.chains
  {
  }

  lemma AllocatesEffect(s: State, u: Tid, id: int, s': State)
    requires Stands(s) && u in s.pcs && s.nextRef !in s.heap && Allocates(s, u, id, s')
    ensures Effect(s, u, s') && s'.chains == s.chains
  {
  }

  lemma GivesEffect(s: State, u: Tid, f: Ref, v: Tid, s': State)
    requires Stands(s) && u in s.pcs && Gives(s, u, f, v, s')
    ensures Effect(s, u, s') && s'.chains == s.chains
  {
    assert MoreBut(s.refs[f], s'.refs[f], u);
  }

  lemma CallEffect(s: State, u: Tid, s': State)
    requires Stands(s) && u in s.pcs && s.nextRef !in s.heap && Call(s, u, s')
    ensures Effect(s, u, s') && s'.chains == s.chains
  {
    hide Effect, Allocates, Gives;
    if id :| Allocates(s, u, id, s') {
      AllocatesEffect(s, u, id, s');
    } else if f, v :| Gives(s, u, f, v, s') {
      GivesEffect(s, u, f, v, s');
    } else {
      MoveEffect(s, u, s');
    }
  }

  /** Without hashlock a thread leaves the chains alone. */
  lemma StepEffect(s: State, u: Tid, s': State)
    requires Stands(s) && u in s.pcs && Touches(s.pcs[u]) <= s.heap.Keys && Step(s, u, s.pcs[u], s')
    requires s.nextRef !in s.heap
    ensures Effect(s, u, s') && (!HoldsHash(s.pcs[u]) ==> s'.chains == s.chains)
  {
    KindOfStep(s, u, s');
    hide Step, Effect, Touches, Moves, Tweaks, Relinks, Call, HoldsHash, HasF;
    var pc := s.pcs[u];
    LinkersHold(pc);
    if pc.Idle? {
      CallEffect(s, u, s');
    } else if pc.ReleFree? {
      FreeEffect(s, u, s', pc.f);
    } else if Moves(s, u, s') {
      MoveEffect(s, u, s');
      MovedChains(s, u, s');
    } else if pc.AllocLink? || pc.ReleHead? || pc.ReleSearch? {
      RelinkEffect(s, u, s');
    } else {
      TweakEffect(s, u, s', pc.f);
      TweakedChains(s, u, s', pc.f);
    }
  }

  lemma LinkersHold(pc: Pc)
    ensures pc.AllocLink? || pc.ReleHead? || pc.ReleSearch? ==> HoldsHash(pc)
  {
  }

  lemma MovedChains(s: State, u: Tid, s': State)
    requires Moves(s, u, s')
    ensures s'.chains == s.chains
  {
  }

  lemma TweakedChains(s: State, u: Tid, s': State, f: Ref)
    requires Tweaks(s, u, s', f)
    ensures s'.chains == s.chains
  {
  }

  lemma KindOfStep(s: State, u: Tid, s': State)
    requires Stands(s) && u in s.pcs && Touches(s.pcs[u]) <= s.heap.Keys && Step(s, u, s.pcs[u], s')
    ensures var pc := s.pcs[u];
      || (pc.Idle? && Call(s, u, s'))
      || (pc.ReleFree? && s' == Go(s, u, Idle).(heap := s.heap - {pc.f}, refs := s.refs - {pc.f}))
      || Moves(s, u, s')
      || ((pc.AllocLink? || pc.ReleHead? || pc.ReleSearch?) && Relinks(s, u, s'))
      || (HasF(pc) && !(pc.AllocLink? || pc.ReleHead? || pc.ReleSearch? || pc.ReleFree?) && Tweaks(s, u, s', pc.f))
  {
    hide AllocStep, HoldStep, FindStep, DropStep, UnlinkStep, Call, Moves, Tweaks, Relinks, Touches;
    if AllocPc(s.pcs[u]) {
      AllocKind(s, u, s');
    } else if HoldPc(s.pcs[u]) {
      HoldKind(s, u, s');
    } else if FindPc(s.pcs[u]) {
      FindKind(s, u, s');
      FindTweak(s, u, s');
    } else if DropPc(s.pcs[u]) {
      DropKind(s, u, s');
      DropTweak(s, u, s');
      DecTweak(s, u, s');
    } else if UnlinkPc(s.pcs[u]) {
      UnlinkKind(s, u, s');
      UnlinkRelinks(s, u, s');
    }
  }

  // ---- the invariant -----------------------------------------------------------------------------

  lemma MadeStep(s: State, u: Tid, s': State)
    requires MadeOk(s) && Effect(s, u, s') && s.nextRef !in s.heap
    ensures MadeOk(s')
  {
  }

  /** What is chained exists, under a reference handed out before. */
  lemma ChainedOld(s: State, h: nat, k: nat)
    requires Inv(s) && h < |s.chains| && k < |s.chains[h]|
    ensures s.chains[h][k] in s.heap && s.chains[h][k] != s.nextRef && h < NHASH
    ensures HashOf(s.heap[s.chains[h][k]].id) == h
  {
    hide ThreadOk, ObjOk, ChainOk, HashOf;
    NewRef(s);
    LinkHere(s, h, k);
  }

  lemma LinkHere(s: State, h: nat, k: nat)
    requires Inv(s) && h < |s.chains| && k < |s.chains[h]|
    ensures LinkOk(s, h, k) && h < NHASH
  {
    hide ThreadOk, ObjOk, HashOf, LinkOk;
    assert ChainOk(s, h);
  }

  lemma SameIdsAfter(s: State, u: Tid, s': State)
    requires Inv(s) && Effect(s, u, s') && s'.chains == s.chains
    ensures SameIds(s, s')
  {
    hide Inv, HasId, HashOf;
    forall h, k, id | 0 <= h < |s.chains| && 0 <= k < |s.chains[h]|
      ensures HasId(s', s.chains[h][k], id) <==> HasId(s, s.chains[h][k], id)
    {
      ChainedOld(s, h, k);
    }
  }

  /** A thread past the lock of foo_find has hashlock. */
  predicate Looking(pc: Pc) {
    pc.FindWalk? || pc.FindLockObj? || pc.FindInc? || pc.FindUnlockObj? || pc.FindUnlockHash?
  }

  lemma NotLooking(s: State, t: Tid)
    requires t in s.pcs && !Looking(s.pcs[t])
    ensures FindOk(s, t)
  {
  }

  lemma OnlyOneHash(s: State, t: Tid, u: Tid)
    requires ThreadOk(s, t) && ThreadOk(s, u) && t != u && Looking(s.pcs[t])
    ensures !HoldsHash(s.pcs[u])
  {
    hide ObjPart, WalkPart, Touches;
  }

  lemma FreerAlone(s: State, u: Tid)
    requires ThreadOk(s, u) && s.pcs[u].ReleFree?
    ensures s.pcs[u].f in s.refs && s.refs[s.pcs[u].f] == multiset{u}
  {
    hide HashOf, WalkPart, Touches;
  }

  /** What one thread has found stays found while another one steps. */
  lemma OthersFind(s: State, u: Tid, s': State, t: Tid)
    requires Inv(s) && Effect(s, u, s') && (!HoldsHash(s.pcs[u]) ==> s'.chains == s.chains)
    requires t in s.pcs && t != u && FindOk(s, t)
    ensures FindOk(s', t)
  {
    hide Inv, FindOk, ThreadOk, HoldsHash, SameIds, HasId;
    if Looking(s.pcs[t]) {
      Threads(s, t);
      Threads(s, u);
      OnlyOneHash(s, t, u);
      SameIdsAfter(s, u, s');
      if s.pcs[u].ReleFree? {
        FreerAlone(s, u);
      }
      FindSame(s, s', t);
    } else {
      NotLooking(s', t);
    }
  }

  // ---- the thread's own step ------------------------------------------------------------------------

  lemma MadeIs(s: State, f: Ref)
    requires MadeOk(s) && f in s.heap
    ensures forall id :: HasId(s, f, id) <==> s.heap[f].id == id
  {
  }

  lemma WalkFacts(s: State, t: Tid)
    requires ThreadOk(s, t) && s.pcs[t].FindWalk?
    ensures var id, k := s.pcs[t].id, s.pcs[t].k;
      && |s.chains| == NHASH && k <= |s.chains[HashOf(id)]| && s.pcs[t].cur == At(s.chains[HashOf(id)], k)
  {
    hide HashOf, ObjPart, Touches, HoldsHash;
  }

  /** The walk has come to the end of the chain: no chain has an object with the id. */
  lemma EndOfChain(s: State, id: int)
    requires Inv(s) && MadeOk(s) && |s.chains| == NHASH && NotAmong(s, HashOf(id), |s.chains[HashOf(id)]|, id)
    ensures Nowhere(s, id)
  {
    hide Inv, HashOf, HasId, MadeOk;
    forall h | 0 <= h < NHASH ensures NotOn(s, h, id) {
      forall j | 0 <= j < |s.chains[h]| ensures !HasId(s, s.chains[h][j], id) {
        ChainedOld(s, h, j);
        MadeIs(s, s.chains[h][j]);
      }
    }
  }

  lemma WalkStep(s: State, t: Tid, s': State)
    requires Inv(s) && MadeOk(s) && ThreadOk(s, t) && t in s.pcs && s.pcs[t].FindWalk? && FindOk(s, t)
    requires Stands(s) && Touches(s.pcs[t]) <= s.heap.Keys && FindStep(s, t, s.pcs[t], s')
    ensures FindOk(s', t)
  {
    hide Inv, HashOf, ThreadOk, HasId, MadeOk, Touches;
    var id, k := s.pcs[t].id, s.pcs[t].k;
    WalkFacts(s, t);
    var c := s.chains[HashOf(id)];
    if k < |c| {
      ChainedOld(s, HashOf(id), k);
      MadeIs(s, c[k]);
      if s.heap[c[k]].id == id {
        assert FirstAt(s', c[k], id, k) by {
          SameTable(s, s', c[k], id);
          NotAmongMoved(s, s', HashOf(id), k, id);
        }
      } else {
        NotAmongMoved(s, s', HashOf(id), k, id);
        SameTable(s, s', c[k], id);
      }
    } else {
      EndOfChain(s, id);
      NowhereMoved(s, s', id);
    }
  }

  lemma SameTable(s: State, s': State, f: Ref, id: int)
    requires s'.made == s.made
    ensures HasId(s', f, id) <==> HasId(s, f, id)
  {
  }

  lemma NotAmongMoved(s: State, s': State, h: nat, k: nat, id: int)
    requires NotAmong(s, h, k, id) && s'.made == s.made && s'.chains == s.chains
    ensures NotAmong(s', h, k, id)
  {
  }

  lemma NowhereMoved(s: State, s': State, id: int)
    requires Nowhere(s, id) && s'.made == s.made && s'.chains == s.chains
    ensures Nowhere(s', id)
  {
    hide NotAmong;
    forall h | 0 <= h < NHASH ensures NotOn(s', h, id) {
      NowhereAt(s, id, h);
      NotAmongMoved(s, s', h, |s.chains[h]|, id);
    }
  }

  lemma FirstMoved(s: State, s': State, f: Ref, id: int)
    requires First(s, f, id) && s'.made == s.made && s'.chains == s.chains
    ensures First(s', f, id)
  {
    var k :| FirstAt(s, f, id, k);
    NotAmongMoved(s, s', HashOf(id), k, id);
    assert FirstAt(s', f, id, k);
  }

  lemma FinderOwns(s: State, t: Tid)
    requires ThreadOk(s, t) && s.pcs[t].FindUnlockObj?
    ensures s.pcs[t].f in s.refs && t in s.refs[s.pcs[t].f]
  {
    hide HashOf, WalkPart, Touches, HoldsHash;
  }

  lemma FoundStep(s: State, t: Tid, s': State)
    requires ThreadOk(s, t) && t in s.pcs && FindOk(s, t)
    requires s.pcs[t].FindLockObj? || s.pcs[t].FindInc? || s.pcs[t].FindUnlockObj?
    requires Stands(s) && Touches(s.pcs[t]) <= s.heap.Keys && FindStep(s, t, s.pcs[t], s')
    ensures FindOk(s', t)
  {
    hide HashOf, ThreadOk, HasId, Touches, First, Nowhere;
    FirstMoved(s, s', s.pcs[t].f, s.pcs[t].id);
    if s.pcs[t].FindUnlockObj? {
      FinderOwns(s, t);
    }
  }

  lemma OtherPcs(s: State, t: Tid, s': State)
    requires Stands(s) && t in s.pcs && Touches(s.pcs[t]) <= s.heap.Keys && Step(s, t, s.pcs[t], s') && FindPc(s.pcs[t])
    ensures t in s'.pcs
    ensures s.pcs[t].FindLock? ==> s'.pcs[t] == FindWalk(s.pcs[t].id, s.heads[HashOf(s.pcs[t].id)], 0)
    ensures s.pcs[t].FindUnlockHash? ==> s'.pcs[t] == Idle
    ensures FindStep(s, t, s.pcs[t], s')
  {
    hide HashOf;
  }

  /** The thread that steps. */
  lemma OwnFind(s: State, t: Tid, s': State)
    requires Inv(s) && MadeOk(s) && ThreadOk(s, t) && t in s.pcs && FindOk(s, t)
    requires Stands(s) && Touches(s.pcs[t]) <= s.heap.Keys && Step(s, t, s.pcs[t], s')
    ensures FindOk(s', t)
  {
    hide Inv, MadeOk, ThreadOk, FindOk, Step, FindStep, Touches, HashOf;
    var pc := s.pcs[t];
    if FindPc(pc) {
      OtherPcs(s, t, s');
      if pc.FindWalk? {
        WalkStep(s, t, s');
      } else if pc.FindLock? {
        Begun(s, s', t);
      } else if pc.FindUnlockHash? {
        NotLooking(s', t);
      } else {
        FoundStep(s, t, s');
      }
    } else {
      StaysOut(s, t, s');
      if t in s'.pcs {
        NotLooking(s', t);
      } else {
        Gone(s', t);
      }
    }
  }

  lemma Gone(s: State, t: Tid)
    requires t !in s.pcs
    ensures FindOk(s, t)
  {
  }

  lemma Begun(s: State, s': State, t: Tid)
    requires Inv(s) && Stands(s) && t in s.pcs && s.pcs[t].FindLock? && FindStep(s, t, s.pcs[t], s')
    ensures FindOk(s', t)
  {
    hide Inv;
  }

  lemma StaysOut(s: State, t: Tid, s': State)
    requires Stands(s) && t in s.pcs && Touches(s.pcs[t]) <= s.heap.Keys && Step(s, t, s.pcs[t], s')
    requires !FindPc(s.pcs[t])
    ensures t in s'.pcs ==> !Looking(s'.pcs[t])
  {
    hide AllocStep, HoldStep, FindStep, DropStep, UnlinkStep, Call, Touches;
    var pc := s.pcs[t];
    if DropPc(pc) {
      StaysDropping(s, t, s');
    } else if UnlinkPc(pc) {
      StaysUnlinking(s, t, s');
    } else if AllocPc(pc) {
      StaysAllocating(s, t, s');
    } else if HoldPc(pc) {
      StaysHolding(s, t, s');
    } else {
      StaysCalling(s, t, s');
    }
  }

  lemma StaysDropping(s: State, t: Tid, s': State)
    requires Stands(s) && t in s.pcs && Touches(s.pcs[t]) <= s.heap.Keys && DropStep(s, t, s.pcs[t], s')
    ensures t in s'.pcs ==> !Looking(s'.pcs[t])
  {
  }

  lemma StaysUnlinking(s: State, t: Tid, s': State)
    requires Stands(s) && t in s.pcs && Touches(s.pcs[t]) <= s.heap.Keys && UnlinkStep(s, t, s.pcs[t], s')
    ensures t in s'.pcs ==> !Looking(s'.pcs[t])
  {
    hide HashOf, WithoutAt, Touches;
    if s.pcs[t].ReleHead? {
      assert s'.pcs[t].ReleUnhash? || s'.pcs[t].ReleSearch?;
    }
  }

  lemma StaysAllocating(s: State, t: Tid, s': State)
    requires Stands(s) && t in s.pcs && Touches(s.pcs[t]) <= s.heap.Keys && AllocStep(s, t, s.pcs[t], s')
    ensures t in s'.pcs ==> !Looking(s'.pcs[t])
  {
    hide HashOf;
  }

  lemma StaysHolding(s: State, t: Tid, s': State)
    requires Stands(s) && t in s.pcs && Touches(s.pcs[t]) <= s.heap.Keys && HoldStep(s, t, s.pcs[t], s')
    ensures t in s'.pcs ==> !Looking(s'.pcs[t])
  {
  }

  lemma StaysCalling(s: State, t: Tid, s': State)
    requires Stands(s) && t in s.pcs && s.pcs[t].Idle? && Call(s, t, s')
    ensures t in s'.pcs ==> !Looking(s'.pcs[t])
  {
    hide Allocates, Gives;
    if id :| Allocates(s, t, id, s') {
      StaysMaking(s, t, id, s');
    } else if f, v :| Gives(s, t, f, v, s') {
      StaysGiving(s, t, f, v, s');
    }
  }

  lemma StaysMaking(s: State, t: Tid, id: int, s': State)
    requires Allocates(s, t, id, s')
    ensures t in s'.pcs ==> !Looking(s'.pcs[t])
  {
  }

  lemma StaysGiving(s: State, t: Tid, f: Ref, v: Tid, s': State)
    requires Gives(s, t, f, v, s') && t in s.pcs && s.pcs[t].Idle?
    ensures t in s'.pcs ==> !Looking(s'.pcs[t])
  {
  }

  ghost predicate AllFind(s: State) {
    MadeOk(s) && forall t {:trigger FindOk(s, t)} | t in s.pcs :: FindOk(s, t)
  }

  lemma FindsKept(s: State, u: Tid, s': State)
    requires Inv(s) && AllFind(s) && u in s.pcs && Stands(s) && Touches(s.pcs[u]) <= s.heap.Keys
    requires Step(s, u, s.pcs[u], s') && s'.pcs.Keys == s.pcs.Keys
    ensures AllFind(s')
  {
    hide Inv, MadeOk, FindOk, Step, Touches, Effect, HoldsHash, ThreadOk;
    NewRef(s);
    StepEffect(s, u, s');
    MadeStep(s, u, s');
    forall t | t in s'.pcs ensures FindOk(s', t) {
      if t == u {
        Threads(s, u);
        OwnFind(s, u, s');
      } else {
        OthersFind(s, u, s', t);
      }
    }
  }

  lemma SameThreads(s: State, u: Tid, s': State)
    requires Stands(s) && u in s.pcs && Touches(s.pcs[u]) <= s.heap.Keys && Step(s, u, s.pcs[u], s')
    ensures s'.pcs.Keys == s.pcs.Keys
  {
    KindOfStep(s, u, s');
    hide Step, Touches;
  }

  /** In every run. */
  lemma {:induction false} RunFinds(run: seq<State>, i: nat)
    requires Run(run) && i < |run|
    ensures AllFind(run[i])
  {
    hide Inv, FindOk, Step, MadeOk, Touches;
    if i == 0 {
      NothingMade(run[0]);
    } else {
      RunFinds(run, i - 1);
      RunInv(run, i - 1);
      var s, s' := run[i - 1], run[i - 1 + 1];
      assert Next(s, s');
      var t :| t in s.pcs && Touches(s.pcs[t]) <= s.heap.Keys && Step(s, t, s.pcs[t], s');
      SameThreads(s, t, s');
      FindsKept(s, t, s');
    }
  }

  lemma NothingMade(s: State)
    requires Initial(s)
    ensures AllFind(s)
  {
    forall t | t in s.pcs ensures FindOk(s, t) {
      assert s.pcs[t] == Idle;
    }
  }

  // ---- what foo_find returns ----------------------------------------------------------------------------

  /**
    Whenever foo_find is about to return: an object it returns was made by foo_alloc with the id
    asked for, comes first on its chain among those, exists and is referenced by the caller; when
    it returns none, no object on any chain was made with that id, and whoever holds one that was
    is about to link it or is taking it apart.
   */
  lemma FindReturns(run: seq<State>, i: nat, t: Tid)
    requires Run(run) && i < |run| && t in run[i].pcs && run[i].pcs[t].FindUnlockHash?
    ensures var s, id := run[i], run[i].pcs[t].id;
      match s.pcs[t].found
      case Some(f) =>
        && f in s.made && s.made[f] == id && f in s.heap && s.heap[f].id == id && f in s.refs && t in s.refs[f]
        && exists h, k :: 0 <= h < |s.chains| && 0 <= k < |s.chains[h]| && s.chains[h][k] == f &&
             forall j | 0 <= j < k :: s.chains[h][j] in s.heap && s.heap[s.chains[h][j]].id != id
      case None =>
        && (forall h, k | 0 <= h < |s.chains| && 0 <= k < |s.chains[h]| ::
              s.chains[h][k] in s.heap && s.heap[s.chains[h][k]].id != id)
        && forall f, u | f in s.heap && s.heap[f].id == id && f in s.refs && u in s.refs[f] ::
             u in s.pcs && Private(s.pcs[u])
  {
    RunInv(run, i);
    RunFinds(run, i);
    var s, id := run[i], run[i].pcs[t].id;
    assert FindOk(s, t);
    hide Run, Inv, MadeOk, HashOf, ThreadOk, ObjOk, NotAmong, HasId, Private;
    match s.pcs[t].found
    case Some(f) =>
      var k :| FirstAt(s, f, id, k);
      FirstSeen(s, f, id, k);
    case None =>
      forall h, k | 0 <= h < |s.chains| && 0 <= k < |s.chains[h]|
        ensures s.chains[h][k] in s.heap && s.heap[s.chains[h][k]].id != id
      {
        ChainedOld(s, h, k);
        NowhereAt(s, id, h);
        Unlike(s, h, |s.chains[h]|, k, id);
      }
      forall f, u | f in s.heap && s.heap[f].id == id && f in s.refs && u in s.refs[f]
        ensures u in s.pcs && Private(s.pcs[u])
      {
        NowhereAt(s, id, HashOf(id));
        HoldersPrivate(s, f, id, u);
      }
  }

  /** Among the first k of the chain the j-th has another id. */
  lemma Unlike(s: State, h: nat, k: nat, j: nat, id: int)
    requires Inv(s) && MadeOk(s) && NotAmong(s, h, k, id) && j < k
    ensures s.chains[h][j] in s.heap && s.heap[s.chains[h][j]].id != id
  {
    hide Inv, HashOf, MadeOk;
    ChainedOld(s, h, j);
    MadeIs(s, s.chains[h][j]);
  }

  lemma FirstSeen(s: State, f: Ref, id: int, k: nat)
    requires Inv(s) && MadeOk(s) && FirstAt(s, f, id, k)
    ensures var h := HashOf(id);
      && f in s.made && s.made[f] == id && f in s.heap && s.heap[f].id == id
      && h < |s.chains| && k < |s.chains[h]| && s.chains[h][k] == f
      && forall j | 0 <= j < k :: s.chains[h][j] in s.heap && s.heap[s.chains[h][j]].id != id
  {
    hide Inv, HashOf, MadeOk, NotAmong;
    var h := HashOf(id);
    ChainedOld(s, h, k);
    MadeIs(s, f);
    forall j | 0 <= j < k ensures s.chains[h][j] in s.heap && s.heap[s.chains[h][j]].id != id {
      ShorterThan(s, h, k, id);
      Unlike(s, h, k, j, id);
    }
  }

  lemma ShorterThan(s: State, h: nat, k: nat, id: int)
    requires NotAmong(s, h, k, id)
    ensures h < |s.chains| && k <= |s.chains[h]|
  {
  }

  lemma HoldersPrivate(s: State, f: Ref, id: int, u: Tid)
    requires Inv(s) && MadeOk(s) && f in s.heap && s.heap[f].id == id && f in s.refs && u in s.refs[f]
    requires HashOf(id) < |s.chains| && NotAmong(s, HashOf(id), |s.chains[HashOf(id)]|, id)
    ensures u in s.pcs && Private(s.pcs[u])
  {
    hide Inv, HashOf, ThreadOk, MadeOk, Private;
    Objects(s, f);
    MadeIs(s, f);
    NotIn(s, HashOf(id), f, id);
  }

  lemma NotIn(s: State, h: nat, f: Ref, id: int)
    requires h < |s.chains| && NotAmong(s, h, |s.chains[h]|, id) && HasId(s, f, id)
    ensures f !in s.chains[h]
  {
  }

  /** The id a call of foo_find is about. */
  lemma {:induction false} FindKeepsId(run: seq<State>, i: nat, j: nat, t: Tid)
    requires Run(run) && i <= j < |run| && t in run[i].pcs && FindPc(run[i].pcs[t])
    requires forall k | i <= k <= j :: t in run[k].pcs && !run[k].pcs[t].Idle?
    ensures FindPc(run[j].pcs[t]) && run[j].pcs[t].id == run[i].pcs[t].id
  {
    hide Run, Step, Touches;
    if i < j {
      FindKeepsId(run, i, j - 1, t);
      var u := Stepper(run, j - 1);
      RunInv(run, j - 1);
      StandsHere(run[j - 1]);
      if u == t {
        FindStaysOn(run[j - 1], t, run[j]);
      } else {
        NewRef(run[j - 1]);
        StepEffect(run[j - 1], u, run[j]);
        hide Inv;
      }
    }
  }

  lemma Stepper(run: seq<State>, i: nat) returns (u: Tid)
    requires Run(run) && i + 1 < |run|
    ensures u in run[i].pcs && Stands(run[i]) && Touches(run[i].pcs[u]) <= run[i].heap.Keys
    ensures Step(run[i], u, run[i].pcs[u], run[i + 1])
  {
    hide Step, Touches;
    var s, s' := run[i], run[i + 1];
    assert Next(s, s');
    u :| u in s.pcs && Touches(s.pcs[u]) <= s.heap.Keys && Step(s, u, s.pcs[u], s');
  }

  lemma StandsHere(s: State)
    requires Inv(s)
    ensures Stands(s)
  {
    hide ThreadOk, ObjOk, ChainOk;
  }

  lemma FindStaysOn(s: State, t: Tid, s': State)
    requires Stands(s) && t in s.pcs && Touches(s.pcs[t]) <= s.heap.Keys && Step(s, t, s.pcs[t], s')
    requires FindPc(s.pcs[t]) && t in s'.pcs && !s'.pcs[t].Idle?
    ensures FindPc(s'.pcs[t]) && s'.pcs[t].id == s.pcs[t].id
  {
    hide HashOf;
  }
}
