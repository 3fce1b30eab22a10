/** Every step of foo_alloc, foo_hold, foo_find and foo_rele keeps the invariant of the object table. */
module RefTableSteps {
  import opened Common
  import opened RefTable
  import opened RefTableUpdates

  ghost predicate Steps(s: State, t: Tid, s': State) {
    && Inv(s) && t in s.pcs && ThreadOk(s, t)
    && Step(s, t, s.pcs[t], s')
  }

  /** The thread stays with its object, of which nothing changes. */
  predicate SameWork(pc: Pc, pc': Pc) {
    HasF(pc') ==>
      && HasF(pc) && pc'.f == pc.f && (HoldsObj(pc') <==> HoldsObj(pc)) && (Owns(pc') ==> Owns(pc))
      && (Private(pc') <==> Private(pc)) && (pc'.ReleFree? ==> pc.ReleFree?) && Plain(pc')
  }

  /** Program points of which nothing more is known than of their object in general. */
  predicate Plain(pc: Pc) {
    !(pc.ReleHead? || pc.ReleSearch? || pc.ReleDec? || pc.ReleDec2? || pc.FindWalk?)
  }

  lemma SameWorkPart(s: State, t: Tid, pc: Pc, pc': Pc)
    requires ObjPart(s, t, pc) && SameWork(pc, pc')
    ensures ObjPart(s, t, pc')
  {
    hide HashOf;
  }

  lemma MoveSelf(s: State, t: Tid, pc': Pc, hash': Option<Tid>, s': State)
    requires ThreadOk(s, t) && s' == Go(s, t, pc').(hash := hash') && (HoldsHash(pc') <==> hash' == Some(t))
    requires ObjPart(s, t, pc') && WalkPart(s, pc') && Touches(pc') <= s.heap.Keys
    ensures ThreadOk(s', t)
  {
    hide HashOf, HoldsObj, HoldsHash, Owns, Private, HasF;
  }

  lemma PlainMove(s: State, t: Tid, pc': Pc, hash': Option<Tid>, s': State)
    requires ThreadOk(s, t) && s' == Go(s, t, pc').(hash := hash') && (HoldsHash(pc') <==> hash' == Some(t))
    requires SameWork(s.pcs[t], pc') && Plain(pc')
    ensures ThreadOk(s', t)
  {
    hide HashOf, HoldsHash, ObjPart;
    SameWorkPart(s, t, s.pcs[t], pc');
    MoveSelf(s, t, pc', hash', s');
  }

  /** What a step that takes or gives back hashlock does. */
  predicate HashMove(s: State, t: Tid, s': State) {
    && t in s.pcs && t in s'.pcs
    && var pc, pc' := s.pcs[t], s'.pcs[t];
       && s' == Go(s, t, pc').(hash := s'.hash)
       && SameWork(pc, pc') && SameHold(pc, pc') && Plain(pc')
       && if HoldsHash(pc) then s'.hash == None && !HoldsHash(pc')
          else s.hash == None && s'.hash == Some(t) && HoldsHash(pc')
  }

  lemma HashMoveInv(s: State, t: Tid, s': State)
    requires Inv(s) && ThreadOk(s, t) && HashMove(s, t, s')
    ensures Inv(s')
  {
    hide Inv, ThreadOk, SameWork, SameHold, Plain, HoldsHash;
    HashHeld(s, t);
    PlainMove(s, t, s'.pcs[t], s'.hash, s');
    MoveInv(s, t, s'.pcs[t], s'.hash, s');
  }

  lemma TestPart(s: State, t: Tid, f: Ref, pc': Pc)
    requires ObjOk(s, f) && t in s.pcs && HasF(s.pcs[t]) && s.pcs[t].f == f && ObjPart(s, t, s.pcs[t])
    requires s.pcs[t] == ReleTest(f) || s.pcs[t] == ReleRecheck(f)
    requires pc' == (if s.pcs[t].ReleTest? then if s.heap[f].count == 1 then ReleDrop(f) else ReleDec(f)
                     else if s.heap[f].count != 1 then ReleDec2(f) else ReleHead(f))
    ensures ObjPart(s, t, pc')
  {
    hide HashOf;
    if s.heap[f].count == 1 {
      SoleMember(s.refs[f], t);
    }
  }

  lemma Objects(s: State, f: Ref)
    requires Inv(s) && f in s.heap
    ensures ObjOk(s, f)
  {
    hide ThreadOk, ObjOk, ChainOk;
  }

  lemma Chains(s: State, h: nat)
    requires Inv(s) && h < NHASH
    ensures ChainOk(s, h)
  {
    hide ThreadOk, ObjOk, ChainOk;
  }

  lemma TestStepInv(s: State, t: Tid, s': State)
    requires Steps(s, t, s') && (s.pcs[t].ReleTest? || s.pcs[t].ReleRecheck?)
    ensures Inv(s')
  {
    hide Inv, ObjPart, ObjOk, ChainOk, HashOf, Call, AllocStep, HoldStep, FindStep, UnlinkStep;
    var f, pc' := s.pcs[t].f, s'.pcs[t];
    Objects(s, f);
    TestPart(s, t, f, pc');
    MoveSelf(s, t, pc', s.hash, s');
    MoveInv(s, t, pc', s.hash, s');
  }

  lemma NotLockedBy(s: State, t: Tid, f: Ref)
    requires ObjOk(s, f) && t in s.pcs && !HoldsObj(s.pcs[t])
    ensures s.heap[f].lock != Some(t)
  {
    hide HashOf, HoldsObj, Private;
  }

  /** The program point a walk of the chain of `id` reaches at its k-th link. */
  lemma WalkTo(s: State, id: int, k: nat)
    requires |s.chains| == NHASH && ChainOk(s, HashOf(id)) && k <= |s.chains[HashOf(id)]|
    ensures var c := s.chains[HashOf(id)]; var pc := FindWalk(id, At(c, k), k);
      WalkPart(s, pc) && ObjPart(s, 0, pc) && Touches(pc) <= s.heap.Keys
    ensures k == 0 ==> s.heads[HashOf(id)] == At(s.chains[HashOf(id)], k)
  {
    hide HashOf, Differ;
    assert k < |s.chains[HashOf(id)]| ==> LinkOk(s, HashOf(id), k);
  }

  lemma FoundPart(s: State, t: Tid, id: int, k: nat)
    requires |s.chains| == NHASH && t in s.pcs && s.pcs[t] == FindWalk(id, At(s.chains[HashOf(id)], k), k)
    requires ChainOk(s, HashOf(id)) && k < |s.chains[HashOf(id)]| && s.heap.Keys == s.refs.Keys
    requires var f := s.chains[HashOf(id)][k]; ObjOk(s, f)
    ensures var f := s.chains[HashOf(id)][k];
      && f in s.heap && s.heap[f].next == At(s.chains[HashOf(id)], k + 1)
      && ObjPart(s, t, FindLockObj(f, id)) && WalkPart(s, FindLockObj(f, id))
  {
    hide HashOf, Differ, ObjOk;
    var f := s.chains[HashOf(id)][k];
    assert LinkOk(s, HashOf(id), k);
    NotLockedBy(s, t, f);
  }

  lemma OnChain(s: State, h: nat, k: nat)
    requires ChainOk(s, h) && k < |s.chains[h]|
    ensures s.chains[h][k] in s.heap
  {
    hide HashOf, Differ;
    assert LinkOk(s, h, k);
  }

  lemma Walking(s: State, t: Tid)
    requires ThreadOk(s, t) && s.pcs[t].FindWalk?
    ensures var pc := s.pcs[t];
      && |s.chains| == NHASH && pc.k <= |s.chains[HashOf(pc.id)]| && pc.cur == At(s.chains[HashOf(pc.id)], pc.k)
      && s.heap.Keys == s.refs.Keys && s.hash == Some(t)
  {
    hide HashOf, ObjPart;
  }

  lemma NoWork(s: State, t: Tid, pc: Pc)
    requires !HasF(pc) && Plain(pc) && |s.chains| == NHASH
    ensures ObjPart(s, t, pc) && WalkPart(s, pc) && Touches(pc) == {}
  {
    hide HashOf;
  }

  lemma FindLockInv(s: State, t: Tid, s': State)
    requires Steps(s, t, s') && s.pcs[t].FindLock?
    ensures Inv(s')
  {
    hide Inv, ThreadOk, ObjPart, WalkPart, ObjOk, ChainOk, HashOf, Call,
      AllocStep, HoldStep, DropStep, UnlinkStep;
    var id := s.pcs[t].id;
    ChainCount(s);
    Chains(s, HashOf(id));
    WalkTo(s, id, 0);
    AnyThread(s, t, FindWalk(id, At(s.chains[HashOf(id)], 0), 0));
    MoveSelf(s, t, s'.pcs[t], Some(t), s');
    MoveInv(s, t, s'.pcs[t], Some(t), s');
  }

  lemma ChainCount(s: State)
    requires Inv(s)
    ensures |s.chains| == NHASH && |s.heads| == NHASH
  {
    hide ThreadOk, ObjOk, ChainOk;
  }

  lemma AnyThread(s: State, t: Tid, pc: Pc)
    requires !HasF(pc)
    ensures ObjPart(s, t, pc)
  {
  }

  lemma FindWalkInv(s: State, t: Tid, s': State)
    requires Steps(s, t, s') && s.pcs[t].FindWalk?
    ensures Inv(s')
  {
    hide Inv, ThreadOk, ObjPart, WalkPart, ObjOk, ChainOk, HashOf, Call,
      AllocStep, HoldStep, DropStep, UnlinkStep;
    var id, k, pc' := s.pcs[t].id, s.pcs[t].k, s'.pcs[t];
    Walking(s, t);
    var c := s.chains[HashOf(id)];
    Chains(s, HashOf(id));
    if k == |c| {
      NoWork(s, t, pc');
    } else {
      OnChain(s, HashOf(id), k);
      Objects(s, c[k]);
      FoundPart(s, t, id, k);
      WalkTo(s, id, k + 1);
      AnyThread(s, t, FindWalk(id, At(c, k + 1), k + 1));
    }
    MoveSelf(s, t, pc', s.hash, s');
    MoveInv(s, t, pc', s.hash, s');
  }

  lemma LockSelf(s: State, t: Tid, f: Ref, l: Option<Tid>, pc': Pc, s': State)
    requires ThreadOk(s, t) && HasF(s.pcs[t]) && s.pcs[t].f == f && f in s.heap && s' == SetLock(Go(s, t, pc'), f, l)
    requires (HoldsHash(pc') <==> HoldsHash(s.pcs[t])) && Plain(pc')
    requires HasF(pc') ==>
      && pc'.f == f && (HoldsObj(pc') <==> l == Some(t)) && (Owns(pc') ==> Owns(s.pcs[t]))
      && (Private(pc') <==> Private(s.pcs[t])) && (pc'.ReleFree? ==> l == None)
    ensures ThreadOk(s', t)
  {
    hide HashOf, HoldsHash, Owns, HoldsObj;
  }

  /** What a step on an object's mutex does. */
  predicate Locks(s: State, t: Tid, l: Option<Tid>, s': State) {
    && t in s.pcs && t in s'.pcs && HasF(s.pcs[t]) && s.pcs[t].f in s.heap
    && var pc, pc', f := s.pcs[t], s'.pcs[t], s.pcs[t].f;
       && s' == SetLock(Go(s, t, pc'), f, l) && LockPcs(t, pc, pc', l) && (l != None ==> s.heap[f].lock == None)
  }

  /** Program points around such a step. */
  predicate LockPcs(t: Tid, pc: Pc, pc': Pc, l: Option<Tid>) {
    && HasF(pc) && (HoldsHash(pc') <==> HoldsHash(pc)) && Plain(pc')
    && (HasF(pc') ==>
          && pc'.f == pc.f && (HoldsObj(pc') <==> l == Some(t)) && (Owns(pc') ==> Owns(pc))
          && (Private(pc') <==> Private(pc)) && (pc'.ReleFree? ==> l == None))
    && (Private(pc) ==> HasF(pc'))
    && if l == None then HoldsObj(pc) else l == Some(t) && HasF(pc')
  }

  lemma TakePcs(t: Tid, f: Ref)
    ensures LockPcs(t, ReleLock(f), ReleTest(f), Some(t)) && LockPcs(t, ReleRelock(f), ReleRecheck(f), Some(t))
  {
  }

  lemma GivePcs(t: Tid, f: Ref)
    ensures LockPcs(t, ReleUnlock(f), Idle, None) && LockPcs(t, ReleDrop(f), ReleLockHash(f), None)
  {
  }

  lemma LastPcs(t: Tid, f: Ref)
    ensures LockPcs(t, ReleUnlockObj2(f), ReleUnlockHash2, None) && LockPcs(t, ReleUnobj(f), ReleFree(f), None)
  {
  }

  lemma DropsStep(s: State, t: Tid, s': State)
    requires Steps(s, t, s')
    requires var pc := s.pcs[t];
      || pc.ReleLock? || pc.ReleRelock? || pc.ReleUnlock? || pc.ReleDrop? || pc.ReleUnlockObj2? || pc.ReleLockHash?
      || pc.ReleUnlockHash2?
    ensures Touches(s.pcs[t]) <= s.heap.Keys && |s.heads| == NHASH && |s.chains| == NHASH && s.heap.Keys == s.refs.Keys
    ensures DropStep(s, t, s.pcs[t], s') && (HasF(s.pcs[t]) ==> s.pcs[t].f in s.heap)
  {
    hide ObjPart, WalkPart, ObjOk, ChainOk, HashOf, DropStep, AllocStep, HoldStep, FindStep, UnlinkStep, Call;
  }

  lemma LocksInv(s: State, t: Tid, l: Option<Tid>, s': State)
    requires Inv(s) && ThreadOk(s, t) && Locks(s, t, l, s')
    ensures Inv(s')
  {
    hide Inv, ThreadOk, Plain, HoldsHash, Owns, HashOf;
    HeldObj(s, t);
    LockSelf(s, t, s.pcs[t].f, l, s'.pcs[t], s');
    LockInv(s, t, s.pcs[t].f, l, s'.pcs[t], s');
  }

  lemma AllocHash(s: State, t: Tid, s': State)
    requires Steps(s, t, s')
    ensures s.pcs[t].AllocLock? || s.pcs[t].AllocUnlockHash? ==> HashMove(s, t, s')
  {
    hide Inv, ThreadOk, ObjPart, WalkPart, ObjOk, ChainOk, HashOf, Call,
      HoldStep, FindStep, DropStep, UnlinkStep;
    if HasF(s.pcs[t]) {
      HeldObj(s, t);
    }
  }

  lemma AllocLocks(s: State, t: Tid, s': State)
    requires Steps(s, t, s')
    ensures s.pcs[t].AllocLockObj? ==> Locks(s, t, Some(t), s')
    ensures s.pcs[t].AllocUnlockObj? ==> Locks(s, t, None, s')
  {
    hide Inv, ThreadOk, ObjPart, WalkPart, ObjOk, ChainOk, HashOf, Call,
      HoldStep, FindStep, DropStep, UnlinkStep;
    if HasF(s.pcs[t]) {
      HeldObj(s, t);
    }
  }

  lemma HoldEffect(s: State, t: Tid, s': State)
    requires Steps(s, t, s')
    ensures s.pcs[t].HoldLock? ==> Locks(s, t, Some(t), s')
    ensures s.pcs[t].HoldUnlock? ==> Locks(s, t, None, s')
  {
    hide Inv, ThreadOk, ObjPart, WalkPart, ObjOk, ChainOk, HashOf, Call, AllocStep, FindStep, DropStep, UnlinkStep;
    if HasF(s.pcs[t]) {
      HeldObj(s, t);
    }
  }

  lemma FindHash(s: State, t: Tid, s': State)
    requires Steps(s, t, s')
    ensures s.pcs[t].FindUnlockHash? ==> HashMove(s, t, s')
  {
    hide Inv, ThreadOk, ObjPart, WalkPart, ObjOk, ChainOk, HashOf, Call,
      AllocStep, HoldStep, DropStep, UnlinkStep;
    if HasF(s.pcs[t]) {
      HeldObj(s, t);
    }
  }

  lemma FindLocks(s: State, t: Tid, s': State)
    requires Steps(s, t, s')
    ensures s.pcs[t].FindLockObj? ==> Locks(s, t, Some(t), s')
    ensures s.pcs[t].FindUnlockObj? ==> Locks(s, t, None, s')
  {
    hide Inv, ThreadOk, ObjPart, WalkPart, ObjOk, ChainOk, HashOf, Call,
      AllocStep, HoldStep, DropStep, UnlinkStep;
    if HasF(s.pcs[t]) {
      HeldObj(s, t);
    }
  }

  lemma DropHash(s: State, t: Tid, s': State)
    requires Steps(s, t, s')
    ensures s.pcs[t].ReleLockHash? || s.pcs[t].ReleUnlockHash2? ==> HashMove(s, t, s')
  {
    hide Inv, ThreadOk, Step, Touches;
    if s.pcs[t].ReleLockHash? || s.pcs[t].ReleUnlockHash2? {
      DropsStep(s, t, s');
    }
  }

  lemma DropLock(s: State, t: Tid, s': State)
    requires Steps(s, t, s')
    ensures s.pcs[t].ReleLock? || s.pcs[t].ReleRelock? ==> Locks(s, t, Some(t), s')
  {
    hide Inv, ThreadOk, Step, Touches, LockPcs;
    if s.pcs[t].ReleLock? || s.pcs[t].ReleRelock? {
      DropsStep(s, t, s');
      TakePcs(t, s.pcs[t].f);
    }
  }

  lemma DropUnlock(s: State, t: Tid, s': State)
    requires Steps(s, t, s')
    ensures s.pcs[t].ReleUnlock? || s.pcs[t].ReleDrop? || s.pcs[t].ReleUnlockObj2? ==> Locks(s, t, None, s')
  {
    hide Inv, ThreadOk, Step, Touches, LockPcs;
    if s.pcs[t].ReleUnlock? || s.pcs[t].ReleDrop? || s.pcs[t].ReleUnlockObj2? {
      DropsStep(s, t, s');
      GivePcs(t, s.pcs[t].f);
      LastPcs(t, s.pcs[t].f);
    }
  }

  lemma UnlinkEffect(s: State, t: Tid, s': State)
    requires Steps(s, t, s')
    ensures s.pcs[t].ReleUnhash? ==> HashMove(s, t, s')
    ensures s.pcs[t].ReleUnobj? ==> Locks(s, t, None, s')
  {
    hide Inv, ThreadOk, ObjPart, WalkPart, ObjOk, ChainOk, HashOf, Call, AllocStep, HoldStep, FindStep, DropStep;
    hide LockPcs;
    if HasF(s.pcs[t]) {
      HeldObj(s, t);
      LastPcs(t, s.pcs[t].f);
    }
  }

  lemma CountSelf(s: State, t: Tid, f: Ref, n: nat, r: multiset<Tid>, pc': Pc, s': State)
    requires ThreadOk(s, t) && HasF(s.pcs[t]) && s.pcs[t].f == f && f in s.heap
    requires s' == SetRefs(SetCount(Go(s, t, pc'), f, n), f, r)
    requires (HoldsHash(pc') <==> HoldsHash(s.pcs[t])) && HasF(pc') && pc'.f == f && Plain(pc')
    requires HoldsObj(pc') && HoldsObj(s.pcs[t]) && !Private(pc') && !Private(s.pcs[t]) && (Owns(pc') ==> t in r)
    ensures ThreadOk(s', t)
  {
    hide HashOf, HoldsHash;
  }

  lemma MoreRefs(r: multiset<Tid>, t: Tid)
    ensures |r + multiset{t}| == |r| + 1 && t in r + multiset{t}
    ensures forall u | u != t :: (r + multiset{t})[u] == r[u]
  {
  }

  lemma FewerRefs(r: multiset<Tid>, t: Tid)
    requires t in r
    ensures |r - multiset{t}| == |r| - 1 && forall u | u != t :: (r - multiset{t})[u] == r[u]
  {
  }

  lemma ObjCount(s: State, f: Ref)
    requires ObjOk(s, f)
    ensures f in s.heap && f in s.refs && s.heap[f].count == |s.refs[f]| >= 1 && forall t | t in s.refs[f] :: t in s.pcs
  {
    hide HashOf;
  }

  lemma DecOwned(s: State, t: Tid)
    requires ThreadOk(s, t) && (s.pcs[t].ReleDec? || s.pcs[t].ReleDec2?)
    ensures s.pcs[t].f in s.heap && s.pcs[t].f in s.refs && t in s.refs[s.pcs[t].f] && s.heap[s.pcs[t].f].count >= 2
  {
    hide HashOf, WalkPart, HoldsHash;
  }

  lemma IncEffect(s: State, t: Tid, f: Ref, s': State)
    requires Steps(s, t, s') && (s.pcs[t].HoldInc? || s.pcs[t].FindInc?) && s.pcs[t].f == f
    ensures f in s.heap && f in s.refs && t in s'.pcs
    ensures s'.pcs[t] == if s.pcs[t].HoldInc? then HoldUnlock(f) else FindUnlockObj(f, s.pcs[t].id)
    ensures s' == SetRefs(SetCount(Go(s, t, s'.pcs[t]), f, s.heap[f].count + 1), f, s.refs[f] + multiset{t})
  {
    hide Inv, ThreadOk, ObjPart, WalkPart, ObjOk, ChainOk, HashOf, Call, AllocStep, DropStep, UnlinkStep;
    HeldObj(s, t);
  }

  lemma IncStepInv(s: State, t: Tid, s': State)
    requires Steps(s, t, s') && (s.pcs[t].HoldInc? || s.pcs[t].FindInc?)
    ensures Inv(s')
  {
    hide Inv, ThreadOk, ObjPart, WalkPart, ObjOk, ChainOk, HashOf, Step;
    var f := s.pcs[t].f;
    IncEffect(s, t, f, s');
    var pc' := s'.pcs[t];
    HeldObj(s, t);
    Objects(s, f);
    ObjCount(s, f);
    MoreRefs(s.refs[f], t);
    CountSelf(s, t, f, s.heap[f].count + 1, s.refs[f] + multiset{t}, pc', s');
    CountInv(s, t, f, s.heap[f].count + 1, s.refs[f] + multiset{t}, pc', s');
  }

  lemma DecEffect(s: State, t: Tid, f: Ref, s': State)
    requires Steps(s, t, s') && f in s.heap && f in s.refs && s.heap[f].count >= 1
    requires s.pcs[t] == ReleDec(f) || s.pcs[t] == ReleDec2(f)
    ensures t in s'.pcs && s'.pcs[t] == (if s.pcs[t].ReleDec? then ReleUnlock(f) else ReleUnlockObj2(f))
    ensures s' == SetRefs(SetCount(Go(s, t, s'.pcs[t]), f, s.heap[f].count - 1), f, s.refs[f] - multiset{t})
  {
    hide Inv, ThreadOk, ObjPart, WalkPart, ObjOk, ChainOk, HashOf, Call,
      AllocStep, HoldStep, FindStep, UnlinkStep;
  }

  lemma DecInv(s: State, t: Tid, f: Ref, pc': Pc, s': State)
    requires Inv(s) && ThreadOk(s, t) && f in s.heap && f in s.refs && s.heap[f].count >= 2 && t in s.refs[f]
    requires (s.pcs[t] == ReleDec(f) && pc' == ReleUnlock(f)) || (s.pcs[t] == ReleDec2(f) && pc' == ReleUnlockObj2(f))
    requires s' == SetRefs(SetCount(Go(s, t, pc'), f, s.heap[f].count - 1), f, s.refs[f] - multiset{t})
    ensures Inv(s')
  {
    hide Inv, ThreadOk, ObjOk, HashOf, SetRefs, SetCount, Go;
    Objects(s, f);
    ObjCount(s, f);
    FewerRefs(s.refs[f], t);
    CountSelf(s, t, f, s.heap[f].count - 1, s.refs[f] - multiset{t}, pc', s');
    CountInv(s, t, f, s.heap[f].count - 1, s.refs[f] - multiset{t}, pc', s');
  }

  lemma DecStepInv(s: State, t: Tid, s': State)
    requires Steps(s, t, s') && (s.pcs[t].ReleDec? || s.pcs[t].ReleDec2?)
    ensures Inv(s')
  {
    hide Inv, ThreadOk, Step, SetRefs, SetCount, Go, Touches;
    DecOwned(s, t);
    DecEffect(s, t, s.pcs[t].f, s');
    DecInv(s, t, s.pcs[t].f, s'.pcs[t], s');
  }

  /** The state after f has become the head of its chain. */
  function Linked(s: State, t: Tid, f: Ref): State
    requires f in s.heap && |s.heads| == NHASH && |s.chains| == NHASH
  {
    var h := HashOf(s.heap[f].id);
    Upd(Go(s, t, AllocLockObj(f)), f, s.heap[f].(next := s.heads[h])).(
      heads := s.heads[h := Some(f)], chains := s.chains[h := [f] + s.chains[h]])
  }

  lemma LinkingFacts(s: State, t: Tid)
    requires ThreadOk(s, t) && s.pcs[t].AllocLink?
    ensures var f := s.pcs[t].f;
      && f in s.heap && f in s.refs && |s.chains| == NHASH && s.refs[f] == multiset{t} && s.heap[f].lock != Some(t)
      && f !in s.chains[HashOf(s.heap[f].id)]
  {
    hide HashOf, WalkPart;
  }

  lemma LinkSelf(s: State, t: Tid, f: Ref)
    requires ThreadOk(s, t) && s.pcs[t] == AllocLink(f) && f in s.heap && |s.heads| == NHASH && |s.chains| == NHASH
    ensures ThreadOk(Linked(s, t, f), t)
  {
    hide HashOf;
  }

  lemma LinkElsewhere(s: State, t: Tid, f: Ref)
    requires Inv(s) && f in s.heap && f !in s.chains[HashOf(s.heap[f].id)]
    ensures forall m, g | 0 <= m < NHASH && m != HashOf(s.heap[f].id) && g in s.chains[m] && g in s.heap ::
      Linked(s, t, f).heap[g].next == s.heap[g].next
  {
    hide ThreadOk, ObjOk, ChainOk, HashOf;
    var s', h := Linked(s, t, f), HashOf(s.heap[f].id);
    forall m, g | 0 <= m < NHASH && m != h && g in s.chains[m] && g in s.heap
        ensures s'.heap[g].next == s.heap[g].next {
      assert ChainOk(s, m);
      Home(s, m, g);
    }
  }

  lemma Home(s: State, h: nat, g: Ref)
    requires ChainOk(s, h) && g in s.chains[h]
    ensures g in s.heap && HashOf(s.heap[g].id) == h
  {
    hide HashOf, Differ;
    var k := InChainIndex(s, h, g);
  }

  lemma LinkStepInv(s: State, t: Tid, s': State)
    requires Steps(s, t, s') && s.pcs[t].AllocLink?
    ensures Inv(s')
  {
    hide Inv, ThreadOk, ObjPart, WalkPart, ObjOk, ChainOk, HashOf, Call,
      HoldStep, FindStep, DropStep, UnlinkStep;
    var f := s.pcs[t].f;
    LinkingFacts(s, t);
    ChainCount(s);
    assert s' == Linked(s, t, f);
    LinkedInv(s, t, f);
  }

  lemma LinkedInv(s: State, t: Tid, f: Ref)
    requires Inv(s) && ThreadOk(s, t) && s.pcs[t] == AllocLink(f) && f in s.heap && |s.heads| == NHASH
    requires |s.chains| == NHASH
    ensures Inv(Linked(s, t, f))
  {
    hide Inv, ThreadOk, ChainOk, HashOf;
    var s', h := Linked(s, t, f), HashOf(s.heap[f].id);
    LinkingFacts(s, t);
    HashHeld(s, t);
    LinkSelf(s, t, f);
    Chains(s, h);
    LinkChain(s, s', h, f);
    LinkElsewhere(s, t, f);
    ChainInv(s, t, AllocLockObj(f), s', h, f);
  }

  /** The state after the k-th object of its chain has been unlinked. */
  function Unlinked(s: State, t: Tid, f: Ref, k: nat): State
    requires f in s.heap && |s.heads| == NHASH && |s.chains| == NHASH
  {
    var h := HashOf(s.heap[f].id);
    var c := s.chains[h];
    var out := Go(s, t, ReleUnhash(f)).(chains := s.chains[h := WithoutAt(c, k)]);
    if k == 0 then out.(heads := s.heads[h := s.heap[f].next])
    else if k - 1 < |c| && c[k - 1] in s.heap then
      Upd(out, c[k - 1], s.heap[c[k - 1]].(next := s.heap[f].next))
    else out
  }

  predicate Unlinks(pc: Pc, f: Ref) {
    pc == ReleHead(f) || (pc.ReleSearch? && pc.f == f)
  }

  lemma UnlinkingFacts(s: State, t: Tid, f: Ref)
    requires ThreadOk(s, t) && Unlinks(s.pcs[t], f)
    ensures t in s.pcs && f in s.heap && f in s.refs && |s.chains| == NHASH && s.refs[f] == multiset{t}
    ensures s.heap[f].lock == Some(t) && f in s.chains[HashOf(s.heap[f].id)] && s.hash == Some(t)
  {
    hide HashOf, WalkPart;
  }

  lemma UnlinkSelf(s: State, t: Tid, f: Ref, s': State)
    requires ThreadOk(s, t) && Unlinks(s.pcs[t], f)
    requires t in s'.pcs && s'.pcs[t] == ReleUnhash(f) && s'.refs == s.refs && s'.hash == s.hash
    requires s'.heap.Keys == s.heap.Keys && f in s.heap && s'.heap[f].(next := None) == s.heap[f].(next := None)
    requires |s'.chains| == NHASH && f !in s'.chains[HashOf(s.heap[f].id)]
    ensures ThreadOk(s', t)
  {
    hide HashOf, WalkPart;
    assert s'.heap[f].id == s.heap[f].id && s'.heap[f].lock == s.heap[f].lock;
    NoWalk(s', s'.pcs[t]);
  }

  lemma NoWalk(s: State, pc: Pc)
    requires |s.chains| == NHASH && !pc.FindWalk? && !pc.ReleSearch?
    ensures WalkPart(s, pc)
  {
  }

  lemma UnlinkElsewhere(s: State, t: Tid, s': State, h: nat, k: nat)
    requires Inv(s) && h < NHASH && k < |s.chains[h]|
    requires s'.heap.Keys == s.heap.Keys
    requires forall g | g in s.heap && (k == 0 || g != s.chains[h][k - 1]) :: s'.heap[g] == s.heap[g]
    ensures forall m, g | 0 <= m < NHASH && m != h && g in s.chains[m] && g in s.heap ::
      s'.heap[g].next == s.heap[g].next
  {
    hide ThreadOk, ObjOk, ChainOk, HashOf;
    assert ChainOk(s, h);
    if k > 0 {
      Home(s, h, s.chains[h][k - 1]);
    }
    forall m, g | 0 <= m < NHASH && m != h && g in s.chains[m] && g in s.heap
        ensures s'.heap[g].next == s.heap[g].next {
      assert ChainOk(s, m);
      Home(s, m, g);
    }
  }

  lemma UnlinkHolds(pc: Pc, f: Ref)
    requires Unlinks(pc, f)
    ensures HoldsHash(pc) && HoldsObj(pc) && HoldsHash(ReleUnhash(f)) && HoldsObj(ReleUnhash(f)) && HasF(pc)
    ensures pc.f == f
  {
  }

  lemma UnlinkedInv(s: State, t: Tid, f: Ref, k: nat)
    requires Inv(s) && ThreadOk(s, t) && Unlinks(s.pcs[t], f) && f in s.heap && |s.heads| == NHASH
    requires |s.chains| == NHASH
    requires var c := s.chains[HashOf(s.heap[f].id)]; k < |c| && c[k] == f
    ensures Inv(Unlinked(s, t, f, k))
  {
    hide Inv, ThreadOk, ChainOk, HashOf, WithoutAt, HoldsObj, HoldsHash;
    var s', h := Unlinked(s, t, f, k), HashOf(s.heap[f].id);
    UnlinkingFacts(s, t, f);
    UnlinkHolds(s.pcs[t], f);
    Chains(s, h);
    if k > 0 {
      OnChain(s, h, k - 1);
    }
    WithoutMembers(s, h, k);
    UnlinkSelf(s, t, f, s');
    UnlinkChain(s, s', h, k);
    UnlinkElsewhere(s, t, s', h, k);
    ChainInv(s, t, ReleUnhash(f), s', h, f);
  }

  lemma HeadEffect(s: State, t: Tid, f: Ref, s': State)
    requires Steps(s, t, s') && s.pcs[t] == ReleHead(f) && f in s.heap && |s.heads| == NHASH && |s.chains| == NHASH
    requires var c := s.chains[HashOf(s.heap[f].id)]; c != [] && s.heads[HashOf(s.heap[f].id)] == Some(c[0])
    ensures var c := s.chains[HashOf(s.heap[f].id)];
      s' == if c[0] == f then Unlinked(s, t, f, 0) else Go(s, t, ReleSearch(f, c[0], 0))
  {
    hide Inv, ThreadOk, ObjPart, WalkPart, ObjOk, ChainOk, HashOf, Call, WithoutAt,
      AllocStep, HoldStep, FindStep, DropStep;
  }

  lemma SearchEffect(s: State, t: Tid, f: Ref, k: nat, s': State)
    requires Steps(s, t, s') && s.pcs[t].ReleSearch? && s.pcs[t].f == f && s.pcs[t].k == k
    requires f in s.heap && |s.heads| == NHASH && |s.chains| == NHASH
    requires var c := s.chains[HashOf(s.heap[f].id)];
      k + 1 < |c| && s.pcs[t].tfp == c[k] && c[k] in s.heap && s.heap[c[k]].next == Some(c[k + 1])
    ensures var c := s.chains[HashOf(s.heap[f].id)];
      s' == if c[k + 1] == f then Unlinked(s, t, f, k + 1) else Go(s, t, ReleSearch(f, c[k + 1], k + 1))
  {
    hide Inv, ThreadOk, ObjPart, WalkPart, ObjOk, ChainOk, HashOf, Call, WithoutAt,
      AllocStep, HoldStep, FindStep, DropStep;
  }

  /** The program point of a search that has passed k + 1 objects other than f. */
  lemma SearchPart(s: State, t: Tid, f: Ref, k: nat)
    requires ThreadOk(s, t) && Unlinks(s.pcs[t], f) && f in s.heap && |s.chains| == NHASH
    requires var c := s.chains[HashOf(s.heap[f].id)]; k < |c| && f in c[k + 1..] && c[k] in s.heap
    ensures var pc' := ReleSearch(f, s.chains[HashOf(s.heap[f].id)][k], k);
      ObjPart(s, t, pc') && WalkPart(s, pc') && Touches(pc') <= s.heap.Keys
  {
    hide HashOf;
  }

  lemma HeadOf(s: State, h: nat, f: Ref)
    requires ChainOk(s, h) && f in s.chains[h]
    ensures s.chains[h] != [] && s.heads[h] == Some(s.chains[h][0])
    ensures s.chains[h][0] != f ==> f in s.chains[h][1..]
  {
    hide HashOf, LinkOk, Differ;
    var c := s.chains[h];
    var i :| 0 <= i < |c| && c[i] == f;
    assert i > 0 ==> c[1..][i - 1] == f;
  }

  lemma NextOf(s: State, h: nat, k: nat)
    requires ChainOk(s, h) && k < |s.chains[h]|
    ensures s.chains[h][k] in s.heap && s.heap[s.chains[h][k]].next == At(s.chains[h], k + 1)
  {
    hide HashOf, Differ;
    assert LinkOk(s, h, k);
  }

  lemma HeadStepInv(s: State, t: Tid, s': State)
    requires Steps(s, t, s') && s.pcs[t].ReleHead?
    ensures Inv(s')
  {
    hide Inv, ThreadOk, Step, HashOf, ChainOk, Unlinked, ObjPart, WalkPart, Touches;
    var f := s.pcs[t].f;
    UnlinkingFacts(s, t, f);
    ChainCount(s);
    var h := HashOf(s.heap[f].id);
    var c := s.chains[h];
    Chains(s, h);
    HeadOf(s, h, f);
    HeadEffect(s, t, f, s');
    if c[0] == f {
      UnlinkedInv(s, t, f, 0);
    } else {
      NextOf(s, h, 0);
      SearchPart(s, t, f, 0);
      MoveSelf(s, t, ReleSearch(f, c[0], 0), s.hash, s');
      MoveInv(s, t, ReleSearch(f, c[0], 0), s.hash, s');
    }
  }

  lemma Searching(s: State, t: Tid)
    requires ThreadOk(s, t) && s.pcs[t].ReleSearch?
    ensures var pc := s.pcs[t]; pc.f in s.heap && |s.chains| == NHASH
    ensures var pc := s.pcs[t]; var c := s.chains[HashOf(s.heap[pc.f].id)];
      pc.k + 1 < |c| && c[pc.k] == pc.tfp && pc.f in c[pc.k + 1..]
  {
    hide HashOf, ObjPart;
  }

  /** The unlink search: f is always further down the chain. */
  lemma SearchStepInv(s: State, t: Tid, s': State)
    requires Steps(s, t, s') && s.pcs[t].ReleSearch?
    ensures Inv(s')
  {
    hide Inv, ThreadOk, Step, HashOf, ChainOk, Unlinked, ObjPart, WalkPart, Touches;
    var f, k := s.pcs[t].f, s.pcs[t].k;
    UnlinkingFacts(s, t, f);
    Searching(s, t);
    ChainCount(s);
    var h := HashOf(s.heap[f].id);
    var c := s.chains[h];
    Chains(s, h);
    NextOf(s, h, k);
    SearchEffect(s, t, f, k, s');
    if c[k + 1] == f {
      UnlinkedInv(s, t, f, k + 1);
    } else {
      SearchAhead(c, k, f);
      NextOf(s, h, k + 1);
      SearchPart(s, t, f, k + 1);
      MoveSelf(s, t, ReleSearch(f, c[k + 1], k + 1), s.hash, s');
      MoveInv(s, t, ReleSearch(f, c[k + 1], k + 1), s.hash, s');
    }
  }

  lemma SearchAhead(c: seq<Ref>, k: nat, f: Ref)
    requires k + 1 < |c| && f in c[k + 1..] && c[k + 1] != f
    ensures f in c[k + 2..]
  {
    var i :| 0 <= i < |c[k + 1..]| && c[k + 1..][i] == f;
    assert c[k + 2..][i - 1] == f;
  }

  lemma OtherFrees(s: State, t: Tid, s': State, u: Tid)
    requires ThreadOk(s, t) && ThreadOk(s, u) && u != t && s.pcs[t].ReleFree?
    requires u in s'.pcs && s'.pcs[u] == s.pcs[u] && s'.hash == s.hash && s'.chains == s.chains
    requires s'.heap == s.heap - {s.pcs[t].f} && s'.refs == s.refs - {s.pcs[t].f}
    requires s.pcs[u].FindWalk? ==> ChainOk(s, HashOf(s.pcs[u].id))
    requires s.pcs[u].ReleSearch? ==> ChainOk(s, HashOf(s.heap[s.pcs[u].f].id))
    ensures ThreadOk(s', u)
  {
    var pc := s.pcs[u];
    if pc.FindWalk? && pc.cur.Some? { assert LinkOk(s, HashOf(pc.id), pc.k); }
    if pc.ReleSearch? { assert LinkOk(s, HashOf(s.heap[pc.f].id), pc.k); }
  }

  lemma ObjFrees(s: State, t: Tid, s': State, g: Ref)
    requires ObjOk(s, g) && ThreadOk(s, t) && s.pcs[t].ReleFree? && g != s.pcs[t].f && s'.pcs == s.pcs[t := Idle]
    requires s'.heap == s.heap - {s.pcs[t].f} && s'.refs == s.refs - {s.pcs[t].f} && s'.chains == s.chains
    requires s'.nextRef == s.nextRef
    ensures ObjOk(s', g)
  {
  }

  lemma FreedChain(s: State, t: Tid, s': State, h: nat)
    requires ThreadOk(s, t) && s.pcs[t].ReleFree? && ChainOk(s, h) && h < NHASH
    requires s'.heap == s.heap - {s.pcs[t].f} && s'.chains == s.chains && s'.heads == s.heads
    ensures ChainOk(s', h)
  {
    hide Touches, HoldsHash, WalkPart;
    forall k | 0 <= k < |s.chains[h]| ensures LinkOk(s', h, k) {
      assert LinkOk(s, h, k);
    }
  }

  /** When an object is freed no other thread knows it. */
  lemma FreedInv(s: State, t: Tid, s': State)
    requires Inv(s) && ThreadOk(s, t) && s.pcs[t].ReleFree?
    requires s' == Go(s, t, Idle).(heap := s.heap - {s.pcs[t].f}, refs := s.refs - {s.pcs[t].f})
    requires ThreadOk(s', t)
    ensures Inv(s')
  {
    hide ThreadOk, ObjOk, ChainOk, HashOf;
    HashHeld(s', t);
    forall u | u in s'.pcs ensures ThreadOk(s', u) {
      if u != t {
        assert ThreadOk(s, u);
        WalkedChains(s, u);
        OtherFrees(s, t, s', u);
      }
    }
    forall g | g in s'.heap ensures ObjOk(s', g) {
      assert ObjOk(s, g);
      ObjFrees(s, t, s', g);
    }
    forall h | 0 <= h < NHASH ensures ChainOk(s', h) {
      assert ChainOk(s, h);
      FreedChain(s, t, s', h);
    }
  }

  lemma WalkedChains(s: State, u: Tid)
    requires Inv(s) && ThreadOk(s, u) && u in s.pcs
    ensures s.pcs[u].FindWalk? ==> ChainOk(s, HashOf(s.pcs[u].id))
    ensures s.pcs[u].ReleSearch? ==> s.pcs[u].f in s.heap && ChainOk(s, HashOf(s.heap[s.pcs[u].f].id))
  {
    hide Inv, ThreadOk, ChainOk, HashOf;
    if s.pcs[u].FindWalk? {
      Chains(s, HashOf(s.pcs[u].id));
    } else if s.pcs[u].ReleSearch? {
      HeldObj(s, u);
      Chains(s, HashOf(s.heap[s.pcs[u].f].id));
    }
  }

  lemma FreedSelf(s: State, t: Tid, s': State)
    requires ThreadOk(s, t) && s.pcs[t].ReleFree?
    requires s' == Go(s, t, Idle).(heap := s.heap - {s.pcs[t].f}, refs := s.refs - {s.pcs[t].f})
    ensures ThreadOk(s', t)
  {
    hide HashOf;
  }

  lemma FreeStepInv(s: State, t: Tid, s': State)
    requires Steps(s, t, s') && s.pcs[t].ReleFree?
    ensures Inv(s')
  {
    hide Inv, ThreadOk, Call, AllocStep, HoldStep, FindStep, DropStep, HashOf;
    assert s' == Go(s, t, Idle).(heap := s.heap - {s.pcs[t].f}, refs := s.refs - {s.pcs[t].f});
    FreedSelf(s, t, s');
    FreedInv(s, t, s');
  }

  lemma OtherAllocs(s: State, f: Ref, o: Obj, r: multiset<Tid>, s': State, u: Tid)
    requires ThreadOk(s, u) && u in s'.pcs && s'.pcs[u] == s.pcs[u] && f !in s.heap
    requires s'.heap == s.heap[f := o] && s'.refs == s.refs[f := r] && s'.chains == s.chains && s'.hash == s.hash
    ensures ThreadOk(s', u)
  {
  }

  lemma ObjAllocs(s: State, t: Tid, f: Ref, o: Obj, r: multiset<Tid>, s': State, g: Ref)
    requires ObjOk(s, g) && g != f && t in s.pcs && s.pcs[t].Idle? && s'.pcs == s.pcs[t := AllocLock(f)]
    requires s'.heap == s.heap[f := o] && s'.refs == s.refs[f := r] && s'.chains == s.chains
    requires s'.nextRef == s.nextRef + 1
    ensures ObjOk(s', g)
  {
  }

  lemma AllocSelf(s: State, t: Tid, id: int, s': State)
    requires Inv(s) && t in s.pcs && s.pcs[t].Idle? && s.nextRef !in s.heap
    requires s' == Go(s, t, AllocLock(s.nextRef)).(
                     heap := s.heap[s.nextRef := Obj(1, id, None, None)],
                     made := s.made[s.nextRef := id],
                     refs := s.refs[s.nextRef := multiset{t}], nextRef := s.nextRef + 1)
    ensures ThreadOk(s', t) && ObjOk(s', s.nextRef)
  {
    var f, h := s.nextRef, HashOf(id);
    assert ThreadOk(s, t);
    assert ChainOk(s, h);
    if f in s.chains[h] {
      var k := InChainIndex(s, h, f);
    }
  }

  lemma NewRef(s: State)
    requires Inv(s)
    ensures s.nextRef !in s.heap
  {
    hide ThreadOk, ChainOk;
    assert s.nextRef in s.heap ==> ObjOk(s, s.nextRef);
  }

  lemma AllocInv(s: State, t: Tid, id: int, s': State)
    requires Inv(s) && t in s.pcs && s.pcs[t].Idle?
    requires s' == Go(s, t, AllocLock(s.nextRef)).(
                     heap := s.heap[s.nextRef := Obj(1, id, None, None)],
                     made := s.made[s.nextRef := id],
                     refs := s.refs[s.nextRef := multiset{t}], nextRef := s.nextRef + 1)
    ensures Inv(s')
  {
    hide ThreadOk, ObjOk, ChainOk;
    var f := s.nextRef;
    NewRef(s);
    AllocSelf(s, t, id, s');
    HashHeld(s', t);
    assert ThreadOk(s, t);
    HashHeld(s, t);
    forall u | u in s'.pcs ensures ThreadOk(s', u) {
      if u != t {
        assert ThreadOk(s, u);
        OtherAllocs(s, f, s'.heap[f], multiset{t}, s', u);
      }
    }
    forall g | g in s'.heap ensures ObjOk(s', g) {
      if g != f {
        assert ObjOk(s, g);
        ObjAllocs(s, t, f, s'.heap[f], multiset{t}, s', g);
      }
    }
    forall h | 0 <= h < NHASH ensures ChainOk(s', h) {
      SameChain(s, s', h);
    }
  }

  lemma GiveRefs(r: multiset<Tid>, t: Tid, u: Tid)
    requires t in r
    ensures |r - multiset{t} + multiset{u}| == |r|
    ensures forall v | v != t :: r[v] <= (r - multiset{t} + multiset{u})[v]
    ensures forall v | v in r - multiset{t} + multiset{u} :: v in r || v == u
  {
  }

  lemma OtherGives(s: State, t: Tid, f: Ref, r: multiset<Tid>, s': State, v: Tid)
    requires ThreadOk(s, v) && f in s.refs && s' == SetRefs(s, f, r) && (v == t ==> s.pcs[v].Idle?)
    requires t in s.refs[f] && |r| == |s.refs[f]| && (v != t ==> s.refs[f][v] <= r[v])
    requires f in s.heap && t in s.pcs && s.pcs[t].Idle? && f in s.chains[HashOf(s.heap[f].id)]
    ensures ThreadOk(s', v)
  {
  }

  lemma ObjGives(s: State, f: Ref, r: multiset<Tid>, s': State, g: Ref)
    requires ObjOk(s, g) && s' == SetRefs(s, f, r) && f in s.refs && |r| == |s.refs[f]|
    requires forall v | v in r :: v in s.pcs
    requires f in s.heap && f in s.chains[HashOf(s.heap[f].id)]
    ensures ObjOk(s', g)
  {
  }

  lemma Public(s: State, t: Tid, f: Ref)
    requires ObjOk(s, f) && t in s.pcs && s.pcs[t].Idle? && t in s.refs[f]
    ensures f in s.chains[HashOf(s.heap[f].id)]
  {
    hide HashOf;
  }

  lemma Known(s: State, f: Ref)
    requires ObjOk(s, f)
    ensures f in s.heap && f in s.refs && |s.chains| == NHASH && forall t | t in s.refs[f] :: t in s.pcs
  {
    hide HashOf;
  }

  lemma GiveInv(s: State, t: Tid, f: Ref, u: Tid, s': State)
    requires Inv(s) && t in s.pcs && s.pcs[t].Idle? && f in s.refs && t in s.refs[f] && u in s.pcs
    requires s' == SetRefs(s, f, s.refs[f] - multiset{t} + multiset{u})
    ensures Inv(s')
  {
    hide ThreadOk, ObjOk, ChainOk;
    var r := s.refs[f] - multiset{t} + multiset{u};
    assert ObjOk(s, f);
    Known(s, f);
    Public(s, t, f);
    GiveRefs(s.refs[f], t, u);
    forall v | v in s'.pcs ensures ThreadOk(s', v) {
      assert ThreadOk(s, v);
      OtherGives(s, t, f, r, s', v);
    }
    forall g | g in s'.heap ensures ObjOk(s', g) {
      assert ObjOk(s, g);
      ObjGives(s, f, r, s', g);
    }
    forall h | 0 <= h < NHASH ensures ChainOk(s', h) {
      SameChain(s, s', h);
    }
  }

  lemma UseCallInv(s: State, t: Tid, f: Ref, s': State)
    requires Inv(s) && t in s.pcs && s.pcs[t].Idle? && f in s.refs && t in s.refs[f]
    requires s' == Go(s, t, HoldLock(f)) || s' == Go(s, t, ReleLock(f))
    ensures Inv(s')
  {
    assert ObjOk(s, f) && ThreadOk(s, t);
    MoveInv(s, t, s'.pcs[t], s.hash, s');
  }

  lemma CallInv(s: State, t: Tid, s': State)
    requires Steps(s, t, s') && s.pcs[t].Idle?
    ensures Inv(s')
  {
    hide AllocStep, HoldStep, FindStep, DropStep, UnlinkStep, Inv, ThreadOk, ObjOk, ChainOk, Gives, Allocates;
    if id :| s' == Go(s, t, FindLock(id)) {
      HashHeld(s, t);
      PlainMove(s, t, FindLock(id), s.hash, s');
      MoveInv(s, t, FindLock(id), s.hash, s');
    } else if f :| f in s.refs && t in s.refs[f] && s' == Go(s, t, HoldLock(f)) {
      UseCallInv(s, t, f, s');
    } else if f :| f in s.refs && t in s.refs[f] && s' == Go(s, t, ReleLock(f)) {
      UseCallInv(s, t, f, s');
    } else if f, u :| Gives(s, t, f, u, s') {
      GivesInv(s, t, f, u, s');
    } else {
      var id :| Allocates(s, t, id, s');
      AllocatesInv(s, t, id, s');
    }
  }

  lemma GivesInv(s: State, t: Tid, f: Ref, u: Tid, s': State)
    requires Inv(s) && t in s.pcs && s.pcs[t].Idle? && Gives(s, t, f, u, s')
    ensures Inv(s')
  {
    hide Inv;
    GiveInv(s, t, f, u, s');
  }

  lemma AllocatesInv(s: State, t: Tid, id: int, s': State)
    requires Inv(s) && t in s.pcs && s.pcs[t].Idle? && Allocates(s, t, id, s')
    ensures Inv(s')
  {
    hide Inv;
    AllocInv(s, t, id, s');
  }

  lemma StepInv(s: State, t: Tid, s': State)
    requires Steps(s, t, s')
    ensures Inv(s')
  {
    hide Inv, ThreadOk, Step, Touches, HashMove, Locks;
    match s.pcs[t]
    case Idle => CallInv(s, t, s');
    case AllocLock(_) | AllocUnlockHash(_) => AllocHash(s, t, s'); HashMoveInv(s, t, s');
    case AllocLink(_) => LinkStepInv(s, t, s');
    case AllocLockObj(_) => AllocLocks(s, t, s'); LocksInv(s, t, Some(t), s');
    case AllocUnlockObj(_) => AllocLocks(s, t, s'); LocksInv(s, t, None, s');
    case HoldLock(_) => HoldEffect(s, t, s'); LocksInv(s, t, Some(t), s');
    case HoldUnlock(_) => HoldEffect(s, t, s'); LocksInv(s, t, None, s');
    case FindLock(_) => FindLockInv(s, t, s');
    case FindWalk(_, _, _) => FindWalkInv(s, t, s');
    case FindLockObj(_, _) => FindLocks(s, t, s'); LocksInv(s, t, Some(t), s');
    case FindUnlockObj(_, _) => FindLocks(s, t, s'); LocksInv(s, t, None, s');
    case FindUnlockHash(_, _) => FindHash(s, t, s'); HashMoveInv(s, t, s');
    case HoldInc(_) | FindInc(_, _) => IncStepInv(s, t, s');
    case ReleTest(_) | ReleRecheck(_) => TestStepInv(s, t, s');
    case ReleLock(_) | ReleRelock(_) => DropLock(s, t, s'); LocksInv(s, t, Some(t), s');
    case ReleUnlock(_) | ReleDrop(_) | ReleUnlockObj2(_) => DropUnlock(s, t, s'); LocksInv(s, t, None, s');
    case ReleLockHash(_) | ReleUnlockHash2 => DropHash(s, t, s'); HashMoveInv(s, t, s');
    case ReleDec(_) | ReleDec2(_) => DecStepInv(s, t, s');
    case ReleHead(_) => HeadStepInv(s, t, s');
    case ReleSearch(_, _, _) => SearchStepInv(s, t, s');
    case ReleUnhash(_) => UnlinkEffect(s, t, s'); HashMoveInv(s, t, s');
    case ReleUnobj(_) => UnlinkEffect(s, t, s'); LocksInv(s, t, None, s');
    case ReleFree(_) => FreeStepInv(s, t, s');
  }
}
