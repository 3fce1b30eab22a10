/**
  The reference-counted object table of threads/mutex2.c, as interleaved steps of
  any number of threads.  A step is one pthread call or one access to shared data
  between two such calls; the walk of a hash chain is one step per link.
  An address that was freed is never handed out again, so a use after free shows.
 */
module RefTable {
  import opened Common

  const NHASH := 29

  type Tid = nat
  type Ref = nat

  datatype Obj = Obj(count: nat, id: int, next: Option<Ref>, lock: Option<Tid>)

  /** The next step of a thread.  The position `k` of a walk on the chain, and the id asked for
      once the walk is over, are history; `found` is what foo_find returns. */
  datatype Pc =
    | Idle
    // foo_alloc
    | AllocLock(f: Ref) | AllocLink(f: Ref) | AllocLockObj(f: Ref) | AllocUnlockHash(f: Ref) | AllocUnlockObj(f: Ref)
    // foo_hold
    | HoldLock(f: Ref) | HoldInc(f: Ref) | HoldUnlock(f: Ref)
    // foo_find
    | FindLock(id: int) | FindWalk(id: int, cur: Option<Ref>, k: nat)
    | FindLockObj(f: Ref, id: int) | FindInc(f: Ref, id: int) | FindUnlockObj(f: Ref, id: int)
    | FindUnlockHash(id: int, found: Option<Ref>)
    // foo_rele
    | ReleLock(f: Ref) | ReleTest(f: Ref) | ReleDec(f: Ref) | ReleUnlock(f: Ref)
    | ReleDrop(f: Ref) | ReleLockHash(f: Ref) | ReleRelock(f: Ref) | ReleRecheck(f: Ref)
    | ReleDec2(f: Ref) | ReleUnlockObj2(f: Ref) | ReleUnlockHash2
    | ReleHead(f: Ref) | ReleSearch(f: Ref, tfp: Ref, k: nat)
    | ReleUnhash(f: Ref) | ReleUnobj(f: Ref) | ReleFree(f: Ref)

  /** `refs` (who holds references to an object), `chains` (the hash chains as sequences) and
      `made` (the id with which foo_alloc was called for an object) are history variables: the
      four functions do not read them; `refs` only limits who calls, since callers hold and
      release references they have. */
  datatype State = State(
    heap: map<Ref, Obj>, heads: seq<Option<Ref>>, hash: Option<Tid>, pcs: map<Tid, Pc>, nextRef: Ref,
    refs: map<Ref, multiset<Tid>>, chains: seq<seq<Ref>>, made: map<Ref, int>)

  function HashOf(id: int): (h: nat)
    ensures h < NHASH
  {
    (id % 0x1_0000_0000_0000_0000) % NHASH
  }

  /** The bucket of an int converted to an unsigned long. */
  lemma BucketOf(id: int)
    requires -0x8000_0000 <= id < 0x8000_0000
    ensures id >= 0 ==> HashOf(id) == id % 29
    ensures id < 0 ==> HashOf(id) == (0x1_0000_0000_0000_0000 + id) % 29
  {
    assert id < 0 ==> id % 0x1_0000_0000_0000_0000 == 0x1_0000_0000_0000_0000 + id;
  }

  predicate HoldsHash(pc: Pc) {
    match pc
    case AllocLink(_) | AllocLockObj(_) | AllocUnlockHash(_)
       | FindWalk(_, _, _) | FindLockObj(_, _) | FindInc(_, _) | FindUnlockObj(_, _) | FindUnlockHash(_, _)
       | ReleRelock(_) | ReleRecheck(_) | ReleDec2(_) | ReleUnlockObj2(_) | ReleUnlockHash2
       | ReleHead(_) | ReleSearch(_, _, _) | ReleUnhash(_) => true
    case _ => false
  }

  predicate HoldsObj(pc: Pc) {
    match pc
    case AllocUnlockHash(_) | AllocUnlockObj(_) | HoldInc(_) | HoldUnlock(_) | FindInc(_, _) | FindUnlockObj(_, _)
       | ReleTest(_) | ReleDec(_) | ReleUnlock(_) | ReleDrop(_) | ReleRecheck(_) | ReleDec2(_) | ReleUnlockObj2(_)
       | ReleHead(_) | ReleSearch(_, _, _) | ReleUnhash(_) | ReleUnobj(_) => true
    case _ => false
  }

  predicate WaitsHash(pc: Pc) {
    pc.AllocLock? || pc.FindLock? || pc.ReleLockHash?
  }

  predicate WaitsObj(pc: Pc) {
    pc.AllocLockObj? || pc.HoldLock? || pc.FindLockObj? || pc.ReleLock? || pc.ReleRelock?
  }

  predicate HasF(pc: Pc) {
    !(pc.Idle? || pc.FindLock? || pc.FindWalk? || pc.FindUnlockHash? || pc.ReleUnlockHash2?)
  }

  /** Steps at which the thread still counts a reference to `f` as its own. */
  predicate Owns(pc: Pc) {
    HasF(pc) && !(pc.FindLockObj? || pc.FindInc? || pc.ReleUnlock? || pc.ReleUnlockObj2?)
  }

  /** Steps at which the thread is the only one to know `f`, which is on no chain. */
  predicate Private(pc: Pc) {
    pc.AllocLock? || pc.AllocLink? || pc.ReleUnhash? || pc.ReleUnobj? || pc.ReleFree?
  }

  function Go(s: State, t: Tid, pc: Pc): State {
    s.(pcs := s.pcs[t := pc])
  }

  function Upd(s: State, f: Ref, o: Obj): State {
    s.(heap := s.heap[f := o])
  }

  function SetLock(s: State, f: Ref, l: Option<Tid>): State
    requires f in s.heap
  {
    Upd(s, f, s.heap[f].(lock := l))
  }

  function SetCount(s: State, f: Ref, n: nat): State
    requires f in s.heap
  {
    Upd(s, f, s.heap[f].(count := n))
  }

  function SetRefs(s: State, f: Ref, r: multiset<Tid>): State {
    s.(refs := s.refs[f := r])
  }

  /** The objects a step reads or writes, lock included. */
  function Touches(pc: Pc): set<Ref> {
    (if HasF(pc) then {pc.f} else {})
    + (if pc.ReleSearch? then {pc.tfp} else {})
    + (if pc.FindWalk? && pc.cur.Some? then {pc.cur.value} else {})
  }

  /** Calls a thread may make when it is in none of the functions. */
  ghost predicate Call(s: State, t: Tid, s': State) {
    || (exists id :: s' == Go(s, t, FindLock(id)))
    || (exists f | f in s.refs && t in s.refs[f] :: s' == Go(s, t, HoldLock(f)))
    || (exists f | f in s.refs && t in s.refs[f] :: s' == Go(s, t, ReleLock(f)))
    || (exists id :: Allocates(s, t, id, s'))
    || (exists f, u :: Gives(s, t, f, u, s'))
  }

  /** Thread t starts foo_alloc with a new object. */
  predicate Allocates(s: State, t: Tid, id: int, s': State) {
    s' == Go(s, t, AllocLock(s.nextRef)).(
            heap := s.heap[s.nextRef := Obj(1, id, None, None)],
            made := s.made[s.nextRef := id],
            refs := s.refs[s.nextRef := multiset{t}], nextRef := s.nextRef + 1)
  }

  /** Thread t hands one of its references to u. */
  predicate Gives(s: State, t: Tid, f: Ref, u: Tid, s': State) {
    && f in s.refs && t in s.refs[f] && u in s.pcs
    && s' == SetRefs(s, f, s.refs[f] - multiset{t} + multiset{u})
  }

  function WithoutAt(c: seq<Ref>, k: nat): seq<Ref> {
    if k < |c| then c[..k] + c[k + 1..] else c
  }

  /** foo_alloc */
  ghost predicate AllocStep(s: State, t: Tid, pc: Pc, s': State)
    requires |s.heads| == NHASH && |s.chains| == NHASH
    requires Touches(pc) <= s.heap.Keys && s.heap.Keys == s.refs.Keys
  {
    match pc
    case AllocLock(f) => s.hash == None && s' == Go(s, t, AllocLink(f)).(hash := Some(t))
    case AllocLink(f) =>
      var h := HashOf(s.heap[f].id);
      s' == Upd(Go(s, t, AllocLockObj(f)), f, s.heap[f].(next := s.heads[h])).(
              heads := s.heads[h := Some(f)], chains := s.chains[h := [f] + s.chains[h]])
    case AllocLockObj(f) => s.heap[f].lock == None && s' == SetLock(Go(s, t, AllocUnlockHash(f)), f, Some(t))
    case AllocUnlockHash(f) => s' == Go(s, t, AllocUnlockObj(f)).(hash := None)
    case AllocUnlockObj(f) => s' == SetLock(Go(s, t, Idle), f, None)
    case _ => false
  }

  /** foo_hold */
  ghost predicate HoldStep(s: State, t: Tid, pc: Pc, s': State)
    requires |s.heads| == NHASH && |s.chains| == NHASH
    requires Touches(pc) <= s.heap.Keys && s.heap.Keys == s.refs.Keys
  {
    match pc
    case HoldLock(f) => s.heap[f].lock == None && s' == SetLock(Go(s, t, HoldInc(f)), f, Some(t))
    case HoldInc(f) =>
      s' == SetRefs(SetCount(Go(s, t, HoldUnlock(f)), f, s.heap[f].count + 1), f, s.refs[f] + multiset{t})
    case HoldUnlock(f) => s' == SetLock(Go(s, t, Idle), f, None)
    case _ => false
  }

  /** foo_find */
  ghost predicate FindStep(s: State, t: Tid, pc: Pc, s': State)
    requires |s.heads| == NHASH && |s.chains| == NHASH
    requires Touches(pc) <= s.heap.Keys && s.heap.Keys == s.refs.Keys
  {
    match pc
    case FindLock(id) => s.hash == None && s' == Go(s, t, FindWalk(id, s.heads[HashOf(id)], 0)).(hash := Some(t))
    case FindWalk(id, cur, k) =>
      if cur.None? then s' == Go(s, t, FindUnlockHash(id, None))
      else if s.heap[cur.value].id == id then s' == Go(s, t, FindLockObj(cur.value, id))
      else s' == Go(s, t, FindWalk(id, s.heap[cur.value].next, k + 1))
    case FindLockObj(f, id) => s.heap[f].lock == None && s' == SetLock(Go(s, t, FindInc(f, id)), f, Some(t))
    case FindInc(f, id) =>
      s' == SetRefs(SetCount(Go(s, t, FindUnlockObj(f, id)), f, s.heap[f].count + 1), f, s.refs[f] + multiset{t})
    case FindUnlockObj(f, id) => s' == SetLock(Go(s, t, FindUnlockHash(id, Some(f))), f, None)
    case FindUnlockHash(_, _) => s' == Go(s, t, Idle).(hash := None)
    case _ => false
  }

  /** foo_rele, up to the recheck of the count */
  ghost predicate DropStep(s: State, t: Tid, pc: Pc, s': State)
    requires |s.heads| == NHASH && |s.chains| == NHASH
    requires Touches(pc) <= s.heap.Keys && s.heap.Keys == s.refs.Keys
  {
    match pc
    case ReleLock(f) => s.heap[f].lock == None && s' == SetLock(Go(s, t, ReleTest(f)), f, Some(t))
    case ReleTest(f) => s' == Go(s, t, if s.heap[f].count == 1 then ReleDrop(f) else ReleDec(f))
    case ReleDec(f) =>
      s.heap[f].count >= 1 &&
      s' == SetRefs(SetCount(Go(s, t, ReleUnlock(f)), f, s.heap[f].count - 1), f, s.refs[f] - multiset{t})
    case ReleUnlock(f) => s' == SetLock(Go(s, t, Idle), f, None)
    case ReleDrop(f) => s' == SetLock(Go(s, t, ReleLockHash(f)), f, None)
    case ReleLockHash(f) => s.hash == None && s' == Go(s, t, ReleRelock(f)).(hash := Some(t))
    case ReleRelock(f) => s.heap[f].lock == None && s' == SetLock(Go(s, t, ReleRecheck(f)), f, Some(t))
    case ReleRecheck(f) => s' == Go(s, t, if s.heap[f].count != 1 then ReleDec2(f) else ReleHead(f))
    case ReleDec2(f) =>
      s.heap[f].count >= 1 &&
      s' == SetRefs(SetCount(Go(s, t, ReleUnlockObj2(f)), f, s.heap[f].count - 1), f, s.refs[f] - multiset{t})
    case ReleUnlockObj2(f) => s' == SetLock(Go(s, t, ReleUnlockHash2), f, None)
    case ReleUnlockHash2 => s' == Go(s, t, Idle).(hash := None)
    case _ => false
  }

  /** foo_rele, from the unlinking of the object to its end */
  ghost predicate UnlinkStep(s: State, t: Tid, pc: Pc, s': State)
    requires |s.heads| == NHASH && |s.chains| == NHASH
    requires Touches(pc) <= s.heap.Keys && s.heap.Keys == s.refs.Keys
  {
    match pc
    case ReleHead(f) =>
      var h := HashOf(s.heap[f].id);
      s.heads[h].Some? &&
      if s.heads[h].value == f
      then s' == Go(s, t, ReleUnhash(f)).(
                   heads := s.heads[h := s.heap[f].next], chains := s.chains[h := WithoutAt(s.chains[h], 0)])
      else s' == Go(s, t, ReleSearch(f, s.heads[h].value, 0))
    case ReleSearch(f, tfp, k) =>
      var h := HashOf(s.heap[f].id);
      s.heap[tfp].next.Some? &&
      if s.heap[tfp].next.value == f
      then s' == Upd(Go(s, t, ReleUnhash(f)), tfp, s.heap[tfp].(next := s.heap[f].next)).(
                   chains := s.chains[h := WithoutAt(s.chains[h], k + 1)])
      else s' == Go(s, t, ReleSearch(f, s.heap[tfp].next.value, k + 1))
    case ReleUnhash(f) => s' == Go(s, t, ReleUnobj(f)).(hash := None)
    case ReleUnobj(f) => s' == SetLock(Go(s, t, ReleFree(f)), f, None)
    case ReleFree(f) => s' == Go(s, t, Idle).(heap := s.heap - {f}, refs := s.refs - {f})
    case _ => false
  }

  /** One step of thread t at program counter pc.  Objects it touches must exist. */
  ghost predicate Step(s: State, t: Tid, pc: Pc, s': State)
    requires |s.heads| == NHASH && |s.chains| == NHASH
    requires Touches(pc) <= s.heap.Keys && s.heap.Keys == s.refs.Keys
  {
    match pc
    case Idle => Call(s, t, s')
    case AllocLock(_) | AllocLink(_) | AllocLockObj(_) | AllocUnlockHash(_) | AllocUnlockObj(_) =>
      AllocStep(s, t, pc, s')
    case HoldLock(_) | HoldInc(_) | HoldUnlock(_) => HoldStep(s, t, pc, s')
    case FindLock(_) | FindWalk(_, _, _) | FindLockObj(_, _) | FindInc(_, _) | FindUnlockObj(_, _)
       | FindUnlockHash(_, _) =>
      FindStep(s, t, pc, s')
    case ReleLock(_) | ReleTest(_) | ReleDec(_) | ReleUnlock(_)
       | ReleDrop(_) | ReleLockHash(_) | ReleRelock(_) | ReleRecheck(_)
       | ReleDec2(_) | ReleUnlockObj2(_) | ReleUnlockHash2 => DropStep(s, t, pc, s')
    case ReleHead(_) | ReleSearch(_, _, _) | ReleUnhash(_) | ReleUnobj(_) | ReleFree(_) => UnlinkStep(s, t, pc, s')
  }

  // ---- the invariant ------------------------------------------------------------

  /** What holds of the object a thread at `pc` is working on. */
  ghost predicate ObjPart(s: State, t: Tid, pc: Pc) {
    HasF(pc) ==>
      && pc.f in s.heap && pc.f in s.refs && |s.chains| == NHASH
      && (HoldsObj(pc) <==> s.heap[pc.f].lock == Some(t))
      && (Owns(pc) ==> t in s.refs[pc.f])
      && (Private(pc) || pc.ReleHead? || pc.ReleSearch? ==> s.refs[pc.f] == multiset{t})
      && (pc.ReleDec? || pc.ReleDec2? ==> s.heap[pc.f].count >= 2)
      && (pc.ReleFree? ==> s.heap[pc.f].lock == None)
      && (Private(pc) <==> pc.f !in s.chains[HashOf(s.heap[pc.f].id)])
  }

  /** Where a thread at `pc` stands on the chain it walks. */
  ghost predicate WalkPart(s: State, pc: Pc) {
    && |s.chains| == NHASH
    && (pc.FindWalk? ==>
          pc.k <= |s.chains[HashOf(pc.id)]| && pc.cur == At(s.chains[HashOf(pc.id)], pc.k))
    && (pc.ReleSearch? ==>
          && pc.f in s.heap
          && var c := s.chains[HashOf(s.heap[pc.f].id)];
             pc.k < |c| && c[pc.k] == pc.tfp && pc.f in c[pc.k + 1..])
  }

  ghost predicate ThreadOk(s: State, t: Tid) {
    && t in s.pcs && |s.chains| == NHASH
    && (HoldsHash(s.pcs[t]) <==> s.hash == Some(t))
    && Touches(s.pcs[t]) <= s.heap.Keys && s.heap.Keys == s.refs.Keys
    && ObjPart(s, t, s.pcs[t]) && WalkPart(s, s.pcs[t])
  }

  function At(c: seq<Ref>, k: nat): Option<Ref> {
    if k < |c| then Some(c[k]) else None
  }

  ghost predicate ObjOk(s: State, f: Ref) {
    && f in s.heap && f in s.refs && f < s.nextRef && |s.chains| == NHASH
    && var o := s.heap[f];
       && o.count == |s.refs[f]| >= 1
       && (forall t | t in s.refs[f] :: t in s.pcs)
       && (o.lock.Some? ==> o.lock.value in s.pcs && HoldsObj(s.pcs[o.lock.value]) && s.pcs[o.lock.value].f == f)
       && (f !in s.chains[HashOf(o.id)] ==>
             forall t | t in s.refs[f] :: HasF(s.pcs[t]) && s.pcs[t].f == f && Private(s.pcs[t]))
  }

  predicate Differ(c: seq<Ref>, i: nat, j: nat) {
    i < |c| && j < |c| && (i != j ==> c[i] != c[j])
  }

  ghost predicate LinkOk(s: State, h: nat, k: nat) {
    && h < |s.chains| && k < |s.chains[h]|
    && var c := s.chains[h];
       c[k] in s.heap && HashOf(s.heap[c[k]].id) == h && s.heap[c[k]].next == At(c, k + 1)
  }

  /** Chain h is the acyclic linked list that starts at its head. */
  ghost predicate ChainOk(s: State, h: nat) {
    && h < |s.chains| && h < |s.heads|
    && s.heads[h] == At(s.chains[h], 0)
    && (forall k | 0 <= k < |s.chains[h]| :: LinkOk(s, h, k))
    && (forall i, j | 0 <= i < |s.chains[h]| && 0 <= j < |s.chains[h]| :: Differ(s.chains[h], i, j))
  }

  ghost predicate Inv(s: State) {
    && |s.heads| == NHASH && |s.chains| == NHASH && s.heap.Keys == s.refs.Keys
    && (s.hash.Some? ==> s.hash.value in s.pcs && HoldsHash(s.pcs[s.hash.value]))
    && (forall t {:trigger ThreadOk(s, t)} | t in s.pcs :: ThreadOk(s, t))
    && (forall f {:trigger ObjOk(s, f)} | f in s.heap :: ObjOk(s, f))
    && (forall h | 0 <= h < NHASH :: ChainOk(s, h))
  }

  ghost predicate Initial(s: State) {
    && s.heap == map[] && s.refs == map[] && s.hash == None
    && s.heads == seq(NHASH, _ => None) && s.chains == seq(NHASH, _ => [])
    && forall t | t in s.pcs :: s.pcs[t] == Idle
  }

  ghost predicate Next(s: State, s': State) {
    && |s.heads| == NHASH && |s.chains| == NHASH && s.heap.Keys == s.refs.Keys
    && exists t :: t in s.pcs && Touches(s.pcs[t]) <= s.heap.Keys && Step(s, t, s.pcs[t], s')
  }

  lemma SoleMember(r: multiset<Tid>, t: Tid)
    requires |r| == 1 && t in r
    ensures r == multiset{t}
  {
    assert |r - multiset{t}| == 0;
  }

  lemma InChainIndex(s: State, h: nat, f: Ref) returns (k: nat)
    requires ChainOk(s, h) && f in s.chains[h]
    ensures k < |s.chains[h]| && s.chains[h][k] == f && LinkOk(s, h, k)
  {
    k :| 0 <= k < |s.chains[h]| && s.chains[h][k] == f;
  }

  lemma SameChain(s: State, s': State, h: nat)
    requires ChainOk(s, h) && h < |s'.chains| && h < |s'.heads| && s'.chains[h] == s.chains[h]
    requires s'.heads[h] == s.heads[h]
    requires forall f | f in s.heap && f in s.chains[h] ::
               f in s'.heap && s'.heap[f].id == s.heap[f].id && s'.heap[f].next == s.heap[f].next
    ensures ChainOk(s', h)
  {
    forall k | 0 <= k < |s.chains[h]| ensures LinkOk(s', h, k) {
      assert LinkOk(s, h, k);
    }
  }

  /** The new program counter holds the same object lock and hides the same object. */
  predicate SameHold(pc: Pc, pc': Pc) {
    && (HoldsObj(pc) ==> HoldsObj(pc') && pc'.f == pc.f)
    && (Private(pc) ==> Private(pc') && pc'.f == pc.f)
  }

  lemma HashHeld(s: State, t: Tid)
    requires ThreadOk(s, t)
    ensures t in s.pcs && (HoldsHash(s.pcs[t]) <==> s.hash == Some(t))
  {
  }
}
