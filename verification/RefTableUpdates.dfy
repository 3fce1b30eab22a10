/** The kinds of change that the steps of the object table make, and that each keeps the invariant. */
module RefTableUpdates {
  import opened Common
  import opened RefTable

  // ---- a step that changes the program counter and perhaps hashlock --------------

  lemma OtherMoves(s: State, s': State, u: Tid)
    requires ThreadOk(s, u) && u in s'.pcs && s'.pcs[u] == s.pcs[u]
    requires s'.heap == s.heap && s'.refs == s.refs && s'.chains == s.chains
    requires s'.hash == Some(u) <==> s.hash == Some(u)
    ensures ThreadOk(s', u)
  {
  }

  lemma ObjMoves(s: State, t: Tid, pc': Pc, s': State, f: Ref)
    requires ObjOk(s, f) && t in s.pcs && SameHold(s.pcs[t], pc') && s'.pcs == s.pcs[t := pc']
    requires s'.heap == s.heap && s'.refs == s.refs && s'.chains == s.chains && s'.nextRef == s.nextRef
    ensures ObjOk(s', f)
  {
    hide HashOf;
  }

  lemma MoveInv(s: State, t: Tid, pc': Pc, hash': Option<Tid>, s': State)
    requires Inv(s) && t in s.pcs && SameHold(s.pcs[t], pc')
    requires s' == Go(s, t, pc').(hash := hash') && ThreadOk(s', t)
    requires hash' == s.hash || (s.hash in {None, Some(t)} && hash' in {None, Some(t)})
    ensures Inv(s')
  {
    hide ThreadOk, ObjOk, ChainOk, SameHold;
    HashHeld(s', t);
    forall u | u in s'.pcs ensures ThreadOk(s', u) {
      if u != t {
        assert ThreadOk(s, u);
        OtherMoves(s, s', u);
      }
    }
    forall g | g in s'.heap ensures ObjOk(s', g) {
      assert ObjOk(s, g);
      ObjMoves(s, t, pc', s', g);
    }
    forall h | 0 <= h < NHASH ensures ChainOk(s', h) {
      SameChain(s, s', h);
    }
  }

  // ---- a step that takes or gives back the lock of an object ----------------------

  lemma OtherLocks(s: State, t: Tid, f: Ref, l: Option<Tid>, s': State, u: Tid)
    requires ThreadOk(s, u) && u != t && u in s'.pcs && s'.pcs[u] == s.pcs[u] && f in s.heap
    requires s'.heap == s.heap[f := s.heap[f].(lock := l)] && s'.refs == s.refs && s'.chains == s.chains
    requires s'.hash == s.hash
    requires s.heap[f].lock in {None, Some(t)} && l in {None, Some(t)}
    requires l != None ==> !(HasF(s.pcs[u]) && s.pcs[u].ReleFree? && s.pcs[u].f == f)
    ensures ThreadOk(s', u)
  {
  }

  lemma ObjLocks(s: State, t: Tid, f: Ref, l: Option<Tid>, pc': Pc, s': State, g: Ref)
    requires ObjOk(s, g) && t in s.pcs && HasF(s.pcs[t]) && s.pcs[t].f == f && f in s.heap
    requires s'.heap == s.heap[f := s.heap[f].(lock := l)] && s'.refs == s.refs && s'.chains == s.chains
    requires s'.pcs == s.pcs[t := pc'] && s'.nextRef == s.nextRef
    requires l in {None, Some(t)} && (l == Some(t) ==> HoldsObj(pc') && pc'.f == f)
    requires s.heap[f].lock in {None, Some(t)} && (Private(s.pcs[t]) ==> Private(pc') && pc'.f == f)
    ensures ObjOk(s', g)
  {
  }

  lemma NotFreeing(s: State, t: Tid, u: Tid, f: Ref)
    requires ThreadOk(s, t) && ThreadOk(s, u) && u != t && HasF(s.pcs[t]) && s.pcs[t].f == f
    ensures !(s.pcs[u].ReleFree? && s.pcs[u].f == f)
  {
    hide WalkPart, Touches, HoldsHash, HashOf;
  }

  lemma LockInv(s: State, t: Tid, f: Ref, l: Option<Tid>, pc': Pc, s': State)
    requires Inv(s) && t in s.pcs && HasF(s.pcs[t]) && s.pcs[t].f == f && f in s.heap
    requires s' == SetLock(Go(s, t, pc'), f, l) && ThreadOk(s', t) && (HoldsHash(pc') <==> HoldsHash(s.pcs[t]))
    requires s.heap[f].lock in {None, Some(t)} && l in {None, Some(t)} && (l == Some(t) ==> HoldsObj(pc') && pc'.f == f)
    requires Private(s.pcs[t]) ==> Private(pc') && pc'.f == f
    ensures Inv(s')
  {
    hide ThreadOk, ObjOk, ChainOk;
    assert ThreadOk(s, t);
    HashHeld(s', t);
    forall u | u in s'.pcs ensures ThreadOk(s', u) {
      if u != t {
        assert ThreadOk(s, u);
        NotFreeing(s, t, u, f);
        OtherLocks(s, t, f, l, s', u);
      }
    }
    forall g | g in s'.heap ensures ObjOk(s', g) {
      assert ObjOk(s, g);
      ObjLocks(s, t, f, l, pc', s', g);
    }
    forall h | 0 <= h < NHASH ensures ChainOk(s', h) {
      SameChain(s, s', h);
    }
  }

  // ---- a step that counts a reference up or down, under the lock of the object -----

  lemma OtherCounts(s: State, t: Tid, f: Ref, n: nat, r: multiset<Tid>, s': State, u: Tid)
    requires ThreadOk(s, u) && u != t && u in s'.pcs && s'.pcs[u] == s.pcs[u] && f in s.heap
    requires s'.heap == s.heap[f := s.heap[f].(count := n)] && s'.refs == s.refs[f := r]
    requires s'.chains == s.chains && s'.hash == s.hash && r[u] == s.refs[f][u]
    requires s.heap[f].lock == Some(t) && f in s.chains[HashOf(s.heap[f].id)]
    ensures ThreadOk(s', u)
  {
    OtherCountsObj(s, t, f, n, r, s', u);
    hide HashOf, HoldsHash, ObjPart;
  }

  lemma OtherCountsObj(s: State, t: Tid, f: Ref, n: nat, r: multiset<Tid>, s': State, u: Tid)
    requires u in s.pcs && ObjPart(s, u, s.pcs[u]) && u != t && f in s.heap
    requires s'.heap == s.heap[f := s.heap[f].(count := n)] && s'.refs == s.refs[f := r]
    requires s'.chains == s.chains && f in s.refs && r[u] == s.refs[f][u]
    requires s.heap[f].lock == Some(t) && |s.chains| == NHASH && f in s.chains[HashOf(s.heap[f].id)]
    ensures ObjPart(s', u, s.pcs[u])
  {
    hide HashOf;
  }

  lemma ObjCounts(s: State, t: Tid, f: Ref, n: nat, r: multiset<Tid>, pc': Pc, s': State, g: Ref)
    requires ObjOk(s, g) && t in s.pcs && f in s.heap && HasF(s.pcs[t]) && s.pcs[t].f == f && !Private(s.pcs[t])
    requires HoldsObj(s.pcs[t]) && HoldsObj(pc') && pc'.f == f && s'.pcs == s.pcs[t := pc'] && s'.nextRef == s.nextRef
    requires s'.heap == s.heap[f := s.heap[f].(count := n)] && s'.refs == s.refs[f := r] && s'.chains == s.chains
    requires f in s.chains[HashOf(s.heap[f].id)] && n == |r| >= 1 && forall u | u in r :: u in s.pcs
    ensures ObjOk(s', g)
  {
  }

  lemma HeldObj(s: State, t: Tid)
    requires ThreadOk(s, t) && HasF(s.pcs[t])
    ensures s.pcs[t].f in s.heap && s.pcs[t].f in s.refs && |s.chains| == NHASH
    ensures HoldsObj(s.pcs[t]) <==> s.heap[s.pcs[t].f].lock == Some(t)
    ensures Private(s.pcs[t]) <==> s.pcs[t].f !in s.chains[HashOf(s.heap[s.pcs[t].f].id)]
  {
    hide WalkPart, Touches, HoldsHash, HashOf;
  }

  lemma CountInv(s: State, t: Tid, f: Ref, n: nat, r: multiset<Tid>, pc': Pc, s': State)
    requires Inv(s) && t in s.pcs && HasF(s.pcs[t]) && s.pcs[t].f == f && f in s.heap
    requires !Private(s.pcs[t]) && HoldsObj(s.pcs[t]) && HoldsObj(pc') && pc'.f == f && (HoldsHash(pc') <==>
      HoldsHash(s.pcs[t]))
    requires s' == SetRefs(SetCount(Go(s, t, pc'), f, n), f, r) && ThreadOk(s', t)
    requires n == |r| >= 1 && forall u | u in r || u in s.refs[f] :: u in s.pcs && (u != t ==> r[u] == s.refs[f][u])
    ensures Inv(s')
  {
    hide ThreadOk, ObjOk, ChainOk;
    assert ThreadOk(s, t);
    HeldObj(s, t);
    HashHeld(s', t);
    forall u | u in s'.pcs ensures ThreadOk(s', u) {
      if u != t {
        assert ThreadOk(s, u);
        OtherCounts(s, t, f, n, r, s', u);
      }
    }
    forall g | g in s'.heap ensures ObjOk(s', g) {
      assert ObjOk(s, g);
      ObjCounts(s, t, f, n, r, pc', s', g);
    }
    forall h | 0 <= h < NHASH ensures ChainOk(s', h) {
      SameChain(s, s', h);
    }
  }

  // ---- linking and unlinking, under hashlock ------------------------------------------

  /** While t holds hashlock and is the only owner of f, no other thread knows f. */
  lemma Unknown(s: State, t: Tid, u: Tid, f: Ref)
    requires ThreadOk(s, t) && ThreadOk(s, u) && u != t && HoldsHash(s.pcs[t])
    requires f in s.heap && s.refs[f] == multiset{t} && (s.heap[f].lock == Some(t) || Private(s.pcs[t]))
    requires HasF(s.pcs[t]) && s.pcs[t].f == f
    ensures HasF(s.pcs[u]) ==> s.pcs[u].f != f
    ensures !s.pcs[u].FindWalk? && !s.pcs[u].ReleSearch?
  {
  }

  lemma OtherLinks(s: State, s': State, h: nat, f: Ref, u: Tid)
    requires ThreadOk(s, u) && u in s'.pcs && s'.pcs[u] == s.pcs[u] && f in s.heap && h < NHASH
    requires s'.heap.Keys == s.heap.Keys && s'.refs == s.refs && s'.hash == s.hash && |s'.chains| == NHASH
    requires forall g | g in s.heap :: s'.heap[g].(next := None) == s.heap[g].(next := None)
    requires forall m | 0 <= m < NHASH && m != h :: s'.chains[m] == s.chains[m]
    requires forall g | g in s.heap && g != f :: g in s'.chains[h] <==> g in s.chains[h]
    requires HasF(s.pcs[u]) ==> s.pcs[u].f != f
    requires !s.pcs[u].FindWalk? && !s.pcs[u].ReleSearch?
    ensures ThreadOk(s', u)
  {
    var pc := s.pcs[u];
    if HasF(pc) {
      assert s'.heap[pc.f].(next := None) == s.heap[pc.f].(next := None);
      assert s'.heap[pc.f].id == s.heap[pc.f].id && s'.heap[pc.f].lock == s.heap[pc.f].lock;
    }
  }

  lemma ObjLinks(s: State, t: Tid, pc': Pc, s': State, h: nat, f: Ref, g: Ref)
    requires ObjOk(s, g) && t in s.pcs && f in s.heap && h < NHASH && HashOf(s.heap[f].id) == h
    requires HasF(s.pcs[t]) && s.pcs[t].f == f && HasF(pc') && pc'.f == f && (HoldsObj(pc') <==> HoldsObj(s.pcs[t]))
    requires s'.pcs == s.pcs[t := pc'] && s'.nextRef == s.nextRef
    requires s'.heap.Keys == s.heap.Keys && s'.refs == s.refs && |s'.chains| == NHASH
    requires forall o | o in s.heap :: s'.heap[o].(next := None) == s.heap[o].(next := None)
    requires forall m | 0 <= m < NHASH && m != h :: s'.chains[m] == s.chains[m]
    requires forall o | o in s.heap && o != f :: o in s'.chains[h] <==> o in s.chains[h]
    requires f in s.refs && s.refs[f] == multiset{t} && (f !in s'.chains[h] ==> Private(pc'))
    ensures ObjOk(s', g)
  {
    assert s'.heap[g].(next := None) == s.heap[g].(next := None);
    assert s'.heap[g].id == s.heap[g].id && s'.heap[g].lock == s.heap[g].lock && s'.heap[g].count == s.heap[g].count;
  }

  lemma LinkChain(s: State, s': State, h: nat, f: Ref)
    requires ChainOk(s, h) && f in s.heap && f !in s.chains[h] && HashOf(s.heap[f].id) == h
    requires s'.heap == s.heap[f := s.heap[f].(next := s.heads[h])]
    requires h < |s'.chains| && h < |s'.heads| && s'.heads[h] == Some(f) && s'.chains[h] == [f] + s.chains[h]
    ensures ChainOk(s', h)
  {
    var c, c' := s.chains[h], s'.chains[h];
    forall k | 0 <= k < |c'| ensures LinkOk(s', h, k) {
      if k > 0 { assert LinkOk(s, h, k - 1); }
    }
    forall i, j | 0 <= i < |c'| && 0 <= j < |c'| ensures Differ(c', i, j) {
      if i > 0 && j > 0 { assert Differ(c, i - 1, j - 1); }
    }
  }

  /** Removing the k-th object by rewriting the pointer before it. */
  lemma UnlinkChain(s: State, s': State, h: nat, k: nat)
    requires ChainOk(s, h) && k < |s.chains[h]| && h < |s'.chains| && h < |s'.heads|
    requires s'.chains[h] == WithoutAt(s.chains[h], k) && s.chains[h][k] in s.heap
    requires k == 0 ==> s'.heads[h] == s.heap[s.chains[h][k]].next && s'.heap == s.heap
    requires k > 0 ==>
      && s'.heads[h] == s.heads[h] && s.chains[h][k - 1] in s.heap
      && var before := s.chains[h][k - 1];
         s'.heap == s.heap[before := s.heap[before].(next := s.heap[s.chains[h][k]].next)]
    ensures ChainOk(s', h)
  {
    var c, c' := s.chains[h], s'.chains[h];
    assert LinkOk(s, h, k);
    forall j | 0 <= j < |c'| ensures LinkOk(s', h, j) {
      var i := if j < k then j else j + 1;
      assert LinkOk(s, h, i);
      assert k > 0 ==> Differ(c, i, k - 1);
      if j + 1 == k { assert At(c', j + 1) == At(c, k + 1); }
      else { assert At(c', j + 1) == At(c, i + 1); }
    }
    forall i, j | 0 <= i < |c'| && 0 <= j < |c'| ensures Differ(c', i, j) {
      assert Differ(c, if i < k then i else i + 1, if j < k then j else j + 1);
    }
  }

  lemma WithoutMembers(s: State, h: nat, k: nat)
    requires ChainOk(s, h) && k < |s.chains[h]|
    ensures s.chains[h][k] !in WithoutAt(s.chains[h], k)
    ensures forall g | g != s.chains[h][k] :: g in WithoutAt(s.chains[h], k) <==> g in s.chains[h]
  {
    var c := s.chains[h];
    var c' := WithoutAt(c, k);
    forall i | 0 <= i < |c'| ensures c'[i] != c[k] {
      assert Differ(c, if i < k then i else i + 1, k);
    }
    forall g | g in c && g != c[k] ensures g in c' {
      var i :| 0 <= i < |c| && c[i] == g;
      assert c'[if i < k then i else i - 1] == g;
    }
  }

  /** A change of one chain by the thread that alone owns the object concerned. */
  lemma ChainInv(s: State, t: Tid, pc': Pc, s': State, h: nat, f: Ref)
    requires Inv(s) && t in s.pcs && HoldsHash(s.pcs[t]) && HasF(s.pcs[t]) && s.pcs[t].f == f && f in s.heap
    requires h == HashOf(s.heap[f].id) && s.refs[f] == multiset{t} && (s.heap[f].lock == Some(t) || Private(s.pcs[t]))
    requires HasF(pc') && pc'.f == f && (HoldsObj(pc') <==> HoldsObj(s.pcs[t])) && HoldsHash(pc')
    requires s'.pcs == s.pcs[t := pc'] && s'.nextRef == s.nextRef && s'.hash == s.hash
    requires s'.heap.Keys == s.heap.Keys && s'.refs == s.refs && |s'.chains| == NHASH && |s'.heads| == NHASH
    requires forall g | g in s.heap :: s'.heap[g].(next := None) == s.heap[g].(next := None)
    requires forall m, g | 0 <= m < NHASH && m != h && g in s.chains[m] && g in s.heap ::
      s'.heap[g].next == s.heap[g].next
    requires forall m | 0 <= m < NHASH && m != h :: s'.chains[m] == s.chains[m] && s'.heads[m] == s.heads[m]
    requires forall g | g in s.heap && g != f :: g in s'.chains[h] <==> g in s.chains[h]
    requires ThreadOk(s', t) && ChainOk(s', h) && (f !in s'.chains[h] ==> Private(pc'))
    ensures Inv(s')
  {
    hide ThreadOk, ObjOk, ChainOk;
    assert ThreadOk(s, t);
    HashHeld(s', t);
    forall u | u in s'.pcs ensures ThreadOk(s', u) {
      if u != t {
        assert ThreadOk(s, u);
        Unknown(s, t, u, f);
        OtherLinks(s, s', h, f, u);
      }
    }
    forall g | g in s'.heap ensures ObjOk(s', g) {
      assert ObjOk(s, g);
      ObjLinks(s, t, pc', s', h, f, g);
    }
    forall m | 0 <= m < NHASH ensures ChainOk(s', m) {
      if m != h {
        forall g | g in s.heap && g in s.chains[m]
            ensures s'.heap[g].id == s.heap[g].id && s'.heap[g].next == s.heap[g].next {
          assert s'.heap[g].(next := None) == s.heap[g].(next := None);
        }
        SameChain(s, s', m);
      }
    }
  }
}
