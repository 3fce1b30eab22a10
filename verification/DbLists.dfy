/**
  The 138 linked lists threaded through the index file: list 0 is the free list,
  list h + 1 is hash chain h.  List l starts at header slot 7 * l; every further
  pointer field is the one at the front of a record.
 */
module DbLists {
  import opened DbCells
  import opened DbFormat

  const NLISTS := NHASH + 1

  /** The lists as sequences of record offsets, and the list each record is on. */
  datatype Lists = Lists(chains: seq<seq<nat>>, home: map<nat, nat>)

  /** Location of the k-th pointer field of list l. */
  function Node(l: nat, c: seq<nat>, k: nat): nat
    requires k <= |c|
  {
    if k == 0 then PTR_SZ * l else c[k - 1]
  }

  /** What that pointer field must contain. */
  function Succ(c: seq<nat>, k: nat): nat
    requires k <= |c|
  {
    if k < |c| then c[k] else 0
  }

  ghost predicate Linked(ptrs: map<nat, nat>, l: nat, c: seq<nat>) {
    forall k | 0 <= k <= |c| :: Node(l, c, k) in ptrs && ptrs[Node(l, c, k)] == Succ(c, k)
  }

  predicate Differ(c: seq<nat>, i: nat, j: nat) {
    i < |c| && j < |c| && (i != j ==> c[i] != c[j])
  }

  ghost predicate NoDup(c: seq<nat>) {
    forall i, j | 0 <= i < |c| && 0 <= j < |c| :: Differ(c, i, j)
  }

  ghost predicate Housed(t: Lists, o: nat) {
    BASE <= o && o in t.home && t.home[o] < |t.chains| && o in t.chains[t.home[o]]
  }

  /** All lists are linked, acyclic and pairwise disjoint, and cover exactly the
      records that have a home. */
  ghost predicate Threaded(ptrs: map<nat, nat>, t: Lists) {
    && |t.chains| == NLISTS
    && (forall l | 0 <= l < NLISTS :: Linked(ptrs, l, t.chains[l]))
    && (forall l | 0 <= l < NLISTS :: NoDup(t.chains[l]))
    && (forall l, o {:trigger o in t.chains[l]} | 0 <= l < NLISTS && o in t.chains[l] :: o in t.home && t.home[o] == l)
    && (forall o {:trigger Housed(t, o)} | o in t.home :: Housed(t, o))
  }

  lemma ListCount(ptrs: map<nat, nat>, t: Lists)
    requires Threaded(ptrs, t)
    ensures |t.chains| == NLISTS
  {
    hide Linked, NoDup, Housed;
  }

  function Without(c: seq<nat>, k: nat): seq<nat>
    requires k < |c|
  {
    c[..k] + c[k + 1..]
  }

  ghost function Detached(t: Lists, l: nat, k: nat): Lists
    requires l < |t.chains| && k < |t.chains[l]|
  {
    Lists(t.chains[l := Without(t.chains[l], k)], t.home - {t.chains[l][k]})
  }

  ghost function Attached(t: Lists, l: nat, o: nat): Lists
    requires l < |t.chains|
  {
    Lists(t.chains[l := [o] + t.chains[l]], t.home[o := l])
  }

  lemma LinkedFrame(ptrs: map<nat, nat>, l: nat, c: seq<nat>, x: nat, v: nat)
    requires Linked(ptrs, l, c) && x != PTR_SZ * l && x !in c
    ensures Linked(ptrs[x := v], l, c)
  {
  }

  lemma UnlinkOne(ptrs: map<nat, nat>, l: nat, c: seq<nat>, k: nat)
    requires Linked(ptrs, l, c) && NoDup(c) && k < |c| && PTR_SZ * l !in c
    ensures Linked(ptrs[Node(l, c, k) := Succ(c, k + 1)], l, Without(c, k))
    ensures NoDup(Without(c, k))
  {
    var c', ptrs' := Without(c, k), ptrs[Node(l, c, k) := Succ(c, k + 1)];
    forall i, j | 0 <= i < |c'| && 0 <= j < |c'| ensures Differ(c', i, j) {
      assert Differ(c, if i < k then i else i + 1, if j < k then j else j + 1);
    }
    forall j | 0 <= j <= |c'|
      ensures Node(l, c', j) in ptrs' && ptrs'[Node(l, c', j)] == Succ(c', j)
    {
      if j < k {
        assert Node(l, c', j) == Node(l, c, j) && Succ(c', j) == Succ(c, j);
        assert j > 0 ==> Differ(c, j - 1, k - 1);
      } else if j == k {
        assert Node(l, c', j) == Node(l, c, j) && Succ(c', j) == Succ(c, j + 1);
      } else {
        assert Node(l, c', j) == Node(l, c, j + 1) && Succ(c', j) == Succ(c, j + 1);
        assert k > 0 ==> Differ(c, j, k - 1);
      }
    }
  }

  lemma LinkFront(ptrs: map<nat, nat>, l: nat, c: seq<nat>, o: nat)
    requires Linked(ptrs, l, c) && o !in c && PTR_SZ * l !in c && o != PTR_SZ * l
    requires o in ptrs && ptrs[o] == Succ(c, 0)
    ensures Linked(ptrs[PTR_SZ * l := o], l, [o] + c)
  {
    var c', ptrs' := [o] + c, ptrs[PTR_SZ * l := o];
    forall j | 0 <= j <= |c'|
      ensures Node(l, c', j) in ptrs' && ptrs'[Node(l, c', j)] == Succ(c', j)
    {
      if j > 1 {
        assert Node(l, c', j) == Node(l, c, j - 1) && Succ(c', j) == Succ(c, j - 1);
      }
    }
  }

  lemma MembersHome(ptrs: map<nat, nat>, t: Lists, l: nat)
    requires Threaded(ptrs, t) && l < NLISTS
    ensures forall o | o in t.chains[l] :: o >= BASE && o in t.home && t.home[o] == l
    ensures forall m | 0 <= m < NLISTS :: PTR_SZ * m !in t.chains[l]
  {
    forall o | o in t.chains[l]
      ensures o >= BASE && o in t.home && t.home[o] == l
    {
      assert o in t.home && t.home[o] == l;
      assert Housed(t, o);
    }
  }

  /** Removing the k-th record of list l takes one pointer write. */
  lemma DetachThreaded(ptrs: map<nat, nat>, t: Lists, l: nat, k: nat)
    requires Threaded(ptrs, t) && l < NLISTS && k < |t.chains[l]|
    ensures Threaded(ptrs[Node(l, t.chains[l], k) := Succ(t.chains[l], k + 1)], Detached(t, l, k))
  {
    var c := t.chains[l];
    var x, v := Node(l, c, k), Succ(c, k + 1);
    var t' := Detached(t, l, k);
    MembersHome(ptrs, t, l);
    UnlinkOne(ptrs, l, c, k);
    forall m | 0 <= m < NLISTS && m != l
      ensures Linked(ptrs[x := v], m, t.chains[m])
    {
      MembersHome(ptrs, t, m);
      if k > 0 { assert x in c && t.home[x] == l; }
      LinkedFrame(ptrs, m, t.chains[m], x, v);
    }
    forall o | o in t'.home
      ensures Housed(t', o)
    {
      assert Housed(t, o);
      if t.home[o] == l {
        WithoutKeeps(c, k, o);
      }
    }
    forall m, o | 0 <= m < NLISTS && o in t'.chains[m]
      ensures o in t'.home && t'.home[o] == m
    {
      if m == l {
        WithoutLacks(c, k, o);
      } else {
        assert o in t.chains[m];
        assert c[k] in c && t.home[c[k]] == l;
      }
    }
  }

  lemma WithoutKeeps(c: seq<nat>, k: nat, o: nat)
    requires k < |c| && o in c && o != c[k]
    ensures o in Without(c, k)
  {
    var i :| 0 <= i < |c| && c[i] == o;
    assert o == Without(c, k)[if i < k then i else i - 1];
  }

  lemma WithoutLacks(c: seq<nat>, k: nat, o: nat)
    requires k < |c| && NoDup(c) && o in Without(c, k)
    ensures o in c && o != c[k]
  {
    var i :| 0 <= i < |c| - 1 && Without(c, k)[i] == o;
    assert Differ(c, if i < k then i else i + 1, k);
  }

  lemma NoDupFront(c: seq<nat>, o: nat)
    requires NoDup(c) && o !in c
    ensures NoDup([o] + c)
  {
    forall i, j | 0 <= i <= |c| && 0 <= j <= |c| ensures Differ([o] + c, i, j) {
      if i > 0 && j > 0 {
        assert Differ(c, i - 1, j - 1);
      }
    }
  }

  /** A loose record whose pointer is the head of list l can be made its new head. */
  lemma AttachThreaded(ptrs: map<nat, nat>, t: Lists, l: nat, o: nat)
    requires Threaded(ptrs, t) && l < NLISTS
    requires o >= BASE && o !in t.home && o in ptrs && ptrs[o] == Succ(t.chains[l], 0)
    ensures Threaded(ptrs[PTR_SZ * l := o], Attached(t, l, o))
  {
    var c := t.chains[l];
    MembersHome(ptrs, t, l);
    LinkFront(ptrs, l, c, o);
    NoDupFront(c, o);
    var t' := Attached(t, l, o);
    forall p | p in t'.home
      ensures Housed(t', p)
    {
      if p == o {
        assert t'.chains[l][0] == o;
      } else {
        assert Housed(t, p);
        assert t.home[p] == l ==> p in t'.chains[l];
      }
    }
    forall m | 0 <= m < NLISTS && m != l
      ensures Linked(ptrs[PTR_SZ * l := o], m, t.chains[m])
    {
      MembersHome(ptrs, t, m);
      LinkedFrame(ptrs, m, t.chains[m], PTR_SZ * l, o);
    }
  }

  /** The pointer of a loose record is free to change. */
  lemma LooseThreaded(ptrs: map<nat, nat>, t: Lists, o: nat, v: nat)
    requires Threaded(ptrs, t) && o >= BASE && o !in t.home
    ensures Threaded(ptrs[o := v], t)
  {
    forall m | 0 <= m < NLISTS
      ensures Linked(ptrs[o := v], m, t.chains[m])
    {
      MembersHome(ptrs, t, m);
      LinkedFrame(ptrs, m, t.chains[m], o, v);
    }
  }

  /** The three pointer writes of _db_dodelete, in the order it makes them, move
      record k of list l to the front of the free list. */
  lemma MoveToFree(ptrs: map<nat, nat>, t: Lists, l: nat, k: nat)
    requires Threaded(ptrs, t) && 0 < l < NLISTS && k < |t.chains[l]|
    ensures var c, o := t.chains[l], t.chains[l][k];
            Threaded(ptrs[o := Succ(t.chains[0], 0)][0 := o][Node(l, c, k) := Succ(c, k + 1)],
                     Attached(Detached(t, l, k), 0, o))
  {
    var c, o := t.chains[l], t.chains[l][k];
    var x, v, w := Node(l, c, k), Succ(c, k + 1), Succ(t.chains[0], 0);
    MembersHome(ptrs, t, l);
    assert o in c && o >= BASE;
    DetachThreaded(ptrs, t, l, k);
    var ptrs1, t1 := ptrs[x := v], Detached(t, l, k);
    LooseThreaded(ptrs1, t1, o, w);
    AttachThreaded(ptrs1[o := w], t1, 0, o);
    assert k > 0 ==> Differ(c, k - 1, k) && x in c;
    assert x != o && x != 0;
    assert ptrs[o := w][0 := o][x := v] == ptrs1[o := w][0 := o];
  }
}
