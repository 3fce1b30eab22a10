/**
  The semaphore-synchronised bounded buffer of conc/sbuf.c, as interleaved steps
  of any number of inserting and removing threads.  A step is one P or V, or the
  one statement between P(mutex) and V(mutex).
 */
module BoundedBuffer {
  import opened Common

  type Tid = nat

  datatype Pc =
    | Idle
    // sbuf_insert
    | InsLock(item: int)     // has passed P(slots)
    | InsWrite(item: int)    // has passed P(mutex)
    | InsUnlock(item: int, k: nat)    // has written
    | InsAnnounce(item: int, k: nat)  // has passed V(mutex)
    // sbuf_remove
    | RemLock                // has passed P(items)
    | RemRead                // has passed P(mutex)
    | RemUnlock(item: int, k: nat)    // has read
    | RemAnnounce(item: int, k: nat)  // has passed V(mutex)

  /** `inserted` and `removed` list the items in the order of `rear` and `front`;
      the four sets of threads tell which part of an operation is in flight; `holder`
      has passed P(mutex).  They are history variables, and so are the item and its number k
      once it has been written, and k once it has been read. */
  datatype State = State(
    n: nat, buf: seq<int>, front: nat, rear: nat, mutex: nat, slots: nat, items: nat, pcs: map<Tid, Pc>,
    inserted: seq<int>, removed: seq<int>,
    filling: set<Tid>, filled: set<Tid>, taking: set<Tid>, taken: set<Tid>, holder: Option<Tid>)

  ghost predicate Initial(s: State) {
    && |s.buf| == s.n && s.front == s.rear == 0 && s.mutex == 1 && s.slots == s.n && s.items == 0
    && s.inserted == [] && s.removed == [] && s.filling == s.filled == s.taking == s.taken == {} && s.holder == None
    && forall t | t in s.pcs :: s.pcs[t] == Idle
  }

  function Go(s: State, t: Tid, pc: Pc): State {
    s.(pcs := s.pcs[t := pc])
  }

  /** One step of thread t; at Idle it may start either operation. */
  ghost predicate Step(s: State, t: Tid, s': State)
    requires t in s.pcs
  {
    match s.pcs[t]
    case Idle =>
      || (s.slots > 0 && exists item ::
        s' == Go(s, t, InsLock(item)).(slots := s.slots - 1, filling := s.filling + {t}))
      || (s.items > 0 && s' == Go(s, t, RemLock).(items := s.items - 1, taking := s.taking + {t}))
    case InsLock(item) => s.mutex > 0 && s' == Go(s, t, InsWrite(item)).(mutex := s.mutex - 1, holder := Some(t))
    case InsWrite(item) =>
      && s.n > 0 && |s.buf| == s.n
      && s' == Go(s, t, InsUnlock(item, s.rear)).(
                 rear := s.rear + 1, buf := s.buf[(s.rear + 1) % s.n := item],
                 inserted := s.inserted + [item], filling := s.filling - {t}, filled := s.filled + {t})
    case InsUnlock(item, k) => s' == Go(s, t, InsAnnounce(item, k)).(mutex := s.mutex + 1, holder := None)
    case InsAnnounce(_, _) => s' == Go(s, t, Idle).(items := s.items + 1, filled := s.filled - {t})
    case RemLock => s.mutex > 0 && s' == Go(s, t, RemRead).(mutex := s.mutex - 1, holder := Some(t))
    case RemRead =>
      && s.n > 0 && |s.buf| == s.n
      && var item := s.buf[(s.front + 1) % s.n];
         s' == Go(s, t, RemUnlock(item, s.front)).(
                 front := s.front + 1, removed := s.removed + [item], taking := s.taking - {t}, taken := s.taken + {t})
    case RemUnlock(item, k) => s' == Go(s, t, RemAnnounce(item, k)).(mutex := s.mutex + 1, holder := None)
    case RemAnnounce(_, _) => s' == Go(s, t, Idle).(slots := s.slots + 1, taken := s.taken - {t})
  }

  predicate InSection(pc: Pc) {
    pc.InsWrite? || pc.InsUnlock? || pc.RemRead? || pc.RemUnlock?
  }

  ghost predicate ThreadOk(s: State, t: Tid) {
    && t in s.pcs
    && var pc := s.pcs[t];
       && (s.holder == Some(t) <==> InSection(pc))
       && (t in s.filling <==> pc.InsLock? || pc.InsWrite?)
       && (t in s.filled <==> pc.InsUnlock? || pc.InsAnnounce?)
       && (t in s.taking <==> pc.RemLock? || pc.RemRead?)
       && (t in s.taken <==> pc.RemUnlock? || pc.RemAnnounce?)
  }

  /** The slots between front and rear hold the items not yet removed. */
  ghost predicate Holds(s: State, k: nat) {
    s.front < k <= s.rear && s.n > 0 && |s.buf| == s.n && k <= |s.inserted| ==> s.buf[k % s.n] == s.inserted[k - 1]
  }

  ghost predicate Inv(s: State) {
    && |s.buf| == s.n
    && (forall t {:trigger ThreadOk(s, t)} | t in s.pcs :: ThreadOk(s, t))
    && (forall t | t in s.filling + s.filled + s.taking + s.taken :: t in s.pcs)
    && s.mutex == (if s.holder.Some? then 0 else 1)
    && s.slots + |s.filling| + |s.filled| + s.items + |s.taking| + |s.taken| == s.n
    && s.rear == s.front + s.items + |s.filled| + |s.taking|
    && |s.inserted| == s.rear && |s.removed| == s.front && s.removed <= s.inserted
    && (forall k {:trigger Holds(s, k)} | s.front < k <= s.rear :: Holds(s, k))
  }

  lemma Multiple(k: int, n: int)
    requires n > 0
    ensures k >= 1 ==> k * n >= n
    ensures k <= -1 ==> k * n <= -n
  {
    if k >= 1 {
      assert k * n == (k - 1) * n + n;
    } else if k <= -1 {
      assert k * n == (k + 1) * n - n;
    }
  }

  lemma ModDistinct(a: nat, b: nat, n: nat)
    requires n > 0 && a < b < a + n
    ensures a % n != b % n
  {
    var q, p := a / n, b / n;
    assert a == q * n + a % n && b == p * n + b % n;
    if a % n == b % n {
      assert (p - q) * n == p * n - q * n;
      Multiple(p - q, n);
    }
  }

  /** Only thread t changes its place in the history sets. */
  ghost predicate Alone(s: State, t: Tid, s': State) {
    && (forall u | u != t :: u in s'.filling <==> u in s.filling)
    && (forall u | u != t :: u in s'.filled <==> u in s.filled)
    && (forall u | u != t :: u in s'.taking <==> u in s.taking)
    && (forall u | u != t :: u in s'.taken <==> u in s.taken)
    && s.holder in {None, Some(t), s'.holder} && s'.holder in {None, Some(t), s.holder}
  }

  lemma ThreadsKeep(s: State, t: Tid, s': State)
    requires t in s.pcs && t in s'.pcs && s'.pcs == s.pcs[t := s'.pcs[t]] && Alone(s, t, s') && ThreadOk(s', t)
    requires forall u {:trigger ThreadOk(s, u)} | u in s.pcs :: ThreadOk(s, u)
    ensures forall u {:trigger ThreadOk(s', u)} | u in s'.pcs :: ThreadOk(s', u)
  {
    forall u | u in s'.pcs ensures ThreadOk(s', u) {
      if u != t {
        assert ThreadOk(s, u);
      }
    }
  }

  lemma IdleInv(s: State, t: Tid, s': State)
    requires Inv(s) && t in s.pcs && Step(s, t, s') && s.pcs[t].Idle?
    ensures Inv(s')
  {
    assert ThreadOk(s, t);
    ThreadsKeep(s, t, s');
    forall k | s'.front < k <= s'.rear ensures Holds(s', k) {
      assert Holds(s, k);
    }
  }

  lemma LockInv(s: State, t: Tid, s': State)
    requires Inv(s) && t in s.pcs && Step(s, t, s') && (s.pcs[t].InsLock? || s.pcs[t].RemLock?)
    ensures Inv(s')
  {
    assert ThreadOk(s, t);
    ThreadsKeep(s, t, s');
    forall k | s'.front < k <= s'.rear ensures Holds(s', k) {
      assert Holds(s, k);
    }
  }

  lemma UnlockInv(s: State, t: Tid, s': State)
    requires Inv(s) && t in s.pcs && Step(s, t, s') && (s.pcs[t].InsUnlock? || s.pcs[t].RemUnlock?)
    ensures Inv(s')
  {
    assert ThreadOk(s, t);
    ThreadsKeep(s, t, s');
    forall k | s'.front < k <= s'.rear ensures Holds(s', k) {
      assert Holds(s, k);
    }
  }

  lemma InsAnnounceInv(s: State, t: Tid, s': State)
    requires Inv(s) && t in s.pcs && Step(s, t, s') && s.pcs[t].InsAnnounce?
    ensures Inv(s')
  {
    assert ThreadOk(s, t);
    ThreadsKeep(s, t, s');
    forall k | s'.front < k <= s'.rear ensures Holds(s', k) {
      assert Holds(s, k);
    }
  }

  lemma RemAnnounceInv(s: State, t: Tid, s': State)
    requires Inv(s) && t in s.pcs && Step(s, t, s') && s.pcs[t].RemAnnounce?
    ensures Inv(s')
  {
    assert ThreadOk(s, t);
    ThreadsKeep(s, t, s');
    forall k | s'.front < k <= s'.rear ensures Holds(s', k) {
      assert Holds(s, k);
    }
  }

  /** A write never hits a slot that holds an unread item. */
  lemma WriteMisses(s: State, item: int, k: nat, s': State)
    requires s.n > 0 && |s.buf| == s.n && s.rear < s.front + s.n && |s.inserted| == s.rear && s.front < k <= s.rear + 1
    requires s'.n == s.n && s'.front == s.front && s'.rear == s.rear + 1 && s'.inserted == s.inserted + [item]
    requires s'.buf == s.buf[(s.rear + 1) % s.n := item] && (k <= s.rear ==> Holds(s, k))
    ensures Holds(s', k)
  {
    if k <= s.rear {
      ModDistinct(k, s.rear + 1, s.n);
    }
  }

  lemma WriteInv(s: State, t: Tid, s': State)
    requires Inv(s) && t in s.pcs && Step(s, t, s') && s.pcs[t].InsWrite?
    ensures Inv(s')
  {
    assert ThreadOk(s, t);
    ThreadsKeep(s, t, s');
    assert |s.filling - {t}| == |s.filling| - 1;
    forall k | s'.front < k <= s'.rear ensures Holds(s', k) {
      assert k <= s.rear ==> Holds(s, k);
      WriteMisses(s, s.pcs[t].item, k, s');
    }
  }

  lemma ReadInv(s: State, t: Tid, s': State)
    requires Inv(s) && t in s.pcs && Step(s, t, s') && s.pcs[t].RemRead?
    ensures Inv(s')
  {
    assert ThreadOk(s, t);
    assert |s.taking - {t}| == |s.taking| - 1;
    assert Holds(s, s.front + 1);
    ThreadsKeep(s, t, s');
    forall k | s'.front < k <= s'.rear ensures Holds(s', k) {
      assert Holds(s, k);
    }
  }

  lemma StepInv(s: State, t: Tid, s': State)
    requires Inv(s) && t in s.pcs && Step(s, t, s')
    ensures Inv(s')
  {
    match s.pcs[t]
    case Idle => IdleInv(s, t, s');
    case InsLock(_) | RemLock => LockInv(s, t, s');
    case InsWrite(_) => WriteInv(s, t, s');
    case RemRead => ReadInv(s, t, s');
    case InsUnlock(_, _) | RemUnlock(_, _) => UnlockInv(s, t, s');
    case InsAnnounce(_, _) => InsAnnounceInv(s, t, s');
    case RemAnnounce(_, _) => RemAnnounceInv(s, t, s');
  }

  lemma InitialInv(s: State)
    requires Initial(s)
    ensures Inv(s)
  {
    forall t | t in s.pcs ensures ThreadOk(s, t) {
      assert s.pcs[t] == Idle;
    }
  }

  ghost predicate Next(s: State, s': State) {
    exists t :: t in s.pcs && Step(s, t, s')
  }

  ghost predicate Run(run: seq<State>) {
    && |run| > 0 && Initial(run[0])
    && forall i | 0 <= i < |run| - 1 :: Next(run[i], run[i + 1])
  }

  lemma {:induction false} RunInv(run: seq<State>, i: nat)
    requires Run(run) && i < |run|
    ensures Inv(run[i])
  {
    if i == 0 {
      InitialInv(run[0]);
    } else {
      RunInv(run, i - 1);
      assert Next(run[i - 1], run[i - 1 + 1]);
      var t :| t in run[i - 1].pcs && Step(run[i - 1], t, run[i]);
      StepInv(run[i - 1], t, run[i]);
    }
  }

  /** In every interleaving: free slots, items and operations in flight add up to n;
      the buffer never holds more than n items; what was removed is the beginning of
      what was inserted, and the rest stands unharmed in the buffer. */
  lemma BufferIsFifo(run: seq<State>, i: nat)
    requires Run(run) && i < |run|
    ensures var s := run[i];
            && s.slots + s.items + |s.filling| + |s.filled| + |s.taking| + |s.taken| == s.n == |s.buf|
            && 0 <= s.rear - s.front <= s.n
            && |s.inserted| == s.rear && s.removed == s.inserted[..s.front]
            && (forall k | s.front < k <= s.rear :: s.buf[k % s.n] == s.inserted[k - 1])
  {
    var s := run[i];
    RunInv(run, i);
    forall k | s.front < k <= s.rear ensures s.buf[k % s.n] == s.inserted[k - 1] {
      assert Holds(s, k);
    }
  }

  // ---- what goes in and comes out ---------------------------------------------------------

  /** The thread's item is the one with its number. */
  ghost predicate ItemOk(s: State, t: Tid) {
    t in s.pcs ==>
      match s.pcs[t]
      case InsUnlock(item, k) => k < |s.inserted| && s.inserted[k] == item
      case InsAnnounce(item, k) => k < |s.inserted| && s.inserted[k] == item
      case RemUnlock(item, k) => k < |s.removed| && s.removed[k] == item
      case RemAnnounce(item, k) => k < |s.removed| && s.removed[k] == item
      case _ => true
  }

  predicate Inserted(pc: Pc) {
    pc.InsUnlock? || pc.InsAnnounce?
  }

  predicate Removed(pc: Pc) {
    pc.RemUnlock? || pc.RemAnnounce?
  }

  /** No two threads have the same number. */
  ghost predicate NumbersDiffer(s: State, t: Tid, u: Tid) {
    t in s.pcs && u in s.pcs && t != u ==>
      && (Inserted(s.pcs[t]) && Inserted(s.pcs[u]) ==> s.pcs[t].k != s.pcs[u].k)
      && (Removed(s.pcs[t]) && Removed(s.pcs[u]) ==> s.pcs[t].k != s.pcs[u].k)
  }

  ghost predicate Items(s: State) {
    && (forall t {:trigger ItemOk(s, t)} | t in s.pcs :: ItemOk(s, t))
    && (forall t, u {:trigger NumbersDiffer(s, t, u)} | t in s.pcs && u in s.pcs :: NumbersDiffer(s, t, u))
  }

  lemma SectionItem(s: State, t: Tid, s': State)
    requires Inv(s) && t in s.pcs && Step(s, t, s') && (s.pcs[t].InsWrite? || s.pcs[t].RemRead?)
    ensures ItemOk(s', t) && s.inserted <= s'.inserted && s.removed <= s'.removed
    ensures s'.pcs == s.pcs[t := s'.pcs[t]] && t in s'.pcs
    ensures Inserted(s'.pcs[t]) ==> s'.pcs[t].k == |s.inserted|
    ensures Removed(s'.pcs[t]) ==> s'.pcs[t].k == |s.removed|
  {
  }

  lemma OtherItem(s: State, t: Tid, s': State)
    requires t in s.pcs && Step(s, t, s') && !s.pcs[t].InsWrite? && !s.pcs[t].RemRead? && ItemOk(s, t)
    ensures ItemOk(s', t) && s'.inserted == s.inserted && s'.removed == s.removed
    ensures s'.pcs == s.pcs[t := s'.pcs[t]] && t in s'.pcs
    ensures Inserted(s'.pcs[t]) ==> Inserted(s.pcs[t]) && s'.pcs[t].k == s.pcs[t].k
    ensures Removed(s'.pcs[t]) ==> Removed(s.pcs[t]) && s'.pcs[t].k == s.pcs[t].k
  {
  }

  lemma ItemStays(s: State, s': State, u: Tid)
    requires ItemOk(s, u) && u in s.pcs && u in s'.pcs && s'.pcs[u] == s.pcs[u]
    requires s.inserted <= s'.inserted && s.removed <= s'.removed
    ensures ItemOk(s', u)
  {
  }

  /** An older number is lower than the next one. */
  lemma NumberBelow(s: State, u: Tid)
    requires ItemOk(s, u) && u in s.pcs
    ensures Inserted(s.pcs[u]) ==> s.pcs[u].k < |s.inserted|
    ensures Removed(s.pcs[u]) ==> s.pcs[u].k < |s.removed|
  {
  }

  lemma ItemsStep(s: State, t: Tid, s': State)
    requires Inv(s) && Items(s) && t in s.pcs && Step(s, t, s')
    ensures Items(s')
  {
    hide Inv, ItemOk, Step;
    assert ItemOk(s, t);
    if s.pcs[t].InsWrite? || s.pcs[t].RemRead? {
      SectionItem(s, t, s');
    } else {
      OtherItem(s, t, s');
    }
    forall u | u in s'.pcs ensures ItemOk(s', u) {
      if u != t {
        assert ItemOk(s, u);
        ItemStays(s, s', u);
      }
    }
    forall u, v | u in s'.pcs && v in s'.pcs ensures NumbersDiffer(s', u, v) {
      assert NumbersDiffer(s, u, v);
      assert ItemOk(s, u) && ItemOk(s, v);
      NumberBelow(s, u);
      NumberBelow(s, v);
    }
  }

  lemma {:induction false} RunItems(run: seq<State>, i: nat)
    requires Run(run) && i < |run|
    ensures Items(run[i])
  {
    hide Inv, ItemOk, Step, NumbersDiffer;
    if i == 0 {
      NoItems(run[0]);
    } else {
      RunItems(run, i - 1);
      RunInv(run, i - 1);
      assert Next(run[i - 1], run[i - 1 + 1]);
      var t :| t in run[i - 1].pcs && Step(run[i - 1], t, run[i]);
      ItemsStep(run[i - 1], t, run[i]);
    }
  }

  lemma NoItems(s: State)
    requires Initial(s)
    ensures Items(s)
  {
    forall t | t in s.pcs ensures ItemOk(s, t) {
      assert s.pcs[t] == Idle;
    }
  }

  /** What sbuf_remove is about to return is the item inserted with its number, and no other
      thread is about to return that one. */
  lemma ReturnsInserted(run: seq<State>, i: nat, t: Tid)
    requires Run(run) && i < |run| && t in run[i].pcs && Removed(run[i].pcs[t])
    ensures var s, pc := run[i], run[i].pcs[t];
      && pc.k < s.front <= |s.inserted| && pc.item == s.inserted[pc.k]
      && forall u | u in s.pcs && u != t && Removed(s.pcs[u]) :: s.pcs[u].k != pc.k
  {
    hide Run, Step;
    RunInv(run, i);
    RunItems(run, i);
    assert ItemOk(run[i], t);
    forall u | u in run[i].pcs && u != t && Removed(run[i].pcs[u]) ensures run[i].pcs[u].k != run[i].pcs[t].k {
      assert NumbersDiffer(run[i], t, u);
    }
  }

  /** The item with which sbuf_insert was called. */
  function ItemOf(pc: Pc): Option<int> {
    match pc
    case InsLock(item) => Some(item)
    case InsWrite(item) => Some(item)
    case InsUnlock(item, _) => Some(item)
    case InsAnnounce(item, _) => Some(item)
    case _ => None
  }

  lemma ItemCarried(s: State, t: Tid, s': State, u: Tid)
    requires t in s.pcs && Step(s, t, s') && u in s.pcs && ItemOf(s.pcs[u]).Some?
    ensures u in s'.pcs && (s'.pcs[u] != Idle ==> ItemOf(s'.pcs[u]) == ItemOf(s.pcs[u]))
  {
  }

  lemma {:induction false} ItemKept(run: seq<State>, i: nat, j: nat, t: Tid)
    requires Run(run) && i <= j < |run| && t in run[i].pcs && ItemOf(run[i].pcs[t]).Some?
    requires forall m | i <= m <= j :: t in run[m].pcs && run[m].pcs[t] != Idle
    ensures ItemOf(run[j].pcs[t]) == ItemOf(run[i].pcs[t])
  {
    hide Step, ItemOf;
    if i < j {
      ItemKept(run, i, j - 1, t);
      assert Next(run[j - 1], run[j - 1 + 1]);
      var u :| u in run[j - 1].pcs && Step(run[j - 1], u, run[j]);
      ItemCarried(run[j - 1], u, run[j], t);
    }
  }

  /** A call of sbuf_insert, from its P(slots) to its end, inserts the item it was called with. */
  lemma InsertsItem(run: seq<State>, i: nat, j: nat, t: Tid, item: int)
    requires Run(run) && i <= j < |run| && t in run[i].pcs && run[i].pcs[t] == InsLock(item)
    requires forall m | i <= m <= j :: t in run[m].pcs && run[m].pcs[t] != Idle
    requires Inserted(run[j].pcs[t])
    ensures run[j].pcs[t].k < |run[j].inserted| && run[j].inserted[run[j].pcs[t].k] == item
  {
    hide Step;
    ItemKept(run, i, j, t);
    RunItems(run, j);
    assert ItemOk(run[j], t);
  }

  // ---- progress ---------------------------------------------------------------------------

  ghost predicate CanStep(s: State, t: Tid) {
    t in s.pcs && exists s' :: Step(s, t, s')
  }

  /** P(slots) or P(items) at the start of an operation lets the thread through. */
  ghost predicate CanInsert(s: State, t: Tid) {
    t in s.pcs && exists s' :: Step(s, t, s') && t in s'.pcs && s'.pcs[t].InsLock?
  }

  ghost predicate CanRemove(s: State, t: Tid) {
    t in s.pcs && exists s' :: Step(s, t, s') && t in s'.pcs && s'.pcs[t].RemLock?
  }

  /** A thread inside an operation divides by n only when n is positive. */
  lemma PositiveSize(run: seq<State>, i: nat, t: Tid)
    requires Run(run) && i < |run| && t in run[i].pcs && !run[i].pcs[t].Idle?
    ensures run[i].n > 0
  {
    RunInv(run, i);
    Counted(run[i], t);
  }

  lemma Counted(s: State, t: Tid)
    requires Inv(s) && t in s.pcs && !s.pcs[t].Idle?
    ensures s.n > 0
  {
    assert ThreadOk(s, t);
    assert t in s.filling || t in s.filled || t in s.taking || t in s.taken;
    assert s.filling + s.filled + s.taking + s.taken != {};
  }

  /** A thread at Idle is blocked exactly when there is no slot to fill, or no item to take. */
  lemma BlockedIff(s: State, t: Tid)
    requires t in s.pcs && s.pcs[t].Idle?
    ensures CanInsert(s, t) <==> s.slots > 0
    ensures CanRemove(s, t) <==> s.items > 0
  {
    if s.slots > 0 {
      var s' := Go(s, t, InsLock(0)).(slots := s.slots - 1, filling := s.filling + {t});
      assert Step(s, t, s');
    }
    if s.items > 0 {
      var s' := Go(s, t, RemLock).(items := s.items - 1, taking := s.taking + {t});
      assert Step(s, t, s');
    }
  }

  /** A thread that waits for no semaphore goes on. */
  lemma GoesOn(s: State, t: Tid)
    requires Inv(s) && t in s.pcs && !s.pcs[t].Idle? && (s.pcs[t].InsLock? || s.pcs[t].RemLock? ==> s.mutex > 0)
    ensures CanStep(s, t)
  {
    Counted(s, t);
    match s.pcs[t]
    case InsLock(item) => assert Step(s, t, Go(s, t, InsWrite(item)).(mutex := s.mutex - 1, holder := Some(t)));
    case InsWrite(item) =>
      var s' := Go(s, t, InsUnlock(item, s.rear)).(
        rear := s.rear + 1, buf := s.buf[(s.rear + 1) % s.n := item],
        inserted := s.inserted + [item], filling := s.filling - {t}, filled := s.filled + {t});
      assert Step(s, t, s');
    case InsUnlock(item, k) => assert Step(s, t, Go(s, t, InsAnnounce(item, k)).(mutex := s.mutex + 1, holder := None));
    case InsAnnounce(_, _) => assert Step(s, t, Go(s, t, Idle).(items := s.items + 1, filled := s.filled - {t}));
    case RemLock => assert Step(s, t, Go(s, t, RemRead).(mutex := s.mutex - 1, holder := Some(t)));
    case RemRead =>
      var item := s.buf[(s.front + 1) % s.n];
      var s' := Go(s, t, RemUnlock(item, s.front)).(
        front := s.front + 1, removed := s.removed + [item], taking := s.taking - {t}, taken := s.taken + {t});
      assert Step(s, t, s');
    case RemUnlock(item, k) =>
      assert Step(s, t, Go(s, t, RemAnnounce(item, k)).(mutex := s.mutex + 1, holder := None));
    case RemAnnounce(_, _) => assert Step(s, t, Go(s, t, Idle).(slots := s.slots + 1, taken := s.taken - {t}));
  }

  /** Whoever has passed P(mutex) can go on, up to V(mutex). */
  lemma HolderSteps(s: State)
    requires Inv(s) && s.holder.Some? && s.holder.value in s.pcs
    ensures CanStep(s, s.holder.value)
  {
    assert ThreadOk(s, s.holder.value);
    GoesOn(s, s.holder.value);
  }

  /** The holder of the mutex is one of the threads. */
  ghost predicate Owned(s: State) {
    s.holder.Some? ==> s.holder.value in s.pcs
  }

  lemma {:induction false} RunOwned(run: seq<State>, i: nat)
    requires Run(run) && i < |run|
    ensures Owned(run[i])
  {
    if i > 0 {
      RunOwned(run, i - 1);
      assert Next(run[i - 1], run[i - 1 + 1]);
    }
  }

  /** In every run, a thread inside an operation can go on, or the holder of the mutex it waits for can. */
  lemma NeverStuck(run: seq<State>, i: nat, t: Tid)
    requires Run(run) && i < |run| && t in run[i].pcs && !run[i].pcs[t].Idle?
    ensures CanStep(run[i], t) || (run[i].holder.Some? && CanStep(run[i], run[i].holder.value))
  {
    hide Step;
    var s := run[i];
    RunInv(run, i);
    RunOwned(run, i);
    if s.holder.Some? {
      HolderSteps(s);
    } else {
      GoesOn(s, t);
    }
  }

  /** And a buffer of positive size always lets some thread step. */
  lemma SomeoneCanStep(run: seq<State>, i: nat) returns (t: Tid)
    requires Run(run) && i < |run| && run[i].n > 0 && run[i].pcs != map[]
    ensures CanStep(run[i], t)
  {
    hide Step;
    var s := run[i];
    t :| t in s.pcs;
    if u :| u in s.pcs && !s.pcs[u].Idle? {
      NeverStuck(run, i, u);
      t := if CanStep(s, u) then u else s.holder.value;
    } else {
      RunInv(run, i);
      AllIdle(s);
      BlockedIff(s, t);
    }
  }

  lemma AllIdle(s: State)
    requires Inv(s) && forall t | t in s.pcs :: s.pcs[t].Idle?
    ensures s.slots + s.items == s.n
  {
    forall t | t in s.pcs ensures t !in s.filling + s.filled + s.taking + s.taken {
      assert ThreadOk(s, t);
    }
    assert s.filling == {} && s.filled == {} && s.taking == {} && s.taken == {};
  }
}
