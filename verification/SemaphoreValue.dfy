/**
  What sem_op does to the user's value [0] over a run: the value is the initial one and all the
  amounts since, and a death takes back the dead process's own amounts as far as zero.
 */
module SemaphoreValue {
  import opened Common
  import opened Semaphore

  /** Step a set the value, and to step i the set is neither removed nor set again. */
  ghost predicate Since(states: seq<State>, actions: seq<Action>, a: nat, i: nat) {
    && Path(states, actions) && |states| == |actions| + 1 && a < i <= |actions| && actions[a].SetVal0?
    && forall k | a < k < i :: !actions[k].RemoveSet? && !actions[k].SetVal0?
  }

  /** The sum of the amounts of the calls of sem_op between steps a and i. */
  function Total(actions: seq<Action>, a: nat, i: nat): int
    requires a < i <= |actions|
  {
    if i == a + 1 then 0
    else Total(actions, a, i - 1) + if actions[i - 1].SemOp? then actions[i - 1].amount else 0
  }

  function Amount(a: Action, q: Pid): int {
    if a.SemOp? && a.p == q then a.amount else 0
  }

  /** The sum of q's own amounts, from its last death on if it has died. */
  function Own(actions: seq<Action>, a: nat, i: nat, q: Pid): int
    requires a < i <= |actions|
  {
    if i == a + 1 || actions[i - 1] == Crash(q) then 0
    else Own(actions, a, i - 1, q) + Amount(actions[i - 1], q)
  }

  /** The value, call by call. */
  function Value(actions: seq<Action>, a: nat, i: nat): int
    requires a < i <= |actions| && actions[a].SetVal0?
  {
    if i == a + 1 then actions[a].initval
    else
      var v := Value(actions, a, i - 1);
      match actions[i - 1]
      case SemOp(_, amount) => v + amount
      case Crash(q) => if v < Own(actions, a, i - 1, q) then 0 else v - Own(actions, a, i - 1, q)
      case _ => v
  }

  /** The kernel's adjustment takes back exactly the process's own amounts. */
  predicate Adjusted(s: State, q: Pid, own: int) {
    if q in s.procs then s.procs[q].adj0 == -own else own == 0
  }

  lemma ValueStep(s: State, a: Action, s': State, v: int)
    requires Next(s, a, s') && s.sem.Some? && s.sem.value.v0 == v && !a.RemoveSet? && !a.SetVal0?
    ensures s'.sem.Some?
    ensures a.SemOp? ==> s'.sem.value.v0 == v + a.amount
    ensures a.Crash? ==> a.p in s.procs && s'.sem.value.v0 == Undone(v, s.procs[a.p].adj0)
    ensures !a.SemOp? && !a.Crash? ==> s'.sem.value.v0 == v
  {
  }

  lemma AdjustStep(s: State, a: Action, s': State, q: Pid, own: int)
    requires Next(s, a, s') && Adjusted(s, q, own) && !a.RemoveSet? && !a.SetVal0?
    ensures Adjusted(s', q, if a == Crash(q) then 0 else own + Amount(a, q))
  {
    hide Next;
    if a.SemOp? || a.Crash? || a.Spawn? {
      AdjustOwn(s, a, s', q, own);
    } else {
      AdjustSame(s, a, s', q);
    }
  }

  lemma AdjustOwn(s: State, a: Action, s': State, q: Pid, own: int)
    requires Next(s, a, s') && Adjusted(s, q, own) && (a.SemOp? || a.Crash? || a.Spawn?)
    ensures Adjusted(s', q, if a == Crash(q) then 0 else own + Amount(a, q))
  {
  }

  lemma AdjustSame(s: State, a: Action, s': State, q: Pid)
    requires Next(s, a, s') && !a.RemoveSet? && !a.SetVal0? && !(a.SemOp? || a.Crash? || a.Spawn?)
    ensures q in s'.procs <==> q in s.procs
    ensures q in s.procs ==> s'.procs[q].adj0 == s.procs[q].adj0
  {
  }

  lemma ValueSet(s: State, a: Action, s': State, q: Pid)
    requires Next(s, a, s') && a.SetVal0?
    ensures s'.sem.Some? && s'.sem.value.v0 == a.initval && Adjusted(s', q, 0)
  {
  }

  /** In every run: the user's value, and what each process would give back. */
  lemma {:induction false} ValueIs(states: seq<State>, actions: seq<Action>, a: nat, i: nat, q: Pid)
    requires Since(states, actions, a, i)
    ensures states[i].sem.Some? && states[i].sem.value.v0 == Value(actions, a, i)
    ensures Adjusted(states[i], q, Own(actions, a, i, q))
  {
    hide Next, Adjusted;
    if i == a + 1 {
      assert Next(states[a], actions[a], states[a + 1]);
      ValueSet(states[a], actions[a], states[i], q);
    } else {
      var act := actions[i - 1];
      assert Next(states[i - 1], actions[i - 1], states[i - 1 + 1]);
      ValueIs(states, actions, a, i - 1, q);
      ValueStep(states[i - 1], act, states[i], Value(actions, a, i - 1));
      AdjustStep(states[i - 1], act, states[i], q, Own(actions, a, i - 1, q));
      if act.Crash? {
        ValueIs(states, actions, a, i - 1, act.p);
        AdjustedBy(states[i - 1], act.p, Own(actions, a, i - 1, act.p));
      }
    }
  }

  lemma AdjustedBy(s: State, q: Pid, own: int)
    requires Adjusted(s, q, own) && q in s.procs
    ensures s.procs[q].adj0 == -own
  {
  }

  /** Without deaths the value is the initial one plus the sum of all amounts. */
  lemma {:induction false} ValueIsTotal(states: seq<State>, actions: seq<Action>, a: nat, i: nat)
    requires Since(states, actions, a, i) && forall k | a < k < i :: !actions[k].Crash?
    ensures states[i].sem.Some? && states[i].sem.value.v0 == actions[a].initval + Total(actions, a, i)
  {
    hide Next;
    ValueIs(states, actions, a, i, 0);
    TotalIs(actions, a, i);
  }

  lemma {:induction false} TotalIs(actions: seq<Action>, a: nat, i: nat)
    requires a < i <= |actions| && actions[a].SetVal0? && forall k | a < k < i :: !actions[k].Crash?
    ensures Value(actions, a, i) == actions[a].initval + Total(actions, a, i)
  {
    if i > a + 1 {
      TotalIs(actions, a, i - 1);
    }
  }

  /** The kernel lets a call of sem_op through now. */
  ghost predicate CanOp(s: State, p: Pid, amount: int) {
    exists s' :: Next(s, SemOp(p, amount), s')
  }

  /** A process attached to the set waits in sem_op exactly while the value would fall below zero. */
  lemma OpBlocks(states: seq<State>, actions: seq<Action>, a: nat, i: nat, p: Pid, amount: int)
    requires Since(states, actions, a, i) && Run(states, actions) && amount != 0
    requires p in states[i].procs && states[i].procs[p].pc.Idle? && p in states[i].att
    ensures CanOp(states[i], p, amount) <==> Value(actions, a, i) + amount >= 0
  {
    hide Inv, Path, Run, Next, CanOp, Adjusted, Mine, Own, Value;
    ValueIs(states, actions, a, i, p);
    RunInv(states, actions, i);
    AttachedMine(states[i], p);
    OpAllowed(states[i], p, amount);
  }

  lemma OpAllowed(s: State, p: Pid, amount: int)
    requires p in s.procs && s.procs[p].pc.Idle? && p in s.att && Mine(s, p) && amount != 0
    ensures CanOp(s, p, amount) <==> s.sem.value.v0 + amount >= 0
  {
    if s.sem.value.v0 + amount >= 0 {
      var s' := s.(sem := Some(s.sem.value.(v0 := s.sem.value.v0 + amount)),
                   procs := s.procs[p := s.procs[p].(adj0 := s.procs[p].adj0 - amount)]);
      assert Next(s, SemOp(p, amount), s');
    }
  }

  lemma AttachedMine(s: State, p: Pid)
    requires Inv(s) && p in s.procs && p in s.att
    ensures Mine(s, p)
  {
    assert ProcOk(s, p);
  }

  // ---- mutual exclusion -----------------------------------------------------------------------

  /** Every process goes down by one and up by one in turn, beginning afresh after a death. */
  ghost predicate Alternates(actions: seq<Action>, a: nat, i: nat)
    requires a < i <= |actions|
  {
    forall k | a < k < i && actions[k].SemOp? ::
      actions[k].amount == if Own(actions, a, k, actions[k].p) == 0 then -1 else 1
  }

  /** The process stands between its two calls. */
  ghost predicate Between(actions: seq<Action>, a: nat, i: nat, q: Pid)
    requires a < i <= |actions|
  {
    Own(actions, a, i, q) == -1
  }

  /** The value is 1 and nobody is between its calls, or it is 0 and p is, alone. */
  ghost predicate OneOrNone(actions: seq<Action>, a: nat, i: nat, p: Option<Pid>)
    requires a < i <= |actions| && actions[a].SetVal0?
  {
    && Value(actions, a, i) == (if p.Some? then 0 else 1)
    && forall q: Pid :: Own(actions, a, i, q) == if p.Some? && p.value == q then -1 else 0
  }

  /** One more step of some process, after which the value is no less than zero. */
  lemma OneStep(actions: seq<Action>, a: nat, i: nat, p: Option<Pid>) returns (p': Option<Pid>)
    requires a + 1 < i <= |actions| && actions[a].SetVal0? && OneOrNone(actions, a, i - 1, p)
    requires var act := actions[i - 1];
      act.SemOp? ==> act.amount == if Own(actions, a, i - 1, act.p) == 0 then -1 else 1
    requires Value(actions, a, i) >= 0
    ensures OneOrNone(actions, a, i, p')
  {
    var act := actions[i - 1];
    p' := p;
    if act.SemOp? {
      p' := if p.None? then Some(act.p) else None;
    } else if act.Crash? && p == Some(act.p) {
      p' := None;
    }
    forall q: Pid ensures Own(actions, a, i, q) == if p'.Some? && p'.value == q then -1 else 0 {
      assert Own(actions, a, i - 1, q) == if p.Some? && p.value == q then -1 else 0;
    }
  }

  lemma {:induction false} AtMostOne(states: seq<State>, actions: seq<Action>, a: nat, i: nat) returns (p: Option<Pid>)
    requires Since(states, actions, a, i) && actions[a].initval == 1 && Alternates(actions, a, i)
    ensures OneOrNone(actions, a, i, p)
  {
    hide Path, OneOrNone, Value, Own;
    if i == a + 1 {
      p := None;
      AtFirst(actions, a);
    } else {
      SinceBefore(states, actions, a, i);
      p := AtMostOne(states, actions, a, i - 1);
      NeverNegative(states, actions, a, i);
      p := OneStep(actions, a, i, p);
    }
  }

  lemma AtFirst(actions: seq<Action>, a: nat)
    requires a + 1 <= |actions| && actions[a].SetVal0? && actions[a].initval == 1
    ensures OneOrNone(actions, a, a + 1, None)
  {
  }

  lemma NeverNegative(states: seq<State>, actions: seq<Action>, a: nat, i: nat)
    requires Since(states, actions, a, i)
    ensures Value(actions, a, i) >= 0
  {
    hide Path, Value, Own;
    ValueIs(states, actions, a, i, 0);
    assert states[i].sem.value.v0 >= 0;
  }

  lemma SinceBefore(states: seq<State>, actions: seq<Action>, a: nat, i: nat)
    requires Since(states, actions, a, i) && i > a + 1
    ensures Since(states, actions, a, i - 1)
  {
    hide Path;
  }

  /** A semaphore of initial value 1 admits at most one process at a time, whoever dies when. */
  lemma MutualExclusion(states: seq<State>, actions: seq<Action>, a: nat, i: nat, p: Pid, q: Pid)
    requires Since(states, actions, a, i) && actions[a].initval == 1 && Alternates(actions, a, i)
    requires Between(actions, a, i, p) && Between(actions, a, i, q)
    ensures p == q
  {
    hide Since, Alternates;
    var holder := AtMostOne(states, actions, a, i);
  }
}
