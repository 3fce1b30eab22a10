/**
  What callers of the database see, told by the calls and their answers alone: a key has the
  data of the last db_store that returned 0 for it, until a db_delete returns 0 for it.
 */
module DbLaws {
  import opened Common
  import opened CStrings
  import opened DbSpec

  /** The call has changed what the key has. */
  predicate Changes(op: Op, reply: Reply, key: Bytes) {
    op.key == key && !op.FetchOp? && reply == Code(0)
  }

  /** At call m the key got these data, and no call before the n-th has changed that. */
  ghost predicate HasSince(ops: seq<Op>, replies: seq<Reply>, m: nat, n: nat, key: Bytes, data: Bytes) {
    && m < n <= |ops| && n <= |replies|
    && ops[m].StoreOp? && ops[m].key == key && ops[m].data == data && replies[m] == Code(0)
    && forall l | m < l < n :: !Changes(ops[l], replies[l], key)
  }

  /** After n calls the key has these data. */
  ghost predicate Remembers(ops: seq<Op>, replies: seq<Reply>, n: nat, key: Bytes, data: Bytes) {
    exists m: nat :: HasSince(ops, replies, m, n, key, data)
  }

  ghost predicate Present(ops: seq<Op>, replies: seq<Reply>, n: nat, key: Bytes) {
    exists data :: Remembers(ops, replies, n, key, data)
  }

  /** The n-th answer, from the calls before it: the flags are 1 to insert, 2 to replace, 3 to store. */
  ghost predicate Answers(ops: seq<Op>, replies: seq<Reply>, n: nat) {
    && n < |ops| && n < |replies|
    && match ops[n]
       case FetchOp(key) =>
         replies[n].Text? && forall data :: replies[n].text == Some(data) <==> Remembers(ops, replies, n, key, data)
       case DeleteOp(key) => replies[n] == Code(if Present(ops, replies, n, key) then 0 else -1)
       case StoreOp(key, data, flag) =>
         replies[n] ==
         if flag == 1 then Code(if Present(ops, replies, n, key) then 1 else 0)
         else if flag == 2 then Code(if Present(ops, replies, n, key) then 0 else -1)
         else Code(if flag == 3 then 0 else -1)
  }

  /** The map is what the calls so far tell. */
  ghost predicate Tells(ops: seq<Op>, replies: seq<Reply>, n: nat, d: Dict) {
    forall key, data :: Remembers(ops, replies, n, key, data) <==> key in d && d[key] == data
  }

  lemma HasStep(ops: seq<Op>, replies: seq<Reply>, n: nat, key: Bytes, data: Bytes)
    requires n < |ops| && n < |replies|
    ensures Remembers(ops, replies, n + 1, key, data) <==>
      if Changes(ops[n], replies[n], key) then ops[n].StoreOp? && ops[n].data == data
      else Remembers(ops, replies, n, key, data)
  {
    if Changes(ops[n], replies[n], key) {
      if ops[n].StoreOp? && ops[n].data == data {
        assert HasSince(ops, replies, n, n + 1, key, data);
      }
    } else if Remembers(ops, replies, n, key, data) {
      var m: nat :| HasSince(ops, replies, m, n, key, data);
      assert HasSince(ops, replies, m, n + 1, key, data);
    }
    if Remembers(ops, replies, n + 1, key, data) {
      var m: nat :| HasSince(ops, replies, m, n + 1, key, data);
      if m < n {
        assert HasSince(ops, replies, m, n, key, data);
      }
    }
  }

  /** Only the first n calls and answers matter. */
  lemma HasPrefix(ops: seq<Op>, replies: seq<Reply>, ops': seq<Op>, replies': seq<Reply>,
                  n: nat, key: Bytes, data: Bytes)
    requires n <= |ops| && n <= |replies| && n <= |ops'| && n <= |replies'|
    requires ops'[..n] == ops[..n] && replies'[..n] == replies[..n]
    ensures Remembers(ops, replies, n, key, data) ==> Remembers(ops', replies', n, key, data)
  {
    if m: nat :| HasSince(ops, replies, m, n, key, data) {
      forall l | m <= l < n ensures ops'[l] == ops[l] && replies'[l] == replies[l] {
        assert ops'[..n][l] == ops[..n][l] && replies'[..n][l] == replies[..n][l];
      }
      assert HasSince(ops', replies', m, n, key, data);
    }
  }

  lemma TellsPrefix(ops: seq<Op>, replies: seq<Reply>, ops': seq<Op>, replies': seq<Reply>, n: nat, d: Dict)
    requires n <= |ops| && n <= |replies| && n <= |ops'| && n <= |replies'|
    requires ops'[..n] == ops[..n] && replies'[..n] == replies[..n] && Tells(ops, replies, n, d)
    ensures Tells(ops', replies', n, d)
  {
    hide Remembers;
    forall key, data ensures Remembers(ops', replies', n, key, data) <==> key in d && d[key] == data {
      HasPrefix(ops, replies, ops', replies', n, key, data);
      HasPrefix(ops', replies', ops, replies, n, key, data);
    }
  }

  lemma PresentIs(ops: seq<Op>, replies: seq<Reply>, n: nat, d: Dict, key: Bytes)
    requires Tells(ops, replies, n, d)
    ensures Present(ops, replies, n, key) <==> key in d
  {
    hide Remembers;
    if key in d {
      assert Remembers(ops, replies, n, key, d[key]);
    }
  }

  /** One call of the plain map answers as the calls before it tell, and the map goes on telling. */
  lemma StepTells(ops: seq<Op>, replies: seq<Reply>, n: nat, d: Dict)
    requires n < |ops| && n < |replies| && Tells(ops, replies, n, d) && replies[n] == SpecStep(d, ops[n]).1
    ensures Answers(ops, replies, n) && Tells(ops, replies, n + 1, SpecStep(d, ops[n]).0)
  {
    hide Remembers, Present;
    PresentIs(ops, replies, n, d, ops[n].key);
    var d', n' := SpecStep(d, ops[n]).0, n + 1;
    forall key, data ensures Remembers(ops, replies, n', key, data) <==> key in d' && d'[key] == data {
      HasStep(ops, replies, n, key, data);
    }
  }

  /** A run of the plain map answers every call as the calls before it tell. */
  lemma {:induction false} RunTells(ops: seq<Op>, n: nat)
    requires n <= |ops|
    ensures |SpecRun(map[], ops[..n]).1| == n
    ensures Tells(ops[..n], SpecRun(map[], ops[..n]).1, n, SpecRun(map[], ops[..n]).0)
    ensures forall k | 0 <= k < n :: Answers(ops[..n], SpecRun(map[], ops[..n]).1, k)
  {
    hide SpecStep, Answers, Tells;
    if n == 0 {
      NothingYet(ops[..0]);
    } else {
      RunTells(ops, n - 1);
      SpecRunStep(map[], ops, n - 1);
      var before, after := ops[..n - 1], ops[..n];
      var (d, replies) := SpecRun(map[], before);
      var replies' := SpecRun(map[], after).1;
      assert after[..n - 1] == before[..n - 1] && replies'[..n - 1] == replies[..n - 1];
      TellsPrefix(before, replies, after, replies', n - 1, d);
      StepTells(after, replies', n - 1, d);
      forall k | 0 <= k < n ensures Answers(after, replies', k) {
        if k < n - 1 {
          AnswersPrefix(before, replies, after, replies', k, n - 1);
        }
      }
    }
  }

  lemma NothingYet(ops: seq<Op>)
    requires ops == []
    ensures SpecRun(map[], ops) == (map[], []) && Tells(ops, [], 0, map[])
  {
  }

  lemma AnswersPrefix(ops: seq<Op>, replies: seq<Reply>, ops': seq<Op>, replies': seq<Reply>, k: nat, n: nat)
    requires k < n <= |ops| && n <= |replies| && n <= |ops'| && n <= |replies'|
    requires ops'[..n] == ops[..n] && replies'[..n] == replies[..n] && Answers(ops, replies, k)
    ensures Answers(ops', replies', k)
  {
    hide Remembers;
    assert ops'[..n][k] == ops[..n][k] && replies'[..n][k] == replies[..n][k];
    assert ops'[..n][..k] == ops'[..k] && ops[..n][..k] == ops[..k];
    assert replies'[..n][..k] == replies'[..k] && replies[..n][..k] == replies[..k];
    forall key, data ensures Remembers(ops, replies, k, key, data) <==> Remembers(ops', replies', k, key, data) {
      HasPrefix(ops, replies, ops', replies', k, key, data);
      HasPrefix(ops', replies', ops, replies, k, key, data);
    }
  }

  /** The same for the answers as they are. */
  lemma Told(ops: seq<Op>, d: Dict, replies: seq<Reply>)
    requires SpecRun(map[], ops) == (d, replies)
    ensures |replies| == |ops| && Tells(ops, replies, |ops|, d)
    ensures forall k | 0 <= k < |ops| :: Answers(ops, replies, k)
  {
    hide SpecRun, Answers, Tells;
    assert ops[..|ops|] == ops;
    RunTells(ops, |ops|);
  }

  /** And for the beginning of a run. */
  lemma ToldBefore(ops: seq<Op>, d: Dict, replies: seq<Reply>)
    requires |replies| <= |ops| && SpecRun(map[], ops[..|replies|]) == (d, replies)
    ensures forall k | 0 <= k < |replies| :: Answers(ops, replies, k)
  {
    hide SpecRun, Answers, Tells;
    var before := ops[..|replies|];
    Told(before, d, replies);
    forall k | 0 <= k < |replies| ensures Answers(ops, replies, k) {
      AnswersPrefix(before, replies, ops, replies, k, |replies|);
    }
  }
}
