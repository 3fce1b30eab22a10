/** The plain map that callers of the database may think of. */
module DbSpec {
  import opened Common
  import opened CStrings

  type Dict = map<Bytes, Bytes>

  const DB_INSERT := 1
  const DB_REPLACE := 2
  const DB_STORE := 3

  function SpecStore(d: Dict, key: Bytes, data: Bytes, flag: int): (Dict, int) {
    if flag != DB_INSERT && flag != DB_REPLACE && flag != DB_STORE then (d, -1)
    else if key !in d && flag == DB_REPLACE then (d, -1)
    else if key in d && flag == DB_INSERT then (d, 1)
    else (d[key := data], 0)
  }

  function SpecFetch(d: Dict, key: Bytes): Option<Bytes> {
    if key in d then Some(d[key]) else None
  }

  function SpecDelete(d: Dict, key: Bytes): (Dict, int) {
    if key in d then (d - {key}, 0) else (d, -1)
  }

  datatype Op =
    | StoreOp(key: Bytes, data: Bytes, flag: int)
    | FetchOp(key: Bytes)
    | DeleteOp(key: Bytes)

  datatype Reply = Code(rc: int) | Text(text: Option<Bytes>)

  function SpecStep(d: Dict, op: Op): (Dict, Reply) {
    match op
    case StoreOp(key, data, flag) => var (d', rc) := SpecStore(d, key, data, flag); (d', Code(rc))
    case FetchOp(key) => (d, Text(SpecFetch(d, key)))
    case DeleteOp(key) => var (d', rc) := SpecDelete(d, key); (d', Code(rc))
  }

  /** The plain map after a run of calls, and what they returned. */
  function SpecRun(d: Dict, ops: seq<Op>): (Dict, seq<Reply>) {
    if ops == [] then (d, [])
    else
      var (d1, replies) := SpecRun(d, ops[..|ops| - 1]);
      var (d2, reply) := SpecStep(d1, ops[|ops| - 1]);
      (d2, replies + [reply])
  }

  lemma SpecRunStep(d: Dict, ops: seq<Op>, n: nat)
    requires n < |ops|
    ensures var (d1, replies) := SpecRun(d, ops[..n]);
            var (d2, reply) := SpecStep(d1, ops[n]);
            SpecRun(d, ops[..n + 1]) == (d2, replies + [reply])
  {
    assert ops[..n + 1][..n] == ops[..n];
  }
}
