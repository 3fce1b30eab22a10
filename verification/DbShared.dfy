/**
  Any number of processes calling db_fetch, db_store and db_delete at once on the two
  shared files.  The index file is its pointer fields and records, the data file its
  bytes; both have an end where records are appended.  Under the locks of DbLocks every
  access of db.c that others could see is a step of its own: the writes of _db_dodelete
  one by one, the unlinking in _db_findfree, the rewriting of a reused record, the seek
  and the write of each append, the linking of the new record.
 */
module DbShared {
  import opened Common
  import opened CStrings
  import opened DbCells
  import opened DbRecord
  import opened DbFormat
  import opened DbLists
  import opened DbContents
  import opened DbSpec
  import L = DbLocks
  import A = DbAtomic

  type Pid = L.Pid

  /** Pointer fields by location, records by offset and the end of the index file; the data file. */
  datatype Mem = Mem(ptrs: map<nat, nat>, cells: map<nat, Rec>, idxEnd: nat, data: Bytes)

  /** What a call does next. */
  datatype Point =
    | Fresh                                      // search the chain
    | Blank | GetFree | Rewrite | Push | Unlink  // _db_dodelete: data, free head, record, free head, predecessor
    | LookFree | TakeFree                        // _db_findfree
    | ReuseData | ReuseIndex                     // db_store into a record taken off the free list
    | SeekData | WriteData                       // _db_writedat, SEEK_END
    | SeekIndex | WriteIndex                     // _db_writeidx, SEEK_END
    | Link                                       // the new record becomes the head of its chain
    | Overwrite                                  // data of the same length
    | Answered                                   // return

  /** A call and the struct fields it uses: offset and text of the record, the pointer field
      before it, the pointer saved from it, and the chain or free pointer read. */
  datatype Job = Job(op: Op, at: Point, reply: Option<Reply>, o: nat, r: Rec, prev: nat, save: nat, ptr: nat)

  /** `log` is history: the calls with their answers in the order in which they took effect. */
  datatype State = State(locks: L.State, mem: Mem, jobs: map<Pid, Job>, log: seq<(Op, Reply)>)

  function Slot(h: nat): nat {
    PTR_SZ * (h + 1)
  }

  /** Bytes of an index record with its pointer and length fields. */
  function RecLen(r: Rec): nat {
    PTR_SZ + IDXLEN_SZ + |Body(r)|
  }

  // ---- the steps -----------------------------------------------------------------------------------

  predicate HasKey(cells: map<nat, Rec>, o: nat, key: Bytes) {
    o in cells && cells[o].key == key
  }

  predicate Fits(cells: map<nat, Rec>, o: nat, keylen: nat, len: nat) {
    o in cells && |cells[o].key| == keylen && cells[o].datlen == len
  }

  /** Position of the first record on the list with this key, or the length of the list. */
  function FirstKey(cells: map<nat, Rec>, c: seq<nat>, key: Bytes): (k: nat)
    ensures k <= |c| && (k < |c| ==> HasKey(cells, c[k], key))
    ensures forall j | 0 <= j < k :: !HasKey(cells, c[j], key)
  {
    if c == [] || HasKey(cells, c[0], key) then 0 else 1 + FirstKey(cells, c[1..], key)
  }

  /** The same for the first record of these lengths. */
  function FirstFit(cells: map<nat, Rec>, c: seq<nat>, keylen: nat, len: nat): (k: nat)
    ensures k <= |c| && (k < |c| ==> Fits(cells, c[k], keylen, len))
    ensures forall j | 0 <= j < k :: !Fits(cells, c[j], keylen, len)
  {
    if c == [] || Fits(cells, c[0], keylen, len) then 0 else 1 + FirstFit(cells, c[1..], keylen, len)
  }

  /** List l followed from its slot, pointer by pointer, is c. */
  ghost predicate Followed(mem: Mem, l: nat, c: seq<nat>) {
    Linked(mem.ptrs, l, c) && forall o | o in c :: o in mem.cells
  }

  /** What db_fetch reads under its lock. */
  function Found(mem: Mem, c: seq<nat>, key: Bytes): Option<Bytes> {
    var k := FirstKey(mem.cells, c, key);
    if k == |c| then None
    else
      var r := mem.cells[c[k]];
      if 1 <= r.datlen && End(r) <= |mem.data| then Some(mem.data[r.datoff..End(r) - 1]) else None
  }

  /** The struct after a search that stopped at the k-th record of list l. */
  function StoppedAt(job: Job, mem: Mem, l: nat, c: seq<nat>, k: nat): Job
    requires k < |c| && c[k] in mem.cells
  {
    job.(o := c[k], r := mem.cells[c[k]], prev := Node(l, c, k), save := Succ(c, k + 1))
  }

  /** Where db_delete and db_store go from the search of the chain. */
  function Decided(job: Job, mem: Mem, h: nat, c: seq<nat>): Job {
    var k := FirstKey(mem.cells, c, job.op.key);
    if k == |c| then
      if job.op.StoreOp? && job.op.flag != DB_REPLACE
      then job.(at := LookFree, reply := Some(Code(0)), ptr := Succ(c, 0))
      else job.(at := Answered, reply := Some(Code(-1)))
    else
      var found := StoppedAt(job, mem, h + 1, c, k);
      if job.op.DeleteOp? then found.(at := Blank, reply := Some(Code(0)))
      else if !job.op.StoreOp? then found.(at := Answered)
      else if job.op.flag == DB_INSERT then found.(at := Answered, reply := Some(Code(1)))
      else if |job.op.data| + 1 != found.r.datlen then found.(at := Blank, reply := Some(Code(0)))
      else found.(at := Overwrite, reply := Some(Code(0)))
  }

  function DecidedPc(job: Job, h: nat): L.Pc {
    if job.at == Blank then L.WantFree(h, if job.op.DeleteOp? then L.Finish else L.Append)
    else if job.at == LookFree then L.WantFree(h, L.AppendOrFinish)
    else L.Linking(h)
  }

  /** _db_findfree after its walk of the free list. */
  function Fitted(job: Job, mem: Mem, c: seq<nat>): Job
    requires job.op.StoreOp?
  {
    var k := FirstFit(mem.cells, c, |job.op.key|, |job.op.data| + 1);
    if k < |c| then StoppedAt(job, mem, 0, c, k).(at := TakeFree) else job.(at := SeekData)
  }

  datatype Move =
    | Refuse(op: Op) | Begin(op: Op) | Scan | Take(lock: L.Lock) | Give(region: L.Region) | Finish
    | Look(c: seq<nat>) | Search(c: seq<nat>) | Fit(c: seq<nat>)   // a list is followed
    | Act                                                          // one read or write at the process's point

  /** _db_writedat at the offset the process has. */
  predicate WritesData(mem: Mem, off: nat, text: Bytes, mem': Mem) {
    off <= |mem.data| && mem' == mem.(data := Splice(mem.data, off, text + [NEWLINE]))
  }

  /** _db_writeptr. */
  predicate WritesPtr(mem: Mem, x: nat, v: nat, mem': Mem) {
    mem' == mem.(ptrs := mem.ptrs[x := v])
  }

  /** _db_writeidx at the offset the process has; the file may grow. */
  predicate WritesRec(mem: Mem, o: nat, r: Rec, ptr: nat, mem': Mem) {
    mem' == mem.(cells := mem.cells[o := r], ptrs := mem.ptrs[o := ptr],
                 idxEnd := if o + RecLen(r) <= mem.idxEnd then mem.idxEnd else o + RecLen(r))
  }

  /** The write or read that a call at its point makes, and the point after it. */
  predicate Acts(mem: Mem, pc: L.Pc, job: Job, mem': Mem, job': Job) {
    var op, r := job.op, job.r;
    match job.at
    case Blank =>
      && pc.Freeing? && r.datlen >= 1 && WritesData(mem, r.datoff, Spaces(r.datlen - 1), mem')
      && job' == job.(at := GetFree)
    case GetFree => pc.Freeing? && 0 in mem.ptrs && mem' == mem && job' == job.(at := Rewrite, ptr := mem.ptrs[0])
    case Rewrite =>
      && pc.Freeing? && WritesRec(mem, job.o, r.(key := Spaces(|r.key|)), job.ptr, mem')
      && job' == job.(at := Push)
    case Push => pc.Freeing? && WritesPtr(mem, 0, job.o, mem') && job' == job.(at := Unlink)
    case Unlink =>
      && pc.Freeing? && WritesPtr(mem, job.prev, job.save, mem')
      && job' == job.(at := if op.StoreOp? then SeekData else Answered)
    case TakeFree => pc.Freeing? && WritesPtr(mem, job.prev, job.save, mem') && job' == job.(at := ReuseData)
    case ReuseData =>
      pc.Linking? && op.StoreOp? && WritesData(mem, r.datoff, op.data, mem') && job' == job.(at := ReuseIndex)
    case ReuseIndex =>
      && pc.Linking? && WritesRec(mem, job.o, r.(key := op.key), job.ptr, mem')
      && job' == job.(at := Link, r := r.(key := op.key))
    case SeekData =>
      && pc.AppendingData? && op.StoreOp? && mem' == mem
      && job' == job.(at := WriteData, r := Rec(op.key, |mem.data|, |op.data| + 1))
    case WriteData =>
      pc.AppendingData? && op.StoreOp? && WritesData(mem, r.datoff, op.data, mem') && job' == job.(at := SeekIndex)
    case SeekIndex => pc.AppendingIndex? && mem' == mem && job' == job.(at := WriteIndex, o := mem.idxEnd)
    case WriteIndex => pc.AppendingIndex? && WritesRec(mem, job.o, r, job.ptr, mem') && job' == job.(at := Link)
    case Link => pc.Linking? && WritesPtr(mem, Slot(pc.h), job.o, mem') && job' == job.(at := Answered)
    case Overwrite =>
      pc.Linking? && op.StoreOp? && WritesData(mem, r.datoff, op.data, mem') && job' == job.(at := Answered)
    case _ => false
  }

  /** Locks are released when the work under them is done. */
  predicate MayGive(pc: L.Pc, job: Job, pc': L.Pc) {
    && (pc.Freeing? && job.at == SeekData ==> pc'.WantData?)
    && (pc.Freeing? && job.at != SeekData ==> (job.at == ReuseData || job.at == Answered) && pc'.Linking?)
    && (pc.AppendingData? ==> job.at == SeekIndex)
    && (pc.AppendingIndex? ==> job.at == Link)
    && (pc.Fetching? ==> job.at == Answered)
  }

  /** After _db_dodelete db_store reads the chain pointer again. */
  function Reread(pc: L.Pc, job: Job, mem: Mem): Job {
    if pc.Freeing? && pc.next == L.Append && Slot(pc.h) in mem.ptrs then job.(ptr := mem.ptrs[Slot(pc.h)]) else job
  }

  ghost predicate Step(s: State, i: Pid, mv: Move, s': State) {
    && i in s.locks.pcs
    && var pc, h := s.locks.pcs[i], L.ChainOf(s.locks.pcs[i]);
       match mv
       case Refuse(op) =>
         pc.Idle? && op.StoreOp? && !A.GoodFlag(op.flag) && s' == s.(log := s.log + [(op, Code(-1))])
       case Begin(op) =>
         && pc.Idle? && (op.StoreOp? ==> A.GoodFlag(op.flag))
         && L.Step(s.locks, i, L.Proceed, s'.locks) && s'.locks.pcs[i] == A.First(op)
         && s' == s.(locks := s'.locks, jobs := s.jobs[i := Job(op, Fresh, None, 0, Rec([], 0, 0), 0, 0, 0)])
       case Scan =>
         && pc.Idle? && L.Step(s.locks, i, L.Proceed, s'.locks) && s'.locks.pcs[i].WantList?
         && s' == s.(locks := s'.locks)
       case Take(lock) => L.Step(s.locks, i, L.Acquire(lock), s'.locks) && s' == s.(locks := s'.locks)
       case Look(c) =>
         && pc.Fetching? && i in s.jobs && s.jobs[i].at == Fresh && Followed(s.mem, h + 1, c)
         && var job := s.jobs[i]; var reply := Text(Found(s.mem, c, job.op.key));
            s' == s.(jobs := s.jobs[i := job.(at := Answered, reply := Some(reply))], log := s.log + [(job.op, reply)])
       case Search(c) =>
         && pc.Searching? && i in s.jobs && Followed(s.mem, h + 1, c)
         && var job' := Decided(s.jobs[i], s.mem, h, c);
            && L.Step(s.locks, i, L.Proceed, s'.locks) && s'.locks.pcs[i] == DecidedPc(job', h)
            && s' == s.(locks := s'.locks, jobs := s.jobs[i := job'])
       case Fit(c) =>
         && pc.Freeing? && i in s.jobs && s.jobs[i].at == LookFree && s.jobs[i].op.StoreOp? && Followed(s.mem, 0, c)
         && s' == s.(jobs := s.jobs[i := Fitted(s.jobs[i], s.mem, c)])
       case Act =>
         && i in s.jobs && i in s'.jobs && Acts(s.mem, pc, s.jobs[i], s'.mem, s'.jobs[i])
         && s' == s.(mem := s'.mem, jobs := s.jobs[i := s'.jobs[i]])
       case Give(region) =>
         && L.Step(s.locks, i, L.Release(region), s'.locks) && !pc.Linking?
         && if i in s.jobs then
              && MayGive(pc, s.jobs[i], s'.locks.pcs[i])
              && s' == s.(locks := s'.locks,
                          jobs := if pc.Fetching? then s.jobs - {i} else s.jobs[i := Reread(pc, s.jobs[i], s.mem)])
            else s' == s.(locks := s'.locks)
       case Finish =>
         && pc.Linking? && L.Step(s.locks, i, L.Release(L.ChainRegion(h)), s'.locks)
         && i in s.jobs && s.jobs[i].at == Answered && s.jobs[i].reply.Some?
         && s' == s.(locks := s'.locks, jobs := s.jobs - {i}, log := s.log + [(s.jobs[i].op, s.jobs[i].reply.value)])
  }

  predicate EmptySlot(mem: Mem, l: nat) {
    PTR_SZ * l in mem.ptrs && mem.ptrs[PTR_SZ * l] == 0
  }

  /** The files as the creating db_open leaves them; every process is idle. */
  ghost predicate Initial(s: State) {
    && L.Initial(s.locks) && s.jobs == map[] && s.log == []
    && s.mem.cells == map[] && s.mem.idxEnd == BASE && s.mem.data == []
    && (forall l {:trigger EmptySlot(s.mem, l)} | 0 <= l < NLISTS :: EmptySlot(s.mem, l))
    && forall x | x in s.mem.ptrs :: x < BASE
  }

  // ---- what a call in progress has to itself --------------------------------------------------------

  /** A record no list has, between unlinking and linking. */
  function Own(job: Job): Option<nat> {
    if job.at == Push || job.at == ReuseData || job.at == ReuseIndex || job.at == Link then Some(job.o) else None
  }

  /** Data that are written and that no index record has yet. */
  function Reserve(job: Job): Option<Rec> {
    if job.at == SeekIndex || job.at == WriteIndex then Some(job.r) else None
  }

  /** The pointer field that still leads to a record already given to the free list. */
  function Break(job: Job): Option<nat> {
    if job.at == Push || job.at == Unlink then Some(job.prev) else None
  }

  /** The record still on its chain whose data are blank already. */
  function Spoil(job: Job): Option<nat> {
    if job.at == GetFree || job.at == Rewrite then Some(job.o) else None
  }

  ghost predicate Owned(jobs: map<Pid, Job>, o: nat) {
    exists i :: i in jobs && Own(jobs[i]) == Some(o)
  }

  ghost predicate Broken(jobs: map<Pid, Job>, x: nat) {
    exists i :: i in jobs && Break(jobs[i]) == Some(x)
  }

  ghost predicate Spoiled(jobs: map<Pid, Job>, o: nat) {
    exists i :: i in jobs && Spoil(jobs[i]) == Some(o)
  }

  /** Who has data in the data file: an index record, or a call about to append one. */
  datatype Claim = Of(o: nat) | By(i: Pid)

  predicate Claims(s: State, a: Claim) {
    match a
    case Of(o) => o in s.mem.cells
    case By(i) => i in s.jobs && Reserve(s.jobs[i]).Some?
  }

  function Claimed(s: State, a: Claim): Rec
    requires Claims(s, a)
  {
    match a
    case Of(o) => s.mem.cells[o]
    case By(i) => s.jobs[i].r
  }

  // ---- the invariant ---------------------------------------------------------------------------------

  /** What the proof knows beside the state: the lists, the pointers as they will be when every
      unlinking under way is done, and the call-by-call view of the chains. */
  datatype Ghost = Ghost(t: Lists, want: map<nat, nat>, abs: A.State)

  function AbsJob(job: Job): A.Job {
    A.Job(job.op, job.reply, job.at == Blank || job.at == GetFree || job.at == Rewrite,
          job.op.StoreOp? && job.at != Fresh && job.at != Answered)
  }

  function AbsJobs(jobs: map<Pid, Job>): map<Pid, A.Job> {
    map i | i in jobs :: AbsJob(jobs[i])
  }

  ghost predicate Coupled(s: State, g: Ghost) {
    A.Inv(g.abs) && g.abs.locks == s.locks && g.abs.log == s.log && g.abs.jobs == AbsJobs(s.jobs)
  }

  ghost predicate PtrOk(s: State, g: Ghost, x: nat) {
    x in s.mem.ptrs && x in g.want && x < s.mem.idxEnd && (s.mem.ptrs[x] == g.want[x] || Broken(s.jobs, x))
  }

  ghost predicate CellOk(s: State, g: Ghost, o: nat) {
    && o in s.mem.cells && o in s.mem.ptrs && BASE <= o && o + RecLen(s.mem.cells[o]) <= s.mem.idxEnd
    && (o in g.t.home || Owned(s.jobs, o))
  }

  /** A record of chain h has a key of that chain, and its data are what the view has, or blank. */
  predicate Chained(r: Rec, data: Bytes, h: nat, chain: Dict, spoiled: bool) {
    && Hash(r.key) == h && r.key in chain && |chain[r.key]| + 1 == r.datlen
    && (spoiled || Has(data, r.datoff, chain[r.key] + [NEWLINE]))
  }

  predicate AllSpaces(key: Bytes) {
    forall i | 0 <= i < |key| :: key[i] == 32
  }

  ghost predicate HomeOk(s: State, g: Ghost, o: nat) {
    && o in g.t.home && o in s.mem.cells
    && (g.t.home[o] == 0 ==> AllSpaces(s.mem.cells[o].key))
    && (g.t.home[o] > 0 ==>
          && g.t.home[o] - 1 in g.abs.chains
          && Chained(s.mem.cells[o], s.mem.data, g.t.home[o] - 1, g.abs.chains[g.t.home[o] - 1], Spoiled(s.jobs, o)))
  }

  ghost predicate SpotOk(s: State, g: Ghost, x: nat) {
    && (x in s.mem.ptrs ==> PtrOk(s, g, x))
    && (x in s.mem.cells ==> CellOk(s, g, x))
    && (x in g.t.home ==> HomeOk(s, g, x))
  }

  ghost predicate Spots(s: State, g: Ghost) {
    forall x: nat {:trigger SpotOk(s, g, x)} :: SpotOk(s, g, x)
  }

  predicate RecApart(cells: map<nat, Rec>, x: nat, y: nat) {
    x in cells && (x < y ==> x + RecLen(cells[x]) <= y)
  }

  ghost predicate RecsApart(cells: map<nat, Rec>) {
    forall x, y {:trigger RecApart(cells, x, y)} | x in cells && y in cells :: RecApart(cells, x, y)
  }

  predicate ClaimOk(s: State, a: Claim) {
    Claims(s, a) && Claimed(s, a).datlen >= 1 && End(Claimed(s, a)) <= |s.mem.data|
  }

  predicate ClaimsApart(s: State, a: Claim, b: Claim) {
    Claims(s, a) && Claims(s, b) && (a != b ==> Apart(Claimed(s, a), Claimed(s, b)))
  }

  ghost predicate ClaimsOk(s: State) {
    && (forall a {:trigger ClaimOk(s, a)} | Claims(s, a) :: ClaimOk(s, a))
    && (forall a, b {:trigger ClaimsApart(s, a, b)} | Claims(s, a) && Claims(s, b) :: ClaimsApart(s, a, b))
  }

  /** Two records of one chain have different keys. */
  predicate KeysDiffer(cells: map<nat, Rec>, home: map<nat, nat>, x: nat, y: nat) {
    && x in home && y in home && x in cells && y in cells
    && (x != y && home[x] == home[y] > 0 ==> cells[x].key != cells[y].key)
  }

  /** Every key of the view is on its chain. */
  ghost predicate KeyHome(cells: map<nat, Rec>, home: map<nat, nat>, h: nat, key: Bytes) {
    exists o :: o in home && home[o] == h + 1 && HasKey(cells, o, key)
  }

  ghost predicate KeysOk(cells: map<nat, Rec>, home: map<nat, nat>, chains: map<nat, Dict>) {
    && (forall x, y {:trigger KeysDiffer(cells, home, x, y)} | x in home && y in home :: KeysDiffer(cells, home, x, y))
    && (forall h, key {:trigger KeyHome(cells, home, h, key)} | h in chains && h < NHASH && key in chains[h] ::
          KeyHome(cells, home, h, key))
  }

  predicate OnListAt(t: Lists, l: nat, job: Job, k: nat) {
    && l < |t.chains| && k < |t.chains[l]| && t.chains[l][k] == job.o
    && job.prev == Node(l, t.chains[l], k) && job.save == Succ(t.chains[l], k + 1)
  }

  /** The record the call stands at is on list l, and the pointers around it are the ones it read. */
  ghost predicate OnList(t: Lists, l: nat, job: Job) {
    exists k :: OnListAt(t, l, job, k)
  }

  /** A pointer field of list l. */
  predicate FieldOf(t: Lists, l: nat, x: nat) {
    x == PTR_SZ * l || (x in t.home && t.home[x] == l)
  }

  predicate HasHead(t: Lists, l: nat, v: nat) {
    l < |t.chains| && v == Succ(t.chains[l], 0)
  }

  predicate Wants(want: map<nat, nat>, x: nat, v: nat) {
    x in want && want[x] == v
  }

  predicate HasCell(mem: Mem, job: Job) {
    job.o in mem.cells && mem.cells[job.o] == job.r
  }

  /** The data of the call are in place. */
  predicate HasData(mem: Mem, job: Job) {
    job.op.StoreOp? && job.r.datlen == |job.op.data| + 1 && Has(mem.data, job.r.datoff, job.op.data + [NEWLINE])
  }

  /** The lengths for which _db_findfree takes a record. */
  predicate SameLengths(job: Job) {
    job.op.StoreOp? && |job.r.key| == |job.op.key| && job.r.datlen == |job.op.data| + 1
  }

  /** The call has read its chain pointer, which nobody else can change. */
  predicate HasPtr(pc: L.Pc, job: Job) {
    || job.at == LookFree || job.at == TakeFree || job.at == ReuseData || job.at == ReuseIndex || job.at == Link
    || (job.at == SeekData && !(pc.Freeing? && pc.next == L.Append))
    || job.at == WriteData || job.at == SeekIndex || job.at == WriteIndex
  }

  /** The key of the call is not on its chain, and the call is on the way to put it there. */
  predicate Absent(job: Job) {
    job.op.StoreOp? && (HasPtr(L.Idle, job) || job.at == Push || job.at == Unlink)
  }

  function AfterDelete(op: Op): L.Next {
    if op.StoreOp? then L.Append else L.Finish
  }

  /** The call is where the code of that point runs. */
  predicate PcOk(pc: L.Pc, job: Job) {
    && (pc.Searching? || pc.WantRead? || pc.WantWrite? ==> job.at == Fresh) && (job.at == Fresh <==> job.reply == None)
    && (pc.Searching? || pc.WantWrite? ==> pc.storing == job.op.StoreOp?)
    && match job.at
       case Fresh => pc.WantRead? || pc.Fetching? || pc.WantWrite? || pc.Searching?
       case Answered => pc.Fetching? || pc.Linking? || pc == L.Freeing(L.ChainOf(pc), L.Finish)
       case Blank => (pc.WantFree? || pc.Freeing?) && pc.next == AfterDelete(job.op)
       case GetFree => pc.Freeing? && pc.next == AfterDelete(job.op)
       case Rewrite => pc.Freeing? && pc.next == AfterDelete(job.op)
       case Push => pc.Freeing? && pc.next == AfterDelete(job.op)
       case Unlink => pc.Freeing? && pc.next == AfterDelete(job.op)
       case LookFree => (pc.WantFree? || pc.Freeing?) && pc.next == L.AppendOrFinish && job.op.StoreOp?
       case TakeFree => pc.Freeing? && pc.next == L.AppendOrFinish && job.op.StoreOp?
       case ReuseData => ((pc.Freeing? && pc.next == L.AppendOrFinish) || pc.Linking?) && job.op.StoreOp?
       case ReuseIndex => pc.Linking? && job.op.StoreOp?
       case SeekData => ((pc.Freeing? && pc.next != L.Finish) || pc.WantData? || pc.AppendingData?) && job.op.StoreOp?
       case WriteData => pc.AppendingData? && job.op.StoreOp?
       case SeekIndex => (pc.AppendingData? || pc.WantEnd? || pc.AppendingIndex?) && job.op.StoreOp?
       case WriteIndex => pc.AppendingIndex? && job.op.StoreOp?
       case Link => (pc.AppendingIndex? || pc.Linking?) && job.op.StoreOp?
       case Overwrite => pc.Linking? && job.op.StoreOp?
  }

  /** What the call knows of the files at its point; l is its list. */
  ghost predicate Knows(job: Job, l: nat, mem: Mem, t: Lists, want: map<nat, nat>) {
    match job.at
    case Blank => OnList(t, l, job) && HasCell(mem, job) && job.r.key == job.op.key
    case GetFree => OnList(t, l, job) && HasCell(mem, job) && job.r.key == job.op.key
    case Rewrite => OnList(t, l, job) && HasCell(mem, job) && job.r.key == job.op.key && HasHead(t, 0, job.ptr)
    case Push =>
      && job.o in mem.cells && AllSpaces(mem.cells[job.o].key) && job.o !in t.home
      && HasHead(t, 0, job.ptr) && Wants(want, job.o, job.ptr)
      && FieldOf(t, l, job.prev) && Wants(want, job.prev, job.save)
    case Unlink => FieldOf(t, l, job.prev) && Wants(want, job.prev, job.save)
    case TakeFree => OnList(t, 0, job) && HasCell(mem, job) && SameLengths(job)
    case ReuseData => job.o !in t.home && HasCell(mem, job) && SameLengths(job)
    case ReuseIndex => job.o !in t.home && HasCell(mem, job) && SameLengths(job) && HasData(mem, job)
    case WriteData => job.op.StoreOp? && job.r == Rec(job.op.key, |mem.data|, |job.op.data| + 1)
    case SeekIndex => job.r.key == job.op.key && HasData(mem, job)
    case WriteIndex => job.r.key == job.op.key && HasData(mem, job) && job.o == mem.idxEnd
    case Link =>
      && job.o !in t.home && HasCell(mem, job) && job.r.key == job.op.key && HasData(mem, job)
      && Wants(want, job.o, job.ptr)
    case Overwrite => OnList(t, l, job) && HasCell(mem, job) && job.r.key == job.op.key && SameLengths(job)
    case _ => true
  }

  ghost predicate JobOk(pc: L.Pc, job: Job, mem: Mem, t: Lists, want: map<nat, nat>, chain: Dict) {
    && PcOk(pc, job)
    && Hash(job.op.key) == L.ChainOf(pc)
    && (Absent(job) ==> job.op.key !in chain)
    && (HasPtr(pc, job) ==> HasHead(t, L.ChainOf(pc) + 1, job.ptr))
    && Knows(job, L.ChainOf(pc) + 1, mem, t, want)
  }

  ghost predicate ProcOk(s: State, g: Ghost, i: Pid) {
    && i in s.jobs && i in s.locks.pcs && L.ChainOf(s.locks.pcs[i]) in g.abs.chains
    && JobOk(s.locks.pcs[i], s.jobs[i], s.mem, g.t, g.want, g.abs.chains[L.ChainOf(s.locks.pcs[i])])
  }

  /** No two calls own the same record. */
  predicate OwnApart(jobs: map<Pid, Job>, i: Pid, j: Pid) {
    i in jobs && j in jobs && (i != j && Own(jobs[i]).Some? ==> Own(jobs[i]) != Own(jobs[j]))
  }

  ghost predicate Procs(s: State, g: Ghost) {
    && (forall i {:trigger ProcOk(s, g, i)} | i in s.jobs :: ProcOk(s, g, i))
    && (forall i, j {:trigger OwnApart(s.jobs, i, j)} | i in s.jobs && j in s.jobs :: OwnApart(s.jobs, i, j))
  }

  ghost predicate Inv(s: State, g: Ghost) {
    && Coupled(s, g) && Threaded(g.want, g.t) && s.mem.idxEnd >= BASE && s.mem.ptrs.Keys == g.want.Keys
    && Spots(s, g) && RecsApart(s.mem.cells) && ClaimsOk(s)
    && KeysOk(s.mem.cells, g.t.home, g.abs.chains) && Procs(s, g)
  }
}
