# Verified models of the algorithms and protocols in the C study notes

This project models, in Dafny, the self-contained algorithms and protocols of a
repository of C study notes, and proves what they promise on every input, every
run or every reachable state. Check it with `dafny verify dfyconfig.toml`.

| modules | what they model |
|---|---|
| `Common` | types that several models share |
| `CStrings`, `DbCells`, `DbRecord`, `DbFormat`, `DbLists`, `DbContents`, `DbUpdates`, `DbWalk`, `DbScan`, `DbTorn`, `DbSpec`, `DbLaws`, `Db` | the hash database of *Advanced Programming in the UNIX Environment*: two files as byte sequences, 137 hash chains and a free list threaded through fixed-width decimal pointers; the library calls refine a plain map |
| `DbLocks`, `DbAtomic` | its fcntl locking, as byte ranges locked and unlocked by any number of processes, and the call-by-call view of several processes at once on the contents of the chains |
| `DbShared`, `DbSharedFrame`, `DbSharedParts`, `DbSharedActs`, `DbSharedIndex`, `DbSharedReads`, `DbSharedCalls`, `DbSharedRuns`, `DbSharedProgress` | the same processes on the shared files: pointer fields, index records, free list, data bytes and the two file ends, with every read and write of a call as a step of its own |
| `Semaphore`, `SemaphoreValue` | the System V semaphore wrapper: create, open, close, operate, die at any step |
| `RefTable`, `RefTableUpdates`, `RefTableSteps`, `RefTableRuns`, `RefTableFinds` | the reference-counted object table with two levels of mutexes |
| `Numerals`, `InetText`, `InetPton`, `InetNtop`, `InetForms`, `InetRoundTrip` | IPv4 and IPv6 address parsing and printing (section 2.2 of RFC 1884) |
| `CdeclTokens`, `CdeclMeaning`, `CdeclReading`, `Cdecl`, `CdeclRecursive`, `CdeclAgreement`, `CdeclOutput`, `CdeclIdentifiers`, `CdeclExamples` | two translators of C declarations to English, against the meaning of declarators (section 6.7.5 of ISO/IEC 9899:1999) |
| `Rot13` | the asynchronous rot13 pipeline |
| `BoundedBuffer` | the semaphore-synchronised bounded buffer |
| `Rio` | the buffered reader of the Rio package |
| `Checksum` | the Internet checksum (sections 1 and 2 of RFC 1071) |

Conventions. A program that works by updating variables is a method, or a class
with the program's own variables as fields, proved against a function of its input or
old state; what the program promises is then proved about that function. A
concurrent protocol is a step relation over explicit states, with an invariant that
every step keeps and theorems about every run. Fields and state components marked
`ghost` or called history variables record the past; the programs' own code does not read
them. In two models they say who may make a call: a thread holds and releases references to
objects it has, and a process operates on and closes a semaphore set it is attached to.
Where C ends the process (`err_dump`, `err_quit`) the model returns `Aborted`; where a
translator of declarations would leave the bounds of its stack or read forever it
returns a `Fault`.

Results worth knowing before reading:

- `Db.Run` is the database's main theorem: any sequence of store, fetch and delete calls on a new
  database answers as a plain map, and as the earlier calls and answers tell (`DbLaws.Answers`: a key
  has the data of the last store that returned 0, until a delete returns 0). A scan afterwards lists,
  once each, the keys with a byte that is no space, with their data, and a run of up to 9661 calls with
  keys of 1 to 1010 bytes and data of 1 to 1023 bytes never ends the process. `Db.Database.Store`
  states exactly when a store does end it. `DbSharedRuns.Atomic` says the same of the answers when any
  number of processes call at once.
- `foo_find` returns the first object of its chain that was allocated with the id asked for, referenced
  by the caller, or none when no object on any chain was (`RefTableFinds.FindReturns`).
- The value of a semaphore is the initial one and all the amounts since; a death takes back the dead
  process's own, as far as zero (`SemaphoreValue.ValueIs`). With initial value 1 at most one of the
  processes that go down and up by one stands between its calls, whoever dies when
  (`SemaphoreValue.MutualExclusion`).
- `inet_ntop6` prints a dotted quad for exactly two kinds of addresses (`InetNtop.Ntop6`).
- Machines of either byte order store the same two checksum bytes (`Checksum.ByteOrderIrrelevant`).
- The note in `inet_pton.c` that `::` in a full address is silently ignored is not what the
  code does: the words after it are zeroed. `InetForms.DoubleColonInFullAddress` shows
  when the two agree (exactly when those words are zero anyway). `InetForms.ParsesExactly` gives
  the exact set of strings `inet_pton6` accepts: the forms of section 2.2 of RFC 1884, with any number
  of leading zeros, `::` also where nothing is missing, and the same with one more colon after a last
  group.
- `rio_readlineb` returns one more than the bytes stored when it stops at `maxlen` or end of
  file; `Rio.Reader.ReadLineb` states both the bytes and the returned value.
- The two translators of declarations agree up to spacing exactly when no specifier is
  `static` (`CdeclAgreement.AgreeIff`): the recursive one takes `static` for the name.
- The state machine looks below its stack exactly when no specifier names a type
  (`Cdecl.SaysTheType`), the recursive program exactly when there is neither a specifier nor a
  qualifier after a star of the outermost level (`CdeclRecursive.SaysTheType`).
- `in_cksum` is right exactly when the sum of the words fits 32 bits (`Checksum.RightIff`, for every
  length an `int` can hold). Up to 65537 words it always does; for every greater number of words
  there are words for which it does not (`Checksum.MoreWordsWrap`).
- A semaphore set in use is initialised again exactly when a `sem_create` reads its counter with
  BIGCOUNT attachments outstanding (`Semaphore.ReinitialisedIff`); all run theorems hold without such a
  read, and `Semaphore.Reinitialises` is a run that reaches one.
- A `db_store` that ends the process leaves a sound database without the key it was to replace, and
  behind it what the failed append wrote (`Db.Database.Store`, `DbTorn.TornShort`, `DbTorn.TornLong`).
- `inet_ntop4` writes one byte past a buffer exactly as long as the text (`InetNtop.Ntop4`).
- Calls of several processes at once take effect one at a time, on files they read and write in
  interleaved steps (`DbSharedRuns.Atomic`): at every moment each record is on exactly one list or in the
  hands of exactly one call (`DbSharedRuns.RecordsHeldOnce`), no two of them share a byte
  (`DbSharedRuns.NothingOverlaps`), and no call gets stuck (`DbSharedProgress.SomeoneCanStep`). The
  proof rests on all four locks: chain, free list and the two file ends (`DbSharedFrame.LocksApart`).
- A translator of declarations says the type of a declaration with C's identifiers exactly when the
  name has no underscore, every specifier is in its table (or is the single character `_`), no star
  has `restrict`, the stack is large enough and something on it names a type
  (`CdeclIdentifiers.SaysIff`); `int a_b;` is said as `int a` (`CdeclIdentifiers.UnderscoreIsLost`).
- A semaphore set is removed under a process that is still attached exactly when that process has
  called `sem_open` since the closing process read BIGCOUNT, and lives
  (`Semaphore.RemovedWhileAttached`; `Semaphore.OpenedTooLate` is such a run).

## Model

| member | source | states |
|---|---|---|
| `CStrings.AtolPadded` | c_code/apue/apue.3e/db/db.c:338-348 | `atol` undoes `"%*d"` for every number and width |
| `CStrings.PaddedWidth` | c_code/apue/apue.3e/db/db.c:633-645 | a pointer below 10^width prints in exactly that many columns |
| `DbRecord.ParseBodyInverts` | c_code/apue/apue.3e/db/db.c:408-432 | splitting an index record at its separators recovers key, data offset and data length of the record that was formatted |
| `DbRecord.ReadsBackIff` | c_code/apue/apue.3e/db/db.c:408-432 | a record whose data length is in range reads back as what was stored if and only if its key has neither the colon nor NUL; it ends in a newline |
| `DbRecord.ColonAborts` | c_code/apue/apue.3e/db/db.c:411-422 | with a colon in the key every later read of the record ends the process |
| `DbWalk.ScanInverts` | c_code/apue/apue.3e/db/db.c:357-432 | reading the index record at an offset gives back the chain pointer, key, data offset and data length written there, and where the next record starts |
| `DbFormat.WritePtrParses` | c_code/apue/apue.3e/db/db.c:632-645 | writing a pointer over any header slot or record keeps the index file parsed as header plus records, with only that pointer changed |
| `DbFormat.RewriteParses` | c_code/apue/apue.3e/db/db.c:609-620 | rewriting a record with one of equal length touches no other byte and keeps the file parsed |
| `DbFormat.AppendParses` | c_code/apue/apue.3e/db/db.c:604-625 | appending a record keeps the file parsed and adds exactly that record at the old end |
| `DbLists.DetachThreaded` | c_code/apue/apue.3e/db/db.c:786-805 | unlinking the k-th record of a list by rewriting its predecessor leaves all lists acyclic, disjoint and otherwise as they were |
| `DbLists.AttachThreaded` | c_code/apue/apue.3e/db/db.c:684-712 | pushing a loose record on a list keeps all lists acyclic and disjoint |
| `DbLists.MoveToFree` | c_code/apue/apue.3e/db/db.c:505-536 | the three pointer writes of a delete move one record from its chain to the head of the free list and change nothing else |
| `DbContents.OverwriteExtent` | c_code/apue/apue.3e/db/db.c:545-574 | writing data of the same length over a record's extent changes that record's data only |
| `DbContents.AppendExtent` | c_code/apue/apue.3e/db/db.c:556-573 | appended data lies beyond every other record's extent |
| `DbUpdates.DeleteSound` | c_code/apue/apue.3e/db/db.c:477-539 | after the writes of a delete both files still form a sound database of the same sizes, whose contents lack exactly that key |
| `DbUpdates.AppendSound` | c_code/apue/apue.3e/db/db.c:686-698 | after an append the files form a sound database whose contents gain exactly that key and data |
| `DbUpdates.TakeFreeSound` | c_code/apue/apue.3e/db/db.c:766-819 | taking a record off the free list leaves a sound database with that one record loose |
| `DbUpdates.ReuseSound` | c_code/apue/apue.3e/db/db.c:699-710 | rewriting the loose record gives a sound database that gains exactly the key and data |
| `DbUpdates.OverwriteSound` | c_code/apue/apue.3e/db/db.c:743-749 | replacing data of equal length changes that key's value and nothing else |
| `DbUpdates.FreshSound` | c_code/apue/apue.3e/db/db.c:148-178 | 138 zero pointers and a newline, with no data, are a sound empty database |
| `DbUpdates.SameSizes` | c_code/apue/apue.3e/db/db.c:699-710 | a record reused for a key and data of the same lengths formats to the same number of bytes |
| `Db.ReuseSizes` | c_code/apue/apue.3e/db/db.c:699-710 | taking a free record and rewriting it leaves the length of both files unchanged |
| `DbWalk.ListWalkable` | c_code/apue/apue.3e/db/db.c:303-314 | every list of a sound database can be followed pointer by pointer, each record reading back |
| `DbWalk.ChainDecides` | c_code/apue/apue.3e/db/db.c:303-314 | the walk of the key's own chain finds a record if and only if the key is live, and finds its record |
| `DbScan.ListsPartition` | c_code/apue/apue.3e/db/db.c:477-539 | the 137 chains and the free list are acyclic and pairwise disjoint and together hold every index record |
| `DbScan.ChainedKeys` | c_code/apue/apue.3e/db/db.c:273-330 | a chained record is on the chain its key hashes to, and no other chained record has its key |
| `DbScan.ExtentsDisjoint` | c_code/apue/apue.3e/db/db.c:545-574 | distinct records own disjoint parts of the data file, within its length |
| `DbScan.ListingExact` | c_code/apue/apue.3e/db/db.c:849-889 | a scan yields a key with data exactly when the database maps that key to those data and some byte of the key is not 32 |
| `DbScan.ListingDistinct` | c_code/apue/apue.3e/db/db.c:849-889 | a scan yields no key twice |
| `Db.Database.constructor` | c_code/apue/apue.3e/db/db.c:148-178 | a newly created database is valid and empty |
| `Db.Database.ReadPtr` | c_code/apue/apue.3e/db/db.c:337-348 | undoes the writing of a pointer; aborts exactly on a short read |
| `Db.Database.ReadIdx` | c_code/apue/apue.3e/db/db.c:357-432 | recovers the record standing at the offset and moves to the next one; -1 at the end of a sequential scan; aborts exactly on a short or malformed record, whatever its chain pointer |
| `Db.Database.ReadDat` | c_code/apue/apue.3e/db/db.c:438-449 | the data of the record the struct describes; aborts exactly on a short read or a missing newline |
| `Db.Database.WriteDat` | c_code/apue/apue.3e/db/db.c:545-574 | data and newline at the offset or at the end, with offset and length recorded |
| `Db.Database.WriteIdx` | c_code/apue/apue.3e/db/db.c:581-626 | the formatted record at the offset or at the end; aborts exactly on a pointer or length out of range |
| `Db.Database.WritePtr` | c_code/apue/apue.3e/db/db.c:632-645 | the seven-column pointer at the offset; aborts exactly on a pointer out of range |
| `Db.Database.ComputeHash` | c_code/apue/apue.3e/db/db.c:320-330 | the weighted character sum modulo 2^64 modulo 137 |
| `Db.Database.WalkChain` | c_code/apue/apue.3e/db/db.c:298-314 | stops at the first record with the key, with its predecessor and all its fields in the struct, or after the last record |
| `Db.Database.FindAndLock` | c_code/apue/apue.3e/db/db.c:273-315 | the same on the chain the key hashes to |
| `Db.Database.FindFree` | c_code/apue/apue.3e/db/db.c:766-819 | the first free record of exactly the two lengths, unlinked; the index file unchanged when there is none |
| `Db.Database.DoDelete` | c_code/apue/apue.3e/db/db.c:477-539 | the whole new contents of both files |
| `Db.Database.Fetch` | c_code/apue/apue.3e/db/db.c:247-267 | never aborts and returns what the map holds for the key |
| `Db.Database.Delete` | c_code/apue/apue.3e/db/db.c:454-470 | removes the key from the map, or returns -1 and changes nothing; never aborts and never changes a file's length |
| `Db.Database.DeleteFound` | c_code/apue/apue.3e/db/db.c:454-470 | deleting the record just found removes exactly its key |
| `Db.Database.StoreAppend` | c_code/apue/apue.3e/db/db.c:686-698 | adds the key at the ends of the files, or aborts exactly when the record cannot be appended |
| `Db.Database.StoreReuse` | c_code/apue/apue.3e/db/db.c:699-710 | adds the key in the freed record without lengthening either file |
| `Db.Database.StoreNew` | c_code/apue/apue.3e/db/db.c:675-711 | adds a missing key by reuse or append; aborts exactly when neither is possible |
| `Db.Database.StoreFound` | c_code/apue/apue.3e/db/db.c:712-750 | replaces a present key's data in place or by delete and append; aborts exactly when the append is impossible |
| `Db.Database.Store` | c_code/apue/apue.3e/db/db.c:651-760 | aborts exactly under `StoreAborts`; otherwise map and return code are those of insert, replace or store on the plain map, and the files grow by at most one record. After an abort the files are those of a sound database without the key, then the data and, unless its length was out of range, an index record on no chain; with data of a wrong length nothing has changed |
| `Db.Database.Rewind` | c_code/apue/apue.3e/db/db.c:826-841 | the scan stands at the first record |
| `Db.Database.NextRec` | c_code/apue/apue.3e/db/db.c:849-889 | the next record in file order with a key byte other than 32, with its data, or nothing at the end; every key passed over is all spaces |
| `Db.Database.ScanAll` | c_code/apue/apue.3e/db/db.c:826-889 | a rewind and uninterrupted reads yield each key that has a byte other than 32 with its data, no key twice, and nothing else |
| `DbTorn.TornShort` | c_code/apue/apue.3e/db/db.c:581-594 | when the length of the index record was out of range the database is as before the append, with idle bytes in the data file |
| `DbTorn.TornLong` | c_code/apue/apue.3e/db/db.c:686-698 | when the index file was too long every list is walked as before and every key keeps its data; the new record is on no list and a scan reads it at the old end |
| `Db.Perform` | c_code/apue/apue.3e/db/db.c:651-760 | one call of any kind is one step of the plain map, and only a store that cannot be appended ends the process |
| `Db.Run` | c_code/apue/apue.3e/db/db.c:651-760 | every sequence of calls on a new database answers as the plain map does and as the calls before tell, up to a store that ends the process; a final scan has a key with data exactly when the calls tell so and some byte of the key is not 32, and no key twice; no call ends the process in 9661 calls of ordinary sizes |
| `Db.RoomToAppend` | c_code/apue/apue.3e/db/db.c:588-594 | after fewer than 9661 calls any record of ordinary sizes can still be appended |
| `DbLaws.Told` | c_code/apue/apue.3e/db/db.c:651-760 | every answer of the plain map follows from the calls and answers before it: a fetch gives the data of the last store that returned 0 unless a delete returned 0 since; flag 1 stores absent keys only, 2 present ones only, 3 both |
| `DbLaws.HasStep` | c_code/apue/apue.3e/db/db.c:651-760 | one more call changes what a key has exactly when it is a store or delete of that key that returns 0 |
| `DbContents.HashMeans` | c_code/apue/apue.3e/db/db.c:320-330 | the hash is the sum of each signed char times its position from 1, modulo 2^64, modulo 137 |
| `DbLocks.OverlapMeans` | c_code/apue/apue.3e/db/db.c:81-94 | the interval test for two lock ranges is having a byte in common |
| `DbLocks.StepInv` | c_code/apue/apue.3e/db/db.c:273-315 | every step keeps the lock table equal to what the program points imply, with no two processes' locks in conflict |
| `DbLocks.RunInv` | c_code/apue/apue.3e/db/db.c:273-315 | the same in every state of every run |
| `DbLocks.NoInterference` | c_code/apue/apue.3e/db/db.c:273-315 | whoever writes a chain, the free list, the end of either file or a file being created has no second writer and no reader beside it |
| `DbLocks.WaitLevel` | c_code/apue/apue.3e/db/db.c:495-498 | a process that is waited for asks for a later kind of lock, or for none |
| `DbLocks.WaitsExactly` | c_code/apue/apue.3e/db/db.c:273-315 | exactly whom a process waits for: at a chain whoever writes it, and for a writer also its readers; at the free list and at each file end whoever is there; a creating `db_open` stops all index locks |
| `DbLocks.NoWaitCycle` | c_code/apue/apue.3e/db/db.c:273-315 | in every reachable state a path of waits never returns to its start and has at most five processes |
| `DbLocks.SomeoneCanStep` | c_code/apue/apue.3e/db/db.c:766-819 | following waits from any process leads to one that can take a step |
| `DbLocks.Alone` | c_code/apue/apue.3e/db/db.c:273-315 | in a state that keeps the invariant a writer has no second writer and no reader beside it |
| `DbAtomic.SliceStep` | c_code/apue/apue.3e/db/db.c:320-330 | a call answers from its own chain's part of the map and changes only that part |
| `DbAtomic.MidwayDone` | c_code/apue/apue.3e/db/db.c:651-760 | when a delete or store has unlinked and linked what it has to, its chain holds what the call makes of the plain map |
| `DbAtomic.StepInv` | c_code/apue/apue.3e/db/db.c:247-470 | on the maps of the chains, every step of a call keeps the log a run of the plain map and every chain on the way between two of its states |
| `DbAtomic.RunInv` | c_code/apue/apue.3e/db/db.c:247-760 | the same in every state of every interleaving |
| `DbAtomic.ChainsSerialise` | c_code/apue/apue.3e/db/db.c:247-760 | the chain locks serialise calls on the maps of the chains: in the order in which they took effect they have answered as calls on one plain map, and a chain nobody is changing holds its part of it |
| `DbSharedFrame.LocksApart` | c_code/apue/apue.3e/db/db.c:273-315 | of two processes one of which writes its chain, the other neither writes nor reads that chain, and the two are not both at the free list, at the end of the index file or at the end of the data file |
| `DbSharedFrame.Exclusive` | c_code/apue/apue.3e/db/db.c:477-539 | no pointer field or record is what two writing processes may both change: a chain, the free list, a record off all lists, the new record at the end |
| `DbSharedFrame.ProcFrame` | c_code/apue/apue.3e/db/db.c:651-760 | all that one call knows of lists, records and data stays true through a step of another that keeps to its own |
| `DbSharedActs.BlankInv` | c_code/apue/apue.3e/db/db.c:500-503 | blanking the data of a record still on its chain keeps the invariant of files, lists, records, data and calls |
| `DbSharedIndex.RewriteInv` | c_code/apue/apue.3e/db/db.c:518-523 | rewriting the deleted record with a blank key and the free pointer keeps it, while the predecessor still leads there; the view loses the key |
| `DbSharedIndex.PushInv` | c_code/apue/apue.3e/db/db.c:525-528 | making the deleted record the head of the free list keeps it |
| `DbSharedIndex.UnlinkInv` | c_code/apue/apue.3e/db/db.c:530-536 | writing the predecessor pointer keeps it and ends the detour |
| `DbSharedIndex.TakeFreeInv` | c_code/apue/apue.3e/db/db.c:784-804 | unlinking the record found on the free list keeps it: the record is now in the hands of one call |
| `DbSharedActs.ReuseDataInv` | c_code/apue/apue.3e/db/db.c:709-709 | writing the data of the reused record touches no other data |
| `DbSharedIndex.ReuseIndexInv` | c_code/apue/apue.3e/db/db.c:710-710 | rewriting the reused record, of the same length, keeps it |
| `DbSharedActs.WriteDataInv` | c_code/apue/apue.3e/db/db.c:556-573 | the write after the seek appends beyond all data of records and of other appending calls |
| `DbSharedIndex.WriteIndexInv` | c_code/apue/apue.3e/db/db.c:604-625 | the write after the seek adds one record at the end of the index file |
| `DbSharedIndex.LinkInv` | c_code/apue/apue.3e/db/db.c:698-701 | making the record the head of its chain keeps it; the view gains the key and data |
| `DbSharedActs.OverwriteInv` | c_code/apue/apue.3e/db/db.c:746-750 | replacing data of the same length changes the view of that key only |
| `DbSharedReads.FollowedIs` | c_code/apue/apue.3e/db/db.c:303-314 | whoever follows a list under its lock finds exactly that list, whatever the others are doing |
| `DbSharedReads.FetchReads` | c_code/apue/apue.3e/db/db.c:247-267 | what a fetch reads under its lock is what the call-by-call view has for the key |
| `DbSharedReads.SearchFinds` | c_code/apue/apue.3e/db/db.c:303-314 | a walk of the chain finds the key exactly when the view has it |
| `DbSharedCalls.StepInv` | c_code/apue/apue.3e/db/db.c:247-819 | every step of every process keeps the invariant, keeps to what that process has to itself, and is a step of `DbAtomic` or leaves it standing |
| `DbSharedRuns.RunRefines` | c_code/apue/apue.3e/db/db.c:247-819 | every run on the files is, call by call, a run of `DbAtomic` |
| `DbSharedRuns.RunInv` | c_code/apue/apue.3e/db/db.c:247-819 | the invariant at every moment of every run |
| `DbSharedRuns.Atomic` | c_code/apue/apue.3e/db/db.c:247-819 | in every interleaving of reads and writes the calls, in the order in which they took effect between their start and end, have answered as calls on one plain map and as the calls before tell; a chain nobody is changing, followed in the files, yields for each of its keys what the map holds |
| `DbSharedRuns.RecordsHeldOnce` | c_code/apue/apue.3e/db/db.c:477-539 | at every moment each index record is on exactly one list, once, or in the hands of exactly one call between unlinking and linking; those on the free list have keys of spaces; the lists are those in the file wherever no unlinking is under way |
| `DbSharedRuns.NothingOverlaps` | c_code/apue/apue.3e/db/db.c:545-626 | at every moment index records do not overlap and end within the file, and neither do the data of records and of calls about to append their record |
| `DbSharedRuns.ReadsUndisturbed` | c_code/apue/apue.3e/db/db.c:298-315 | while a process may read a list no step of another changes a pointer, a record or the data of that list, so reading it one by one is reading it at once |
| `DbSharedProgress.CallSteps` | c_code/apue/apue.3e/db/db.c:651-760 | a call that waits for no lock can take its next step at every point of the code: what the point asks of the files is there |
| `DbSharedProgress.SomeoneCanStep` | c_code/apue/apue.3e/db/db.c:247-819 | following waits from any process, at any moment of a run, leads to one that can take its next step |
| `Semaphore.StepInv` | c_code/apue/apue.3e/lib/semaph.c:49-197 | every system call and every crash keeps the protocol's invariant |
| `Semaphore.RunInv` | c_code/apue/apue.3e/lib/semaph.c:49-197 | the invariant in every state of every run |
| `Semaphore.LockAndCount` | c_code/apue/apue.3e/lib/semaph.c:49-197 | member [2] is the number of processes in the critical section, 0 or 1; an initialised set has [1] plus outstanding attachments equal to BIGCOUNT, whatever their number up to it |
| `Semaphore.RemovalSafe` | c_code/apue/apue.3e/lib/semaph.c:222-253 | a set disappears only by IPC_RMID; an attached process or one in the critical section still has its set |
| `Semaphore.NeverReinitialised` | c_code/apue/apue.3e/lib/semaph.c:130-153 | an initialised set is not initialised again while it exists, and its value changes only by `sem_op` or a death |
| `SemaphoreValue.ValueIs` | c_code/apue/apue.3e/lib/semaph.c:255-289 | from the setting of the value on, in every run: [0] is the value call by call, where an amount is added and a death subtracts the dead process's own amounts as far as zero; each process's undo adjustment is minus its own amounts |
| `SemaphoreValue.ValueIsTotal` | c_code/apue/apue.3e/lib/semaph.c:278-289 | without deaths [0] is the initial value plus the sum of all amounts |
| `SemaphoreValue.OpBlocks` | c_code/apue/apue.3e/lib/semaph.c:278-289 | an attached process gets through `sem_op` exactly when the value plus its amount is not negative |
| `SemaphoreValue.MutualExclusion` | c_code/apue/apue.3e/lib/semaph.c:255-275 | with initial value 1 and processes that alternate -1 and +1 at most one stands between its two calls, deaths included |
| `Semaphore.SectionProgress` | c_code/apue/apue.3e/lib/semaph.c:222-253 | inside the critical section no error exit is reached, and the process's next call blocks exactly when it ends a `sem_create` and `sem_open` has brought the attachments to BIGCOUNT |
| `Semaphore.ReinitialisedIff` | c_code/apue/apue.3e/lib/semaph.c:130-153 | a `sem_create` goes on to initialise an initialised set exactly when it reads the counter with BIGCOUNT attachments outstanding |
| `Semaphore.AttachedSince` | c_code/apue/apue.3e/lib/semaph.c:222-253 | from the reading of BIGCOUNT to the removal exactly those are attached who have called `sem_open` since, and live |
| `Semaphore.RemovedWhileAttached` | c_code/apue/apue.3e/lib/semaph.c:174-253 | every removal follows a reading of BIGCOUNT by the same process, and finds a process attached exactly when that one has called `sem_open` in between, and lives |
| `Semaphore.OpenedTooLate` | c_code/apue/apue.3e/lib/semaph.c:188-194 | a run that removes a set under a process that has just opened it |
| `Semaphore.Fills` | c_code/apue/apue.3e/lib/semaph.c:89-163 | every number of attachments up to BIGCOUNT is reached, by a lone process |
| `Semaphore.Reinitialises` | c_code/apue/apue.3e/lib/semaph.c:130-153 | after BIGCOUNT attachments one more `sem_create` overwrites the value of the set in use with any value |
| `Semaphore.LoneUser` | c_code/apue/apue.3e/lib/semaph.c:89-163 | a lone process gets a set with the value it asked for, attached once, and its close removes the set |
| `RefTableSteps.StepInv` | c_code/apue/apue.3e/threads/mutex2.c:19-104 | every step of every thread keeps the invariant of heap, chains, counts and mutexes |
| `RefTableRuns.RunInv` | c_code/apue/apue.3e/threads/mutex2.c:19-104 | the invariant in every state of every interleaving |
| `RefTableRuns.CountsExact` | c_code/apue/apue.3e/threads/mutex2.c:44-104 | an object's count is the number of references outstanding, at least one |
| `RefTableRuns.NothingFreedIsUsed` | c_code/apue/apue.3e/threads/mutex2.c:68-104 | no thread touches a freed object, none is on a chain, none is referenced |
| `RefTableRuns.UnlinkFindsTarget` | c_code/apue/apue.3e/threads/mutex2.c:86-95 | no null pointer is followed when an object is unlinked: its bucket has a head, every object the loop visits has a next one, and the target is always ahead |
| `RefTable.BucketOf` | c_code/apue/apue.3e/threads/mutex2.c:5-5 | the bucket of an id is the id as an unsigned long modulo 29 |
| `RefTableFinds.FindReturns` | c_code/apue/apue.3e/threads/mutex2.c:52-66 | about to return, `foo_find` has either an object allocated with the id asked for, the first such on its chain, existing and referenced by the caller, or none, and then no object on any chain has the id and whoever holds one is creating or destroying it |
| `RefTableFinds.RunFinds` | c_code/apue/apue.3e/threads/mutex2.c:52-66 | at every step of the walk no object passed has the id, and an object once found stays the first with it until the chain is unlocked |
| `RefTableFinds.FindKeepsId` | c_code/apue/apue.3e/threads/mutex2.c:52-66 | the id a call of `foo_find` is about is the one it was called with |
| `RefTableRuns.WaitRank` | c_code/apue/apue.3e/threads/mutex2.c:74-78 | whoever holds a mutex that is waited for waits for a lower kind of mutex or none |
| `RefTableRuns.NoWaitCycle` | c_code/apue/apue.3e/threads/mutex2.c:44-104 | waits on hashlock and f_lock never form a cycle, and a path of waits has at most three threads |
| `RefTableRuns.FreeToStep` | c_code/apue/apue.3e/threads/mutex2.c:19-104 | a thread that waits for no mutex can take a step |
| `RefTableRuns.SomeoneCanStep` | c_code/apue/apue.3e/threads/mutex2.c:44-104 | following waits from any thread leads to one that can take a step |
| `InetPton.Pton4` | c_code/unp/unpv13e/libfree/inet_pton.c:86-125 | accepts exactly four non-empty runs of digits of value at most 255 between single dots, and returns those values |
| `InetPton.SpoiledStays` | c_code/unp/unpv13e/libfree/inet_pton.c:98-119 | whenever the loop gives up no continuation of the text is a dotted quad |
| `InetPton.ScanLoop` | c_code/unp/unpv13e/libfree/inet_pton.c:159-198 | the loop over the text, with its buffer, as a function of the text |
| `InetPton.SpreadInPlace` | c_code/unp/unpv13e/libfree/inet_pton.c:205-218 | the shift by hand moves the bytes after `::` to the end and zeroes the gap, or zeroes them when all sixteen were given |
| `InetPton.Conclude` | c_code/unp/unpv13e/libfree/inet_pton.c:199-224 | the last word, the shift and the length test |
| `InetPton.Pton6` | c_code/unp/unpv13e/libfree/inet_pton.c:140-224 | the whole parser as a function of the text, writing only inside its sixteen bytes |
| `InetForms.ParsesExactly` | c_code/unp/unpv13e/libfree/inet_pton.c:140-224 | a string is accepted with a value if and only if it is groups of hexadecimal digits below 2^16 each with a colon, at most one extra colon, and a last group, dotted quad or nothing, of the right total size, and the value is what that means |
| `InetForms.Accepts` | c_code/unp/unpv13e/libfree/inet_pton.c:140-224 | every such string is accepted with its meaning, whatever case, leading zeros and quad it has |
| `InetForms.HasShape` | c_code/unp/unpv13e/libfree/inet_pton.c:162-198 | every accepted string is of that kind |
| `InetForms.ScanDigits` | c_code/unp/unpv13e/libfree/inet_pton.c:165-174 | a run of digits of any length is read as its value, and refused exactly when that exceeds 16 bits |
| `InetForms.DigitsAsHex` | c_code/unp/unpv13e/libfree/inet_pton.c:165-174 | the first octet of a quad, read as hexadecimal before its dot is seen, never overflows |
| `InetForms.DoubleColonInFullAddress` | c_code/unp/unpv13e/libfree/inet_pton.c:205-218 | `::` among sixteen given bytes zeroes the ones after it; the address survives exactly when those are zero |
| `InetText.QuadRoundTrip` | c_code/unp/unpv13e/libfree/inet_ntop.c:85-101 | reading back a printed IPv4 address gives that address |
| `InetNtop.Ntop4` | c_code/unp/unpv13e/libfree/inet_ntop.c:85-101 | the dotted quad, unless it is longer than the given size; the copy runs over the buffer exactly when it is as long as the size |
| `InetNtop.OverrunSizes` | c_code/unp/unpv13e/libfree/inet_ntop.c:92-99 | the text has 7 to 15 characters, so no buffer of 16 or more is overrun |
| `InetNtop.CopyWords` | c_code/unp/unpv13e/libfree/inet_ntop.c:132-134 | the eight big-endian words of the address |
| `InetNtop.FindBest` | c_code/unp/unpv13e/libfree/inet_ntop.c:135-156 | the first longest run of at least two zero words, or none |
| `InetNtop.BestUnique` | c_code/unp/unpv13e/libfree/inet_ntop.c:135-156 | that run is determined by the address |
| `InetNtop.TextFits` | c_code/unp/unpv13e/libfree/inet_ntop.c:122-122 | the text and its NUL fit the local buffer for every address and run |
| `InetNtop.FullText` | c_code/unp/unpv13e/libfree/inet_ntop.c:161-183 | without a run to shorten the text is the eight words in hexadecimal with colons between them |
| `InetNtop.JoinMeans` | c_code/unp/unpv13e/libfree/inet_ntop.c:161-183 | words are printed one after another with single colons between them |
| `Numerals.HexMeans` | c_code/unp/unpv13e/libfree/inet_ntop.c:181-181 | `"%x"` writes the value in lower-case digits, none of them a needless zero |
| `Numerals.HexDigits` | c_code/unp/unpv13e/libfree/inet_pton.c:142-168 | the digits read as hexadecimal, of either case, and their values |
| `InetNtop.Ntop6` | c_code/unp/unpv13e/libfree/inet_ntop.c:109-198 | the text with the best run shortened; twelve zero bytes before a non-zero word give `::` and a dotted quad, ten and two of 255 give `::ffff:` and one, and no other text has a dot; refused exactly when it and its NUL exceed the size |
| `InetRoundTrip.RoundTrip6` | c_code/unp/unpv13e/libfree/inet_ntop.c:109-198 | parsing the printed form of any sixteen bytes gives those bytes, whatever run was shortened or quad embedded |
| `InetRoundTrip.PrintAndParse` | c_code/unp/unpv13e/libfree/inet_ntop.c:109-198 | the two programs composed are the identity |
| `CdeclTokens.Machine.GetToken` | c_code/expert_c/cdecl2.c:58-82 | one token: blanks skipped, an alphanumeric run classified, any other character alone |
| `CdeclTokens.Machine.ReadToName` | c_code/expert_c/cdecl2.c:94-104 | everything up to the first identifier is stacked and the name printed, or the stack overflows |
| `CdeclTokens.Machine.ReadSizes` | c_code/expert_c/cdecl2.c:106-120 | all array suffixes are read and printed |
| `CdeclTokens.Machine.ReadParams` | c_code/expert_c/cdecl2.c:122-132 | the parameter list is skipped past its `)`, or the read never ends |
| `CdeclTokens.IntTextMeans` | c_code/expert_c/cdecl2.c:113-113 | a bound is printed as the decimal digits of its value, after a minus sign if it is negative |
| `CdeclTokens.AlnumCodes` | c_code/expert_c/cdecl2.c:64-66 | a word is made of the ASCII letters and digits |
| `CdeclTokens.Keywords` | c_code/expert_c/cdecl2.c:30-56 | the twelve type keywords, the qualifiers, and every other word a name |
| `CdeclMeaning.LayoutComes` | c_code/expert_c/cdecl2.c:58-82 | the token reader recovers the words of a declaration from any layout with blanks |
| `CdeclMeaning.EnglishOutward` | c_code/expert_c/cdecl2.c:106-167 | the English of a declarator's type is its levels' phrases read outward from the name |
| `CdeclReading.ReadsName` | c_code/expert_c/cdecl2.c:94-104 | on a declaration exactly the words before the name are stacked; overflow exactly when there are more than 100 |
| `CdeclReading.ReadsArrays` | c_code/expert_c/cdecl2.c:106-120 | on array suffixes of any number and size exactly their phrases are printed and their tokens consumed |
| `CdeclReading.BoundsSaid` | c_code/expert_c/cdecl2.c:106-120 | between "array " and "of " stands "0.." and the digits of n - 1, for every numeral of value n from 1 on |
| `CdeclMeaning.SaysBounds` | c_code/expert_c/cdecl2.c:106-120 | the same of the phrases for an array of n elements |
| `CdeclReading.SkipsParams` | c_code/expert_c/cdecl2.c:122-132 | on any parameter list without a `)` exactly its tokens are consumed |
| `Cdecl.GetArray` | c_code/expert_c/cdecl2.c:106-120 | all array suffixes are said; the next state is get_lparen if there was one, else get_params |
| `Cdecl.GetParams` | c_code/expert_c/cdecl2.c:122-132 | a parameter list is skipped and a function said; without a closing `)` the read never ends |
| `Cdecl.GetLparen` | c_code/expert_c/cdecl2.c:134-144 | an open parenthesis on top is popped with its `)` and the arrays outside it come next; else the pointers |
| `Cdecl.GetPtrPart` | c_code/expert_c/cdecl2.c:147-158 | a star or qualifier on top is popped and said, anything else goes to get_type, and with an empty stack it looks below it |
| `Cdecl.GetType` | c_code/expert_c/cdecl2.c:160-167 | everything stacked is said from the top down and the line ended |
| `Cdecl.Shrinks` | c_code/expert_c/cdecl2.c:87-92 | every step but the first shortens the stack or moves toward the end |
| `Cdecl.Translate` | c_code/expert_c/cdecl2.c:87-92 | the program on any input ends with the result of `Finish` |
| `Cdecl.FinishesDeclarator` | c_code/expert_c/cdecl2.c:106-158 | from the token after the name, a declarator of any depth is said, unstacked and read past, whatever lies below on the stack |
| `Cdecl.FinishesSpecifiers` | c_code/expert_c/cdecl2.c:134-167 | the specifiers are said if one names a type; otherwise the stack is read below its bottom |
| `Cdecl.SaysTheType` | c_code/expert_c/cdecl2.c:94-167 | on every declaration of keywords the program knows and a name of letters and digits: overflow exactly beyond 100 stacked tokens, a look below the bottom exactly without a type, else exactly the English of the declared type (`CdeclIdentifiers.SaysIff` covers the other identifiers) |
| `Cdecl.SaysAnyLayout` | c_code/expert_c/cdecl2.c:58-167 | the same three outcomes, stated of the text itself with any blanks between the words and anything after the end |
| `CdeclRecursive.DealWithPointers` | c_code/expert_c/char3_analytype.c:109-114 | the stars on top are printed and popped, or the stack is read below its bottom |
| `CdeclRecursive.DealWithDeclarator` | c_code/expert_c/char3_analytype.c:115-133 | the recursive procedure as a function of the globals |
| `CdeclRecursive.Translate` | c_code/expert_c/char3_analytype.c:135-140 | the program on any input ends with the result of `Run` |
| `CdeclRecursive.StarsFirst` | c_code/expert_c/char3_analytype.c:109-133 | above a token that is no star, popping stars first changes nothing of what is printed |
| `CdeclRecursive.FinishesDeclarator` | c_code/expert_c/char3_analytype.c:115-133 | a declarator of any depth is said, unstacked and read past, unless nothing but stars is left at its outermost level: then the stack is read below its bottom |
| `CdeclRecursive.SaysTheType` | c_code/expert_c/char3_analytype.c:77-133 | on every such declaration without `static`: overflow exactly beyond 100 stacked tokens, a look below the bottom exactly without a specifier and without a qualifier after an outermost star, else the English of the declared type |
| `CdeclAgreement.AgreeIff` | c_code/expert_c/char3_analytype.c:77-133 | the two programs print the same phrases up to spacing exactly when no specifier is `static` |
| `CdeclAgreement.AgreeWithoutStatic` | c_code/expert_c/char3_analytype.c:77-133 | without `static` they agree even when the stack overflows |
| `CdeclAgreement.StaticIsNamed` | c_code/expert_c/char3_analytype.c:30-52 | with `static` the recursive program can only print a sentence about a name `static` |
| `CdeclAgreement.LayoutSpells` | c_code/expert_c/char3_analytype.c:54-76 | both programs read the same words from any layout |
| `CdeclExamples.MachineSays` | c_code/expert_c/cdecl2.c:87-167 | the words of `static const char *(*volatile a[10][])(int);` are said string by string as the state machine prints them |
| `CdeclExamples.RecursiveSays` | c_code/expert_c/char3_analytype.c:77-140 | the same declaration without `static`, as the recursive program prints it |
| `CdeclOutput.PrintsNoUnderscore` | c_code/expert_c/cdecl2.c:58-167 | on any input at all, either program prints first a name of letters and digits, and after it no string with an underscore but the underscore alone |
| `CdeclIdentifiers.NameWithUnderscore` | c_code/expert_c/cdecl2.c:58-82 | no input makes either program print the sentence of a declaration whose name has an underscore |
| `CdeclIdentifiers.SpecifierWithUnderscore` | c_code/expert_c/cdecl2.c:58-82 | nor of one with a specifier that has an underscore beside other characters |
| `CdeclIdentifiers.WordBeforeName` | c_code/expert_c/cdecl2.c:94-104 | a specifier or qualifier outside the table is taken for the name, and the declared type is not said, even if that word is the name |
| `CdeclIdentifiers.SaysIff` | c_code/expert_c/cdecl2.c:58-167 | of every declaration with C's identifiers, in any layout, each program says the declared type if and only if the name has no underscore, every specifier is known to it, no star has `restrict`, the words fit the stack and one is left to name a type |
| `CdeclIdentifiers.UnderscoreIsLost` | c_code/expert_c/cdecl2.c:65-72 | `int a_b;` is said as `int a` by both programs |
| `Rot13.TranslateInvolution` | c_code/apue/apue.3e/advio/rot13c2.c:25-40 | translating twice restores every byte |
| `Rot13.TranslateShifts` | c_code/apue/apue.3e/advio/rot13c2.c:25-40 | each letter goes thirteen places on in its alphabet, in its own case; every other byte stays |
| `Rot13.Pipeline.StartRead` | c_code/apue/apue.3e/advio/rot13c2.c:71-89 | starts the next block if there is one, keeping the invariant (`numop` counts the buffers in use; every byte below `off` is written or in exactly the block some buffer holds) |
| `Rot13.Pipeline.StartWrite` | c_code/apue/apue.3e/advio/rot13c2.c:91-117 | translates and queues a block that was read; the short-read exit is never taken |
| `Rot13.Pipeline.FinishWrite` | c_code/apue/apue.3e/advio/rot13c2.c:119-139 | the block is in the output and the buffer free, keeping the invariant |
| `Rot13.Pipeline.Visit` | c_code/apue/apue.3e/advio/rot13c2.c:69-141 | one turn of the inner loop makes progress or finds nothing to do, whichever operations have completed |
| `Rot13.Pipeline.Run` | c_code/apue/apue.3e/advio/rot13c2.c:67-149 | for every length, block size, buffer count and completion order the loop ends, and then the output is the translation of every input byte |
| `Rot13.RunTwice` | c_code/apue/apue.3e/advio/rot13c2.c:67-149 | running the pipeline on its own output restores the file |
| `BoundedBuffer.StepInv` | c_code/csapp/code/conc/sbuf.c:28-49 | every step of every thread keeps the invariant |
| `BoundedBuffer.RunInv` | c_code/csapp/code/conc/sbuf.c:28-49 | the invariant in every state of every interleaving |
| `BoundedBuffer.WriteMisses` | c_code/csapp/code/conc/sbuf.c:32-32 | an insertion never overwrites a slot that holds an unread item |
| `BoundedBuffer.BufferIsFifo` | c_code/csapp/code/conc/sbuf.c:28-49 | slots, items and operations in flight add up to n; 0 <= rear - front <= n; the removed items are the first inserted ones, in order, and the others stand in the buffer |
| `BoundedBuffer.ReturnsInserted` | c_code/csapp/code/conc/sbuf.c:39-49 | what `sbuf_remove` is about to return is the item inserted with its number, a number no other thread has |
| `BoundedBuffer.InsertsItem` | c_code/csapp/code/conc/sbuf.c:28-35 | a call of `sbuf_insert` inserts the item it was called with |
| `BoundedBuffer.PositiveSize` | c_code/csapp/code/conc/sbuf.c:28-49 | the size is positive whenever a thread is inside an operation, so no index is taken modulo 0 |
| `BoundedBuffer.BlockedIff` | c_code/csapp/code/conc/sbuf.c:28-44 | a thread about to insert is blocked exactly when `slots` is 0, one about to remove exactly when `items` is 0 |
| `BoundedBuffer.HolderSteps` | c_code/csapp/code/conc/sbuf.c:31-47 | whoever has passed P(mutex) can go on, up to its V(mutex) |
| `BoundedBuffer.NeverStuck` | c_code/csapp/code/conc/sbuf.c:28-49 | in every run a thread inside an operation can go on, or the holder of the mutex it waits for can |
| `BoundedBuffer.SomeoneCanStep` | c_code/csapp/code/conc/sbuf.c:28-49 | a buffer of positive size always lets some thread step |
| `Rio.Reader.constructor` | c_code/csapp/code/src/csapp.c:617-622 | an empty buffer on the descriptor |
| `Rio.Reader.Refill` | c_code/csapp/code/src/csapp.c:589-601 | through any number of interruptions: unread bytes, or end of file, or an error, as the descriptor has it next |
| `Rio.Reader.Read` | c_code/csapp/code/src/csapp.c:585-610 | a non-empty beginning of the bytes ahead, at most n; nothing only at end of file or on an error |
| `Rio.Reader.ReadNb` | c_code/csapp/code/src/csapp.c:629-648 | exactly the next n bytes, or all bytes before end of file or an error, with the count or -1 |
| `Rio.Reader.ReadLineb` | c_code/csapp/code/src/csapp.c:655-675 | the bytes through the first newline, or maxlen - 1 of them, or those before end of file or an error, and the value returned in each case |
| `Rio.Reader.Conserved` | c_code/csapp/code/src/csapp.c:585-675 | bytes delivered, then bytes buffered, then bytes not yet read are the descriptor's bytes |
| `Rio.Session` | c_code/csapp/code/src/csapp.c:585-675 | any mix of the two calls delivers consecutive pieces of the stream; without an early end they depend on the stream alone, not on short reads or interruptions |
| `Checksum.OnesSumResidue` | c_code/unp/unpv13e/libfree/in_cksum.c:16-31 | one's-complement addition is arithmetic modulo 65535 with 65535 for a non-zero multiple |
| `Checksum.FoldResidue` | c_code/unp/unpv13e/libfree/in_cksum.c:28-30 | two folds of any 32-bit sum give its residue, complemented |
| `Checksum.FoldsToOnesSum` | c_code/unp/unpv13e/libfree/in_cksum.c:16-31 | for up to 65537 words the sum does not wrap and folds to the one's-complement sum |
| `Checksum.OrderIrrelevant` | c_code/unp/unpv13e/libfree/in_cksum.c:16-31 | words in any order have the same sum |
| `Checksum.SelfVerifying` | c_code/unp/unpv13e/libfree/in_cksum.c:16-31 | the program's answer stored in a zero word makes its answer zero |
| `Checksum.LoadBytes` | c_code/unp/unpv13e/libfree/in_cksum.c:16-19 | the first byte of a word is its high one on a big-endian machine and its low one on the other |
| `Checksum.OddPadded` | c_code/unp/unpv13e/libfree/in_cksum.c:21-25 | an odd last byte counts as if a zero byte followed |
| `Checksum.ByteOrderIrrelevant` | c_code/unp/unpv13e/libfree/in_cksum.c:16-31 | machines of either byte order store the same two bytes |
| `Checksum.InCksum` | c_code/unp/unpv13e/libfree/in_cksum.c:3-32 | for buffers of every length and either byte order the folded 32-bit sum; the complement of the one's-complement sum exactly when the sum fits 32 bits, as it does up to 65537 words |
| `Checksum.RightIff` | c_code/unp/unpv13e/libfree/in_cksum.c:16-31 | for every number of words up to 2^30 the result is the complement of the one's-complement sum if and only if the sum fits 32 bits |
| `Checksum.MoreWordsWrap` | c_code/unp/unpv13e/libfree/in_cksum.c:16-31 | for every number of words above 65537 words of ones wrap the accumulator and give a wrong checksum |

## Left out

The database:

- `db_open` of an existing file, `db_close`, file descriptors, `lseek`, `readv`, `writev`, malloc failure and the operation counters are not part of this model; a file is its bytes, and a descriptor its offset.
- Db.Database: the lock calls are not in this class. `DbLocks` models them, and `DbShared` the calls of several processes under them, where the index file is its pointer fields and records; that writing a field or record changes just that many bytes is `DbFormat.WritePtrParses`, `DbFormat.RewriteParses` and `DbFormat.AppendParses`.
- DbSharedRuns.Atomic: the files are those of a newly created database; a `db_open` with O_TRUNC while others use it empties the files before it asks for any lock and is left out, and so are stores that end the process, processes that die inside a call, and the contents of a scan. A walk of a list is one step (`DbSharedRuns.ReadsUndisturbed` says why that is enough), and the chain pointer is read in the step of the search before it or of the unlock before it.
- The atomicity of `db_nextrec` against concurrent stores is not claimed: a reused record is rewritten after the free list is unlocked.
- Db.Database.WriteIdx: the formatting of a key out of the buffer it is formatted into (a delete passes the index buffer itself) is taken as building a fresh string; a record longer than the index buffer overruns it in `sprintf` before its length is compared with the limit, and is taken whole here.
- Keys have no NUL and no `:` (`DbRecord.ReadsBackIff` says that other records do not read back), data have no NUL; `char` is signed in the hash; `off_t` and `atol` do not overflow on seven-column pointers.
- Db.Database.ScanAll: keys consisting of blanks only are stored and fetched as any other, but a scan skips them as it skips deleted records.
- DbLocks.StepInv: unlocking removes a lock on exactly that range; splitting a lock by unlocking part of it never arises here and is not modelled.
- The copy of the database in c_code/apue/mydb is not part of this model; it is the same algorithm.

The other programs:

- Semaphore.StepInv: no `sem_create` reads the counter with BIGCOUNT attachments outstanding; direct calls of `sem_rm` are left out, and so are calls of `sem_op` and `sem_close` on a set that has been removed. A `sem_open` that finds its set gone ends the process, as a death does.
- RefTableSteps.StepInv: a freed object's address is not reused, failing `malloc` and mutex initialisation are left out, and callers release only references they hold.
- Cdecl.SaysTheType: names with an underscore and words outside the table are the subject of `CdeclIdentifiers.SaysIff`; struct, union and enum tags, a `)` inside a parameter list, array sizes that are not decimal numbers, and a level with both arrays and parameters are outside the declarations covered.
- CdeclTokens.Machine.GetToken: a word longer than the 63 characters a token holds overflows it in C and is taken whole here; sizes are below 2^31.
- Rot13.Pipeline.Run: reads and writes that fail or come back short against the file's length are left out, and so is the final `aio_fsync`.
- BoundedBuffer.StepInv: `front`, `rear` and the semaphores are unbounded numbers.
- Rio.Reader.ReadLineb: the NUL stored after the line is not part of the bytes delivered; `int` and `size_t` do not overflow.
- The other routines of `csapp.c` and the wrappers around system calls elsewhere are thin and left out.
- printd.c, strclinonb.c, the cvm shell, the web and echo servers, and the daytime, UDP, multicast and signal examples are process and network plumbing or do not do what they intend.
- Small exercises (polynomials, detab, list reversal, time arithmetic, round-trip estimation, prefix sums, the merge in barrier.c) would only add easier members.
