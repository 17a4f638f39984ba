# Verified models of the algorithms and protocols in this repository

Most of this repository is small UNIX exercises. A few files in it carry real algorithms and protocols; the
Dafny modules here model those and prove what they are for. Nothing was executed: the claims are the
contracts, and Dafny's verifier checks them. `dafny verify dfyconfig.toml` checks everything.

| modules | models |
|---|---|
| DbText, DbIndex, DbBytes, DbFile, DbLaws, DbRun | the key/value library `db.c` for one process, down to the bytes of its two files |
| DbSteps, DbStepsInv, DbStepsMem, DbStepsSafe, DbStepsCalls | the same library for any number of processes, one system call a step, with its record locks |
| DbStepsBytes | the bytes of the two files under that state machine |
| MmBlocks, MmHeap, MmRun | the boundary-tag allocator `mm.c`, on the words of the heap |
| FooTable, FooMoves, FooCalls | the table of reference-counted objects, the atomic table it implements, and whole calls on it |
| FooTwoLocks, FooTwoLocksProof, FooTwoLocksCalls | `mutex2.c`: two lock levels, any number of threads, one access a step |
| FooOneLock, FooOneLockProof, FooOneLockCalls | `mutex3.c`: the same table under one lock |
| SemSet, SemCalls | the System V semaphore set protocol `semaph.c` |
| ShellSort, MergeQuick | the sorts of `insert_sort.cpp` |
| Rot13, Rot13Async | `rot13a.c` and the asynchronous pipeline `rot13c2.c` |
| PrintQueue, PrintThreads, PrintCalls | the print-job queue and the threads around it in `printd.c` |
| SegmentMerge | `merge` of `barrier.c` |
| Basics | Option, and sequences without duplicates |

How the layers fit: where the source changes something in place there is a class or an array with the
source's own fields and loops, proved against a specification on values (maps, sequences, blocks); the
laws are lemmas about those values. Where several processes or threads run, a state machine has one step
for every system call or shared access, an invariant is kept by every step, and the results are about
every run. In the state machines each process relies on facts that its locks protect; for every writing
step there is a lemma that it keeps the files well-formed (`...Ok`) and one that it keeps what the others
rely on (`...Rely`). The `...Calls` modules say what whole calls do: over a run, from the step that begins a
call to the one that returns from it, the call has done exactly what it is for.

## What is assumed

- db: a stored key has no NUL and no `:`, data has no NUL; offsets and lengths out of range end the
  process (`err_dump`, `err_quit`), which `Died` and a false `ok` stand for. A single read, write, readv or
  writev is atomic, and each process has one handle. `_db_writeidx` may print over the buffer that holds its
  key (lines 509 and 577); the key counts as read first. In DbSteps the pointer, length and data of a record that is
  protected by one lock are read in one step, calls have valid flags and data sizes, and appended records
  fit.
- mm: `mem_init` and `mm_init` have succeeded, only live pointers are freed, once each. Addresses count from the
  heap's first byte, which is aligned to eight.
- mutex2.c, mutex3.c: a thread holds or releases only a reference it owns, and may hand one to another
  thread; objects are told apart by fresh names even if their memory is used again.
- semaph.c: System V semantics: a semop is all or nothing; SETVAL clears the undo values of that member; a
  dead process's undo values are added, but no member goes below 0; removing a set drops its undo values.
  A process closes only what it opened and uses [0] only while the set is open. Permission and table-full
  errors are not modelled.
- rot13c2.c: a read returns BSZ bytes or what remains of the file, and requests do not fail.
- printd.c: joblock is a mutex and jobwait a condition variable that may wake up without a signal.
- barrier.c: any number and length of segments instead of 8 and 1000000. A round that finds no next element
  below LONG_MAX goes on with the old minidx, as in the source. The model stops, with a false `ok`, where
  that one is undefined or its segment used up; the source would read outside the segment.

## Model

| member | source | states |
|---|---|---|
| DbText.AtolPad | lab_1/apue.3e/db/db.c:323-334 | atol of a number printed with `%*lld`, in any width, is the number |
| DbText.PadWidth | lab_1/apue.3e/db/db.c:618-631 | a number that fits the field fills it exactly, so a rewritten pointer never moves its neighbours |
| DbText.PtrWidth | lab_1/apue.3e/db/db.c:571-583 | every pointer up to PTR_MAX prints in exactly PTR_SZ characters |
| DbText.LenWidth | lab_1/apue.3e/db/db.c:577-583 | every record length up to IDXLEN_MAX prints in exactly IDXLEN_SZ characters |
| DbText.BodyRoundTrip | lab_1/apue.3e/db/db.c:396-418 | a printed record body parses back to its key, data offset and data length, and its length depends on the key's length only |
| DbText.BodyInjective | lab_1/apue.3e/db/db.c:577-580 | two different keys, offsets or lengths never print alike |
| DbIndex.HashExample | lab_1/apue.3e/db/db.c:306-316 | the chain of one key, computed by hand |
| DbIndex.LinkedUnique | lab_1/apue.3e/db/db.c:289-300 | the pointers determine the list: a walk from the head visits these offsets in this order and stops at 0, so every walk ends |
| DbIndex.PushOk | lab_1/apue.3e/db/db.c:687-697 | putting a record that is on no list at the front of one keeps every record on at most one list, once |
| DbIndex.DetachOk | lab_1/apue.3e/db/db.c:516-522 | taking a record off its list keeps the partition |
| DbIndex.AllLinkedPush | lab_1/apue.3e/db/db.c:680-697 | two pointer writes put a record in front of its list and leave the other 137 lists as they were |
| DbIndex.AllLinkedRemove | lab_1/apue.3e/db/db.c:770-789 | one pointer write takes a record off its list and leaves every list linked |
| DbBytes.LayoutExample | lab_1/apue.3e/db/db.c:577-583 | the printed form of one record, byte for byte |
| DbBytes.WritePtrText | lab_1/apue.3e/db/db.c:618-631 | rewriting one pointer field changes that slot of the file's meaning and nothing else |
| DbBytes.WriteRecText | lab_1/apue.3e/db/db.c:567-612 | writing a record over one of the same length, or at the end, changes that record and its slot only; the file still parses as a run of adjacent records |
| DbBytes.ReadPtrText | lab_1/apue.3e/db/db.c:323-334 | reading a slot's seven bytes gives the number it holds |
| DbBytes.ReadRecText | lab_1/apue.3e/db/db.c:343-418 | reading a record gives back length and fields; no err_dump branch is taken |
| DbBytes.DeleteContent | lab_1/apue.3e/db/db.c:463-525 | blanking a live record in both files and freeing it removes exactly its key from the map |
| DbBytes.FillContent | lab_1/apue.3e/db/db.c:675-699 | writing key and data into a record on no list, old or new, adds exactly that pair |
| DbBytes.OverwriteContent | lab_1/apue.3e/db/db.c:732-738 | same-length data written in place changes exactly that pair; all extents stay disjoint |
| DbFile.OneList | lab_1/apue.3e/db/db.c:289-300 | between calls every record lies on exactly one list at exactly one place: its key's chain, or the free list with a blank key |
| DbFile.InsertDone | lab_1/apue.3e/db/db.c:675-699 | the bytes after either insertion path stand for the old map plus the pair |
| DbFile.DeleteDone | lab_1/apue.3e/db/db.c:463-525 | the bytes after a deletion stand for the old map minus the key |
| DbFile.TakeDone | lab_1/apue.3e/db/db.c:770-797 | after a free record is taken everything is in order except that the record is on no list |
| DbFile.Lookup | lab_1/apue.3e/db/db.c:233-253 | the map's pair is at the key's record on the key's chain, with the data behind it |
| DbFile.Db.constructor | lab_1/apue.3e/db/db.c:134-165 | a created database is well-formed and stands for the empty map |
| DbFile.Db.InitialHash | lab_1/apue.3e/db/db.c:148-161 | the initial file is 138 printed zeros and a newline |
| DbFile.Db.ReadPtr | lab_1/apue.3e/db/db.c:323-334 | returns the number in the slot |
| DbFile.Db.ReadIdx | lab_1/apue.3e/db/db.c:343-418 | sets the DB fields to the record's pointer, lengths, key and offsets and the file offset to its end; -1 exactly at end of file |
| DbFile.Db.ReadDat | lab_1/apue.3e/db/db.c:424-435 | returns the data without its newline |
| DbFile.Db.WriteDat | lab_1/apue.3e/db/db.c:531-560 | writes data and newline at the offset or at the end and sets datoff and datlen |
| DbFile.Db.WriteIdx | lab_1/apue.3e/db/db.c:567-612 | writes the record and nothing else; ends the process exactly for a pointer or length out of range |
| DbFile.Db.WritePtr | lab_1/apue.3e/db/db.c:618-631 | writes the slot and nothing else; ends the process exactly for a pointer above PTR_MAX |
| DbFile.Db.HashOf | lab_1/apue.3e/db/db.c:306-316 | the loop computes the weighted character sum modulo 2^64, then modulo the table size |
| DbFile.Db.FindAndLock | lab_1/apue.3e/db/db.c:259-301 | terminates; 0 exactly if the map has the key, and then the fields describe its record and the slot before it |
| DbFile.Db.Fetch | lab_1/apue.3e/db/db.c:233-253 | returns the map's data for the key, or NULL |
| DbFile.Db.BlankOut | lab_1/apue.3e/db/db.c:470-478 | a string of blanks of the same length |
| DbFile.Db.DoDelete | lab_1/apue.3e/db/db.c:463-525 | removes the current key from the map and nothing else; both files keep their length |
| DbFile.Db.MoveOver | lab_1/apue.3e/db/db.c:511-522 | the last two writes of a deletion change the free-list pointer and the slot before the record, nothing else |
| DbFile.Db.Delete | lab_1/apue.3e/db/db.c:440-456 | removes the key; 0 if it was there, else -1; both files keep their length |
| DbFile.Db.FindFree | lab_1/apue.3e/db/db.c:752-805 | takes the first free record of exactly these sizes off the free list; -1 exactly if there is none; nothing else changes |
| DbFile.Db.Append | lab_1/apue.3e/db/db.c:675-688 | adds the pair at the ends of both files, which grow by exactly one record and one data text; fails exactly if the record or pointer is too long |
| DbFile.Db.Refill | lab_1/apue.3e/db/db.c:689-699 | adds the pair, in the record taken off the free list; both files keep their length |
| DbFile.StoreSpecMeans | lab_1/apue.3e/db/db.c:637-746 | the finite map that db_store is proved against answers and changes as its documentation says, for every flag |
| DbFile.Db.Store | lab_1/apue.3e/db/db.c:637-746 | 0 exactly if the map now holds the data at the key and is otherwise unchanged; 1 exactly for DB_INSERT of a present key and -1 exactly for a bad flag or DB_REPLACE of an absent key, both with the map unchanged; ends the process exactly for bad data lengths or a record that must be appended and does not fit; says exactly when and by how much the files grow |
| DbFile.Db.Rewind | lab_1/apue.3e/db/db.c:812-827 | the file offset is the first record's or the end |
| DbFile.Db.NextRec | lab_1/apue.3e/db/db.c:835-875 | the next record that is not blank, with the map's data; only blank records are skipped |
| DbFile.Db.ScanAll | lab_1/apue.3e/db/db.c:812-875 | rewind and nextrec to the end give every pair with a non-blank key once, in file order, and nothing else |
| DbLaws.ResultMeans | lab_1/apue.3e/db/db.c:233-746 | one call of the atomic map, said by what its result says: 0 for a store only if the data is there and nothing else changed, 0 for a deletion only if the key was there and is gone, and so on for every result |
| DbLaws.LastNext | lab_1/apue.3e/db/db.c:440-746 | a call that changes a key becomes the last to have changed it, any other leaves the last one in place |
| DbLaws.SerialLawful | lab_1/apue.3e/db/db.c:233-746 | in every serial history each result is determined by the calls before it, through the last store or deletion of its key that succeeded |
| DbRun.Call | lab_1/apue.3e/db/db.c:233-253 | any one call on a well-formed database answers and changes the map as the atomic map does, or ends the process for a stated reason; only a store makes the files longer, by at most one record of the largest size and its data |
| DbRun.FitsInTurn | lab_1/apue.3e/db/db.c:567-588 | if record lengths and pointers cannot get too long even when every store appends, no call of the sequence ends the process |
| DbRun.RunAll | lab_1/apue.3e/db/db.c:637-746 | for every sequence of stores, fetches and deletes on a new database all results are those of a finite map, and each is what the calls before it demand: a fetch gives the data of the last store of its key that succeeded and was not deleted since, or NULL; it stops early only at a store of bad size or one that does not fit files no longer than the calls so far allow, and never if the sizes, seen beforehand, surely fit |
| DbStepsInv.PointStable | lab_1/apue.3e/db/db.c:259-301 | whatever the record locks let other processes do, a process's local variables keep agreeing with the files |
| DbStepsMem.TouchRely | lab_1/apue.3e/db/db.c:474-525 | a write outside everything a process has locked or owns leaves alone all that it relies on |
| DbStepsMem.BlankedOk | lab_1/apue.3e/db/db.c:486-489 | blanking a record's data keeps the files well-formed; the record now belongs to the deleting process |
| DbStepsMem.BlankedRely | lab_1/apue.3e/db/db.c:486-489 | and no other process notices |
| DbStepsMem.RewrittenOk | lab_1/apue.3e/db/db.c:502-509 | rewriting the index record blank keeps its length, the layout and every list |
| DbStepsMem.RewrittenRely | lab_1/apue.3e/db/db.c:502-509 | and no other process notices |
| DbStepsMem.FreedOk | lab_1/apue.3e/db/db.c:511-514 | storing the free-list pointer hands the record to the free list |
| DbStepsMem.FreedRely | lab_1/apue.3e/db/db.c:511-514 | and no other process notices |
| DbStepsMem.UnhookedOk | lab_1/apue.3e/db/db.c:516-522 | the last pointer store closes the gap in the chain |
| DbStepsMem.UnhookedRely | lab_1/apue.3e/db/db.c:516-522 | and no process on another chain notices |
| DbStepsMem.TakenOk | lab_1/apue.3e/db/db.c:780-790 | taking a free record hands it to the storing process |
| DbStepsMem.TakenRely | lab_1/apue.3e/db/db.c:780-790 | and no other process notices |
| DbStepsMem.FilledDatOk | lab_1/apue.3e/db/db.c:695-695 | writing data into the owned record keeps the files well-formed |
| DbStepsMem.FilledDatRely | lab_1/apue.3e/db/db.c:695-695 | and no other process notices |
| DbStepsMem.FilledIdxOk | lab_1/apue.3e/db/db.c:696-696 | writing the key into the owned record keeps its length and the layout |
| DbStepsMem.FilledIdxRely | lab_1/apue.3e/db/db.c:696-696 | and no other process notices |
| DbStepsMem.GrownDatOk | lab_1/apue.3e/db/db.c:542-559 | appended data belongs to the appending process and overlaps nothing |
| DbStepsMem.GrownDatRely | lab_1/apue.3e/db/db.c:542-559 | and no other process notices |
| DbStepsMem.GrownIdxOk | lab_1/apue.3e/db/db.c:590-611 | an appended record belongs to the appending process and extends the run of records |
| DbStepsMem.GrownIdxRely | lab_1/apue.3e/db/db.c:590-611 | and no other process notices |
| DbStepsMem.HeadedOk | lab_1/apue.3e/db/db.c:683-687 | storing the chain head publishes the record and puts the pair into the map |
| DbStepsMem.HeadedRely | lab_1/apue.3e/db/db.c:683-687 | and no process on another chain notices |
| DbStepsMem.OverwrittenOk | lab_1/apue.3e/db/db.c:732-738 | overwriting data in place changes the map's value and nothing else |
| DbStepsMem.OverwrittenRely | lab_1/apue.3e/db/db.c:732-738 | and no process on another chain notices |
| DbStepsSafe.InitInv | lab_1/apue.3e/db/db.c:134-165 | a created database and idle processes satisfy the invariant |
| DbStepsSafe.ChainLockPoint | lab_1/apue.3e/db/db.c:273-289 | whoever gets a chain lock finds the whole chain linked and no replacement of its key half done |
| DbStepsSafe.LocksExclude | lab_1/apue.3e/db/db.c:273-283 | two processes never hold conflicting locks |
| DbStepsSafe.WalkMiss | lab_1/apue.3e/db/db.c:289-300 | a walk that reaches the end proves the key absent from the map |
| DbStepsSafe.WalkHit | lab_1/apue.3e/db/db.c:290-295 | a walk that finds the key stands at the map's record for it |
| DbStepsSafe.WritePoint | lab_1/apue.3e/db/db.c:486-525 | each writing call keeps the files well-formed and its process's point justified |
| DbStepsSafe.WriteRely | lab_1/apue.3e/db/db.c:486-525 | and leaves alone what every other process relies on |
| DbStepsSafe.CallEvent | lab_1/apue.3e/db/db.c:637-746 | each call takes effect at most once, at one system call, with the result of the atomic map at that moment |
| DbStepsSafe.StepInv | lab_1/apue.3e/db/db.c:259-805 | every system call of every process keeps the invariant |
| DbStepsSafe.NextInv | lab_1/apue.3e/db/db.c:259-875 | so does the start of any call |
| DbStepsSafe.RunInv | lab_1/apue.3e/db/db.c:259-875 | the invariant holds in every state of every run of any number of processes |
| DbStepsSafe.RunsAreSerial | lab_1/apue.3e/db/db.c:233-746 | every run is equivalent to one serial order on one map that consists of calls of the processes of the run: for each its returned calls, in its own order with the results it got, then at most one it is still inside |
| DbStepsSafe.HistGrows | lab_1/apue.3e/db/db.c:233-746 | one step adds at most one call to the end of the serial order and takes nothing back |
| DbStepsSafe.OrderRespectsTime | lab_1/apue.3e/db/db.c:233-746 | over any stretch of any run the serial order is extended at its end only, and a process that was between two calls has all its later calls in the new part: a call that returned before another began comes first |
| DbStepsSafe.NextRecReal | lab_1/apue.3e/db/db.c:835-875 | beside any stores and deletes db_nextrec returns only pairs that were passed to some db_store |
| DbStepsSafe.RecordsExclusive | lab_1/apue.3e/db/db.c:463-525 | no record ever belongs to two processes, or to a process and a list |
| DbStepsSafe.NoDeadlock | lab_1/apue.3e/db/db.c:542-612 | while a process is inside a call some process can make its next system call |
| DbStepsCalls.CallReturns | lab_1/apue.3e/db/db.c:233-746 | a fetch, delete or store that has returned has put exactly one event into its process's log, with the result it returned; that result is what the serial order demands there, and the event comes after everything that had taken effect when the call began |
| DbStepsCalls.ScanNext | lab_1/apue.3e/db/db.c:835-875 | each system call of db_nextrec reads the next record and stops at the first with a key, or goes on; other processes' steps do not move it |
| DbStepsCalls.NextRecCall | lab_1/apue.3e/db/db.c:835-875 | one call of db_nextrec beside any stores and deletes: the records it read lie in a row from where it stood, every one but the last was blank when read, and it returns the key of the last and its data as then read; NULL only if all were blank and it met the end of the file; it stands behind what it read |
| DbStepsCalls.NextRecAlone | lab_1/apue.3e/db/db.c:835-875 | if no other process steps in between, it returns the first record at or after its place that is not blank, with the map's data if nobody is inside another call, and NULL exactly if there is none |
| DbStepsCalls.NoneLost | lab_1/apue.3e/db/db.c:463-699 | in every run each record is on a list or in the hands of one process inside a call; with nobody inside, all are on lists, the lists are linked, and the keys in them are the map's |
| DbStepsBytes.DatStep | lab_1/apue.3e/db/db.c:531-560 | each write to the data file puts one text where it overlaps no other |
| DbStepsBytes.PtrStep | lab_1/apue.3e/db/db.c:618-631 | each pointer store is one write of seven bytes that changes that slot's meaning only |
| DbStepsBytes.RecStep | lab_1/apue.3e/db/db.c:567-612 | each record write is one write that changes that record only, in place with the same length or at the end of the file |
| DbStepsBytes.StepCarries | lab_1/apue.3e/db/db.c:486-805 | every system call, as at most one write into one of the two files, does to the bytes what the step does to their meaning |
| DbStepsBytes.RunCarries | lab_1/apue.3e/db/db.c:259-875 | in every run of any number of processes on the two files, the bytes read at every moment as the pointers, records and data of a run of the state machine; data texts never overlap |
| DbStepsBytes.ReadsCarry | lab_1/apue.3e/db/db.c:323-435 | what a step reads of a slot, a record or its data is what the system call and the parsing after it find in the bytes |
| MmBlocks.CoalescedTiled | lab_7/mm.c:13-36 | merging keeps the heap tiled from prologue to break; the merged block covers the freed one |
| MmBlocks.CoalescedMaximal | lab_7/mm.c:13-36 | after merging no two neighbours are free |
| MmBlocks.PlacedTiled | lab_7/mm.c:83-95 | placing and splitting keep the heap tiled with blocks of at least 16 bytes |
| MmBlocks.PlacedMaximal | lab_7/mm.c:83-95 | placing leaves no two free neighbours |
| MmBlocks.GrownTiled | lab_7/mm.c:38-50 | growing the heap keeps it tiled, without free neighbours, and ends in a free block of at least the size asked for |
| MmBlocks.RoundedLeast | lab_7/mm.c:103-106 | the rounded size is the least multiple of 8 that can carry two tags when free and holds n bytes and both tags |
| MmBlocks.RoundedOk | lab_7/mm.c:103-106 | the rounded size is a multiple of 8, at least 16, holds n bytes and both tags, and is less than 24 bytes more than n |
| MmBlocks.LiveDisjoint | lab_7/mm.c:97-116 | two live blocks never share a payload byte; every live block is aligned and below the break |
| MmBlocks.MallocOk | lab_7/mm.c:97-116 | NULL exactly for n = 0, or when no free block has the least size for n and the heap cannot grow by that size or CHUNKSIZE, the larger, and then nothing changes; otherwise one new aligned block with at least the least size and less than 16 bytes more, in the lowest free block that will do, the heap growing only if there is none, all other blocks in place |
| MmBlocks.MallocMeant | lab_7/mm.c:97-116 | so malloc is correct for the least size, whatever way that size is computed |
| MmBlocks.FreeOk | lab_7/mm.c:65-70 | freeing takes exactly that block out of use and leaves no two free neighbours |
| MmBlocks.FreeUndoesMalloc | lab_7/mm.c:65-116 | malloc without heap growth and then free restores the exact list of blocks |
| MmBlocks.ServeOk | lab_7/mm.c:65-116 | one request keeps layout and maximality; a release takes exactly the block with that pointer out of use, and a malloc keeps every live block |
| MmBlocks.RunOk | lab_7/mm.c:65-116 | so does every sequence of requests |
| MmHeap.RepresentableExactly | lab_7/mm.c:103-112 | exactly the requests whose size survives size_t and int arithmetic are asked of the heap unchanged |
| MmHeap.SmallRequests | lab_7/mm.c:97-107 | every request up to 2^31-16 bytes is one of them |
| MmHeap.ServedMeans | lab_7/mm.c:103-112 | for the requests that mm_malloc serves, the block found, the refusal and the growth are those of exact arithmetic |
| MmHeap.UnservedFails | lab_7/mm.c:103-112 | for every other request the block found, or else the growth of the heap, has fewer bytes than were asked for |
| MmHeap.UnservedExamples | lab_7/mm.c:103-112 | on a new heap 2^32 bytes find no block and make the heap grow by 8 bytes, and 2^64-1 bytes get the first block, of 4096 |
| MmHeap.BitTags | lab_7/mm.h:19-27 | PACK, GET_SIZE and GET_ALLOC as bit operations are the sums and remainders of the model |
| MmHeap.PackBits | lab_7/mm.h:19-27 | size and state come back out of a packed tag |
| MmHeap.Heap.constructor | lab_7/memlib.c:13-19 | an empty heap |
| MmHeap.Heap.MemSbrk | lab_7/memlib.c:21-30 | moves the break and returns the old one, or refuses and leaves it |
| MmHeap.Heap.Get | lab_7/mm.h:21-21 | reads the word at an address |
| MmHeap.Heap.Put | lab_7/mm.h:23-23 | writes one word and no other |
| MmHeap.Heap.BlockAt | lab_7/mm.h:29-35 | both tags of a block say its size and state and lie where HDRP and FTRP compute |
| MmHeap.Heap.MergePrev | lab_7/mm.c:19-23 | tags the block that the free one before it and this one make, from their own tags |
| MmHeap.Heap.MergeNext | lab_7/mm.c:24-29 | tags the block that this one and the free one after it make; the footer's place comes from the header just written |
| MmHeap.Heap.MergeBoth | lab_7/mm.c:30-34 | tags the block that all three make; its address comes from a tag left inside |
| MmHeap.Heap.Coalesce | lab_7/mm.c:13-36 | from tags alone, stale ones included, merges as the block model says, returns the merged block's address and writes only inside it |
| MmHeap.Heap.ExtendHeap | lab_7/mm.c:38-50 | grows by one free block, merged with the last, or changes nothing; live payloads stay |
| MmHeap.Heap.MmInit | lab_7/mm.c:52-63 | a prologue and one free block of CHUNKSIZE bytes |
| MmHeap.Heap.FindFit | lab_7/mm.c:72-81 | terminates with the lowest fitting free block, or NULL exactly if there is none |
| MmHeap.Heap.Place | lab_7/mm.c:83-95 | marks and splits the block as the block model says; live payloads stay |
| MmHeap.Heap.MallocMore | lab_7/mm.c:111-115 | the second half of mm_malloc, when no block fits: grows and places, or returns NULL and changes nothing |
| MmHeap.Heap.MmMalloc | lab_7/mm.c:97-116 | is the block model's malloc for every request that it serves, so also by the least size for n: NULL, the lowest fit and the growth are decided by it; and no word of a live payload changes |
| MmHeap.Heap.MmFree | lab_7/mm.c:65-70 | is the block model's free, and no word of a payload still live changes |
| MmRun.Request | lab_7/mm.c:65-116 | one request on the heap does what it does to the block model, and changes no word of a block that stays in use |
| MmRun.RunAll | lab_7/mm.c:65-116 | for every sequence of requests that mm_malloc serves the pointers and the final blocks are the block model's, and every payload word of a block in use that the sequence does not release is what it was |
| FooTable.InsertOk | lab_1/apue.3e/threads/mutex2.c:32-35 | two stores publish an object at the front of its chain and keep every chain |
| FooTable.UnlinkOk | lab_1/apue.3e/threads/mutex2.c:86-95 | one store unlinks an object at any place of its chain and keeps every chain |
| FooTable.WithoutAt | lab_1/apue.3e/threads/mutex2.c:86-95 | what is left is the chain without that object |
| FooTable.FindableWhileHeld | lab_1/apue.3e/threads/mutex2.c:52-104 | on the atomic table an object can be found exactly from its insertion until its last release, once on the chain of its id, and its count moves by one with each reference taken or dropped |
| FooTable.FindAnswers | lab_1/apue.3e/threads/mutex2.c:52-66 | a search answers for the whole table: what it finds has the id, and it misses only if no object in the table has it |
| FooMoves.RecountOk | lab_1/apue.3e/threads/mutex2.c:44-50 | a changed count keeps the table as long as it is the number of references |
| FooMoves.PublishAbs | lab_1/apue.3e/threads/mutex2.c:32-35 | publishing is the atomic insertion |
| FooMoves.TakeAbs | lab_1/apue.3e/threads/mutex2.c:86-95 | unlinking the last reference is the atomic last release |
| FooMoves.FoundFirst | lab_1/apue.3e/threads/mutex2.c:57-63 | what the search stops at is the first object on the chain with the id |
| FooMoves.MissStep | lab_1/apue.3e/threads/mutex2.c:57-65 | a search that reaches the end is an atomic miss: no object in the table has the id |
| FooMoves.TakeRely | lab_1/apue.3e/threads/mutex2.c:86-95 | unlinking changes nothing that a thread without hashlock relies on, other objects' counts and references included |
| FooTwoLocksProof.Stable | lab_1/apue.3e/threads/mutex2.c:20-104 | what a thread knows at its point survives whatever the locks let others do |
| FooTwoLocksProof.UnlinkWalk | lab_1/apue.3e/threads/mutex2.c:86-95 | the unlink loop meets the object before the end of the chain |
| FooTwoLocksProof.OwnStep | lab_1/apue.3e/threads/mutex2.c:20-104 | each access keeps the table and is one operation on the atomic table, or none |
| FooTwoLocksProof.OthersStep | lab_1/apue.3e/threads/mutex2.c:20-104 | and changes nothing another thread relies on |
| FooTwoLocksProof.StepInv | lab_1/apue.3e/threads/mutex2.c:20-104 | every access of every thread keeps the invariant and refines the atomic table |
| FooTwoLocksProof.NextInv | lab_1/apue.3e/threads/mutex2.c:20-104 | so do the start of a call, malloc and handing on a reference |
| FooTwoLocksProof.RunsRefine | lab_1/apue.3e/threads/mutex2.c:20-104 | in every run of any number of threads every step is the named operation on an atomic table that is in order, or none |
| FooTwoLocksProof.CountIsReferences | lab_1/apue.3e/threads/mutex2.c:44-50 | f_count is the number of outstanding references, at every step, until the object is freed |
| FooTwoLocksProof.NoUseAfterFree | lab_1/apue.3e/threads/mutex2.c:68-104 | no thread's next access touches a freed object |
| FooTwoLocksProof.FreedByLast | lab_1/apue.3e/threads/mutex2.c:96-99 | an object is freed only by the thread with the last reference, off the table, and never comes back |
| FooTwoLocksProof.NoDeadlock | lab_1/apue.3e/threads/mutex2.c:74-84 | while a thread is inside a call some thread can step, although release takes the locks in the other order |
| FooTwoLocksCalls.AccessRefs | lab_1/apue.3e/threads/mutex2.c:20-104 | each access of a thread changes only its own references, by the one it takes or gives up |
| FooTwoLocksCalls.CallPerforms | lab_1/apue.3e/threads/mutex2.c:20-104 | a call that has returned was exactly one operation on the atomic table and nothing else, with the argument it began with: one insertion for foo_alloc, one hold for foo_hold, one find or miss for foo_find, one release for foo_rele; its thread has one reference more or fewer accordingly, beside those that other threads handed it meanwhile |
| FooTwoLocksCalls.NoLeak | lab_1/apue.3e/threads/mutex2.c:99-103 | an object that has not been freed is in the table or in the hands of a thread that is inserting or freeing it |
| FooOneLockProof.Stable | lab_1/apue.3e/threads/mutex3.c:18-90 | what a thread knows at its point survives whatever the lock lets others do |
| FooOneLockProof.UnlinkWalk | lab_1/apue.3e/threads/mutex3.c:75-83 | the unlink loop meets the object before the end of the chain |
| FooOneLockProof.StepInv | lab_1/apue.3e/threads/mutex3.c:18-90 | every access keeps the invariant and refines the same atomic table |
| FooOneLockProof.RunsRefine | lab_1/apue.3e/threads/mutex3.c:18-90 | in every run every step is the named operation on the same atomic table, or none |
| FooOneLockProof.CountIsReferences | lab_1/apue.3e/threads/mutex3.c:43-49 | f_count is the number of references of every object in the table, except for one whose last release is between decrement and unlinking |
| FooOneLockProof.NoUseAfterFree | lab_1/apue.3e/threads/mutex3.c:67-90 | no thread's next access touches a freed object |
| FooOneLockProof.FreedByLast | lab_1/apue.3e/threads/mutex3.c:84-86 | an object is freed only by its last holder, off the table, and never comes back |
| FooOneLockProof.NoDeadlock | lab_1/apue.3e/threads/mutex3.c:18-90 | while a thread is inside a call some thread can step |
| FooOneLockCalls.AccessRefs | lab_1/apue.3e/threads/mutex3.c:18-90 | each access of a thread changes only its own references, by the one it takes or gives up |
| FooOneLockCalls.CallPerforms | lab_1/apue.3e/threads/mutex3.c:18-90 | a call that has returned was exactly its one operation on the atomic table, with the argument it began with, and its thread has one reference more or fewer accordingly |
| FooOneLockCalls.NoLeak | lab_1/apue.3e/threads/mutex3.c:84-86 | an object that has not been freed is in the table or in the hands of a thread that is inserting or freeing it |
| SemSet.DeathCount | lab_1/apue.3e/lib/semaph.c:15-24 | a dying process gives back exactly what it had open, through SEM_UNDO |
| SemSet.DeathLock | lab_1/apue.3e/lib/semaph.c:49-54 | and the lock, if it had it |
| SemSet.DeathInv | lab_1/apue.3e/lib/semaph.c:49-75 | death at any system call keeps the invariant |
| SemSet.StepInv | lab_1/apue.3e/lib/semaph.c:89-253 | every system call keeps it, except reading the counter in sem_create while BIGCOUNT opens are out |
| SemSet.OpInv | lab_1/apue.3e/lib/semaph.c:283-291 | sem_op keeps the invariant: [0] and what would be undone still add up |
| SemSet.NextInv | lab_1/apue.3e/lib/semaph.c:89-291 | so does every step of every process |
| SemSet.RunInv | lab_1/apue.3e/lib/semaph.c:89-291 | in every run [1] is BIGCOUNT less the outstanding opens of an initialised set, [2] is a lock, whoever dies where |
| SemSet.NeverReset | lab_1/apue.3e/lib/semaph.c:138-153 | while [1] of a set is set no process is at either SETVAL of it, so nothing sets [0] again, and [1] stays set |
| SemSet.NeverResetInRun | lab_1/apue.3e/lib/semaph.c:138-153 | over any stretch of any run, a set once initialised is never again at either SETVAL and keeps its initial value for as long as it exists |
| SemSet.SetAgain | lab_1/apue.3e/lib/semaph.c:146-152 | [0] is set a second time in a reachable run if the creator dies between the two SETVALs |
| SemSet.InitialisesIff | lab_1/apue.3e/lib/semaph.c:135-138 | sem_create goes on to initialise exactly if the set is new or BIGCOUNT opens are outstanding |
| SemSet.SetTwice | lab_1/apue.3e/lib/semaph.c:138-148 | with BIGCOUNT opens outstanding a reachable run sets [0] a second time |
| SemSet.RemovesIff | lab_1/apue.3e/lib/semaph.c:243-252 | sem_close goes on to remove the set exactly if nothing is open any more, and never finds [1] too large |
| SemSet.HolderRuns | lab_1/apue.3e/lib/semaph.c:155-160 | whoever has the lock can go on, unless the counter is used up |
| SemSet.RemovableNext | lab_1/apue.3e/lib/semaph.c:188-253 | a process that has seen that it may remove the set stays right, unless the decrement of a sem_open comes in between |
| SemSet.RemovedOnlyClosed | lab_1/apue.3e/lib/semaph.c:188-253 | in every run, sem_open included, in which no such decrement comes in between, the set is never removed while somebody has it open |
| SemSet.ClashRemoves | lab_1/apue.3e/lib/semaph.c:188-194 | wherever one does come in between, the next step can remove the set that was just opened |
| SemSet.NeverRemovedOpen | lab_1/apue.3e/lib/semaph.c:222-253 | so if everyone enters through sem_create the set is never removed while somebody has it open |
| SemSet.OpenRace | lab_1/apue.3e/lib/semaph.c:188-194 | with sem_open a reachable run removes a set that is open |
| SemCalls.CanLog | lab_1/apue.3e/lib/semaph.c:89-291 | every run can be logged call by call, so what holds of logged runs holds of all |
| SemCalls.CallsKnown | lab_1/apue.3e/lib/semaph.c:89-253 | at every point of a call the log says which call it is, and the argument of sem_create is still at hand until [0] is set to it |
| SemCalls.FirstValue | lab_1/apue.3e/lib/semaph.c:146-152 | the process that initialises a set is inside a sem_create, and sets [0] to the argument with which that call began and [1] to BIGCOUNT |
| SemCalls.LogSays | lab_1/apue.3e/lib/semaph.c:188-291 | what a process's death would undo of [0] is what its sem_wait, sem_signal and sem_op calls have added; what it has open is its sem_create and sem_open calls that returned, less its sem_close calls |
| SemCalls.ValueLaw | lab_1/apue.3e/lib/semaph.c:262-291 | in every run in which no sem_create reads the counter while BIGCOUNT opens are out, unless an undo was cut off at 0, [0] is the argument of the initialising sem_create plus all values that living processes have added since; an idle process that has the set open can add a value at once exactly if that leaves [0] at least 0 |
| SemCalls.Exclusion | lab_1/apue.3e/lib/semaph.c:262-291 | with [0] at 1 one sem_wait keeps every other out, and the matching sem_signal restores the set |
| SemCalls.AtMost | lab_1/apue.3e/lib/semaph.c:262-291 | used as a lock, the set lets at most as many processes between sem_wait and sem_signal as the initial value says |
| SemCalls.CountLaw | lab_1/apue.3e/lib/semaph.c:89-253 | in every such run [1] is BIGCOUNT less the calls of sem_create and sem_open that living processes have returned from and not closed |
| SemCalls.FailsIff | lab_1/apue.3e/lib/semaph.c:117-131 | sem_create fails nowhere and is tried again if the set vanished; sem_open and sem_close fail exactly if the set is gone |
| ShellSort.SortedColumn | lab8/lab9/insert_sort.cpp:72-87 | in a sorted column an element is at most v just if enough elements of the column are |
| ShellSort.GapTheorem | lab8/lab9/insert_sort.cpp:72-87 | sorting the columns of gap d keeps an h-sorted array h-sorted, for all h and d |
| ShellSort.SwapColumns | lab8/lab9/insert_sort.cpp:76-84 | moving an element down its column keeps every column's elements |
| ShellSort.Sink | lab8/lab9/insert_sort.cpp:75-84 | the inner loop puts element i in its place in its column |
| ShellSort.SortColumn | lab8/lab9/insert_sort.cpp:74-85 | one column is sorted, the others keep their elements and order |
| ShellSort.PerInsertSort | lab8/lab9/insert_sort.cpp:72-87 | d-sorted, every column a rearrangement of itself, and still h-sorted for every h it was h-sorted for |
| ShellSort.ShellInsert | lab8/lab9/insert_sort.cpp:89-96 | sorted permutation of the input, sorted for every gap used |
| ShellSort.GapOne | lab8/lab9/insert_sort.cpp:89-96 | 1-sorted means sorted |
| MergeQuick.MergedMultiset | lab8/lab9/insert_sort.cpp:152-162 | merging keeps all elements |
| MergeQuick.MergedSorted | lab8/lab9/insert_sort.cpp:152-162 | merging sorted halves gives a sorted range |
| MergeQuick.TakeRight | lab8/lab9/insert_sort.cpp:153-155 | an element of the right half is taken before it is overwritten |
| MergeQuick.MergeHeads | lab8/lab9/insert_sort.cpp:152-159 | the first loop writes the merge of what it has read over the array |
| MergeQuick.MergeTail | lab8/lab9/insert_sort.cpp:160-162 | the second appends the rest of the left half |
| MergeQuick.Merge | lab8/lab9/insert_sort.cpp:143-164 | the range becomes the merge of its two halves, the rest of the array stays |
| MergeQuick.MergeSort | lab8/lab9/insert_sort.cpp:166-173 | the range is sorted with the same elements, the rest stays |
| MergeQuick.MoveDown | lab8/lab9/insert_sort.cpp:178-184 | filling the hole from above keeps the elements and the division |
| MergeQuick.MoveUp | lab8/lab9/insert_sort.cpp:185-191 | filling the hole from below keeps the elements and the division |
| MergeQuick.ScanDown | lab8/lab9/insert_sort.cpp:178-184 | the first inner loop moves the hole up or meets the other end |
| MergeQuick.ScanUp | lab8/lab9/insert_sort.cpp:185-191 | the second moves it back down or meets the other end |
| MergeQuick.Partition | lab8/lab9/insert_sort.cpp:175-195 | the first element at its final place, smaller or equal below, larger or equal above, same elements, rest untouched |
| MergeQuick.QuickSort | lab8/lab9/insert_sort.cpp:197-203 | the range is sorted with the same elements, the rest stays |
| Rot13.TranslateRotates | lab_1/apue.3e/advio/rot13a.c:9-23 | each letter moves 13 places round its own alphabet, all else stays, and twice restores |
| Rot13.TranslatedTwice | lab_1/apue.3e/advio/rot13a.c:9-23 | translating a file twice restores it |
| Rot13.TranslateBuffer | lab_1/apue.3e/advio/rot13a.c:38-39 | the loop translates the first n bytes in place |
| Rot13.Copy | lab_1/apue.3e/advio/rot13a.c:37-46 | the output is the translated input, however many bytes each read returns |
| Rot13Async.ReadIssuedInv | lab_1/apue.3e/advio/rot13c2.c.in:65-77 | issuing a read keeps every block in exactly one place |
| Rot13Async.CompletedInv | lab_1/apue.3e/advio/rot13c2.c.in:80-124 | the kernel finishing any request keeps the invariant; a write never touches another block |
| Rot13Async.TurnedInv | lab_1/apue.3e/advio/rot13c2.c.in:94-104 | turning a completed read into a write keeps it, and no short read can be reported |
| Rot13Async.RetiredInv | lab_1/apue.3e/advio/rot13c2.c.in:121-127 | so does retiring a completed write, and no short write can be reported |
| Rot13Async.AllWritten | lab_1/apue.3e/advio/rot13c2.c.in:131-133 | with nothing pending and all read, the output is the translated input and each block was written once |
| Rot13Async.StepProgress | lab_1/apue.3e/advio/rot13c2.c.in:58-130 | every step taken for a buffer leaves less work |
| Rot13Async.Pipeline.constructor | lab_1/apue.3e/advio/rot13c2.c.in:48-56 | unused buffers, no operation, empty output |
| Rot13Async.Pipeline.Finish | lab_1/apue.3e/advio/rot13c2.c.in:80-116 | the kernel carries out one request |
| Rot13Async.Pipeline.Kernel | lab_1/apue.3e/advio/rot13c2.c.in:131-137 | the kernel may finish any requests in any order at any time |
| Rot13Async.Pipeline.StartRead | lab_1/apue.3e/advio/rot13c2.c.in:60-78 | a free buffer takes the next block |
| Rot13Async.Pipeline.TurnToWrite | lab_1/apue.3e/advio/rot13c2.c.in:80-106 | a completed read is translated and written back at its offset |
| Rot13Async.Pipeline.Retire | lab_1/apue.3e/advio/rot13c2.c.in:108-128 | a completed write frees its buffer |
| Rot13Async.Pipeline.Visit | lab_1/apue.3e/advio/rot13c2.c.in:58-130 | a buffer is either served, with less work left, or was not ready |
| Rot13Async.Pipeline.TranslatePrefix | lab_1/apue.3e/advio/rot13c2.c.in:98-99 | the loop translates the bytes read and no others |
| Rot13Async.Pipeline.Suspend | lab_1/apue.3e/advio/rot13c2.c.in:134-137 | returns with at least one request finished |
| Rot13Async.Pipeline.Run | lab_1/apue.3e/advio/rot13c2.c.in:56-138 | terminates with output equal to the bytewise translation, each block written exactly once, for every completion order |
| PrintQueue.Job.constructor | lab_1/apue.3e/printer/printd.c:280-284 | a job with its number |
| PrintQueue.Queue.constructor | lab_1/apue.3e/printer/printd.c:66-66 | an empty queue |
| PrintQueue.Queue.AddJob | lab_1/apue.3e/printer/printd.c:275-294 | the job at the tail; the list reads the same in both directions |
| PrintQueue.Queue.ReplaceJob | lab_1/apue.3e/printer/printd.c:301-313 | the job at the head; the list reads the same in both directions |
| PrintQueue.Queue.RemoveJob | lab_1/apue.3e/printer/printd.c:320-331 | exactly that job gone, wherever it was; its own pointers kept |
| PrintQueue.Queue.Defer | lab_1/apue.3e/printer/printd.c:693-693 | picking up the head and putting it back restores the queue |
| PrintThreads.ClientInv | lab_1/apue.3e/printer/printd.c:285-293 | every step of add_job keeps the invariant |
| PrintThreads.PrinterInv | lab_1/apue.3e/printer/printd.c:684-697 | every step of the printer thread keeps it, spurious wake-ups included |
| PrintThreads.NextInv | lab_1/apue.3e/printer/printd.c:275-313 | so does any step of the system |
| PrintThreads.RunOrder | lab_1/apue.3e/printer/printd.c:825-839 | in every run the finished or cancelled jobs, then the one in flight, then the queue are the jobs in the order of add_job |
| PrintThreads.NeverStuck | lab_1/apue.3e/printer/printd.c:689-692 | with jobs queued, the printer can step, or the holder of joblock can, or a client is about to wake the printer |
| PrintCalls.CanName | lab_1/apue.3e/printer/printd.c:275-313 | every run is a run of named actors, so what holds of those holds of all |
| PrintCalls.DaemonKeeps | lab_1/apue.3e/printer/printd.c:684-697 | the printer thread neither loses nor reorders a job, whether it prints, cancels or defers |
| PrintCalls.NoneLost | lab_1/apue.3e/printer/printd.c:275-313 | accepted jobs stay accepted and in their order: the done, in-flight and queued jobs of an earlier state come first in every later one |
| PrintCalls.AddJobAdds | lab_1/apue.3e/printer/printd.c:275-294 | a call of add_job that has returned has put its own job behind all jobs accepted before, exactly once |
| PrintCalls.Conserved | lab_1/apue.3e/printer/printd.c:275-313 | every job that any call asked for is waiting for the lock, queued, in flight or done, as often as it was asked for |
| SegmentMerge.Take | lab_1/apue.3e/threads/barrier.c:67-77 | taking a segment's next element keeps all elements |
| SegmentMerge.TakeInOrder | lab_1/apue.3e/threads/barrier.c:69-75 | taking the smallest next element of sorted segments keeps the output sorted and below the rest |
| SegmentMerge.Smallest | lab_1/apue.3e/threads/barrier.c:68-74 | the inner loop finds the lowest-numbered segment whose next element is smallest, if one is below LONG_MAX; otherwise minidx keeps its old value |
| SegmentMerge.FreshTake | lab_1/apue.3e/threads/barrier.c:69-76 | the last element taken is the largest so far and comes from the highest-numbered segment with an equal one |
| SegmentMerge.BecomeStale | lab_1/apue.3e/threads/barrier.c:66-76 | when only LONG_MAX is left, the kept minidx is the highest-numbered segment that holds the largest smaller element |
| SegmentMerge.StaleStuck | lab_1/apue.3e/threads/barrier.c:66-76 | if that segment is used up while another is not, some LONG_MAX lies elsewhere |
| SegmentMerge.Merge | lab_1/apue.3e/threads/barrier.c:59-78 | on sorted segments every index stays inside its segment exactly if there is no LONG_MAX or each lies in the segment from which the last smaller element is taken; then the output is sorted and a permutation |

## Left out

- Sockets, processes, signals, terminals, stdio, logging and directory walking in the rest of the tree: plumbing around single branches.
- db.c: opening an existing file, `db_close`, the statistics counters, and allocation failure.
- DbStepsSafe.RunsAreSerial: does not model processes that end inside a call, as `err_dump` would, so appended records are assumed to fit; the same for DbStepsBytes.RunCarries.
- DbStepsSafe.NoDeadlock: says that some process can step, not that each call ends; the system's record locks promise no fairness.
- MmHeap.Heap.MmMalloc: requests that it does not serve, because their size wraps or is cut off, get a block that is too small (UnservedFails); what the heap looks like after that is not modelled.
- MmRun.RunAll: sequences of served requests and of releases of live pointers only, for the same reason.
- `heap_sort` and `creat_heap` in insert_sort.cpp: `creat_heap` swaps once at each node and sifts nothing down, so it builds no heap. `insert_sort` and `choose_sort` would be easy members.
- MergeQuick.MergeSort: indices are unbounded, so the sum `lo+hi` does not overflow.
- SegmentMerge.Merge: the threads that sort the segments, and the barrier, are not modelled; the segments are given. On unsorted segments it says only that all elements below LONG_MAX are enough for every index to stay inside.
- Rot13Async.Pipeline.Run: a buffer's bytes are a sequence inside its record rather than an array shared with the kernel; the source does not touch a buffer between issue and completion. `aiolist`, which names the pending buffers, and the final fsync are left out.
- SemSet.RunInv: the ids of sets are never used again, and sem_rm is called by sem_close only.
- FooTwoLocksProof.NoDeadlock: no fairness, so nothing about how long a thread waits; the same for FooOneLockProof.NoDeadlock.
- mutex2.c, mutex3.c: failures of malloc and of the lock's initialisation, which return NULL before anything is shared.
- PrintThreads.RunOrder: takes the list operations under joblock as single steps on a sequence; PrintQueue shows that they are that.
- printd.c: spool files, job numbers kept across restarts, worker threads, and the network side; in particular `readmore` and `printer_status`.
- `loop.poll.c` and `fmemopen.c`, and the copies of programs that do not compile.
