# Verified model of the futex read/write lock, hazard pointers, collector and binary semaphore

The library builds four small concurrent protocols on atomic words and futexes. This project models
each of them in Dafny and proves what its users rely on, for every interleaving and any number of
threads.

* **Read/write lock** (`RwLock*.dfy`, `RwControl.dfy`). A three-valued gate mutex and a signed reader
  count that is also the word on which writers sleep. Each thread is a program counter with its saved
  locals; each step is one atomic operation, one plain shared access or one futex call. Proved:
  gate and count invariants, wake-up safety, absence of stuck states, refinement of a lock that is
  only a set of readers and at most one writer, what each operation returns with, and atomicity of
  `try_write_modify`.
* **Hazard pointer list** (`HazardList.dfy`, `Sorting.dfy`, `List*.dfy`, `FixedList.dfy`, `Protection*.dfy`). A
  heap-level class whose ghost sequences say what its three linked lists hold, run by one thread; a
  step machine of the links under concurrent add, push, pop, remove, scan and walk; and a step
  machine of publishing, re-checking, retiring and collecting.
* **Collector** (`Registry*.dfy`, `CollectorThread.dfy`). Registration and deregistration against a
  collection pass that drops the lock between clients, and the semaphore that wakes it.
* **Binary semaphore** (`Semaphore.dfy`, `BinarySemaphore.dfy`). A one-bit, collapsing semaphore.

All step machines are sequentially consistent. `futex_wait` sleeps only if the word has the given
value, may return spuriously, and `futex_wake(_, 1)` wakes one sleeper if there is one, any one.
Integers are unbounded. The lock and the semaphore also appear as classes that update their fields in
place; each method is proved to be a step of the machine. The list and the collector appear as
classes run by one thread.

Assumptions on callers, all taken from the sources: locks are not taken recursively and are released
by the matching call; a `fu_read_modifiable_lock` object serves one session (`RwLockReuse` says what
happens otherwise); `pop` on the free list is serialised; an object is unlinked before its single
`Delete`; a reader re-checks the location after `Acquire`; nobody retires through a list whose
destructor has started.

## Where the code falls short of what it promises

* `remove` (`src/HazardPointer.hpp:343-367`) tests `*ppnode` in its loop and reads it again afterwards. A
  push on the gc head in between makes its compare-exchange unlink the pushed record instead of the
  requested one. `WrongRemovalIsReachable` gives a run. `WrongRemovalLosesRecord` and
  `WrongRemovalMergesLists` give the damage: the pushed record is lost, and the requested one ends up on
  both lists, with the free list as the tail of the gc list. `GcListIntactExactly` shows that nothing
  else can break the list, `IntactExactlyByPushes` says which pushes do, and `QuietRunsStayIntact` that
  keeping pushes out of that window is enough.
* `Collect` scans the hazards (`src/HazardPointer.hpp:521-528`) before it reads the gc head (line 530). A record
  retired in between can be deleted although a reader published and re-checked it in time:
  `DeletedWhileInUse` gives a run. Records already queued when the scan starts are safe
  (`OldRecordsAreProtected`), so is every run without such a late push (`ProtectionWithoutLatePush`). Once the
  scan is over, the rest of the pass can delete an object that a client holds validated, be it
  linked, unlinked, retired or queued, if and only if the scan missed its hazard (`ScanDecides`).
* `fu_read_modifiable_lock::write_modified` is never cleared (`src/bdrwlock.h:182-202`). An object reused after an
  upgraded session releases a write lock it does not have. `ReuseBreaksExclusion` gives a run. Run to
  its end by itself, that release leaves the lock consistent, and exclusion unbroken in every
  continuation, if and only if the caller was the only reader and nobody owned the gate
  (`StaleRelease`, `StaleHarm`); with other threads stepping in, exclusion can be broken if and only if
  there is another thread (`StaleUnlockExactly`).
* A client registered while its gc list already has records is not signalled for them. The collector
  sleeps on such records if and only if it was at rest when the registration took effect and nobody
  has posted since (`LostExactly`); `CollectionCanBeLost` gives a run.
* `DeregisterClient` leaves `collector_thread` set, so the assertion at `src/HazardPointer.cpp:48` passes exactly for a
  client that was never registered before (`RegistersOnce`); `SecondRegistrationFails` gives a run.
* The comment at `src/bdrwlock.cpp:48-49` gives the unlock transition 2 to 0; the code passes through a
  visible 1. The model follows the code, and the gate invariant covers the window.
* `HazardPointerList::Collect` reports `false` on an empty gc list, against the comment above it. The model
  follows the code.

`write_modify`, unlike `try_write_modify`, is not documented as atomic (`src/bdrwlock.h:97-99`). `ModifyAtomicity` says
exactly when it is: no other thread wrote in between if and only if none owned the gate in order to
write at the decrement or later; `ModifyCanMissAWrite` gives a run in which one did.

## Model

| member | source | states |
|---|---|---|
| `RwLockInvariant.ApplyKeeps` | src/bdrwlock.cpp:42-244 | every atomic step of every lock operation, and every spurious wake, keeps the gate, gate-wake, count, count-wake and session invariants together |
| `RwLockInvariant.ReachableInv` | src/bdrwlock.cpp:42-244 | the invariants hold in every state of every run from a fresh lock |
| `RwLockInvariant.LastReader` | src/bdrwlock.cpp:161-173 | a reader's decrement goes negative exactly when it was the only live reader and a writer is marked, and then the result is -1 |
| `RwLockInvariant.OneWriter` | src/bdrwlock.cpp:175-201 | the gate owner is the only possible marked writer |
| `RwLockTheorems.GateSafety` | src/bdrwlock.cpp:42-100 | the gate is 0, 1 or 2, non-zero exactly while one thread owns it (also between the fetch_sub and the store of 0), and no sleeper on it is forgotten |
| `RwLockTheorems.CountingAndExclusion` | src/bdrwlock.cpp:152-201 | nreaders is the number of live read holds, less one exactly while a writer is marked; an active writer excludes all readers and writers |
| `RwLockTheorems.ReadUnlockAssertion` | src/bdrwlock.cpp:161-173 | the assertion in read_unlock never fails, and read_unlock wakes exactly when it was the last reader in front of a writer |
| `RwLockTheorems.WriterDrain` | src/bdrwlock.cpp:175-201 | from a writer's decrement to its unlock the set of live readers only shrinks, over any run |
| `RwLockTheorems.WriterWakeSafety` | src/bdrwlock.cpp:161-194 | a writer asleep on nreaders has a live reader or a pending wake |
| `RwLockTheorems.AtomicUpgrade` | src/bdrwlock.cpp:203-221 | when try_write_modify succeeds, no other thread began a write section since the caller's read_lock increment |
| `RwLockTheorems.FailedUpgrade` | src/bdrwlock.cpp:203-221 | try_write_modify fails exactly when another thread owns the gate, and then nothing changes: the caller still reads |
| `RwLockUpgrade.ModifyAtomicity` | src/bdrwlock.cpp:223-244 | for every run from the decrement of write_modify to its write section: another thread began a write section in between if and only if, at the decrement or later, another thread owned the gate in order to write |
| `RwLockTheorems.ModifyCanMissAWrite` | src/bdrwlock.cpp:223-244 | the condition can fail: a reachable state in which another thread wrote between the caller's read_lock and the write section it got from write_modify |
| `RwLockTheorems.SessionUnlockMatches` | src/bdrwlock.h:177-202 | unlock of a modifiable lock releases the kind of hold the session has |
| `RwLockReuse.StaleRelease` | src/bdrwlock.h:182-202 | a reader's unlock run to its end leaves every invariant of the lock intact if and only if the flag was not left set, or the caller was the only reader and nobody owned the gate |
| `RwLockReuse.StaleHarm` | src/bdrwlock.h:182-202 | after that release some continuation lets a writer overlap a reader or another writer if and only if the flag was left set and the caller was not alone |
| `RwLockReuse.StaleUnlockExactly` | src/bdrwlock.h:182-202 | with other threads interleaving, from the first step of an unlock with the flag left set exclusion can be broken if and only if there is another thread |
| `RwLockReuse.StaleReleaseEnds` | src/bdrwlock.cpp:196-201 | from every state in which the caller reads, the wrong release can be run to its end |
| `RwLockReuse.ReuseBreaksExclusion` | src/bdrwlock.h:177-202 | a run from a fresh lock in which an object is locked again after an upgraded session and a writer then overlaps another holder |
| `RwLockTheorems.DestructorExact` | src/bdrwlock.cpp:246-262 | the destructor's checks pass exactly without live read holds and without a gate owner; they pass when all threads are idle |
| `RwLockRefinement.ApplyRefines` | src/bdrwlock.cpp:42-244 | each step is a stutter or exactly one transition of the abstract lock |
| `RwLockRefinement.Refinement` | src/bdrwlock.cpp:152-244 | every run maps to a run of the abstract lock; write_modify is a release and a later acquire, try_write_modify a drop and acquire with no foreign read or write section in between |
| `RwLockCalls.CallReturns` | src/bdrwlock.cpp:152-244 | every run from a call to its return, with any interference: read_lock returns reading, write_lock writing, the unlocks idle, write_modify always writing, try_write_modify writing or still reading; on the way the caller causes exactly the events of the operation in order (write_modify: release then acquire; try_write_modify: drop and acquire, or none), and a session's flag is set exactly on an upgrade |
| `RwLockCalls.UpgradeRefused` | src/bdrwlock.cpp:203-221 | a reader's try_write_modify returns still reading if and only if somebody owned the gate, and then at once with nothing changed |
| `RwLockCalls.UncontendedRead` | src/bdrwlock.cpp:152-159 | through a free gate read_lock takes three steps, no futex call among them, and adds exactly one reader |
| `RwLockCalls.WriteMarks` | src/bdrwlock.cpp:175-194 | through a free gate write_lock marks the caller in two steps; it then writes if and only if there is no reader, and otherwise sleeps on nreaders |
| `RwLockCalls.ContendedSleeps` | src/bdrwlock.cpp:50-65 | at an owned gate a caller sets it to 2 and goes to sleep in three steps |
| `RwLockProgress.FindProgress` | src/bdrwlock.cpp:42-244 | in every invariant state that is not idle some non-spurious step brings the threads closer to idle |
| `RwLockProgress.AlwaysDrainable` | src/bdrwlock.cpp:42-244 | every reachable state has a continuation, without spurious wakes, in which every call returns and every lock is released |
| `RwLockProgress.NoStuckState` | src/bdrwlock.cpp:42-244 | if a thread sleeps on the gate or on nreaders, some thread is awake inside an operation or holds a lock |
| `RwControl.FutexRwControl.constructor` | src/bdrwlock.h:70-76 | a new control is an initial state |
| `RwControl.FutexRwControl.EnterGate` | src/bdrwlock.cpp:42-66 | one statement of enter_gate on the shared word is one step of the machine |
| `RwControl.FutexRwControl.LeaveGate` | src/bdrwlock.cpp:82-100 | fetch_sub, store of 0 and wake are three steps of the machine |
| `RwControl.FutexRwControl.DrainReaders` | src/bdrwlock.cpp:186-193 | the decrement and the wait loop shared by write_lock, try_write_modify and write_modify are steps of the machine |
| `RwControl.FutexRwControl.ReaderStep` | src/bdrwlock.cpp:152-173 | the increment of read_lock, the count drop of try_write_modify and the wakes of writers are steps of the machine |
| `RwControl.FutexRwControl.Step` | src/bdrwlock.cpp:42-244 | any step of any thread on the object keeps the invariant and is the machine's step |
| `RwControl.FutexRwControl.ReadUnlock` | src/bdrwlock.cpp:161-173 | the decrement keeps the invariant and meets the source's assertion |
| `RwControl.FutexRwControl.TryWriteModify` | src/bdrwlock.cpp:203-221 | enters exactly when the gate was 0; otherwise the whole state is unchanged |
| `RwControl.FutexRwControl.WriteUnlock` | src/bdrwlock.cpp:196-201 | the store of 0 keeps the invariant and starts leave_gate |
| `RwControl.FutexRwControl.WriteModify` | src/bdrwlock.cpp:223-231 | the decrement of write_modify keeps the invariant and decides between a wake and the gate |
| `RwControl.FutexRwControl.SessionUnlock` | src/bdrwlock.h:182-188 | the write_modified flag picks the write release exactly when the session holds the write lock |
| `RwControl.FutexRwControl.SessionTryWriteModify` | src/bdrwlock.h:190-196 | true exactly when the session is upgraded already or the gate was 0; nothing changes in the first case and when the result is false |
| `Semaphore.ApplyKeeps` | src/semaphore.cpp:48-80 | every step and every spurious wake keeps the one-bit, conservation and no-lost-post invariant |
| `Semaphore.TokenConservation` | src/semaphore.cpp:36-80 | in every reachable state the gate is the initial value plus effective posts minus successful waits, and is 0 or 1 |
| `Semaphore.NoLostPost` | src/semaphore.cpp:48-69 | with the gate raised and a sleeper, a wake is pending or an awake waiter is in the retry loop |
| `Semaphore.RaisedGateIsClaimed` | src/semaphore.cpp:48-69 | then at most two steps of threads inside the semaphore hand the raised gate to a waiter |
| `Semaphore.RunConservation` | src/semaphore.cpp:48-80 | over every run the gate is what it was, plus the posts that found it lowered, minus the waits and successful try_waits that returned |
| `Semaphore.WaitTakesOne` | src/semaphore.cpp:59-69 | every run from a call of wait to its return: the caller takes exactly one token on the way |
| `Semaphore.WaitReturnsWithToken` | src/semaphore.cpp:59-69 | a waiting thread leaves only in a step that found the gate 1 and left it 0 |
| `Semaphore.WaitSleepsOrTakes` | src/semaphore.cpp:59-69 | on a raised gate wait returns in one step, on a lowered one it is asleep after two |
| `Semaphore.PostRaises` | src/semaphore.cpp:48-57 | post leaves the gate raised whatever it was, counts exactly if it was not, and owes a wake exactly then |
| `BinarySemaphoreObject.BinarySemaphore.constructor` | src/semaphore.cpp:36-40 | the initial gate is the requested state |
| `BinarySemaphoreObject.BinarySemaphore.Post` | src/semaphore.cpp:48-57 | afterwards the gate is 1, and the post counted exactly if it was 0; posts on a raised gate collapse |
| `BinarySemaphoreObject.BinarySemaphore.TryWait` | src/semaphore.cpp:71-80 | succeeds exactly when the gate was 1; afterwards the gate is 0 and a token was taken exactly on success |
| `BinarySemaphoreObject.BinarySemaphore.Step` | src/semaphore.cpp:59-69 | one turn of wait's loop, or post's wake, is one step of the machine; a wait that returns found the gate 1 and left it 0 |
| `ListKeeps.ApplyKeeps` | src/HazardPointer.hpp:326-387 | every step on the links except a wrong removal keeps both lists whole and every node in exactly one place |
| `ListTheorems.WrongRemovalLosesRecord` | src/HazardPointer.hpp:343-367 | a wrong removal leaves a pending record that neither the head nor any link of the list leads to |
| `ListTheorems.WrongRemovalMergesLists` | src/HazardPointer.hpp:343-367 | after it and the recycling of the requested record, that record is the head of the free list and still on the gc list, whose tail is now the free list |
| `ListTheorems.IntactIff` | src/HazardPointer.hpp:326-387 | from any invariant state a run keeps the gc list whole throughout if and only if it has no wrong removal |
| `ListTheorems.GcListIntactExactly` | src/HazardPointer.hpp:326-387 | with many pushers and one remover, no record is lost or duplicated in a run from a new list if and only if every successful compare-exchange of remove had expected equal to node |
| `ListWindow.IntactExactlyByPushes` | src/HazardPointer.hpp:343-367 | the gc list is whole in every state of a run if and only if no exchange at the head follows a push that landed between remove's loop test and its re-read with no further push in between |
| `ListWindow.QuietRunsStayIntact` | src/HazardPointer.hpp:343-367 | if no push lands between remove's loop test at the head and its re-read, the gc list stays whole in every interleaving |
| `ListTheorems.WalkIsExact` | src/HazardPointer.hpp:530-553 | remove always finds its node, and a finished walk has visited exactly the records present when it read the head, each once, in order |
| `ListTheorems.Partition` | src/HazardPointer.hpp:311-410 | all three lists are acyclic chains to end_node, every node has exactly one home among gc list, free list and hands, the fixed list holds every node but those still being added, and a held node between operations has a NULL link while a queued one does not |
| `FixedList.FixedListIsWhole` | src/HazardPointer.hpp:311-321 | in every reachable state, with any number of adders racing, the fixed list is an acyclic chain that holds a node if and only if nobody is still adding it |
| `FixedList.FixedListGrows` | src/HazardPointer.hpp:311-321 | over every run the fixed list only grows at its head |
| `FixedList.ScanIsExact` | src/HazardPointer.hpp:521-527 | a scan meets exactly the nodes that were on the fixed list when it read the head, each once and in order, however many are added meanwhile |
| `FixedList.ScanComesFirst` | src/HazardPointer.hpp:519-530 | every collection scans before it reads the gc head, and has then met every node that was on the fixed list when it began |
| `ListCalls.PushEndsOnTop` | src/HazardPointer.hpp:326-336 | every run from a call of push to its return ends with the node on top of the list it was pushed on, the gc list for a retirement and the free list for a release |
| `ListCalls.AcquiresHeadOrNew` | src/HazardPointer.hpp:496-506 | every run from a call of AcquireNode to its return: the node was the head of the free list when taken, or the free list was empty and the node is new |
| `ListCalls.JudgedRecord` | src/HazardPointer.hpp:536-552 | from the judgement of a record to the next visit: a protected record is untouched and still on the gc list, any other has left it for the top of the free list |
| `ListFlaw.WrongRemovalIsReachable` | src/HazardPointer.hpp:343-367 | a reachable state whose next step unlinks a record that was just retired instead of the requested one |
| `ListFlaw.OneNodeOnTwoLists` | src/HazardPointer.hpp:343-367 | a reachable state in which one node is on the gc list and on the free list |
| `ProtectionTheorems.ApplyKeeps` | src/HazardPointer.hpp:103-156 | every step of clients and collector keeps: retired objects are linked nowhere, each has one record, and the scan accounts for every validated hazard on an object queued when it began |
| `ProtectionCalls.AcquireValidates` | src/HazardPointer.hpp:95-119 | Acquire and the client's re-check, with any interference before each step: the node publishes what was at the given location, and the client may use it if and only if that was an object and the location still holds it at the re-check |
| `ProtectionCalls.AcquireGoesOn` | src/HazardPointer.hpp:103-119 | none of these steps can be blocked by others |
| `ProtectionCalls.GivesUpProtection` | src/HazardPointer.hpp:124-156 | after Clear, Release or Delete a node protects nothing, whatever others do |
| `ProtectionCalls.ReleaseFrees` | src/HazardPointer.hpp:133-142 | Release ends with the node free and protecting nothing |
| `ProtectionCalls.DeleteQueues` | src/HazardPointer.hpp:146-156 | Delete ends with the node first on the gc list, protecting nothing and carrying the object it protected before |
| `ProtectionCalls.ScanAlone` | src/HazardPointer.hpp:521-527 | an undisturbed scan gathers exactly the non-null hazards |
| `ProtectionCalls.SnapIsFresh` | src/HazardPointer.hpp:521-555 | a pass spares only what was a hazard while it ran: nothing is carried over from earlier passes |
| `ProtectionCalls.PassDecides` | src/HazardPointer.hpp:530-553 | from the read of the gc head to the end of the pass, with any interference, the object of a record on the list is deleted if and only if the scan did not see it |
| `ProtectionTheorems.OldRecordsAreProtected` | src/HazardPointer.hpp:514-557 | Collect never deletes an object that was on the gc list when its scan began while a client holds it validated |
| `ProtectionTheorems.DeletedOnce` | src/HazardPointer.hpp:536-550 | an object about to be deleted was retired and has not been deleted before |
| `ProtectionTheorems.RetiredIsCarriedOrDeleted` | src/HazardPointer.hpp:146-156 | in every interleaving an object was retired if and only if it has been deleted or exactly one node still carries it, never both |
| `ProtectionTheorems.ProtectionWithoutLatePush` | src/HazardPointer.hpp:514-557 | in every run where no record joins the gc list between a scan's start and the read of the gc head, no client ever holds a deleted object |
| `ProtectionFlaw.MissedCanBeDeleted` | src/HazardPointer.hpp:521-553 | after a scan that missed an object a client holds validated, the pass can go on to delete it while it is held, be it linked, unlinked, retired or queued |
| `ProtectionFlaw.SeenSurvivesPass` | src/HazardPointer.hpp:530-553 | an object the scan did see is not deleted in the rest of the pass, whoever retires it |
| `ProtectionFlaw.ScanDecides` | src/HazardPointer.hpp:521-553 | once the scan is over, the pass can reach a state in which an object held validated is deleted and still held if and only if the scan missed its hazard (or it was deleted before) |
| `ProtectionFlaw.DeletedWhileInUse` | src/HazardPointer.hpp:514-557 | a reachable state in which a validated object has been deleted |
| `Sorting.Sort` | src/HazardPointer.hpp:528 | a sorted permutation |
| `Sorting.BinarySearch` | src/HazardPointer.hpp:539-541 | on a sorted sequence, membership |
| `HazardList.HazardPointerList.constructor` | src/HazardPointer.hpp:412-426 | three empty lists that share one end node |
| `HazardList.HazardPointerList.Add` | src/HazardPointer.hpp:311-321 | the fixed list grows at its head and the other lists are untouched |
| `HazardList.HazardPointerList.PushFree` | src/HazardPointer.hpp:391-396 | the free list gets the node at its head; the assertions hold |
| `HazardList.HazardPointerList.EnqueueRecordForCollection` | src/HazardPointer.hpp:400-410 | the gc list gets the record at its head, and its object becomes pending |
| `HazardList.HazardPointerList.FindBefore` | src/HazardPointer.hpp:347-356 | the search finds the position of the node; its assertion never fires |
| `HazardList.HazardPointerList.RemoveGc` | src/HazardPointer.hpp:343-367 | exactly the requested record leaves the gc list, the others keep their order |
| `HazardList.HazardPointerList.PopFree` | src/HazardPointer.hpp:371-387 | takes the head of the free list, or returns the end node on an empty one |
| `HazardList.HazardPointerList.AcquireNode` | src/HazardPointer.hpp:496-506 | an unqueued node that protects nothing: the free head, or a new node at the head of the fixed list |
| `HazardList.HazardPointerList.Prime` | src/HazardPointer.hpp:483-491 | the given number of new nodes at the head of both the fixed and the free list |
| `HazardList.HazardPointerList.Acquire` | src/HazardPointer.hpp:103-119 | the object found at the given location is published and nothing else changes |
| `HazardList.HazardPointerList.Release` | src/HazardPointer.hpp:133-142 | the hazard is cleared; the node is freed exactly when it protected something |
| `HazardList.HazardPointerList.Delete` | src/HazardPointer.hpp:146-156 | the protected object, if any, becomes pending exactly once and the hazard is cleared |
| `HazardList.HazardPointerList.ScanHazards` | src/HazardPointer.hpp:521-527 | collects exactly the non-null hazards of all nodes |
| `HazardList.HazardPointerList.SweepOne` | src/HazardPointer.hpp:531-553 | a record is reclaimed exactly when its object is not hazardous |
| `HazardList.HazardPointerList.Sweep` | src/HazardPointer.hpp:530-553 | the loop over the changing list equals filtering the list it started from |
| `HazardList.HazardPointerList.HaveDeletes` | src/HazardPointer.hpp:559-562 | true exactly when the gc list is non-empty |
| `HazardList.HazardPointerList.Collect` | src/HazardPointer.hpp:514-557 | exactly the unprotected records go to the free list and their objects are deleted; protected ones stay in order; the result is true exactly when a non-empty gc list ends empty |
| `HazardList.HazardPointerList.ReleaseAll` | src/HazardPointer.hpp:451-457 | afterwards no node protects anything; every Release meets its assertion |
| `HazardList.HazardPointerList.Destroy` | src/HazardPointer.hpp:446-471 | over the list's life every object is deleted exactly as often as it was retired, nothing else is deleted, and every node and the end node are freed exactly once |
| `HazardList.KeptExactly` | src/HazardPointer.hpp:539-551 | a record is kept if and only if its object is hazardous, and recycled if and only if it is not |
| `HazardList.KeptInOrder` | src/HazardPointer.hpp:531-553 | the kept records are a subsequence of the gc list |
| `HazardList.DeletedExactly` | src/HazardPointer.hpp:536-551 | kept and deleted objects together are the pending ones, kept ones are hazardous and deleted ones are not |
| `HazardList.SweptResult` | src/HazardPointer.hpp:531-553 | judging records one after the other while the lists change gives the same lists as filtering all at once |
| `HazardList.NothingHeld` | src/HazardPointer.hpp:446-459 | without hazards nothing stays pending |
| `RegistryKeeps.ApplyKeeps` | src/HazardPointer.cpp:40-154 | every step of registration, deregistration, retiring, signalling and the pass keeps the lock, vector, state, pass and coverage invariants |
| `RegistryKeeps.ReachableInv` | src/HazardPointer.cpp:40-154 | these invariants hold in every reachable state |
| `RegistryTheorems.CollectingStaysRegistered` | src/HazardPointer.cpp:58-90 | a client is collecting exactly while the pass serves it, is then still in the vectors, and its deregistration cannot pass its compare-exchange |
| `RegistryTheorems.AssertionsHold` | src/HazardPointer.cpp:40-150 | no state assertion of deregistration or the pass can fail; a client about to register is unregistered, and its collector_thread is NULL exactly if it has not been deregistered |
| `RegistryTheorems.RegistersOnce` | src/HazardPointer.cpp:43-48 | over every run the checks at the start of RegisterClient pass if and only if the client was never registered before |
| `RegistryCalls.RegisterReturns` | src/HazardPointer.cpp:40-56 | every run from a call of RegisterClient to its return ends with the client listed, registered or being collected, and bound to the collector, or at once with the call rejected |
| `RegistryCalls.DeregisterReturns` | src/HazardPointer.cpp:58-90 | every run from a call of DeregisterClient to its return ends with the client in neither vector and unregistered |
| `RegistryCalls.UnboundStaysSilent` | src/HazardPointer.hpp:400-410 | nobody signals on behalf of a client that has no collector |
| `RegistryFlaw.SecondRegistrationFails` | src/HazardPointer.cpp:58-90 | a reachable state in which an unregistered client registers again and the assertion fires |
| `RegistryTheorems.PassIsComplete` | src/HazardPointer.cpp:107-153 | at the end of a pass every listed id has been examined, each once and in increasing order, and none collected twice, whatever erasures did to the indices |
| `RegistryPass.CollectedExactly` | src/HazardPointer.cpp:114-142 | in every run within one pass an id is collected if and only if the pass found records at its client and, at its next step, the client registered |
| `RegistryPass.WaitingIsCollected` | src/HazardPointer.cpp:107-153 | a client listed when a pass begins that stays registered with records until it is collected has been collected, once, when the scan reaches its end |
| `RegistryPass.PostsExactly` | src/HazardPointer.hpp:251-263 | a pass ends with a post if and only if some client it collected still had records afterwards |
| `RegistryPass.UndisturbedPassRests` | src/HazardPointer.cpp:140-153 | a pass in which every collection empties its list and nobody retires ends without a post |
| `RegistryPass.PassesArePaidFor` | src/HazardPointer.hpp:251-263 | over every run each pass but the first is paid for by a post, so the collector does not spin |
| `RegistryTheorems.PassStepDecreases` | src/HazardPointer.cpp:107-153 | every unblocked step of the pass decreases its rank |
| `RegistryTheorems.ClientsDoNotDelay` | src/HazardPointer.cpp:40-90 | no client step, registrations included, changes the rank |
| `RegistryTheorems.PassTerminates` | src/HazardPointer.cpp:107-153 | in any interleaving a pass takes at most its rank in collector steps, a number fixed by where it starts and by the last id given out before it ends, so it ends unless registrations never stop |
| `RegistryTheorems.LockIsReleased` | src/HazardPointer.cpp:50-90 | a client holding the data lock gives it up within three of its own steps |
| `RegistryTheorems.NoLostCollection` | src/HazardPointer.hpp:251-280 | while the collector waits and a registered, non-deleting client has records, the semaphore is raised, or a retiring thread is between its push and its signal, or the client was registered with records while the collector was at rest and nobody has posted since |
| `RegistryTheorems.LostExactly` | src/HazardPointer.hpp:400-410 | over every run, with the collector waiting and nothing posted or about to be: a live client has records if and only if its registration took effect with records on its list and the collector at rest, and nobody has posted since |
| `RegistryFlaw.CollectionCanBeLost` | src/HazardPointer.hpp:400-410 | a reachable state in which a registered client has a record, nobody is about to post, and the collector does not move |
| `CollectorThreadObject.CollectorThread.RegisterClient` | src/HazardPointer.cpp:40-56 | the client and a larger id are appended, and the vectors stay parallel with increasing ids |
| `CollectorThreadObject.CollectorThread.EraseClient` | src/HazardPointer.cpp:70-90 | the search finds the client, and exactly its entries leave both vectors |
| `CollectorThreadObject.CollectorThread.NextCandidate` | src/HazardPointer.cpp:114-138 | the scan claims the first client with a later id, records and a registered state, or shows that there is none |
| `CollectorThreadObject.CollectorThread.Collect` | src/HazardPointer.cpp:92-154 | a pass without interference, whatever each client's own collection leaves behind, collects every registered client with records exactly once and no other, restores all states, and reports whether a collected client still has records |

## Left out

- Weak memory ordering: all models are sequentially consistent, whatever the `__ATOMIC_*` arguments say.
- `futex` system calls and their error callbacks (`src/bdfutex.cpp`): only the wait and wake contract is used.
- `fu_lock` and the priority-inheritance calls: their correctness lives in the kernel.
- The counting `semaphore` wrapper over `sem_t`, and the wake in the destructor of `binary_semaphore`.
- Concurrent free-list pops: `pop` reads head and next before its compare-exchange and nodes are recycled, so list integrity does not hold for interleaved pops; pops are serialised in `ListSteps`.
- `HazardList.HazardPointerList.Add`: in the class, which one thread runs, the compare-exchange succeeds at its first attempt; the loop against other adders is in `ListSteps` and `FixedList`.
- `HazardList`: the class is run by one thread, so compare-exchange loops succeed at once and collector_client_lock and the signal to the collector do not appear; interference is the subject of `ListSteps` and `Protection`.
- `Protection`: clearing gc_pointer, deleting the object, removing the record and pushing its node are one step, and so is adding a node; the interleavings of the links are in `ListSteps`, where `FixedList.ScanIsExact` justifies the scan. Object addresses are not reused after deletion.
- The `HazardPointer` wrapper (its move constructor, `Recycle`) and `Acquire` with a NULL location.
- Nodes forgotten by `Release` or `Delete` on a NULL pointer: nothing is claimed about who holds an unqueued node.
- The assertion after the enqueue in `Delete` (`src/HazardPointer.hpp:154`) under concurrency: the node may already be recycled. It holds in the sequential class.
- `Registry`: the gc list of a client is a flag, only the collector thread collects, and nobody retires through a client once its deregistration has begun. Posting and waiting on the semaphore are single steps; `Semaphore` takes them apart.
- Wrap-around of `id_value`, `gate` and `nreaders`.
- Thread start, stop and join, the 100 ms pause and the destructor of `CollectorThread`: they depend on the scheduler and on time, which the step machines abstract from.
- Assertions compiled only under TESTING and code under `#if 0`: not part of the program as built.
