# samsara, verified

This project models the three parts of samsara that carry hard guarantees and proves those guarantees: the
hazard-pointer stack, concurrent snapshot-at-the-beginning (SATB) marking, and the mark-region heap. Every theorem is
about all inputs, all runs and all interleavings of the model unless a row below says otherwise. All theorems are about
sequentially consistent interleavings. `dafny verify dfyconfig.toml` checks everything.

## The hazard-pointer stack

`HazardStack.dfy` is a machine for any number of threads in which every atomic access is one step: the three accesses of
a push attempt, the accesses of a pop from the search for a hazard slot to the retirement of the node, and the
reclaimer's scan, which reads `in_use` and `ptr` of one slot at a time. The allocator may hand out any address that is
not allocated at that moment, so reuse of freed addresses is part of every run. Dereferencing or freeing an address that
is not allocated leads to the program counter `Fault`; a pop that finds no free slot leads to `Panicked`. The field
`hist` holds history variables (who owns a node, which nodes are linked, a log of calls, effects and returns, allocation
stamps); no guard and no field the program has depends on them, and `HazardLinear.ChainIsDetermined` shows that the
linked list in it is the one memory holds.

`HazardInvariant.dfy` proves the invariant of all steps. The files on top of it prove use-after-free freedom, the
partition of nodes among their holders and single freeing (`HazardSafety`), linearizability and conservation of values
(`HazardLinear`), the bound on the retired list and the moment of reclamation (`HazardReclaim`), the renaming argument
behind slot acquisition (`HazardSlots`) and the lock-freedom bound (`HazardProgress`). Only the lock of the retired list
is ever waited for (`HazardSafety.NeverStuck`), so the reclaimer's scan may be interleaved with everything else. `HazardRegistry.dfy` and `SafeTreiber.dfy` hold the
objects with their loops: every statement of `SafeTreiberStack` that touches shared state is proved to be a step of the
machine, so the object may start at the end of any concurrent run, with the other threads stopped anywhere in their own
operations.

`PlainTreiber.dfy` is the stack without hazards. Reusing an address is not harmful in itself; what matters is the moment
it is handed out. `Harmless` says that no pop has loaded that address without having unlinked it, except that with just
one other thread such a pop may be about to install the very head there is. A run in which every address handed out is
harmless refines the atomic stack (`GuardedIsSafe`); the first one that is not can be continued, with harmless ones only,
to a state whose list is not the stack any more. `PlainReuse.ReuseIsSafeExactly` states both as an if-and-only-if, for
any number of threads. A run that never hands out an address twice is a special case (`NoReuseIsGuarded`).

## Concurrent marking

`SatbMachine.dfy` is a machine of the collector loop, any number of mutators and an orchestrator, over a graph the
mutators change. A barrier call loads the phase, records, and only then is the reference overwritten; these are separate
steps, several mutators may race on one field, and the collector reads the fields of an object one at a time. What the
code asks of its users is the predicate `Obeys`:

- when marking starts no mutator is past the barrier of a write and about to store, and a mutator that is still in the
  barrier has given it the reference the field holds at that moment;
- the phase leaves Marking while no mutator that is going to store has yet to load the phase (one that has loaded it may
  still record and store later);
- from then until the collector returns, nobody starts a write.

The value given to the barrier is the reference in the field when the barrier is called; other mutators may replace it
before the store. Barrier calls that no store follows are not restricted. `SatbNecessity.dfy` has a run for each of
these demands, two for the first, that breaks it once and loses a live object, so none can be dropped. Precision needs
in addition that mutators handle only live references (`Handles`), and sweeping needs that fresh objects have been
greyed, as `src/barrier.rs:222-226` notes.

The handshake lets a capture that found the phase Marking be recorded after the collector has returned. Such an id is
left over for the next cycle, which marks it and what it reaches, dead or not (`SatbNecessity.LateCaptureIsKept`).
Precision is therefore exact with respect to the roots and the leftovers, and with respect to the roots alone when no
cycle hands anything over too late (`SatbBarrier.PreciseOverCycles`). `SatbProgress.dfy` proves that nobody waits: the
collector works in every phase, empties the queues and blackens the snapshot while the phase is still Marking, and
cycles can follow one another.

`Marker.dfy` is the stop-the-world marker and `ConcurrentMarker.dfy` the collector thread as a loop over the shared
objects of `Barrier.dfy`. `MarkersAgreeAlways` compares the stop-the-world marker with every interleaving of the
machine, and `MarkersAgree` runs the two programs.

## The mark-region heap

`RegionSpec.dfy` says on values what each heap operation computes, including the mask round-up on 64-bit words, the
truncation of handles to 32 bits and the 32-bit wrap-around of the live count. `RegionStore.dfy` proves that over every
run of allocations, writes, counts and sweeps the heap is a store of independent objects; `RegionBounds.dfy` bounds
objects, padding and live counts; `RegionHeap.dfy` has the classes that update byte arrays in place, each method proved
equal to its value form. `RegionRuns.dfy` states sizes, sweeps and untouched bytes with their numbers. `Cycle.dfy` composes marking over handles, counting and sweeping into one collection.

Three places where the source's documentation and code differ; the model follows the code:

- `src/region.rs:42-43` says a Full region takes no allocations until a sweep. A current region marked Full still takes
  a smaller request while it stays current (`src/region.rs:139-146`). `RegionStore.FullStillAllocates` gives the run and
  `RegionStore.AllocOutcome` the exact rule.
- `src/region.rs:132-133` says an allocation fails if no region has room and none is free. It also fails when a region
  that was closed as Full, and is no longer current, has room (`src/region.rs:139-158`): `RegionStore.RoomIsNotEnough`
  gives the run.
- `src/atomic.rs:41-44` calls out-of-order phase transitions refused. `transition` refuses a wrong `from` but accepts any
  `to`; the order of phases is the orchestrator's, as in the steps of `SatbMachine`.

The history variables of `SatbMachine` name what the theorems are about; `SatbBarrier.HistoryIsTrue` shows that they
are what the moves of the run say. One of them, `active`, also guards moves: it stands for the orchestrator knowing
whether the collector it spawned has returned.

## Where each step comes from

| machine steps | source |
|---|---|
| `BeginPush`, `DoPushLoad`, `DoPushWrite`, `DoPushCas` | src/safe_treiber.rs:57-77 |
| `BeginPop`, `DoAcquire` | src/safe_treiber.rs:80, src/hazard.rs:65-79 |
| `DoPopLoad`, `DoPopProtect`, `DoPopVerify`, `DoPopNext`, `DoPopCas`, `DoPopValue` | src/safe_treiber.rs:82-107 |
| `DoPopClear`, `DoDropClear`, `DoDropRelease` | src/safe_treiber.rs:108-109, src/hazard.rs:129-147 |
| `DoRetireLock`, `DoRetirePush`, `DoUnlock`, `DoForceLock` | src/safe_treiber.rs:117-123, 146-149 |
| `DoScanUse`, `DoScanPtr` | src/hazard.rs:95-106 |
| `DoSift` | src/safe_treiber.rs:125-138 |
| `DoDrain`, `DoPop`, `DoRead`, `DoPushChild` | src/concurrent.rs:54-73 |
| `DoFinalDrain`, `DoCheckStack`, `CheckPhase`, `PushFinal` | src/concurrent.rs:75-93 |
| `DoMutate` | src/atomic.rs:94-98, src/remembered_set.rs:27-29 |
| `Swapped`, `Taken`, `FreedAndReturned`, `Next` | src/treiber.rs:61-105 |

## Model

| member | source | states |
|---|---|---|
| HazardInvariant.StepKeeps | src/safe_treiber.rs:57-149 | every atomic step of every thread keeps the invariant: each allocated node has one owner, `head` starts a null-terminated list of the linked nodes, no slot has two holders, and a scan in progress cannot miss a retired pointer that is validated |
| HazardInvariant.RunKeeps | src/safe_treiber.rs:57-149 | so does every run |
| HazardInvariant.FreedIsNotValidated | src/safe_treiber.rs:125-138 | what the reclaimer frees has not been validated by any thread, although slots change while it scans them |
| HazardInvariant.RetirePushProtected | src/safe_treiber.rs:117-123 | a scan that starts after a retirement covers every validation made before it |
| HazardInvariant.PopCasOwnership | src/safe_treiber.rs:98-107 | the winner of the exchange becomes the only owner of the node that was on top |
| HazardSafety.NoUseAfterFree | src/safe_treiber.rs:79-138 | in every run no thread dereferences or frees an address that is not allocated, and from the re-check to the read of the value a pop sees the same incarnation of the node it validated |
| HazardSafety.BadAccessFaults | src/safe_treiber.rs:64-134 | what that rules out: any access to an address that is not allocated is a fault |
| HazardSafety.ValidatedNodeSurvives | src/safe_treiber.rs:86-97 | no step of another thread frees, reuses or changes a validated node |
| HazardSafety.NeverStuck | src/safe_treiber.rs:57-149 | push and pop never wait: a thread in mid-operation can step, except that the two program counters that lock the retired list wait exactly while it is locked, and its holder can step |
| HazardSafety.CallsNeverWait | src/safe_treiber.rs:57-80 | an idle thread may make any of its calls at any time, and be handed any address that is not allocated |
| HazardSafety.RunNeverStuck | src/safe_treiber.rs:57-149 | so it is in every run |
| HazardSteps.CallFlow | src/safe_treiber.rs:57-61 | a call touches nothing shared but a new node |
| HazardSteps.PushFlow | src/safe_treiber.rs:62-76 | push makes one shared access a step: load, write, exchange, and again from the load if that is lost |
| HazardSteps.PopFlow | src/safe_treiber.rs:80-97 | so does pop up to the exchange: slots in order, load, publish, re-check, read |
| HazardSteps.PopEndFlow | src/safe_treiber.rs:98-110 | and from the exchange on: value, clear, and the two stores of the dropped guard |
| HazardSteps.ReclaimFlow | src/hazard.rs:95-106 | and the reclaimer: 64 slots, `in_use` before `ptr`, then the retired nodes one by one |
| HazardSafety.NodePartition | src/safe_treiber.rs:57-138 | in every run an allocated node is held in exactly one place (one pusher, the list from head, one popper, the retired list) and only once there; other addresses are held nowhere |
| HazardSafety.RunFreesOnce | src/safe_treiber.rs:125-138 | each allocation is either live or has been freed exactly once |
| HazardLinear.PushTakesEffect | src/safe_treiber.rs:69-75 | a winning push exchange puts its value on top of the stacked values |
| HazardLinear.PopTakesEffect | src/safe_treiber.rs:97-107 | a winning pop exchange removes exactly the top value and installs its true successor as head |
| HazardLinear.EmptyTakesEffect | src/safe_treiber.rs:82-85 | None is decided only at a moment the stack is empty |
| HazardLinear.StepSimulates | src/safe_treiber.rs:57-149 | every step of every thread is one operation of the atomic stack, at one of those three points, or leaves the stacked values as they are |
| HazardLinear.StepKeepsLog | src/safe_treiber.rs:57-149 | every step keeps the log replayable to the stacked values, and each thread in the order call, effect, return |
| HazardLinear.RunRefinesAtomicStack | src/safe_treiber.rs:57-115 | linearizability: the effects of every run are a run of the atomic stack that ends with the values linked from head; each call takes exactly one effect between start and return and returns what it gave |
| HazardLinear.ChainIsDetermined | src/safe_treiber.rs:25-28 | memory determines the list from head |
| HazardLinear.ReplayConserves | src/safe_treiber.rs:57-115 | in any history the atomic stack allows, values pushed are values popped plus values stacked, as multisets |
| HazardLinear.RunConserves | src/safe_treiber.rs:57-115 | so they are in every run of the machine |
| HazardReclaim.SiftBound | src/safe_treiber.rs:125-138 | the retain pass ends with at most as many entries as the scan found pointers |
| HazardReclaim.RunBoundsGarbage | src/safe_treiber.rs:117-138 | whenever the retired list is not locked it has at most 64 entries, and never more than 65 |
| HazardReclaim.RetireReclaimsAt64 | src/safe_treiber.rs:117-123 | a retirement that leaves fewer than 64 entries scans nothing, one that reaches 64 does, and neither frees |
| HazardReclaim.NothingFreedBefore64 | src/safe_treiber.rs:30-31 | in a run without `force_reclaim` no node is freed and no scan begins before 64 have been retired |
| HazardSlots.RunKeepsUse | src/hazard.rs:65-79 | a slot in use always has a holder |
| HazardSlots.MovesOn | src/hazard.rs:66-76 | a failed attempt at slot j leaves one participant behind, so at most k - j participants are ever at j or beyond |
| HazardSlots.AcquireNeverFails | src/hazard.rs:65-79 | with at most k <= 64 participants at a time no search fails, each slot obtained has an index below k, and no two holders share one |
| HazardSlots.PanicsExactly | src/hazard.rs:63-79 | some run leaves a pop without a slot if and only if there are more than 64 threads |
| HazardSlots.ManyThreadsPanic | src/safe_treiber.rs:80 | the run: 64 threads stopped with a slot each, and one more pop |
| HazardProgress.StepPays | src/safe_treiber.rs:62-114 | every step keeps the account: a failed attempt is covered by an exchange another thread won since the attempt loaded head |
| HazardProgress.FailuresArePaidFor | src/safe_treiber.rs:62-114 | over any run a thread fails at most as often as the others win |
| HazardProgress.LockFree | src/safe_treiber.rs:62-114 | N threads together fail at most N - 1 times per exchange won |
| HazardProgress.LogCountsExactly | src/safe_treiber.rs:62-114 | the failures and wins counted are exactly the re-checks and exchanges that found another head, or the same; a failed attempt starts again from the load |
| HazardRegistry.PublishedMembers | src/hazard.rs:95-106 | a scan with nobody moving returns exactly the non-null pointers of slots in use |
| HazardRegistry.Registry.constructor | src/hazard.rs:57-61 | all slots start free and null |
| HazardRegistry.Registry.Acquire | src/hazard.rs:65-79 | takes the first free slot; None exactly when all are in use, changing nothing |
| HazardRegistry.Registry.Protect | src/hazard.rs:123-127 | publishes in that slot and touches no other |
| HazardRegistry.Registry.Clear | src/hazard.rs:129-133 | withdraws the pointer and touches no other slot |
| HazardRegistry.Registry.Release | src/hazard.rs:140-147 | the slot is free and null again, the others untouched |
| HazardRegistry.Registry.IsHazarded | src/hazard.rs:83-91 | true exactly when some slot in use publishes the pointer |
| HazardRegistry.Registry.Snapshot | src/hazard.rs:95-106 | returns the published pointers in slot order |
| SafeTreiber.SafeTreiberStack.After | src/safe_treiber.rs:33-37 | the object may be the end of any concurrent run, the other threads wherever they are, as long as the retired list is not locked |
| SafeTreiber.SafeTreiberStack.Push | src/safe_treiber.rs:57-77 | the value is on top, the rest as before |
| SafeTreiber.SafeTreiberStack.TryPush | src/safe_treiber.rs:62-76 | one round of the retry loop, alone, publishes the node |
| SafeTreiber.SafeTreiberStack.ProtectTop | src/safe_treiber.rs:82-93 | the top is published and allocated when the re-check passes |
| SafeTreiber.SafeTreiberStack.TakeTop | src/safe_treiber.rs:97-102 | the top node leaves the stack |
| SafeTreiber.SafeTreiberStack.Finish | src/safe_treiber.rs:107-110 | the value is the node's, and the slot is free and null before the node is retired |
| SafeTreiber.SafeTreiberStack.ReleaseSlot | src/hazard.rs:140-147 | releasing is two machine steps that leave the stack alone |
| SafeTreiber.SafeTreiberStack.SiftOne | src/safe_treiber.rs:127-137 | an entry is freed exactly when the scan did not find it |
| SafeTreiber.SafeTreiberStack.SiftRetired | src/safe_treiber.rs:125-138 | keeps the hazarded entries in order and frees the others |
| SafeTreiber.SafeTreiberStack.ReclaimLocked | src/safe_treiber.rs:125-138 | keeps the retired nodes a slot publishes, in order, and frees exactly the others |
| SafeTreiber.SafeTreiberStack.Retire | src/safe_treiber.rs:117-123 | the list grows by the node, and is sifted once it has 64 entries |
| SafeTreiber.SafeTreiberStack.AcquireSlot | src/safe_treiber.rs:80 | takes the first slot that is not in use, whoever holds the others |
| SafeTreiber.SafeTreiberStack.Pop | src/safe_treiber.rs:79-115 | returns and removes the top, None exactly on the empty stack; retires its node; leaves the other slots as they were and its own free |
| SafeTreiber.SafeTreiberStack.ForceReclaim | src/safe_treiber.rs:146-149 | frees exactly the retired nodes no slot publishes, whatever the other threads are in the middle of |
| SafeTreiber.SafeTreiberStack.PopTimes | src/safe_treiber.rs:79-138 | with nobody else at work and an empty retired list, n pops leave n mod 64 retired nodes |
| SafeTreiber.SafeTreiberStack.Drop | src/safe_treiber.rs:152-163 | after any concurrent run whose other threads have finished or panicked, no node is left and every node ever pushed has been freed exactly once |
| PlainTreiber.NobodyWaits | src/treiber.rs:61-105 | any thread can always go on; a pop whose node has been freed may read any successor |
| PlainTreiber.PlainFlow | src/treiber.rs:61-105 | push and pop of the plain stack make one shared access a step |
| PlainTreiber.TakeBooks | src/treiber.rs:89-98 | an exchange that succeeds installs the true successor, even though `next` may have been read from freed memory |
| PlainTreiber.NextKeeps | src/treiber.rs:61-105 | every step keeps the invariant unless it publishes a node at an address a pop holds with another successor |
| PlainTreiber.NextIsSafe | src/treiber.rs:61-105 | if each address handed out is harmless at that moment, no step ever does that |
| PlainTreiber.GuardedIsSafe | src/treiber.rs:61-105 | then every run refines the atomic stack, conserves values and never frees twice, although pops read freed memory |
| PlainReuse.NoReuseIsGuarded | src/treiber.rs:18-28 | a run that hands out no address twice is such a run |
| PlainReuse.HarmfulLoses | src/treiber.rs:20-28 | an address handed out while harmful can be continued, with harmless ones only, to a state whose list from head is not the stack |
| PlainReuse.ReuseIsSafeExactly | src/treiber.rs:18-28 | the exact condition: all continuations stay faithful to the atomic stack if and only if the address handed out is harmless |
| PlainReuse.ReuseLosesAValue | src/treiber.rs:18-28 | two threads can reach such a harmful allocation |
| SatbSafety.StoreKeeps | src/atomic.rs:94-98 | an overwrite keeps the invariant: a lost snapshot reference has been noted |
| SatbSafety.CheckStackKeeps | src/concurrent.rs:79-92 | the exit test is right: an empty final drain and then an empty stack mean no black object has a white snapshot reference |
| SatbSafety.StepKeeps | src/concurrent.rs:53-95 | every step of collector, mutators and orchestrator that obeys the handshake keeps the invariant |
| SatbSafety.RunKeeps | src/concurrent.rs:53-95 | so does every run |
| SatbSafety.SnapshotSurvives | src/barrier.rs:17-23 | every object reachable when marking started, and everything reachable then from a captured id or one left over in the queues, is black on return |
| SatbSafety.CapturesSurvive | src/concurrent.rs:31-34 | whatever the mutators do, every id recorded while the phase was Marking is black on return |
| SatbBarrier.HistoryIsTrue | src/concurrent.rs:24-29 | snapshot, roots, leftovers, captures and births named by the theorems are those of the run, read off its moves |
| SatbBarrier.RunSurvives | src/barrier.rs:17-23 | safety and capture completeness stated on the moves of the run alone |
| SatbBarrier.HandshakeRestricts | src/concurrent.rs:19-22 | the handshake restricts starting to mark, leaving Marking and starting a write, and nothing else |
| SatbPrecision.StepPrecise | src/concurrent.rs:63-74 | if mutators handle only live references, no step hands a dead one to the collector |
| SatbPrecision.OnlyTheSnapshotSurvives | src/concurrent.rs:63-74 | then, among objects not allocated meanwhile, black means exactly reachable when marking started, from the roots or an id left over in the queues |
| SatbBarrier.BarrierSteps | src/atomic.rs:94-98 | the steps of a barrier call: nothing is recorded unless the phase loaded was Marking, and the store comes after the record |
| SatbBarrier.OtherMutatorSteps | src/barrier.rs:222-226 | allocation and greying do just that |
| SatbBarrier.QueueDiscipline | src/barrier.rs:36-42 | the mark stack grows and shrinks at its top, the remembered set grows at its end and is drained as a whole, in order |
| SatbBarrier.OrchestratorSteps | src/atomic.rs:41-55 | the phase goes Idle, Marking, then Sweeping or Idle, and when |
| SatbBarrier.StoreIsLocal | src/concurrent.rs:10-12 | an overwrite changes one field |
| SatbBarrier.OnlyMarkingRecords | src/atomic.rs:94-98 | in every run the remembered set holds only ids whose call loaded Marking |
| SatbBarrier.LeftoversWereLate | src/concurrent.rs:75-84 | a cycle finds in the queues only what was handed over while the phase was not Marking; without that, nothing |
| SatbBarrier.PreciseOverCycles | src/concurrent.rs:63-74 | over any number of cycles with nothing handed over too late, black means exactly reachable from the roots of the last |
| SatbNecessity.LateCaptureIsKept | src/atomic.rs:94-98 | a run in which a capture recorded too late makes the next cycle mark an object that was already dead |
| SatbPrecision.WhiteIsGarbage | src/barrier.rs:222-226 | if fresh objects were greyed, nothing a mutator can still reach is white |
| SatbPrecision.StillGraphIsExact | src/concurrent.rs:53-95 | on a graph nobody changes every interleaving returns what is reachable from roots and captures |
| SatbPrecision.QuietIsExact | src/concurrent.rs:53-95 | with no mutator at work it returns exactly what is reachable from the roots |
| SatbPrecision.EachScannedOnce | src/concurrent.rs:65-68 | in every interleaving, whatever the mutators do, the collector scans each id it marks exactly once |
| SatbTermination.EachStepShrinks | src/concurrent.rs:53-95 | after marking has ended each collector step lowers a measure of unmarked ids, scan stage and queued entries |
| SatbTermination.MarkingCompletes | src/concurrent.rs:75-93 | from any such state the collector's own steps lead to its return, on every finite graph |
| SatbProgress.CollectorNeverWaits | src/concurrent.rs:53-95 | in every run a collector that has been spawned and has not returned can step, whatever the phase |
| SatbProgress.CollectorFlow | src/concurrent.rs:53-95 | the collector loop, one lock, one field or one push a step |
| SatbProgress.MutatorsNeverWait | src/atomic.rs:94-98 | a mutator can always go on with a call, and start one when it is in none |
| SatbProgress.MarkingCatchesUp | src/concurrent.rs:53-74 | while the phase is Marking the collector alone empties both queues and blackens all it has been given |
| SatbProgress.CyclesCanFollow | src/atomic.rs:41-45 | whenever the handshake allows, a whole cycle can follow, in which the snapshot is black before the phase leaves Marking |
| SatbNecessity.FieldsAreReadOneByOne | src/concurrent.rs:69-73 | a mutator can overwrite a field between the collector's reads of two fields of one object |
| SatbNecessity.StartMidWrite | src/atomic.rs:94-98 | starting to mark while a mutator is about to store loses a live object |
| SatbNecessity.StaleReference | src/barrier.rs:85-86 | so does starting while a mutator has given the barrier a reference that is out of date |
| SatbNecessity.EndMidCall | src/atomic.rs:94-98 | so does leaving Marking while a mutator has called the barrier but not loaded the phase |
| SatbNecessity.WriteInWindow | src/concurrent.rs:19-22 | so does starting a write between the end of marking and the collector's return |
| Marker.TricolorInvariant | src/marker.rs:9-11 | no black object references a white one, at every loop head of `mark` |
| Marker.AllSeen | src/marker.rs:63-73 | with no grey left, seen is reachable |
| Marker.GreyUnseen | src/marker.rs:56-69 | greys exactly the unseen ids, each once |
| Marker.Mark | src/marker.rs:47-74 | terminates on every finite graph; Black exactly the reachable ids, White exactly the other listed ones, no Grey |
| Barrier.MarkStack.Push | src/barrier.rs:36-38 | last in |
| Barrier.MarkStack.Pop | src/barrier.rs:40-42 | first out; None exactly when empty |
| Barrier.RememberedSet.Record | src/remembered_set.rs:27-29 | adds one id and keeps the order of the others |
| Barrier.RememberedSet.Drain | src/remembered_set.rs:33-35 | hands over every recorded id and leaves none |
| Barrier.AtomicPhase.Load | src/atomic.rs:33-35 | decodes to the one phase that encodes to the byte |
| Barrier.AtomicPhase.Store | src/atomic.rs:37-39 | the phase stored is the one a later load gives |
| Barrier.AtomicPreWrite | src/atomic.rs:94-98 | captures exactly during Marking, into the remembered set |
| ConcurrentMarker.PushWhite | src/concurrent.rs:69-73 | of the references of a scanned object exactly the unmarked ones become waiting |
| ConcurrentMarker.Fetch | src/concurrent.rs:55-63 | everything recorded moves to the stack, in order, before the top is taken |
| ConcurrentMarker.Visit | src/concurrent.rs:65-73 | an id is scanned only if it was not black; afterwards it is black and none of its references is forgotten |
| ConcurrentMarker.LastLook | src/concurrent.rs:75-92 | the loop ends exactly when marking has ended and nothing is queued; otherwise nothing is lost |
| ConcurrentMarker.ConcurrentMark | src/concurrent.rs:42-97 | returns exactly what is reachable from stack, remembered set and all captures, scans each object once, and empties the queues |
| ConcurrentMarker.MarkersAgreeAlways | src/concurrent.rs:53-95 | in every interleaving of collector and orchestrator with no mutator at work, the concurrent result is the Black set of the stop-the-world marker |
| ConcurrentMarker.MarkersAgree | src/concurrent.rs:42-97 | so it is for the two programs, with the roots on the stack and no captures |
| RegionSpec.RoundsUp | src/region.rs:78 | the mask round-up is the least multiple of 8 not below the bump pointer |
| RegionSpec.FreeTakes | src/region.rs:77-87 | a free region takes any request of at most a region, at offset 0 |
| RegionSpec.AllocFromFirstFree | src/region.rs:147-159 | the search ends in the first free region, if there is one |
| RegionSpec.SweepFreesDead | src/region.rs:188-200 | sweeping raises the number of free regions by the number of dead ones |
| RegionRuns.NewRegion | src/region.rs:56-63 | a new region holds 32768 zero bytes, unused and uncounted |
| RegionRuns.LargestRequest | src/region.rs:132-138 | more than 32768 bytes are never granted, and a new heap grants any size up to that |
| RegionRuns.TryAllocExactly | src/region.rs:77-87 | exactly when one region grants a request, and what a refusal leaves behind |
| RegionRuns.RunsMayContain | src/region.rs:135-200 | runs may contain every request, count reset and sweep, and each update and count of an object in use |
| RegionRuns.SweepWrittenOut | src/region.rs:188-200 | a swept region is free, empty and uncounted with its bytes as they were, and no longer current; the other regions are unchanged |
| RegionRuns.OthersUntouched | src/region.rs:169-184 | writing and counting leave offsets, states and the current region; writing leaves counts, counting leaves bytes |
| RegionRuns.RunFreeUncounted | src/region.rs:89-93 | over every run a free region has live count 0 |
| RegionRuns.UncountedIsReclaimed | src/region.rs:14-19 | a region in which nothing was counted since it was last free is freed by the next sweep, whatever was allocated and written in it |
| RegionRuns.AllocSweepTwice | src/region.rs:188-200 | a region can be used and reclaimed again and again |
| RegionRuns.UntouchedReadsZero | src/region.rs:56-63 | a byte nobody has written since the heap was made reads 0 |
| RegionSpec.AllSwept | src/region.rs:188-200 | the loop over regions adds up to the sweep of the whole heap |
| RegionSpec.NewSound | src/region.rs:110-115 | a new heap satisfies the region state machine and has all regions free |
| RegionSpec.HandlesTellRegions | src/region.rs:141-144 | handles name their region if and only if there are at most 2^32 regions |
| RegionStore.AllocSound | src/region.rs:135-160 | every allocation keeps the region state machine, whatever the number of regions |
| RegionStore.AllocOutcome | src/region.rs:132-160 | None exactly when the size exceeds a region, or no region is free and the current one is unset or lacks room; which region is chosen; what changes and what does not; the state machine is kept |
| RegionStore.FullStillAllocates | src/region.rs:41-43 | a run in which a Full region takes a smaller request |
| RegionStore.RoomIsNotEnough | src/region.rs:132-133 | a run in which a request fails although a region has room |
| RegionStore.Apart | src/region.rs:77-87 | of two objects in a region the earlier ends before the later begins |
| RegionStore.WriteIsRead | src/region.rs:162-172 | a read after a write returns the bytes written, then the object's old ones |
| RegionStore.WriteIsLocal | src/region.rs:168-172 | a write within one object changes no byte of another |
| RegionStore.RequestKeeps | src/region.rs:135-160 | an allocation, granted or not, leaves every object in use where and as it is, and a granted one adds one of the size asked for |
| RegionStore.ReclaimKeeps | src/region.rs:188-200 | a sweep keeps exactly the objects in regions that were not dead, where and as they are |
| RegionStore.StepKeeps | src/region.rs:132-200 | every operation keeps the store invariant |
| RegionStore.RunSeparates | src/region.rs:132-200 | over every run: handles are 8-aligned and inside their region, reads return what was last written to that object, no two objects share a byte, and the region state machine holds |
| RegionStore.Undisturbed | src/region.rs:132-200 | over every run an object keeps place and bytes, disjoint from all later allocations, until it is written itself or a sweep finds its region dead |
| RegionBounds.Packing | src/region.rs:77-87 | a non-empty object takes at least 8 bytes, and alignment wastes at most 7 bytes per object |
| RegionBounds.RegionBound | src/region.rs:77-87 | at most 4096 non-empty objects per region between resets |
| RegionBounds.MarkEachCounts | src/region.rs:182-184 | marking counts handles per region modulo 2^32 and changes nothing else |
| RegionBounds.LiveCountExact | src/region.rs:174-184 | marking distinct handles once after a reset counts them exactly, at most 4096 (4097 with empty objects), so the counter never wraps around |
| RegionHeap.Region.constructor | src/region.rs:56-63 | a new region is free and zeroed |
| RegionHeap.Region.TryAlloc | src/region.rs:77-87 | updates the region in place as the value form says |
| RegionHeap.Region.Reset | src/region.rs:89-93 | as the value form says |
| RegionHeap.RegionHeap.WithRegions | src/region.rs:110-115 | n separate free regions |
| RegionHeap.RegionHeap.NFree | src/region.rs:121-126 | counts the free regions |
| RegionHeap.RegionHeap.Alloc | src/region.rs:135-160 | the code with its loop does what the value form says, in place |
| RegionHeap.RegionHeap.Search | src/region.rs:147-159 | the loop over regions is the search of the value form |
| RegionHeap.RegionHeap.Read | src/region.rs:162-166 | the bytes of the view |
| RegionHeap.RegionHeap.Write | src/region.rs:168-172 | patches one byte array and no other |
| RegionHeap.RegionHeap.PreMark | src/region.rs:175-179 | resets every count and nothing else |
| RegionHeap.RegionHeap.MarkLive | src/region.rs:182-184 | counts one more object in one region |
| RegionHeap.RegionHeap.Sweep | src/region.rs:188-200 | the sweep of the value form; n_free grows by exactly the result |
| RegionHeap.RegionHeap.SweepAt | src/region.rs:190-198 | the body of the sweep loop for one region |
| Cycle.CountSurvivors | src/region.rs:174-184 | resets, then counts each live handle once, in any order |
| Cycle.CycleOutcome | src/region.rs:11-23 | counting and sweeping keep exactly the objects that share a region with a counted one, and leave a region free exactly when it was free or has no counted handle |
| Cycle.CycleReclaims | src/region.rs:11-23 | with the handles marking found, the same in terms of reachability |
| Cycle.Collect | src/region.rs:11-23 | the whole cycle: reachable objects keep place and bytes, a region is free afterwards exactly when it was free or holds no reachable handle, n_free grows by the result, and the store invariant holds again |
| Cycle.ReachableOutlives | src/region.rs:11-23 | a reachable object also keeps place and bytes through all later operations, disjoint from every other object, until it is written itself or a later sweep finds its region dead |

## Left out

- Weak memory orderings: the Acquire, Release and AcqRel annotations are not modelled; all interleavings are sequentially
  consistent.
- Threads, `Arc`, `JoinHandle`, sleeping, lock poisoning and panics: threads are program counters, locked sections and
  the retired list's mutex are steps, and slot exhaustion is the state `Panicked`.
- SafeTreiber.SafeTreiberStack.Drop: frees the retired list by a reclamation pass, where the source drains it outright;
  no slot is in use then, so the same nodes are freed.
- SafeTreiber.SafeTreiberStack.Push: the other threads are stopped while a method of the class is executed, so its
  exchange wins in the first round; the interleavings and the retries are those of `HazardStack`.
- SafeTreiber.SafeTreiberStack.TryPush: likewise, the round wins.
- SafeTreiber.SafeTreiberStack.ProtectTop: likewise, the re-check passes.
- SafeTreiber.SafeTreiberStack.TakeTop: likewise, the exchange wins.
- SafeTreiber.SafeTreiberStack.AcquireSlot: asks for a slot that is not in use, without which the source panics; no
  other thread takes it during the search.
- SafeTreiber.SafeTreiberStack.Pop: likewise, and no other thread holds the lock of the retired list, for which the
  source would wait.
- ConcurrentMarker.MarkersAgree: follows one schedule; every interleaving is `MarkersAgreeAlways`.
- ConcurrentMarker.ConcurrentMark: works on a graph that does not change, with captures at two points of each round of
  the loop; finer interleavings and writing mutators are those of `SatbMachine`.
- SatbPrecision.WhiteIsGarbage: asks that every object allocated since marking started has been greyed while the phase
  was Marking.
- Collection of a heap while mutators write: `Cycle.Collect` uses the stop-the-world marker.
- Reads and writes beyond an object's own size, handles kept after a sweep of their region, and counting dead handles:
  excluded by preconditions (`Legal`, `RootsInUse`); out-of-range handles panic in the source.
- The store theorems (`RegionStore.RunSeparates` and what builds on it) are about heaps of at most 2^32 regions: beyond
  that two regions share a handle, see `RegionSpec.HandlesTellRegions`.
- `Arena`: the bump arithmetic of one region without the state machine, which would add only easy members.
- Getters, `is_empty`, `len` and `contains`.
- Roadmap items that are not in the code (generations, card marking, per-thread buffers, dynamic hazard growth).
- Time and scan cost.
