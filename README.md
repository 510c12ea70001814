# Snail lifelines and uids in Dafny

This project models two pieces of the snail viewer's core.

1. **The lifeline and its three handles.** A `lifeline` is a heap object with one pointer slot and a pthread reader/writer lock. `living_ptr`, embedded in the object itself, creates it and kills it on destruction (`waitForDeath`: write lock, null the slot, unlock). `liveness_ptr` shares it. `holder_ptr` is a scoped guard: it calls `retain` (a fail-fast try-read-lock that returns the slot) when built and `release` (unlock) when destroyed.
2. **The `uid` value type.** A 16-byte identity read as two words: module and author make word 0, type and name make word 1. Equality, ordering and hashing work on those words.

Files:

- `lifeline_spec.dfy` (module `LifelineSpec`): the lifeline as a pure state machine. A `LockState` is the slot, the reader count and the writer flag. Each pthread call is one function, and a blocking `pthread_rwlock_wrlock` becomes the precondition `CanWrLock` (no readers, no writer). Runs of atomic steps by any parties (`Run`) carry the trace lemmas.
- `lifeline.dfy` (module `Lifelines`): class `Lifeline`. It has the fields `obj`, `readers` and `writer`. Each method is specified by the matching `LifelineSpec` function of its old state. `waitForDeath` is split into `WrLock`, `ClearObject` and `Unlock`, so the state where a writer holds the lock can be reached.
- `handles.dfy` (module `Handles`): classes `LivingPtr`, `LivenessPtr` and `HolderPtr`. A C++ destructor becomes `Destroy`, a move constructor becomes constructor `Move`, and `operator=` becomes `Assign`. The caller destroys `Assign`'s by-value argument afterwards, and `LivingPtr.MoveAssign` writes out that whole sequence. `HolderPtr.Get` is the conversion operator: it returns the cached pointer. The file ends with whole-lifetime methods on freshly made handles.
- `uid.dfy` (module `Uids`): `UidType`, `Uid`, the two words, `Less` (`operator<`), `Equal` (`operator==`), `HasType`, `Null` and `Hash`.

Object addresses (`void*`) are `Ptr = Null | Obj(addr)`. The source's `object` field is `obj`, because `object` is a Dafny keyword. For the same reason the uid's `module` and `type` fields are `moduleId` and `kind`.

The doc comment at include/snailviewer/liveness.hpp:100 says that a null result from `retain` needs no `release`, and `~holder_ptr` (include/snailviewer/liveness.hpp:202-204) releases only when the pointer it got is non-null. But `retain` on a dead lifeline has already taken a read hold when it returns null, and that hold is never given up. The model follows the code; the leak is listed under Findings.

## Model

| member | source | states |
|---|---|---|
| LifelineSpec.Init | src/snailviewer/liveness_pthread.cpp:36-43 | a new lifeline holds exactly the given object, satisfies reader/writer exclusion, and its write lock is available |
| Lifelines.Lifeline.Create | src/snailviewer/liveness_pthread.cpp:36-43 | a nonzero `pthread_rwlock_init` status gives the runtime error "Cannot create read-write lock!" and no lifeline; a zero status gives a fresh lifeline in the initial state |
| Lifelines.Lifeline.constructor | src/snailviewer/liveness_pthread.cpp:36 | the success path of the constructor: the slot is the given object and the lock is free |
| Lifelines.Lifeline.TryRdLock | src/snailviewer/liveness_pthread.cpp:60 | `pthread_rwlock_tryrdlock` returns 0 and adds a reader exactly when no writer holds the lock; otherwise it returns EBUSY and changes nothing; reader/writer exclusion is kept |
| Lifelines.Lifeline.WrLock | src/snailviewer/liveness_pthread.cpp:52 | the write lock is taken only when no reader and no writer holds the lock, and it sets the writer flag; reader/writer exclusion is kept |
| Lifelines.Lifeline.ClearObject | src/snailviewer/liveness_pthread.cpp:53 | under the write lock the slot becomes null; the lock state is untouched; reader/writer exclusion is kept |
| Lifelines.Lifeline.Unlock | src/snailviewer/liveness_pthread.cpp:54 | `pthread_rwlock_unlock` gives up the write hold if one is taken, otherwise one read hold; reader/writer exclusion is kept |
| Lifelines.Lifeline.WaitForDeath | src/snailviewer/liveness_pthread.cpp:51-55 | requires no readers and no writer (blocking write lock); afterwards the slot is null and the lock is free; reader/writer exclusion is kept |
| Lifelines.Lifeline.Retain | src/snailviewer/liveness_pthread.cpp:58-65 | while a writer holds the lock: null, state unchanged; otherwise the current slot is returned and the reader count rises by one, with the slot unchanged; reader/writer exclusion is kept |
| Lifelines.Lifeline.Release | src/snailviewer/liveness_pthread.cpp:68-70 | requires a read hold; removes exactly one reader and never changes the slot; reader/writer exclusion is kept |
| LifelineSpec.RetainWhileWriterHeld | src/snailviewer/liveness_pthread.cpp:58-61 | retain under the write lock fails fast: null, reader count unchanged |
| LifelineSpec.RetainWithoutWriter | src/snailviewer/liveness_pthread.cpp:60-64 | retain without a writer adds one reader and returns the current slot |
| LifelineSpec.Retain | src/snailviewer/liveness_pthread.cpp:58-65 | retain never writes the slot or the writer flag, returns either null or the slot, and keeps reader/writer exclusion |
| LifelineSpec.Release | src/snailviewer/liveness_pthread.cpp:68-70 | release removes exactly one reader, leaves the slot alone and leaves no writer |
| LifelineSpec.ReleaseUndoesRetain | src/snailviewer/liveness_pthread.cpp:58-70 | a successful retain followed by a release restores the lock state exactly |
| LifelineSpec.WaitForDeath | src/snailviewer/liveness_pthread.cpp:51-55 | from a free lock, waitForDeath ends in the initial state of a dead lifeline: a null slot and a free lock |
| LifelineSpec.RunKeepsValid | src/snailviewer/liveness_pthread.cpp:51-70 | in every state reachable by lock steps, a writer never coexists with readers |
| LifelineSpec.SlotOnlyCleared | src/snailviewer/liveness_pthread.cpp:36-70 | no step writes a non-null value into the slot: after any run the slot is its old value or null |
| LifelineSpec.DeathIsPermanent | src/snailviewer/liveness_pthread.cpp:53 | once the slot is null it stays null whatever steps follow, and every later retain returns null |
| LifelineSpec.PinnedReadersKeepObject | src/snailviewer/liveness_pthread.cpp:51-70 | while pinned read holds are kept, no writer gets in and the slot cannot change, whatever other readers do |
| LifelineSpec.HolderKeepsObjectAlive | include/snailviewer/liveness.hpp:80-82 | after a retain that returned a non-null pointer, and until that hold is released, the slot stays that pointer and waitForDeath cannot take the write lock |
| LifelineSpec.ReadersBalance | src/snailviewer/liveness_pthread.cpp:58-70 | after any run, readers now plus read holds released equals readers before plus read locks granted |
| LifelineSpec.HolderLifetimeBalanced | include/snailviewer/liveness.hpp:197-204 | a holder's construction and destruction restore the lock state exactly when a writer holds the lock or the slot is non-null |
| LifelineSpec.RetainAfterDeathLeaksReader | include/snailviewer/liveness.hpp:100 | after death retain gets the read lock yet returns null, and a holder's lifetime leaves the reader count one higher |
| LifelineSpec.LeakedReaderBlocksWriters | include/snailviewer/liveness.hpp:202-204 | after such a leak the write lock can never be taken again |
| LifelineSpec.RetainCheckedKeepsPromise | include/snailviewer/liveness.hpp:100 | with the corrected retain, a holder's construction and destruction always restore the lock state |
| LifelineSpec.RetainChecked | include/snailviewer/liveness.hpp:100 | the corrected retain: a null result leaves the lock state as it was, and a non-null result is exactly the old retain's |
| Lifelines.Lifeline.RetainChecked | include/snailviewer/liveness.hpp:100 | the corrected retain as a method: a null result changes nothing |
| Handles.LivingPtr.Empty | include/snailviewer/liveness.hpp:134 | the default owner handle holds no lifeline |
| Handles.LivingPtr.Own | include/snailviewer/liveness.hpp:131 | `living_ptr(this)` makes a fresh lifeline whose slot is `this`; when the lock does not initialise it fails with "Cannot create read-write lock!" and makes no handle |
| Handles.LivingPtr.Destroy | include/snailviewer/liveness.hpp:137 | destroying a non-empty owner runs waitForDeath on its lifeline; an empty one does nothing |
| Handles.LivingPtr.Move | include/snailviewer/liveness.hpp:143-146 | the new owner takes the lifeline and the source is left empty |
| Handles.LivingPtr.Assign | include/snailviewer/liveness.hpp:149-153 | assignment swaps in the argument's lifeline and hands the old one to the by-value argument |
| Handles.LivingPtr.MoveAssign | include/snailviewer/liveness.hpp:137-153 | `x = std::move(y)`: x ends with y's lifeline, y is empty, the lifeline x held is killed, and y's lifeline keeps its lock state; a self-move `x = std::move(x)` keeps x's lifeline and its lock state |
| Handles.LivenessPtr.FromLiving | include/snailviewer/liveness.hpp:174 | a liveness pointer from an owner references the same lifeline and leaves its lock state alone |
| Handles.LivenessPtr.FromLiveness | include/snailviewer/liveness.hpp:179 | a liveness pointer from another references the same lifeline and leaves its lock state alone |
| Handles.HolderPtr.constructor | include/snailviewer/liveness.hpp:197-199 | from an empty liveness pointer: null and no retain; otherwise the pointer and new lock state are retain's; a non-null pointer is the slot under a read hold, so the write lock is unavailable |
| Handles.HolderPtr.Destroy | include/snailviewer/liveness.hpp:202-204 | release runs exactly when there is a lifeline and the pointer is non-null; otherwise the lock state is unchanged |
| Handles.HolderPtr.Move | include/snailviewer/liveness.hpp:210-213 | as written: the new holder takes the lifeline, but its pointer is the indeterminate value of an uninitialised field; the source keeps its pointer and has no lifeline |
| Handles.HolderPtr.Assign | include/snailviewer/liveness.hpp:216-220 | as written: the lifelines are swapped and each holder keeps its own pointer |
| Handles.HolderPtr.MoveFixed | include/snailviewer/liveness.hpp:210-213 | corrected move: the pointer travels with the lifeline and the source ends empty |
| Handles.HolderPtr.AssignFixed | include/snailviewer/liveness.hpp:216-220 | corrected assignment: lifeline and pointer are swapped together |
| Handles.HolderPtr.Checked | include/snailviewer/liveness.hpp:197-199 | a holder built on the corrected retain: a null pointer leaves the lock state as it was |
| Handles.HolderPtr.Get | include/snailviewer/liveness.hpp:223-230 | both conversion operators give the holder's cached `ptr` field; that this is not a fresh read of the slot is what `Handles.AssignedGuard` shows (it reports object 1 while holding object 2's lifeline) |
| Handles.GuardAfterDeath | include/snailviewer/liveness.hpp:100 | owner killed, then a holder made and destroyed: the holder sees null and one reader is left behind |
| Handles.CheckedGuardAfterDeath | include/snailviewer/liveness.hpp:100 | the same lifetime with the corrected retain leaves no reader behind |
| Handles.MovedGuard | include/snailviewer/liveness.hpp:210-213 | a moved holder reports the indeterminate value instead of the object; if that value is null, the read hold leaks |
| Handles.MovedGuardFixed | include/snailviewer/liveness.hpp:210-213 | with the corrected move, the holder reports the object and the lock ends free |
| Handles.AssignedGuard | include/snailviewer/liveness.hpp:216-220 | `a = std::move(b)` on holders of objects 1 and 2, then all three holders destroyed: a holds object 2's lifeline but reports object 1; object 2's read hold is released, and object 1's is leaked exactly when the parameter's indeterminate pointer is null |
| Handles.AssignIntoEmptyHolder | include/snailviewer/liveness.hpp:216-220 | `a = std::move(b)` with `a` built from an empty liveness pointer: after all three holders are destroyed, b's lifeline still has one reader and its owner can never take the write lock, whatever the indeterminate pointer is |
| Handles.AssignedGuardFixed | include/snailviewer/liveness.hpp:216-220 | with the corrected assignment, a reports the object whose lifeline it holds, and both locks end free |
| Uids.TypeCode | include/snailviewer/uid.hpp:39-57 | each `uidType` is stored as a code below 5, from `module = 0` to `color = 4` |
| Uids.HasType | include/snailviewer/uid.hpp:111-113 | `hasType(t)` holds exactly when the stored type byte is t's code |
| Uids.TypeCodesDistinct | include/snailviewer/uid.hpp:39-57 | distinct types have distinct codes |
| Uids.Encode | include/snailviewer/uid.hpp:97-98 | a word is a number below 256^n for n bytes |
| Uids.EncodeInjective | include/snailviewer/uid.hpp:97-98 | two byte strings of equal length encode to the same word only if they are equal |
| Uids.Word0 | include/snailviewer/uid.hpp:97 | the module/author word fits in 64 bits |
| Uids.Word1 | include/snailviewer/uid.hpp:98 | the type/name word fits in 64 bits |
| Uids.WordsDetermineFields | include/snailviewer/uid.hpp:104-108 | equal words mean equal uids |
| Uids.Equal | include/snailviewer/uid.hpp:104-108 | `==` holds exactly when module, author, type and name all agree |
| Uids.LessIrreflexive | include/snailviewer/uid.hpp:96-101 | no uid is less than itself |
| Uids.LessTransitive | include/snailviewer/uid.hpp:96-101 | `<` is transitive |
| Uids.LessTrichotomous | include/snailviewer/uid.hpp:96-108 | exactly one of `a<b`, `b<a` and `a==b` holds, and `==` is identity |
| Uids.Less | include/snailviewer/uid.hpp:96-101 | when the module/author bytes differ, they alone decide, compared byte by byte from the top byte author[2] down; otherwise the type/name bytes decide, from name[6] down to the type byte |
| Uids.EncodeOrder | include/snailviewer/uid.hpp:99-100 | comparing two words as numbers is comparing their bytes from the most significant down |
| Uids.NameDecidesBeforeType | include/snailviewer/uid.hpp:99-100 | with the same module and author, differing names decide the order byte by byte from name[6] down, whatever the types |
| Uids.TypeDecidesLast | include/snailviewer/uid.hpp:99-100 | with the same module, author and name, the type codes decide the order |
| Uids.NameOutranksType | include/snailviewer/uid.hpp:99-100 | a color uid with an all-zero name sorts before a module uid whose name[6] is 1, although module's code is lower |
| Uids.EqualHashesEqual | include/snailviewer/uid.hpp:131-135 | equal uids have equal hashes, each hash being the xor of the two words |
| Uids.Hash | include/snailviewer/uid.hpp:131-135 | the hash is the xor of the two words' 64-bit patterns, so xoring it with either word gives the other |
| Uids.NullIsZeroOfType | include/snailviewer/uid.hpp:123-125 | `null(t)` has all module, author and name bytes zero and satisfies `hasType(t)` |
| Uids.Null | include/snailviewer/uid.hpp:123-125 | `null(t)` has type t, a zero first word and an all-zero name |
| Uids.NullEqualIffSameType | include/snailviewer/uid.hpp:104-108 | `null(t) == null(t')` exactly when t and t' are the same type |
| Uids.NullDiffersFromNamed | include/snailviewer/uid.hpp:123-125 | `null(t)` differs from every uid of type t whose name is not all zero |

## Findings

| source | as written | input that shows it | evidently intended | confidence | as-written member | corrected member |
|---|---|---|---|---|---|---|
| src/snailviewer/liveness_pthread.cpp:58-65 | `retain` on a dead lifeline takes the read lock and returns the null slot; `~holder_ptr` then skips `release` | lifeline after `waitForDeath`; build and destroy a `holder_ptr` on it: reader count 0 becomes 1 and stays, so the lock is destroyed while read-locked | "If the retain method returns nullptr, you don't need to invoke this method." (the doc comment of `release`, liveness.hpp:100), so retain gives the read lock up again when the slot is null | high, not executed | LifelineSpec.RetainAfterDeathLeaksReader, Handles.GuardAfterDeath | LifelineSpec.RetainChecked, LifelineSpec.RetainCheckedKeepsPromise, Handles.CheckedGuardAfterDeath |
| include/snailviewer/liveness.hpp:210-213 | the move constructor swaps only `life`, so the new holder's `ptr` is uninitialised and the old holder keeps its pointer | move a live holder of object 1: the new holder reports an indeterminate pointer, and if that pointer is null its destructor never releases the read hold. Conversely, move a holder built while a writer held the lock (it took no hold and got null): if the indeterminate pointer is non-null, its destructor calls `release`, a `pthread_rwlock_unlock` of a hold it never took, possibly the writer's | the pointer moves with the lifeline and the source ends empty | high, not executed | Handles.MovedGuard | Handles.MovedGuardFixed |
| include/snailviewer/liveness.hpp:216-220 | assignment swaps only `life`, so each holder keeps its own `ptr` | `a = std::move(b)`, where a holds object 1 and b holds object 2: a holds object 2's lifeline but reports object 1. With a built from an empty `liveness_ptr`, a ends with b's lifeline and a null pointer, so b's read hold is never released and b's owner blocks forever in `waitForDeath`, whatever the indeterminate value | lifeline and pointer are swapped together | high, not executed | Handles.AssignedGuard, Handles.AssignIntoEmptyHolder | Handles.AssignedGuardFixed |

The handle classes follow the source as written. The corrected members sit beside them: `RetainChecked`, `HolderPtr.Checked`, `MoveFixed` and `AssignFixed`.

## Left out

- Threads and interleaving: runs of atomic steps stand for any interleaving. A blocking `pthread_rwlock_wrlock` is a precondition, not a wait. Fairness is not modelled.
- Handles.HolderPtr.Destroy: `release` requires a read hold, which is pthread's precondition for unlocking. Moving a holder that was built under a writer gives a holder with a non-null indeterminate pointer and no hold; the model does not follow that holder, so the source's spurious unlock is not modelled. The Findings row on the move constructor describes it.
- Spurious `pthread_rwlock_tryrdlock` failures such as EAGAIN on reader-count overflow: the model fails `retain` only for a held writer.
- `~lifeline` (src/snailviewer/liveness_pthread.cpp:46-48): destroying the lock is not modelled. The leaked reader in Findings is the case where it would destroy a held lock.
- The 64-byte `controlBlock` buffer, its `static_assert` and the cast of the buffer to a `pthread_rwlock_t` (src/snailviewer/liveness_pthread.cpp:37-40): memory layout only.
- `std::shared_ptr` reference counting of the lifeline: a lifeline is a Dafny heap object and is never freed. A `bad_alloc` from `new lifeline` is not modelled either.
- The compile-time `static_cast` constraint on `liveness_ptr`'s converting constructors, and the `reinterpret_cast` in `holder_ptr`'s conversion operators: C++ typing only. A conversion shares the same lifeline, and `HolderPtr.Get` returns the cached pointer.
- `liveness_ptr`'s empty destructor: it does nothing.
- Uids.Less: a word is read as an unsigned little-endian number, the first byte least significant. The source compares the platform's signed `long`, so when exactly one of the two compared words has its top byte (author[2] or name[6]) at 128 or more, the source orders the pair the other way. The source's order is still a strict total order, and the model proves those properties on its own reading.
- Uids.Hash: the xor is taken on the 64-bit patterns of the model's words. The `size_t` cast and the platform packing are not modelled.
- The 16-byte size assertion and the POD assertions on `uid`.
- The event bus and event handlers (include/snailviewer/event.hpp): an abstract dispatcher with pure virtual operations and type erasure, not part of this model.
