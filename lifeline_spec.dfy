/**
 * The lifeline of an object, as a pure state machine.
 *
 * A lifeline is one pointer slot (`obj`, the source's `object` field)
 * guarded by a POSIX reader/writer lock. The lock is modelled by its
 * observable state: how many readers hold it and whether a writer holds
 * it. Every pthread call is one atomic step,
 * and the blocking `pthread_rwlock_wrlock` becomes the precondition that
 * nobody holds the lock. The class `Lifelines.Lifeline` is specified by the
 * functions of this module.
 */
module LifelineSpec {

  datatype Option<T> = None | Some(value: T)

  /** An untyped object address (`void*`); `Null` is `nullptr`. */
  datatype Ptr = Null | Obj(addr: nat)

  /** The slot and the lock state of one lifeline. */
  datatype LockState = LockState(obj: Ptr, readers: nat, writer: bool)

  /** Reader/writer exclusion: a writer never coexists with readers. */
  predicate Valid(s: LockState)
  {
    !(s.writer && s.readers > 0)
  }

  /** A freshly constructed lifeline: the given object and a free lock. */
  function Init(obj: Ptr): (r: LockState)
    ensures r.obj == obj && Valid(r) && CanWrLock(r)
  {
    LockState(obj, 0, false)
  }

  /**
   * `pthread_rwlock_tryrdlock`: succeeds (and adds a reader) exactly when no
   * writer holds the lock; otherwise fails at once and changes nothing.
   */
  function TryRdLock(s: LockState): (bool, LockState)
  {
    if s.writer then (false, s) else (true, s.(readers := s.readers + 1))
  }

  /** When `pthread_rwlock_wrlock` can return instead of blocking. */
  predicate CanWrLock(s: LockState)
  {
    s.readers == 0 && !s.writer
  }

  /** `pthread_rwlock_wrlock`, taken only when it does not block. */
  function WrLock(s: LockState): LockState
    requires CanWrLock(s)
  {
    s.(writer := true)
  }

  /** When `pthread_rwlock_unlock` has a hold to give up. */
  predicate CanUnlock(s: LockState)
  {
    s.writer || s.readers > 0
  }

  /** `pthread_rwlock_unlock`: gives up the write hold, or one read hold. */
  function Unlock(s: LockState): LockState
    requires CanUnlock(s)
  {
    if s.writer then s.(writer := false) else s.(readers := s.readers - 1)
  }

  /** The store `object = nullptr`, performed under the write lock. */
  function ClearObject(s: LockState): LockState
    requires s.writer
  {
    s.(obj := Null)
  }

  /** `lifeline::retain`: a fail-fast read lock, then a read of the slot. */
  function Retain(s: LockState): (r: (Ptr, LockState))
    ensures r.1.obj == s.obj && r.1.writer == s.writer
    ensures r.0 == Null || r.0 == s.obj
    ensures Valid(s) ==> Valid(r.1)
  {
    var (ok, t) := TryRdLock(s);
    if !ok then (Null, t) else (t.obj, t)
  }

  /** `lifeline::release`: the caller gives up the read hold it took. */
  function Release(s: LockState): (r: LockState)
    requires Valid(s) && s.readers > 0
    ensures r == LockState(s.obj, s.readers - 1, false)
  {
    Unlock(s)
  }

  /** `lifeline::waitForDeath`: write lock, clear the slot, unlock. */
  function WaitForDeath(s: LockState): (r: LockState)
    requires CanWrLock(s)
    ensures r == Init(Null)
  {
    Unlock(ClearObject(WrLock(s)))
  }

  // ---------------------------------------------------------------------
  // Single steps

  /** While a writer holds the lock, retain fails fast and changes nothing. */
  lemma RetainWhileWriterHeld(s: LockState)
    requires s.writer
    ensures Retain(s) == (Null, s)
  {
  }

  /** Without a writer, retain adds one reader and returns the slot as it is. */
  lemma RetainWithoutWriter(s: LockState)
    requires !s.writer
    ensures Retain(s).0 == s.obj
    ensures Retain(s).1 == LockState(s.obj, s.readers + 1, false)
  {
  }

  /** A successful retain followed by its release is the identity. */
  lemma ReleaseUndoesRetain(s: LockState)
    requires Valid(s) && !s.writer
    ensures Valid(Retain(s).1) && Retain(s).1.readers > 0
    ensures Release(Retain(s).1) == s
  {
  }

  // ---------------------------------------------------------------------
  // Runs: any sequence of atomic lock steps taken by any parties

  /** The atomic steps the lifeline's methods are built from. */
  datatype Op = TryRdLockOp | WrLockOp | ClearOp | UnlockOp

  /**
   * Whether `op` can be taken in `s`. `pinned` read holds belong to holders
   * that stay alive for the whole run: an unlock may give up only one of
   * the other read holds. With `pinned == 0` every unlock is allowed.
   */
  predicate Enabled(s: LockState, op: Op, pinned: nat)
  {
    match op
    case TryRdLockOp => true
    case WrLockOp => CanWrLock(s)
    case ClearOp => s.writer
    case UnlockOp => s.writer || s.readers > pinned
  }

  function Apply(s: LockState, op: Op, pinned: nat): LockState
    requires Enabled(s, op, pinned)
  {
    match op
    case TryRdLockOp => TryRdLock(s).1
    case WrLockOp => WrLock(s)
    case ClearOp => ClearObject(s)
    case UnlockOp => Unlock(s)
  }

  /** The state after the run `t`, or `None` if some step of it would block. */
  function Run(s: LockState, t: seq<Op>, pinned: nat): Option<LockState>
    decreases |t|
  {
    if t == [] then Some(s)
    else if !Enabled(s, t[0], pinned) then None
    else Run(Apply(s, t[0], pinned), t[1..], pinned)
  }

  /**
   * Along the run `t` (the part of it that can be taken): how many read
   * locks were granted and how many read holds were given up.
   */
  function ReadTally(s: LockState, t: seq<Op>, pinned: nat): (nat, nat)
    decreases |t|
  {
    if t == [] || !Enabled(s, t[0], pinned) then (0, 0)
    else
      var rest := ReadTally(Apply(s, t[0], pinned), t[1..], pinned);
      match t[0]
      case TryRdLockOp => if s.writer then rest else (rest.0 + 1, rest.1)
      case UnlockOp => if s.writer then rest else (rest.0, rest.1 + 1)
      case _ => rest
  }

  /** Every reachable state keeps reader/writer exclusion. */
  lemma {:induction false} RunKeepsValid(s: LockState, t: seq<Op>, pinned: nat)
    requires Valid(s) && Run(s, t, pinned).Some?
    ensures Valid(Run(s, t, pinned).value)
    decreases |t|
  {
    if t != [] {
      RunKeepsValid(Apply(s, t[0], pinned), t[1..], pinned);
    }
  }

  /** No step writes a non-null value into the slot: it keeps it or clears it. */
  lemma {:induction false} SlotOnlyCleared(s: LockState, t: seq<Op>, pinned: nat)
    requires Run(s, t, pinned).Some?
    ensures Run(s, t, pinned).value.obj in {s.obj, Null}
    decreases |t|
  {
    if t != [] {
      SlotOnlyCleared(Apply(s, t[0], pinned), t[1..], pinned);
    }
  }

  /**
   * Death is permanent: once the slot is null it stays null, and every
   * later retain returns null.
   */
  lemma DeathIsPermanent(s: LockState, t: seq<Op>, pinned: nat)
    requires s.obj == Null && Run(s, t, pinned).Some?
    ensures Run(s, t, pinned).value.obj == Null
    ensures Retain(Run(s, t, pinned).value).0 == Null
  {
    SlotOnlyCleared(s, t, pinned);
  }

  /**
   * Read holds that are not given up pin the slot: no writer gets in and
   * the slot does not change, whatever the other parties do.
   */
  lemma {:induction false} PinnedReadersKeepObject(s: LockState, t: seq<Op>, pinned: nat)
    requires Valid(s) && pinned >= 1 && s.readers >= pinned
    requires Run(s, t, pinned).Some?
    ensures Run(s, t, pinned).value.obj == s.obj
    ensures Run(s, t, pinned).value.readers >= pinned
    ensures !Run(s, t, pinned).value.writer
    decreases |t|
  {
    if t != [] {
      PinnedReadersKeepObject(Apply(s, t[0], pinned), t[1..], pinned);
    }
  }

  /**
   * A holder whose retain returned a non-null pointer keeps the slot at
   * that pointer for as long as it does not release, and death cannot
   * proceed meanwhile.
   */
  lemma HolderKeepsObjectAlive(s: LockState, t: seq<Op>)
    requires Valid(s) && Retain(s).0 != Null
    requires Run(Retain(s).1, t, 1).Some?
    ensures Run(Retain(s).1, t, 1).value.obj == Retain(s).0
    ensures !CanWrLock(Run(Retain(s).1, t, 1).value)
  {
    PinnedReadersKeepObject(Retain(s).1, t, 1);
  }

  /** Read holds are accounted for: granted read locks minus releases. */
  lemma {:induction false} ReadersBalance(s: LockState, t: seq<Op>, pinned: nat)
    requires Valid(s) && Run(s, t, pinned).Some?
    ensures Run(s, t, pinned).value.readers + ReadTally(s, t, pinned).1
         == s.readers + ReadTally(s, t, pinned).0
    decreases |t|
  {
    if t != [] {
      ReadersBalance(Apply(s, t[0], pinned), t[1..], pinned);
    }
  }

  // ---------------------------------------------------------------------
  // A holder's lifetime: retain on construction, release on destruction
  // when the pointer it got is non-null

  /** The lock state after a holder is built and then destroyed. */
  function HolderLifetime(s: LockState): LockState
  {
    var (p, t) := Retain(s);
    if p != Null then Release(t) else t
  }

  /**
   * A holder's lifetime restores the lock state exactly when the lifeline
   * is alive or being killed; a holder built after death leaves one read
   * hold behind.
   */
  lemma HolderLifetimeBalanced(s: LockState)
    requires Valid(s)
    ensures HolderLifetime(s) == s <==> s.writer || s.obj != Null
  {
  }

  /**
   * The rule "if retain returns null, release need not be called" holds
   * when retain failed on the write lock, but not after death: there the
   * read lock was granted and nobody gives it up.
   */
  lemma RetainAfterDeathLeaksReader(s: LockState)
    requires !s.writer && s.obj == Null
    ensures Retain(s).0 == Null
    ensures Retain(s).1.readers == s.readers + 1
    ensures HolderLifetime(s).readers == s.readers + 1
  {
  }

  /** The leaked read hold blocks any later write lock, for good. */
  lemma {:induction false} LeakedReaderBlocksWriters(t: seq<Op>)
    requires Run(HolderLifetime(Init(Null)), t, 1).Some?
    ensures Run(HolderLifetime(Init(Null)), t, 1).value.obj == Null
    ensures !CanWrLock(Run(HolderLifetime(Init(Null)), t, 1).value)
  {
    PinnedReadersKeepObject(HolderLifetime(Init(Null)), t, 1);
  }

  // ---------------------------------------------------------------------
  // Corrected retain

  /**
   * Retain that keeps its own promise: when the slot turns out to be null
   * under the read lock, it gives that read lock up before returning null.
   */
  function RetainChecked(s: LockState): (r: (Ptr, LockState))
    ensures r.0 == Null ==> r.1 == s
    ensures r.0 != Null ==> r == Retain(s)
  {
    var (ok, t) := TryRdLock(s);
    if !ok then (Null, t)
    else if t.obj == Null then (Null, Unlock(t))
    else (t.obj, t)
  }

  /** The state after a holder built on the corrected retain. */
  function CheckedHolderLifetime(s: LockState): LockState
  {
    var (p, t) := RetainChecked(s);
    if p != Null then Release(t) else t
  }

  /** With the corrected retain, a holder's lifetime always restores the lock state. */
  lemma RetainCheckedKeepsPromise(s: LockState)
    requires Valid(s)
    ensures CheckedHolderLifetime(s) == s
  {
  }
}
