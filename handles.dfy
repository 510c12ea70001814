/**
 * The three handles on a lifeline.
 *
 * - `LivingPtr` (`living_ptr`) is embedded in the object itself; it creates
 *   the lifeline and kills it when destroyed.
 * - `LivenessPtr` (`liveness_ptr`) is what other objects keep; it only
 *   references the lifeline.
 * - `HolderPtr` (`holder_ptr`) is a scoped guard: it retains on
 *   construction and releases on destruction.
 *
 * A C++ destructor becomes a method `Destroy`, a move constructor a
 * constructor `Move`, and `operator=` with its by-value parameter a method
 * `Assign` whose argument the caller destroys afterwards. The `shared_ptr`
 * to the lifeline is a (nullable) reference to a `Lifelines.Lifeline`.
 */
module Handles {
  import opened LifelineSpec
  import opened Lifelines

  /** `living_ptr`: the owner's handle. */
  class LivingPtr {
    var life: Lifeline?

    /** `living_ptr()`: holds no lifeline. */
    constructor Empty()
      ensures life == null
    {
      life := null;
    }

    /**
     * `living_ptr(this)`: a fresh lifeline whose slot is `thiz`. The
     * lifeline's constructor throws when the lock does not initialise
     * (`initStatus != 0`), and then no handle is made.
     */
    static method Own(thiz: Ptr, initStatus: int) returns (r: Creation<LivingPtr>)
      ensures r.RuntimeError? <==> initStatus != 0
      ensures r.RuntimeError? ==> r.what == "Cannot create read-write lock!"
      ensures r.Created? ==> fresh(r.value) && r.value.life != null && fresh(r.value.life)
      ensures r.Created? ==> r.value.life.State() == Init(thiz)
    {
      var made := Lifeline.Create(thiz, initStatus);
      if made.RuntimeError? {
        return RuntimeError(made.what);
      }
      var owner := new LivingPtr.Empty();
      owner.life := made.value;
      return Created(owner);
    }

    /**
     * `~living_ptr`: kills the lifeline if there is one. The blocking write
     * lock is the precondition that nobody holds the lock.
     */
    method Destroy()
      requires life != null ==> CanWrLock(life.State())
      modifies life
      ensures life != null ==> life.State() == WaitForDeath(old(life.State()))
      ensures life != null ==> life.obj == Null && CanWrLock(life.State())
    {
      if life != null {
        life.WaitForDeath();
      }
    }

    /** `living_ptr(living_ptr&&)`: takes `b`'s lifeline and leaves `b` empty. */
    constructor Move(b: LivingPtr)
      modifies b
      ensures life == old(b.life) && b.life == null
    {
      life := null;
      new;
      life, b.life := b.life, life;
    }

    /**
     * `operator=(living_ptr b)`: swaps the lifelines; the one this handle
     * held is now `b`'s, to be killed when `b` is destroyed.
     */
    method Assign(b: LivingPtr)
      requires b != this
      modifies this, b
      ensures life == old(b.life) && b.life == old(life)
    {
      life, b.life := b.life, life;
    }

    /**
     * `x = std::move(y)`: the by-value parameter is move-constructed from
     * `y`, swapped with this handle and destroyed. This handle ends with
     * `y`'s lifeline, `y` ends empty, and the previously held lifeline is
     * killed exactly once. A self-move keeps the lifeline and leaves it alone.
     */
    method MoveAssign(y: LivingPtr)
      requires y != this && life != null ==> life != y.life && CanWrLock(life.State())
      modifies this, y, life
      ensures y != this ==> life == old(y.life) && y.life == null
      ensures y != this && old(life) != null ==> old(life).State() == WaitForDeath(old(life.State()))
      ensures y != this && old(y.life) != null ==> old(y.life).State() == old(y.life.State())
      ensures y == this ==> life == old(life) && (life != null ==> life.State() == old(life.State()))
    {
      var param := new LivingPtr.Move(y);
      Assign(param);
      param.Destroy();
    }
  }

  /** `liveness_ptr`: a shareable reference to a lifeline. */
  class LivenessPtr {
    var life: Lifeline?

    /** `liveness_ptr(const living_ptr&)`: the same lifeline, lock untouched. */
    constructor FromLiving(l: LivingPtr)
      ensures life == l.life
      ensures l.life != null ==> l.life.State() == old(l.life.State())
    {
      life := l.life;
    }

    /** `liveness_ptr(const liveness_ptr&)`: the same lifeline, lock untouched. */
    constructor FromLiveness(lp: LivenessPtr)
      ensures life == lp.life
      ensures lp.life != null ==> lp.life.State() == old(lp.life.State())
    {
      life := lp.life;
    }
  }

  /** `holder_ptr`: a scoped access guard. */
  class HolderPtr {
    var life: Lifeline?
    /** The pointer fetched by `retain` at construction. */
    var ptr: Ptr

    /**
     * `holder_ptr(const liveness_ptr&)`: no lifeline gives a null pointer and
     * no retain; otherwise the pointer is what `retain` returned. A non-null
     * pointer is the slot's value under a read hold, so death cannot proceed.
     */
    constructor (lp: LivenessPtr)
      requires lp.life != null ==> lp.life.Valid()
      modifies lp.life
      ensures lp.life != null ==> lp.life.Valid()
      ensures life == lp.life
      ensures life == null ==> ptr == Null
      ensures lp.life != null ==> (ptr, lp.life.State()) == Retain(old(lp.life.State()))
      ensures ptr != Null ==> life != null && life.obj == ptr && life.readers > 0
      ensures ptr != Null ==> !CanWrLock(life.State())
    {
      life := lp.life;
      ptr := Null;
      new;
      if life != null {
        ptr := life.Retain();
      }
    }

    /**
     * The same guard built on the corrected retain, which never leaves a
     * read hold behind when it returns null.
     */
    constructor Checked(lp: LivenessPtr)
      requires lp.life != null ==> lp.life.Valid()
      modifies lp.life
      ensures lp.life != null ==> lp.life.Valid()
      ensures life == lp.life
      ensures life == null ==> ptr == Null
      ensures lp.life != null ==> (ptr, lp.life.State()) == RetainChecked(old(lp.life.State()))
      ensures lp.life != null && ptr == Null ==> lp.life.State() == old(lp.life.State())
    {
      life := lp.life;
      ptr := Null;
      new;
      if life != null {
        ptr := life.RetainChecked();
      }
    }

    /** `~holder_ptr`: releases exactly when there is a lifeline and a non-null pointer. */
    method Destroy()
      requires life != null && ptr != Null ==> life.Valid() && life.readers > 0
      modifies life
      ensures life != null && ptr != Null ==> life.State() == Release(old(life.State()))
      ensures life != null && ptr == Null ==> life.State() == old(life.State())
    {
      if life != null {
        if ptr != Null {
          life.Release();
        }
      }
    }

    /** `operator objectType*`: the pointer cached at construction, not the slot read anew. */
    function Get(): (p: Ptr)
      reads this
      ensures p == ptr
    {
      ptr
    }

    /**
     * `holder_ptr(holder_ptr&&)` as written: only `life` is swapped, so the
     * new guard's pointer is the indeterminate value of an uninitialised
     * field (`indeterminate`), and `hp` keeps its pointer with no lifeline.
     */
    constructor Move(hp: HolderPtr, indeterminate: Ptr)
      modifies hp
      ensures life == old(hp.life) && ptr == indeterminate
      ensures hp.life == null && hp.ptr == old(hp.ptr)
    {
      life := null;
      ptr := indeterminate;
      new;
      life, hp.life := hp.life, life;
    }

    /** `operator=(holder_ptr hp)` as written: only `life` is swapped. */
    method Assign(hp: HolderPtr)
      requires hp != this
      modifies this, hp
      ensures life == old(hp.life) && hp.life == old(life)
      ensures ptr == old(ptr) && hp.ptr == old(hp.ptr)
    {
      life, hp.life := hp.life, life;
    }

    /** Corrected move: the pointer travels with the lifeline. */
    constructor MoveFixed(hp: HolderPtr)
      modifies hp
      ensures life == old(hp.life) && ptr == old(hp.ptr)
      ensures hp.life == null && hp.ptr == Null
    {
      life := null;
      ptr := Null;
      new;
      life, hp.life := hp.life, life;
      ptr, hp.ptr := hp.ptr, ptr;
    }

    /** Corrected assignment: lifeline and pointer are swapped together. */
    method AssignFixed(hp: HolderPtr)
      requires hp != this
      modifies this, hp
      ensures life == old(hp.life) && hp.life == old(life)
      ensures ptr == old(hp.ptr) && hp.ptr == old(ptr)
    {
      life, hp.life := hp.life, life;
      ptr, hp.ptr := hp.ptr, ptr;
    }
  }

  // -----------------------------------------------------------------------
  // Whole lifetimes of the handles, on freshly made objects

  /**
   * An owner is made and killed; a guard is then built from a liveness
   * pointer derived before the death and destroyed. The guard sees null,
   * yet the read hold its retain took is never given up.
   */
  method GuardAfterDeath() returns (seen: Ptr, readersLeft: nat)
    ensures seen == Null && readersLeft == 1
  {
    var made := LivingPtr.Own(Obj(1), 0);
    var owner := made.value;
    var shared := new LivenessPtr.FromLiving(owner);
    owner.Destroy();
    var guard := new HolderPtr(shared);
    seen := guard.Get();
    guard.Destroy();
    readersLeft := shared.life.readers;
  }

  /** The same lifetime with the corrected retain leaves the lock free. */
  method CheckedGuardAfterDeath() returns (seen: Ptr, readersLeft: nat)
    ensures seen == Null && readersLeft == 0
  {
    var made := LivingPtr.Own(Obj(1), 0);
    var owner := made.value;
    var shared := new LivenessPtr.FromLiving(owner);
    owner.Destroy();
    var guard := new HolderPtr.Checked(shared);
    seen := guard.Get();
    guard.Destroy();
    readersLeft := shared.life.readers;
  }

  /**
   * A live guard is moved into a new one and both are destroyed. The new
   * guard reports the indeterminate pointer instead of the object; when
   * that value happens to be null, the read hold is leaked.
   */
  method MovedGuard(indeterminate: Ptr) returns (seen: Ptr, readersLeft: nat)
    ensures seen == indeterminate
    ensures readersLeft == if indeterminate == Null then 1 else 0
  {
    var made := LivingPtr.Own(Obj(1), 0);
    var owner := made.value;
    var shared := new LivenessPtr.FromLiving(owner);
    var guard := new HolderPtr(shared);
    var moved := new HolderPtr.Move(guard, indeterminate);
    seen := moved.Get();
    guard.Destroy();
    moved.Destroy();
    readersLeft := shared.life.readers;
  }

  /** With the corrected move the new guard reports the object and the lock is freed. */
  method MovedGuardFixed() returns (seen: Ptr, readersLeft: nat)
    ensures seen == Obj(1) && readersLeft == 0
  {
    var made := LivingPtr.Own(Obj(1), 0);
    var owner := made.value;
    var shared := new LivenessPtr.FromLiving(owner);
    var guard := new HolderPtr(shared);
    var moved := new HolderPtr.MoveFixed(guard);
    seen := moved.Get();
    guard.Destroy();
    moved.Destroy();
    readersLeft := shared.life.readers;
  }

  /**
   * `a = std::move(b)` on two live guards of two objects, as written, then
   * the by-value parameter, `a` and `b` are destroyed. `a` ends up holding
   * `b`'s lifeline but still reports `a`'s old object; the parameter's
   * indeterminate pointer decides whether `a`'s old lifeline is released.
   */
  method AssignedGuard(indeterminate: Ptr) returns (seen: Ptr, heldSlot: Ptr, readersA: nat, readersB: nat)
    ensures seen == Obj(1) && heldSlot == Obj(2)
    ensures readersA == if indeterminate == Null then 1 else 0
    ensures readersB == 0
  {
    var madeA := LivingPtr.Own(Obj(1), 0);
    var madeB := LivingPtr.Own(Obj(2), 0);
    var sharedA := new LivenessPtr.FromLiving(madeA.value);
    var sharedB := new LivenessPtr.FromLiving(madeB.value);
    var a := new HolderPtr(sharedA);
    var b := new HolderPtr(sharedB);
    var param := new HolderPtr.Move(b, indeterminate);
    a.Assign(param);
    seen := a.Get();
    heldSlot := a.life.obj;
    param.Destroy();
    a.Destroy();
    b.Destroy();
    readersA, readersB := sharedA.life.readers, sharedB.life.readers;
  }

  /**
   * `a = std::move(b)` as written, where `a` was built from an empty
   * liveness pointer and `b` holds object 2; then all three holders are
   * destroyed. `a` ends with `b`'s lifeline but a null pointer, so no
   * destructor releases `b`'s read hold and its owner can never die,
   * whatever the parameter's indeterminate pointer is.
   */
  method AssignIntoEmptyHolder(indeterminate: Ptr) returns (readersB: nat, ownerCanDie: bool)
    ensures readersB == 1 && !ownerCanDie
  {
    var none := new LivingPtr.Empty();
    var madeB := LivingPtr.Own(Obj(2), 0);
    var sharedNone := new LivenessPtr.FromLiving(none);
    var sharedB := new LivenessPtr.FromLiving(madeB.value);
    var a := new HolderPtr(sharedNone);
    var b := new HolderPtr(sharedB);
    var param := new HolderPtr.Move(b, indeterminate);
    a.Assign(param);
    param.Destroy();
    a.Destroy();
    b.Destroy();
    readersB := sharedB.life.readers;
    ownerCanDie := CanWrLock(sharedB.life.State());
  }

  /** With the corrected assignment `a` reports the object whose lifeline it holds, and both locks are freed. */
  method AssignedGuardFixed() returns (seen: Ptr, heldSlot: Ptr, readersA: nat, readersB: nat)
    ensures seen == Obj(2) && heldSlot == Obj(2)
    ensures readersA == 0 && readersB == 0
  {
    var madeA := LivingPtr.Own(Obj(1), 0);
    var madeB := LivingPtr.Own(Obj(2), 0);
    var sharedA := new LivenessPtr.FromLiving(madeA.value);
    var sharedB := new LivenessPtr.FromLiving(madeB.value);
    var a := new HolderPtr(sharedA);
    var b := new HolderPtr(sharedB);
    var param := new HolderPtr.MoveFixed(b);
    a.AssignFixed(param);
    seen := a.Get();
    heldSlot := a.life.obj;
    param.Destroy();
    a.Destroy();
    b.Destroy();
    readersA, readersB := sharedA.life.readers, sharedB.life.readers;
  }
}
