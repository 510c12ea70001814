/**
 * `lifeline`: the heap object shared by all handles of one object. It holds
 * the object's address and the reader/writer lock; the lock is kept as its
 * state (reader count, writer flag) and each pthread call is one method.
 */
module Lifelines {
  import opened LifelineSpec

  /** `pthread_rwlock_tryrdlock`'s result when a writer holds the lock. */
  const EBUSY: int := 16

  /** The outcome of a constructor that throws `std::runtime_error`. */
  datatype Creation<T> = Created(value: T) | RuntimeError(what: string)

  class Lifeline {
    /** The slot, `lifeline::object`. */
    var obj: Ptr
    /** The number of read holds on the lock. */
    var readers: nat
    /** Whether the write hold on the lock is taken. */
    var writer: bool

    function State(): LockState
      reads this
    {
      LockState(obj, readers, writer)
    }

    ghost predicate Valid()
      reads this
    {
      LifelineSpec.Valid(State())
    }

    /** The lifeline built when the lock initialised. */
    constructor (o: Ptr)
      ensures State() == Init(o)
      ensures Valid()
    {
      obj, readers, writer := o, 0, false;
    }

    /**
     * `lifeline::lifeline`: `initStatus` is what `pthread_rwlock_init`
     * returned; any nonzero status throws and yields no lifeline.
     */
    static method Create(o: Ptr, initStatus: int) returns (r: Creation<Lifeline>)
      ensures r.RuntimeError? <==> initStatus != 0
      ensures r.RuntimeError? ==> r.what == "Cannot create read-write lock!"
      ensures r.Created? ==> fresh(r.value) && r.value.State() == Init(o)
    {
      if initStatus != 0 {
        return RuntimeError("Cannot create read-write lock!");
      }
      var life := new Lifeline(o);
      return Created(life);
    }

    /** `pthread_rwlock_tryrdlock`: 0 and one more reader, or EBUSY and no change. */
    method TryRdLock() returns (status: int)
      requires Valid()
      modifies this
      ensures Valid()
      ensures status == 0 <==> !old(writer)
      ensures status != 0 ==> status == EBUSY
      ensures (status == 0, State()) == LifelineSpec.TryRdLock(old(State()))
    {
      if writer {
        status := EBUSY;
      } else {
        readers := readers + 1;
        status := 0;
      }
    }

    /** `pthread_rwlock_wrlock`, called when it does not block. */
    method WrLock()
      requires CanWrLock(State())
      modifies this
      ensures Valid()
      ensures State() == LifelineSpec.WrLock(old(State()))
    {
      writer := true;
    }

    /** `pthread_rwlock_unlock`. */
    method Unlock()
      requires Valid() && CanUnlock(State())
      modifies this
      ensures Valid()
      ensures State() == LifelineSpec.Unlock(old(State()))
    {
      if writer {
        writer := false;
      } else {
        readers := readers - 1;
      }
    }

    /** The store `object = nullptr` under the write lock. */
    method ClearObject()
      requires Valid() && writer
      modifies this
      ensures Valid()
      ensures State() == LifelineSpec.ClearObject(old(State()))
    {
      obj := Null;
    }

    /**
     * `lifeline::waitForDeath`: nobody may hold the lock when the write lock
     * is requested; afterwards the slot is null and the lock is free.
     */
    method WaitForDeath()
      requires CanWrLock(State())
      modifies this
      ensures Valid()
      ensures State() == LifelineSpec.WaitForDeath(old(State()))
      ensures obj == Null && readers == 0 && !writer
    {
      WrLock();
      ClearObject();
      Unlock();
    }

    /**
     * `lifeline::retain`: null and no change while a writer holds the lock;
     * otherwise one more reader and the slot's current value.
     */
    method Retain() returns (p: Ptr)
      requires Valid()
      modifies this
      ensures Valid()
      ensures (p, State()) == LifelineSpec.Retain(old(State()))
      ensures old(writer) ==> p == Null && State() == old(State())
      ensures !old(writer) ==> p == obj == old(obj) && readers == old(readers) + 1
    {
      var status := TryRdLock();
      if status != 0 {
        p := Null;
      } else {
        p := obj;
      }
    }

    /** `lifeline::release`: one read hold is given up; the slot is untouched. */
    method Release()
      requires Valid() && readers > 0
      modifies this
      ensures Valid()
      ensures State() == LifelineSpec.Release(old(State()))
      ensures obj == old(obj) && readers == old(readers) - 1 && !writer
    {
      Unlock();
    }

    /**
     * Corrected retain: a read hold taken on a dead lifeline is given up
     * again, so that a null result never needs a release.
     */
    method RetainChecked() returns (p: Ptr)
      requires Valid()
      modifies this
      ensures Valid()
      ensures (p, State()) == LifelineSpec.RetainChecked(old(State()))
      ensures p == Null ==> State() == old(State())
    {
      var status := TryRdLock();
      if status != 0 {
        p := Null;
      } else if obj == Null {
        Unlock();
        p := Null;
      } else {
        p := obj;
      }
    }
  }
}
