/** The reader-preferring read-write lock (loop/state.py:77-112): a mutex, a condition
    variable and two fields.  Every operation is one critical section of the mutex;
    a waiting thread re-enters it from the top of its loop when it is woken. */
module RwLock {

  datatype Lock = Lock(readers: nat, writer: bool)

  predicate MayRead(k: Lock) { !k.writer }

  predicate MayWrite(k: Lock) { !k.writer && k.readers == 0 }

  function EnterRead(k: Lock): Lock { k.(readers := k.readers + 1) }

  function LeaveRead(k: Lock): Lock
    requires k.readers > 0
  {
    k.(readers := k.readers - 1)
  }

  function EnterWrite(k: Lock): Lock { k.(writer := true) }

  function LeaveWrite(k: Lock): Lock { k.(writer := false) }

  /** What a thread waits for inside the condition variable. */
  datatype Waiting = ForRead | ForWrite

  predicate Blocked(k: Lock, w: Waiting) {
    match w
    case ForRead => !MayRead(k)
    case ForWrite => !MayWrite(k)
  }

  /** The lock object with the threads parked in its condition variable. */
  class RWLock {
    var readers: nat
    var writer: bool
    var parked: map<nat, Waiting>

    ghost function State(): Lock
      reads this
    {
      Lock(readers, writer)
    }

    /** The lock is held by readers or by one writer, and a parked thread has a reason:
        its wake-up is not lost. */
    ghost predicate Valid()
      reads this
    {
      && (writer ==> readers == 0)
      && forall t | t in parked :: Blocked(State(), parked[t])
    }

    constructor ()
      ensures Valid() && State() == Lock(0, false) && parked == map[]
    {
      readers, writer, parked := 0, false, map[];
    }

    /** One pass through acquire_read: the thread enters, or parks. */
    method AcquireRead(t: nat) returns (entered: bool)
      requires Valid() && t !in parked
      modifies this
      ensures Valid()
      ensures entered <==> MayRead(old(State()))
      ensures entered ==> State() == EnterRead(old(State())) && parked == old(parked)
      ensures !entered ==> State() == old(State()) && parked == old(parked)[t := ForRead]
    {
      if writer {
        parked := parked[t := ForRead];
        return false;
      }
      readers := readers + 1;
      return true;
    }

    /** One pass through acquire_write. */
    method AcquireWrite(t: nat) returns (entered: bool)
      requires Valid() && t !in parked
      modifies this
      ensures Valid()
      ensures entered <==> MayWrite(old(State()))
      ensures entered ==> State() == EnterWrite(old(State())) && parked == old(parked)
      ensures !entered ==> State() == old(State()) && parked == old(parked)[t := ForWrite]
    {
      if writer || readers > 0 {
        parked := parked[t := ForWrite];
        return false;
      }
      writer := true;
      return true;
    }

    /** The last reader wakes everyone. */
    method ReleaseRead() returns (woken: map<nat, Waiting>)
      requires Valid() && readers > 0
      modifies this
      ensures Valid() && State() == LeaveRead(old(State()))
      ensures readers == 0 ==> woken == old(parked) && parked == map[]
      ensures readers > 0 ==> woken == map[] && parked == old(parked)
    {
      readers, woken := readers - 1, map[];
      if readers == 0 {
        woken, parked := parked, map[];
      }
    }

    /** A leaving writer wakes everyone. */
    method ReleaseWrite() returns (woken: map<nat, Waiting>)
      requires Valid() && writer
      modifies this
      ensures Valid() && State() == LeaveWrite(old(State()))
      ensures woken == old(parked) && parked == map[]
    {
      writer, woken, parked := false, parked, map[];
    }
  }
}
