/**
 The lock server's two roles for one lock: serving it alone (primary), and holding
 the requests that found no room in the switch (secondary).
 */
module LockServer {
  import opened NetLockTypes
  import RwLock
  import LinkedQueue

  class Primary {
    const lockQueue: LinkedQueue.Queue<Entry>
    var numEx: nat
    var numSh: nat
    // The requests as the policy sees them.
    ghost var q: RwLock.Queue

    ghost predicate Valid()
      reads this, lockQueue, lockQueue.spine
    {
      && lockQueue.Valid()
      && q.Ok() && lockQueue.contents == q.Waiting()
      && numEx == RwLock.CountFrom(q.log, q.popped, Exclusive)
      && numSh == RwLock.CountFrom(q.log, q.popped, Shared)
    }

    constructor ()
      ensures Valid() && q == RwLock.Queue([], 0)
      ensures fresh(lockQueue) && lockQueue.spine == []
    {
      lockQueue := new LinkedQueue.Queue<Entry>();
      numEx, numSh := 0, 0;
      q := RwLock.Queue([], 0);
    }

    // ACQUIRE_LOCK with the primary tag.
    method Acquire(e: Entry) returns (grants: seq<Entry>)
      requires Valid()
      modifies this, lockQueue, lockQueue.spine
      ensures Valid()
      ensures q == RwLock.Next(old(q), RwLock.Acquire(e))
      ensures grants == RwLock.Grants(old(q), RwLock.Acquire(e))
      ensures forall n | n in lockQueue.spine && n !in old(lockQueue.spine) :: fresh(n)
    {
      RwLock.AcquireGrants(q, e);
      RwLock.AdmitsWhen(q, e);
      RwLock.NoExclusiveCounted(q.log, q.popped);
      RwLock.CountAppendEntry(q.log, q.popped, e, Exclusive);
      RwLock.CountAppendEntry(q.log, q.popped, e, Shared);
      lockQueue.Enqueue(e);
      grants := [];
      if e.mode.Shared? {
        if numEx == 0 {
          grants := [e];
        }
        numSh := numSh + 1;
      } else {
        if numEx == 0 && numSh == 0 {
          grants := [e];
        }
        numEx := numEx + 1;
      }
      q := RwLock.Next(q, RwLock.Acquire(e));
    }

    // RELEASE_LOCK with the primary tag: the count that goes down is that of the dequeued
    // request, the packet's mode is not looked at.
    method Release(mode: Mode) returns (grants: seq<Entry>)
      requires Valid() && RwLock.Legal(q, RwLock.Release(mode))
      modifies this, lockQueue
      ensures Valid()
      ensures q == RwLock.Next(old(q), RwLock.Release(mode))
      ensures grants == RwLock.Grants(old(q), RwLock.Release(mode))
      ensures forall n | n in lockQueue.spine :: n in old(lockQueue.spine)
    {
      RwLock.ReleaseGrants(q, mode);
      var node := lockQueue.Dequeue();
      q := RwLock.Next(q, RwLock.Release(mode));
      var ptr := lockQueue.head;
      grants := [];
      if node.mode.Shared? {
        numSh := numSh - 1;
        if ptr != null && ptr.value.mode.Exclusive? {
          grants := [ptr.value];
        }
      } else {
        numEx := numEx - 1;
        if ptr != null && ptr.value.mode.Exclusive? {
          grants := [ptr.value];
        } else {
          grants := WakeShared();
        }
      }
    }

    // The loop that notifies the shared requests at the front.
    method WakeShared() returns (grants: seq<Entry>)
      requires Valid()
      ensures grants == q.log[q.popped..RwLock.FirstExclusive(q.log, q.popped)]
    {
      var ptr := lockQueue.head;
      grants := [];
      while ptr != null && ptr.value.mode.Shared?
        invariant lockQueue.At(ptr, |grants|)
        invariant grants == q.Waiting()[..|grants|]
        invariant forall i | 0 <= i < |grants| :: grants[i].mode.Shared?
        decreases |lockQueue.spine| - |grants|
      {
        lockQueue.NextIsAt(ptr, |grants|);
        grants := grants + [ptr.value];
        ptr := ptr.next;
      }
      var end := q.popped + |grants|;
      assert forall p | q.popped <= p < end :: q.log[p] == grants[p - q.popped];
      RwLock.FirstExclusiveIs(q.log, q.popped, end);
    }
  }

  class Secondary {
    const lockQueue: LinkedQueue.Queue<Entry>

    ghost predicate Valid()
      reads this, lockQueue, lockQueue.spine
    {
      lockQueue.Valid()
    }

    constructor ()
      ensures Valid() && lockQueue.contents == []
      ensures fresh(lockQueue) && lockQueue.spine == []
    {
      lockQueue := new LinkedQueue.Queue<Entry>();
    }

    // ACQUIRE_LOCK with the secondary tag: the request is only kept.
    method Buffer(e: Entry)
      requires Valid()
      modifies lockQueue, lockQueue.spine
      ensures Valid() && lockQueue.contents == old(lockQueue.contents) + [e]
    {
      lockQueue.Enqueue(e);
    }

    // RELEASE_LOCK with the secondary tag: as many requests as the switch's ring has slots
    // go back to the switch, oldest first.
    method Refill(lenInSwitch: nat) returns (pushed: seq<Entry>)
      requires Valid()
      modifies lockQueue
      ensures Valid()
      ensures pushed + lockQueue.contents == old(lockQueue.contents)
      ensures |pushed| == if |old(lockQueue.contents)| < lenInSwitch then |old(lockQueue.contents)| else lenInSwitch
    {
      var lenInServer := lockQueue.sizeOfQueue;
      pushed := [];
      var bound := if lenInServer < lenInSwitch then lenInServer else lenInSwitch;
      for i := 0 to bound
        invariant Valid() && |pushed| == i
        invariant pushed == old(lockQueue.contents)[..i]
        invariant lockQueue.contents == old(lockQueue.contents)[i..]
      {
        var e := lockQueue.Dequeue();
        pushed := pushed + [e];
      }
    }
  }
}
