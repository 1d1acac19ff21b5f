/** Where a position of the log is stored. */
module SlotArithmetic {
  import opened NetLockTypes
  import opened RwLock
  import opened LockRing

  // The slot of position p in a ring of cap slots that starts at left.
  function Slot(left: nat, cap: nat, p: nat): (n: nat)
    requires 1 <= cap
  {
    left + p % cap
  }

  // Stepping to the next slot wraps at the right bound, as the head and tail ALUs do.
  lemma NextSlot(left: nat, cap: nat, p: nat)
    requires 1 <= cap
    ensures Slot(left, cap, p) <= left + cap - 1
    ensures Slot(left, cap, p + 1)
         == if Slot(left, cap, p) == left + cap - 1 then left else Slot(left, cap, p) + 1
  {
    var d, r := p / cap, p % cap;
    assert p == cap * d + r;
    if r == cap - 1 {
      RemainderIs(p + 1, cap, d + 1, 0);
    } else {
      RemainderIs(p + 1, cap, d, r + 1);
    }
  }

  lemma RemainderIs(x: nat, cap: nat, d: nat, r: nat)
    requires r < cap && x == cap * d + r
    ensures x % cap == r
  {
    var d', r' := x / cap, x % cap;
    assert x == cap * d' + r';
    MulMonotone(cap, d, d');
    MulMonotone(cap, d', d);
  }

  lemma MulMonotone(cap: nat, a: nat, b: nat)
    ensures a < b ==> cap * a + cap <= cap * b
  {
    if a < b {
      assert cap * b == cap * a + cap * (b - a);
      assert cap * (b - a) == cap + cap * (b - a - 1);
    }
  }

  // Two positions less than a ring apart share a slot only if they are the same.
  lemma SlotsDiffer(left: nat, cap: nat, p: nat, p': nat)
    requires 1 <= cap && p < p' < p + cap
    ensures Slot(left, cap, p) != Slot(left, cap, p')
  {
    var d, r := p / cap, p % cap;
    var k := r + (p' - p);
    assert p == cap * d + r;
    if k < cap {
      RemainderIs(p', cap, d, k);
    } else {
      RemainderIs(p', cap, d + 1, k - cap);
    }
  }

  lemma SlotPlusRing(left: nat, cap: nat, p: nat)
    requires 1 <= cap
    ensures Slot(left, cap, p + cap) == Slot(left, cap, p)
  {
    RemainderIs(p + cap, cap, p / cap + 1, p % cap);
  }

  lemma {:induction false} LatestSharesSlot(left: nat, size: nat, cap: nat, h: nat)
    requires h < size && 1 <= cap
    ensures Slot(left, cap, LatestAt(size, cap, h)) == Slot(left, cap, h)
    decreases size - h
  {
    if h + cap < size {
      LatestSharesSlot(left, size, cap, h + cap);
      SlotPlusRing(left, cap, h);
    }
  }
}
