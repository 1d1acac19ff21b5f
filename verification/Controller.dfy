/** The controller: carving the shared slot array into rings, and resetting them after a failure. */
module Controller {
  import opened NetLockTypes
  import opened RwLock
  import opened LockRing
  import opened SlotArithmetic
  import opened SwitchRegisters

  // The slots given to the first n locks.
  function Total(sizes: seq<nat>, n: nat): nat
    requires n <= |sizes|
  {
    if n == 0 then 0 else Total(sizes, n - 1) + sizes[n - 1]
  }

  lemma {:induction false} TotalGrows(sizes: seq<nat>, m: nat, n: nat)
    requires m <= n <= |sizes|
    ensures Total(sizes, m) <= Total(sizes, n)
    decreases n
  {
    if m < n {
      TotalGrows(sizes, m, n - 1);
    }
  }

  function EmptyRing(cap: nat): Ring {
    Ring(Queue([], 0), cap, 0)
  }

  function EmptyRings(sizes: seq<nat>): seq<Ring> {
    [EmptyRing(0)] + seq(|sizes|, i requires 0 <= i < |sizes| => EmptyRing(sizes[i]))
  }

  // Regions are pairwise disjoint, lie in [1, total], and are as large as the empty count.
  lemma RegionsAreIsolated(sizes: seq<nat>, l: nat, m: nat, i: nat)
    requires 1 <= l <= |sizes| && 1 <= m <= |sizes|
    requires Total(sizes, l - 1) + 1 <= i <= Total(sizes, l)
    requires Total(sizes, m - 1) + 1 <= i <= Total(sizes, m)
    ensures l == m && 1 <= i <= Total(sizes, |sizes|)
  {
    TotalGrows(sizes, l, |sizes|);
    if l < m {
      TotalGrows(sizes, l, m - 1);
    } else if m < l {
      TotalGrows(sizes, m, l - 1);
    }
  }

  ghost predicate Fits(sw: Switch, sizes: seq<nat>)
    reads sw.entries.Repr()
  {
    && sw.Shape()
    && sw.numLocks == |sizes|
    && (forall i | 0 <= i < |sizes| :: 1 <= sizes[i] < WIDTH)
    && Total(sizes, |sizes|) < |sw.entries.cells|
  }

  // The registers of one lock.
  datatype Registers = Registers(left: nat, right: nat, head: nat, tail: nat, slots: Slots, counts: Counts)

  ghost function RegistersOf(sw: Switch, l: nat): Registers
    requires sw.Shape() && 1 <= l <= sw.numLocks
    reads sw.left, sw.right, sw.head, sw.tail, sw.slots, sw.counts, sw.entries.Repr()
  {
    Registers(sw.left[l], sw.right[l], sw.head[l], sw.tail[l], sw.slots[l], sw.counts[l])
  }

  // Lock l set up with an empty queue: it owns the slots after those of the locks before it.
  function SetUp(sizes: seq<nat>, l: nat): Registers
    requires 1 <= l <= |sizes|
  {
    var left := Total(sizes, l - 1) + 1;
    Registers(left, Total(sizes, l), left, left, Slots(sizes[l - 1], 0), Counts(0, 0))
  }

  lemma SetUpIsValid(sw: Switch, sizes: seq<nat>)
    requires Fits(sw, sizes) && sw.rings == EmptyRings(sizes)
    requires forall l | 1 <= l <= |sizes| :: RegistersOf(sw, l) == SetUp(sizes, l)
    ensures sw.Valid()
  {
    forall l | 1 <= l <= |sizes|
      ensures sw.left[l] <= sw.right[l] < |sw.entries.cells|
    {
      assert RegistersOf(sw, l) == SetUp(sizes, l);
      TotalGrows(sizes, l, |sizes|);
    }
    forall l, m | 1 <= l < m <= |sizes|
      ensures sw.right[l] < sw.left[m]
    {
      assert RegistersOf(sw, l) == SetUp(sizes, l) && RegistersOf(sw, m) == SetUp(sizes, m);
      TotalGrows(sizes, l, m - 1);
    }
    forall l | 1 <= l <= |sizes|
      ensures sw.Holds(l, sw.rings[l])
    {
      assert RegistersOf(sw, l) == SetUp(sizes, l);
    }
  }

  // The writes of init_tables for one lock.
  method WriteAll(sw: Switch, l: nat, left: nat, right: nat, slots: Slots)
    requires sw.Shape() && 1 <= l <= sw.numLocks
    modifies sw.left, sw.right, sw.head, sw.tail, sw.slots, sw.counts
    ensures sw.Shape() && RegistersOf(sw, l) == Registers(left, right, left, left, slots, Counts(0, 0))
    ensures forall m | 1 <= m <= sw.numLocks && m != l :: RegistersOf(sw, m) == old(RegistersOf(sw, m))
  {
    sw.left[l] := left;
    sw.right[l] := right;
    sw.head[l] := left;
    sw.tail[l] := left;
    sw.counts[l] := Counts(0, 0);
    sw.slots[l] := slots;
  }

  // The writes of failure_sim for one lock: its bounds stay.
  method WriteQueue(sw: Switch, l: nat, left: nat, slots: Slots)
    requires sw.Shape() && 1 <= l <= sw.numLocks
    modifies sw.head, sw.tail, sw.slots, sw.counts
    ensures sw.Shape() && RegistersOf(sw, l) == Registers(old(sw.left[l]), old(sw.right[l]), left, left, slots, Counts(0, 0))
    ensures forall m | 1 <= m <= sw.numLocks && m != l :: RegistersOf(sw, m) == old(RegistersOf(sw, m))
  {
    sw.head[l] := left;
    sw.tail[l] := left;
    sw.counts[l] := Counts(0, 0);
    sw.slots[l] := slots;
  }

  function Uniform(qs: nat, n: nat): seq<nat> {
    seq(n, _ => qs)
  }

  lemma {:induction false} UniformTotal(qs: nat, n: nat, k: nat)
    requires k <= n
    ensures Total(Uniform(qs, n), k) == qs * k
  {
    if k > 0 {
      UniformTotal(qs, n, k - 1);
    }
  }

  // What the script keeps for the reset: slots_v_list, left_bound_list and tot_num_lks.
  class Script {
    const sw: Switch
    var slotsValues: seq<Slots>
    var leftBounds: seq<nat>
    var totNumLks: nat
    // The slots given to each lock.
    ghost var sizes: seq<nat>

    constructor (sw: Switch)
      ensures this.sw == sw && slotsValues == [] && leftBounds == [] && totNumLks == 0 && sizes == []
    {
      this.sw := sw;
      slotsValues, leftBounds, totNumLks, sizes := [], [], 0, [];
    }

    // The lists say what the first n locks were given.
    ghost predicate Recorded(n: nat)
      requires n <= |sizes|
      reads this
    {
      && |slotsValues| == |leftBounds| == n
      && forall l | 1 <= l <= n ::
           leftBounds[l - 1] == SetUp(sizes, l).left && slotsValues[l - 1] == SetUp(sizes, l).slots
    }

    // The bounds are set up and recorded. No packet changes a bound, so this outlasts any
    // traffic.
    ghost predicate Ready()
      reads this, sw.left, sw.right, sw.entries.Repr()
    {
      && Fits(sw, sizes) && totNumLks == |sizes| && Recorded(|sizes|)
      && forall l | 1 <= l <= |sizes| :: sw.left[l] == SetUp(sizes, l).left && sw.right[l] == SetUp(sizes, l).right
    }

    // One more lock, on the slots left to right.
    method AddLock(i: nat, left: nat, right: nat, n: nat)
      requires Fits(sw, sizes) && i < |sizes| && Recorded(i)
      requires forall l | 1 <= l <= i :: RegistersOf(sw, l) == SetUp(sizes, l)
      requires SetUp(sizes, i + 1) == Registers(left, right, left, left, Slots(n, 0), Counts(0, 0))
      modifies `slotsValues, `leftBounds, sw.left, sw.right, sw.head, sw.tail, sw.slots, sw.counts
      ensures Fits(sw, sizes) && Recorded(i + 1)
      ensures forall l | 1 <= l <= i + 1 :: RegistersOf(sw, l) == SetUp(sizes, l)
    {
      var slotsV := Slots(n, 0);
      slotsValues := slotsValues + [slotsV];
      leftBounds := leftBounds + [left];
      WriteAll(sw, i + 1, left, right, slotsV);
    }

    // The regions follow one another without a gap from slot 1 on, each as large as its lock's
    // share, and every queue is empty.
    ghost predicate Consecutive()
      requires sw.Shape()
      reads this, sw.left, sw.right, sw.head, sw.tail, sw.slots, sw.counts, sw.entries.Repr()
    {
      && |sizes| == sw.numLocks
      && (sw.numLocks > 0 ==> sw.left[1] == 1)
      && (forall l | 1 <= l < sw.numLocks :: sw.left[l + 1] == sw.right[l] + 1)
      && forall l | 1 <= l <= sw.numLocks ::
           && sw.right[l] + 1 == sw.left[l] + sizes[l - 1]
           && sw.head[l] == sw.tail[l] == sw.left[l]
           && sw.slots[l].empty == sizes[l - 1] && sw.slots[l].inServer == 0
           && sw.counts[l].exclusive == 0 && sw.counts[l].shared == 0
    }

    lemma SetUpIsConsecutive()
      requires Fits(sw, sizes) && forall l | 1 <= l <= |sizes| :: RegistersOf(sw, l) == SetUp(sizes, l)
      ensures Consecutive()
    {
      forall l | 1 <= l <= sw.numLocks
        ensures sw.right[l] + 1 == sw.left[l] + sizes[l - 1] && sw.head[l] == sw.tail[l] == sw.left[l]
        ensures sw.slots[l] == Slots(sizes[l - 1], 0) && sw.counts[l] == Counts(0, 0)
        ensures sw.left[l] == Total(sizes, l - 1) + 1 && sw.right[l] == Total(sizes, l)
      {
        assert RegistersOf(sw, l) == SetUp(sizes, l);
      }
      assert sw.numLocks > 0 ==> sw.left[1] == Total(sizes, 0) + 1;
    }

    // No slot belongs to two locks, and none lies outside the slots the file gives out.
    lemma RegionsApart(l: nat, m: nat, i: nat)
      requires Ready() && 1 <= l <= sw.numLocks && 1 <= m <= sw.numLocks
      requires sw.left[l] <= i <= sw.right[l] && sw.left[m] <= i <= sw.right[m]
      ensures l == m && 1 <= i <= Total(sizes, |sizes|)
    {
      RegionsAreIsolated(sizes, l, m, i);
    }

    // init_tables, from the file that lists how many slots each lock gets: consecutive regions.
    method InitTables(sizes: seq<nat>)
      requires Fits(sw, sizes) && slotsValues == [] && leftBounds == []
      modifies this, sw`rings, sw.left, sw.right, sw.head, sw.tail, sw.slots, sw.counts
      ensures this.sizes == sizes && Ready()
      ensures sw.Valid() && sw.rings == EmptyRings(sizes) && Consecutive()
    {
      this.sizes := sizes;
      var startBound := 0;
      for i := 0 to |sizes|
        invariant this.sizes == sizes && Fits(sw, sizes) && startBound == Total(sizes, i) && Recorded(i)
        invariant forall l | 1 <= l <= i :: RegistersOf(sw, l) == SetUp(sizes, l)
      {
        AddLock(i, startBound + 1, startBound + sizes[i], sizes[i]);
        startBound := startBound + sizes[i];
      }
      Finish();
    }

    // All locks are set up.
    method Finish()
      requires Fits(sw, sizes) && Recorded(|sizes|)
      requires forall l | 1 <= l <= |sizes| :: RegistersOf(sw, l) == SetUp(sizes, l)
      modifies this`totNumLks, sw`rings
      ensures Ready() && sw.Valid() && sw.rings == EmptyRings(sizes) && Consecutive()
    {
      totNumLks := sw.numLocks;
      sw.rings := EmptyRings(sizes);
      SetUpIsValid(sw, sizes);
      SetUpIsConsecutive();
    }

    // init_tables for the microbenchmarks: every lock gets the same share, its region computed
    // from its index instead of from a running bound.
    method InitTablesUniform(slotNum: nat)
      requires sw.numLocks > 0 && Fits(sw, Uniform(slotNum / sw.numLocks, sw.numLocks))
      requires slotsValues == [] && leftBounds == []
      modifies this, sw`rings, sw.left, sw.right, sw.head, sw.tail, sw.slots, sw.counts
      ensures sizes == Uniform(slotNum / sw.numLocks, sw.numLocks) && Ready()
      ensures sw.Valid() && sw.rings == EmptyRings(sizes) && Consecutive()
      ensures |sizes| == sw.numLocks && forall i | 0 <= i < |sizes| :: sizes[i] == slotNum / sw.numLocks
    {
      var qs := slotNum / sw.numLocks;
      sizes := Uniform(qs, sw.numLocks);
      for i := 1 to sw.numLocks + 1
        invariant sizes == Uniform(qs, sw.numLocks) && Fits(sw, sizes) && Recorded(i - 1)
        invariant forall l | 1 <= l < i :: RegistersOf(sw, l) == SetUp(sizes, l)
      {
        UniformTotal(qs, sw.numLocks, i - 1);
        UniformTotal(qs, sw.numLocks, i);
        AddLock(i - 1, qs * (i - 1) + 1, qs * i, qs);
      }
      Finish();
    }

    // failure_sim: whatever the queues, counters and entry arrays contain, every lock is left
    // with the empty queue that init_tables gave it.
    method FailureSim()
      requires Ready()
      modifies sw`rings, sw`failureStatus, sw.head, sw.tail, sw.slots, sw.counts
      ensures Ready() && sw.Valid() && sw.rings == EmptyRings(sizes) && sw.failureStatus == 0 && Consecutive()
    {
      sw.failureStatus := 1;
      for i := 1 to totNumLks + 1
        invariant Ready() && forall l | 1 <= l < i :: RegistersOf(sw, l) == SetUp(sizes, l)
      {
        WriteQueue(sw, i, leftBounds[i - 1], slotsValues[i - 1]);
      }
      sw.failureStatus := 0;
      sw.rings := EmptyRings(sizes);
      SetUpIsValid(sw, sizes);
      SetUpIsConsecutive();
    }
  }
}
