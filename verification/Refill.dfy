/**
 What requests pushed back to the switch are written over. push_back_alu does not look at the
 count of empty slots, and that count drifts: a release that is handed over raises it without
 moving the head.
 */
module Refill {
  import opened NetLockTypes
  import opened SlotArithmetic
  import opened SwitchRegisters
  import opened Overflow
  import LockRing

  // ---- The count of empty slots drifts from the ring ----

  // How many positions lie between the head and the tail.
  function Behind(k: Link): int {
    |k.entered| - k.popped
  }

  // cap slots, one more for every hand-off, less those between head and tail - in 32 bits.
  ghost predicate Drifted(k: Link, cap: nat) {
    k.slots.empty == (cap + k.handOffs - Behind(k)) % WIDTH
  }

  lemma StepKeepsDrift(k: Link, s: Step, cap: nat)
    requires Drifted(k, cap) && Enabled(k, s)
    ensures Drifted(Apply(k, s), cap)
  {
    if s.AcquireArrives? {
      assert |OnAcquire(k, s.e).entered| == |k.entered| + if k.slots.empty > 0 && k.slots.inServer == 0 then 1 else 0;
    }
  }

  // In every run the positions between head and tail are the slots counted as taken and the
  // hand-offs, in the width of the register.
  lemma {:induction false} RunKeepsDrift(k: Link, ss: seq<Step>, cap: nat)
    requires Drifted(k, cap) && Legal(k, ss)
    ensures Drifted(Run(k, ss), cap)
    decreases |ss|
  {
    if ss != [] {
      StepKeepsDrift(k, ss[0], cap);
      RunKeepsDrift(Apply(k, ss[0]), ss[1..], cap);
    }
  }

  // A write at the tail hits no position from the head on.
  predicate Spares(k: Link, cap: nat) {
    Behind(k) < cap
  }

  // While the register has not wrapped, exactly as long as more slots are counted empty than
  // releases were handed over.
  lemma SparesExactly(k: Link, ss: seq<Step>, cap: nat)
    requires Initial(k) && k.slots.empty == cap < WIDTH && Legal(k, ss)
    requires 0 <= cap + Run(k, ss).handOffs - Behind(Run(k, ss)) < WIDTH
    ensures var k' := Run(k, ss);
            && Behind(k') == cap - k'.slots.empty + k'.handOffs
            && (Spares(k', cap) <==> k'.slots.empty > k'.handOffs)
  {
    RunKeepsDrift(k, ss, cap);
  }

  // On the slots: with no more positions behind the head than slots, the tail is at the head's
  // slot exactly when the write does not spare it.
  lemma TailMeetsHead(k: Link, left: nat, cap: nat)
    requires 1 <= cap && 1 <= Behind(k) <= cap
    ensures Slot(left, cap, |k.entered|) == Slot(left, cap, k.popped) <==> !Spares(k, cap)
  {
    if Spares(k, cap) {
      SlotsDiffer(left, cap, k.popped, |k.entered|);
    } else {
      SlotPlusRing(left, cap, k.popped);
    }
  }

  // ---- The requests under way ----

  function Pushed(k: Link, n: nat): (k': Link)
    requires n <= |k.toSwitch| <= k.slots.inServer
    ensures k'.toSwitch == k.toSwitch[n..] && k'.slots.inServer == k.slots.inServer - n
    ensures Behind(k') == Behind(k) + n
  {
    if n == 0 then k else OnPushBack(Pushed(k, n - 1))
  }

  lemma {:induction false} EmptyAfter(k: Link, n: nat)
    requires n <= |k.toSwitch| <= k.slots.inServer && n <= k.slots.empty < WIDTH
    ensures Pushed(k, n).slots.empty == k.slots.empty - n
  {
    if n > 0 {
      EmptyAfter(k, n - 1);
    }
  }

  // The requests on their way back, arriving one after the other, each find the count of empty
  // slots positive if and only if there are no more of them than it says.
  lemma FitExactly(k: Link)
    requires |k.toSwitch| <= k.slots.inServer && k.slots.empty < WIDTH
    ensures (forall n: nat | n < |k.toSwitch| :: Pushed(k, n).slots.empty > 0) <==> |k.toSwitch| <= k.slots.empty
  {
    if |k.toSwitch| <= k.slots.empty {
      forall n: nat | n < |k.toSwitch| ensures Pushed(k, n).slots.empty > 0 { EmptyAfter(k, n); }
    } else {
      EmptyAfter(k, k.slots.empty);
    }
  }

  // But they all spare the head if and only if there are no more of them than empty slots once
  // the hand-offs are taken off. A refill as large as the ring never does.
  lemma RefillSparesExactly(k: Link, cap: nat)
    requires |k.toSwitch| <= k.slots.inServer && Behind(k) == cap - k.slots.empty + k.handOffs
    ensures (forall n: nat | n < |k.toSwitch| :: Spares(Pushed(k, n), cap))
            <==> k.toSwitch == [] || |k.toSwitch| + k.handOffs <= k.slots.empty
  {
    var t := |k.toSwitch|;
    if t > 0 {
      assert Spares(Pushed(k, t - 1), cap) <==> t + k.handOffs <= k.slots.empty;
    }
  }

  // Requests pushed back one after the other go to consecutive slots from the tail on.
  method PushBackAll(sw: Switch, l: nat, es: seq<Entry>, ghost cap: nat, ghost n: nat, ghost s: Slots)
    requires sw.ValidBut(l) && 1 <= l <= sw.numLocks && 1 <= cap && sw.left[l] + cap == sw.right[l] + 1
    requires sw.tail[l] == Slot(sw.left[l], cap, n) && sw.slots[l] == s
    requires |es| <= s.empty && |es| <= s.inServer < WIDTH - 1
    modifies sw.tail, sw.slots, sw.counts, sw.entries.Repr()
    ensures sw.ValidBut(l) && sw.rings == old(sw.rings)
    ensures sw.tail[l] == Slot(sw.left[l], cap, n + |es|) && sw.slots[l] == Slots(s.empty - |es|, s.inServer - |es|)
    ensures |es| > 0 ==> Slot(sw.left[l], cap, n + |es| - 1) < |sw.entries.cells|
                         && sw.entries.cells[Slot(sw.left[l], cap, n + |es| - 1)] == es[|es| - 1]
  {
    for i := 0 to |es|
      invariant sw.ValidBut(l) && sw.rings == old(sw.rings)
      invariant sw.tail[l] == Slot(sw.left[l], cap, n + i) && sw.slots[l] == Slots(s.empty - i, s.inServer - i)
      invariant i > 0 ==> Slot(sw.left[l], cap, n + i - 1) < |sw.entries.cells|
                          && sw.entries.cells[Slot(sw.left[l], cap, n + i - 1)] == es[i - 1]
    {
      NextSlot(sw.left[l], cap, n + i);
      var v := sw.AcquireOrPushBack(l, PushBackLock, es[i]);
    }
  }

  // On the registers: a ring's last request releases, the release is handed over, and the
  // server pushes back as many requests as the ring has slots. The count of empty slots is
  // positive every time; yet the last request is written over the entry the head still points
  // to, and the next pop will see the head meet the tail.
  method FullRefill(sw: Switch, l: nat, mode: Mode, es: seq<Entry>)
    requires sw.Valid() && 1 <= l <= sw.numLocks
    requires var r := sw.rings[l];
             && r.Ok() && r.Size() == 1 && mode == r.q.log[r.q.popped].mode && LockRing.HandOff(r)
             && |es| == r.cap <= r.inServer < WIDTH - 1
    modifies sw`rings, sw.head, sw.tail, sw.slots, sw.counts, sw.entries.Repr()
    ensures sw.ValidBut(l)
    ensures sw.head[l] == old(sw.head[l]) && sw.tail[l] == old(sw.tail[l])
    ensures sw.slots[l] == Slots(0, old(sw.slots[l]).inServer - |es|)
    ensures sw.head[l] < |sw.entries.cells| && sw.entries.cells[sw.head[l]] == es[|es| - 1]
    ensures sw.tail[l] == if sw.head[l] == sw.right[l] then sw.left[l] else sw.head[l] + 1
  {
    ghost var r := sw.rings[l];
    assert sw.Holds(l, r);
    var forwarded, recirc := sw.ReleasePass(l, mode);
    PushBackAll(sw, l, es, r.cap, |r.q.log|, Slots(r.cap, r.inServer));
    NextSlot(sw.left[l], r.cap, r.q.popped);
    SlotPlusRing(sw.left[l], r.cap, r.q.popped);
    SlotPlusRing(sw.left[l], r.cap, |r.q.log|);
  }

  // ---- One refill at a time ----

  function Refills(msgs: seq<ToServer>): nat {
    if msgs == [] then 0 else (if msgs[0].Refill? then 1 else 0) + Refills(msgs[1..])
  }

  lemma {:induction false} RefillsAppend(msgs: seq<ToServer>, m: ToServer)
    ensures Refills(msgs + [m]) == Refills(msgs) + if m.Refill? then 1 else 0
  {
    var all := msgs + [m];
    if msgs == [] {
      assert all[0] == m && all[1..] == [];
    } else {
      RefillsAppend(msgs[1..], m);
      assert all[0] == msgs[0] && all[1..] == msgs[1..] + [m];
    }
  }

  predicate HandsOver(k: Link): (b: bool)
    ensures k.sizeOfQueue > 0 ==> (b <==> OnRelease(k).toServer == k.toServer + [ToServer.Refill])
  {
    assert |k.toServer + [ToServer.Refill]| == |k.toServer| + 1;
    k.slots.inServer > 0 && k.slots.empty == k.sizeOfQueue
  }

  // A release is handed over only when the requests of the last refill are all back; and the
  // register of empty slots is not pushed over its width.
  ghost predicate OneRefillAtATime(k: Link, s: Step) {
    s.ReleaseArrives? ==> k.slots.empty + 1 < WIDTH && (HandsOver(k) ==> Refills(k.toServer) == 0 && k.toSwitch == [])
  }

  // The ring has two slots at least, and the server takes it to be no larger than it is.
  ghost predicate Room(k: Link) {
    && Inv(k) && k.slots.empty < WIDTH && 1 <= k.sizeOfQueue && k.lenInSwitch <= k.sizeOfQueue + 1
    && Refills(k.toServer) <= 1
    && if Refills(k.toServer) == 1 then k.toSwitch == [] && k.slots.inServer > 0 && k.lenInSwitch <= k.slots.empty
       else |k.toSwitch| <= k.slots.empty
  }

  lemma AcquireKeepsRoom(k: Link, e: Entry)
    requires Room(k) && Enabled(k, AcquireArrives(e))
    ensures Room(OnAcquire(k, e))
  {
    AcquireKeepsInv(k, e);
    RefillsAppend(k.toServer, Request(e));
  }

  lemma ReleaseKeepsRoom(k: Link)
    requires Room(k) && OneRefillAtATime(k, ReleaseArrives)
    ensures Room(OnRelease(k))
  {
    ReleaseKeepsInv(k);
    RefillsAppend(k.toServer, ToServer.Refill);
  }

  lemma ServerKeepsRoom(k: Link)
    requires Room(k) && k.toServer != []
    ensures Room(OnServer(k))
  {
    ServerKeepsInv(k);
  }

  lemma PushBackKeepsRoom(k: Link)
    requires Room(k) && Enabled(k, PushBackArrives)
    ensures k.slots.empty > 0 && Room(OnPushBack(k))
  {
    PushBackKeepsInv(k);
  }

  ghost predicate AllOneByOne(k: Link, ss: seq<Step>)
    requires Legal(k, ss)
    decreases |ss|
  {
    ss != [] ==> OneRefillAtATime(k, ss[0]) && AllOneByOne(Apply(k, ss[0]), ss[1..])
  }

  lemma {:induction false} RunKeepsRoom(k: Link, ss: seq<Step>)
    requires Room(k) && Legal(k, ss) && AllOneByOne(k, ss)
    ensures Room(Run(k, ss))
    decreases |ss|
  {
    if ss != [] {
      match ss[0] {
        case AcquireArrives(e) => AcquireKeepsRoom(k, e);
        case ReleaseArrives => ReleaseKeepsRoom(k);
        case ServerReceives => ServerKeepsRoom(k);
        case PushBackArrives => PushBackKeepsRoom(k);
      }
      RunKeepsRoom(Apply(k, ss[0]), ss[1..]);
    }
  }

  // With one refill at a time the count of empty slots is positive whenever a request comes
  // back, and never wraps.
  lemma PushBackFindsRoom(k: Link, ss: seq<Step>)
    requires Initial(k) && k.slots.empty < WIDTH && 1 <= k.sizeOfQueue && k.lenInSwitch <= k.sizeOfQueue + 1
    requires Legal(k, ss) && AllOneByOne(k, ss)
    ensures |Run(k, ss).toSwitch| <= Run(k, ss).slots.empty || Refills(Run(k, ss).toServer) == 1
    ensures Run(k, ss).toSwitch != [] ==> Run(k, ss).slots.empty > 0
  {
    RunKeepsRoom(k, ss);
  }
}
