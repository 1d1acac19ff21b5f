/**
 A release with its whole chain of recirculated passes, compared with the policy and
 with the lock server's primary role.
 */
module Agreement {
  import opened NetLockTypes
  import opened LockRing
  import opened SwitchRegisters
  import opened SlotArithmetic
  import RwLock
  import LockServer

  ghost predicate ScanFits(r: Ring, s: Option<Scan>) {
    r.Ok() && (s.Some? ==> s.value.head < s.value.tail <= |r.q.log| <= s.value.head + r.cap
                           && s.value.tail < s.value.head + r.cap)
  }

  function NextFits(r: Ring, s: Scan): (next: Option<Scan>)
    requires ScanFits(r, Some(s))
    ensures ScanFits(r, next)
    ensures next.Some? ==> next.value.tail == s.tail && next.value.head == s.head + 1 && next.value.sweep
  {
    PassNext(s, Visible(r, s.head))
  }

  // The grants a packet sends while it goes round with nothing in between.
  function ScanGrants(r: Ring, s: Option<Scan>): seq<Entry>
    requires ScanFits(r, s)
    decreases if s.Some? then s.value.tail - s.value.head else 0
  {
    if s == None then []
    else
      var e := Visible(r, s.value.head);
      (if PassGrants(s.value, e) then [e] else []) + ScanGrants(r, NextFits(r, s.value))
  }

  // How often it goes round.
  function ScanPasses(r: Ring, s: Option<Scan>): (n: nat)
    requires ScanFits(r, s)
    ensures s.Some? ==> n <= s.value.tail - s.value.head
    decreases if s.Some? then s.value.tail - s.value.head else 0
  {
    if s == None then 0 else 1 + ScanPasses(r, NextFits(r, s.value))
  }

  lemma ScanStep(r: Ring, s: Scan)
    requires ScanFits(r, Some(s))
    ensures var e := Visible(r, s.head);
            ScanGrants(r, Some(s)) == (if PassGrants(s, e) then [e] else []) + ScanGrants(r, NextFits(r, s))
    ensures ScanPasses(r, Some(s)) == 1 + ScanPasses(r, NextFits(r, s))
  {
  }

  // A scan that wakes shared requests stops at the first exclusive one.
  lemma {:induction false} SweepGrants(r: Ring, s: Scan)
    requires ScanFits(r, Some(s)) && s.tail == |r.q.log| && (s.sweep || s.dequeued.Exclusive?)
    requires r.q.log[s.head].mode.Shared?
    ensures ScanGrants(r, Some(s)) == r.q.log[s.head..RwLock.FirstExclusive(r.q.log, s.head)]
    decreases s.tail - s.head
  {
    var log := r.q.log;
    assert Visible(r, s.head) == log[s.head];
    var next := NextFits(r, s);
    if next.Some? {
      var e := log[s.head + 1];
      if e.mode.Shared? {
        SweepGrants(r, next.value);
      } else {
        assert Visible(r, s.head + 1) == e;
        assert ScanGrants(r, next) == [];
      }
    }
  }

  // A release whose scan is not disturbed grants what the policy grants, in its order, and
  // goes round at most once for every request left in the ring.
  lemma ReleaseFollowsPolicy(r: Ring)
    requires r.Ok() && r.Size() > 0
    ensures ScanFits(Popped(r), FirstScan(r))
    ensures ScanGrants(Popped(r), FirstScan(r))
         == RwLock.Grants(r.q, RwLock.Release(r.q.log[r.q.popped].mode))
    ensures ScanPasses(Popped(r), FirstScan(r)) <= r.Size() - 1
  {
    RwLock.ReleaseGrants(r.q, r.q.log[r.q.popped].mode);
    var r', h := Popped(r), r.q.popped + 1;
    if FirstScan(r).Some? {
      var s := FirstScan(r).value;
      assert Visible(r', h) == r.q.log[h];
      if r.q.log[h].mode.Shared? && s.dequeued.Exclusive? {
        SweepGrants(r', s);
      }
    }
  }

  // ---- The two implementations on the same events ----

  // The ring never overflows on these events, and so never hands a release over.
  ghost predicate NeverOverflows(r: Ring, evs: seq<RwLock.Event>)
    decreases |evs|
  {
    && r.Ok() && r.inServer == 0 && 2 <= r.cap
    && (evs != [] ==>
          && RwLock.Legal(r.q, evs[0])
          && (evs[0].Acquire? ==> HasRoom(r))
          && NeverOverflows(r.(q := RwLock.Next(r.q, evs[0])), evs[1..]))
  }

  lemma {:induction false} NeverOverflowsIsLegal(r: Ring, evs: seq<RwLock.Event>)
    requires NeverOverflows(r, evs)
    ensures RwLock.LegalRun(r.q, evs)
    decreases |evs|
  {
    if evs != [] {
      NeverOverflowsIsLegal(r.(q := RwLock.Next(r.q, evs[0])), evs[1..]);
    }
  }

  // The packet goes round until it is dropped.
  method RunScan(sw: Switch, l: nat, first: Option<Recirculated>, ghost scan: Option<Scan>)
    returns (grants: seq<Entry>)
    requires sw.Valid() && 1 <= l <= sw.numLocks && ScanFits(sw.rings[l], scan)
    requires HeaderMatches(sw.left[l], sw.rings[l].cap, scan, first)
    ensures grants == ScanGrants(sw.rings[l], scan)
  {
    var h := first;
    ghost var s := scan;
    grants := [];
    while h.Some?
      invariant ScanFits(sw.rings[l], s) && HeaderMatches(sw.left[l], sw.rings[l].cap, s, h)
      invariant grants + ScanGrants(sw.rings[l], s) == ScanGrants(sw.rings[l], scan)
      decreases ScanPasses(sw.rings[l], s)
    {
      ghost var next := NextFits(sw.rings[l], s.value);
      ScanStep(sw.rings[l], s.value);
      var grant, h' := sw.RecirculatedPass(l, h.value, s.value);
      var sent := if grant.Some? then [grant.value] else [];
      Associate(grants, sent, ScanGrants(sw.rings[l], next));
      grants := grants + sent;
      h, s := h', next;
    }
  }

  lemma Associate(a: seq<Entry>, b: seq<Entry>, c: seq<Entry>)
    ensures a + (b + c) == (a + b) + c
  {
  }

  method SwitchRelease(sw: Switch, l: nat, mode: Mode) returns (grants: seq<Entry>)
    requires sw.Valid() && 1 <= l <= sw.numLocks
    requires sw.rings[l].Ok() && !HandOff(sw.rings[l])
    requires RwLock.Legal(sw.rings[l].q, RwLock.Release(mode))
    modifies sw`rings, sw.head, sw.slots, sw.counts
    ensures sw.Valid() && sw.rings == old(sw.rings)[l := Popped(old(sw.rings[l]))]
    ensures grants == RwLock.Grants(old(sw.rings[l].q), RwLock.Release(mode))
  {
    ghost var r := sw.rings[l];
    ReleaseFollowsPolicy(r);
    var forwarded, h := sw.ReleasePass(l, mode);
    grants := RunScan(sw, l, h, FirstScan(r));
  }

  lemma RunGrantsStep(q: RwLock.Queue, evs: seq<RwLock.Event>, i: nat)
    requires i < |evs| && RwLock.LegalRun(q, evs[i..])
    ensures RwLock.Legal(q, evs[i]) && RwLock.LegalRun(RwLock.Next(q, evs[i]), evs[i + 1..])
    ensures RwLock.RunGrants(q, evs[i..])
         == RwLock.Grants(q, evs[i]) + RwLock.RunGrants(RwLock.Next(q, evs[i]), evs[i + 1..])
  {
    assert evs[i..][1..] == evs[i + 1..];
  }

  lemma NeverOverflowsStep(r: Ring, evs: seq<RwLock.Event>, i: nat)
    requires i < |evs| && NeverOverflows(r, evs[i..])
    ensures RwLock.Legal(r.q, evs[i]) && NeverOverflows(r.(q := RwLock.Next(r.q, evs[i])), evs[i + 1..])
    ensures if evs[i].Acquire? then HasRoom(r) && AfterAcquire(r, evs[i].e).q == RwLock.Next(r.q, evs[i])
            else !HandOff(r)
  {
    assert evs[i..][1..] == evs[i + 1..];
  }

  // The packets for one lock, one after the other.
  method SwitchRun(sw: Switch, l: nat, evs: seq<RwLock.Event>) returns (grants: seq<Entry>)
    requires sw.Valid() && 1 <= l <= sw.numLocks && NeverOverflows(sw.rings[l], evs)
    requires RwLock.LegalRun(sw.rings[l].q, evs)
    modifies sw`rings, sw.head, sw.tail, sw.slots, sw.counts, sw.entries.Repr()
    ensures grants == RwLock.RunGrants(old(sw.rings[l].q), evs)
  {
    ghost var all := RwLock.RunGrants(sw.rings[l].q, evs);
    grants := [];
    assert evs[0..] == evs;
    for i := 0 to |evs|
      invariant sw.Valid() && NeverOverflows(sw.rings[l], evs[i..])
      invariant RwLock.LegalRun(sw.rings[l].q, evs[i..])
      invariant grants + RwLock.RunGrants(sw.rings[l].q, evs[i..]) == all
    {
      RunGrantsStep(sw.rings[l].q, evs, i);
      NeverOverflowsStep(sw.rings[l], evs, i);
      ghost var rest := RwLock.RunGrants(RwLock.Next(sw.rings[l].q, evs[i]), evs[i + 1..]);
      var sent := SwitchEvent(sw, l, evs[i]);
      Associate(grants, sent, rest);
      grants := grants + sent;
    }
  }

  method SwitchEvent(sw: Switch, l: nat, ev: RwLock.Event) returns (sent: seq<Entry>)
    requires sw.Valid() && 1 <= l <= sw.numLocks
    requires sw.rings[l].Ok() && RwLock.Legal(sw.rings[l].q, ev) && sw.rings[l].inServer == 0
    requires if ev.Acquire? then HasRoom(sw.rings[l]) else !HandOff(sw.rings[l])
    modifies sw`rings, sw.head, sw.tail, sw.slots, sw.counts, sw.entries.Repr()
    ensures sw.Valid()
    ensures sw.rings[l] == old(sw.rings[l]).(q := RwLock.Next(old(sw.rings[l].q), ev))
    ensures sent == RwLock.Grants(old(sw.rings[l].q), ev)
  {
    match ev {
      case Acquire(e) => sent := SwitchAcquire(sw, l, e);
      case Release(mode) => sent := SwitchRelease(sw, l, mode);
    }
  }

  method SwitchAcquire(sw: Switch, l: nat, e: Entry) returns (grants: seq<Entry>)
    requires sw.Valid() && 1 <= l <= sw.numLocks
    requires sw.rings[l].Ok() && sw.rings[l].inServer == 0 && HasRoom(sw.rings[l])
    modifies sw`rings, sw.tail, sw.slots, sw.counts, sw.entries.Repr()
    ensures sw.Valid() && sw.rings == old(sw.rings)[l := AfterAcquire(old(sw.rings[l]), e)]
    ensures grants == RwLock.Grants(old(sw.rings[l].q), RwLock.Acquire(e))
  {
    RwLock.AcquireGrants(sw.rings[l].q, e);
    assert sw.Holds(l, sw.rings[l]);
    var v := sw.AcquirePass(l, e);
    grants := if v.Granted? then [e] else [];
  }

  method ServerRun(server: LockServer.Primary, evs: seq<RwLock.Event>) returns (grants: seq<Entry>)
    requires server.Valid() && RwLock.LegalRun(server.q, evs)
    modifies server, server.lockQueue, server.lockQueue.spine
    ensures grants == RwLock.RunGrants(old(server.q), evs)
  {
    ghost var all := RwLock.RunGrants(server.q, evs);
    grants := [];
    assert evs[0..] == evs;
    for i := 0 to |evs|
      invariant server.Valid() && RwLock.LegalRun(server.q, evs[i..])
      invariant forall n | n in server.lockQueue.spine && n !in old(server.lockQueue.spine) :: fresh(n)
      invariant grants + RwLock.RunGrants(server.q, evs[i..]) == all
    {
      RunGrantsStep(server.q, evs, i);
      assert forall k | 0 <= k < |server.lockQueue.spine| :: server.lockQueue.spine[k] in server.lockQueue.spine;
      ghost var rest := RwLock.RunGrants(RwLock.Next(server.q, evs[i]), evs[i + 1..]);
      var sent := ServerEvent(server, evs[i]);
      Associate(grants, sent, rest);
      grants := grants + sent;
    }
  }

  method ServerEvent(server: LockServer.Primary, ev: RwLock.Event) returns (sent: seq<Entry>)
    requires server.Valid() && RwLock.Legal(server.q, ev)
    modifies server, server.lockQueue, server.lockQueue.spine
    ensures server.Valid() && server.q == RwLock.Next(old(server.q), ev)
    ensures sent == RwLock.Grants(old(server.q), ev)
    ensures forall n | n in server.lockQueue.spine && n !in old(server.lockQueue.spine) :: fresh(n)
  {
    match ev {
      case Acquire(e) => sent := server.Acquire(e);
      case Release(mode) => sent := server.Release(mode);
    }
  }

  // On any events that do not overflow the ring, the switch and the server send the same
  // grants in the same order.
  method SameGrants(sw: Switch, l: nat, server: LockServer.Primary, evs: seq<RwLock.Event>)
    returns (bySwitch: seq<Entry>, byServer: seq<Entry>)
    requires sw.Valid() && 1 <= l <= sw.numLocks && NeverOverflows(sw.rings[l], evs)
    requires server.Valid() && server.q == sw.rings[l].q
    modifies sw`rings, sw.head, sw.tail, sw.slots, sw.counts, sw.entries.Repr()
    modifies server, server.lockQueue, server.lockQueue.spine
    ensures bySwitch == byServer
  {
    NeverOverflowsIsLegal(sw.rings[l], evs);
    bySwitch := SwitchRun(sw, l, evs);
    byServer := ServerRun(server, evs);
  }
}
