/**
 Runs of one lock of the switch: arrivals, releases and recirculated passes in any
 order, up to the first hand-off to the server.
 */
module LockRun {
  import opened NetLockTypes
  import opened RwLock
  import opened LockRing

  datatype Move =
    | Arrive(e: Entry, tag: nat)  // an acquire reaches the switch
    | Receive(p: nat)             // the grant for position p reaches its client
    | SendRelease(p: nat)         // that client releases
    | ReleaseOf(p: nat)           // the release reaches the switch, first pass
    | Pass(s: Scan)               // a recirculated packet comes round

  // The packet is there: a grant on its way, a holder, a release on its way that will not be
  // handed over, a packet in recirculation.
  ghost predicate Offered(k: Lock, m: Move) {
    match m
    case Arrive(_, _) => true
    case Receive(p) => p < |k.status| && k.status[p].Granting?
    case SendRelease(p) => p < |k.status| && k.status[p].Held?
    case ReleaseOf(p) => p < |k.status| && k.status[p].Releasing? && (k.r.Ok() ==> !HandOff(k.r))
    case Pass(s) => s in k.scans
  }

  // It finds the lock in a state that it can be applied to.
  ghost predicate Possible(k: Lock, m: Move) {
    && Offered(k, m) && k.r.Ok() && |k.status| == |k.r.q.log|
    && match m
       case ReleaseOf(_) => k.r.Size() > 0
       case Pass(s) => s.head < |k.r.q.log|
       case _ => true
  }

  // The one timing assumption: no slot is rewritten before a packet marked for it has read it.
  ghost predicate InTime(k: Lock, m: Move) {
    m.Arrive? && k.r.Ok() && HasRoom(k.r) ==> NoScanOverrun(k)
  }

  // The discipline under which the assumption needs no stating: a release of the lock is
  // processed only once the scan of the one before has ended.
  ghost predicate OneScanAtATime(k: Lock, m: Move) {
    m.ReleaseOf? ==> k.scans == multiset{}
  }

  function Apply(k: Lock, m: Move): Lock
    requires Possible(k, m)
  {
    match m
    case Arrive(e, tag) =>
      if HasRoom(k.r) then Enter(k, e, tag) else k.(r := AfterAcquire(k.r, e))
    case Receive(p) => k.(status := k.status[p := Held])
    case SendRelease(p) => k.(status := k.status[p := Releasing])
    case ReleaseOf(p) => ReleaseFor(k, p)
    case Pass(s) => Recirculate(k, s)
  }

  // No packet ever finds a lock it cannot be applied to: a release finds a request to pop.
  lemma OfferedIsPossible(k: Lock, m: Move)
    requires Inv(k) && Offered(k, m)
    ensures Possible(k, m)
  {
    match m
    case ReleaseOf(p) => HoldersMatchHead(k, p);
    case Pass(s) => PassGrantsPending(k, s);
    case _ =>
  }

  lemma ArriveKeepsInv(k: Lock, e: Entry, tag: nat)
    requires Inv(k) && InTime(k, Arrive(e, tag))
    ensures Inv(Apply(k, Arrive(e, tag)))
  {
    if HasRoom(k.r) {
      EnterKeepsInv(k, e, tag);
    } else {
      ForwardKeepsInv(k);
    }
  }

  lemma ApplyKeepsInv(k: Lock, m: Move)
    requires Inv(k) && Possible(k, m) && InTime(k, m)
    ensures Inv(Apply(k, m))
  {
    match m
    case Arrive(e, tag) => ArriveKeepsInv(k, e, tag);
    case Receive(p) => StatusChangeKeepsInv(k, p, Held);
    case SendRelease(p) => StatusChangeKeepsInv(k, p, Releasing);
    case ReleaseOf(p) => ReleaseKeepsInv(k, p);
    case Pass(s) => PassKeepsInv(k, s);
  }

  // ---- Runs ----

  ghost predicate Plays(k: Lock, ms: seq<Move>)
    decreases |ms|
  {
    ms != [] ==> Possible(k, ms[0]) && Plays(Apply(k, ms[0]), ms[1..])
  }

  ghost function Run(k: Lock, ms: seq<Move>): Lock
    requires Plays(k, ms)
    decreases |ms|
  {
    if ms == [] then k else Run(Apply(k, ms[0]), ms[1..])
  }

  ghost predicate AllInTime(k: Lock, ms: seq<Move>)
    requires Plays(k, ms)
    decreases |ms|
  {
    ms != [] ==> InTime(k, ms[0]) && AllInTime(Apply(k, ms[0]), ms[1..])
  }

  ghost predicate AllOneByOne(k: Lock, ms: seq<Move>)
    requires Plays(k, ms)
    decreases |ms|
  {
    ms != [] ==> OneScanAtATime(k, ms[0]) && AllOneByOne(Apply(k, ms[0]), ms[1..])
  }

  lemma {:induction false} RunKeepsInv(k: Lock, ms: seq<Move>)
    requires Inv(k) && Plays(k, ms) && AllInTime(k, ms)
    ensures Inv(Run(k, ms))
    decreases |ms|
  {
    if ms != [] {
      ApplyKeepsInv(k, ms[0]);
      RunKeepsInv(Apply(k, ms[0]), ms[1..]);
    }
  }

  // In every reachable state an exclusive holder of the lock is its only holder, whether
  // its grant or its release is still under way or not.
  lemma MutualExclusion(cap: nat, ms: seq<Move>, p: nat, p': nat)
    requires 1 <= cap && Plays(Fresh(cap), ms) && AllInTime(Fresh(cap), ms)
    requires var k := Run(Fresh(cap), ms);
             Out(k, p) && Out(k, p') && p < |k.r.q.log| && k.r.q.log[p].mode.Exclusive?
    ensures p == p'
  {
    FreshLockInv(cap);
    RunKeepsInv(Fresh(cap), ms);
    ExclusiveHolderIsAlone(Run(Fresh(cap), ms), p, p');
  }

  function Fresh(cap: nat): Lock {
    Lock(Ring(Queue([], 0), cap, 0), [], [], multiset{})
  }

  // ---- One scan at a time needs no timing assumption ----

  ghost predicate ScansAhead(k: Lock) {
    forall s | s in k.scans :: k.r.q.popped <= s.head
  }

  lemma {:induction false} OneByOneIsInTime(k: Lock, ms: seq<Move>)
    requires Inv(k) && ScansAhead(k) && Plays(k, ms) && AllOneByOne(k, ms)
    ensures AllInTime(k, ms)
    decreases |ms|
  {
    if ms != [] {
      assert InTime(k, ms[0]);
      ApplyKeepsInv(k, ms[0]);
      OneByOneIsInTime(Apply(k, ms[0]), ms[1..]);
    }
  }

  // ---- Exactly once ----

  function Rank(s: Status): nat {
    match s
    case Waiting => 0 case Granting => 1 case Held => 2 case Releasing => 3 case Released => 4
  }

  // A position only moves forward, one stage at a time: no grant is sent twice, and none
  // is lost by another packet.
  lemma StatusAdvances(k: Lock, m: Move, p: nat)
    requires Inv(k) && Possible(k, m) && p < |k.status|
    ensures p < |Apply(k, m).status|
    ensures Rank(k.status[p]) <= Rank(Apply(k, m).status[p]) <= Rank(k.status[p]) + 1
  {
    if m.Pass? {
      PassGrantsPending(k, m.s);
    }
  }

  // ---- Refinement of the policy ----

  // An arrival that finds room and a release, as the specification sees them.
  ghost function EventOf(k: Lock, m: Move): (evs: seq<Event>)
    requires Possible(k, m)
    ensures |evs| <= 1
  {
    match m
    case Arrive(e, _) => if HasRoom(k.r) then [Acquire(e)] else []
    case ReleaseOf(p) => [Release(k.r.q.log[p].mode)]
    case _ => []
  }

  ghost function Events(k: Lock, ms: seq<Move>): seq<Event>
    requires Plays(k, ms)
    decreases |ms|
  {
    if ms == [] then [] else EventOf(k, ms[0]) + Events(Apply(k, ms[0]), ms[1..])
  }

  // A release that reaches the switch is one the policy allows: its mode is the head's.
  lemma MoveFollowsPolicy(k: Lock, m: Move)
    requires Inv(k) && Possible(k, m)
    ensures k.r.q.Ok()
    ensures if EventOf(k, m) == [] then Apply(k, m).r.q == k.r.q
            else RwLock.Legal(k.r.q, EventOf(k, m)[0]) && RwLock.Next(k.r.q, EventOf(k, m)[0]) == Apply(k, m).r.q
  {
    if m.ReleaseOf? {
      HoldersMatchHead(k, m.p);
    }
  }

  // However packets interleave, the ring goes through the states of the specification, and
  // whenever no packet is in recirculation exactly the specification's holders are granted.
  lemma {:induction false} RunRefinesPolicy(k: Lock, ms: seq<Move>)
    requires Inv(k) && Plays(k, ms) && AllInTime(k, ms)
    ensures RwLock.LegalRun(k.r.q, Events(k, ms))
    ensures Run(k, ms).r.q == RwLock.RunQueue(k.r.q, Events(k, ms))
    ensures Run(k, ms).r.q.Ok()
    ensures Run(k, ms).scans == multiset{} ==>
              forall p | 0 <= p < |Run(k, ms).status| ::
                Run(k, ms).status[p].Waiting? <==> p >= GrantEnd(Run(k, ms).r.q)
    decreases |ms|
  {
    if ms == [] {
      if k.scans == multiset{} {
        forall p | 0 <= p < |k.status|
          ensures k.status[p].Waiting? <==> p >= GrantEnd(k.r.q)
        {
          QuietMeansGrantedRun(k, p);
        }
      }
    } else {
      var k' := Apply(k, ms[0]);
      ApplyKeepsInv(k, ms[0]);
      RunRefinesPolicy(k', ms[1..]);
      EventsStep(k, ms);
    }
  }

  lemma EventsStep(k: Lock, ms: seq<Move>)
    requires Inv(k) && ms != [] && Plays(k, ms)
    requires RwLock.LegalRun(Apply(k, ms[0]).r.q, Events(Apply(k, ms[0]), ms[1..]))
    ensures RwLock.LegalRun(k.r.q, Events(k, ms))
    ensures RwLock.RunQueue(k.r.q, Events(k, ms))
         == RwLock.RunQueue(Apply(k, ms[0]).r.q, Events(Apply(k, ms[0]), ms[1..]))
  {
    MoveFollowsPolicy(k, ms[0]);
    var first, rest := EventOf(k, ms[0]), Events(Apply(k, ms[0]), ms[1..]);
    if first == [] {
      assert Events(k, ms) == rest;
    } else {
      PolicyStep(k.r.q, first[0], rest);
      assert Events(k, ms) == [first[0]] + rest;
    }
  }

  lemma PolicyStep(q: Queue, ev: Event, rest: seq<Event>)
    requires RwLock.Legal(q, ev) && RwLock.LegalRun(RwLock.Next(q, ev), rest)
    ensures RwLock.LegalRun(q, [ev] + rest)
    ensures RwLock.RunQueue(q, [ev] + rest) == RwLock.RunQueue(RwLock.Next(q, ev), rest)
  {
    assert ([ev] + rest)[1..] == rest;
  }

  // ---- The passes of a release ----

  // How often the packet that now carries the scan s still comes round, whatever arrives, is
  // released or comes round in between.
  ghost function PassesOf(k: Lock, ms: seq<Move>, s: Option<Scan>): nat
    requires Plays(k, ms)
    decreases |ms|
  {
    if ms == [] || s == None then 0
    else if ms[0] == Pass(s.value) then
      1 + PassesOf(Apply(k, ms[0]), ms[1..], PassNext(s.value, Visible(k.r, s.value.head)))
    else PassesOf(Apply(k, ms[0]), ms[1..], s)
  }

  lemma {:induction false} PassesAreBounded(k: Lock, ms: seq<Move>, s: Scan)
    requires Plays(k, ms) && s.head < s.tail
    ensures PassesOf(k, ms, Some(s)) <= s.tail - s.head
    decreases |ms|
  {
    if ms != [] {
      if ms[0] == Pass(s) {
        var next := PassNext(s, Visible(k.r, s.head));
        if next.Some? {
          PassesAreBounded(Apply(k, ms[0]), ms[1..], next.value);
        }
      } else {
        PassesAreBounded(Apply(k, ms[0]), ms[1..], s);
      }
    }
  }

  // In any interleaving the packet of a release comes round no more often than there were
  // requests left behind the one it popped.
  lemma ReleaseEnds(k: Lock, p: nat, ms: seq<Move>)
    requires Possible(k, ReleaseOf(p)) && Plays(Apply(k, ReleaseOf(p)), ms)
    ensures PassesOf(Apply(k, ReleaseOf(p)), ms, FirstScan(k.r)) <= k.r.Size() - 1
  {
    if FirstScan(k.r).Some? {
      PassesAreBounded(Apply(k, ReleaseOf(p)), ms, FirstScan(k.r).value);
    }
  }

  // ---- The order of grants ----

  // The live scan wakes requests in queue order: nothing in front of the one it grants is
  // still due.
  lemma PassGrantsOldest(k: Lock, s: Scan, p: nat)
    requires Inv(k) && s in k.scans && Live(k.r.q.log, s) && p < s.head
    ensures !Pending(k, p)
  {
    if Pending(k, p) {
      assert Covered(k, p);
      var s' :| s' in k.scans && Covers(k.r.q.log, s', p);
      CoversMeansLive(k.r.q.log, s', p);
      assert false;
    }
  }

  // An arrival that is granted at once overtakes the requests the live scan has yet to wake;
  // with no packet in recirculation it overtakes nobody.
  lemma ArrivalOvertakesExactly(k: Lock, e: Entry, tag: nat)
    requires Inv(k) && HasRoom(k.r) && Admits(k.r.q, e)
    ensures (exists p: nat :: Pending(k, p)) <==> exists s :: s in k.scans && Live(k.r.q.log, s)
    ensures (exists p: nat :: Pending(k, p)) <==>
            exists p: nat :: p < |k.r.q.log| && Enter(k, e, tag).status[p].Waiting?
  {
    AdmitsWhen(k.r.q, e);
    if s :| s in k.scans && Live(k.r.q.log, s) {
      PassGrantsPending(k, s);
    }
    if p: nat :| Pending(k, p) {
      assert Covered(k, p);
      var s :| s in k.scans && Covers(k.r.q.log, s, p);
      CoversMeansLive(k.r.q.log, s, p);
      assert Enter(k, e, tag).status[p].Waiting?;
    }
    if p: nat :| p < |k.r.q.log| && Enter(k, e, tag).status[p].Waiting? {
      assert Pending(k, p);
    }
  }

  // ---- Why the timing assumption is there ----

  // A pass of s grants only a request that waits and that the policy has granted.
  ghost predicate PassSound(k: Lock, s: Scan) {
    && k.r.Ok() && s.head < |k.r.q.log|
    && (PassGrants(s, Visible(k.r, s.head)) ==> Pending(k, LatestAt(|k.r.q.log|, k.r.cap, s.head)))
  }

  ghost predicate AllPassesSound(k: Lock) {
    forall s | s in k.scans :: PassSound(k, s)
  }

  // The assumption is exact: whatever request enters next, every packet in recirculation still
  // grants only what it should, if and only if none of them has yet to read the slot written.
  lemma InTimeExactly(k: Lock, tag: nat)
    requires Inv(k) && HasRoom(k.r)
    ensures NoScanOverrun(k) <==> forall e :: AllPassesSound(Enter(k, e, tag))
  {
    if NoScanOverrun(k) {
      forall e ensures AllPassesSound(Enter(k, e, tag)) { InTimeIsSound(k, e, tag); }
    } else {
      var s :| s in k.scans && |k.r.q.log| >= s.head + k.r.cap;
      OverrunIsUnsound(k, s, tag);
    }
  }

  lemma InTimeIsSound(k: Lock, e: Entry, tag: nat)
    requires Inv(k) && HasRoom(k.r) && NoScanOverrun(k)
    ensures AllPassesSound(Enter(k, e, tag))
  {
    var k' := Enter(k, e, tag);
    EnterKeepsInv(k, e, tag);
    forall s | s in k'.scans ensures PassSound(k', s) { PassGrantsPending(k', s); }
  }

  // The request that makes it go wrong: one of the mode the late packet wakes.
  function Victim(s: Scan): Entry {
    Entry(if s.sweep then Shared else Exclusive, 0, 0, 0, 0, 0)
  }

  lemma OverrunIsUnsound(k: Lock, s: Scan, tag: nat)
    requires Inv(k) && HasRoom(k.r) && s in k.scans && |k.r.q.log| >= s.head + k.r.cap
    ensures !AllPassesSound(Enter(k, Victim(s), tag))
  {
    var k', n := Enter(k, Victim(s), tag), |k.r.q.log|;
    assert ScanOk(k, s);
    assert LatestAt(n + 1, k.r.cap, s.head) == n;
    EnterKeepsPending(k, Victim(s), tag);
    assert !Pending(k, n);
    assert !PassSound(k', s);
  }

  // ---- A run in which it fails ----

  function TwoSlots(log: seq<Entry>, popped: nat, status: seq<Status>, scans: multiset<Scan>, inServer: nat := 0): Lock {
    Lock(Ring(Queue(log, popped), 2, inServer), status, seq(|log|, i => i), scans)
  }

  const LATE_SCAN: Scan := Scan(false, 1, 2, Shared)

  // Two shared requests hold a lock of two slots, and release it one after the other before
  // the packet of the first release comes round; two exclusive requests take the slots again.
  function LateMoves(a: Entry, b: Entry, x: Entry, y: Entry): seq<Move> {
    [Arrive(a, 0), Arrive(b, 1), Receive(0), Receive(1), SendRelease(0), SendRelease(1),
     ReleaseOf(0), ReleaseOf(1), Arrive(x, 2), Arrive(y, 3), Pass(LATE_SCAN), Receive(2), Receive(3)]
  }

  lemma PlayOne(k: Lock, m: Move, k': Lock, ms: seq<Move>)
    requires Possible(k, m) && Apply(k, m) == k' && Plays(k', ms)
    ensures Plays(k, [m] + ms) && Run(k, [m] + ms) == Run(k', ms)
  {
    assert ([m] + ms)[1..] == ms;
  }

  lemma SharedPairHolds(a: Entry, b: Entry)
    requires a.mode.Shared? && b.mode.Shared?
    ensures Enter(Fresh(2), a, 0) == TwoSlots([a], 0, [Granting], multiset{})
    ensures Enter(TwoSlots([a], 0, [Granting], multiset{}), b, 1)
         == TwoSlots([a, b], 0, [Granting, Granting], multiset{})
  {
    AdmitsWhen(Queue([], 0), a);
    AdmitsWhen(Queue([a], 0), b);
    assert [a] + [b] == [a, b];
  }

  // The first release leaves a packet that has still to look at slot 1; the second empties
  // the ring.
  lemma TwoReleasesLeaveAScan(a: Entry, b: Entry)
    requires a.mode.Shared? && b.mode.Shared?
    ensures var k := TwoSlots([a, b], 0, [Releasing, Releasing], multiset{});
            && ReleaseFor(k, 0) == TwoSlots([a, b], 1, [Released, Releasing], multiset{LATE_SCAN})
            && ReleaseFor(ReleaseFor(k, 0), 1) == TwoSlots([a, b], 2, [Released, Released], multiset{LATE_SCAN})
  {
    assert ReleaseFor(TwoSlots([a, b], 0, [Releasing, Releasing], multiset{}), 0).status == [Released, Releasing];
  }

  // Two exclusive requests then take both slots: the first is granted, the second waits.
  lemma TwoArrivalsReuseTheSlots(a: Entry, b: Entry, x: Entry, y: Entry)
    requires x.mode.Exclusive? && y.mode.Exclusive?
    ensures var k := TwoSlots([a, b], 2, [Released, Released], multiset{LATE_SCAN});
            Enter(k, x, 2) == TwoSlots([a, b, x], 2, [Released, Released, Granting], multiset{LATE_SCAN})
    ensures var k := TwoSlots([a, b, x], 2, [Released, Released, Granting], multiset{LATE_SCAN});
            && !NoScanOverrun(k)
            && Enter(k, y, 3) == TwoSlots([a, b, x, y], 2, [Released, Released, Granting, Waiting], multiset{LATE_SCAN})
  {
    AdmitsWhen(Queue([a, b], 2), x);
    AdmitsWhen(Queue([a, b, x], 2), y);
    assert [a, b] + [x] == [a, b, x];
    assert [a, b, x] + [y] == [a, b, x, y];
    assert LATE_SCAN in TwoSlots([a, b, x], 2, [Released, Released, Granting], multiset{LATE_SCAN}).scans;
  }

  // The late packet finds the second exclusive request in slot 1 and grants it too.
  lemma LatePassGrants(a: Entry, b: Entry, x: Entry, y: Entry)
    requires x.mode.Exclusive? && y.mode.Exclusive?
    ensures var k := TwoSlots([a, b, x, y], 2, [Released, Released, Granting, Waiting], multiset{LATE_SCAN});
            Recirculate(k, LATE_SCAN) == TwoSlots([a, b, x, y], 2, [Released, Released, Granting, Granting], multiset{})
  {
    assert LatestAt(4, 2, 1) == 3;
    assert multiset{LATE_SCAN} - multiset{LATE_SCAN} + multiset{} == multiset{};
  }

  // The first half of the run ends with the ring empty and one packet in recirculation.
  lemma LateRunFirstHalf(a: Entry, b: Entry, rest: seq<Move>)
    requires a.mode.Shared? && b.mode.Shared?
    requires Plays(TwoSlots([a, b], 2, [Released, Released], multiset{LATE_SCAN}), rest)
    ensures var ms := [Arrive(a, 0), Arrive(b, 1), Receive(0), Receive(1), SendRelease(0), SendRelease(1),
                       ReleaseOf(0), ReleaseOf(1)] + rest;
            && Plays(Fresh(2), ms)
            && Run(Fresh(2), ms) == Run(TwoSlots([a, b], 2, [Released, Released], multiset{LATE_SCAN}), rest)
  {
    SharedPairHolds(a, b);
    BothRelease(a, b, rest);
    var k1, k2 := TwoSlots([a], 0, [Granting], multiset{}), TwoSlots([a, b], 0, [Granting, Granting], multiset{});
    var r2 := [Receive(0), Receive(1), SendRelease(0), SendRelease(1), ReleaseOf(0), ReleaseOf(1)] + rest;
    PlayOne(k1, Arrive(b, 1), k2, r2);
    PlayOne(Fresh(2), Arrive(a, 0), k1, [Arrive(b, 1)] + r2);
    assert [Arrive(a, 0)] + ([Arrive(b, 1)] + r2) ==
           [Arrive(a, 0), Arrive(b, 1), Receive(0), Receive(1), SendRelease(0), SendRelease(1),
            ReleaseOf(0), ReleaseOf(1)] + rest;
  }

  lemma BothRelease(a: Entry, b: Entry, rest: seq<Move>)
    requires a.mode.Shared? && b.mode.Shared?
    requires Plays(TwoSlots([a, b], 2, [Released, Released], multiset{LATE_SCAN}), rest)
    ensures var k := TwoSlots([a, b], 0, [Granting, Granting], multiset{});
            var ms := [Receive(0), Receive(1), SendRelease(0), SendRelease(1), ReleaseOf(0), ReleaseOf(1)] + rest;
            && Plays(k, ms)
            && Run(k, ms) == Run(TwoSlots([a, b], 2, [Released, Released], multiset{LATE_SCAN}), rest)
  {
    TwoReleasesLeaveAScan(a, b);
    var none: multiset<Scan> := multiset{};
    var k2, k3 := TwoSlots([a, b], 0, [Granting, Granting], none), TwoSlots([a, b], 0, [Held, Granting], none);
    var k4, k5 := TwoSlots([a, b], 0, [Held, Held], none), TwoSlots([a, b], 0, [Releasing, Held], none);
    var k6, k7 := TwoSlots([a, b], 0, [Releasing, Releasing], none),
                  TwoSlots([a, b], 1, [Released, Releasing], multiset{LATE_SCAN});
    PlayOne(k7, ReleaseOf(1), TwoSlots([a, b], 2, [Released, Released], multiset{LATE_SCAN}), rest);
    var r6 := [ReleaseOf(0)] + ([ReleaseOf(1)] + rest);
    PlayOne(k6, ReleaseOf(0), k7, [ReleaseOf(1)] + rest);
    PlayOne(k5, SendRelease(1), k6, r6);
    var r4 := [SendRelease(0)] + ([SendRelease(1)] + r6);
    PlayOne(k4, SendRelease(0), k5, [SendRelease(1)] + r6);
    PlayOne(k3, Receive(1), k4, r4);
    PlayOne(k2, Receive(0), k3, [Receive(1)] + r4);
    assert [Receive(0)] + ([Receive(1)] + r4) ==
           [Receive(0), Receive(1), SendRelease(0), SendRelease(1), ReleaseOf(0), ReleaseOf(1)] + rest;
  }

  lemma LateRunSecondHalf(a: Entry, b: Entry, x: Entry, y: Entry)
    requires x.mode.Exclusive? && y.mode.Exclusive?
    ensures var k := TwoSlots([a, b], 2, [Released, Released], multiset{LATE_SCAN});
            var ms := [Arrive(x, 2), Arrive(y, 3), Pass(LATE_SCAN), Receive(2), Receive(3)];
            && Plays(k, ms)
            && Run(k, ms) == TwoSlots([a, b, x, y], 2, [Released, Released, Held, Held], multiset{})
  {
    TwoArrivalsReuseTheSlots(a, b, x, y);
    LatePassGrants(a, b, x, y);
    var late := multiset{LATE_SCAN};
    var k8, k9 := TwoSlots([a, b], 2, [Released, Released], late), TwoSlots([a, b, x], 2, [Released, Released, Granting], late);
    var k10 := TwoSlots([a, b, x, y], 2, [Released, Released, Granting, Waiting], late);
    var k11 := TwoSlots([a, b, x, y], 2, [Released, Released, Granting, Granting], multiset{});
    var k12 := TwoSlots([a, b, x, y], 2, [Released, Released, Held, Granting], multiset{});
    var k13 := TwoSlots([a, b, x, y], 2, [Released, Released, Held, Held], multiset{});
    PlayOne(k12, Receive(3), k13, []);
    PlayOne(k11, Receive(2), k12, [Receive(3)] + []);
    PlayOne(k10, Pass(LATE_SCAN), k11, [Receive(2)] + ([Receive(3)] + []));
    var r9 := [Pass(LATE_SCAN)] + ([Receive(2)] + ([Receive(3)] + []));
    PlayOne(k9, Arrive(y, 3), k10, r9);
    PlayOne(k8, Arrive(x, 2), k9, [Arrive(y, 3)] + r9);
    assert [Arrive(x, 2)] + ([Arrive(y, 3)] + r9) == [Arrive(x, 2), Arrive(y, 3), Pass(LATE_SCAN), Receive(2), Receive(3)];
  }

  // Without the assumption mutual exclusion is false of the code: in this run from an empty
  // lock two clients end up holding it exclusively.
  lemma LateScanBreaksExclusion(a: Entry, b: Entry, x: Entry, y: Entry)
    requires a.mode.Shared? && b.mode.Shared? && x.mode.Exclusive? && y.mode.Exclusive?
    ensures Plays(Fresh(2), LateMoves(a, b, x, y))
    ensures var k := Run(Fresh(2), LateMoves(a, b, x, y));
            k.r.q.log == [a, b, x, y] && k.status == [Released, Released, Held, Held]
  {
    LateRunSecondHalf(a, b, x, y);
    var rest := [Arrive(x, 2), Arrive(y, 3), Pass(LATE_SCAN), Receive(2), Receive(3)];
    LateRunFirstHalf(a, b, rest);
    assert [Arrive(a, 0), Arrive(b, 1), Receive(0), Receive(1), SendRelease(0), SendRelease(1),
            ReleaseOf(0), ReleaseOf(1)] + rest == LateMoves(a, b, x, y);
  }
}
