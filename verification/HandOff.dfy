/**
 What a hand-off leaves behind. The release that is sent on to the server is not
 subtracted from the counts, and these decide every later grant.
 */
module HandOff {
  import opened NetLockTypes
  import opened RwLock
  import opened LockRing
  import opened SwitchRegisters
  import LockRun

  function CountsOf(r: Ring): Counts
    requires r.Ok()
  {
    Counts(CountFrom(r.q.log, r.q.popped, Exclusive), CountFrom(r.q.log, r.q.popped, Shared))
  }

  // The release that is handed over comes from the last holder: afterwards nobody holds the
  // lock, and nobody will send a release for it.
  lemma HandOffLeavesNoHolder(k: Lock, p: nat, p': nat)
    requires RunInv(k) && p < |k.status| && k.status[p].Releasing?
    requires HandOff(k.r) && Out(k, p')
    ensures p' == p
  {
    HoldersMatchHead(k, p);
    HandOffExactly(k.r);
    CountUpdate(k.status, p, Released);
    ReleasedFill(k.status[p := Released], |k.status|);
    assert forall i | 0 <= i < |k.status| && i != p :: k.status[p := Released][i] == k.status[i];
  }

  // ---- What can still happen to the lock ----

  // The counts, the requests granted and not yet released, and the packets in recirculation.
  datatype After = After(counts: Counts, out: nat, packets: nat)

  // A request enters the ring, arriving or pushed back; a holder's release or a recirculated
  // packet does whatever it does.
  datatype Event = Enters(e: Entry) | Releases(k: After) | Passes(k: After)

  predicate Possible(k: After, ev: Event) {
    match ev
    case Enters(_) => true
    case Releases(_) => k.out > 0
    case Passes(_) => k.packets > 0
  }

  function Apply(k: After, ev: Event): After {
    match ev
    case Enters(e) => After(Counted(k.counts, e), k.out + (if GrantedByCounts(k.counts, e) then 1 else 0), k.packets)
    case Releases(k') => k'
    case Passes(k') => k'
  }

  ghost predicate Plays(k: After, evs: seq<Event>)
    decreases |evs|
  {
    evs != [] ==> Possible(k, evs[0]) && Plays(Apply(k, evs[0]), evs[1..])
  }

  function Run(k: After, evs: seq<Event>): After
    decreases |evs|
  {
    if evs == [] then k else Run(Apply(k, evs[0]), evs[1..])
  }

  // Nobody has the lock, no packet recirculates and no request that enters is granted: then
  // nothing but further requests can come, and none of them is granted either.
  ghost predicate Stuck(k: After) {
    k.out == 0 && k.packets == 0 && k.counts.exclusive > 0
  }

  lemma {:induction false} StuckForGood(k: After, evs: seq<Event>)
    requires Stuck(k) && Plays(k, evs)
    ensures Stuck(Run(k, evs))
    decreases |evs|
  {
    if evs != [] {
      StuckForGood(Apply(k, evs[0]), evs[1..]);
    }
  }

  ghost predicate HandsOver(k: Lock, p: nat) {
    Inv(k) && p < |k.status| && k.status[p].Releasing? && k.r.Size() > 0 && HandOff(k.r)
  }

  ghost function StillOut(k: Lock, p: nat): set<nat> {
    set q: nat | q < |k.status| && Out(k, q) && q != p
  }

  // Where the release of position p leaves the lock when it is handed over.
  ghost function LeftBehind(k: Lock, p: nat): After
    requires HandsOver(k, p)
  {
    After(CountsOf(k.r), |StillOut(k, p)|, |k.scans|)
  }

  // The lock is served again once the first request has entered.
  ghost predicate Resumes(k: Lock, first: Entry)
    requires k.r.Ok() && k.r.Size() > 0
  {
    k.r.q.log[k.r.q.popped].mode.Shared? && first.mode.Shared?
  }

  // After a hand-off with no packet of the lock in recirculation, the first request to enter
  // is granted if and only if it and the released one are shared; otherwise, over every later
  // run of arrivals, push-backs, releases and passes, nobody is ever granted the lock again.
  lemma ServiceResumesExactly(k: Lock, p: nat, first: Entry, evs: seq<Event>)
    requires HandsOver(k, p) && k.scans == multiset{}
    requires Plays(Apply(LeftBehind(k, p), Enters(first)), evs)
    ensures var k' := Apply(LeftBehind(k, p), Enters(first));
            && LeftBehind(k, p).out == 0
            && (k'.out == 1 <==> Resumes(k, first))
            && (!Resumes(k, first) ==> Run(k', evs).out == 0)
  {
    HandOffExactly(k.r);
    NoExclusiveCounted(k.r.q.log, k.r.q.popped);
    NoExclusiveCounted(k.r.q.log, k.r.q.popped + 1);
    if StillOut(k, p) != {} {
      var q: nat :| q in StillOut(k, p);
      HandOffLeavesNoHolder(k, p, q);
      assert false;
    }
    if !Resumes(k, first) {
      StuckForGood(Apply(LeftBehind(k, p), Enters(first)), evs);
    }
  }

  // ---- With a packet still in recirculation ----

  // What a packet finds when it comes round after the requests es have entered.
  function Found(k: Lock, es: seq<Entry>, s: Scan): Entry
    requires k.r.Ok() && s.head < |k.r.q.log|
  {
    (k.r.q.log + es)[LatestAt(|k.r.q.log| + |es|, k.r.cap, s.head)]
  }

  ghost predicate MayGrant(k: Lock, es: seq<Entry>, s: Scan) {
    && k.r.Ok() && s in k.scans && s.head < |k.r.q.log|
    && |es| <= k.r.cap && PassGrants(s, Found(k, es, s))
  }

  // The condition on recirculation is exact: a packet in flight at the hand-off, and only such
  // a packet, may yet grant a request, one of at most a ring of requests that enter.
  lemma PacketsMayGrantExactly(k: Lock, p: nat)
    requires HandsOver(k, p)
    ensures (exists es, s :: MayGrant(k, es, s)) <==> k.scans != multiset{}
  {
    if s :| s in k.scans {
      assert ScanOk(k, s);
      var n := s.head + k.r.cap - |k.r.q.log|;
      var es := seq(n + 1, _ => LockRun.Victim(s));
      LatestIs(|k.r.q.log| + n + 1, k.r.cap, s.head);
      assert MayGrant(k, es, s);
    }
  }

  lemma LatestIs(size: nat, cap: nat, h: nat)
    requires 1 <= cap && size == h + cap + 1
    ensures LatestAt(size, cap, h) == h + cap
  {
  }

  // Two shared requests hold a lock of two slots, two exclusive ones wait in the server; both
  // holders release.
  function LateMoves(a: Entry, b: Entry, x: Entry, y: Entry): seq<LockRun.Move> {
    [LockRun.Arrive(a, 0), LockRun.Arrive(b, 1), LockRun.Arrive(x, 2), LockRun.Arrive(y, 3), LockRun.Receive(0),
     LockRun.Receive(1), LockRun.SendRelease(0), LockRun.SendRelease(1), LockRun.ReleaseOf(0)]
  }

  // The second release is handed over while the packet of the first is in recirculation. The
  // exclusive requests are pushed back, acquire_lock does not grant them, and the packet
  // grants the second.
  lemma LatePacketGrants(a: Entry, b: Entry, x: Entry, y: Entry)
    requires a.mode.Shared? && b.mode.Shared? && x.mode.Exclusive? && y.mode.Exclusive?
    ensures LockRun.Plays(LockRun.Fresh(2), LateMoves(a, b, x, y))
    ensures var k := LockRun.Run(LockRun.Fresh(2), LateMoves(a, b, x, y));
            && HandsOver(k, 1) && k.r.inServer == 2
            && !GrantedByCounts(CountsOf(k.r), x) && !GrantedByCounts(Counted(CountsOf(k.r), x), y)
            && LockRun.LATE_SCAN in k.scans
            && MayGrant(k, [x, y], LockRun.LATE_SCAN) && Found(k, [x, y], LockRun.LATE_SCAN) == y
  {
    LateRun(a, b, x, y);
    var late := LockRun.LATE_SCAN;
    var k := LockRun.TwoSlots([a, b], 1, [Released, Releasing], multiset{late}, 2);
    LatePacketInv(a, b);
    assert LatestAt(4, 2, 1) == 3;
    assert [a, b] + [x, y] == [a, b, x, y];
    NoExclusiveCounted([a, b], 1);
    assert CountFrom([a, b], 1, Shared) == 1;
  }

  lemma LateRun(a: Entry, b: Entry, x: Entry, y: Entry)
    requires a.mode.Shared? && b.mode.Shared?
    ensures var ms := LateMoves(a, b, x, y);
            && LockRun.Plays(LockRun.Fresh(2), ms)
            && LockRun.Run(LockRun.Fresh(2), ms)
               == LockRun.TwoSlots([a, b], 1, [Released, Releasing], multiset{LockRun.LATE_SCAN}, 2)
  {
    LockRun.SharedPairHolds(a, b);
    LateReleases(a, b);
    var none: multiset<Scan> := multiset{};
    var k1 := LockRun.TwoSlots([a], 0, [Granting], none);
    var k2, k3 := LockRun.TwoSlots([a, b], 0, [Granting, Granting], none, 0), LockRun.TwoSlots([a, b], 0, [Granting, Granting], none, 1);
    var k4 := LockRun.TwoSlots([a, b], 0, [Granting, Granting], none, 2);
    var r4 := [LockRun.Receive(0), LockRun.Receive(1), LockRun.SendRelease(0), LockRun.SendRelease(1), LockRun.ReleaseOf(0)];
    LockRun.PlayOne(k3, LockRun.Arrive(y, 3), k4, r4);
    LockRun.PlayOne(k2, LockRun.Arrive(x, 2), k3, [LockRun.Arrive(y, 3)] + r4);
    var r2 := [LockRun.Arrive(x, 2)] + ([LockRun.Arrive(y, 3)] + r4);
    LockRun.PlayOne(k1, LockRun.Arrive(b, 1), k2, r2);
    LockRun.PlayOne(LockRun.Fresh(2), LockRun.Arrive(a, 0), k1, [LockRun.Arrive(b, 1)] + r2);
    assert [LockRun.Arrive(a, 0)] + ([LockRun.Arrive(b, 1)] + r2) == LateMoves(a, b, x, y);
  }

  lemma LateReleases(a: Entry, b: Entry)
    requires a.mode.Shared? && b.mode.Shared?
    ensures var k := LockRun.TwoSlots([a, b], 0, [Granting, Granting], multiset{}, 2);
            var ms := [LockRun.Receive(0), LockRun.Receive(1), LockRun.SendRelease(0), LockRun.SendRelease(1), LockRun.ReleaseOf(0)];
            && LockRun.Plays(k, ms)
            && LockRun.Run(k, ms) == LockRun.TwoSlots([a, b], 1, [Released, Releasing], multiset{LockRun.LATE_SCAN}, 2)
  {
    var none: multiset<Scan> := multiset{};
    var k4, k5 := LockRun.TwoSlots([a, b], 0, [Granting, Granting], none, 2), LockRun.TwoSlots([a, b], 0, [Held, Granting], none, 2);
    var k6, k7 := LockRun.TwoSlots([a, b], 0, [Held, Held], none, 2), LockRun.TwoSlots([a, b], 0, [Releasing, Held], none, 2);
    var k8 := LockRun.TwoSlots([a, b], 0, [Releasing, Releasing], none, 2);
    var k9 := LockRun.TwoSlots([a, b], 1, [Released, Releasing], multiset{LockRun.LATE_SCAN}, 2);
    LockRun.PlayOne(k8, LockRun.ReleaseOf(0), k9, []);
    LockRun.PlayOne(k7, LockRun.SendRelease(1), k8, [LockRun.ReleaseOf(0)] + []);
    var r7 := [LockRun.SendRelease(1)] + ([LockRun.ReleaseOf(0)] + []);
    LockRun.PlayOne(k6, LockRun.SendRelease(0), k7, r7);
    LockRun.PlayOne(k5, LockRun.Receive(1), k6, [LockRun.SendRelease(0)] + r7);
    LockRun.PlayOne(k4, LockRun.Receive(0), k5, [LockRun.Receive(1)] + ([LockRun.SendRelease(0)] + r7));
    assert [LockRun.Receive(0)] + ([LockRun.Receive(1)] + ([LockRun.SendRelease(0)] + r7)) ==
      [LockRun.Receive(0), LockRun.Receive(1), LockRun.SendRelease(0), LockRun.SendRelease(1), LockRun.ReleaseOf(0)];
  }

  lemma LatePacketInv(a: Entry, b: Entry)
    requires a.mode.Shared? && b.mode.Shared?
    ensures Inv(LockRun.TwoSlots([a, b], 1, [Released, Releasing], multiset{LockRun.LATE_SCAN}, 2))
  {
    var st := [Released, Releasing];
    assert st[..1] == [Released] && st[..1][..0] == [];
    assert CountReleased(st) == 1;
    FirstExclusiveIs([a, b], 1, 2);
  }

  // ---- A run in which nobody gets the lock again ----

  // Two exclusive requests take a lock of two slots one after the other while a third waits in
  // the server.
  function StuckMoves(a: Entry, b: Entry, c: Entry): seq<LockRun.Move> {
    [LockRun.Arrive(a, 0), LockRun.Arrive(b, 1), LockRun.Arrive(c, 2), LockRun.Receive(0), LockRun.SendRelease(0),
     LockRun.ReleaseOf(0), LockRun.Pass(Scan(false, 1, 2, Exclusive)), LockRun.Receive(1), LockRun.SendRelease(1)]
  }

  lemma ExclusivePairQueues(a: Entry, b: Entry)
    requires a.mode.Exclusive? && b.mode.Exclusive?
    ensures Enter(LockRun.Fresh(2), a, 0) == LockRun.TwoSlots([a], 0, [Granting], multiset{})
    ensures Enter(LockRun.TwoSlots([a], 0, [Granting], multiset{}), b, 1)
         == LockRun.TwoSlots([a, b], 0, [Granting, Waiting], multiset{})
  {
    AdmitsWhen(Queue([], 0), a);
    AdmitsWhen(Queue([a], 0), b);
    assert [a] + [b] == [a, b];
  }

  lemma StuckRun(a: Entry, b: Entry, c: Entry)
    requires a.mode.Exclusive? && b.mode.Exclusive?
    ensures LockRun.Plays(LockRun.Fresh(2), StuckMoves(a, b, c))
    ensures LockRun.Run(LockRun.Fresh(2), StuckMoves(a, b, c))
         == LockRun.TwoSlots([a, b], 1, [Released, Releasing], multiset{}, 1)
  {
    ExclusivePairQueues(a, b);
    PairReleases(a, b);
    var none: multiset<Scan> := multiset{};
    var k1, k2 := LockRun.TwoSlots([a], 0, [Granting], none), LockRun.TwoSlots([a, b], 0, [Granting, Waiting], none);
    var k3 := LockRun.TwoSlots([a, b], 0, [Granting, Waiting], none, 1);
    var r3 := [LockRun.Receive(0), LockRun.SendRelease(0), LockRun.ReleaseOf(0),
               LockRun.Pass(Scan(false, 1, 2, Exclusive)), LockRun.Receive(1), LockRun.SendRelease(1)];
    LockRun.PlayOne(k2, LockRun.Arrive(c, 2), k3, r3);
    LockRun.PlayOne(k1, LockRun.Arrive(b, 1), k2, [LockRun.Arrive(c, 2)] + r3);
    LockRun.PlayOne(LockRun.Fresh(2), LockRun.Arrive(a, 0), k1, [LockRun.Arrive(b, 1)] + ([LockRun.Arrive(c, 2)] + r3));
    assert [LockRun.Arrive(a, 0)] + ([LockRun.Arrive(b, 1)] + ([LockRun.Arrive(c, 2)] + r3)) == StuckMoves(a, b, c);
  }

  lemma PairReleases(a: Entry, b: Entry)
    requires a.mode.Exclusive? && b.mode.Exclusive?
    ensures var k := LockRun.TwoSlots([a, b], 0, [Granting, Waiting], multiset{}, 1);
            var ms := [LockRun.Receive(0), LockRun.SendRelease(0), LockRun.ReleaseOf(0),
                       LockRun.Pass(Scan(false, 1, 2, Exclusive)), LockRun.Receive(1), LockRun.SendRelease(1)];
            && LockRun.Plays(k, ms)
            && LockRun.Run(k, ms) == LockRun.TwoSlots([a, b], 1, [Released, Releasing], multiset{}, 1)
  {
    var none: multiset<Scan> := multiset{};
    var k0, k1 := LockRun.TwoSlots([a, b], 0, [Granting, Waiting], none, 1), LockRun.TwoSlots([a, b], 0, [Held, Waiting], none, 1);
    var k2 := LockRun.TwoSlots([a, b], 0, [Releasing, Waiting], none, 1);
    SecondTakesOver(a, b);
    var r2 := [LockRun.ReleaseOf(0), LockRun.Pass(Scan(false, 1, 2, Exclusive)), LockRun.Receive(1), LockRun.SendRelease(1)];
    LockRun.PlayOne(k1, LockRun.SendRelease(0), k2, r2);
    LockRun.PlayOne(k0, LockRun.Receive(0), k1, [LockRun.SendRelease(0)] + r2);
    assert [LockRun.Receive(0)] + ([LockRun.SendRelease(0)] + r2) ==
           [LockRun.Receive(0), LockRun.SendRelease(0), LockRun.ReleaseOf(0),
            LockRun.Pass(Scan(false, 1, 2, Exclusive)), LockRun.Receive(1), LockRun.SendRelease(1)];
  }

  // The first release wakes the second request, which releases in turn.
  lemma SecondTakesOver(a: Entry, b: Entry)
    requires a.mode.Exclusive? && b.mode.Exclusive?
    ensures var k := LockRun.TwoSlots([a, b], 0, [Releasing, Waiting], multiset{}, 1);
            var ms := [LockRun.ReleaseOf(0), LockRun.Pass(Scan(false, 1, 2, Exclusive)), LockRun.Receive(1), LockRun.SendRelease(1)];
            && LockRun.Plays(k, ms)
            && LockRun.Run(k, ms) == LockRun.TwoSlots([a, b], 1, [Released, Releasing], multiset{}, 1)
  {
    var none: multiset<Scan> := multiset{};
    var s := Scan(false, 1, 2, Exclusive);
    var k2, k3 := LockRun.TwoSlots([a, b], 0, [Releasing, Waiting], none, 1),
                  LockRun.TwoSlots([a, b], 1, [Released, Waiting], multiset{s}, 1);
    var k4, k5 := LockRun.TwoSlots([a, b], 1, [Released, Granting], none, 1), LockRun.TwoSlots([a, b], 1, [Released, Held], none, 1);
    var k6 := LockRun.TwoSlots([a, b], 1, [Released, Releasing], none, 1);
    assert LatestAt(2, 2, 1) == 1;
    assert multiset{s} - multiset{s} + multiset{} == none;
    LockRun.PlayOne(k5, LockRun.SendRelease(1), k6, []);
    LockRun.PlayOne(k4, LockRun.Receive(1), k5, [LockRun.SendRelease(1)] + []);
    var r4 := [LockRun.Receive(1)] + ([LockRun.SendRelease(1)] + []);
    LockRun.PlayOne(k3, LockRun.Pass(s), k4, r4);
    LockRun.PlayOne(k2, LockRun.ReleaseOf(0), k3, [LockRun.Pass(s)] + r4);
    assert [LockRun.ReleaseOf(0)] + ([LockRun.Pass(s)] + r4) ==
           [LockRun.ReleaseOf(0), LockRun.Pass(s), LockRun.Receive(1), LockRun.SendRelease(1)];
  }

  // The second release is handed over with nothing in recirculation. The request that waits in
  // the server is pushed back, and neither it nor any later request is ever granted.
  lemma NobodyGetsItAgain(a: Entry, b: Entry, c: Entry, evs: seq<Event>)
    requires a.mode.Exclusive? && b.mode.Exclusive?
    ensures LockRun.Plays(LockRun.Fresh(2), StuckMoves(a, b, c))
    ensures var k := LockRun.Run(LockRun.Fresh(2), StuckMoves(a, b, c));
            && HandsOver(k, 1) && k.scans == multiset{} && k.r.inServer == 1
            && (Plays(Apply(LeftBehind(k, 1), Enters(c)), evs) ==> Run(Apply(LeftBehind(k, 1), Enters(c)), evs).out == 0)
  {
    StuckRun(a, b, c);
    var k := LockRun.TwoSlots([a, b], 1, [Released, Releasing], multiset{}, 1);
    StuckInv(a, b);
    if Plays(Apply(LeftBehind(k, 1), Enters(c)), evs) {
      ServiceResumesExactly(k, 1, c, evs);
    }
  }

  lemma StuckInv(a: Entry, b: Entry)
    requires a.mode.Exclusive? && b.mode.Exclusive?
    ensures Inv(LockRun.TwoSlots([a, b], 1, [Released, Releasing], multiset{}, 1))
  {
    var st := [Released, Releasing];
    assert st[..1] == [Released] && st[..1][..0] == [];
    assert CountReleased(st) == 1;
    FirstExclusiveIs([a, b], 1, 1);
  }
}
