/**
 Runs in which a release of a lock is processed only once the packet of the release before
 it is out of recirculation: these need no assumption on the speed of recirculation.
 */
module SystemSerial {
  import opened NetLockTypes
  import opened ClientMachine
  import opened LockSystem
  import opened SystemReleases
  import opened SystemSends
  import opened SystemSwitch
  import opened SystemArrivals
  import opened SystemRuns
  import opened SystemTheorems
  import LockRing
  import LockRun

  // No packet in recirculation lags behind the head of its lock's ring.
  ghost predicate ScansAhead(w: World) {
    forall l | 0 <= l < |w.locks| :: LockRun.ScansAhead(w.locks[l])
  }

  // A release of a lock is processed only when no packet of the lock is in recirculation.
  ghost predicate OneScanAtATime(w: World, t: Step)
    requires Enabled(w, t)
  {
    t.ReleaseArrived? ==> w.locks[t.r.lock].scans == multiset{}
  }

  ghost predicate OneScanAt(ws: seq<World>, ts: seq<Step>, i: nat)
    requires i < |ts| && |ws| == |ts| + 1
  {
    Enabled(ws[i], ts[i]) ==> OneScanAtATime(ws[i], ts[i])
  }

  ghost predicate IsSerial(ws: seq<World>, ts: seq<Step>) {
    |ws| == |ts| + 1 && forall i: nat | i < |ts| :: OneScanAt(ws, ts, i)
  }

  lemma AheadIsInTime(w: World, t: Step)
    requires ScansAhead(w) && Enabled(w, t)
    ensures InTime(w, t)
  {
    if t.AcquireArrived? {
      assert LockRun.ScansAhead(w.locks[t.a.lock]);
    }
  }

  ghost predicate SameRings(w: World, w': World) {
    && |w'.locks| == |w.locks|
    && forall l | 0 <= l < |w.locks| :: w'.locks[l].r == w.locks[l].r && w'.locks[l].scans == w.locks[l].scans
  }

  // A client's turn is not felt by any ring.
  lemma TurnKeepsRings(w: World, who: Client, expired: bool, tsHi: nat, tsLo: nat)
    requires Inv(w) && CanTurn(w, who)
    ensures SameRings(w, TakeTurn(w, who, expired, tsHi, tsLo))
  {
    TurnAcquires(w, who, expired);
  }

  lemma DeliveryKeepsRings(w: World, g: GrantPacket)
    requires Inv(w) && CanDeliver(w, g)
    ensures SameRings(w, Deliver(w, g))
  {
    GrantAnswers(w, g);
  }

  lemma SameRingsAhead(w: World, w': World)
    requires ScansAhead(w) && SameRings(w, w')
    ensures ScansAhead(w')
  {
    forall l | 0 <= l < |w'.locks| ensures LockRun.ScansAhead(w'.locks[l]) { assert LockRun.ScansAhead(w.locks[l]); }
  }

  lemma ArrivalStaysAhead(w: World, a: AcquirePacket)
    requires ScansAhead(w) && CanArrive(w, a)
    ensures ScansAhead(Arrive(w, a))
  {
    var w' := Arrive(w, a);
    forall l | 0 <= l < |w'.locks| ensures LockRun.ScansAhead(w'.locks[l]) { assert LockRun.ScansAhead(w.locks[l]); }
  }

  lemma ReleaseStaysAhead(w: World, r: ReleasePacket)
    requires ScansAhead(w) && CanRelease(w, r) && w.locks[r.lock].scans == multiset{}
    ensures ScansAhead(ReleaseAtSwitch(w, r))
  {
    var w' := ReleaseAtSwitch(w, r);
    forall l | 0 <= l < |w'.locks| ensures LockRun.ScansAhead(w'.locks[l]) { assert LockRun.ScansAhead(w.locks[l]); }
  }

  lemma PassStaysAhead(w: World, l: nat, s: LockRing.Scan)
    requires ScansAhead(w) && Inv(w) && CanPass(w, l, s)
    ensures ScansAhead(PassAtSwitch(w, l, s))
  {
    PassReads(w, l, s);
    var w' := PassAtSwitch(w, l, s);
    forall m | 0 <= m < |w'.locks| ensures LockRun.ScansAhead(w'.locks[m]) { assert LockRun.ScansAhead(w.locks[m]); }
  }

  lemma NextStaysAhead(w: World, t: Step)
    requires ScansAhead(w) && Inv(w) && Enabled(w, t) && OneScanAtATime(w, t)
    ensures ScansAhead(Next(w, t))
  {
    match t
    case ClientTurn(who, expired, tsHi, tsLo) =>
      TurnKeepsRings(w, who, expired, tsHi, tsLo);
      SameRingsAhead(w, Next(w, t));
    case GrantDelivered(g) =>
      DeliveryKeepsRings(w, g);
      SameRingsAhead(w, Next(w, t));
    case AcquireArrived(a) => ArrivalStaysAhead(w, a);
    case ReleaseArrived(r) => ReleaseStaysAhead(w, r);
    case PacketRecirculated(l, s) => PassStaysAhead(w, l, s);
  }

  lemma {:induction false} SerialRunKeepsInv(ws: seq<World>, ts: seq<Step>, i: nat)
    requires IsRun(ws, ts) && IsSerial(ws, ts) && i < |ws|
    ensures Inv(ws[i]) && ScansAhead(ws[i])
    ensures i < |ts| ==> InTimeAt(ws, ts, i)
  {
    if i == 0 {
      InitialInv(ws[0]);
      forall l | 0 <= l < |ws[0].locks| ensures LockRun.ScansAhead(ws[0].locks[l]) { }
    } else {
      SerialRunKeepsInv(ws, ts, i - 1);
      assert StepAt(ws, ts, i - 1) && OneScanAt(ws, ts, i - 1);
      NextStaysAhead(ws[i - 1], ts[i - 1]);
      NextKeepsInv(ws[i - 1], ts[i - 1]);
    }
    if i < |ts| && Enabled(ws[i], ts[i]) {
      AheadIsInTime(ws[i], ts[i]);
    }
  }

  // So every theorem about reachable states holds with one scan of a lock at a time and
  // nothing else assumed: the run itself is only asked to take possible steps.
  lemma SerialIsReachable(ws: seq<World>, ts: seq<Step>)
    requires IsRun(ws, ts) && IsSerial(ws, ts)
    ensures IsInTime(ws, ts) && Reachable(ws[|ts|])
  {
    forall i: nat | i < |ts|
      ensures InTimeAt(ws, ts, i)
    {
      SerialRunKeepsInv(ws, ts, i);
    }
    assert Reaches(ws, ts, ws[|ts|]);
  }
}
