/**
 The receive core appends grants while the transmit core waits for a transaction: txn_r is read
 once for each of the two tests and once more for the releases.
 */
module ClientRace {
  import opened NetLockTypes
  import opened ClientMachine
  import opened ClientInvariant

  function ReceiveAll(c: State, gs: seq<Grant>): (c': State)
    requires c.lastTxn < |c.queues| == |c.txnR| && forall g | g in gs :: g.tid == c.lastTxn
    ensures c'.lastTxn == c.lastTxn && |c'.queues| == |c.queues| && |c'.txnR| == |c.txnR|
    ensures c'.txnR[c.lastTxn] == c.txnR[c.lastTxn] + |gs|
    ensures c' == c.(queues := c'.queues, txnR := c'.txnR)
    ensures c'.queues[c.lastTxn] == c.queues[c.lastTxn] + gs
    ensures forall t | 0 <= t < |c.queues| && t != c.lastTxn :: c'.queues[t] == c.queues[t] && c'.txnR[t] == c.txnR[t]
  {
    if gs == [] then c else
      var n := |gs| - 1;
      assert gs == gs[..n] + [gs[n]] && gs[n] in gs;
      Receive(ReceiveAll(c, gs[..n]), gs[n])
  }

  // The grants answer acquires of the attempt.
  ghost predicate Answer(c: State, m: nat, gs: seq<Grant>)
    requires c.lastTxn < |c.queues|
  {
    (forall g | g in gs :: g.tid == c.lastTxn) && |c.queues[c.lastTxn]| + |gs| <= m
  }

  lemma {:induction false} ReceiveAllKeepsInv(w: Workload, c: State, m: nat, gs: seq<Grant>)
    requires Inv(w, c, m) && Answer(c, m, gs)
    ensures Inv(w, ReceiveAll(c, gs), m)
    decreases |gs|
  {
    if gs != [] {
      var n := |gs| - 1;
      assert gs == gs[..n] + [gs[n]] && gs[n] in gs;
      ReceiveAllKeepsInv(w, c, m, gs[..n]);
      ReceiveKeepsInv(w, ReceiveAll(c, gs[..n]), m, gs[n]);
    }
  }

  // AskFor with the grants early arriving between the two tests, and late behind the second.
  function RacedAskFor(w: Workload, c: State, row: Row, early: seq<Grant>, late: seq<Grant>, expired: bool): Outcome
    requires Shape(w, c) && row.tid < |w.locksEach| && forall g | g in early + late :: g.tid == c.lastTxn
  {
    assert forall g | g in early :: g in early + late;
    assert forall g | g in late :: g in early + late;
    var last := c.lastTxn;
    var c1 := ReceiveAll(c, early);
    var c2 := ReceiveAll(c1, late);
    if c.txnR[last] == w.locksEach[last] then Proceed(Finish(c), row, Unreleased(c))
    else if c1.txnR[last] < w.locksEach[last] then
      if expired then Outcome(ReleaseEarly(c2), TimedOut, Unreleased(c2), None)
      else Outcome(c2, Idle, [], None)
    else Proceed(c1, row, [])
  }

  // The last grant of the transaction arrives between the two tests: neither of them holds.
  predicate SlipsThrough(w: Workload, c: State, early: seq<Grant>)
    requires c.lastTxn < |c.txnR| == |w.locksEach|
  {
    c.txnR[c.lastTxn] < w.locksEach[c.lastTxn] <= c.txnR[c.lastTxn] + |early|
  }

  lemma WithoutGrants(w: Workload, c: State, row: Row, expired: bool)
    requires Shape(w, c) && row.tid < |w.locksEach| && row.tid != c.lastTxn
    ensures RacedAskFor(w, c, row, [], [], expired) == AskFor(w, c, row, expired)
  {
  }

  lemma EarlyReleaseKeepsInv(w: Workload, c: State, m: nat)
    requires Inv(w, c, m) && w.trace[Wrapped(w, c).idx].tid != c.lastTxn
    ensures Inv(w, ReleaseEarly(c), m)
  {
  }

  lemma EndingRace(w: Workload, c: State, m: nat, early: seq<Grant>, late: seq<Grant>, expired: bool) returns (m': nat)
    requires Inv(w, c, m) && c.idx < |w.trace| && w.trace[c.idx].tid != c.lastTxn && Answer(c, m, early + late)
    requires c.txnR[c.lastTxn] == w.locksEach[c.lastTxn]
    ensures Inv(w, RacedAskFor(w, c, w.trace[c.idx], early, late, expired).c, m')
  {
    SentAtMostAll(w, c, m);
    assert early == [] && late == [];
    WithoutGrants(w, c, w.trace[c.idx], expired);
    TurnKinds(w, c, m, expired);
    m' := if Turn(w, c, expired).action.Committed? then 1 else 0;
  }

  lemma WaitingRace(w: Workload, c: State, m: nat, early: seq<Grant>, late: seq<Grant>, expired: bool)
    requires Inv(w, c, m) && c.idx < |w.trace| && w.trace[c.idx].tid != c.lastTxn && Answer(c, m, early + late)
    requires c.txnR[c.lastTxn] + |early| < w.locksEach[c.lastTxn]
    ensures Inv(w, RacedAskFor(w, c, w.trace[c.idx], early, late, expired).c, m)
  {
    assert forall g | g in early :: g in early + late;
    assert forall g | g in late :: g in early + late;
    var c1 := ReceiveAll(c, early);
    ReceiveAllKeepsInv(w, c, m, early);
    ReceiveAllKeepsInv(w, c1, m, late);
    EarlyReleaseKeepsInv(w, ReceiveAll(c1, late), m);
  }

  // A list that is left behind by its transaction is never released: no attempt owns it.
  lemma LeftBehind(w: Workload, c: State, m: nat, t: nat)
    requires t < |c.queues| && c.queues[t] != [] && t != c.lastTxn
    ensures !Inv(w, c, m)
  {
  }

  // Nor can an attempt be rolled back to that holds grants.
  lemma RolledBackWithGrants(w: Workload, c: State, m: nat)
    requires Shape(w, c) && c.queues[c.lastTxn] != []
    ensures !Inv(w, RollBack(c), m)
  {
  }

  lemma SlippedTurnLeaks(w: Workload, c: State, m: nat, early: seq<Grant>, late: seq<Grant>, expired: bool, m': nat)
    requires Inv(w, c, m) && c.idx < |w.trace| && w.trace[c.idx].tid != c.lastTxn && Answer(c, m, early + late)
    requires SlipsThrough(w, c, early)
    ensures !Inv(w, RacedAskFor(w, c, w.trace[c.idx], early, late, expired).c, m')
  {
    assert forall g | g in early :: g in early + late;
    var row, c1, o := w.trace[c.idx], ReceiveAll(c, early), RacedAskFor(w, c, w.trace[c.idx], early, late, expired);
    assert c1.queues[c.lastTxn] != [];
    if o.action.RolledBack? {
      RolledBackWithGrants(w, c1, m');
    } else {
      LeftBehind(w, o.c, m', c.lastTxn);
    }
  }

  // With the receive core running beside it, a turn leaves the client in a proper attempt if and
  // only if the last grant of the waiting transaction does not arrive between its two tests. If
  // it does, the client goes on to the next transaction without releasing a lock of this one.
  lemma RaceIsSafeExactly(w: Workload, c: State, m: nat, early: seq<Grant>, late: seq<Grant>, expired: bool)
    requires Inv(w, c, m) && c.idx < |w.trace| && w.trace[c.idx].tid != c.lastTxn && Answer(c, m, early + late)
    ensures (exists m' :: Inv(w, RacedAskFor(w, c, w.trace[c.idx], early, late, expired).c, m'))
            <==> !SlipsThrough(w, c, early)
    ensures SlipsThrough(w, c, early) ==>
              RacedAskFor(w, c, w.trace[c.idx], early, late, expired).releases == []
              && |RacedAskFor(w, c, w.trace[c.idx], early, late, expired).c.queues[c.lastTxn]| == w.locksEach[c.lastTxn]
  {
    var o := RacedAskFor(w, c, w.trace[c.idx], early, late, expired);
    SentAtMostAll(w, c, m);
    if SlipsThrough(w, c, early) {
      forall m' ensures !Inv(w, o.c, m') { SlippedTurnLeaks(w, c, m, early, late, expired, m'); }
    } else {
      if c.txnR[c.lastTxn] == w.locksEach[c.lastTxn] {
        var m' := EndingRace(w, c, m, early, late, expired);
      } else {
        WaitingRace(w, c, m, early, late, expired);
      }
    }
  }
}
