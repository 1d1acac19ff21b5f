/** The theorems about every reachable state of the whole system. */
module SystemTheorems {
  import opened NetLockTypes
  import opened ClientMachine
  import opened LockSystem
  import opened SystemSends
  import opened SystemSwitch
  import opened SystemRuns
  import SystemPlays
  import LockRing
  import CI = ClientInvariant

  ghost predicate Reaches(ws: seq<World>, ts: seq<Step>, w: World) {
    IsRun(ws, ts) && IsInTime(ws, ts) && ws[|ts|] == w
  }

  ghost predicate Reachable(w: World) {
    exists ws, ts :: Reaches(ws, ts, w)
  }

  lemma ReachableInv(w: World)
    requires Reachable(w)
    ensures Inv(w)
  {
    var ws, ts :| Reaches(ws, ts, w);
    RunKeepsInv(ws, ts, |ts|);
  }

  ghost predicate Excludes(w: World, who: Client, who': Client, l: nat, p: nat, p': nat) {
    && InRing(w, l, p) && InRing(w, l, p')
    && (w.locks[l].r.q.log[p].mode.Exclusive? ==> who == who' && p == p')
  }

  // An exclusive holder of a lock is its only holder, across all clients.
  lemma MutualExclusion(w: World, who: Client, who': Client, l: nat, p: nat, p': nat)
    requires Reachable(w)
    ensures Holds(w, who, l, p) && Holds(w, who', l, p') ==> Excludes(w, who, who', l, p, p')
  {
    ReachableInv(w);
    if Holds(w, who, l, p) && Holds(w, who', l, p') {
      HolderIsOut(w, who, l, p);
      HolderIsOut(w, who', l, p');
      if w.locks[l].r.q.log[p].mode.Exclusive? {
        ExclusiveHolderIsAlone(w, who, who', l, p, p');
      }
    }
  }

  // Only holders release: a release that reaches the switch was sent for a request that has
  // the lock, its mode is the mode of the head it pops, and the queue is not empty.
  lemma OnlyHoldersRelease(w: World, r: ReleasePacket)
    requires Reachable(w) && r in w.releases
    ensures InRing(w, r.lock, r.pos) && LockRing.Out(w.locks[r.lock], r.pos)
    ensures var ring := w.locks[r.lock].r;
            ring.Ok() && ring.Size() > 0 && r.mode == ring.q.log[ring.q.popped].mode
  {
    ReachableInv(w);
    ReleaseHasHead(w, r);
  }

  // A transaction that is about to commit holds a lock for every row of its attempt.
  ghost predicate HoldsRow(w: World, who: Client, i: nat, p: nat) {
    && who in w.nodes && i < |w.nodes[who].load.trace|
    && var row := w.nodes[who].load.trace[i];
       && row.tid == w.nodes[who].c.lastTxn
       && Holds(w, who, row.lock, p) && InRing(w, row.lock, p)
       && w.locks[row.lock].r.q.log[p].mode == row.mode
  }

  lemma CommitHolds(w: World, who: Client, expired: bool, i: nat) returns (p: nat)
    requires Inv(w) && who in w.nodes && OutcomeOf(w, who, expired).action.Committed?
    requires InTransaction(w.nodes[who], i)
    ensures HoldsRow(w, who, i, p)
  {
    assert NodeOk(w, who);
    var node := w.nodes[who];
    CI.TurnKinds(node.load, node.c, |node.places| - node.base, expired);
    var k := AllAnswered(w, who, node.base + (i - node.c.lastTxnIdx));
    NumberInAttempt(w, who, k);
    p := node.Grants()[k].pos;
    assert HoldsBy(w, who, node.Grants()[k].lock, p, k);
  }

  // Two-phase commit: a transaction that is counted as committed holds, at that moment, a
  // lock for each of the acquires the trace has for it, in the mode of its row.
  lemma CommittedHoldsAll(w: World, who: Client, expired: bool, i: nat) returns (p: nat)
    requires Reachable(w)
    ensures Inv(w)
    ensures who in w.nodes && OutcomeOf(w, who, expired).action.Committed? && InTransaction(w.nodes[who], i)
            ==> HoldsRow(w, who, i, p)
  {
    ReachableInv(w);
    p := 0;
    if who in w.nodes && OutcomeOf(w, who, expired).action.Committed? && InTransaction(w.nodes[who], i) {
      p := CommitHolds(w, who, expired, i);
    }
  }

  // Row i is one of the rows of the client's transaction, as many as locks_each_txn says.
  ghost predicate InTransaction(node: Node, i: nat) {
    && node.c.lastTxn < |node.load.locksEach|
    && node.c.lastTxnIdx <= i < node.c.lastTxnIdx + node.load.locksEach[node.c.lastTxn]
  }

  // No stale grants: a packet to or from a client belongs to its current attempt. When the
  // first acquire of an attempt has just been sent, it is the only packet of the client on
  // any link but for releases, and every earlier acquire has been granted and given back.
  lemma NothingStale(w: World, who: Client)
    requires Reachable(w) && who in w.nodes && |w.nodes[who].places| <= w.nodes[who].base + 1
    ensures var node := w.nodes[who];
            && (forall a | a in w.acquires && a.e.Owner() == who :: a.n == node.base)
            && (forall g | g in w.grants && g.e.Owner() == who ::
                  InRing(w, g.lock, g.pos) && w.locks[g.lock].tags[g.pos] == node.base)
            && (forall n: nat | n < node.base && n < |node.places| ::
                  node.places[n].At? && InRing(w, node.places[n].lock, node.places[n].pos)
                  && GivenUp(w, node.places[n].lock, node.places[n].pos))
  {
    ReachableInv(w);
    var node := w.nodes[who];
    forall a | a in w.acquires && a.e.Owner() == who ensures a.n == node.base { assert AcquireOk(w, a); }
    forall g | g in w.grants && g.e.Owner() == who
      ensures InRing(w, g.lock, g.pos) && w.locks[g.lock].tags[g.pos] == node.base
    {
      GrantAnswers(w, g);
    }
    forall n: nat | n < node.base && n < |node.places|
      ensures node.places[n].At? && InRing(w, node.places[n].lock, node.places[n].pos)
              && GivenUp(w, node.places[n].lock, node.places[n].pos)
    {
      assert PlaceOk(w, who, n);
    }
  }

  lemma ReachablePlays(w: World)
    requires Reachable(w)
    ensures SystemPlays.AllPlay(w)
  {
    var ws, ts :| Reaches(ws, ts, w);
    SystemPlays.RunPlays(ws, ts, |ts|);
  }

  // A roll-back resumes at the first row of the transaction it gives up.
  lemma RollBackResumes(w: World, who: Client, expired: bool)
    requires Reachable(w)
    ensures Inv(w)
    ensures who in w.nodes && OutcomeOf(w, who, expired).action.RolledBack?
            ==> Resumes(w.nodes[who], OutcomeOf(w, who, expired).c)
  {
    ReachableInv(w);
    ReachablePlays(w);
    if who in w.nodes {
      assert NodeOk(w, who) && SystemPlays.NodePlays(w.nodes[who]);
      var node := w.nodes[who];
      CI.TurnKinds(node.load, node.c, |node.places| - node.base, expired);
    }
  }

  // The client goes on as c, at the row where the attempt it was in began: the first row of its
  // transaction, for the row in front of it is of another one.
  ghost predicate Resumes(node: Node, c: State) {
    && c.idx == node.c.lastTxnIdx < |node.load.trace|
    && (c.idx == 0 || node.load.trace[c.idx - 1].tid != node.load.trace[c.idx].tid)
    && (node.base < |node.places| ==> node.load.trace[c.idx].tid == node.c.lastTxn == c.lastTxn)
  }
}
