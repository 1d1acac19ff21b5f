/**
 The conservation law of a lock: grants under way, grants held, releases under way and grants
 the scan still owes are together as many as the policy's leading run is long.
 */
module Conservation {
  import opened NetLockTypes
  import opened ClientMachine
  import opened LockSystem
  import opened SystemAccounting
  import opened SystemRuns
  import LockRing
  import RwLock

  // ---- What is counted ----

  ghost function GrantsFor(w: World, l: nat): set<GrantPacket> {
    set g | g in w.grants && g.lock == l
  }

  ghost function ReleasesFor(w: World, l: nat): set<ReleasePacket> {
    set r | r in w.releases && r.lock == l
  }

  ghost function ListLength(w: World, who: Client): nat {
    if who in w.nodes && w.nodes[who].Ok() then |w.nodes[who].Grants()| else 0
  }

  // The k-th grant in the list of who is one for lock l that it has not given back.
  ghost predicate HoldsAs(w: World, who: Client, k: nat, l: nat) {
    && who in w.nodes && w.nodes[who].Ok()
    && w.nodes[who].GivenBack() <= k < |w.nodes[who].Grants()| && w.nodes[who].Grants()[k].lock == l
  }

  ghost function Holdings(w: World, l: nat): set<(Client, nat)> {
    set who, k: nat | who in w.nodes && k < ListLength(w, who) && HoldsAs(w, who, k, l) :: (who, k)
  }

  ghost function PositionsIn(k: LockRing.Lock, v: LockRing.Status): set<nat> {
    set p: nat | p < |k.status| && k.status[p] == v
  }

  // Granted by the policy, not yet by the scan.
  ghost function Owed(k: LockRing.Lock): set<nat>
    requires k.r.Ok()
  {
    set p: nat | p < |k.status| && LockRing.Pending(k, p)
  }

  // ---- Packets, list entries and positions ----

  lemma {:induction false} InjectiveSize<A, B>(m: map<A, B>)
    requires forall x, y | x in m && y in m && m[x] == m[y] :: x == y
    ensures |m.Values| == |m.Keys|
    decreases |m.Keys|
  {
    if m.Keys != {} {
      var x :| x in m.Keys;
      var m' := m - {x};
      assert m'.Keys == m.Keys - {x};
      assert forall y | y in m' :: m'[y] == m[y];
      assert m'.Values == m.Values - {m[x]};
      InjectiveSize(m');
    }
  }

  lemma GrantingHasGrant(w: World, l: nat, p: nat)
    requires Inv(w) && AllAccounted(w) && l < |w.locks| && p in PositionsIn(w.locks[l], LockRing.Granting)
    ensures exists g :: g in GrantsFor(w, l) && g.pos == p
  {
    assert LockOk(w, l) && InRing(w, l, p);
    assert PositionAccounted(w, l, p);
    assert GrantPacket(l, p, w.locks[l].r.q.log[p]) in GrantsFor(w, l);
  }

  lemma GrantsAreGranting(w: World, l: nat)
    requires Inv(w) && AllAccounted(w) && l < |w.locks|
    ensures |GrantsFor(w, l)| == |PositionsIn(w.locks[l], LockRing.Granting)|
  {
    var m := map g | g in GrantsFor(w, l) :: g.pos;
    forall g | g in GrantsFor(w, l) ensures GrantOk(w, g) {}
    forall p | p in PositionsIn(w.locks[l], LockRing.Granting)
      ensures p in m.Values
    {
      GrantingHasGrant(w, l, p);
      var g :| g in GrantsFor(w, l) && g.pos == p;
      assert g in m;
    }
    assert m.Values == PositionsIn(w.locks[l], LockRing.Granting);
    assert m.Keys == GrantsFor(w, l);
    InjectiveSize(m);
  }

  lemma ReleasingHasRelease(w: World, l: nat, p: nat)
    requires Inv(w) && AllAccounted(w) && l < |w.locks| && p in PositionsIn(w.locks[l], LockRing.Releasing)
    ensures exists r :: r in ReleasesFor(w, l) && r.pos == p
  {
    assert LockOk(w, l) && InRing(w, l, p);
    assert PositionAccounted(w, l, p);
    assert ReleasePacket(l, p, w.locks[l].r.q.log[p].mode) in ReleasesFor(w, l);
  }

  lemma ReleasesAreReleasing(w: World, l: nat)
    requires Inv(w) && AllAccounted(w) && l < |w.locks|
    ensures |ReleasesFor(w, l)| == |PositionsIn(w.locks[l], LockRing.Releasing)|
  {
    var m := map r | r in ReleasesFor(w, l) :: r.pos;
    forall r | r in ReleasesFor(w, l) ensures ReleaseOk(w, r) {}
    forall p | p in PositionsIn(w.locks[l], LockRing.Releasing)
      ensures p in m.Values
    {
      ReleasingHasRelease(w, l, p);
      var r :| r in ReleasesFor(w, l) && r.pos == p;
      assert r in m;
    }
    assert m.Values == PositionsIn(w.locks[l], LockRing.Releasing);
    assert m.Keys == ReleasesFor(w, l);
    InjectiveSize(m);
  }

  lemma HoldingIsHeld(w: World, who: Client, k: nat, l: nat)
    requires Inv(w) && HoldsAs(w, who, k, l)
    ensures var p := w.nodes[who].Grants()[k].pos;
            InRing(w, l, p) && Status(w, l, p).Held? && w.locks[l].r.q.log[p].Owner() == who
  {
    assert ListOk(w, who, k);
  }

  lemma HeldIsHolding(w: World, l: nat, p: nat)
    requires Inv(w) && AllAccounted(w) && l < |w.locks| && p in PositionsIn(w.locks[l], LockRing.Held)
    ensures exists h :: h in Holdings(w, l) && h.0 in w.nodes && w.nodes[h.0].Ok()
                        && h.1 < |w.nodes[h.0].Grants()| && w.nodes[h.0].Grants()[h.1].pos == p
  {
    assert LockOk(w, l) && InRing(w, l, p);
    assert PositionAccounted(w, l, p);
    var who := w.locks[l].r.q.log[p].Owner();
    var k: nat :| HoldsBy(w, who, l, p, k);
    assert HoldsAs(w, who, k, l);
    assert (who, k) in Holdings(w, l);
  }

  lemma SameHolding(w: World, l: nat, h: (Client, nat), h': (Client, nat))
    requires Inv(w) && HoldsAs(w, h.0, h.1, l) && HoldsAs(w, h'.0, h'.1, l)
    requires w.nodes[h.0].Grants()[h.1].pos == w.nodes[h'.0].Grants()[h'.1].pos
    ensures h == h'
  {
    HoldingIsHeld(w, h.0, h.1, l);
    HoldingIsHeld(w, h'.0, h'.1, l);
    assert Distinct(w.nodes[h.0].Grants());
  }

  ghost function PositionHeld(w: World, l: nat, h: (Client, nat)): nat
    requires HoldsAs(w, h.0, h.1, l)
  {
    w.nodes[h.0].Grants()[h.1].pos
  }

  lemma HoldingsAreHeld(w: World, l: nat)
    requires Inv(w) && AllAccounted(w) && l < |w.locks|
    ensures |Holdings(w, l)| == |PositionsIn(w.locks[l], LockRing.Held)|
  {
    var m := map h | h in Holdings(w, l) :: PositionHeld(w, l, h);
    forall h | h in m
      ensures m[h] in PositionsIn(w.locks[l], LockRing.Held)
    {
      HoldingIsHeld(w, h.0, h.1, l);
    }
    forall p | p in PositionsIn(w.locks[l], LockRing.Held)
      ensures p in m.Values
    {
      HeldIsHolding(w, l, p);
      var h :| h in Holdings(w, l) && w.nodes[h.0].Ok() && h.1 < |w.nodes[h.0].Grants()| && w.nodes[h.0].Grants()[h.1].pos == p;
      assert h in m && m[h] == p;
    }
    forall h, h' | h in m && h' in m && m[h] == m[h'] ensures h == h' { SameHolding(w, l, h, h'); }
    assert m.Values == PositionsIn(w.locks[l], LockRing.Held);
    assert m.Keys == Holdings(w, l);
    InjectiveSize(m);
  }

  // ---- The leading run ----

  ghost function OwedBelow(k: LockRing.Lock, n: nat): set<nat>
    requires k.r.Ok() && n <= |k.status|
  {
    set p: nat | p < n && (LockRing.Out(k, p) || LockRing.Pending(k, p))
  }

  lemma {:induction false} CountOwedIsSize(k: LockRing.Lock, n: nat)
    requires k.r.Ok() && n <= |k.status|
    ensures LockRing.CountOwed(k, n) == |OwedBelow(k, n)|
  {
    if n == 0 {
      assert OwedBelow(k, 0) == {};
    } else {
      CountOwedIsSize(k, n - 1);
      if LockRing.Out(k, n - 1) || LockRing.Pending(k, n - 1) {
        assert OwedBelow(k, n) == OwedBelow(k, n - 1) + {n - 1};
      } else {
        assert OwedBelow(k, n) == OwedBelow(k, n - 1);
      }
    }
  }

  lemma OwedByStage(k: LockRing.Lock)
    requires k.r.Ok()
    ensures |OwedBelow(k, |k.status|)|
         == |PositionsIn(k, LockRing.Granting)| + |PositionsIn(k, LockRing.Held)| + |PositionsIn(k, LockRing.Releasing)| + |Owed(k)|
  {
    var g, h := PositionsIn(k, LockRing.Granting), PositionsIn(k, LockRing.Held);
    var r, o := PositionsIn(k, LockRing.Releasing), Owed(k);
    assert g !! h && (g + h) !! r && (g + h + r) !! o;
    assert OwedBelow(k, |k.status|) == g + h + r + o;
  }

  // Held + grants under way + releases under way + grants owed = the length of the leading run,
  // over the packets and grant lists of the world.
  lemma LeadingRunIsAccounted(w: World, l: nat)
    requires Inv(w) && AllAccounted(w) && l < |w.locks|
    ensures w.locks[l].r.Ok()
    ensures |Holdings(w, l)| + |GrantsFor(w, l)| + |ReleasesFor(w, l)| + |Owed(w.locks[l])|
         == RwLock.GrantEnd(w.locks[l].r.q) - w.locks[l].r.q.popped
  {
    var k := w.locks[l];
    assert LockOk(w, l);
    GrantsAreGranting(w, l);
    HoldingsAreHeld(w, l);
    ReleasesAreReleasing(w, l);
    OwedByStage(k);
    CountOwedIsSize(k, |k.status|);
    LockRing.OwedFillTheRun(k);
  }

  // In every world of every run.
  lemma RunConserves(ws: seq<World>, ts: seq<Step>, i: nat, l: nat)
    requires IsRun(ws, ts) && IsInTime(ws, ts) && i < |ws| && l < |ws[i].locks|
    ensures var w := ws[i];
            && w.locks[l].r.Ok()
            && |Holdings(w, l)| + |GrantsFor(w, l)| + |ReleasesFor(w, l)| + |Owed(w.locks[l])|
               == RwLock.GrantEnd(w.locks[l].r.q) - w.locks[l].r.q.popped
  {
    RunAccounts(ws, ts, i);
    LeadingRunIsAccounted(ws[i], l);
  }
}
