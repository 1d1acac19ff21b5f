/**
 Nothing is lost: every request that was granted has its grant under way, or is held by its
 client, or has its release under way. With the scan's debts these are the policy's leading run.
 */
module SystemAccounting {
  import opened NetLockTypes
  import opened ClientMachine
  import opened LockSystem
  import opened SystemReleases
  import opened SystemSends
  import opened SystemSwitch
  import opened SystemArrivals
  import opened SystemRuns
  import LockRing
  import RwLock
  import CI = ClientInvariant

  // The request at a ring position is where its stage says.
  ghost predicate PositionAccounted(w: World, l: nat, p: nat)
    requires InRing(w, l, p)
  {
    var e := w.locks[l].r.q.log[p];
    match Status(w, l, p)
    case Granting => GrantPacket(l, p, e) in w.grants
    case Held => Holds(w, e.Owner(), l, p)
    case Releasing => ReleasePacket(l, p, e.mode) in w.releases
    case _ => true
  }

  ghost predicate Sent(w: World, who: Client, n: nat) {
    exists a :: a in w.acquires && a.e.Owner() == who && a.n == n
  }

  // An acquire that has not reached the switch is under way to it.
  ghost predicate PlaceAccounted(w: World, who: Client, n: nat)
    requires who in w.nodes && n < |w.nodes[who].places|
  {
    w.nodes[who].places[n].Flying? ==> Sent(w, who, n)
  }

  ghost predicate PlacesAccounted(w: World) {
    forall who, n: nat | who in w.nodes && n < |w.nodes[who].places| :: PlaceAccounted(w, who, n)
  }

  ghost predicate AllAccounted(w: World) {
    && (forall l: nat, p: nat | InRing(w, l, p) :: PositionAccounted(w, l, p))
    && PlacesAccounted(w)
  }

  // ---- What a client holds ----

  // The grants of o that it has not given back are the same in both worlds.
  ghost predicate SameHoldings(w: World, w': World, o: Client) {
    && o in w.nodes && o in w'.nodes && w.nodes[o].Ok() && w'.nodes[o].Ok()
    && w'.nodes[o].Grants() == w.nodes[o].Grants() && w'.nodes[o].GivenBack() == w.nodes[o].GivenBack()
  }

  lemma StillHolds(w: World, w': World, o: Client, l: nat, p: nat)
    requires SameHoldings(w, w', o) && Holds(w, o, l, p)
    ensures Holds(w', o, l, p)
  {
    var k: nat :| HoldsBy(w, o, l, p, k);
    assert HoldsBy(w', o, l, p, k);
  }

  lemma StillSent(w: World, w': World, who: Client, n: nat)
    requires Sent(w, who, n) && forall a | a in w.acquires && a.e.Owner() == who && a.n == n :: a in w'.acquires
    ensures Sent(w', who, n)
  {
    var a :| a in w.acquires && a.e.Owner() == who && a.n == n;
    assert a in w'.acquires;
  }

  // ---- Releases ----

  lemma ReleasePosition(w: World, who: Client, node': Node, gs: seq<Grant>, l: nat, p: nat)
    requires Inv(w) && who in w.nodes && Releases(w, who, node', gs)
    requires InRing(w, l, p) && PositionAccounted(w, l, p)
    ensures InRing(Release(w, who, node', gs), l, p) && PositionAccounted(Release(w, who, node', gs), l, p)
  {
    var w' := Release(w, who, node', gs);
    if Named(gs, l, p) {
      NamedIsReleased(w, who, node', gs, l, p);
    } else if Status(w, l, p).Held? {
      var o := w.locks[l].r.q.log[p].Owner();
      UnnamedIsOthers(w, who, node', gs, l, p);
      StillHolds(w, w', o, l, p);
    }
  }

  lemma NamedIsReleased(w: World, who: Client, node': Node, gs: seq<Grant>, l: nat, p: nat)
    requires Inv(w) && who in w.nodes && Releases(w, who, node', gs) && Named(gs, l, p)
    ensures InRing(w, l, p)
    ensures ReleasePacket(l, p, w.locks[l].r.q.log[p].mode) in Release(w, who, node', gs).releases
  {
    var k: nat :| NamedBy(gs, l, p, k);
    var node := w.nodes[who];
    assert ListOk(w, who, node.GivenBack() + k);
    assert gs[k] in gs;
    assert PacketOf(gs[k]) == ReleasePacket(l, p, w.locks[l].r.q.log[p].mode);
  }

  // A held request that the client does not name is held by another one, whose list stays.
  lemma UnnamedIsOthers(w: World, who: Client, node': Node, gs: seq<Grant>, l: nat, p: nat)
    requires Inv(w) && who in w.nodes && Releases(w, who, node', gs) && !Named(gs, l, p)
    requires InRing(w, l, p) && Holds(w, w.locks[l].r.q.log[p].Owner(), l, p)
    ensures SameHoldings(w, Release(w, who, node', gs), w.locks[l].r.q.log[p].Owner())
  {
    if w.locks[l].r.q.log[p].Owner() == who {
      HeldIsNamed(w, who, node', gs, l, p);
    }
  }

  lemma HeldIsNamed(w: World, who: Client, node': Node, gs: seq<Grant>, l: nat, p: nat)
    requires Inv(w) && who in w.nodes && Releases(w, who, node', gs) && Holds(w, who, l, p)
    ensures Named(gs, l, p)
  {
    var k: nat :| HoldsBy(w, who, l, p, k);
    assert NamedBy(gs, l, p, k - w.nodes[who].GivenBack());
  }

  lemma ReleasePlaces(w: World, who: Client, node': Node, gs: seq<Grant>)
    requires Inv(w) && who in w.nodes && Releases(w, who, node', gs) && PlacesAccounted(w)
    ensures PlacesAccounted(Release(w, who, node', gs))
  {
    var w' := Release(w, who, node', gs);
    forall o, n: nat | o in w'.nodes && n < |w'.nodes[o].places|
      ensures PlaceAccounted(w', o, n)
    {
      assert PlaceAccounted(w, o, n);
      if w.nodes[o].places[n].Flying? {
        StillSent(w, w', o, n);
      }
    }
  }

  lemma ReleaseAccounts(w: World, who: Client, node': Node, gs: seq<Grant>)
    requires Inv(w) && AllAccounted(w) && who in w.nodes && Releases(w, who, node', gs)
    ensures AllAccounted(Release(w, who, node', gs))
  {
    var w' := Release(w, who, node', gs);
    forall l: nat, p: nat | InRing(w', l, p)
      ensures PositionAccounted(w', l, p)
    {
      assert InRing(w, l, p) && PositionAccounted(w, l, p);
      ReleasePosition(w, who, node', gs, l, p);
    }
    ReleasePlaces(w, who, node', gs);
  }

  // ---- Sending and receiving ----

  lemma SendPosition(w: World, who: Client, c': State, a: AcquirePacket, l: nat, p: nat)
    requires Inv(w) && who in w.nodes && Sends(w, who, c', a)
    requires InRing(w, l, p) && PositionAccounted(w, l, p)
    ensures InRing(Send(w, who, c', a), l, p) && PositionAccounted(Send(w, who, c', a), l, p)
  {
    var w' := Send(w, who, c', a);
    if Status(w, l, p).Held? {
      var o := w.locks[l].r.q.log[p].Owner();
      var k: nat :| HoldsBy(w, o, l, p, k);
      StillHolds(w, w', o, l, p);
    }
  }

  lemma SendPlaces(w: World, who: Client, c': State, a: AcquirePacket)
    requires Inv(w) && who in w.nodes && Sends(w, who, c', a) && PlacesAccounted(w)
    ensures PlacesAccounted(Send(w, who, c', a))
  {
    var w' := Send(w, who, c', a);
    forall o, n: nat | o in w'.nodes && n < |w'.nodes[o].places|
      ensures PlaceAccounted(w', o, n)
    {
      if o == who && n == |w.nodes[who].places| {
        assert a in w'.acquires;
      } else {
        assert PlaceAccounted(w, o, n);
        if w.nodes[o].places[n].Flying? {
          StillSent(w, w', o, n);
        }
      }
    }
  }

  lemma SendAccounts(w: World, who: Client, c': State, a: AcquirePacket)
    requires Inv(w) && AllAccounted(w) && who in w.nodes && Sends(w, who, c', a)
    ensures AllAccounted(Send(w, who, c', a))
  {
    var w' := Send(w, who, c', a);
    forall l: nat, p: nat | InRing(w', l, p)
      ensures PositionAccounted(w', l, p)
    {
      assert InRing(w, l, p) && PositionAccounted(w, l, p);
      SendPosition(w, who, c', a, l, p);
    }
    SendPlaces(w, who, c', a);
  }

  lemma DeliverPosition(w: World, g: GrantPacket, l: nat, p: nat)
    requires Inv(w) && CanDeliver(w, g) && InRing(w, l, p) && PositionAccounted(w, l, p)
    ensures InRing(Deliver(w, g), l, p) && PositionAccounted(Deliver(w, g), l, p)
  {
    var w', o := Deliver(w, g), w.locks[l].r.q.log[p].Owner();
    StatusElsewhere(w, g, l, p);
    if (l, p) == (g.lock, g.pos) {
      NewHolding(w, g);
    } else if Status(w, l, p).Held? {
      HoldingsGrow(w, g, o, l, p);
    }
  }

  lemma NewHolding(w: World, g: GrantPacket)
    requires Inv(w) && CanDeliver(w, g)
    ensures InRing(w, g.lock, g.pos) && g.e == w.locks[g.lock].r.q.log[g.pos]
    ensures Holds(Deliver(w, g), g.e.Owner(), g.lock, g.pos)
  {
    GrantAnswers(w, g);
    DeliverKeepsNode(w, g);
    var who := g.e.Owner();
    assert NodeOk(w, who);
    assert HoldsBy(Deliver(w, g), who, g.lock, g.pos, |w.nodes[who].Grants()|);
  }

  lemma HoldingsGrow(w: World, g: GrantPacket, o: Client, l: nat, p: nat)
    requires Inv(w) && CanDeliver(w, g) && Holds(w, o, l, p)
    ensures Holds(Deliver(w, g), o, l, p)
  {
    DeliverKeepsNode(w, g);
    var k: nat :| HoldsBy(w, o, l, p, k);
    assert HoldsBy(Deliver(w, g), o, l, p, k);
  }

  lemma DeliverPlaces(w: World, g: GrantPacket)
    requires Inv(w) && CanDeliver(w, g) && PlacesAccounted(w)
    ensures PlacesAccounted(Deliver(w, g))
  {
    var w' := Deliver(w, g);
    forall o, n: nat | o in w'.nodes && n < |w'.nodes[o].places|
      ensures PlaceAccounted(w', o, n)
    {
      assert PlaceAccounted(w, o, n);
      if w.nodes[o].places[n].Flying? {
        StillSent(w, w', o, n);
      }
    }
  }

  lemma DeliverAccounts(w: World, g: GrantPacket)
    requires Inv(w) && AllAccounted(w) && CanDeliver(w, g)
    ensures AllAccounted(Deliver(w, g))
  {
    var w' := Deliver(w, g);
    forall l: nat, p: nat | InRing(w', l, p)
      ensures PositionAccounted(w', l, p)
    {
      assert InRing(w, l, p) && PositionAccounted(w, l, p);
      DeliverPosition(w, g, l, p);
    }
    DeliverPlaces(w, g);
  }

  // ---- The switch ----

  lemma ArrivePosition(w: World, a: AcquirePacket, l: nat, p: nat)
    requires AtDoor(w, a) && InRing(w, l, p) && PositionAccounted(w, l, p)
    ensures InRing(Arrive(w, a), l, p) && PositionAccounted(Arrive(w, a), l, p)
  {
    var w', o := Arrive(w, a), w.locks[l].r.q.log[p].Owner();
    if Status(w, l, p).Held? {
      assert Holds(w, o, l, p);
      StillHolds(w, w', o, l, p);
    }
  }

  lemma ArrivePlaces(w: World, a: AcquirePacket)
    requires AtDoor(w, a) && PlacesAccounted(w)
    ensures PlacesAccounted(Arrive(w, a))
  {
    var w' := Arrive(w, a);
    forall o, n: nat | o in w'.nodes && n < |w'.nodes[o].places|
      ensures PlaceAccounted(w', o, n)
    {
      assert PlaceAccounted(w, o, n);
      if w'.nodes[o].places[n].Flying? {
        StillSent(w, w', o, n);
      }
    }
  }

  lemma ArriveAccounts(w: World, a: AcquirePacket)
    requires AtDoor(w, a) && AllAccounted(w)
    ensures AllAccounted(Arrive(w, a))
  {
    var w' := Arrive(w, a);
    forall l: nat, p: nat | InRing(w', l, p)
      ensures PositionAccounted(w', l, p)
    {
      if InRing(w, l, p) {
        assert PositionAccounted(w, l, p);
        ArrivePosition(w, a, l, p);
      }
    }
    ArrivePlaces(w, a);
  }

  lemma SwitchPlaces(w: World, w': World)
    requires PlacesAccounted(w) && w'.nodes == w.nodes && w'.acquires == w.acquires
    ensures PlacesAccounted(w')
  {
    forall o, n: nat | o in w'.nodes && n < |w'.nodes[o].places|
      ensures PlaceAccounted(w', o, n)
    {
      assert PlaceAccounted(w, o, n);
      if w.nodes[o].places[n].Flying? {
        StillSent(w, w', o, n);
      }
    }
  }

  lemma ReleaseAtSwitchAccounts(w: World, r: ReleasePacket)
    requires Inv(w) && AllAccounted(w) && CanRelease(w, r)
    ensures AllAccounted(ReleaseAtSwitch(w, r))
  {
    var w' := ReleaseAtSwitch(w, r);
    assert ReleaseOk(w, r);
    forall l: nat, p: nat | InRing(w', l, p)
      ensures PositionAccounted(w', l, p)
    {
      assert InRing(w, l, p) && PositionAccounted(w, l, p);
      if Status(w', l, p).Held? {
        StillHolds(w, w', w.locks[l].r.q.log[p].Owner(), l, p);
      }
    }
    SwitchPlaces(w, w');
  }

  lemma PassPosition(w: World, l: nat, s: LockRing.Scan, m: nat, p: nat)
    requires Inv(w) && CanPass(w, l, s) && InRing(w, m, p) && PositionAccounted(w, m, p)
    ensures InRing(PassAtSwitch(w, l, s), m, p) && PositionAccounted(PassAtSwitch(w, l, s), m, p)
  {
    var w' := PassAtSwitch(w, l, s);
    PassReads(w, l, s);
    if Status(w', m, p).Held? {
      StillHolds(w, w', w.locks[m].r.q.log[p].Owner(), m, p);
    }
  }

  lemma PassAtSwitchAccounts(w: World, l: nat, s: LockRing.Scan)
    requires Inv(w) && AllAccounted(w) && CanPass(w, l, s)
    ensures AllAccounted(PassAtSwitch(w, l, s))
  {
    var w' := PassAtSwitch(w, l, s);
    forall m: nat, p: nat | InRing(w', m, p)
      ensures PositionAccounted(w', m, p)
    {
      assert InRing(w, m, p) && PositionAccounted(w, m, p);
      PassPosition(w, l, s, m, p);
    }
    SwitchPlaces(w, w');
  }

  // ---- Turns and runs ----

  lemma WaitAccounts(w: World, w': World, who: Client)
    requires Inv(w) && AllAccounted(w) && OnlyWaits(w, w', who)
    ensures AllAccounted(w')
  {
    forall l: nat, p: nat | InRing(w', l, p)
      ensures PositionAccounted(w', l, p)
    {
      assert InRing(w, l, p) && PositionAccounted(w, l, p);
      if Status(w', l, p).Held? {
        StillHolds(w, w', w.locks[l].r.q.log[p].Owner(), l, p);
      }
    }
    forall o, n: nat | o in w'.nodes && n < |w'.nodes[o].places|
      ensures PlaceAccounted(w', o, n)
    {
      assert PlaceAccounted(w, o, n);
      if w.nodes[o].places[n].Flying? {
        StillSent(w, w', o, n);
      }
    }
  }

  lemma TurnAccounts(w: World, who: Client, expired: bool, tsHi: nat, tsLo: nat)
    requires Inv(w) && AllAccounted(w) && CanTurn(w, who)
    ensures AllAccounted(TakeTurn(w, who, expired, tsHi, tsLo))
  {
    TurnIsKnown(w, who, expired);
    var node, o := w.nodes[who], OutcomeOf(w, who, expired);
    match o.action
    case Sent =>
      SentIsASend(w, who, expired, tsHi, tsLo);
      SendAccounts(w, who, o.c, PacketFor(who, |node.places|, o.acquire.value, tsHi, tsLo));
    case TimedOut =>
      TimedOutReleases(w, who, expired);
      ReleaseAccounts(w, who, node.(c := o.c), o.releases);
    case RolledBack =>
      RolledBackReleases(w, who, expired);
      ReleaseAccounts(w, who, Ended(node, o.c), o.releases);
    case Committed =>
      TurnAcquires(w, who, expired);
      CommittedAccounts(w, who, expired, o.acquire.value, tsHi, tsLo);
    case Idle =>
      IdleOnlyWaits(w, who, expired, tsHi, tsLo);
      WaitAccounts(w, TakeTurn(w, who, expired, tsHi, tsLo), who);
  }

  lemma CommittedAccounts(w: World, who: Client, expired: bool, row: Row, tsHi: nat, tsLo: nat)
    requires Inv(w) && AllAccounted(w) && CanTurn(w, who) && OutcomeOf(w, who, expired).action.Committed?
    requires w.nodes[who].Ok() && OutcomeOf(w, who, expired).acquire == Some(row)
    requires row.tid < |w.nodes[who].load.locksEach| && row.lock < |w.locks|
    ensures AllAccounted(CommitTurn(w, who, OutcomeOf(w, who, expired), row, tsHi, tsLo))
  {
    CommittedParts(w, who, expired, row, tsHi, tsLo);
    var node, o := w.nodes[who], OutcomeOf(w, who, expired);
    var node' := Ended(node, Before(node, row));
    ReleaseAccounts(w, who, node', o.releases);
    SendAccounts(Release(w, who, node', o.releases), who, o.c, PacketFor(who, |node.places|, row, tsHi, tsLo));
  }

  lemma NextAccounts(w: World, t: Step)
    requires Inv(w) && AllAccounted(w) && Enabled(w, t)
    ensures AllAccounted(Next(w, t))
  {
    match t
    case ClientTurn(who, expired, tsHi, tsLo) => TurnAccounts(w, who, expired, tsHi, tsLo);
    case GrantDelivered(g) => DeliverAccounts(w, g);
    case AcquireArrived(a) => AcquireIsAtDoor(w, a); ArriveAccounts(w, a);
    case ReleaseArrived(r) => ReleaseAtSwitchAccounts(w, r);
    case PacketRecirculated(l, s) => PassAtSwitchAccounts(w, l, s);
  }

  lemma InitialAccounted(w: World)
    requires Initial(w)
    ensures AllAccounted(w)
  {
    assert forall l | 0 <= l < |w.locks| :: w.locks[l].r.q.log == [];
    assert forall who | who in w.nodes :: w.nodes[who].places == [];
  }

  // In every run every request is accounted for: no grant, no release and no acquire is lost.
  lemma {:induction false} RunAccounts(ws: seq<World>, ts: seq<Step>, i: nat)
    requires IsRun(ws, ts) && IsInTime(ws, ts) && i < |ws|
    ensures Inv(ws[i]) && AllAccounted(ws[i])
  {
    RunKeepsInv(ws, ts, i);
    if i == 0 {
      InitialAccounted(ws[0]);
    } else {
      RunAccounts(ws, ts, i - 1);
      assert StepAt(ws, ts, i - 1);
      NextAccounts(ws[i - 1], ts[i - 1]);
    }
  }
}
