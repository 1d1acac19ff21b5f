/** Steps and runs of the whole system: every run keeps the invariant. */
module SystemRuns {
  import opened NetLockTypes
  import opened ClientMachine
  import opened LockSystem
  import opened SystemReleases
  import opened SystemSends
  import opened SystemSwitch
  import opened SystemArrivals
  import LockRing
  import LockRun
  import CI = ClientInvariant

  // ---- A client's turn ----

  function PacketFor(who: Client, n: nat, row: Row, tsHi: nat, tsLo: nat): AcquirePacket {
    AcquirePacket(n, row.lock, Entry(row.mode, row.tid, who.ip, who.id, tsHi, tsLo))
  }

  ghost predicate CanTurn(w: World, who: Client) {
    who in w.nodes && Shape(w.nodes[who].load, w.nodes[who].c)
  }

  ghost function OutcomeOf(w: World, who: Client, expired: bool): Outcome
    requires CanTurn(w, who)
  {
    Turn(w.nodes[who].load, w.nodes[who].c, expired)
  }

  // The attempt is over: the client goes on as c, its next acquire opens another one.
  ghost function Ended(node: Node, c: State): Node {
    Node(node.load, c, |node.places|, node.places)
  }

  // A turn asks for a lock exactly if it sends an acquire.
  lemma TurnAsks(load: Workload, c: State, expired: bool)
    requires Shape(load, c)
    ensures var o := Turn(load, c, expired);
            && (o.acquire.Some? <==> o.action.Sent? || o.action.Committed?)
            && (o.acquire.Some? ==> o.acquire.value.tid < |load.locksEach|)
  {
  }

  // The clock of the acquire packet is whatever the client read.
  ghost function TakeTurn(w: World, who: Client, expired: bool, tsHi: nat, tsLo: nat): World
    requires CanTurn(w, who)
  {
    var node, o := w.nodes[who], OutcomeOf(w, who, expired);
    match o.action
    case TimedOut => Release(w, who, node.(c := o.c), o.releases)
    case RolledBack => Release(w, who, Ended(node, o.c), o.releases)
    case Committed =>
      TurnAsks(w.nodes[who].load, w.nodes[who].c, expired);
      CommitTurn(w, who, o, o.acquire.value, tsHi, tsLo)
    case Sent =>
      TurnAsks(w.nodes[who].load, w.nodes[who].c, expired);
      Send(w, who, o.c, PacketFor(who, |node.places|, o.acquire.value, tsHi, tsLo))
    case _ => w.(nodes := w.nodes[who := node.(c := o.c)])
  }

  // The client between the releases of a commit and the first acquire of the next transaction.
  ghost function Before(node: Node, row: Row): State
    requires Shape(node.load, node.c) && row.tid < |node.load.locksEach|
  {
    Commit(Finish(Wrapped(node.load, node.c)), row.tid)
  }

  // First the releases of the committed transaction, then the first acquire of the next.
  ghost function CommitTurn(w: World, who: Client, o: Outcome, row: Row, tsHi: nat, tsLo: nat): World
    requires CanTurn(w, who) && row.tid < |w.nodes[who].load.locksEach|
  {
    var node := w.nodes[who];
    Send(Release(w, who, Ended(node, Before(node, row)), o.releases), who, o.c,
         PacketFor(who, |node.places|, row, tsHi, tsLo))
  }

  lemma TurnAcquires(w: World, who: Client, expired: bool)
    requires Inv(w) && CanTurn(w, who)
    ensures var node, o := w.nodes[who], OutcomeOf(w, who, expired);
            && node.Ok()
            && (o.action.Sent? || o.action.Committed? ==>
                  o.acquire.Some? && o.acquire.value.tid < |node.load.locksEach| && o.acquire.value.lock < |w.locks|)
  {
    assert NodeOk(w, who);
    var node := w.nodes[who];
    CI.TurnKinds(node.load, node.c, |node.places| - node.base, expired);
  }

  // A turn that sends is a send, ...
  lemma SentIsASend(w: World, who: Client, expired: bool, tsHi: nat, tsLo: nat)
    requires Inv(w) && CanTurn(w, who) && OutcomeOf(w, who, expired).action.Sent?
    ensures var node, o := w.nodes[who], OutcomeOf(w, who, expired);
            && o.acquire.Some?
            && var a := PacketFor(who, |node.places|, o.acquire.value, tsHi, tsLo);
               Sends(w, who, o.c, a) && TakeTurn(w, who, expired, tsHi, tsLo) == Send(w, who, o.c, a)
  {
    TurnAcquires(w, who, expired);
    assert NodeOk(w, who);
    var node := w.nodes[who];
    CI.TurnKinds(node.load, node.c, |node.places| - node.base, expired);
  }

  // ... and one that gives back early or rolls back is a release.
  lemma TimedOutReleases(w: World, who: Client, expired: bool)
    requires Inv(w) && CanTurn(w, who) && OutcomeOf(w, who, expired).action.TimedOut?
    ensures var node, o := w.nodes[who], OutcomeOf(w, who, expired);
            Releases(w, who, node.(c := o.c), o.releases)
  {
    assert NodeOk(w, who);
    var node := w.nodes[who];
    CI.TurnKinds(node.load, node.c, |node.places| - node.base, expired);
  }

  lemma RolledBackReleases(w: World, who: Client, expired: bool)
    requires Inv(w) && CanTurn(w, who) && OutcomeOf(w, who, expired).action.RolledBack?
    ensures var node, o := w.nodes[who], OutcomeOf(w, who, expired);
            Releases(w, who, Ended(node, o.c), o.releases)
  {
    assert NodeOk(w, who);
    var node := w.nodes[who];
    CI.TurnKinds(node.load, node.c, |node.places| - node.base, expired);
  }

  lemma EndingReleases(w: World, who: Client, mid: State, gs: seq<Grant>)
    requires Inv(w) && CanTurn(w, who) && w.nodes[who].Ok()
    requires |w.nodes[who].Grants()| == |w.nodes[who].places| - w.nodes[who].base
    requires w.nodes[who].GivenBack() == 0 && gs == w.nodes[who].Grants()
    requires CI.Inv(w.nodes[who].load, mid, 0) && mid.queues[mid.lastTxn] == []
    ensures Releases(w, who, Ended(w.nodes[who], mid), gs)
  {
    assert NodeOk(w, who);
  }

  lemma BeforeCommit(w: World, who: Client, expired: bool, row: Row)
    requires Inv(w) && CanTurn(w, who) && w.nodes[who].Ok()
    requires OutcomeOf(w, who, expired).action.Committed?
    requires row == w.nodes[who].load.trace[Wrapped(w.nodes[who].load, w.nodes[who].c).idx]
    ensures var node, o := w.nodes[who], OutcomeOf(w, who, expired);
            && o.acquire == Some(row)
            && Releases(w, who, Ended(node, Before(node, row)), o.releases)
            && o.c == SendRow(Before(node, row), row)
  {
    var node := w.nodes[who];
    CI.CommittingTurn(node.load, node.c, |node.places| - node.base, expired, row);
    EndingReleases(w, who, Before(node, row), OutcomeOf(w, who, expired).releases);
  }

  // With the old attempt closed, the first acquire of the next transaction goes out.
  lemma CommitSends(w: World, w1: World, who: Client, o: Outcome, mid: State, a: AcquirePacket)
    requires who in w.nodes && w.nodes[who].Ok() && Inv(w1) && who in w1.nodes
    requires w1.nodes[who] == Ended(w.nodes[who], mid) && w1.nodes[who].Ok()
    requires o.acquire.Some? && CI.Inv(w.nodes[who].load, o.c, 1)
    requires o.acquire == Some(w.nodes[who].load.trace[o.c.lastTxnIdx])
    requires o.c.queues[o.c.lastTxn] == []
    requires a.n == |w.nodes[who].places| && a.lock == o.acquire.value.lock < |w1.locks|
    requires a.e.Owner() == who && a.e.mode == o.acquire.value.mode && a.e.tid == o.acquire.value.tid
    ensures Sends(w1, who, o.c, a)
  {
    assert NodeOk(w1, who);
  }

  // A commit is a release followed by a send.
  lemma CommittedParts(w: World, who: Client, expired: bool, row: Row, tsHi: nat, tsLo: nat)
    requires Inv(w) && CanTurn(w, who) && OutcomeOf(w, who, expired).action.Committed?
    requires w.nodes[who].Ok() && OutcomeOf(w, who, expired).acquire == Some(row)
    requires row.tid < |w.nodes[who].load.locksEach| && row.lock < |w.locks|
    ensures var node, o := w.nodes[who], OutcomeOf(w, who, expired);
            var node' := Ended(node, Before(node, row));
            var w1, a := Release(w, who, node', o.releases), PacketFor(who, |node.places|, row, tsHi, tsLo);
            && Releases(w, who, node', o.releases) && Inv(w1) && who in w1.nodes && Sends(w1, who, o.c, a)
            && CommitTurn(w, who, o, row, tsHi, tsLo) == Send(w1, who, o.c, a)
  {
    var node, o := w.nodes[who], OutcomeOf(w, who, expired);
    BeforeCommit(w, who, expired, node.load.trace[Wrapped(node.load, node.c).idx]);
    var mid := Before(node, row);
    ReleaseKeepsInv(w, who, Ended(node, mid), o.releases);
    CommittedOutcome(w, who, expired);
    CommitSends(w, Release(w, who, Ended(node, mid), o.releases), who, o, mid,
                PacketFor(who, |node.places|, row, tsHi, tsLo));
  }

  lemma CommittedOutcome(w: World, who: Client, expired: bool)
    requires Inv(w) && CanTurn(w, who) && OutcomeOf(w, who, expired).action.Committed?
    ensures var node, o := w.nodes[who], OutcomeOf(w, who, expired);
            && node.Ok() && CI.Inv(node.load, o.c, 1)
            && o.acquire == Some(node.load.trace[o.c.lastTxnIdx]) && o.c.queues[o.c.lastTxn] == []
  {
    assert NodeOk(w, who);
    var node := w.nodes[who];
    CI.TurnKinds(node.load, node.c, |node.places| - node.base, expired);
  }

  // ---- A turn that only waits ----

  ghost predicate OnlyWaits(w: World, w': World, who: Client) {
    && who in w.nodes && w.nodes[who].Ok()
    && var node, node' := w.nodes[who], w.nodes[who].(c := Wrapped(w.nodes[who].load, w.nodes[who].c));
       node'.Ok() && w' == w.(nodes := w.nodes[who := node'])
  }

  lemma WaitKeepsEntry(w: World, w': World, who: Client, l: nat, p: nat)
    requires OnlyWaits(w, w', who) && InRing(w, l, p) && EntryOk(w, l, p)
    ensures EntryOk(w', l, p)
  {
  }

  lemma WaitKeepsAcquire(w: World, w': World, who: Client, a: AcquirePacket)
    requires OnlyWaits(w, w', who) && AcquireOk(w, a)
    ensures AcquireOk(w', a)
  {
  }

  lemma WaitKeepsList(w: World, w': World, who: Client, o: Client, k: nat)
    requires Inv(w) && OnlyWaits(w, w', who) && o in w.nodes && w.nodes[o].Ok() && k < |w.nodes[o].Grants()|
    ensures o in w'.nodes && w'.nodes[o].Ok() && k < |w'.nodes[o].Grants()| && ListOk(w', o, k)
  {
    assert ListOk(w, o, k);
  }

  lemma WaitKeepsNodes(w: World, w': World, who: Client)
    requires Inv(w) && OnlyWaits(w, w', who)
    ensures NodesInv(w')
  {
    forall o | o in w'.nodes
      ensures NodeOk(w', o) && Distinct(w'.nodes[o].Grants())
      ensures w.nodes[o].Ok() && |w'.nodes[o].Grants()| == |w.nodes[o].Grants()|
    {
      WaitKeepsNode(w, w', who, o);
    }
    WaitKeepsPlaces(w, w', who);
    WaitKeepsLists(w, w', who);
  }

  lemma WaitKeepsPlaces(w: World, w': World, who: Client)
    requires Inv(w) && OnlyWaits(w, w', who)
    ensures forall o, n: nat | o in w'.nodes && n < |w'.nodes[o].places| :: PlaceOk(w', o, n)
  {
    forall o, n: nat | o in w'.nodes && n < |w'.nodes[o].places|
      ensures PlaceOk(w', o, n)
    {
      WaitKeepsPlace(w, w', who, o, n);
    }
  }

  lemma WaitKeepsLists(w: World, w': World, who: Client)
    requires Inv(w) && OnlyWaits(w, w', who)
    ensures forall o, k: nat | o in w'.nodes && w'.nodes[o].Ok() && k < |w'.nodes[o].Grants()| :: ListOk(w', o, k)
  {
    forall o, k: nat | o in w'.nodes && w'.nodes[o].Ok() && k < |w'.nodes[o].Grants()|
      ensures ListOk(w', o, k)
    {
      WaitKeepsNode(w, w', who, o);
      WaitKeepsList(w, w', who, o, k);
    }
  }

  lemma WaitKeepsPlace(w: World, w': World, who: Client, o: Client, n: nat)
    requires Inv(w) && OnlyWaits(w, w', who) && o in w.nodes && n < |w.nodes[o].places|
    ensures o in w'.nodes && n < |w'.nodes[o].places| && PlaceOk(w', o, n)
  {
    assert PlaceOk(w, o, n);
  }

  lemma WaitKeepsNode(w: World, w': World, who: Client, o: Client)
    requires Inv(w) && OnlyWaits(w, w', who) && o in w.nodes
    ensures o in w'.nodes && NodeOk(w', o) && Distinct(w'.nodes[o].Grants())
    ensures w.nodes[o].Ok() && |w'.nodes[o].Grants()| == |w.nodes[o].Grants()|
  {
    assert NodeOk(w, o) && Distinct(w.nodes[o].Grants());
  }

  lemma WaitKeepsPackets(w: World, w': World, who: Client)
    requires Inv(w) && OnlyWaits(w, w', who)
    ensures PacketsInv(w')
  {
    forall a | a in w'.acquires
      ensures AcquireOk(w', a)
    {
      assert AcquireOk(w, a);
      WaitKeepsAcquire(w, w', who, a);
    }
    forall g | g in w'.grants ensures GrantOk(w', g) { assert GrantOk(w, g); }
    forall r | r in w'.releases ensures ReleaseOk(w', r) { assert ReleaseOk(w, r); }
  }

  lemma WaitKeepsInv(w: World, w': World, who: Client)
    requires Inv(w) && OnlyWaits(w, w', who)
    ensures Inv(w')
  {
    forall l: nat | l < |w'.locks| ensures LockOk(w', l) { assert LockOk(w, l); }
    forall l: nat, p: nat | InRing(w', l, p)
      ensures EntryOk(w', l, p)
    {
      assert InRing(w, l, p) && EntryOk(w, l, p);
      WaitKeepsEntry(w, w', who, l, p);
    }
    WaitKeepsNodes(w, w', who);
    WaitKeepsPackets(w, w', who);
  }

  lemma IdleOnlyWaits(w: World, who: Client, expired: bool, tsHi: nat, tsLo: nat)
    requires Inv(w) && CanTurn(w, who) && OutcomeOf(w, who, expired).action.Idle?
    ensures OnlyWaits(w, TakeTurn(w, who, expired, tsHi, tsLo), who)
  {
    assert NodeOk(w, who);
    var node := w.nodes[who];
    CI.TurnKinds(node.load, node.c, |node.places| - node.base, expired);
    CI.WrapKeepsInv(node.load, node.c, |node.places| - node.base);
  }

  lemma TurnKeepsInv(w: World, who: Client, expired: bool, tsHi: nat, tsLo: nat)
    requires Inv(w) && CanTurn(w, who)
    ensures Inv(TakeTurn(w, who, expired, tsHi, tsLo))
  {
    TurnIsKnown(w, who, expired);
    var node, o := w.nodes[who], OutcomeOf(w, who, expired);
    match o.action
    case Sent =>
      SentIsASend(w, who, expired, tsHi, tsLo);
      SendKeepsInv(w, who, o.c, PacketFor(who, |node.places|, o.acquire.value, tsHi, tsLo));
    case TimedOut =>
      TimedOutReleases(w, who, expired);
      ReleaseKeepsInv(w, who, node.(c := o.c), o.releases);
    case RolledBack =>
      RolledBackReleases(w, who, expired);
      ReleaseKeepsInv(w, who, Ended(node, o.c), o.releases);
    case Committed =>
      TurnAcquires(w, who, expired);
      CommittedKeepsInv(w, who, expired, o.acquire.value, tsHi, tsLo);
    case Idle =>
      IdleOnlyWaits(w, who, expired, tsHi, tsLo);
      WaitKeepsInv(w, TakeTurn(w, who, expired, tsHi, tsLo), who);
  }

  lemma CommittedKeepsInv(w: World, who: Client, expired: bool, row: Row, tsHi: nat, tsLo: nat)
    requires Inv(w) && CanTurn(w, who) && OutcomeOf(w, who, expired).action.Committed?
    requires w.nodes[who].Ok() && OutcomeOf(w, who, expired).acquire == Some(row)
    requires row.tid < |w.nodes[who].load.locksEach| && row.lock < |w.locks|
    ensures Inv(CommitTurn(w, who, OutcomeOf(w, who, expired), row, tsHi, tsLo))
  {
    CommittedParts(w, who, expired, row, tsHi, tsLo);
    var node, o := w.nodes[who], OutcomeOf(w, who, expired);
    SendKeepsInv(Release(w, who, Ended(node, Before(node, row)), o.releases), who, o.c,
                 PacketFor(who, |node.places|, row, tsHi, tsLo));
  }

  lemma TurnIsKnown(w: World, who: Client, expired: bool)
    requires Inv(w) && CanTurn(w, who)
    ensures !OutcomeOf(w, who, expired).action.Skipped?
  {
    assert NodeOk(w, who);
    var node := w.nodes[who];
    CI.TurnKinds(node.load, node.c, |node.places| - node.base, expired);
  }

  // ---- Runs ----

  datatype Step =
    | ClientTurn(who: Client, expired: bool, tsHi: nat, tsLo: nat)
    | GrantDelivered(g: GrantPacket)
    | AcquireArrived(a: AcquirePacket)
    | ReleaseArrived(r: ReleasePacket)
    | PacketRecirculated(l: nat, s: LockRing.Scan)

  // The packet is there, or the client takes a turn. A release is not handed over.
  ghost predicate Offered(w: World, t: Step) {
    match t
    case ClientTurn(who, _, _, _) => who in w.nodes
    case GrantDelivered(g) => g in w.grants
    case AcquireArrived(a) => a in w.acquires
    case ReleaseArrived(r) =>
      r in w.releases && (r.lock < |w.locks| && w.locks[r.lock].r.Ok() ==> !LockRing.HandOff(w.locks[r.lock].r))
    case PacketRecirculated(l, s) => l < |w.locks| && s in w.locks[l].scans
  }

  // It finds the system in a state that it can be applied to.
  ghost predicate Enabled(w: World, t: Step) {
    && Offered(w, t)
    && match t
       case ClientTurn(who, _, _, _) => CanTurn(w, who)
       case GrantDelivered(g) => CanDeliver(w, g)
       case AcquireArrived(a) => CanArrive(w, a)
       case ReleaseArrived(r) => CanRelease(w, r)
       case PacketRecirculated(l, s) => CanPass(w, l, s)
  }

  // No slot is rewritten before a packet marked for it has read it.
  ghost predicate InTime(w: World, t: Step)
    requires Enabled(w, t)
  {
    t.AcquireArrived? && LockRing.HasRoom(w.locks[t.a.lock].r) ==> LockRing.NoScanOverrun(w.locks[t.a.lock])
  }

  ghost function Next(w: World, t: Step): World
    requires Enabled(w, t)
  {
    match t
    case ClientTurn(who, expired, tsHi, tsLo) => TakeTurn(w, who, expired, tsHi, tsLo)
    case GrantDelivered(g) => Deliver(w, g)
    case AcquireArrived(a) => Arrive(w, a)
    case ReleaseArrived(r) => ReleaseAtSwitch(w, r)
    case PacketRecirculated(l, s) => PassAtSwitch(w, l, s)
  }

  // No packet ever arrives that cannot be processed, and no client is ever stuck.
  lemma OfferedIsEnabled(w: World, t: Step)
    requires Inv(w) && Offered(w, t)
    ensures Enabled(w, t)
  {
    match t
    case ClientTurn(who, _, _, _) => assert NodeOk(w, who);
    case GrantDelivered(g) => GrantIsDeliverable(w, g);
    case AcquireArrived(a) => AcquireIsAtDoor(w, a);
    case ReleaseArrived(r) => ReleaseHasHead(w, r);
    case PacketRecirculated(l, s) => PassReads(w, l, s);
  }

  lemma NextKeepsInv(w: World, t: Step)
    requires Inv(w) && Enabled(w, t) && InTime(w, t)
    ensures Inv(Next(w, t))
  {
    match t
    case ClientTurn(who, expired, tsHi, tsLo) => TurnKeepsInv(w, who, expired, tsHi, tsLo);
    case GrantDelivered(g) => DeliverKeepsInv(w, g);
    case AcquireArrived(a) => AcquireIsAtDoor(w, a); ArriveKeepsInv(w, a);
    case ReleaseArrived(r) => ReleaseAtSwitchKeepsInv(w, r);
    case PacketRecirculated(l, s) => PassKeepsInv(w, l, s);
  }

  // Every client at the start of its trace, every lock empty, no packet anywhere.
  ghost predicate Initial(w: World) {
    && (forall l | 0 <= l < |w.locks| :: 1 <= w.locks[l].r.cap && w.locks[l] == LockRun.Fresh(w.locks[l].r.cap))
    && (forall who | who in w.nodes ::
          var node := w.nodes[who];
          && CI.Good(node.load) && node == Node(node.load, Start(node.load), 0, [])
          && forall i | 0 <= i < |node.load.trace| :: node.load.trace[i].lock < |w.locks|)
    && w.acquires == {} && w.grants == {} && w.releases == {}
  }

  lemma InitialInv(w: World)
    requires Initial(w)
    ensures Inv(w)
  {
    forall l: nat | l < |w.locks| ensures LockOk(w, l) { LockRing.FreshLockInv(w.locks[l].r.cap); }
    forall who | who in w.nodes
      ensures NodeOk(w, who) && w.nodes[who].places == [] && w.nodes[who].Grants() == []
    {
      CI.StartInv(w.nodes[who].load);
    }
  }

  // The i-th step of a run leads from its i-th world to the next.
  ghost predicate StepAt(ws: seq<World>, ts: seq<Step>, i: nat)
    requires i < |ts| && |ws| == |ts| + 1
  {
    Enabled(ws[i], ts[i]) && Next(ws[i], ts[i]) == ws[i + 1]
  }

  ghost predicate InTimeAt(ws: seq<World>, ts: seq<Step>, i: nat)
    requires i < |ts| && |ws| == |ts| + 1
  {
    Enabled(ws[i], ts[i]) ==> InTime(ws[i], ts[i])
  }

  ghost predicate IsRun(ws: seq<World>, ts: seq<Step>) {
    && |ws| == |ts| + 1 && Initial(ws[0])
    && forall i: nat | i < |ts| :: StepAt(ws, ts, i)
  }

  ghost predicate IsInTime(ws: seq<World>, ts: seq<Step>) {
    |ws| == |ts| + 1 && forall i: nat | i < |ts| :: InTimeAt(ws, ts, i)
  }

  lemma {:induction false} RunKeepsInv(ws: seq<World>, ts: seq<Step>, i: nat)
    requires IsRun(ws, ts) && IsInTime(ws, ts) && i < |ws|
    ensures Inv(ws[i])
  {
    if i == 0 {
      InitialInv(ws[0]);
    } else {
      RunKeepsInv(ws, ts, i - 1);
      assert StepAt(ws, ts, i - 1) && InTimeAt(ws, ts, i - 1);
      NextKeepsInv(ws[i - 1], ts[i - 1]);
    }
  }
}
