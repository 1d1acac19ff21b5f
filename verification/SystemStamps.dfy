/** A grant answers an acquire with that acquire's own fields, the two halves of its clock included. */
module SystemStamps {
  import opened NetLockTypes
  import opened ClientMachine
  import opened LockSystem
  import opened SystemReleases
  import opened SystemSends
  import opened SystemSwitch
  import opened SystemArrivals
  import opened SystemRuns
  import LockRing

  // Wherever the n-th acquire of who is, under way or in a ring, it is the entry e.
  ghost predicate Stamped(w: World, who: Client, n: nat, e: Entry) {
    && (forall a | a in w.acquires && a.e.Owner() == who && a.n == n :: a.e == e)
    && (forall l: nat, p: nat | InRing(w, l, p) && w.locks[l].r.q.log[p].Owner() == who && w.locks[l].tags[p] == n ::
          w.locks[l].r.q.log[p] == e)
  }

  // The acquire packet of a turn: the row's mode and transaction, the client's address and
  // number, and the clock the turn read.
  lemma TurnStamps(w: World, who: Client, expired: bool, tsHi: nat, tsLo: nat)
    requires Inv(w) && CanTurn(w, who) && OutcomeOf(w, who, expired).acquire.Some?
    ensures var row, n, w' := OutcomeOf(w, who, expired).acquire.value, |w.nodes[who].places|, TakeTurn(w, who, expired, tsHi, tsLo);
            var e := Entry(row.mode, row.tid, who.ip, who.id, tsHi, tsLo);
            && who in w'.nodes && |w'.nodes[who].places| == n + 1
            && AcquirePacket(n, row.lock, e) in w'.acquires
            && Stamped(w', who, n, e)
  {
    TurnAsks(w.nodes[who].load, w.nodes[who].c, expired);
    SameLog(w, who, expired, tsHi, tsLo);
    var w' := TakeTurn(w, who, expired, tsHi, tsLo);
    forall a | a in w.acquires && a.e.Owner() == who ensures a.n < |w.nodes[who].places| { assert AcquireOk(w, a); }
    forall l: nat, p: nat | InRing(w', l, p) && w'.locks[l].r.q.log[p].Owner() == who
      ensures w'.locks[l].tags[p] < |w.nodes[who].places|
    {
      assert InRing(w, l, p) && EntryOk(w, l, p);
    }
  }

  ghost predicate SameEntries(w: World, w': World) {
    && |w'.locks| == |w.locks|
    && forall l | 0 <= l < |w.locks| ::
         w'.locks[l].r == w.locks[l].r && w'.locks[l].tags == w.locks[l].tags && |w'.locks[l].status| == |w.locks[l].status|
  }

  // A turn writes no ring, and it sends at most the next acquire of its own client.
  lemma SameLog(w: World, who: Client, expired: bool, tsHi: nat, tsLo: nat)
    requires Inv(w) && CanTurn(w, who)
    ensures var w', o := TakeTurn(w, who, expired, tsHi, tsLo), OutcomeOf(w, who, expired);
            && SameEntries(w, w')
            && (o.acquire == None ==> w'.acquires == w.acquires)
            && (o.acquire.Some? ==> w'.acquires == w.acquires + {PacketFor(who, |w.nodes[who].places|, o.acquire.value, tsHi, tsLo)})
            && who in w'.nodes && |w'.nodes[who].places| == |w.nodes[who].places| + (if o.acquire.Some? then 1 else 0)
            && forall x | x in w.nodes && x != who :: x in w'.nodes && w'.nodes[x] == w.nodes[x]
  {
    TurnAsks(w.nodes[who].load, w.nodes[who].c, expired);
  }

  lemma TurnKeepsStamp(w: World, x: Client, expired: bool, tsHi: nat, tsLo: nat, who: Client, n: nat, e: Entry)
    requires Inv(w) && CanTurn(w, x) && who in w.nodes && n < |w.nodes[who].places| && Stamped(w, who, n, e)
    ensures var w' := TakeTurn(w, x, expired, tsHi, tsLo);
            who in w'.nodes && n < |w'.nodes[who].places| && Stamped(w', who, n, e)
  {
    SameLog(w, x, expired, tsHi, tsLo);
    var w' := TakeTurn(w, x, expired, tsHi, tsLo);
    assert forall l: nat, p: nat | InRing(w', l, p) :: InRing(w, l, p);
  }

  lemma ArriveKeepsStamp(w: World, a: AcquirePacket, who: Client, n: nat, e: Entry)
    requires AtDoor(w, a) && who in w.nodes && n < |w.nodes[who].places| && Stamped(w, who, n, e)
    ensures var w' := Arrive(w, a);
            who in w'.nodes && n < |w'.nodes[who].places| && Stamped(w', who, n, e)
  {
    var w' := Arrive(w, a);
    forall l: nat, p: nat | InRing(w', l, p) && w'.locks[l].r.q.log[p].Owner() == who && w'.locks[l].tags[p] == n
      ensures w'.locks[l].r.q.log[p] == e
    {
      if InRing(w, l, p) {
        ArriveKeepsEntries(w, a);
        assert KeepsEntry(w, w', l, p);
      } else {
        assert LockOk(w, l);
      }
    }
  }

  lemma SwitchKeepsStamp(w: World, w': World, who: Client, n: nat, e: Entry)
    requires Stamped(w, who, n, e) && w'.acquires == w.acquires && |w'.locks| == |w.locks|
    requires forall l | 0 <= l < |w.locks| ::
               && w'.locks[l].r.q.log == w.locks[l].r.q.log && w'.locks[l].tags == w.locks[l].tags
               && |w'.locks[l].status| == |w.locks[l].status|
    ensures Stamped(w', who, n, e)
  {
    assert forall l: nat, p: nat | InRing(w', l, p) :: InRing(w, l, p);
  }

  lemma DeliverKeepsStamp(w: World, g: GrantPacket, who: Client, n: nat, e: Entry)
    requires CanDeliver(w, g) && who in w.nodes && n < |w.nodes[who].places| && Stamped(w, who, n, e)
    ensures var w' := Deliver(w, g);
            who in w'.nodes && n < |w'.nodes[who].places| && Stamped(w', who, n, e)
  {
    SwitchKeepsStamp(w, Deliver(w, g), who, n, e);
  }

  lemma ReleaseKeepsStamp(w: World, r: ReleasePacket, who: Client, n: nat, e: Entry)
    requires CanRelease(w, r) && who in w.nodes && n < |w.nodes[who].places| && Stamped(w, who, n, e)
    ensures var w' := ReleaseAtSwitch(w, r);
            who in w'.nodes && n < |w'.nodes[who].places| && Stamped(w', who, n, e)
  {
    SwitchKeepsStamp(w, ReleaseAtSwitch(w, r), who, n, e);
  }

  lemma PassKeepsStamp(w: World, l: nat, s: LockRing.Scan, who: Client, n: nat, e: Entry)
    requires CanPass(w, l, s) && who in w.nodes && n < |w.nodes[who].places| && Stamped(w, who, n, e)
    ensures var w' := PassAtSwitch(w, l, s);
            who in w'.nodes && n < |w'.nodes[who].places| && Stamped(w', who, n, e)
  {
    SwitchKeepsStamp(w, PassAtSwitch(w, l, s), who, n, e);
  }

  lemma NextKeepsStamp(w: World, t: Step, who: Client, n: nat, e: Entry)
    requires Inv(w) && Enabled(w, t) && who in w.nodes && n < |w.nodes[who].places| && Stamped(w, who, n, e)
    ensures who in Next(w, t).nodes && n < |Next(w, t).nodes[who].places| && Stamped(Next(w, t), who, n, e)
  {
    match t
    case ClientTurn(x, expired, tsHi, tsLo) => TurnKeepsStamp(w, x, expired, tsHi, tsLo, who, n, e);
    case GrantDelivered(g) => DeliverKeepsStamp(w, g, who, n, e);
    case AcquireArrived(a) => AcquireIsAtDoor(w, a); ArriveKeepsStamp(w, a, who, n, e);
    case ReleaseArrived(r) => ReleaseKeepsStamp(w, r, who, n, e);
    case PacketRecirculated(l, s) => PassKeepsStamp(w, l, s, who, n, e);
  }

  lemma {:induction false} RunKeepsStamp(ws: seq<World>, ts: seq<Step>, i: nat, j: nat, who: Client, n: nat, e: Entry)
    requires IsRun(ws, ts) && IsInTime(ws, ts) && i <= j < |ws|
    requires who in ws[i].nodes && n < |ws[i].nodes[who].places| && Stamped(ws[i], who, n, e)
    ensures who in ws[j].nodes && n < |ws[j].nodes[who].places| && Stamped(ws[j], who, n, e)
    decreases j
  {
    if i < j {
      RunKeepsStamp(ws, ts, i, j - 1, who, n, e);
      RunKeepsInv(ws, ts, j - 1);
      assert StepAt(ws, ts, j - 1);
      NextKeepsStamp(ws[j - 1], ts[j - 1], who, n, e);
    }
  }

  // In every run: when a turn has sent the acquire for a row, any later grant that answers it
  // is for the row's transaction in the row's mode, goes to the client that asked, and brings
  // back the clock that turn had read.
  lemma GrantCarriesClock(ws: seq<World>, ts: seq<Step>, i: nat, j: nat, who: Client, expired: bool, tsHi: nat, tsLo: nat, g: GrantPacket)
    requires IsRun(ws, ts) && IsInTime(ws, ts) && i < j < |ws| && ts[i] == ClientTurn(who, expired, tsHi, tsLo)
    requires CanTurn(ws[i], who) && OutcomeOf(ws[i], who, expired).acquire.Some?
    requires g in ws[j].grants && g.e.Owner() == who && InRing(ws[j], g.lock, g.pos)
    requires ws[j].locks[g.lock].tags[g.pos] == |ws[i].nodes[who].places|
    ensures var row := OutcomeOf(ws[i], who, expired).acquire.value;
            && g.e.mode == row.mode && g.e.tid == row.tid && g.e.ip == who.ip && g.e.clientId == who.id
            && g.e.tsHi == tsHi && g.e.tsLo == tsLo
  {
    RunKeepsInv(ws, ts, i);
    RunKeepsInv(ws, ts, j);
    assert StepAt(ws, ts, i);
    TurnStamps(ws[i], who, expired, tsHi, tsLo);
    var row := OutcomeOf(ws[i], who, expired).acquire.value;
    RunKeepsStamp(ws, ts, i + 1, j, who, |ws[i].nodes[who].places|, Entry(row.mode, row.tid, who.ip, who.id, tsHi, tsLo));
    assert GrantOk(ws[j], g);
  }
}
