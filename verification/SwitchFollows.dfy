/**
 The registers of all locks follow the runs of the whole system: whatever the clients and the
 links do, the switch represents the rings of the world that the run is in.
 */
module SwitchFollows {
  import opened NetLockTypes
  import opened LockSystem
  import opened SystemSends
  import opened SystemSwitch
  import opened SystemArrivals
  import opened SystemRuns
  import opened SwitchRegisters
  import Controller
  import I = Interleaving
  import LockRing
  import LockRun
  import SystemSerial

  // What reaches the switch, if anything does; lock indices of the world start at 0, those of
  // the registers at 1.
  datatype Arrival = For(l: nat, pk: I.Packet) | Nothing

  // fs: the scans of every lock, packet by packet.
  ghost predicate Carries(w: World, fs: seq<seq<LockRing.Scan>>, t: Step, x: Arrival) {
    match t
    case AcquireArrived(a) => x == For(a.lock, I.Acquire(a.e, a.n))
    case ReleaseArrived(r) => x == For(r.lock, I.Release(r.pos, r.mode))
    case PacketRecirculated(l, s) => x.For? && x.l == l < |fs| && x.pk.Again? && x.pk.i < |fs[l]| && fs[l][x.pk.i] == s
    case _ => x == Nothing
  }

  ghost function FlightOf(w: World, fs: seq<seq<LockRing.Scan>>, l: nat): I.Flight
    requires l < |w.locks| == |fs|
  {
    I.Flight(w.locks[l], fs[l])
  }

  // What is taken from the world: a packet of one lock, in time.
  ghost predicate Takes(w: World, fs: seq<seq<LockRing.Scan>>, x: Arrival)
    requires x.For?
  {
    && x.l < |w.locks| == |fs|
    && I.CanTake(FlightOf(w, fs, x.l), x.pk)
  }

  // The scans after the step.
  ghost function ScansAfter(w: World, fs: seq<seq<LockRing.Scan>>, x: Arrival): seq<seq<LockRing.Scan>> {
    if x.For? && Takes(w, fs, x)
    then fs[x.l := I.After(FlightOf(w, fs, x.l), x.pk).scans] else fs
  }

  // The entries of the grant packets the switch sends in this step.
  ghost function SentBy(w: World, fs: seq<seq<LockRing.Scan>>, x: Arrival): seq<Entry> {
    if x.For? && Takes(w, fs, x) then I.Sent(FlightOf(w, fs, x.l), x.pk) else []
  }

  ghost function GrantsFrom(l: nat, p: nat, es: seq<Entry>): set<GrantPacket> {
    set e | e in es :: GrantPacket(l, p, e)
  }

  lemma AcquireTakes(w: World, fs: seq<seq<LockRing.Scan>>, t: Step, x: Arrival)
    requires Inv(w) && Enabled(w, t) && InTime(w, t) && |fs| == |w.locks| && t.AcquireArrived? && Carries(w, fs, t, x)
    ensures Takes(w, fs, x)
    ensures Next(w, t).locks == w.locks[x.l := I.After(FlightOf(w, fs, x.l), x.pk).k]
    ensures Next(w, t).grants == w.grants + GrantsFrom(x.l, |w.locks[x.l].r.q.log|, SentBy(w, fs, x))
  {
    AcquireIsAtDoor(w, t.a);
  }

  lemma ReleaseTakes(w: World, fs: seq<seq<LockRing.Scan>>, t: Step, x: Arrival)
    requires Inv(w) && Enabled(w, t) && |fs| == |w.locks| && t.ReleaseArrived? && Carries(w, fs, t, x)
    ensures Takes(w, fs, x)
    ensures Next(w, t).locks == w.locks[x.l := I.After(FlightOf(w, fs, x.l), x.pk).k]
    ensures Next(w, t).grants == w.grants && SentBy(w, fs, x) == []
  {
    ReleaseHasHead(w, t.r);
    assert LockOk(w, t.r.lock);
  }

  lemma AgainTakes(w: World, fs: seq<seq<LockRing.Scan>>, t: Step, x: Arrival)
    requires Inv(w) && Enabled(w, t) && |fs| == |w.locks| && t.PacketRecirculated? && Carries(w, fs, t, x)
    ensures Takes(w, fs, x)
    ensures Next(w, t).locks == w.locks[x.l := I.After(FlightOf(w, fs, x.l), x.pk).k]
    ensures Next(w, t).grants == w.grants + GrantsFrom(x.l, t.s.head, SentBy(w, fs, x))
  {
    PassReads(w, t.l, t.s);
  }

  // ---- The registers ----

  // The ring and left bound of one lock, and the headers of its packets.
  ghost predicate LockShown(r: LockRing.Ring, left: nat, k: LockRing.Lock, scans: seq<LockRing.Scan>, hs: seq<Recirculated>) {
    r == k.r && k.r.Ok() && multiset(scans) == k.scans && I.Headers(left, k.r.cap, scans, hs)
  }

  ghost predicate AllShown(rings: seq<LockRing.Ring>, left: seq<nat>, w: World, fs: seq<seq<LockRing.Scan>>, hs: seq<seq<Recirculated>>) {
    && |rings| == |left| == |w.locks| + 1 && |fs| == |hs| == |w.locks|
    && forall l: nat | l < |w.locks| :: LockShown(rings[l + 1], left[l + 1], w.locks[l], fs[l], hs[l])
  }

  ghost predicate Shown(sw: Switch, w: World, fs: seq<seq<LockRing.Scan>>, hs: seq<seq<Recirculated>>)
    reads sw, sw.left, sw.right, sw.head, sw.tail, sw.slots, sw.counts, sw.entries.Repr()
  {
    sw.Valid() && sw.numLocks == |w.locks| && AllShown(sw.rings, sw.left[..], w, fs, hs)
  }

  // Fewer than 2^32 requests of a lock are in the server.
  ghost predicate Narrow(w: World) {
    forall l | 0 <= l < |w.locks| :: w.locks[l].r.inServer + 1 < WIDTH
  }

  // What one step of the system changes for the switch.
  ghost predicate Moves(w: World, fs: seq<seq<LockRing.Scan>>, t: Step, x: Arrival)
    requires Enabled(w, t)
  {
    if x.Nothing? then SystemSerial.SameRings(w, Next(w, t))
    else Takes(w, fs, x) && Next(w, t).locks == w.locks[x.l := I.After(FlightOf(w, fs, x.l), x.pk).k]
  }

  lemma StepMoves(w: World, fs: seq<seq<LockRing.Scan>>, t: Step, x: Arrival)
    requires Inv(w) && Enabled(w, t) && InTime(w, t) && |fs| == |w.locks| && Carries(w, fs, t, x)
    ensures Moves(w, fs, t, x)
  {
    match t
    case ClientTurn(who, expired, tsHi, tsLo) => SystemSerial.TurnKeepsRings(w, who, expired, tsHi, tsLo);
    case GrantDelivered(g) => SystemSerial.DeliveryKeepsRings(w, g);
    case AcquireArrived(_) => AcquireTakes(w, fs, t, x);
    case ReleaseArrived(_) => ReleaseTakes(w, fs, t, x);
    case PacketRecirculated(_, _) => AgainTakes(w, fs, t, x);
  }

  // The grants the switch sends are the new grant packets of the world.
  lemma SentAreNew(w: World, fs: seq<seq<LockRing.Scan>>, t: Step, x: Arrival)
    requires Inv(w) && Enabled(w, t) && InTime(w, t) && |fs| == |w.locks| && Carries(w, fs, t, x) && x.For?
    ensures Next(w, t).grants == w.grants + GrantsFrom(x.l, PositionOf(w, t), SentBy(w, fs, x))
  {
    match t
    case AcquireArrived(_) => AcquireTakes(w, fs, t, x);
    case ReleaseArrived(_) => ReleaseTakes(w, fs, t, x);
    case PacketRecirculated(_, _) => AgainTakes(w, fs, t, x);
  }

  // The position a step of the switch may grant.
  ghost function PositionOf(w: World, t: Step): nat
    requires Enabled(w, t)
  {
    match t
    case AcquireArrived(a) => |w.locks[a.lock].r.q.log|
    case PacketRecirculated(_, s) => s.head
    case _ => 0
  }

  lemma OneLockMoves(rings: seq<LockRing.Ring>, left: seq<nat>, w: World, w': World, fs: seq<seq<LockRing.Scan>>,
                     hs: seq<seq<Recirculated>>, l: nat, f: I.Flight, h: seq<Recirculated>)
    requires AllShown(rings, left, w, fs, hs) && l < |w.locks| && w'.locks == w.locks[l := f.k]
    requires LockShown(f.k.r, left[l + 1], f.k, f.scans, h)
    ensures AllShown(rings[l + 1 := f.k.r], left, w', fs[l := f.scans], hs[l := h])
  {
  }

  lemma NoLockMoves(rings: seq<LockRing.Ring>, left: seq<nat>, w: World, w': World, fs: seq<seq<LockRing.Scan>>,
                    hs: seq<seq<Recirculated>>)
    requires AllShown(rings, left, w, fs, hs) && SystemSerial.SameRings(w, w')
    ensures AllShown(rings, left, w', fs, hs)
  {
    forall l: nat | l < |w'.locks|
      ensures LockShown(rings[l + 1], left[l + 1], w'.locks[l], fs[l], hs[l])
    {
      assert LockShown(rings[l + 1], left[l + 1], w.locks[l], fs[l], hs[l]);
    }
  }

  // One packet of one lock.
  method TakeOne(sw: Switch, l: nat, pk: I.Packet, h: seq<Recirculated>, ghost f: I.Flight)
    returns (sent: seq<Entry>, h': seq<Recirculated>)
    requires I.Shows(sw, l + 1, f, h) && LockRing.Inv(f.k) && I.Matched(f) && I.CanTake(f, pk)
    requires f.k.r.inServer + 1 < WIDTH
    modifies sw`rings, sw.head, sw.tail, sw.slots, sw.counts, sw.entries.Repr()
    ensures sw.Valid() && sw.left[..] == old(sw.left[..])
    ensures sw.rings == old(sw.rings)[l + 1 := I.After(f, pk).k.r]
    ensures LockShown(I.After(f, pk).k.r, sw.left[l + 1], I.After(f, pk).k, I.After(f, pk).scans, h')
    ensures sent == I.Sent(f, pk)
  {
    I.AfterMatched(f, pk);
    sent, h' := I.TakePacket(sw, l + 1, pk, h, f);
  }

  method TakeAt(sw: Switch, l: nat, pk: I.Packet, hs: seq<seq<Recirculated>>, ghost w: World, ghost w': World,
                ghost fs: seq<seq<LockRing.Scan>>)
    returns (sent: seq<Entry>, hs': seq<seq<Recirculated>>)
    requires Shown(sw, w, fs, hs) && l < |w.locks| && LockOk(w, l) && Narrow(w)
    requires I.CanTake(FlightOf(w, fs, l), pk)
    requires w'.locks == w.locks[l := I.After(FlightOf(w, fs, l), pk).k]
    modifies sw`rings, sw.head, sw.tail, sw.slots, sw.counts, sw.entries.Repr()
    ensures Shown(sw, w', fs[l := I.After(FlightOf(w, fs, l), pk).scans], hs')
    ensures sent == I.Sent(FlightOf(w, fs, l), pk)
  {
    ghost var f, rings, left := FlightOf(w, fs, l), sw.rings, sw.left[..];
    assert LockShown(rings[l + 1], left[l + 1], w.locks[l], fs[l], hs[l]);
    var h;
    sent, h := TakeOne(sw, l, pk, hs[l], f);
    hs' := hs[l := h];
    OneLockMoves(rings, left, w, w', fs, hs, l, I.After(f, pk), h);
  }

  method TakeArrival(sw: Switch, x: Arrival, hs: seq<seq<Recirculated>>, ghost w: World, ghost fs: seq<seq<LockRing.Scan>>,
                     ghost t: Step)
    returns (sent: seq<Entry>, hs': seq<seq<Recirculated>>)
    requires Shown(sw, w, fs, hs) && Inv(w) && Enabled(w, t) && InTime(w, t) && Narrow(w) && Carries(w, fs, t, x)
    modifies sw`rings, sw.head, sw.tail, sw.slots, sw.counts, sw.entries.Repr()
    ensures Shown(sw, Next(w, t), ScansAfter(w, fs, x), hs') && sent == SentBy(w, fs, x)
  {
    StepMoves(w, fs, t, x);
    sent, hs' := [], hs;
    match x {
      case For(l, pk) =>
        assert LockOk(w, l);
        sent, hs' := TakeAt(sw, l, pk, hs, w, Next(w, t), fs);
      case Nothing => NoLockMoves(sw.rings, sw.left[..], w, Next(w, t), fs, hs);
    }
  }

  // ---- Runs ----

  ghost predicate CarriesAt(ws: seq<World>, ts: seq<Step>, fss: seq<seq<seq<LockRing.Scan>>>, xs: seq<Arrival>, i: nat)
    requires i < |ts| == |xs| && |ws| == |fss| == |ts| + 1
  {
    && Carries(ws[i], fss[i], ts[i], xs[i]) && Narrow(ws[i])
    && fss[i + 1] == ScansAfter(ws[i], fss[i], xs[i])
  }

  // The packets that reach the switch in a run of the system.
  ghost predicate CarriesAll(ws: seq<World>, ts: seq<Step>, fss: seq<seq<seq<LockRing.Scan>>>, xs: seq<Arrival>) {
    && |ts| == |xs| && |ws| == |fss| == |ts| + 1
    && forall i: nat | i < |ts| :: CarriesAt(ws, ts, fss, xs, i)
  }

  // However the run goes, the registers represent the rings of its last world, and the packets
  // in recirculation carry its scans.
  method Follow(sw: Switch, xs: seq<Arrival>, hs: seq<seq<Recirculated>>,
                ghost ws: seq<World>, ghost ts: seq<Step>, ghost fss: seq<seq<seq<LockRing.Scan>>>)
    returns (hs': seq<seq<Recirculated>>)
    requires IsRun(ws, ts) && IsInTime(ws, ts) && CarriesAll(ws, ts, fss, xs) && Shown(sw, ws[0], fss[0], hs)
    modifies sw`rings, sw.head, sw.tail, sw.slots, sw.counts, sw.entries.Repr()
    ensures Shown(sw, ws[|ts|], fss[|ts|], hs')
  {
    hs' := hs;
    for i := 0 to |xs|
      invariant Shown(sw, ws[i], fss[i], hs')
    {
      RunKeepsInv(ws, ts, i);
      assert StepAt(ws, ts, i) && InTimeAt(ws, ts, i) && CarriesAt(ws, ts, fss, xs, i);
      var sent;
      sent, hs' := TakeArrival(sw, xs[i], hs', ws[i], fss[i], ts[i]);
    }
  }

  // Set up by the controller, the switch represents the world a run starts from.
  lemma StartIsShown(sw: Switch, sizes: seq<nat>, w: World)
    requires sw.Valid() && sw.numLocks == |sizes| && sw.rings == Controller.EmptyRings(sizes)
    requires Initial(w) && |w.locks| == |sizes| && forall l | 0 <= l < |sizes| :: w.locks[l] == LockRun.Fresh(sizes[l])
    ensures Shown(sw, w, seq(|sizes|, _ => []), seq(|sizes|, _ => []))
  {
  }
}
