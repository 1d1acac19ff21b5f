/** A run in which two refills are outstanding at once: lock, link and holders together. */
module RefillRun {
  import opened NetLockTypes
  import opened LockRing
  import opened SwitchRegisters
  import opened Overflow
  import opened Refill
  import HandOff
  import LockRun
  import RwLock

  // The link of the switch and the server, and what the counts say of the lock behind its first
  // hand-off.
  datatype Joint = Joint(link: Link, lock: HandOff.After)

  datatype Packet = ReleaseBy(mode: Mode) | AtServer | PushedBack

  // A release is sent by one of the requests that were granted and have not released.
  ghost predicate CanTake(j: Joint, p: Packet) {
    match p
    case ReleaseBy(mode) =>
      j.lock.out > 0 && (if mode.Exclusive? then j.lock.counts.exclusive > 0 else j.lock.counts.shared > 0)
    case AtServer => Enabled(j.link, ServerReceives)
    case PushedBack => Enabled(j.link, PushBackArrives)
  }

  function EventOf(j: Joint, p: Packet): Step {
    match p
    case ReleaseBy(_) => ReleaseArrives
    case AtServer => ServerReceives
    case PushedBack => PushBackArrives
  }

  // A release that is handed over leaves the counts alone; one that pops may recirculate.
  ghost function Take(j: Joint, p: Packet): Joint
    requires CanTake(j, p)
  {
    Joint(Apply(j.link, EventOf(j, p)),
          match p
          case ReleaseBy(mode) => if HandsOver(j.link) then j.lock.(out := j.lock.out - 1) 
                               else HandOff.After(Uncounted(j.lock.counts, mode), j.lock.out - 1, j.lock.packets + 1)
          case AtServer => j.lock
          case PushedBack => HandOff.Apply(j.lock, HandOff.Enters(j.link.toSwitch[0])))
  }

  ghost predicate TakesAll(j: Joint, ps: seq<Packet>)
    decreases |ps|
  {
    ps != [] ==> CanTake(j, ps[0]) && TakesAll(Take(j, ps[0]), ps[1..])
  }

  ghost function TakeAll(j: Joint, ps: seq<Packet>): Joint
    requires TakesAll(j, ps)
    decreases |ps|
  {
    if ps == [] then j else TakeAll(Take(j, ps[0]), ps[1..])
  }

  lemma TakeOne(j: Joint, p: Packet, j': Joint, ps: seq<Packet>)
    requires CanTake(j, p) && Take(j, p) == j' && TakesAll(j', ps)
    ensures TakesAll(j, [p] + ps) && TakeAll(j, [p] + ps) == TakeAll(j', ps)
  {
    assert ([p] + ps)[1..] == ps;
  }

  // A link with a ring of two slots and a server that pushes back two requests at a time, after
  // the six requests r have arrived.
  function State(empty: nat, inServer: nat, entered: seq<Entry>, toServer: seq<ToServer>, buffer: seq<Entry>,
                 toSwitch: seq<Entry>, r: seq<Entry>, popped: nat, handOffs: nat): Link {
    Link(Slots(empty, inServer), 1, 2, entered, toServer, buffer, toSwitch, r, popped, handOffs)
  }

  function Forwarded(r: seq<Entry>): seq<ToServer>
    requires |r| == 6
  {
    [Request(r[2]), Request(r[3]), Request(r[4]), Request(r[5])]
  }

  // Up to the first hand-off, lock and link: the first two requests are granted and released.
  function Moves(r: seq<Entry>): seq<LockRun.Move>
    requires |r| == 6
  {
    [LockRun.Arrive(r[0], 0), LockRun.Arrive(r[1], 1), LockRun.Arrive(r[2], 2), LockRun.Arrive(r[3], 3),
     LockRun.Arrive(r[4], 4), LockRun.Arrive(r[5], 5), LockRun.Receive(0), LockRun.Receive(1), LockRun.SendRelease(0),
     LockRun.SendRelease(1), LockRun.ReleaseOf(0), LockRun.Pass(LockRun.LATE_SCAN)]
  }

  function Drained(r: seq<Entry>): Lock
    requires |r| == 6
  {
    LockRun.TwoSlots(r[..2], 1, [Released, Releasing], multiset{}, 4)
  }

  lemma ArrivalsPlay(r: seq<Entry>, rest: seq<LockRun.Move>)
    requires |r| == 6 && r[0].mode.Shared? && r[1].mode.Shared?
    requires LockRun.Plays(LockRun.TwoSlots(r[..2], 0, [Granting, Granting], multiset{}, 4), rest)
    ensures var ms := [LockRun.Arrive(r[0], 0), LockRun.Arrive(r[1], 1), LockRun.Arrive(r[2], 2), LockRun.Arrive(r[3], 3),
                       LockRun.Arrive(r[4], 4), LockRun.Arrive(r[5], 5)] + rest;
            && LockRun.Plays(LockRun.Fresh(2), ms)
            && LockRun.Run(LockRun.Fresh(2), ms)
               == LockRun.Run(LockRun.TwoSlots(r[..2], 0, [Granting, Granting], multiset{}, 4), rest)
  {
    LockRun.SharedPairHolds(r[0], r[1]);
    assert r[..2] == [r[0], r[1]];
    var none: multiset<Scan> := multiset{};
    var both := [Granting, Granting];
    var k1, k2 := LockRun.TwoSlots([r[0]], 0, [Granting], none), LockRun.TwoSlots(r[..2], 0, both, none);
    var k3, k4 := LockRun.TwoSlots(r[..2], 0, both, none, 1), LockRun.TwoSlots(r[..2], 0, both, none, 2);
    var k5, k6 := LockRun.TwoSlots(r[..2], 0, both, none, 3), LockRun.TwoSlots(r[..2], 0, both, none, 4);
    LockRun.PlayOne(k5, LockRun.Arrive(r[5], 5), k6, rest);
    LockRun.PlayOne(k4, LockRun.Arrive(r[4], 4), k5, [LockRun.Arrive(r[5], 5)] + rest);
    var r4 := [LockRun.Arrive(r[4], 4)] + ([LockRun.Arrive(r[5], 5)] + rest);
    LockRun.PlayOne(k3, LockRun.Arrive(r[3], 3), k4, r4);
    LockRun.PlayOne(k2, LockRun.Arrive(r[2], 2), k3, [LockRun.Arrive(r[3], 3)] + r4);
    var r2 := [LockRun.Arrive(r[2], 2)] + ([LockRun.Arrive(r[3], 3)] + r4);
    LockRun.PlayOne(k1, LockRun.Arrive(r[1], 1), k2, r2);
    LockRun.PlayOne(LockRun.Fresh(2), LockRun.Arrive(r[0], 0), k1, [LockRun.Arrive(r[1], 1)] + r2);
    assert [LockRun.Arrive(r[0], 0)] + ([LockRun.Arrive(r[1], 1)] + r2) ==
           [LockRun.Arrive(r[0], 0), LockRun.Arrive(r[1], 1), LockRun.Arrive(r[2], 2), LockRun.Arrive(r[3], 3),
            LockRun.Arrive(r[4], 4), LockRun.Arrive(r[5], 5)] + rest;
  }

  lemma ReleasesPlay(r: seq<Entry>)
    requires |r| == 6 && r[0].mode.Shared? && r[1].mode.Shared?
    ensures var k := LockRun.TwoSlots(r[..2], 0, [Granting, Granting], multiset{}, 4);
            var ms := [LockRun.Receive(0), LockRun.Receive(1), LockRun.SendRelease(0), LockRun.SendRelease(1),
                       LockRun.ReleaseOf(0), LockRun.Pass(LockRun.LATE_SCAN)];
            LockRun.Plays(k, ms) && LockRun.Run(k, ms) == Drained(r)
  {
    var none: multiset<Scan> := multiset{};
    var k0, k1 := LockRun.TwoSlots(r[..2], 0, [Granting, Granting], none, 4), LockRun.TwoSlots(r[..2], 0, [Held, Granting], none, 4);
    var k2, k3 := LockRun.TwoSlots(r[..2], 0, [Held, Held], none, 4), LockRun.TwoSlots(r[..2], 0, [Releasing, Held], none, 4);
    var k4 := LockRun.TwoSlots(r[..2], 0, [Releasing, Releasing], none, 4);
    FirstPops(r);
    var r4 := [LockRun.ReleaseOf(0), LockRun.Pass(LockRun.LATE_SCAN)];
    LockRun.PlayOne(k3, LockRun.SendRelease(1), k4, r4);
    LockRun.PlayOne(k2, LockRun.SendRelease(0), k3, [LockRun.SendRelease(1)] + r4);
    var r2 := [LockRun.SendRelease(0)] + ([LockRun.SendRelease(1)] + r4);
    LockRun.PlayOne(k1, LockRun.Receive(1), k2, r2);
    LockRun.PlayOne(k0, LockRun.Receive(0), k1, [LockRun.Receive(1)] + r2);
    assert [LockRun.Receive(0)] + ([LockRun.Receive(1)] + r2) ==
           [LockRun.Receive(0), LockRun.Receive(1), LockRun.SendRelease(0), LockRun.SendRelease(1),
            LockRun.ReleaseOf(0), LockRun.Pass(LockRun.LATE_SCAN)];
  }

  // The first release pops; its packet comes round, grants nobody and is dropped.
  lemma FirstPops(r: seq<Entry>)
    requires |r| == 6 && r[0].mode.Shared? && r[1].mode.Shared?
    ensures var k := LockRun.TwoSlots(r[..2], 0, [Releasing, Releasing], multiset{}, 4);
            var ms := [LockRun.ReleaseOf(0), LockRun.Pass(LockRun.LATE_SCAN)];
            LockRun.Plays(k, ms) && LockRun.Run(k, ms) == Drained(r)
  {
    assert r[..2] == [r[0], r[1]];
    var late := multiset{LockRun.LATE_SCAN};
    var none: multiset<Scan> := multiset{};
    var k4, k5 := LockRun.TwoSlots(r[..2], 0, [Releasing, Releasing], none, 4),
                  LockRun.TwoSlots(r[..2], 1, [Released, Releasing], late, 4);
    assert late - multiset{LockRun.LATE_SCAN} + multiset{} == none;
    assert LatestAt(2, 2, 1) == 1;
    LockRun.PlayOne(k5, LockRun.Pass(LockRun.LATE_SCAN), Drained(r), []);
    LockRun.PlayOne(k4, LockRun.ReleaseOf(0), k5, [LockRun.Pass(LockRun.LATE_SCAN)] + []);
  }

  // From an empty lock: the last release of the two holders is about to be handed over, nothing
  // recirculates, and four requests are on their way to the server.
  lemma DrainedIsReached(r: seq<Entry>)
    requires |r| == 6 && r[0].mode.Shared? && r[1].mode.Shared?
    ensures LockRun.Plays(LockRun.Fresh(2), Moves(r)) && LockRun.Run(LockRun.Fresh(2), Moves(r)) == Drained(r)
    ensures HandOff.HandsOver(Drained(r), 1) && Follows(State(1, 4, r[..2], Forwarded(r), [], [], r, 1, 0), Drained(r).r)
  {
    ReleasesPlay(r);
    var rest := [LockRun.Receive(0), LockRun.Receive(1), LockRun.SendRelease(0), LockRun.SendRelease(1),
                 LockRun.ReleaseOf(0), LockRun.Pass(LockRun.LATE_SCAN)];
    ArrivalsPlay(r, rest);
    assert [LockRun.Arrive(r[0], 0), LockRun.Arrive(r[1], 1), LockRun.Arrive(r[2], 2), LockRun.Arrive(r[3], 3),
            LockRun.Arrive(r[4], 4), LockRun.Arrive(r[5], 5)] + rest == Moves(r);
    assert r[..2] == [r[0], r[1]];
    var st := [Released, Releasing];
    assert st[..1] == [Released] && st[..1][..0] == [];
    assert CountReleased(st) == 1;
    RwLock.FirstExclusiveIs(r[..2], 1, 2);
  }

  // What follows, packet by packet: the server catches up, pushes two requests back; the first
  // is granted and released while the second is still on its way, and the ring, counted as
  // drained again, asks for two more.
  function TooMany(): seq<Packet> {
    [AtServer, AtServer, AtServer, AtServer, AtServer, PushedBack, ReleaseBy(Shared), AtServer, PushedBack, PushedBack]
  }

  function Shares(n: nat, out: nat): HandOff.After {
    HandOff.After(Counts(0, n), out, 0)
  }

  lemma SecondRefill(r: seq<Entry>)
    requires |r| == 6 && forall i | 0 <= i < 6 :: r[i].mode.Shared?
    ensures var j := Joint(State(2, 4, r[..2], [], [r[4], r[5]], [r[2], r[3]], r, 1, 1), Shares(1, 0));
            var ps := [PushedBack, ReleaseBy(Shared), AtServer, PushedBack, PushedBack];
            && TakesAll(j, ps)
            && TakeAll(j, ps) == Joint(State(0, 1, r[..5], [], [], [r[5]], r, 1, 2), Shares(4, 2))
  {
    var j0 := Joint(State(2, 4, r[..2], [], [r[4], r[5]], [r[2], r[3]], r, 1, 1), Shares(1, 0));
    var j1 := Joint(State(1, 3, r[..3], [], [r[4], r[5]], [r[3]], r, 1, 1), Shares(2, 1));
    var j2 := Joint(State(2, 3, r[..3], [ToServer.Refill], [r[4], r[5]], [r[3]], r, 1, 2), Shares(2, 0));
    var j3 := Joint(State(2, 3, r[..3], [], [], [r[3], r[4], r[5]], r, 1, 2), Shares(2, 0));
    var j4 := Joint(State(1, 2, r[..4], [], [], [r[4], r[5]], r, 1, 2), Shares(3, 1));
    var j5 := Joint(State(0, 1, r[..5], [], [], [r[5]], r, 1, 2), Shares(4, 2));
    assert r[..2] + [r[2]] == r[..3] && r[..3] + [r[3]] == r[..4] && r[..4] + [r[4]] == r[..5];
    TakeOne(j4, PushedBack, j5, []);
    TakeOne(j3, PushedBack, j4, [PushedBack] + []);
    var p3 := [PushedBack] + ([PushedBack] + []);
    TakeOne(j2, AtServer, j3, p3);
    TakeOne(j1, ReleaseBy(Shared), j2, [AtServer] + p3);
    TakeOne(j0, PushedBack, j1, [ReleaseBy(Shared)] + ([AtServer] + p3));
    assert [PushedBack] + ([ReleaseBy(Shared)] + ([AtServer] + p3)) ==
           [PushedBack, ReleaseBy(Shared), AtServer, PushedBack, PushedBack];
  }

  // The server takes in the four requests and the refill behind them.
  lemma ServerCatchesUp(r: seq<Entry>, rest: seq<Packet>)
    requires |r| == 6
    requires TakesAll(Joint(State(2, 4, r[..2], [], [r[4], r[5]], [r[2], r[3]], r, 1, 1), Shares(1, 0)), rest)
    ensures var j := Joint(State(2, 4, r[..2], Forwarded(r) + [ToServer.Refill], [], [], r, 1, 1), Shares(1, 0));
            var ps := [AtServer, AtServer, AtServer, AtServer, AtServer] + rest;
            && TakesAll(j, ps)
            && TakeAll(j, ps) == TakeAll(Joint(State(2, 4, r[..2], [], [r[4], r[5]], [r[2], r[3]], r, 1, 1), Shares(1, 0)), rest)
  {
    var b, c, d := Request(r[3]), Request(r[4]), Request(r[5]);
    var j0 := Joint(State(2, 4, r[..2], Forwarded(r) + [ToServer.Refill], [], [], r, 1, 1), Shares(1, 0));
    var j1 := j0.(link := State(2, 4, r[..2], [b, c, d, ToServer.Refill], [r[2]], [], r, 1, 1));
    var j2 := j0.(link := State(2, 4, r[..2], [c, d, ToServer.Refill], [r[2], r[3]], [], r, 1, 1));
    var j3 := j0.(link := State(2, 4, r[..2], [d, ToServer.Refill], [r[2], r[3], r[4]], [], r, 1, 1));
    var j4 := j0.(link := State(2, 4, r[..2], [ToServer.Refill], [r[2], r[3], r[4], r[5]], [], r, 1, 1));
    var j5 := j0.(link := State(2, 4, r[..2], [], [r[4], r[5]], [r[2], r[3]], r, 1, 1));
    TakeOne(j4, AtServer, j5, rest);
    TakeOne(j3, AtServer, j4, [AtServer] + rest);
    var p3 := [AtServer] + ([AtServer] + rest);
    TakeOne(j2, AtServer, j3, p3);
    TakeOne(j1, AtServer, j2, [AtServer] + p3);
    TakeOne(j0, AtServer, j1, [AtServer] + ([AtServer] + p3));
    assert [AtServer] + ([AtServer] + ([AtServer] + p3)) == [AtServer, AtServer, AtServer, AtServer, AtServer] + rest;
  }

  // With two refills outstanding a request comes back when no slot is counted empty, and taking
  // one anyway wraps the counter. Every release of the run is sent by a holder: the first two
  // before the hand-off, the third by the request that is granted behind it.
  lemma TwoRefillsAreTooMany(r: seq<Entry>)
    requires |r| == 6 && forall i | 0 <= i < 6 :: r[i].mode.Shared?
    ensures LockRun.Plays(LockRun.Fresh(2), Moves(r)) && HandOff.HandsOver(LockRun.Run(LockRun.Fresh(2), Moves(r)), 1)
    ensures var k, link := LockRun.Run(LockRun.Fresh(2), Moves(r)), State(1, 4, r[..2], Forwarded(r), [], [], r, 1, 0);
            var j := Joint(OnRelease(link), HandOff.LeftBehind(k, 1));
            && Follows(link, k.r) && TakesAll(j, TooMany())
            && var link' := TakeAll(j, TooMany()).link;
               link'.slots == Slots(0, 1) && link'.toSwitch == [r[5]] && OnPushBack(link').slots.empty == WIDTH - 1
  {
    DrainedIsReached(r);
    LeftBehindIs(r);
    SecondRefill(r);
    var last := [PushedBack, ReleaseBy(Shared), AtServer, PushedBack, PushedBack];
    ServerCatchesUp(r, last);
    assert [AtServer, AtServer, AtServer, AtServer, AtServer] + last == TooMany();
  }

  lemma LeftBehindIs(r: seq<Entry>)
    requires |r| == 6 && r[0].mode.Shared? && r[1].mode.Shared? && HandOff.HandsOver(Drained(r), 1)
    ensures HandOff.LeftBehind(Drained(r), 1) == Shares(1, 0)
    ensures OnRelease(State(1, 4, r[..2], Forwarded(r), [], [], r, 1, 0))
         == State(2, 4, r[..2], Forwarded(r) + [ToServer.Refill], [], [], r, 1, 1)
  {
    RwLock.NoExclusiveCounted(r[..2], 1);
    RwLock.FirstExclusiveIs(r[..2], 1, 2);
    assert HandOff.StillOut(Drained(r), 1) == {};
  }
}
