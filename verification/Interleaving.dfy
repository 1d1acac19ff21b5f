/**
 The registers under interleaved packets: arrivals, releases and recirculated packets of a
 lock reach the switch in any order, and what it does is a run of `LockRun`.
 */
module Interleaving {
  import opened NetLockTypes
  import opened LockRing
  import opened LockRun
  import opened SwitchRegisters
  import opened SlotArithmetic
  import Agreement

  // What happens next: a client's acquire or release reaches the switch, the i-th packet in
  // recirculation comes round, or a client receives a grant or sends a release.
  datatype Packet =
    | Acquire(e: Entry, tag: nat)
    | Release(p: nat, mode: Mode)
    | Again(i: nat)
    | GrantReceived(p: nat)
    | ReleaseSent(p: nat)

  // The lock and its packets in recirculation, one by one.
  datatype Flight = Flight(k: Lock, scans: seq<Scan>)

  ghost predicate Matched(f: Flight) {
    multiset(f.scans) == f.k.scans
  }

  function MoveOf(f: Flight, pk: Packet): Move
    requires pk.Again? ==> pk.i < |f.scans|
  {
    match pk
    case Acquire(e, tag) => Arrive(e, tag)
    case Release(p, _) => ReleaseOf(p)
    case Again(i) => Pass(f.scans[i])
    case GrantReceived(p) => Receive(p)
    case ReleaseSent(p) => SendRelease(p)
  }

  // A release carries the mode it was granted in.
  ghost predicate CanTake(f: Flight, pk: Packet) {
    && (pk.Again? ==> pk.i < |f.scans|)
    && (pk.Release? ==> pk.p < |f.k.r.q.log| && pk.mode == f.k.r.q.log[pk.p].mode)
    && Possible(f.k, MoveOf(f, pk)) && InTime(f.k, MoveOf(f, pk))
  }

  function OneOrNone<T>(o: Option<T>): seq<T> {
    match o case None => [] case Some(t) => [t]
  }

  ghost function After(f: Flight, pk: Packet): Flight
    requires CanTake(f, pk)
  {
    Flight(Apply(f.k, MoveOf(f, pk)),
      match pk
      case Release(_, _) => f.scans + OneOrNone(FirstScan(f.k.r))
      case Again(i) =>
        f.scans[..i] + f.scans[i + 1..] + OneOrNone(PassNext(f.scans[i], Visible(f.k.r, f.scans[i].head)))
      case _ => f.scans)
  }

  // The grants the switch sends.
  ghost function Sent(f: Flight, pk: Packet): seq<Entry>
    requires CanTake(f, pk)
  {
    match pk
    case Acquire(e, _) => if AcquireVerdict(f.k.r, e).Granted? then [e] else []
    case Again(i) =>
      var e := Visible(f.k.r, f.scans[i].head);
      if PassGrants(f.scans[i], e) then [e] else []
    case _ => []
  }

  lemma ReplaceAt(s: seq<Scan>, i: nat, next: Option<Scan>)
    requires i < |s|
    ensures multiset(s[..i] + s[i + 1..] + OneOrNone(next))
         == multiset(s) - multiset{s[i]} + match next case None => multiset{} case Some(n) => multiset{n}
  {
    assert s == s[..i] + [s[i]] + s[i + 1..];
  }

  lemma AgainMatched(f: Flight, i: nat)
    requires Matched(f) && CanTake(f, Again(i))
    ensures Matched(After(f, Again(i)))
  {
    ReplaceAt(f.scans, i, PassNext(f.scans[i], Visible(f.k.r, f.scans[i].head)));
  }

  lemma ReleaseMatched(f: Flight, p: nat, mode: Mode)
    requires Matched(f) && CanTake(f, Release(p, mode))
    ensures Matched(After(f, Release(p, mode)))
  {
  }

  lemma AfterMatched(f: Flight, pk: Packet)
    requires Matched(f) && CanTake(f, pk)
    ensures Matched(After(f, pk))
  {
    match pk
    case Release(p, mode) => ReleaseMatched(f, p, mode);
    case Again(i) => AgainMatched(f, i);
    case _ =>
  }

  // A request that has just got its grant.
  ghost predicate NewlyGranted(k: Lock, k': Lock, p: nat) {
    p < |k'.status| && k'.status[p].Granting? && (p < |k.status| ==> k.status[p].Waiting?)
  }

  // A packet sends a grant exactly for the request whose state it changes to granted, with the
  // fields that request arrived with.
  ghost predicate SendsGrants(f: Flight, pk: Packet)
    requires CanTake(f, pk)
  {
    var k' := After(f, pk).k;
    && |Sent(f, pk)| <= 1
    && (forall p: nat | NewlyGranted(f.k, k', p) :: p < |k'.r.q.log| && Sent(f, pk) == [k'.r.q.log[p]])
    && (Sent(f, pk) != [] ==> exists p: nat :: NewlyGranted(f.k, k', p))
  }

  lemma AcquireSends(f: Flight, e: Entry, tag: nat)
    requires Inv(f.k) && CanTake(f, Acquire(e, tag))
    ensures SendsGrants(f, Acquire(e, tag))
  {
    if Sent(f, Acquire(e, tag)) != [] {
      assert NewlyGranted(f.k, After(f, Acquire(e, tag)).k, |f.k.status|);
    }
  }

  lemma AgainSends(f: Flight, i: nat)
    requires Inv(f.k) && Matched(f) && CanTake(f, Again(i))
    ensures SendsGrants(f, Again(i))
  {
    assert f.scans[i] in multiset(f.scans);
    PassGrantsPending(f.k, f.scans[i]);
    if Sent(f, Again(i)) != [] {
      assert NewlyGranted(f.k, After(f, Again(i)).k, f.scans[i].head);
    }
  }

  lemma SentIsGranted(f: Flight, pk: Packet)
    requires Inv(f.k) && Matched(f) && CanTake(f, pk)
    ensures SendsGrants(f, pk)
  {
    match pk
    case Acquire(e, tag) => AcquireSends(f, e, tag);
    case Again(i) => AgainSends(f, i);
    case _ =>
  }

  // ---- Runs ----

  ghost predicate TakesAll(f: Flight, pks: seq<Packet>)
    decreases |pks|
  {
    pks != [] ==> CanTake(f, pks[0]) && TakesAll(After(f, pks[0]), pks[1..])
  }

  ghost function AfterAll(f: Flight, pks: seq<Packet>): Flight
    requires TakesAll(f, pks)
    decreases |pks|
  {
    if pks == [] then f else AfterAll(After(f, pks[0]), pks[1..])
  }

  ghost function SentInAll(f: Flight, pks: seq<Packet>): seq<Entry>
    requires TakesAll(f, pks)
    decreases |pks|
  {
    if pks == [] then [] else Sent(f, pks[0]) + SentInAll(After(f, pks[0]), pks[1..])
  }

  ghost function MovesOf(f: Flight, pks: seq<Packet>): seq<Move>
    requires TakesAll(f, pks)
    decreases |pks|
  {
    if pks == [] then [] else [MoveOf(f, pks[0])] + MovesOf(After(f, pks[0]), pks[1..])
  }

  // The packets play a run of the lock, so all that is proved of runs holds of the registers.
  lemma {:induction false} PacketsPlayARun(f: Flight, pks: seq<Packet>)
    requires TakesAll(f, pks)
    ensures Plays(f.k, MovesOf(f, pks)) && AllInTime(f.k, MovesOf(f, pks))
    ensures Run(f.k, MovesOf(f, pks)) == AfterAll(f, pks).k
    decreases |pks|
  {
    if pks != [] {
      var f' := After(f, pks[0]);
      PacketsPlayARun(f', pks[1..]);
      assert MovesOf(f, pks)[1..] == MovesOf(f', pks[1..]);
    }
  }

  // ---- The switch ----

  // The headers of the packets in recirculation are those of the scans.
  ghost predicate Headers(left: nat, cap: nat, scans: seq<Scan>, hs: seq<Recirculated>)
    requires 1 <= cap
  {
    |hs| == |scans| && forall i | 0 <= i < |hs| :: hs[i] == HeaderOf(left, cap, scans[i])
  }

  ghost predicate Shows(sw: Switch, l: nat, f: Flight, hs: seq<Recirculated>)
    reads sw, sw.left, sw.right, sw.head, sw.tail, sw.slots, sw.counts, sw.entries.Repr()
  {
    && sw.Valid() && 1 <= l <= sw.numLocks
    && sw.rings[l] == f.k.r && f.k.r.Ok()
    && Headers(sw.left[l], f.k.r.cap, f.scans, hs)
  }

  // What holds of a packet in recirculation when it comes round.
  lemma ScanInWindow(f: Flight, i: nat)
    requires Inv(f.k) && Matched(f) && i < |f.scans|
    ensures var s := f.scans[i];
            s in f.k.scans && s.head < s.tail <= |f.k.r.q.log| && s.tail < s.head + f.k.r.cap
  {
    assert f.scans[i] in multiset(f.scans);
    assert ScanOk(f.k, f.scans[i]);
  }

  lemma HeadersGrow(left: nat, cap: nat, scans: seq<Scan>, hs: seq<Recirculated>, s: Option<Scan>, h: Option<Recirculated>)
    requires 1 <= cap && Headers(left, cap, scans, hs) && HeaderMatches(left, cap, s, h)
    ensures Headers(left, cap, scans + OneOrNone(s), hs + OneOrNone(h))
  {
  }

  method TakeAcquire(sw: Switch, l: nat, e: Entry, tag: nat, hs: seq<Recirculated>, ghost f: Flight)
    returns (grants: seq<Entry>)
    requires Shows(sw, l, f, hs) && CanTake(f, Acquire(e, tag)) && f.k.r.inServer + 1 < WIDTH
    modifies sw`rings, sw.tail, sw.slots, sw.counts, sw.entries.Repr()
    ensures Shows(sw, l, After(f, Acquire(e, tag)), hs) && grants == Sent(f, Acquire(e, tag))
    ensures sw.rings == old(sw.rings)[l := sw.rings[l]]
  {
    assert sw.Holds(l, sw.rings[l]);
    var v := sw.AcquirePass(l, e);
    grants := if v.Granted? then [e] else [];
  }

  method TakeRelease(sw: Switch, l: nat, p: nat, mode: Mode, hs: seq<Recirculated>, ghost f: Flight)
    returns (hs': seq<Recirculated>)
    requires Shows(sw, l, f, hs) && Inv(f.k) && CanTake(f, Release(p, mode))
    modifies sw`rings, sw.head, sw.slots, sw.counts
    ensures Shows(sw, l, After(f, Release(p, mode)), hs')
    ensures sw.rings == old(sw.rings)[l := sw.rings[l]]
  {
    HoldersMatchHead(f.k, p);
    var forwarded, recirc := sw.ReleasePass(l, mode);
    HeadersGrow(sw.left[l], f.k.r.cap, f.scans, hs, FirstScan(f.k.r), recirc);
    hs' := hs + OneOrNone(recirc);
  }

  lemma HeadersShrink(left: nat, cap: nat, scans: seq<Scan>, hs: seq<Recirculated>, i: nat)
    requires 1 <= cap && Headers(left, cap, scans, hs) && i < |scans|
    ensures Headers(left, cap, scans[..i] + scans[i + 1..], hs[..i] + hs[i + 1..])
  {
  }

  lemma AgainKeepsRing(f: Flight, i: nat)
    requires CanTake(f, Again(i))
    ensures After(f, Again(i)).k.r == f.k.r
  {
  }

  // No register changes.
  method TakeAgain(sw: Switch, l: nat, i: nat, hs: seq<Recirculated>, ghost f: Flight)
    returns (grants: seq<Entry>, hs': seq<Recirculated>)
    requires Shows(sw, l, f, hs) && Inv(f.k) && Matched(f) && CanTake(f, Again(i))
    ensures Shows(sw, l, After(f, Again(i)), hs') && grants == Sent(f, Again(i))
  {
    ScanInWindow(f, i);
    ghost var s := f.scans[i];
    var grant, recirc := sw.RecirculatedPass(l, hs[i], s);
    grants := OneOrNone(grant);
    AgainKeepsRing(f, i);
    HeadersShrink(sw.left[l], f.k.r.cap, f.scans, hs, i);
    HeadersGrow(sw.left[l], f.k.r.cap, f.scans[..i] + f.scans[i + 1..], hs[..i] + hs[i + 1..],
                PassNext(s, Visible(f.k.r, s.head)), recirc);
    hs' := hs[..i] + hs[i + 1..] + OneOrNone(recirc);
  }

  method TakePacket(sw: Switch, l: nat, pk: Packet, hs: seq<Recirculated>, ghost f: Flight)
    returns (grants: seq<Entry>, hs': seq<Recirculated>)
    requires Shows(sw, l, f, hs) && Inv(f.k) && Matched(f) && CanTake(f, pk)
    requires f.k.r.inServer + 1 < WIDTH
    modifies sw`rings, sw.head, sw.tail, sw.slots, sw.counts, sw.entries.Repr()
    ensures Shows(sw, l, After(f, pk), hs') && grants == Sent(f, pk)
    ensures sw.rings == old(sw.rings)[l := sw.rings[l]]
  {
    grants, hs' := [], hs;
    match pk {
      case Acquire(e, tag) => grants := TakeAcquire(sw, l, e, tag, hs, f);
      case Release(p, mode) => hs' := TakeRelease(sw, l, p, mode, hs, f);
      case Again(i) => grants, hs' := TakeAgain(sw, l, i, hs, f);
      case GrantReceived(p) =>
      case ReleaseSent(p) =>
    }
  }

  lemma TakesStep(f: Flight, pks: seq<Packet>, n: nat)
    requires n < |pks| && TakesAll(f, pks[n..])
    ensures CanTake(f, pks[n]) && TakesAll(After(f, pks[n]), pks[n + 1..])
    ensures AfterAll(f, pks[n..]) == AfterAll(After(f, pks[n]), pks[n + 1..])
    ensures SentInAll(f, pks[n..]) == Sent(f, pks[n]) + SentInAll(After(f, pks[n]), pks[n + 1..])
  {
    assert pks[n..][1..] == pks[n + 1..];
  }

  lemma AfterGood(f: Flight, pk: Packet)
    requires Inv(f.k) && Matched(f) && CanTake(f, pk)
    ensures Inv(After(f, pk).k) && Matched(After(f, pk))
    ensures After(f, pk).k.r.inServer <= f.k.r.inServer + 1
  {
    AfterMatched(f, pk);
    ApplyKeepsInv(f.k, MoveOf(f, pk));
  }

  // However the packets of a lock interleave, the registers end up representing the ring of
  // that run of the lock, the packets in recirculation carry its scans, and the grants sent are
  // those of the run, in its order.
  method TakeAll(sw: Switch, l: nat, pks: seq<Packet>, hs: seq<Recirculated>, ghost f: Flight)
    returns (grants: seq<Entry>, hs': seq<Recirculated>)
    requires Shows(sw, l, f, hs) && Inv(f.k) && Matched(f) && TakesAll(f, pks)
    requires f.k.r.inServer + |pks| < WIDTH
    modifies sw`rings, sw.head, sw.tail, sw.slots, sw.counts, sw.entries.Repr()
    ensures Shows(sw, l, AfterAll(f, pks), hs') && Inv(AfterAll(f, pks).k)
    ensures grants == SentInAll(f, pks)
  {
    grants, hs' := [], hs;
    ghost var g := f;
    assert pks[0..] == pks;
    for n := 0 to |pks|
      invariant Shows(sw, l, g, hs') && Inv(g.k) && Matched(g) && TakesAll(g, pks[n..])
      invariant g.k.r.inServer <= f.k.r.inServer + n
      invariant AfterAll(g, pks[n..]) == AfterAll(f, pks)
      invariant grants + SentInAll(g, pks[n..]) == SentInAll(f, pks)
    {
      TakesStep(g, pks, n);
      AfterGood(g, pks[n]);
      var sent;
      sent, hs' := TakePacket(sw, l, pks[n], hs', g);
      Agreement.Associate(grants, sent, SentInAll(After(g, pks[n]), pks[n + 1..]));
      grants := grants + sent;
      g := After(g, pks[n]);
    }
  }
}
