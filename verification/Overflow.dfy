/**
 Overflow of one lock, in every run, hand-offs included: the slot counters of the
 switch, the two links to the lock server, and the server's buffer.
 */
module Overflow {
  import opened NetLockTypes
  import opened SwitchRegisters
  import opened LockRing
  import LockServer

  datatype ToServer = Request(e: Entry) | Refill

  // sizeOfQueue: right - left; lenInSwitch: what the server believes the ring holds;
  // entered: requests in the order they entered the ring; arrived: in the order the clients'
  // acquires reached the switch; popped: how often the head moved; handOffs: how many releases
  // were sent on to the server. entered, arrived and handOffs are history.
  datatype Link = Link(slots: Slots, sizeOfQueue: nat, lenInSwitch: nat, entered: seq<Entry>,
                       toServer: seq<ToServer>, buffer: seq<Entry>, toSwitch: seq<Entry>,
                       arrived: seq<Entry>, popped: nat, handOffs: nat)

  datatype Step =
    | AcquireArrives(e: Entry)
    | ReleaseArrives
    | ServerReceives
    | PushBackArrives

  ghost predicate Enabled(k: Link, s: Step) {
    match s
    // fewer than 2^32 requests of one lock are in the server at a time
    case AcquireArrives(_) => k.slots.inServer + 1 < WIDTH
    case ReleaseArrives => true
    case ServerReceives => k.toServer != []
    case PushBackArrives => k.toSwitch != [] && k.slots.inServer > 0
  }

  // dec_empty_slots_alu; the request goes on to the server unless none is counted there.
  function OnAcquire(k: Link, e: Entry): Link {
    var s := Taken(k.slots, AcquireLock);
    if s.inServer == 0
    then k.(slots := s, entered := k.entered + [e], arrived := k.arrived + [e])
    else k.(slots := s, toServer := k.toServer + [Request(e)], arrived := k.arrived + [e])
  }

  // inc_empty_slots_alu; the empty count may pass the capacity once releases have been handed
  // over.
  function OnRelease(k: Link): Link {
    var before := if k.slots.inServer > 0 then k.slots.empty else 0;
    var k' := k.(slots := Freed(k.slots));
    if before == k.sizeOfQueue then k'.(toServer := k.toServer + [Refill], handOffs := k.handOffs + 1)
    else k'.(popped := k.popped + 1)
  }

  // In a ring of several slots a release asks the server for a refill exactly if requests are
  // counted there and all slots but one are counted empty, however often it was done before;
  // otherwise the head moves. In a ring of one slot it does so unless that slot is counted
  // empty with requests in the server.
  lemma HandsOverExactly(k: Link)
    ensures var asks := OnRelease(k).toServer == k.toServer + [Refill] && OnRelease(k).handOffs == k.handOffs + 1;
            var pops := OnRelease(k).toServer == k.toServer && OnRelease(k).handOffs == k.handOffs;
            && (asks || pops)
            && (asks ==> OnRelease(k).popped == k.popped) && (pops ==> OnRelease(k).popped == k.popped + 1)
            && (k.sizeOfQueue > 0 ==> (asks <==> k.slots.inServer > 0 && k.slots.empty == k.sizeOfQueue))
            && (k.sizeOfQueue == 0 ==> (asks <==> k.slots.inServer == 0 || k.slots.empty == 0))
    ensures OnRelease(k).slots.inServer == k.slots.inServer
    ensures k.slots.empty + 1 < WIDTH ==> OnRelease(k).slots.empty == k.slots.empty + 1
    ensures OnRelease(k).buffer == k.buffer && OnRelease(k).toSwitch == k.toSwitch && OnRelease(k).entered == k.entered
  {
  }

  // The server keeps a request; for a release it pushes back as many as the ring has slots.
  function OnServer(k: Link): Link
    requires k.toServer != []
  {
    match k.toServer[0]
    case Request(e) => k.(toServer := k.toServer[1..], buffer := k.buffer + [e])
    case Refill =>
      var n := RefillSize(k);
      k.(toServer := k.toServer[1..], buffer := k.buffer[n..], toSwitch := k.toSwitch + k.buffer[..n])
  }

  function RefillSize(k: Link): (n: nat)
    ensures n <= |k.buffer|
  {
    if |k.buffer| < k.lenInSwitch then |k.buffer| else k.lenInSwitch
  }

  // push_back_alu
  function OnPushBack(k: Link): Link
    requires k.toSwitch != [] && k.slots.inServer > 0
  {
    k.(slots := Taken(k.slots, PushBackLock),
       entered := k.entered + [k.toSwitch[0]], toSwitch := k.toSwitch[1..])
  }

  function Apply(k: Link, s: Step): Link
    requires Enabled(k, s)
  {
    match s
    case AcquireArrives(e) => OnAcquire(k, e)
    case ReleaseArrives => OnRelease(k)
    case ServerReceives => OnServer(k)
    case PushBackArrives => OnPushBack(k)
  }

  function RequestIn(m: ToServer): seq<Entry> {
    if m.Request? then [m.e] else []
  }

  function Requests(msgs: seq<ToServer>): seq<Entry> {
    if msgs == [] then [] else RequestIn(msgs[0]) + Requests(msgs[1..])
  }

  lemma {:induction false} RequestsAppend(msgs: seq<ToServer>, m: ToServer)
    ensures Requests(msgs + [m]) == Requests(msgs) + RequestIn(m)
  {
    var all := msgs + [m];
    if msgs == [] {
      assert all[0] == m && all[1..] == [];
    } else {
      RequestsAppend(msgs[1..], m);
      assert all[0] == msgs[0] && all[1..] == msgs[1..] + [m];
      var first, rest, last := RequestIn(msgs[0]), Requests(msgs[1..]), RequestIn(m);
      assert first + (rest + last) == (first + rest) + last;
    }
  }

  // The requests that are in the server as the switch counts them, oldest first.
  function Outside(k: Link): seq<Entry> {
    k.toSwitch + k.buffer + Requests(k.toServer)
  }

  // The length-in-server register counts exactly the requests under way to the server, kept
  // there, and under way back; and the ring is entered in the order of arrival.
  ghost predicate Inv(k: Link) {
    && k.slots.inServer == |Outside(k)|
    && k.entered + Outside(k) == k.arrived
  }

  ghost predicate Initial(k: Link) {
    && k.slots.inServer == 0 && k.entered == [] && k.toServer == [] && k.buffer == [] && k.toSwitch == [] && k.arrived == []
    && k.popped == 0 && k.handOffs == 0
  }

  lemma AcquireKeepsInv(k: Link, e: Entry)
    requires Inv(k) && Enabled(k, AcquireArrives(e))
    ensures Inv(OnAcquire(k, e))
  {
    RequestsAppend(k.toServer, Request(e));
    assert k.entered + (Outside(k) + [e]) == (k.entered + Outside(k)) + [e];
    if k.slots.inServer == 0 {
      assert Outside(k) == [];
    } else {
      assert Outside(OnAcquire(k, e)) == Outside(k) + [e];
    }
  }

  lemma ReleaseKeepsInv(k: Link)
    requires Inv(k)
    ensures Inv(OnRelease(k))
  {
    RequestsAppend(k.toServer, Refill);
    assert Outside(OnRelease(k)) == Outside(k);
  }

  lemma ServerKeepsInv(k: Link)
    requires Inv(k) && k.toServer != []
    ensures Inv(OnServer(k))
  {
    OutsideStays(k);
  }

  // The server moves requests along, it neither drops nor reorders any.
  lemma OutsideStays(k: Link)
    requires k.toServer != []
    ensures Outside(OnServer(k)) == Outside(k)
  {
    var rest := Requests(k.toServer[1..]);
    match k.toServer[0]
    case Request(e) => Regroup(k.toSwitch, k.buffer, [e], rest);
    case Refill =>
      var n := RefillSize(k);
      assert k.buffer[..n] + k.buffer[n..] == k.buffer;
      Regroup(k.toSwitch, k.buffer[..n], k.buffer[n..], rest);
  }

  lemma Regroup(a: seq<Entry>, b: seq<Entry>, c: seq<Entry>, d: seq<Entry>)
    ensures a + (b + c) + d == (a + b) + c + d
    ensures a + b + (c + d) == a + (b + c) + d
  {
  }

  lemma PushBackKeepsInv(k: Link)
    requires Inv(k) && k.toSwitch != [] && k.slots.inServer > 0
    ensures Inv(OnPushBack(k))
  {
    var k' := OnPushBack(k);
    assert Outside(k) == [k.toSwitch[0]] + Outside(k');
    assert k'.entered + Outside(k') == k.entered + Outside(k);
  }

  ghost predicate Legal(k: Link, ss: seq<Step>)
    decreases |ss|
  {
    ss != [] ==> Enabled(k, ss[0]) && Legal(Apply(k, ss[0]), ss[1..])
  }

  function Run(k: Link, ss: seq<Step>): Link
    requires Legal(k, ss)
    decreases |ss|
  {
    if ss == [] then k else Run(Apply(k, ss[0]), ss[1..])
  }

  lemma {:induction false} RunKeepsInv(k: Link, ss: seq<Step>)
    requires Inv(k) && Legal(k, ss)
    ensures Inv(Run(k, ss))
    decreases |ss|
  {
    if ss != [] {
      match ss[0] {
        case AcquireArrives(e) => AcquireKeepsInv(k, e);
        case ReleaseArrives => ReleaseKeepsInv(k);
        case ServerReceives => ServerKeepsInv(k);
        case PushBackArrives => PushBackKeepsInv(k);
      }
      RunKeepsInv(Apply(k, ss[0]), ss[1..]);
    }
  }

  // Conservation: in every run the counter is the number of requests outside the switch.
  lemma OverflowIsConserved(k: Link, ss: seq<Step>)
    requires Initial(k) && Legal(k, ss)
    ensures var k' := Run(k, ss);
            k'.slots.inServer == |k'.toSwitch| + |k'.buffer| + |Requests(k'.toServer)|
  {
    RunKeepsInv(k, ss);
  }

  // No overtaking: in every run the ring has been entered in arrival order, and while any
  // request is in the server an arrival joins them behind all the others.
  lemma NoOvertaking(k: Link, ss: seq<Step>, e: Entry)
    requires Initial(k) && Legal(k, ss)
    ensures var k' := Run(k, ss);
            && k'.entered <= k'.arrived
            && k'.arrived[|k'.entered|..] == Outside(k')
            && (Outside(k') != [] ==> OnAcquire(k', e).entered == k'.entered
                                      && Outside(OnAcquire(k', e)) == Outside(k') + [e])
  {
    RunKeepsInv(k, ss);
    var k' := Run(k, ss);
    RequestsAppend(k'.toServer, Request(e));
    assert (k'.entered + Outside(k'))[|k'.entered|..] == Outside(k');
    assert k'.toSwitch + k'.buffer + (Requests(k'.toServer) + [e]) == Outside(k') + [e];
  }

  // The server never runs out of requests to push back that the switch still counts, so a
  // push-back is always taken.
  lemma PushBackIsCounted(k: Link, ss: seq<Step>)
    requires Initial(k) && Legal(k, ss) && Run(k, ss).toSwitch != []
    ensures Enabled(Run(k, ss), PushBackArrives)
  {
    RunKeepsInv(k, ss);
  }

  // ---- The link is that of the ring and of the server's buffer ----

  // The slot counters of the link are those of the ring r, no release having been handed over.
  ghost predicate Follows(k: Link, r: Ring) {
    && r.Ok() && r.cap < WIDTH
    && k.slots == Slots(r.cap - r.Size(), r.inServer) && k.sizeOfQueue == r.cap - 1
    && k.entered == r.q.log && k.popped == r.q.popped && k.handOffs == 0
  }

  // An acquire is sent on in the one model exactly if it is in the other.
  lemma AcquireFollows(k: Link, r: Ring, e: Entry)
    requires Follows(k, r)
    ensures Follows(OnAcquire(k, e), AfterAcquire(r, e))
    ensures (OnAcquire(k, e).toServer == k.toServer + [Request(e)]) <==> AcquireVerdict(r, e).Forwarded?
  {
    assert OnAcquire(k, e).toServer == k.toServer || OnAcquire(k, e).toServer == k.toServer + [Request(e)];
    assert |k.toServer + [Request(e)]| == |k.toServer| + 1;
  }

  // Up to the first hand-off, which is when a refill is asked for, releases agree as well.
  lemma ReleaseFollows(k: Link, r: Ring)
    requires Follows(k, r) && r.Size() > 0
    ensures HandOff(r) <==> OnRelease(k).toServer == k.toServer + [Refill]
    ensures if HandOff(r) then OnRelease(k).slots == Slots(r.cap, r.inServer)
            else OnRelease(k).toServer == k.toServer && Follows(OnRelease(k), Popped(r))
  {
    HandOffExactly(r);
    assert OnRelease(k).toServer == k.toServer || OnRelease(k).toServer == k.toServer + [Refill];
    assert |k.toServer + [Refill]| == |k.toServer| + 1;
  }

  // The server's secondary role takes its step on the buffer of the link.
  method ServerStep(server: LockServer.Secondary, lenInSwitch: nat, m: ToServer, ghost k: Link)
    returns (pushed: seq<Entry>)
    requires server.Valid() && server.lockQueue.contents == k.buffer
    requires k.toServer != [] && k.toServer[0] == m && k.lenInSwitch == lenInSwitch
    modifies server.lockQueue, server.lockQueue.spine
    ensures server.Valid() && server.lockQueue.contents == OnServer(k).buffer
    ensures k.toSwitch + pushed == OnServer(k).toSwitch
  {
    match m {
      case Request(e) =>
        server.Buffer(e);
        pushed := [];
      case Refill =>
        pushed := server.Refill(lenInSwitch);
        assert pushed == (pushed + server.lockQueue.contents)[..|pushed|];
        assert server.lockQueue.contents == (pushed + server.lockQueue.contents)[|pushed|..];
    }
  }
}
