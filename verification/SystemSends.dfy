/** A client's turn, second half: it sends an acquire. And a client receives a grant. */
module SystemSends {
  import opened NetLockTypes
  import opened ClientMachine
  import opened LockSystem
  import LockRing
  import CI = ClientInvariant

  // ---- Sending ----

  ghost function After(node: Node, c': State): Node {
    Node(node.load, c', node.base, node.places + [Flying])
  }

  ghost function Send(w: World, who: Client, c': State, a: AcquirePacket): World
    requires who in w.nodes
  {
    w.(nodes := w.nodes[who := After(w.nodes[who], c')], acquires := w.acquires + {a})
  }

  // The acquire is numbered next, and it opens an attempt or continues one.
  ghost predicate Sends(w: World, who: Client, c': State, a: AcquirePacket)
    requires who in w.nodes
  {
    var node := w.nodes[who];
    var node' := After(node, c');
    && NodeOk(w, who) && node'.Ok()
    && a.n == |node.places| && a.e.Owner() == who && a.lock < |w.locks| && node'.Asks(a.n, a.lock, a.e)
    && ((|node.places| == node.base && node'.Grants() == []) || Continues(node, node'))
  }

  ghost predicate Continues(node: Node, node': Node)
    requires node.Ok() && node'.Ok()
  {
    && node'.c.lastTxn == node.c.lastTxn && node'.c.lastTxnIdx == node.c.lastTxnIdx
    && node'.Grants() == node.Grants() && node'.GivenBack() == node.GivenBack()
  }

  lemma SendKeepsAsking(w: World, who: Client, c': State, a: AcquirePacket, n: nat, lock: nat, e: Entry)
    requires who in w.nodes && Sends(w, who, c', a) && w.nodes[who].Asks(n, lock, e)
    ensures After(w.nodes[who], c').Asks(n, lock, e)
  {
  }

  lemma SendKeepsEntry(w: World, who: Client, c': State, a: AcquirePacket, l: nat, p: nat)
    requires who in w.nodes && Sends(w, who, c', a) && InRing(w, l, p) && EntryOk(w, l, p)
    ensures EntryOk(Send(w, who, c', a), l, p)
  {
    var e, n := w.locks[l].r.q.log[p], w.locks[l].tags[p];
    if e.Owner() == who && w.nodes[who].base <= n {
      SendKeepsAsking(w, who, c', a, n, l, e);
    }
  }

  lemma SendKeepsAcquire(w: World, who: Client, c': State, a: AcquirePacket, b: AcquirePacket)
    requires who in w.nodes && Sends(w, who, c', a) && AcquireOk(w, b)
    ensures AcquireOk(Send(w, who, c', a), b)
  {
    if b.e.Owner() == who {
      SendKeepsAsking(w, who, c', a, b.n, b.lock, b.e);
    }
  }

  lemma NewAcquireOk(w: World, who: Client, c': State, a: AcquirePacket)
    requires who in w.nodes && Sends(w, who, c', a)
    ensures AcquireOk(Send(w, who, c', a), a)
  {
  }

  lemma SendKeepsPlace(w: World, who: Client, c': State, a: AcquirePacket, o: Client, n: nat)
    requires Inv(w) && who in w.nodes && Sends(w, who, c', a)
    requires o in w.nodes && n < |Send(w, who, c', a).nodes[o].places|
    ensures PlaceOk(Send(w, who, c', a), o, n)
  {
    if n < |w.nodes[o].places| {
      assert PlaceOk(w, o, n);
    }
  }

  lemma SendKeepsList(w: World, who: Client, c': State, a: AcquirePacket, o: Client, k: nat)
    requires Inv(w) && who in w.nodes && Sends(w, who, c', a)
    requires var w' := Send(w, who, c', a);
             o in w'.nodes && w'.nodes[o].Ok() && k < |w'.nodes[o].Grants()|
    ensures ListOk(Send(w, who, c', a), o, k)
  {
    assert ListOk(w, o, k);
    if o == who {
      OwnListAfterSend(w, who, c', a, k);
    } else {
      OtherListAfterSend(w, who, c', a, o, k);
    }
  }

  lemma OtherListAfterSend(w: World, who: Client, c': State, a: AcquirePacket, o: Client, k: nat)
    requires who in w.nodes && o in w.nodes && o != who
    requires w.nodes[o].Ok() && k < |w.nodes[o].Grants()| && ListOk(w, o, k)
    ensures ListOk(Send(w, who, c', a), o, k)
  {
  }

  lemma OwnListAfterSend(w: World, who: Client, c': State, a: AcquirePacket, k: nat)
    requires who in w.nodes && Sends(w, who, c', a)
    requires k < |After(w.nodes[who], c').Grants()| && k < |w.nodes[who].Grants()| && ListOk(w, who, k)
    ensures ListOk(Send(w, who, c', a), who, k)
  {
  }

  lemma SendKeepsNodes(w: World, who: Client, c': State, a: AcquirePacket)
    requires Inv(w) && who in w.nodes && Sends(w, who, c', a)
    ensures NodesInv(Send(w, who, c', a))
  {
    var w' := Send(w, who, c', a);
    forall o | o in w'.nodes
      ensures NodeOk(w', o)
      ensures Distinct(w'.nodes[o].Grants())
    {
      assert NodeOk(w, o) && Distinct(w.nodes[o].Grants());
    }
    SendKeepsPlaces(w, who, c', a);
    SendKeepsLists(w, who, c', a);
  }

  lemma SendKeepsPlaces(w: World, who: Client, c': State, a: AcquirePacket)
    requires Inv(w) && who in w.nodes && Sends(w, who, c', a)
    ensures var w' := Send(w, who, c', a);
            forall o, n: nat | o in w'.nodes && n < |w'.nodes[o].places| :: PlaceOk(w', o, n)
  {
    var w' := Send(w, who, c', a);
    forall o, n: nat | o in w'.nodes && n < |w'.nodes[o].places|
      ensures PlaceOk(w', o, n)
    {
      SendKeepsPlace(w, who, c', a, o, n);
    }
  }

  lemma SendKeepsLists(w: World, who: Client, c': State, a: AcquirePacket)
    requires Inv(w) && who in w.nodes && Sends(w, who, c', a)
    ensures var w' := Send(w, who, c', a);
            forall o, k: nat | o in w'.nodes && w'.nodes[o].Ok() && k < |w'.nodes[o].Grants()| :: ListOk(w', o, k)
  {
    var w' := Send(w, who, c', a);
    forall o, k: nat | o in w'.nodes && w'.nodes[o].Ok() && k < |w'.nodes[o].Grants()|
      ensures ListOk(w', o, k)
    {
      SendKeepsList(w, who, c', a, o, k);
    }
  }

  lemma SendKeepsAcquires(w: World, who: Client, c': State, a: AcquirePacket, b: AcquirePacket)
    requires Inv(w) && who in w.nodes && Sends(w, who, c', a) && b in Send(w, who, c', a).acquires
    ensures AcquireOk(Send(w, who, c', a), b)
    ensures b.e.Owner() == who && b.n == a.n ==> b == a
  {
    if b in w.acquires {
      assert AcquireOk(w, b);
      SendKeepsAcquire(w, who, c', a, b);
    } else {
      NewAcquireOk(w, who, c', a);
    }
  }

  lemma SendKeepsUnique(w: World, who: Client, c': State, a: AcquirePacket, b: AcquirePacket, b': AcquirePacket)
    requires Inv(w) && who in w.nodes && Sends(w, who, c', a)
    requires b in Send(w, who, c', a).acquires && b' in Send(w, who, c', a).acquires
    requires b.e.Owner() == b'.e.Owner() && b.n == b'.n
    ensures b == b'
  {
    SendKeepsAcquires(w, who, c', a, b);
    SendKeepsAcquires(w, who, c', a, b');
  }

  lemma SendKeepsPackets(w: World, who: Client, c': State, a: AcquirePacket)
    requires Inv(w) && who in w.nodes && Sends(w, who, c', a)
    ensures PacketsInv(Send(w, who, c', a))
  {
    var w' := Send(w, who, c', a);
    forall b | b in w'.acquires
      ensures AcquireOk(w', b)
    {
      SendKeepsAcquires(w, who, c', a, b);
    }
    forall b, b' | b in w'.acquires && b' in w'.acquires && b.e.Owner() == b'.e.Owner() && b.n == b'.n
      ensures b == b'
    {
      SendKeepsUnique(w, who, c', a, b, b');
    }
    forall g | g in w'.grants ensures GrantOk(w', g) { assert GrantOk(w, g); }
    forall r | r in w'.releases ensures ReleaseOk(w', r) { assert ReleaseOk(w, r); }
  }

  lemma SendKeepsInv(w: World, who: Client, c': State, a: AcquirePacket)
    requires Inv(w) && who in w.nodes && Sends(w, who, c', a)
    ensures Inv(Send(w, who, c', a))
  {
    var w' := Send(w, who, c', a);
    forall l: nat | l < |w'.locks| ensures LockOk(w', l) { assert LockOk(w, l); }
    forall l: nat, p: nat | InRing(w', l, p)
      ensures EntryOk(w', l, p)
    {
      assert InRing(w, l, p) && EntryOk(w, l, p);
      SendKeepsEntry(w, who, c', a, l, p);
    }
    SendKeepsNodes(w, who, c', a);
    SendKeepsPackets(w, who, c', a);
  }

  // ---- Receiving ----

  function GrantOf(g: GrantPacket): Grant {
    Grant(g.e.tid, g.lock, g.e.mode, g.pos)
  }

  ghost function SetStatus(w: World, l: nat, p: nat, v: LockRing.Status): World
    requires l < |w.locks| && p < |w.locks[l].status|
  {
    w.(locks := w.locks[l := w.locks[l].(status := w.locks[l].status[p := v])])
  }

  ghost predicate CanDeliver(w: World, g: GrantPacket) {
    && g in w.grants && g.lock < |w.locks| && g.pos < |w.locks[g.lock].status|
    && g.e.Owner() in w.nodes
    && g.e.tid < |w.nodes[g.e.Owner()].c.queues| == |w.nodes[g.e.Owner()].c.txnR|
  }

  ghost function Deliver(w: World, g: GrantPacket): World
    requires CanDeliver(w, g)
  {
    var who := g.e.Owner();
    var node := w.nodes[who];
    SetStatus(w, g.lock, g.pos, LockRing.Held).(
      nodes := w.nodes[who := node.(c := Receive(node.c, GrantOf(g)))], grants := w.grants - {g})
  }

  // A grant on its way answers an acquire of the client's current attempt; no grant is stale.
  lemma GrantAnswers(w: World, g: GrantPacket)
    requires Inv(w) && g in w.grants
    ensures GrantOk(w, g) && EntryOk(w, g.lock, g.pos)
    ensures var node := w.nodes[g.e.Owner()];
            && NodeOk(w, g.e.Owner())
            && node.base <= w.locks[g.lock].tags[g.pos]
            && g.e.tid == node.c.lastTxn
            && |node.Grants()| < |node.places| - node.base
            && forall k | 0 <= k < |node.Grants()| ::
                 (node.Grants()[k].lock, node.Grants()[k].pos) != (g.lock, g.pos)
  {
    assert GrantOk(w, g) && InRing(w, g.lock, g.pos) && EntryOk(w, g.lock, g.pos);
    var who := g.e.Owner();
    var node, n := w.nodes[who], w.locks[g.lock].tags[g.pos];
    assert NodeOk(w, who) && PlaceOk(w, who, n);
    forall k: nat | k < |node.Grants()|
      ensures (node.Grants()[k].lock, node.Grants()[k].pos) != (g.lock, g.pos)
    {
      assert ListOk(w, who, k);
    }
    NoNumberIs(w, who, n);
    NumbersAreDistinct(w, who);
    Pigeonhole(Numbers(w, who), node.base, |node.places|, n);
  }

  // A grant finds its client and a list to be appended to.
  lemma GrantIsDeliverable(w: World, g: GrantPacket)
    requires Inv(w) && g in w.grants
    ensures CanDeliver(w, g)
  {
    GrantAnswers(w, g);
  }

  lemma NoNumberIs(w: World, who: Client, n: nat)
    requires Inv(w) && who in w.nodes && w.nodes[who].Ok() && n < |w.nodes[who].places|
    requires var node := w.nodes[who];
             && node.places[n].At?
             && forall k | 0 <= k < |node.Grants()| ::
                  (node.Grants()[k].lock, node.Grants()[k].pos) != (node.places[n].lock, node.places[n].pos)
    ensures n !in Numbers(w, who)
  {
    forall k | 0 <= k < |Numbers(w, who)|
      ensures Numbers(w, who)[k] != n
    {
      NumberInAttempt(w, who, k);
    }
  }

  // Two packets or list entries for one position are one: nobody else is concerned by a delivery.
  lemma DeliverKeepsEntry(w: World, g: GrantPacket, l: nat, p: nat)
    requires Inv(w) && CanDeliver(w, g) && InRing(Deliver(w, g), l, p)
    ensures EntryOk(Deliver(w, g), l, p)
  {
    assert InRing(w, l, p) && EntryOk(w, l, p);
    DeliverKeepsNode(w, g);
  }

  // The client gains the grant and nothing else changes for it.
  ghost predicate Gains(node: Node, node': Node, g: Grant) {
    && node.Ok() && node'.Ok()
    && node'.base == node.base && node'.places == node.places && node'.load == node.load
    && node'.c.lastTxn == node.c.lastTxn && node'.c.lastTxnIdx == node.c.lastTxnIdx
    && node'.Grants() == node.Grants() + [g] && node'.GivenBack() == node.GivenBack()
    && forall n, l, e | node.Asks(n, l, e) :: node'.Asks(n, l, e)
  }

  lemma NodeGains(node: Node, g: Grant)
    requires node.Ok() && g.tid == node.c.lastTxn && |node.Grants()| < |node.places| - node.base
    ensures Gains(node, node.(c := Receive(node.c, g)), g)
  {
    CI.ReceiveKeepsInv(node.load, node.c, |node.places| - node.base, g);
  }

  lemma DeliverKeepsNode(w: World, g: GrantPacket)
    requires Inv(w) && CanDeliver(w, g)
    ensures Gains(w.nodes[g.e.Owner()], Deliver(w, g).nodes[g.e.Owner()], GrantOf(g))
  {
    GrantAnswers(w, g);
    NodeGains(w.nodes[g.e.Owner()], GrantOf(g));
  }

  lemma DeliverKeepsDistinct(w: World, g: GrantPacket)
    requires Inv(w) && CanDeliver(w, g)
    ensures var who, w' := g.e.Owner(), Deliver(w, g);
            who in w'.nodes && w'.nodes[who].Ok() && Distinct(w'.nodes[who].Grants())
  {
    DeliverKeepsNode(w, g);
    GrantAnswers(w, g);
    assert Distinct(w.nodes[g.e.Owner()].Grants());
  }

  lemma DeliverKeepsAcquire(w: World, g: GrantPacket, a: AcquirePacket)
    requires Inv(w) && CanDeliver(w, g) && a in w.acquires
    ensures AcquireOk(Deliver(w, g), a)
  {
    DeliverKeepsNode(w, g);
    assert AcquireOk(w, a);
  }

  lemma DeliverKeepsPlace(w: World, g: GrantPacket, o: Client, n: nat)
    requires Inv(w) && CanDeliver(w, g) && o in w.nodes && n < |w.nodes[o].places|
    ensures o in Deliver(w, g).nodes && Deliver(w, g).nodes[o].places == w.nodes[o].places
    ensures PlaceOk(Deliver(w, g), o, n)
  {
    DeliverKeepsNode(w, g);
    assert PlaceOk(w, o, n);
    assert GrantOk(w, g);
  }

  lemma DeliverKeepsList(w: World, g: GrantPacket, o: Client, k: nat)
    requires Inv(w) && CanDeliver(w, g)
    requires var w' := Deliver(w, g);
             o in w'.nodes && w'.nodes[o].Ok() && k < |w'.nodes[o].Grants()|
    ensures ListOk(Deliver(w, g), o, k)
  {
    DeliverKeepsNode(w, g);
    GrantAnswers(w, g);
    if o != g.e.Owner() || k < |w.nodes[o].Grants()| {
      OldListAfterDelivery(w, g, o, k);
    }
  }

  lemma OldListAfterDelivery(w: World, g: GrantPacket, o: Client, k: nat)
    requires Inv(w) && CanDeliver(w, g) && o in w.nodes && w.nodes[o].Ok() && k < |w.nodes[o].Grants()|
    ensures var w' := Deliver(w, g);
            o in w'.nodes && w'.nodes[o].Ok() && k < |w'.nodes[o].Grants()| && ListOk(w', o, k)
  {
    DeliverKeepsNode(w, g);
    GrantAnswers(w, g);
    assert ListOk(w, o, k);
    StatusElsewhere(w, g, w.nodes[o].Grants()[k].lock, w.nodes[o].Grants()[k].pos);
  }

  lemma StatusElsewhere(w: World, g: GrantPacket, l: nat, p: nat)
    requires Inv(w) && CanDeliver(w, g) && InRing(w, l, p)
    ensures InRing(Deliver(w, g), l, p)
    ensures Deliver(w, g).locks[l].r == w.locks[l].r && Deliver(w, g).locks[l].tags == w.locks[l].tags
    ensures Status(Deliver(w, g), l, p) == if (l, p) == (g.lock, g.pos) then LockRing.Held else Status(w, l, p)
    ensures (l, p) == (g.lock, g.pos) ==> Status(w, l, p).Granting?
  {
    GrantAnswers(w, g);
  }

  lemma DeliverKeepsNodes(w: World, g: GrantPacket)
    requires Inv(w) && CanDeliver(w, g)
    ensures NodesInv(Deliver(w, g))
  {
    var w' := Deliver(w, g);
    DeliverKeepsNode(w, g);
    DeliverKeepsDistinct(w, g);
    forall o | o in w'.nodes
      ensures NodeOk(w', o)
      ensures Distinct(w'.nodes[o].Grants())
    {
      assert NodeOk(w, o) && Distinct(w.nodes[o].Grants());
    }
    DeliverKeepsPlaces(w, g);
    DeliverKeepsLists(w, g);
  }

  lemma DeliverKeepsPlaces(w: World, g: GrantPacket)
    requires Inv(w) && CanDeliver(w, g)
    ensures var w' := Deliver(w, g);
            forall o, n: nat | o in w'.nodes && n < |w'.nodes[o].places| :: PlaceOk(w', o, n)
  {
    var w' := Deliver(w, g);
    forall o, n: nat | o in w'.nodes && n < |w'.nodes[o].places|
      ensures PlaceOk(w', o, n)
    {
      DeliverKeepsPlace(w, g, o, n);
    }
  }

  lemma DeliverKeepsLists(w: World, g: GrantPacket)
    requires Inv(w) && CanDeliver(w, g)
    ensures var w' := Deliver(w, g);
            forall o, k: nat | o in w'.nodes && w'.nodes[o].Ok() && k < |w'.nodes[o].Grants()| :: ListOk(w', o, k)
  {
    var w' := Deliver(w, g);
    forall o, k: nat | o in w'.nodes && w'.nodes[o].Ok() && k < |w'.nodes[o].Grants()|
      ensures ListOk(w', o, k)
    {
      DeliverKeepsList(w, g, o, k);
    }
  }

  lemma DeliverKeepsPackets(w: World, g: GrantPacket)
    requires Inv(w) && CanDeliver(w, g)
    ensures PacketsInv(Deliver(w, g))
  {
    var w' := Deliver(w, g);
    assert GrantOk(w, g);
    forall a | a in w'.acquires ensures AcquireOk(w', a) { DeliverKeepsAcquire(w, g, a); }
    forall h | h in w'.grants ensures GrantOk(w', h) { assert GrantOk(w, h); }
    forall r | r in w'.releases ensures ReleaseOk(w', r) { assert ReleaseOk(w, r); }
  }

  lemma DeliverKeepsInv(w: World, g: GrantPacket)
    requires Inv(w) && CanDeliver(w, g)
    ensures Inv(Deliver(w, g))
  {
    var w' := Deliver(w, g);
    assert GrantOk(w, g);
    forall l: nat | l < |w'.locks|
      ensures LockOk(w', l)
    {
      assert LockOk(w, l);
      if l == g.lock {
        LockRing.StatusChangeKeepsInv(w.locks[l], g.pos, LockRing.Held);
      }
    }
    forall l: nat, p: nat | InRing(w', l, p) ensures EntryOk(w', l, p) { DeliverKeepsEntry(w, g, l, p); }
    DeliverKeepsNodes(w, g);
    DeliverKeepsPackets(w, g);
  }
}
