/** A client's turn, first half: it sends releases and perhaps ends its attempt. */
module SystemReleases {
  import opened NetLockTypes
  import opened ClientMachine
  import opened LockSystem
  import LockRing
  import CI = ClientInvariant

  ghost predicate Named(gs: seq<Grant>, l: nat, p: nat) {
    exists k: nat :: NamedBy(gs, l, p, k)
  }

  ghost predicate NamedBy(gs: seq<Grant>, l: nat, p: nat, k: nat) {
    k < |gs| && gs[k].lock == l && gs[k].pos == p
  }

  ghost function MarkLock(k: LockRing.Lock, l: nat, gs: seq<Grant>): (k': LockRing.Lock)
    ensures k' == k.(status := k'.status) && |k'.status| == |k.status|
    ensures forall p | 0 <= p < |k.status| ::
              k'.status[p] == if Named(gs, l, p) then LockRing.Releasing else k.status[p]
  {
    k.(status := seq(|k.status|, p requires 0 <= p < |k.status| =>
      if Named(gs, l, p) then LockRing.Releasing else k.status[p]))
  }

  ghost function PacketOf(g: Grant): ReleasePacket {
    ReleasePacket(g.lock, g.pos, g.mode)
  }

  // The releases gs leave the client who, which goes on as node'.
  ghost function Release(w: World, who: Client, node': Node, gs: seq<Grant>): (w': World)
    ensures |w'.locks| == |w.locks|
    ensures forall l | 0 <= l < |w.locks| :: w'.locks[l] == MarkLock(w.locks[l], l, gs)
  {
    w.(nodes := w.nodes[who := node'],
       locks := seq(|w.locks|, l requires 0 <= l < |w.locks| => MarkLock(w.locks[l], l, gs)),
       releases := w.releases + set g | g in gs :: PacketOf(g))
  }

  // Either the attempt goes on with everything received so far given back, or it ends: all
  // its acquires were answered and the next one starts with an empty list.
  ghost predicate Releases(w: World, who: Client, node': Node, gs: seq<Grant>)
    requires Inv(w) && who in w.nodes
  {
    var node := w.nodes[who];
    && NodeOk(w, who)
    && node'.load == node.load && node'.places == node.places && node'.Ok()
    && gs == node.Grants()[Least(node.GivenBack(), |node.Grants()|)..]
    && (SameAttempt(node, node') || EndsAttempt(node, node'))
  }

  function Least(a: nat, b: nat): nat {
    if a < b then a else b
  }

  ghost predicate SameAttempt(node: Node, node': Node)
    requires node.Ok() && node'.Ok()
  {
    && node'.base == node.base && node'.c.lastTxn == node.c.lastTxn && node'.c.lastTxnIdx == node.c.lastTxnIdx
    && node'.Grants() == node.Grants() && node'.GivenBack() == |node.Grants()|
  }

  ghost predicate EndsAttempt(node: Node, node': Node)
    requires node.Ok() && node'.Ok()
  {
    && |node.Grants()| == |node.places| - node.base
    && node'.base == |node.places| && node'.Grants() == []
  }

  lemma NamedIsHeld(w: World, who: Client, node': Node, gs: seq<Grant>, l: nat, p: nat)
    requires Inv(w) && who in w.nodes && Releases(w, who, node', gs) && Named(gs, l, p)
    ensures InRing(w, l, p) && Status(w, l, p).Held? && w.locks[l].r.q.log[p].Owner() == who
  {
    var k: nat :| NamedBy(gs, l, p, k);
    var node := w.nodes[who];
    assert ListOk(w, who, node.GivenBack() + k);
  }

  lemma ListedIsNamed(w: World, who: Client, node': Node, gs: seq<Grant>, k: nat)
    requires Inv(w) && who in w.nodes && Releases(w, who, node', gs)
    requires w.nodes[who].GivenBack() <= k < |w.nodes[who].Grants()|
    ensures var g := w.nodes[who].Grants()[k]; g in gs && Named(gs, g.lock, g.pos)
  {
    var node := w.nodes[who];
    assert node.Grants()[k] == gs[k - node.GivenBack()];
    assert NamedBy(gs, node.Grants()[k].lock, node.Grants()[k].pos, k - node.GivenBack());
  }

  lemma ReleaseKeepsLocks(w: World, who: Client, node': Node, gs: seq<Grant>, l: nat)
    requires Inv(w) && who in w.nodes && Releases(w, who, node', gs) && l < |w.locks|
    ensures LockOk(Release(w, who, node', gs), l)
  {
    var k, k' := w.locks[l], Release(w, who, node', gs).locks[l];
    assert LockOk(w, l);
    forall p: nat | p < |k.status| && k'.status[p] != k.status[p]
      ensures LockRing.Out(k, p) && LockRing.Out(k', p)
    {
      NamedIsHeld(w, who, node', gs, l, p);
    }
    LockRing.OutChangesKeepInv(k, k');
  }

  lemma SameAttemptAsks(node: Node, node': Node, n: nat, lock: nat, e: Entry)
    requires node.Ok() && node'.Ok() && SameAttempt(node, node') && node.Asks(n, lock, e)
    requires node'.load == node.load && node'.places == node.places
    ensures node'.Asks(n, lock, e)
  {
  }

  lemma OwnEntryOk(w: World, who: Client, node': Node, gs: seq<Grant>, l: nat, p: nat)
    requires Inv(w) && who in w.nodes && Releases(w, who, node', gs)
    requires InRing(w, l, p) && EntryOk(w, l, p) && w.locks[l].r.q.log[p].Owner() == who
    ensures InRing(Release(w, who, node', gs), l, p) && EntryOk(Release(w, who, node', gs), l, p)
  {
    var node, n := w.nodes[who], w.locks[l].tags[p];
    if SameAttempt(node, node') && node.base <= n {
      SameAttemptAsks(node, node', n, l, w.locks[l].r.q.log[p]);
    }
  }

  lemma OtherEntryOk(w: World, who: Client, node': Node, gs: seq<Grant>, l: nat, p: nat)
    requires InRing(w, l, p) && EntryOk(w, l, p) && w.locks[l].r.q.log[p].Owner() != who
    ensures InRing(Release(w, who, node', gs), l, p) && EntryOk(Release(w, who, node', gs), l, p)
  {
  }

  lemma ReleaseKeepsEntries(w: World, who: Client, node': Node, gs: seq<Grant>, l: nat, p: nat)
    requires Inv(w) && who in w.nodes && Releases(w, who, node', gs)
    requires InRing(Release(w, who, node', gs), l, p)
    ensures EntryOk(Release(w, who, node', gs), l, p)
  {
    assert InRing(w, l, p) && EntryOk(w, l, p);
    if w.locks[l].r.q.log[p].Owner() == who {
      OwnEntryOk(w, who, node', gs, l, p);
    } else {
      OtherEntryOk(w, who, node', gs, l, p);
    }
  }

  // What a client has given back, or gives back now, stays given back.
  lemma GivenBackAfter(w: World, who: Client, node': Node, gs: seq<Grant>, k: nat)
    requires Inv(w) && who in w.nodes && Releases(w, who, node', gs) && k < |w.nodes[who].Grants()|
    ensures var g := w.nodes[who].Grants()[k];
            && ListOk(w, who, k)
            && InRing(Release(w, who, node', gs), g.lock, g.pos)
            && GivenUp(Release(w, who, node', gs), g.lock, g.pos)
  {
    assert ListOk(w, who, k);
    if w.nodes[who].GivenBack() <= k {
      ListedIsNamed(w, who, node', gs, k);
    }
  }

  lemma EndedPlaceOk(w: World, who: Client, node': Node, gs: seq<Grant>, n: nat)
    requires Inv(w) && who in w.nodes && Releases(w, who, node', gs) && EndsAttempt(w.nodes[who], node')
    requires w.nodes[who].base <= n < |w.nodes[who].places|
    ensures PlaceOk(Release(w, who, node', gs), who, n)
  {
    var k := AllAnswered(w, who, n);
    GivenBackAfter(w, who, node', gs, k);
  }

  lemma ReleaseKeepsPlaces(w: World, who: Client, node': Node, gs: seq<Grant>, o: Client, n: nat)
    requires Inv(w) && who in w.nodes && Releases(w, who, node', gs)
    requires o in w.nodes && n < |w.nodes[o].places|
    ensures PlaceOk(Release(w, who, node', gs), o, n)
  {
    assert PlaceOk(w, o, n);
    if o == who && EndsAttempt(w.nodes[who], node') && w.nodes[who].base <= n {
      EndedPlaceOk(w, who, node', gs, n);
    } else {
      KeptPlaceOk(w, who, node', gs, o, n);
    }
  }

  lemma KeptPlaceOk(w: World, who: Client, node': Node, gs: seq<Grant>, o: Client, n: nat)
    requires who in w.nodes && node'.places == w.nodes[who].places
    requires o in w.nodes && n < |w.nodes[o].places| && PlaceOk(w, o, n)
    requires o == who ==> node'.base == w.nodes[who].base || n < w.nodes[who].base
    ensures PlaceOk(Release(w, who, node', gs), o, n)
  {
  }

  lemma OtherListOk(w: World, who: Client, node': Node, gs: seq<Grant>, o: Client, k: nat)
    requires Inv(w) && who in w.nodes && Releases(w, who, node', gs) && o != who
    requires o in w.nodes && w.nodes[o].Ok() && k < |w.nodes[o].Grants()|
    ensures ListOk(Release(w, who, node', gs), o, k)
  {
    assert ListOk(w, o, k);
    var g := w.nodes[o].Grants()[k];
    if Named(gs, g.lock, g.pos) {
      NamedIsHeld(w, who, node', gs, g.lock, g.pos);
    }
  }

  lemma ReleaseKeepsLists(w: World, who: Client, node': Node, gs: seq<Grant>, o: Client, k: nat)
    requires Inv(w) && who in w.nodes && Releases(w, who, node', gs)
    requires var w' := Release(w, who, node', gs);
             o in w'.nodes && w'.nodes[o].Ok() && k < |w'.nodes[o].Grants()|
    ensures ListOk(Release(w, who, node', gs), o, k)
  {
    if o == who {
      GivenBackAfter(w, who, node', gs, k);
    } else {
      OtherListOk(w, who, node', gs, o, k);
    }
  }

  lemma OwnAcquireOk(w: World, who: Client, node': Node, gs: seq<Grant>, a: AcquirePacket)
    requires Inv(w) && who in w.nodes && Releases(w, who, node', gs)
    requires AcquireOk(w, a) && a.e.Owner() == who
    ensures AcquireOk(Release(w, who, node', gs), a)
  {
    if EndsAttempt(w.nodes[who], node') {
      var k := AllAnswered(w, who, a.n);
    } else {
      SameAttemptAsks(w.nodes[who], node', a.n, a.lock, a.e);
    }
  }

  lemma ReleaseKeepsAcquires(w: World, who: Client, node': Node, gs: seq<Grant>, a: AcquirePacket)
    requires Inv(w) && who in w.nodes && Releases(w, who, node', gs) && a in w.acquires
    ensures AcquireOk(Release(w, who, node', gs), a)
  {
    assert AcquireOk(w, a);
    if a.e.Owner() == who {
      OwnAcquireOk(w, who, node', gs, a);
    }
  }

  lemma ReleaseKeepsPackets(w: World, who: Client, node': Node, gs: seq<Grant>)
    requires Inv(w) && who in w.nodes && Releases(w, who, node', gs)
    ensures PacketsInv(Release(w, who, node', gs))
  {
    var w' := Release(w, who, node', gs);
    forall a | a in w'.acquires
      ensures AcquireOk(w', a)
    {
      ReleaseKeepsAcquires(w, who, node', gs, a);
    }
    forall g | g in w'.grants
      ensures GrantOk(w', g)
    {
      assert GrantOk(w, g);
      if Named(gs, g.lock, g.pos) {
        NamedIsHeld(w, who, node', gs, g.lock, g.pos);
      }
    }
    forall r | r in w'.releases
      ensures ReleaseOk(w', r)
    {
      ReleaseKeepsReleases(w, who, node', gs, r);
    }
  }

  lemma NewReleaseOk(w: World, who: Client, node': Node, gs: seq<Grant>, k: nat)
    requires Inv(w) && who in w.nodes && Releases(w, who, node', gs) && k < |gs|
    ensures ReleaseOk(Release(w, who, node', gs), PacketOf(gs[k]))
  {
    var node := w.nodes[who];
    assert gs[k] == node.Grants()[node.GivenBack() + k];
    assert ListOk(w, who, node.GivenBack() + k);
    assert NamedBy(gs, gs[k].lock, gs[k].pos, k);
  }

  lemma ReleaseKeepsReleases(w: World, who: Client, node': Node, gs: seq<Grant>, r: ReleasePacket)
    requires Inv(w) && who in w.nodes && Releases(w, who, node', gs)
    requires r in Release(w, who, node', gs).releases
    ensures ReleaseOk(Release(w, who, node', gs), r)
  {
    if r in w.releases {
      assert ReleaseOk(w, r);
    } else {
      var g :| g in gs && r == PacketOf(g);
      var k :| 0 <= k < |gs| && gs[k] == g;
      NewReleaseOk(w, who, node', gs, k);
    }
  }

  lemma ReleaseKeepsInv(w: World, who: Client, node': Node, gs: seq<Grant>)
    requires Inv(w) && who in w.nodes && Releases(w, who, node', gs)
    ensures Inv(Release(w, who, node', gs))
  {
    var w' := Release(w, who, node', gs);
    forall l: nat | l < |w'.locks| ensures LockOk(w', l) { ReleaseKeepsLocks(w, who, node', gs, l); }
    forall l: nat, p: nat | InRing(w', l, p) ensures EntryOk(w', l, p) { ReleaseKeepsEntries(w, who, node', gs, l, p); }
    ReleaseKeepsNodes(w, who, node', gs);
    ReleaseKeepsPackets(w, who, node', gs);
  }

  lemma ReleaseKeepsNodes(w: World, who: Client, node': Node, gs: seq<Grant>)
    requires Inv(w) && who in w.nodes && Releases(w, who, node', gs)
    ensures NodesInv(Release(w, who, node', gs))
  {
    var w' := Release(w, who, node', gs);
    forall o | o in w'.nodes
      ensures NodeOk(w', o)
      ensures Distinct(w'.nodes[o].Grants())
    {
      assert NodeOk(w, o) && Distinct(w.nodes[o].Grants());
    }
    ReleaseKeepsAllPlaces(w, who, node', gs);
    ReleaseKeepsAllLists(w, who, node', gs);
  }

  lemma ReleaseKeepsAllPlaces(w: World, who: Client, node': Node, gs: seq<Grant>)
    requires Inv(w) && who in w.nodes && Releases(w, who, node', gs)
    ensures var w' := Release(w, who, node', gs);
            forall o, n: nat | o in w'.nodes && n < |w'.nodes[o].places| :: PlaceOk(w', o, n)
  {
    var w' := Release(w, who, node', gs);
    forall o, n: nat | o in w'.nodes && n < |w'.nodes[o].places|
      ensures PlaceOk(w', o, n)
    {
      ReleaseKeepsPlaces(w, who, node', gs, o, n);
    }
  }

  lemma ReleaseKeepsAllLists(w: World, who: Client, node': Node, gs: seq<Grant>)
    requires Inv(w) && who in w.nodes && Releases(w, who, node', gs)
    ensures var w' := Release(w, who, node', gs);
            forall o, k: nat | o in w'.nodes && w'.nodes[o].Ok() && k < |w'.nodes[o].Grants()| :: ListOk(w', o, k)
  {
    var w' := Release(w, who, node', gs);
    forall o, k: nat | o in w'.nodes && w'.nodes[o].Ok() && k < |w'.nodes[o].Grants()|
      ensures ListOk(w', o, k)
    {
      ReleaseKeepsLists(w, who, node', gs, o, k);
    }
  }
}
