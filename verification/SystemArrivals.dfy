/** An acquire reaches the switch. */
module SystemArrivals {
  import opened NetLockTypes
  import opened ClientMachine
  import opened LockSystem
  import opened SystemSwitch
  import LockRing
  import LockRun
  import RwLock
  import CI = ClientInvariant

  // The acquire is under way and the switch has a ring for its lock.
  ghost predicate CanArrive(w: World, a: AcquirePacket) {
    && a in w.acquires && a.lock < |w.locks| && w.locks[a.lock].r.Ok()
    && a.e.Owner() in w.nodes && a.n < |w.nodes[a.e.Owner()].places|
  }

  ghost predicate AtDoor(w: World, a: AcquirePacket) {
    && Inv(w) && a in w.acquires
    && AcquireOk(w, a) && LockOk(w, a.lock)
    && w.locks[a.lock].r.Ok()
  }

  lemma AcquireIsAtDoor(w: World, a: AcquirePacket)
    requires Inv(w) && a in w.acquires
    ensures AtDoor(w, a)
  {
    assert AcquireOk(w, a) && LockOk(w, a.lock);
  }

  ghost function PlaceAfter(w: World, a: AcquirePacket): Place
    requires CanArrive(w, a)
  {
    var k := w.locks[a.lock];
    if LockRing.HasRoom(k.r) then At(a.lock, |k.r.q.log|) else Buffered
  }

  ghost function NodeAfter(w: World, a: AcquirePacket): (node': Node)
    requires CanArrive(w, a)
    ensures var node := w.nodes[a.e.Owner()];
            node.Ok() ==>
            && node'.Ok() && node'.base == node.base && node'.Grants() == node.Grants()
            && node'.GivenBack() == node.GivenBack() && |node'.places| == |node.places|
            && forall n, l, e | node.Asks(n, l, e) :: node'.Asks(n, l, e)
  {
    var node := w.nodes[a.e.Owner()];
    node.(places := node.places[a.n := PlaceAfter(w, a)])
  }

  ghost function LockAfter(w: World, a: AcquirePacket): LockRing.Lock
    requires CanArrive(w, a)
  {
    var k := w.locks[a.lock];
    if LockRing.HasRoom(k.r) then LockRing.Enter(k, a.e, a.n)
    else k.(r := LockRing.AfterAcquire(k.r, a.e))
  }

  // With room in the ring the request is queued there, and granted at once if it joins the
  // holders; otherwise it goes on to the server.
  ghost function Arrive(w: World, a: AcquirePacket): World
    requires CanArrive(w, a)
  {
    var k := w.locks[a.lock];
    w.(nodes := w.nodes[a.e.Owner() := NodeAfter(w, a)],
       locks := w.locks[a.lock := LockAfter(w, a)],
       acquires := w.acquires - {a},
       grants := if LockRing.AcquireVerdict(k.r, a.e).Granted?
                 then w.grants + {GrantPacket(a.lock, |k.r.q.log|, a.e)} else w.grants)
  }

  lemma ArriveKeepsEntries(w: World, a: AcquirePacket)
    requires AtDoor(w, a)
    ensures KeepsEntries(w, Arrive(w, a))
  {
    var w' := Arrive(w, a);
    forall l: nat, p: nat | InRing(w, l, p) ensures KeepsEntry(w, w', l, p) {}
  }

  lemma OldEntryOk(w: World, a: AcquirePacket, l: nat, p: nat)
    requires AtDoor(w, a) && InRing(w, l, p)
    ensures InRing(Arrive(w, a), l, p) && EntryOk(Arrive(w, a), l, p)
  {
    ArriveKeepsEntries(w, a);
    assert EntryOk(w, l, p) && KeepsEntry(w, Arrive(w, a), l, p);
  }

  lemma NewEntryOk(w: World, a: AcquirePacket)
    requires AtDoor(w, a) && LockRing.HasRoom(w.locks[a.lock].r)
    ensures var p := |w.locks[a.lock].r.q.log|;
            InRing(Arrive(w, a), a.lock, p) && EntryOk(Arrive(w, a), a.lock, p)
  {
  }

  lemma ArrivePlaceOk(w: World, a: AcquirePacket, who: Client, n: nat)
    requires AtDoor(w, a) && who in w.nodes && n < |w.nodes[who].places|
    ensures PlaceOk(Arrive(w, a), who, n)
  {
    ArriveKeepsEntries(w, a);
    assert PlaceOk(w, who, n);
    if who == a.e.Owner() && n == a.n {
      if LockRing.HasRoom(w.locks[a.lock].r) {
        NewEntryOk(w, a);
      }
    } else if w.nodes[who].places[n].At? {
      assert KeepsEntry(w, Arrive(w, a), w.nodes[who].places[n].lock, w.nodes[who].places[n].pos);
    }
  }

  lemma ArriveListOk(w: World, a: AcquirePacket, who: Client, k: nat)
    requires AtDoor(w, a) && who in w.nodes && w.nodes[who].Ok() && k < |w.nodes[who].Grants()|
    ensures var w' := Arrive(w, a);
            w'.nodes[who].Ok() && k < |w'.nodes[who].Grants()| && ListOk(w', who, k)
  {
    ArriveKeepsEntries(w, a);
    assert ListOk(w, who, k);
    var g := w.nodes[who].Grants()[k];
    assert KeepsEntry(w, Arrive(w, a), g.lock, g.pos);
  }

  lemma ArriveKeepsNodes(w: World, a: AcquirePacket)
    requires AtDoor(w, a)
    ensures NodesInv(Arrive(w, a))
  {
    var w' := Arrive(w, a);
    forall who | who in w'.nodes
      ensures NodeOk(w', who)
      ensures Distinct(w'.nodes[who].Grants())
    {
      ArriveKeepsNode(w, a, who);
    }
    ArriveKeepsPlaces(w, a);
    ArriveKeepsLists(w, a);
  }

  lemma ArriveKeepsNode(w: World, a: AcquirePacket, who: Client)
    requires AtDoor(w, a) && who in w.nodes
    ensures who in Arrive(w, a).nodes && NodeOk(Arrive(w, a), who) && Distinct(Arrive(w, a).nodes[who].Grants())
  {
    assert NodeOk(w, who) && Distinct(w.nodes[who].Grants());
  }

  lemma ArriveKeepsPlaces(w: World, a: AcquirePacket)
    requires AtDoor(w, a)
    ensures var w' := Arrive(w, a);
            forall who, n: nat | who in w'.nodes && n < |w'.nodes[who].places| :: PlaceOk(w', who, n)
  {
    var w' := Arrive(w, a);
    forall who, n: nat | who in w'.nodes && n < |w'.nodes[who].places|
      ensures PlaceOk(w', who, n)
    {
      ArrivePlaceOk(w, a, who, n);
    }
  }

  lemma ArriveKeepsLists(w: World, a: AcquirePacket)
    requires AtDoor(w, a)
    ensures var w' := Arrive(w, a);
            forall who, k: nat | who in w'.nodes && w'.nodes[who].Ok() && k < |w'.nodes[who].Grants()| :: ListOk(w', who, k)
  {
    var w' := Arrive(w, a);
    forall who, k: nat | who in w'.nodes && w'.nodes[who].Ok() && k < |w'.nodes[who].Grants()|
      ensures ListOk(w', who, k)
    {
      assert NodeOk(w, who);
      ArriveListOk(w, a, who, k);
    }
  }

  lemma OtherAcquireOk(w: World, a: AcquirePacket, b: AcquirePacket)
    requires AtDoor(w, a) && b in w.acquires && b != a
    ensures AcquireOk(Arrive(w, a), b)
  {
    assert AcquireOk(w, b);
  }

  lemma ArriveKeepsGrant(w: World, a: AcquirePacket, g: GrantPacket)
    requires AtDoor(w, a) && GrantOk(w, g)
    ensures GrantOk(Arrive(w, a), g)
  {
  }

  lemma NewGrantOk(w: World, a: AcquirePacket, g: GrantPacket)
    requires AtDoor(w, a) && g in Arrive(w, a).grants && g !in w.grants
    ensures GrantOk(Arrive(w, a), g)
  {
  }

  lemma ArriveKeepsRelease(w: World, a: AcquirePacket, r: ReleasePacket)
    requires AtDoor(w, a) && ReleaseOk(w, r)
    ensures ReleaseOk(Arrive(w, a), r)
  {
  }

  lemma ArriveKeepsPackets(w: World, a: AcquirePacket)
    requires AtDoor(w, a)
    ensures PacketsInv(Arrive(w, a))
  {
    var w' := Arrive(w, a);
    forall b | b in w'.acquires ensures AcquireOk(w', b) { OtherAcquireOk(w, a, b); }
    forall g | g in w'.grants
      ensures GrantOk(w', g)
    {
      if g in w.grants {
        assert GrantOk(w, g);
        ArriveKeepsGrant(w, a, g);
      } else {
        NewGrantOk(w, a, g);
      }
    }
    forall r | r in w'.releases ensures ReleaseOk(w', r) { assert ReleaseOk(w, r); ArriveKeepsRelease(w, a, r); }
  }

  lemma ArriveKeepsLock(w: World, a: AcquirePacket)
    requires AtDoor(w, a)
    requires LockRing.HasRoom(w.locks[a.lock].r) ==> LockRing.NoScanOverrun(w.locks[a.lock])
    ensures LockRing.Inv(LockAfter(w, a))
  {
    LockRun.ArriveKeepsInv(w.locks[a.lock], a.e, a.n);
  }

  lemma ArriveKeepsInv(w: World, a: AcquirePacket)
    requires AtDoor(w, a)
    requires LockRing.HasRoom(w.locks[a.lock].r) ==> LockRing.NoScanOverrun(w.locks[a.lock])
    ensures Inv(Arrive(w, a))
  {
    var w' := Arrive(w, a);
    ArriveKeepsLock(w, a);
    forall l: nat | l < |w'.locks| ensures LockOk(w', l) { assert LockOk(w, l); }
    forall l: nat, p: nat | InRing(w', l, p)
      ensures EntryOk(w', l, p)
    {
      if InRing(w, l, p) {
        OldEntryOk(w, a, l, p);
      } else {
        assert LockOk(w, l);
        NewEntryOk(w, a);
      }
    }
    ArriveKeepsNodes(w, a);
    ArriveKeepsPackets(w, a);
  }
}
