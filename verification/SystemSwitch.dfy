/** Packets at the switch: an acquire, the first pass of a release, a recirculated pass. */
module SystemSwitch {
  import opened NetLockTypes
  import opened ClientMachine
  import opened LockSystem
  import LockRing
  import CI = ClientInvariant

  // ---- What a change of the locks leaves alone ----

  // Entries stay where they are; what is held stays held, what is given up stays given up.
  ghost predicate KeepsEntry(w: World, w': World, l: nat, p: nat)
    requires InRing(w, l, p)
  {
    && InRing(w', l, p)
    && w'.locks[l].r.q.log[p] == w.locks[l].r.q.log[p] && w'.locks[l].tags[p] == w.locks[l].tags[p]
    && (GivenUp(w, l, p) ==> GivenUp(w', l, p))
    && (Status(w, l, p).Held? ==> Status(w', l, p).Held?)
  }

  ghost predicate KeepsEntries(w: World, w': World) {
    && |w'.locks| == |w.locks|
    && forall l: nat, p: nat | InRing(w, l, p) :: KeepsEntry(w, w', l, p)
  }

  lemma KeptList(w: World, w': World, who: Client, k: nat)
    requires KeepsEntries(w, w') && w'.nodes == w.nodes && who in w.nodes && w.nodes[who].Ok()
    requires k < |w.nodes[who].Grants()| && ListOk(w, who, k)
    ensures ListOk(w', who, k)
  {
    var g := w.nodes[who].Grants()[k];
    assert KeepsEntry(w, w', g.lock, g.pos);
  }

  lemma KeptPlace(w: World, w': World, who: Client, n: nat)
    requires KeepsEntries(w, w') && w'.nodes == w.nodes && who in w.nodes
    requires n < |w.nodes[who].places| && PlaceOk(w, who, n)
    ensures PlaceOk(w', who, n)
  {
    if w.nodes[who].places[n].At? {
      assert KeepsEntry(w, w', w.nodes[who].places[n].lock, w.nodes[who].places[n].pos);
    }
  }

  lemma KeptNodes(w: World, w': World)
    requires NodesInv(w) && KeepsEntries(w, w') && w'.nodes == w.nodes
    ensures NodesInv(w')
  {
    forall who | who in w'.nodes ensures NodeOk(w', who) { assert NodeOk(w, who); }
    forall who, n: nat | who in w'.nodes && n < |w'.nodes[who].places|
      ensures PlaceOk(w', who, n)
    {
      KeptPlace(w, w', who, n);
    }
    forall who, k: nat | who in w'.nodes && w'.nodes[who].Ok() && k < |w'.nodes[who].Grants()|
      ensures ListOk(w', who, k)
    {
      KeptList(w, w', who, k);
    }
  }

  lemma KeptEntryOk(w: World, w': World, l: nat, p: nat)
    requires KeepsEntries(w, w') && w'.nodes == w.nodes && InRing(w, l, p) && EntryOk(w, l, p)
    ensures InRing(w', l, p) && EntryOk(w', l, p)
  {
    assert KeepsEntry(w, w', l, p);
  }

  // ---- release_lock, first pass ----

  // The release is under way and finds a request to pop.
  ghost predicate CanRelease(w: World, r: ReleasePacket) {
    && r in w.releases && r.lock < |w.locks| && r.pos < |w.locks[r.lock].status|
    && w.locks[r.lock].r.Ok() && w.locks[r.lock].r.Size() > 0
  }

  ghost function ReleaseAtSwitch(w: World, r: ReleasePacket): World
    requires CanRelease(w, r)
  {
    w.(locks := w.locks[r.lock := LockRing.ReleaseFor(w.locks[r.lock], r.pos)], releases := w.releases - {r})
  }

  // A release that reaches the switch finds its lock's queue not empty, and its own mode is
  // the mode of the head, which it pops.
  lemma ReleaseHasHead(w: World, r: ReleasePacket)
    requires Inv(w) && r in w.releases
    ensures ReleaseOk(w, r) && CanRelease(w, r)
    ensures var ring := w.locks[r.lock].r; r.mode == ring.q.log[ring.q.popped].mode
  {
    assert ReleaseOk(w, r) && LockOk(w, r.lock);
    LockRing.HoldersMatchHead(w.locks[r.lock], r.pos);
  }

  lemma ReleaseKeepsEntries(w: World, r: ReleasePacket)
    requires Inv(w) && CanRelease(w, r)
    ensures KeepsEntries(w, ReleaseAtSwitch(w, r))
  {
    ReleaseHasHead(w, r);
    var w' := ReleaseAtSwitch(w, r);
    forall l: nat, p: nat | InRing(w, l, p) ensures KeepsEntry(w, w', l, p) {}
  }

  lemma ReleaseAtSwitchKeepsPackets(w: World, r: ReleasePacket)
    requires Inv(w) && CanRelease(w, r)
    ensures PacketsInv(ReleaseAtSwitch(w, r))
  {
    ReleaseHasHead(w, r);
    var w' := ReleaseAtSwitch(w, r);
    forall a | a in w'.acquires ensures AcquireOk(w', a) { assert AcquireOk(w, a); }
    forall g | g in w'.grants ensures GrantOk(w', g) { assert GrantOk(w, g); }
    forall x | x in w'.releases ensures ReleaseOk(w', x) { assert ReleaseOk(w, x); }
  }

  lemma ReleaseAtSwitchKeepsInv(w: World, r: ReleasePacket)
    requires Inv(w) && CanRelease(w, r)
    ensures Inv(ReleaseAtSwitch(w, r))
  {
    ReleaseHasHead(w, r);
    ReleaseKeepsEntries(w, r);
    var w' := ReleaseAtSwitch(w, r);
    forall l: nat | l < |w'.locks|
      ensures LockOk(w', l)
    {
      assert LockOk(w, l);
      if l == r.lock {
        LockRing.ReleaseKeepsInv(w.locks[l], r.pos);
      }
    }
    forall l: nat, p: nat | InRing(w', l, p)
      ensures EntryOk(w', l, p)
    {
      assert InRing(w, l, p) && EntryOk(w, l, p);
      KeptEntryOk(w, w', l, p);
    }
    KeptNodes(w, w');
    ReleaseAtSwitchKeepsPackets(w, r);
  }

  // ---- release_lock, recirculated pass ----

  ghost predicate CanPass(w: World, l: nat, s: LockRing.Scan) {
    && l < |w.locks| && s in w.locks[l].scans
    && w.locks[l].r.Ok() && s.head < |w.locks[l].r.q.log| == |w.locks[l].status|
  }

  // The clone of the packet goes to the client of the entry that was read.
  ghost function PassAtSwitch(w: World, l: nat, s: LockRing.Scan): World
    requires CanPass(w, l, s)
  {
    var r := w.locks[l].r;
    var p := LockRing.LatestAt(|r.q.log|, r.cap, s.head);
    w.(locks := w.locks[l := LockRing.Recirculate(w.locks[l], s)],
       grants := if LockRing.PassGrants(s, r.q.log[p]) then w.grants + {GrantPacket(l, p, r.q.log[p])} else w.grants)
  }

  lemma PassReads(w: World, l: nat, s: LockRing.Scan)
    requires Inv(w) && l < |w.locks| && s in w.locks[l].scans
    ensures var k := w.locks[l];
            && CanPass(w, l, s)
            && LockRing.LatestAt(|k.r.q.log|, k.r.cap, s.head) == s.head
            && (LockRing.PassGrants(s, k.r.q.log[s.head]) ==> k.status[s.head].Waiting?)
            && LockRing.Inv(k) && |k.tags| == |k.status|
  {
    assert LockOk(w, l);
    LockRing.PassGrantsPending(w.locks[l], s);
  }

  lemma PassKeepsEntries(w: World, l: nat, s: LockRing.Scan)
    requires Inv(w) && CanPass(w, l, s)
    ensures KeepsEntries(w, PassAtSwitch(w, l, s))
  {
    var w' := PassAtSwitch(w, l, s);
    forall i: nat, p: nat | InRing(w, i, p) ensures KeepsEntry(w, w', i, p) { PassKeepsEntry(w, l, s, i, p); }
  }

  lemma PassKeepsEntry(w: World, l: nat, s: LockRing.Scan, i: nat, p: nat)
    requires Inv(w) && CanPass(w, l, s) && InRing(w, i, p)
    ensures KeepsEntry(w, PassAtSwitch(w, l, s), i, p)
  {
    if i == l {
      PassReads(w, l, s);
    }
  }

  lemma PassKeepsAcquire(w: World, l: nat, s: LockRing.Scan, a: AcquirePacket)
    requires CanPass(w, l, s) && AcquireOk(w, a)
    ensures AcquireOk(PassAtSwitch(w, l, s), a)
  {
  }

  lemma PassKeepsGrant(w: World, l: nat, s: LockRing.Scan, g: GrantPacket)
    requires Inv(w) && CanPass(w, l, s) && g in PassAtSwitch(w, l, s).grants
    ensures GrantOk(PassAtSwitch(w, l, s), g)
  {
    PassReads(w, l, s);
    if g in w.grants {
      assert GrantOk(w, g);
    }
  }

  lemma PassKeepsRelease(w: World, l: nat, s: LockRing.Scan, r: ReleasePacket)
    requires Inv(w) && CanPass(w, l, s) && ReleaseOk(w, r)
    ensures ReleaseOk(PassAtSwitch(w, l, s), r)
  {
    PassReads(w, l, s);
  }

  lemma PassKeepsPackets(w: World, l: nat, s: LockRing.Scan)
    requires Inv(w) && CanPass(w, l, s)
    ensures PacketsInv(PassAtSwitch(w, l, s))
  {
    var w' := PassAtSwitch(w, l, s);
    forall a | a in w'.acquires ensures AcquireOk(w', a) { assert AcquireOk(w, a); PassKeepsAcquire(w, l, s, a); }
    forall g | g in w'.grants ensures GrantOk(w', g) { PassKeepsGrant(w, l, s, g); }
    forall r | r in w'.releases ensures ReleaseOk(w', r) { assert ReleaseOk(w, r); PassKeepsRelease(w, l, s, r); }
  }

  lemma PassKeepsInv(w: World, l: nat, s: LockRing.Scan)
    requires Inv(w) && CanPass(w, l, s)
    ensures Inv(PassAtSwitch(w, l, s))
  {
    PassReads(w, l, s);
    PassKeepsEntries(w, l, s);
    var w' := PassAtSwitch(w, l, s);
    forall i: nat | i < |w'.locks|
      ensures LockOk(w', i)
    {
      assert LockOk(w, i);
      if i == l {
        LockRing.PassKeepsInv(w.locks[l], s);
      }
    }
    forall i: nat, p: nat | InRing(w', i, p)
      ensures EntryOk(w', i, p)
    {
      assert InRing(w, i, p) && EntryOk(w, i, p);
      KeptEntryOk(w, w', i, p);
    }
    KeptNodes(w, w');
    PassKeepsPackets(w, l, s);
  }
}
