/**
 The whole system: clients that play their traces, the switch with all its locks, and
 every packet between them. Links lose nothing but may reorder; packets in
 recirculation interleave with all others. Runs go up to the first hand-off.
 */
module LockSystem {
  import opened NetLockTypes
  import opened ClientMachine
  import LockRing
  import LockRun
  import RwLock
  import CI = ClientInvariant

  // Where the n-th acquire of a client is: on its way to the switch, with the server, or in
  // the ring of a lock.
  datatype Place = Flying | Buffered | At(lock: nat, pos: nat)

  // One client. History: places has one entry for every acquire it ever sent, base is the
  // number of the first one of the current attempt.
  datatype Node = Node(load: Workload, c: State, base: nat, places: seq<Place>) {
    ghost predicate Ok() {
      base <= |places| && CI.Inv(load, c, |places| - base)
    }

    // The grants received in the current attempt, and how many of them were released.
    function Grants(): seq<Grant>
      requires c.lastTxn < |c.queues|
    {
      c.queues[c.lastTxn]
    }

    function GivenBack(): nat
      requires c.lastTxn < |c.txnS|
    {
      c.txnS[c.lastTxn]
    }

    // The n-th acquire asks for what its row of the trace says.
    ghost predicate Asks(n: nat, lock: nat, e: Entry)
      requires Ok()
    {
      && base <= n < |places|
      && var row := load.trace[c.lastTxnIdx + (n - base)];
         row.lock == lock && row.mode == e.mode && row.tid == e.tid == c.lastTxn
    }
  }

  datatype AcquirePacket = AcquirePacket(n: nat, lock: nat, e: Entry)
  datatype GrantPacket = GrantPacket(lock: nat, pos: nat, e: Entry)
  datatype ReleasePacket = ReleasePacket(lock: nat, pos: nat, mode: Mode)

  datatype World = World(nodes: map<Client, Node>, locks: seq<LockRing.Lock>,
                         acquires: set<AcquirePacket>, grants: set<GrantPacket>, releases: set<ReleasePacket>)

  // ---- The invariant, one predicate per kind of thing ----

  ghost predicate InRing(w: World, l: nat, p: nat) {
    l < |w.locks| && p < |w.locks[l].status| == |w.locks[l].tags| == |w.locks[l].r.q.log|
  }

  function Status(w: World, l: nat, p: nat): LockRing.Status
    requires l < |w.locks| && p < |w.locks[l].status|
  {
    w.locks[l].status[p]
  }

  ghost predicate GivenUp(w: World, l: nat, p: nat)
    requires InRing(w, l, p)
  {
    Status(w, l, p).Releasing? || Status(w, l, p).Released?
  }

  ghost predicate LockOk(w: World, l: nat)
    requires l < |w.locks|
  {
    LockRing.Inv(w.locks[l])
  }

  ghost predicate NodeOk(w: World, who: Client)
    requires who in w.nodes
  {
    w.nodes[who].Ok() && forall i | 0 <= i < |w.nodes[who].load.trace| :: w.nodes[who].load.trace[i].lock < |w.locks|
  }

  // Every acquire before the current attempt has been granted and released.
  ghost predicate PlaceOk(w: World, who: Client, n: nat)
    requires who in w.nodes && n < |w.nodes[who].places|
  {
    var node := w.nodes[who];
    match node.places[n]
    case At(l, p) =>
      && InRing(w, l, p) && w.locks[l].r.q.log[p].Owner() == who && w.locks[l].tags[p] == n
      && (n < node.base ==> GivenUp(w, l, p))
    case _ => node.base <= n
  }

  ghost predicate EntryOk(w: World, l: nat, p: nat)
    requires InRing(w, l, p)
  {
    var e, n := w.locks[l].r.q.log[p], w.locks[l].tags[p];
    && e.Owner() in w.nodes
    && var node := w.nodes[e.Owner()];
       && node.Ok() && n < |node.places| && node.places[n] == At(l, p)
       && (node.base <= n ==> node.Asks(n, l, e))
  }

  ghost predicate AcquireOk(w: World, a: AcquirePacket) {
    && a.e.Owner() in w.nodes
    && var node := w.nodes[a.e.Owner()];
       && node.Ok() && a.n < |node.places| && node.places[a.n] == Flying
       && node.Asks(a.n, a.lock, a.e) && a.lock < |w.locks|
  }

  ghost predicate GrantOk(w: World, g: GrantPacket) {
    InRing(w, g.lock, g.pos) && Status(w, g.lock, g.pos).Granting? && g.e == w.locks[g.lock].r.q.log[g.pos]
  }

  ghost predicate ReleaseOk(w: World, r: ReleasePacket) {
    && InRing(w, r.lock, r.pos) && Status(w, r.lock, r.pos).Releasing?
    && r.mode == w.locks[r.lock].r.q.log[r.pos].mode
  }

  // The k-th grant of a client's list.
  ghost predicate ListOk(w: World, who: Client, k: nat)
    requires who in w.nodes && w.nodes[who].Ok() && k < |w.nodes[who].Grants()|
  {
    var node := w.nodes[who];
    var g := node.Grants()[k];
    && InRing(w, g.lock, g.pos)
    && w.locks[g.lock].r.q.log[g.pos].Owner() == who
    && w.locks[g.lock].r.q.log[g.pos].mode == g.mode
    && node.base <= w.locks[g.lock].tags[g.pos]
    && if k < node.GivenBack() then GivenUp(w, g.lock, g.pos) else Status(w, g.lock, g.pos).Held?
  }

  ghost predicate Distinct(gs: seq<Grant>) {
    forall i, j | 0 <= i < j < |gs| :: (gs[i].lock, gs[i].pos) != (gs[j].lock, gs[j].pos)
  }

  ghost predicate NodesInv(w: World) {
    && (forall who | who in w.nodes :: NodeOk(w, who))
    && (forall who, n: nat | who in w.nodes && n < |w.nodes[who].places| :: PlaceOk(w, who, n))
    && (forall who, k: nat | who in w.nodes && w.nodes[who].Ok() && k < |w.nodes[who].Grants()| :: ListOk(w, who, k))
    && (forall who | who in w.nodes && w.nodes[who].Ok() :: Distinct(w.nodes[who].Grants()))
  }

  ghost predicate PacketsInv(w: World) {
    && (forall a | a in w.acquires :: AcquireOk(w, a))
    && (forall a, b | a in w.acquires && b in w.acquires && a.e.Owner() == b.e.Owner() && a.n == b.n :: a == b)
    && (forall g | g in w.grants :: GrantOk(w, g))
    && (forall r | r in w.releases :: ReleaseOk(w, r))
  }

  ghost predicate Inv(w: World) {
    && (forall l: nat | l < |w.locks| :: LockOk(w, l))
    && (forall l: nat, p: nat | InRing(w, l, p) :: EntryOk(w, l, p))
    && NodesInv(w)
    && PacketsInv(w)
  }

  // ---- What the invariant says ----

  // who holds lock l by the request at position p: it has received the grant and not released.
  ghost predicate Holds(w: World, who: Client, l: nat, p: nat) {
    && who in w.nodes && w.nodes[who].Ok()
    && exists k: nat :: HoldsBy(w, who, l, p, k)
  }

  ghost predicate HoldsBy(w: World, who: Client, l: nat, p: nat, k: nat)
    requires who in w.nodes && w.nodes[who].Ok()
  {
    && w.nodes[who].GivenBack() <= k < |w.nodes[who].Grants()|
    && w.nodes[who].Grants()[k].lock == l && w.nodes[who].Grants()[k].pos == p
  }

  lemma HolderIsOut(w: World, who: Client, l: nat, p: nat)
    requires Inv(w) && Holds(w, who, l, p)
    ensures InRing(w, l, p) && Status(w, l, p).Held? && w.locks[l].r.q.log[p].Owner() == who
  {
    var k: nat :| HoldsBy(w, who, l, p, k);
    assert ListOk(w, who, k);
  }

  // Mutual exclusion, end to end: if one of two holdings of a lock is exclusive, they are one
  // and the same client's, for one and the same request.
  lemma ExclusiveHolderIsAlone(w: World, who: Client, who': Client, l: nat, p: nat, p': nat)
    requires Inv(w) && Holds(w, who, l, p) && Holds(w, who', l, p')
    requires l < |w.locks| && p < |w.locks[l].r.q.log| && w.locks[l].r.q.log[p].mode.Exclusive?
    ensures who == who' && p == p'
  {
    HolderIsOut(w, who, l, p);
    HolderIsOut(w, who', l, p');
    assert LockOk(w, l);
    LockRing.ExclusiveHolderIsAlone(w.locks[l], p, p');
  }

  // ---- Numbering ----

  // The number of the acquire that the k-th grant of a list answers.
  ghost function NumberOf(w: World, who: Client, k: nat): nat
    requires who in w.nodes && w.nodes[who].Ok() && k < |w.nodes[who].Grants()|
    requires ListOk(w, who, k)
  {
    var g := w.nodes[who].Grants()[k];
    w.locks[g.lock].tags[g.pos]
  }

  lemma NumberInAttempt(w: World, who: Client, k: nat)
    requires Inv(w) && who in w.nodes && w.nodes[who].Ok() && k < |w.nodes[who].Grants()|
    ensures ListOk(w, who, k)
    ensures var node, g := w.nodes[who], w.nodes[who].Grants()[k];
            && node.base <= NumberOf(w, who, k) < |node.places|
            && node.places[NumberOf(w, who, k)] == At(g.lock, g.pos)
            && node.Asks(NumberOf(w, who, k), g.lock, w.locks[g.lock].r.q.log[g.pos])
  {
    assert ListOk(w, who, k);
    var g := w.nodes[who].Grants()[k];
    assert EntryOk(w, g.lock, g.pos);
  }

  ghost function Numbers(w: World, who: Client): (ns: seq<nat>)
    requires Inv(w) && who in w.nodes && w.nodes[who].Ok()
    ensures |ns| == |w.nodes[who].Grants()|
    ensures forall k | 0 <= k < |ns| :: ListOk(w, who, k) && ns[k] == NumberOf(w, who, k)
  {
    seq(|w.nodes[who].Grants()|, k requires 0 <= k < |w.nodes[who].Grants()| =>
      NumberInAttempt(w, who, k);
      NumberOf(w, who, k))
  }

  lemma NumbersAreDistinct(w: World, who: Client)
    requires Inv(w) && who in w.nodes && w.nodes[who].Ok()
    ensures var ns, node := Numbers(w, who), w.nodes[who];
            && (forall k | 0 <= k < |ns| :: node.base <= ns[k] < |node.places|)
            && (forall i, j | 0 <= i < j < |ns| :: ns[i] != ns[j])
  {
    var ns, node := Numbers(w, who), w.nodes[who];
    forall k | 0 <= k < |ns|
      ensures node.base <= ns[k] < |node.places|
      ensures node.places[ns[k]] == At(node.Grants()[k].lock, node.Grants()[k].pos)
    {
      NumberInAttempt(w, who, k);
    }
    assert Distinct(node.Grants());
  }

  ghost function Range(lo: nat, hi: nat): (r: set<nat>)
    requires lo <= hi
    ensures |r| == hi - lo
    ensures forall n :: n in r <==> lo <= n < hi
    decreases hi - lo
  {
    if lo == hi then {} else Range(lo, hi - 1) + {hi - 1}
  }

  ghost function Members(s: seq<nat>): (r: set<nat>)
    requires forall i, j | 0 <= i < j < |s| :: s[i] != s[j]
    ensures |r| == |s|
    ensures forall n :: n in r <==> n in s
  {
    if s == [] then {} else Members(s[1..]) + {s[0]}
  }

  // As many different numbers as there are in a range fill it; a missing one leaves fewer.
  lemma Pigeonhole(s: seq<nat>, lo: nat, hi: nat, n: nat)
    requires lo <= n < hi
    requires forall i, j | 0 <= i < j < |s| :: s[i] != s[j]
    requires forall i | 0 <= i < |s| :: lo <= s[i] < hi
    ensures |s| <= hi - lo
    ensures n !in s ==> |s| < hi - lo
  {
    var all, some := Range(lo, hi), Members(s);
    assert some <= all;
    SubsetSize(some, all);
    if n !in s {
      assert some <= all - {n};
      SubsetSize(some, all - {n});
    }
  }

  lemma {:induction false} SubsetSize(a: set<nat>, b: set<nat>)
    requires a <= b
    ensures |a| <= |b|
    decreases a
  {
    if a != {} {
      var x :| x in a;
      SubsetSize(a - {x}, b - {x});
    }
  }

  // When a client has a grant for every acquire of the attempt, none of them is anywhere else.
  lemma AllAnswered(w: World, who: Client, n: nat) returns (k: nat)
    requires Inv(w) && who in w.nodes && w.nodes[who].Ok()
    requires var node := w.nodes[who];
             |node.Grants()| == |node.places| - node.base && node.base <= n < |node.places|
    ensures var node := w.nodes[who];
            k < |node.Grants()| && ListOk(w, who, k) && NumberOf(w, who, k) == n
            && node.places[n] == At(node.Grants()[k].lock, node.Grants()[k].pos)
  {
    var node, ns := w.nodes[who], Numbers(w, who);
    NumbersAreDistinct(w, who);
    Pigeonhole(ns, node.base, |node.places|, n);
    k :| 0 <= k < |ns| && ns[k] == n;
    NumberInAttempt(w, who, k);
  }
}
