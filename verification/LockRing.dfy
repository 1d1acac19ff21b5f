/**
 One lock of the switch, seen through the log of requests that entered its ring:
 what one packet does to it (`acquire_lock`, `release_lock`, one recirculated pass),
 and the state machine in which such packets interleave.
 */
module LockRing {
  import opened NetLockTypes
  import opened RwLock

  // q: the requests; cap: slots of the ring; inServer: the length-in-server counter.
  datatype Ring = Ring(q: Queue, cap: nat, inServer: nat) {
    ghost predicate Ok() {
      q.Ok() && 1 <= cap && |q.log| <= q.popped + cap
    }

    function Size(): nat
      requires q.Ok()
    {
      |q.log| - q.popped
    }
  }

  // ---- acquire_lock ----

  datatype Verdict = Forwarded | Granted | Queued

  predicate HasRoom(r: Ring)
    requires r.Ok()
  {
    r.Size() < r.cap && r.inServer == 0
  }

  function AcquireVerdict(r: Ring, e: Entry): Verdict
    requires r.Ok()
  {
    if !HasRoom(r) then Forwarded else if Admits(r.q, e) then Granted else Queued
  }

  function AfterAcquire(r: Ring, e: Entry): (r': Ring)
    requires r.Ok()
    ensures r'.Ok()
  {
    if HasRoom(r) then r.(q := Next(r.q, Acquire(e))) else r.(inServer := r.inServer + 1)
  }

  // ---- release_lock, first pass ----

  // What the stateful ALU outputs: its predicate is false without overflow, and it then outputs 0.
  function EmptySlotsBeforePop(r: Ring): nat
    requires r.Ok()
  {
    if r.inServer > 0 then r.cap - r.Size() else 0
  }

  // The release is sent on to the server instead of popping the ring:
  // size_of_queue is right - left, one less than the capacity.
  predicate HandOff(r: Ring)
    requires r.Ok()
  {
    EmptySlotsBeforePop(r) == r.cap - 1
  }

  // For a non-empty ring of at least two slots, exactly when the last request leaves
  // while some are in the server; a ring of one slot hands every release over.
  lemma HandOffExactly(r: Ring)
    requires r.Ok() && r.Size() > 0
    ensures HandOff(r) <==> r.Size() == 1 && (r.inServer > 0 || r.cap == 1)
  {
  }

  // A packet in recirculation: flag 1 (or 2 when sweep), cur_head, cur_tail, dequeued_mode.
  datatype Scan = Scan(sweep: bool, head: nat, tail: nat, dequeued: Mode)

  function Popped(r: Ring): (r': Ring)
    requires r.Ok() && r.Size() > 0
    ensures r'.Ok()
  {
    r.(q := r.q.(popped := r.q.popped + 1))
  }

  function FirstScan(r: Ring): Option<Scan>
    requires r.Ok() && r.Size() > 0
  {
    if r.q.popped + 1 == |r.q.log| then None
    else Some(Scan(false, r.q.popped + 1, |r.q.log|, r.q.log[r.q.popped].mode))
  }

  // ---- release_lock, recirculated pass ----

  // The newest position stored in the slot of position h.
  function LatestAt(size: nat, cap: nat, h: nat): (n: nat)
    requires h < size && 1 <= cap
    ensures h <= n < size <= n + cap
    decreases size - h
  {
    if h + cap < size then LatestAt(size, cap, h + cap) else h
  }

  // The entry a pass finds in the slot of position h.
  function Visible(r: Ring, h: nat): Entry
    requires r.Ok() && h < |r.q.log|
  {
    r.q.log[LatestAt(|r.q.log|, r.cap, h)]
  }

  predicate PassGrants(s: Scan, e: Entry) {
    if s.sweep then e.mode.Shared? else s.dequeued.Exclusive? || e.mode.Exclusive?
  }

  function PassNext(s: Scan, e: Entry): (next: Option<Scan>)
    ensures next.Some? && s.head < s.tail ==> next.value.tail - next.value.head < s.tail - s.head
  {
    if PassGrants(s, e) && e.mode.Shared? && s.head + 1 != s.tail
    then Some(Scan(true, s.head + 1, s.tail, s.dequeued)) else None
  }

  // ---- Interleaved packets ----

  // The life of one ring position: queued, granted with the grant on its way, held by
  // the client, release on its way, release processed.
  datatype Status = Waiting | Granting | Held | Releasing | Released

  // status and tags run parallel to the log; tags number the acquires of a client. Both
  // are history: no step of the switch reads them.
  datatype Lock = Lock(r: Ring, status: seq<Status>, tags: seq<nat>, scans: multiset<Scan>)

  predicate Out(k: Lock, p: nat) {
    p < |k.status| && (k.status[p].Granting? || k.status[p].Held? || k.status[p].Releasing?)
  }

  // No packet in recirculation still has to read the slot the next arrival is written to.
  ghost predicate NoScanOverrun(k: Lock) {
    forall s | s in k.scans :: |k.r.q.log| < s.head + k.r.cap
  }

  function Enter(k: Lock, e: Entry, tag: nat): Lock
    requires k.r.Ok() && HasRoom(k.r)
  {
    Lock(AfterAcquire(k.r, e), k.status + [if Admits(k.r.q, e) then Granting else Waiting],
         k.tags + [tag], k.scans)
  }

  // The release that was sent for position p; it pops the head, whichever request that is.
  function ReleaseFor(k: Lock, p: nat): Lock
    requires k.r.Ok() && k.r.Size() > 0 && p < |k.status|
  {
    Lock(Popped(k.r), k.status[p := Released], k.tags,
         k.scans + match FirstScan(k.r) case None => multiset{} case Some(s) => multiset{s})
  }

  function Recirculate(k: Lock, s: Scan): Lock
    requires k.r.Ok() && s.head < |k.r.q.log| && |k.status| == |k.r.q.log|
  {
    var p := LatestAt(|k.r.q.log|, k.r.cap, s.head);
    var e := k.r.q.log[p];
    Lock(k.r, if PassGrants(s, e) then k.status[p := Granting] else k.status, k.tags,
         k.scans - multiset{s} + match PassNext(s, e) case None => multiset{} case Some(s') => multiset{s'})
  }

  // ---- The invariant ----

  function CountReleased(st: seq<Status>): (n: nat)
    ensures n <= |st|
  {
    if st == [] then 0
    else CountReleased(st[..|st| - 1]) + if st[|st| - 1].Released? then 1 else 0
  }

  // The scan s will grant position p, unless a pass before it stops the scan.
  predicate Covers(log: seq<Entry>, s: Scan, p: nat) {
    && s.head <= p < s.tail <= |log|
    && if log[p].mode.Exclusive? then !s.sweep && p == s.head
       else (s.sweep || s.dequeued.Exclusive?) && p < FirstExclusive(log, s.head)
  }

  predicate Live(log: seq<Entry>, s: Scan) {
    Covers(log, s, s.head)
  }

  // Position p belongs to the granted run, once the scans in flight are done.
  predicate Due(q: Queue, p: nat)
    requires q.Ok()
  {
    p < FirstExclusive(q.log, q.popped) || p == q.popped
  }

  ghost predicate RunInv(k: Lock) {
    var log, head := k.r.q.log, k.r.q.popped;
    && k.r.Ok()
    && |k.status| == |k.tags| == |log|
    && CountReleased(k.status) == head
    && (forall p | FirstExclusive(log, head) < p < |log| :: k.status[p].Waiting?)
    && (var f := FirstExclusive(log, head);
        f < |log| ==> if f == head then !k.status[f].Released? else k.status[f].Waiting?)
    && (forall p | 0 <= p < head && log[p].mode.Exclusive? :: k.status[p].Released?)
  }

  // Granted by the policy, not yet by a packet.
  predicate Pending(k: Lock, p: nat)
    requires k.r.Ok()
  {
    p < |k.status| && k.status[p].Waiting? && Due(k.r.q, p)
  }

  // The pending positions are exactly those that the one live scan will reach.
  ghost predicate ScanInv(k: Lock)
    requires k.r.Ok()
  {
    && (forall s | s in k.scans :: ScanOk(k, s))
    && (forall s, s' | s in k.scans && s' in k.scans && Live(k.r.q.log, s) && Live(k.r.q.log, s') :: s == s')
    && (forall p | Pending(k, p) :: Covered(k, p))
  }

  ghost predicate Covered(k: Lock, p: nat) {
    exists s :: s in k.scans && Covers(k.r.q.log, s, p)
  }

  ghost predicate ScanOk(k: Lock, s: Scan)
    requires k.r.Ok()
  {
    && s.head < s.tail <= |k.r.q.log| <= s.head + k.r.cap
    && s.tail < s.head + k.r.cap
    && (Live(k.r.q.log, s) ==> k.scans[s] == 1)
    && (forall p | Covers(k.r.q.log, s, p) :: Pending(k, p))
  }

  ghost predicate Inv(k: Lock) {
    RunInv(k) && ScanInv(k)
  }

  // ---- Counting lemmas ----

  lemma {:induction false} CountUpdate(st: seq<Status>, p: nat, v: Status)
    requires p < |st|
    ensures CountReleased(st[p := v]) + (if st[p].Released? then 1 else 0)
         == CountReleased(st) + (if v.Released? then 1 else 0)
  {
    var n := |st| - 1;
    if p == n {
      assert st[p := v][..n] == st[..n];
    } else {
      CountUpdate(st[..n], p, v);
      assert st[p := v][..n] == st[..n][p := v];
    }
  }

  lemma CountAppend(st: seq<Status>, v: Status)
    ensures CountReleased(st + [v]) == CountReleased(st) + (if v.Released? then 1 else 0)
  {
    assert (st + [v])[..|st|] == st;
  }

  // n releases, none at or after position n, fill the first n positions.
  lemma {:induction false} ReleasedFill(st: seq<Status>, n: nat)
    requires n <= |st| && n <= CountReleased(st)
    requires forall p | n <= p < |st| :: !st[p].Released?
    ensures forall p | 0 <= p < n :: st[p].Released?
    decreases |st|
  {
    if n == |st| {
      if n > 0 {
        ReleasedFill(st[..n - 1], n - 1);
      }
    } else {
      ReleasedFill(st[..|st| - 1], n);
    }
  }

  // ---- What the invariant says ----

  // Whoever holds the lock holds it in the head's mode, so a release that decrements the
  // count of its own mode takes out the head whichever holder sent it.
  lemma HoldersMatchHead(k: Lock, p: nat)
    requires RunInv(k) && Out(k, p)
    ensures k.r.Size() > 0
    ensures k.r.q.log[p].mode == k.r.q.log[k.r.q.popped].mode
    ensures k.r.q.log[p].mode.Exclusive? ==> p == k.r.q.popped
    ensures k.r.q.log[p].mode.Shared? ==> p < FirstExclusive(k.r.q.log, k.r.q.popped)
  {
    var head := k.r.q.popped;
    if k.r.Size() == 0 || (k.r.q.log[head].mode.Exclusive? && p != head) {
      ReleasedFill(k.status, head);
      assert false;
    }
  }

  // Mutual exclusion on one lock: an exclusive holder is the only holder.
  lemma ExclusiveHolderIsAlone(k: Lock, p: nat, p': nat)
    requires RunInv(k) && Out(k, p) && Out(k, p') && k.r.q.log[p].mode.Exclusive?
    ensures p == p'
  {
    HoldersMatchHead(k, p);
    HoldersMatchHead(k, p');
  }

  // The outstanding grants fill what is left of the granted run: with no scan in flight,
  // exactly the positions of the specification's leading run have been granted.
  lemma QuietMeansGrantedRun(k: Lock, p: nat)
    requires Inv(k) && k.scans == multiset{} && p < |k.status|
    ensures k.status[p].Waiting? <==> p >= GrantEnd(k.r.q)
  {
    assert k.status[p].Waiting? && Due(k.r.q, p) ==> Covered(k, p);
  }

  // How many of the first n positions have the lock, or are due and wait for the live scan.
  function CountOwed(k: Lock, n: nat): nat
    requires k.r.Ok() && n <= |k.status|
  {
    if n == 0 then 0 else CountOwed(k, n - 1) + if Out(k, n - 1) || Pending(k, n - 1) then 1 else 0
  }

  lemma {:induction false} OwedOrReleased(k: Lock, n: nat)
    requires RunInv(k) && n <= |k.status|
    ensures CountOwed(k, n) + CountReleased(k.status[..n]) == if n <= GrantEnd(k.r.q) then n else GrantEnd(k.r.q)
  {
    if n > 0 {
      OwedOrReleased(k, n - 1);
      assert k.status[..n][..n - 1] == k.status[..n - 1];
    }
  }

  // Held, granted or being released, or still owed by the scan: together they are as many as
  // the policy's leading run is long, in every state.
  lemma OwedFillTheRun(k: Lock)
    requires RunInv(k)
    ensures CountOwed(k, |k.status|) == GrantEnd(k.r.q) - k.r.q.popped
  {
    OwedOrReleased(k, |k.status|);
    assert k.status[..|k.status|] == k.status;
  }

  // ---- Every step keeps the invariant ----

  lemma FreshLockInv(cap: nat)
    requires 1 <= cap
    ensures Inv(Lock(Ring(Queue([], 0), cap, 0), [], [], multiset{}))
  {
  }

  lemma EnterKeepsRunInv(k: Lock, e: Entry, tag: nat)
    requires RunInv(k) && HasRoom(k.r)
    ensures RunInv(Enter(k, e, tag))
  {
    AdmitsWhen(k.r.q, e);
    FirstExclusiveAppend(k.r.q.log, k.r.q.popped, e);
    CountAppend(k.status, if Admits(k.r.q, e) then Granting else Waiting);
  }

  lemma CoversAppend(log: seq<Entry>, e: Entry, s: Scan, p: nat)
    requires s.tail <= |log|
    ensures Covers(log + [e], s, p) <==> Covers(log, s, p)
  {
    if s.head <= p < s.tail {
      FirstExclusiveAppend(log, s.head, e);
    }
  }

  ghost predicate SameScans(k: Lock, k': Lock) {
    && k'.scans == k.scans
    && k'.r.cap == k.r.cap
    && forall s, p | s in k.scans :: Covers(k'.r.q.log, s, p) <==> Covers(k.r.q.log, s, p)
  }

  ghost predicate SamePending(k: Lock, k': Lock)
    requires k.r.Ok() && k'.r.Ok()
  {
    forall p :: Pending(k', p) <==> Pending(k, p)
  }

  lemma SameScanOk(k: Lock, k': Lock, s: Scan)
    requires k.r.Ok() && k'.r.Ok() && SameScans(k, k') && SamePending(k, k')
    requires s in k.scans && ScanOk(k, s)
    requires |k.r.q.log| <= |k'.r.q.log| <= s.head + k.r.cap
    ensures ScanOk(k', s)
  {
    assert Live(k'.r.q.log, s) <==> Live(k.r.q.log, s);
    forall p | Covers(k'.r.q.log, s, p)
      ensures Pending(k', p)
    {
      assert Covers(k.r.q.log, s, p);
    }
  }

  lemma SameCovered(k: Lock, k': Lock, p: nat)
    requires SameScans(k, k') && Covered(k, p)
    ensures Covered(k', p)
  {
    var s :| s in k.scans && Covers(k.r.q.log, s, p);
    assert Covers(k'.r.q.log, s, p);
  }

  // A step that leaves the scans and the pending positions alone keeps the scan invariant.
  lemma SamePendingKeepsScanInv(k: Lock, k': Lock)
    requires k.r.Ok() && k'.r.Ok() && ScanInv(k) && SameScans(k, k') && SamePending(k, k')
    requires |k.r.q.log| <= |k'.r.q.log|
    requires forall s | s in k.scans :: |k'.r.q.log| <= s.head + k.r.cap
    ensures ScanInv(k')
  {
    forall s | s in k'.scans
      ensures ScanOk(k', s)
    {
      SameScanOk(k, k', s);
    }
    forall p | Pending(k', p)
      ensures Covered(k', p)
    {
      SameCovered(k, k', p);
    }
    forall s, s' | s in k'.scans && s' in k'.scans && Live(k'.r.q.log, s) && Live(k'.r.q.log, s')
      ensures s == s'
    {
      assert Live(k.r.q.log, s) && Live(k.r.q.log, s');
    }
  }

  // An arrival between two passes is left alone by every scan in flight: it lies behind
  // their saved tails.
  lemma EnterKeepsInv(k: Lock, e: Entry, tag: nat)
    requires Inv(k) && HasRoom(k.r) && NoScanOverrun(k)
    ensures Inv(Enter(k, e, tag))
  {
    var k' := Enter(k, e, tag);
    EnterKeepsRunInv(k, e, tag);
    EnterKeepsPending(k, e, tag);
    forall s, p | s in k.scans
      ensures Covers(k'.r.q.log, s, p) <==> Covers(k.r.q.log, s, p)
    {
      assert ScanOk(k, s);
      CoversAppend(k.r.q.log, e, s, p);
    }
    SamePendingKeepsScanInv(k, k');
  }

  lemma EnterKeepsPending(k: Lock, e: Entry, tag: nat)
    requires RunInv(k) && HasRoom(k.r)
    ensures Enter(k, e, tag).r.Ok() && SamePending(k, Enter(k, e, tag))
  {
    AdmitsWhen(k.r.q, e);
    FirstExclusiveAppend(k.r.q.log, k.r.q.popped, e);
  }

  // The server takes the request when the ring has no room; no ring position changes.
  lemma ForwardKeepsInv(k: Lock)
    requires Inv(k)
    ensures Inv(k.(r := k.r.(inServer := k.r.inServer + 1)))
  {
    SamePendingKeepsScanInv(k, k.(r := k.r.(inServer := k.r.inServer + 1)));
  }

  lemma {:induction false} CountSame(st: seq<Status>, st': seq<Status>)
    requires |st| == |st'| && forall p | 0 <= p < |st| :: st[p].Released? == st'[p].Released?
    ensures CountReleased(st) == CountReleased(st')
    decreases |st|
  {
    if st != [] {
      CountSame(st[..|st| - 1], st'[..|st| - 1]);
    }
  }

  // Clients receive grants and send releases: outstanding requests stay outstanding.
  ghost predicate OnlyOutChanges(k: Lock, k': Lock) {
    && k' == k.(status := k'.status)
    && |k'.status| == |k.status|
    && forall p | 0 <= p < |k.status| :: k'.status[p] == k.status[p] || (Out(k, p) && Out(k', p))
  }

  lemma OutChangesKeepInv(k: Lock, k': Lock)
    requires Inv(k) && OnlyOutChanges(k, k')
    ensures Inv(k')
  {
    CountSame(k.status, k'.status);
    forall p | 0 <= p < |k.status| && k'.status[p] != k.status[p]
      ensures k.r.q.log[p].mode.Exclusive? ==> p == k.r.q.popped
      ensures p <= k.r.q.popped || p < FirstExclusive(k.r.q.log, k.r.q.popped)
    {
      HoldersMatchHead(k, p);
    }
    SamePendingKeepsScanInv(k, k');
  }

  lemma StatusChangeKeepsInv(k: Lock, p: nat, v: Status)
    requires Inv(k) && Out(k, p) && (v.Held? || v.Releasing?)
    ensures Inv(k.(status := k.status[p := v]))
  {
    OutChangesKeepInv(k, k.(status := k.status[p := v]));
  }

  lemma ReleaseKeepsRunInv(k: Lock, p: nat)
    requires RunInv(k) && p < |k.status| && k.status[p].Releasing?
    ensures k.r.Size() > 0 && RunInv(ReleaseFor(k, p))
  {
    HoldersMatchHead(k, p);
    CountUpdate(k.status, p, Released);
    var head := k.r.q.popped;
    if k.r.q.log[head].mode.Exclusive? {
      ReleasedFill(k.status, head);
    }
  }

  // The next release hands the lock from or to an exclusive request.
  predicate ChangesHands(k: Lock)
    requires k.r.Ok() && k.r.Size() > 0
  {
    var head := k.r.q.popped;
    || k.r.q.log[head].mode.Exclusive?
    || (head + 1 < |k.r.q.log| && k.r.q.log[head + 1].mode.Exclusive?)
  }

  // Where the lock changes hands, every earlier holder has released.
  lemma AllBelowReleased(k: Lock, p: nat)
    requires RunInv(k) && p < |k.status| && k.status[p].Releasing?
    requires k.r.Size() > 0 && ChangesHands(k)
    ensures FirstExclusive(k.r.q.log, k.r.q.popped)
            == k.r.q.popped + if k.r.q.log[k.r.q.popped].mode.Exclusive? then 0 else 1
    ensures p <= k.r.q.popped
    ensures forall i | 0 <= i <= k.r.q.popped && i != p :: k.status[i].Released?
  {
    var head := k.r.q.popped;
    HoldersMatchHead(k, p);
    CountUpdate(k.status, p, Released);
    FirstExclusiveIs(k.r.q.log, head, if k.r.q.log[head].mode.Exclusive? then head else head + 1);
    ReleasedFill(k.status[p := Released], head + 1);
    assert forall i | 0 <= i <= head && i != p :: k.status[i] == k.status[p := Released][i];
  }

  // Nothing is then left for the scans in flight to grant.
  lemma NoLiveScanBefore(k: Lock, p: nat, s: Scan)
    requires Inv(k) && p < |k.status| && k.status[p].Releasing? && s in k.scans
    requires k.r.Size() > 0 && ChangesHands(k)
    ensures !Live(k.r.q.log, s)
  {
    AllBelowReleased(k, p);
    PassGrantsPending(k, s);
  }

  lemma CoversMeansLive(log: seq<Entry>, s: Scan, p: nat)
    requires Covers(log, s, p)
    ensures Live(log, s)
  {
  }

  // Where the lock changes hands, the new scan reaches every request that is now due.
  lemma NewScanCovers(k: Lock, i: nat)
    requires k.r.Ok() && k.r.Size() > 0 && ChangesHands(k)
    requires k.r.q.popped < i < |k.r.q.log| && Due(Popped(k.r).q, i)
    ensures FirstScan(k.r).Some? && Covers(k.r.q.log, FirstScan(k.r).value, i)
  {
  }

  lemma ReleaseCovered(k: Lock, p: nat, i: nat)
    requires Inv(k) && p < |k.status| && k.status[p].Releasing? && k.r.Size() > 0
    requires Pending(ReleaseFor(k, p), i)
    ensures Covered(ReleaseFor(k, p), i)
  {
    var k' := ReleaseFor(k, p);
    if ChangesHands(k) {
      AllBelowReleased(k, p);
      NewScanCovers(k, i);
      assert FirstScan(k.r).value in k'.scans;
    } else {
      HoldersMatchHead(k, p);
      assert Pending(k, i);
      assert Covered(k, i);
      var s :| s in k.scans && Covers(k.r.q.log, s, i);
      assert s in k'.scans;
    }
  }

  // The scan that the release starts.
  lemma NewScanOk(k: Lock, p: nat)
    requires Inv(k) && p < |k.status| && k.status[p].Releasing? && k.r.Size() > 0
    requires FirstScan(k.r).Some?
    ensures ScanOk(ReleaseFor(k, p), FirstScan(k.r).value)
  {
    var s := FirstScan(k.r).value;
    HoldersMatchHead(k, p);
    if Live(k.r.q.log, s) && s in k.scans {
      NoLiveScanBefore(k, p, s);
      assert false;
    }
  }

  // A scan that was in flight before.
  lemma OldScanOk(k: Lock, p: nat, s: Scan)
    requires Inv(k) && p < |k.status| && k.status[p].Releasing? && k.r.Size() > 0
    requires s in k.scans && FirstScan(k.r) != Some(s)
    ensures ScanOk(ReleaseFor(k, p), s)
  {
    var k', log := ReleaseFor(k, p), k.r.q.log;
    assert ScanOk(k, s);
    forall i | Covers(log, s, i)
      ensures Pending(k', i)
    {
      OldScanPending(k, p, s, i);
    }
  }

  lemma OldScanPending(k: Lock, p: nat, s: Scan, i: nat)
    requires Inv(k) && p < |k.status| && k.status[p].Releasing? && k.r.Size() > 0
    requires s in k.scans && Covers(k.r.q.log, s, i)
    ensures Pending(ReleaseFor(k, p), i)
  {
    HoldersMatchHead(k, p);
    assert ScanOk(k, s);
    assert Pending(k, i);
    CoversMeansLive(k.r.q.log, s, i);
    if k.r.q.log[k.r.q.popped].mode.Exclusive? {
      NoLiveScanBefore(k, p, s);
      assert false;
    }
  }

  lemma ReleaseScanOk(k: Lock, p: nat, s: Scan)
    requires Inv(k) && p < |k.status| && k.status[p].Releasing? && k.r.Size() > 0
    requires s in ReleaseFor(k, p).scans
    ensures ScanOk(ReleaseFor(k, p), s)
  {
    if FirstScan(k.r) == Some(s) {
      NewScanOk(k, p);
    } else {
      OldScanOk(k, p, s);
    }
  }

  // A release pops the head, whichever holder sent it, and starts the scan that wakes
  // whoever is next; other releases may still have scans in flight.
  lemma ReleaseKeepsInv(k: Lock, p: nat)
    requires Inv(k) && p < |k.status| && k.status[p].Releasing?
    ensures k.r.Size() > 0 && Inv(ReleaseFor(k, p))
  {
    ReleaseKeepsRunInv(k, p);
    var k' := ReleaseFor(k, p);
    forall s | s in k'.scans
      ensures ScanOk(k', s)
    {
      ReleaseScanOk(k, p, s);
    }
    forall i | Pending(k', i)
      ensures Covered(k', i)
    {
      ReleaseCovered(k, p, i);
    }
    forall s, s' | s in k'.scans && s' in k'.scans && Live(k'.r.q.log, s) && Live(k'.r.q.log, s')
      ensures s == s'
    {
      ReleaseOneLive(k, p, s, s');
    }
  }

  lemma ReleaseOneLive(k: Lock, p: nat, s: Scan, s': Scan)
    requires Inv(k) && p < |k.status| && k.status[p].Releasing? && k.r.Size() > 0
    requires s in ReleaseFor(k, p).scans && s' in ReleaseFor(k, p).scans
    requires Live(k.r.q.log, s) && Live(k.r.q.log, s')
    ensures s == s'
  {
    if s in k.scans && FirstScan(k.r) == Some(s') {
      NoLiveScanBefore(k, p, s);
    } else if s' in k.scans && FirstScan(k.r) == Some(s) {
      NoLiveScanBefore(k, p, s');
    }
  }

  // ---- Recirculated passes ----

  // With its slot not overwritten, a pass reads the entry it was marked for; and it does
  // so only then.
  lemma PassReadsItsEntry(r: Ring, h: nat)
    requires r.Ok() && h < |r.q.log|
    ensures LatestAt(|r.q.log|, r.cap, h) == h <==> |r.q.log| <= h + r.cap
  {
  }

  // A pass sends a grant exactly when it is the live scan; the request it grants was
  // waiting and belongs to the run the policy grants.
  lemma PassGrantsPending(k: Lock, s: Scan)
    requires Inv(k) && s in k.scans
    ensures s.head < |k.r.q.log| && LatestAt(|k.r.q.log|, k.r.cap, s.head) == s.head
    ensures PassGrants(s, k.r.q.log[s.head]) <==> Live(k.r.q.log, s)
    ensures Live(k.r.q.log, s) ==> Pending(k, s.head)
  {
    assert ScanOk(k, s);
  }

  // What is left of the live scan after its pass covers the same positions but one.
  lemma PassCovers(log: seq<Entry>, s: Scan, p: nat)
    requires s.head < s.tail <= |log|
    ensures (PassNext(s, log[s.head]).Some? && Covers(log, PassNext(s, log[s.head]).value, p))
       <==> (Covers(log, s, p) && p != s.head)
  {
    var next := PassNext(s, log[s.head]);
    if log[s.head].mode.Shared? {
      assert FirstExclusive(log, s.head) == FirstExclusive(log, s.head + 1);
    }
  }

  lemma PassKeepsRunInv(k: Lock, s: Scan)
    requires Inv(k) && s in k.scans
    ensures s.head < |k.r.q.log| && RunInv(Recirculate(k, s))
  {
    PassGrantsPending(k, s);
    CountUpdate(k.status, s.head, Granting);
  }

  lemma PassScanOk(k: Lock, s: Scan, s': Scan)
    requires Inv(k) && s in k.scans && s.head < |k.r.q.log|
    requires s' in Recirculate(k, s).scans
    ensures ScanOk(Recirculate(k, s), s')
  {
    var k', log := Recirculate(k, s), k.r.q.log;
    PassGrantsPending(k, s);
    assert ScanOk(k, s);
    if PassNext(s, log[s.head]) == Some(s') {
      if s' in k.scans {
        assert Live(log, s') ==> s == s';
      }
      forall p | Covers(log, s', p) ensures Pending(k', p) { PassCovers(log, s, p); }
    } else {
      assert s' in k.scans && ScanOk(k, s');
      forall p | Covers(log, s', p) ensures Pending(k', p) {
        CoversMeansLive(log, s', p);
        assert Pending(k, p);
      }
    }
  }

  // A pass wakes at most the request it reads and hands the rest of its window on.
  lemma PassKeepsInv(k: Lock, s: Scan)
    requires Inv(k) && s in k.scans
    ensures s.head < |k.r.q.log| && Inv(Recirculate(k, s))
  {
    PassKeepsRunInv(k, s);
    PassGrantsPending(k, s);
    var k', log := Recirculate(k, s), k.r.q.log;
    forall s' | s' in k'.scans
      ensures ScanOk(k', s')
    {
      PassScanOk(k, s, s');
    }
    forall p | Pending(k', p)
      ensures Covered(k', p)
    {
      assert Pending(k, p);
      assert Covered(k, p);
      var s' :| s' in k.scans && Covers(log, s', p);
      CoversMeansLive(log, s', p);
      PassCovers(log, s, p);
    }
    forall s1, s2 | s1 in k'.scans && s2 in k'.scans && Live(log, s1) && Live(log, s2)
      ensures s1 == s2
    {
      PassOneLive(k, s, s1, s2);
    }
  }

  lemma PassOneLive(k: Lock, s: Scan, s1: Scan, s2: Scan)
    requires Inv(k) && s in k.scans && s.head < |k.r.q.log|
    requires s1 in Recirculate(k, s).scans && s2 in Recirculate(k, s).scans
    requires Live(k.r.q.log, s1) && Live(k.r.q.log, s2)
    ensures s1 == s2
  {
    PassLiveOrigin(k, s, s1);
    PassLiveOrigin(k, s, s2);
  }

  lemma PassLiveOrigin(k: Lock, s: Scan, s1: Scan)
    requires Inv(k) && s in k.scans && s.head < |k.r.q.log|
    requires s1 in Recirculate(k, s).scans && Live(k.r.q.log, s1)
    ensures if Live(k.r.q.log, s) then PassNext(s, k.r.q.log[s.head]) == Some(s1) else s1 in k.scans
  {
    PassGrantsPending(k, s);
    assert ScanOk(k, s);
  }
}
