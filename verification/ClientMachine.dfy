/**
 One client's transaction machine: it plays a trace of acquires, waits for the grants
 of a transaction, releases, and on a timeout rolls the transaction back.
 */
module ClientMachine {
  import opened NetLockTypes
  import LinkedQueue

  // One row of the trace: txn_id, whether the action is an acquire, lock and mode.
  datatype Row = Row(tid: nat, acquire: bool, lock: nat, mode: Mode)

  // locksEach: locks_each_txn, the number of acquires of each transaction.
  datatype Workload = Workload(trace: seq<Row>, locksEach: seq<nat>)

  // One node of the list of received grants. pos is history: the position in the lock's
  // ring the grant was made for.
  datatype Grant = Grant(tid: nat, lock: nat, mode: Mode, pos: nat)

  // The client's globals; the last five are indexed by transaction.
  datatype State = State(idx: nat, lastTxn: nat, lastTxnIdx: nat,
                         txnS: seq<nat>, txnR: seq<nat>, deadlocked: seq<bool>, finished: seq<bool>,
                         queues: seq<seq<Grant>>)

  datatype Action = Skipped | Sent | Idle | TimedOut | Committed | RolledBack

  // releases and acquire: the packets one turn of the transmit loop sends.
  datatype Outcome = Outcome(c: State, action: Action, releases: seq<Grant>, acquire: Option<Row>)

  ghost predicate Shape(w: Workload, c: State) {
    && w.trace != [] && c.idx <= |w.trace| && c.lastTxnIdx < |w.trace|
    && |c.txnS| == |c.txnR| == |c.deadlocked| == |c.finished| == |c.queues| == |w.locksEach|
    && c.lastTxn < |w.locksEach|
    && (forall i | 0 <= i < |w.trace| :: w.trace[i].tid < |w.locksEach|)
    && c.txnS[c.lastTxn] <= c.txnR[c.lastTxn] <= |c.queues[c.lastTxn]|
  }

  function Wrapped(w: Workload, c: State): State {
    if c.idx == |w.trace| then c.(idx := 0) else c
  }

  function SendRow(c: State, row: Row): State
    requires row.tid < |c.finished| == |c.txnS|
  {
    c.(lastTxn := row.tid, finished := c.finished[row.tid := false], txnS := c.txnS[row.tid := 0], idx := c.idx + 1)
  }

  // The last transaction has all its grants: release what it still holds and forget the list.
  function Finish(c: State): State
    requires c.lastTxn < |c.txnS| == |c.txnR| == |c.finished| == |c.queues|
  {
    c.(txnR := c.txnR[c.lastTxn := 0], txnS := c.txnS[c.lastTxn := 0],
       finished := c.finished[c.lastTxn := true], queues := c.queues[c.lastTxn := []])
  }

  function Unreleased(c: State): seq<Grant>
    requires c.lastTxn < |c.txnS| == |c.txnR| == |c.queues|
    requires c.txnS[c.lastTxn] <= c.txnR[c.lastTxn] <= |c.queues[c.lastTxn]|
  {
    c.queues[c.lastTxn][c.txnS[c.lastTxn]..c.txnR[c.lastTxn]]
  }

  // The transaction of the next row is taken up.
  function Commit(c: State, next: nat): State
    requires c.lastTxn < |c.deadlocked| && next < |c.deadlocked|
  {
    c.(lastTxnIdx := c.idx, deadlocked := c.deadlocked[c.lastTxn := false][next := false])
  }

  // The trace is taken up again where the transaction began.
  function RollBack(c: State): State
    requires c.lastTxn < |c.deadlocked|
  {
    c.(idx := c.lastTxnIdx, deadlocked := c.deadlocked[c.lastTxn := false])
  }

  function ReleaseEarly(c: State): State
    requires c.lastTxn < |c.deadlocked| == |c.txnS| == |c.txnR|
  {
    c.(deadlocked := c.deadlocked[c.lastTxn := true], txnS := c.txnS[c.lastTxn := c.txnR[c.lastTxn]])
  }

  // The tail of a turn, once the wait for the last transaction is over or was not needed.
  function Proceed(c: State, row: Row, releases: seq<Grant>): Outcome
    requires c.lastTxn < |c.deadlocked| == |c.finished| == |c.txnS| && row.tid < |c.deadlocked|
  {
    if c.finished[c.lastTxn] && row.tid != c.lastTxn then
      if c.deadlocked[c.lastTxn] then Outcome(RollBack(c), RolledBack, releases, None)
      else Outcome(SendRow(Commit(c, row.tid), row), Committed, releases, Some(row))
    else Outcome(SendRow(c, row), Sent, releases, Some(row))
  }

  // The row's transaction waits for the last one: expired says whether that one's timer has run out.
  function AskFor(w: Workload, c: State, row: Row, expired: bool): Outcome
    requires Shape(w, c) && row.tid < |w.locksEach|
  {
    var last := c.lastTxn;
    if row.tid == last then Proceed(c, row, [])
    else if c.txnR[last] == w.locksEach[last] then Proceed(Finish(c), row, Unreleased(c))
    else if c.txnR[last] < w.locksEach[last] then
      if expired then Outcome(ReleaseEarly(c), TimedOut, Unreleased(c), None)
      else Outcome(c, Idle, [], None)
    else Proceed(c, row, [])
  }

  // One turn of the transmit loop.
  function Turn(w: Workload, c0: State, expired: bool): Outcome
    requires Shape(w, c0)
  {
    var c := Wrapped(w, c0);
    var row := w.trace[c.idx];
    if row.acquire then AskFor(w, c, row, expired) else Outcome(c.(idx := c.idx + 1), Skipped, [], None)
  }

  // The receive loop appends the grant to its transaction's list.
  function Receive(c: State, g: Grant): State
    requires g.tid < |c.queues| == |c.txnR|
  {
    c.(queues := c.queues[g.tid := c.queues[g.tid] + [g]], txnR := c.txnR[g.tid := c.txnR[g.tid] + 1])
  }

  // ---- The loops themselves ----

  // Each transaction has a linked list of its own.
  ghost predicate Separate(queues: seq<LinkedQueue.Queue<Grant>>)
    reads queues
  {
    && (forall i, j | 0 <= i < j < |queues| :: queues[i] != queues[j])
    && (forall i, j, n | 0 <= i < |queues| && 0 <= j < |queues| && i != j && n in queues[i].spine :: n !in queues[j].spine)
  }

  ghost function Nodes(queues: seq<LinkedQueue.Queue<Grant>>): (nodes: set<LinkedQueue.Node<Grant>>)
    reads queues
    ensures forall i, k | 0 <= i < |queues| && 0 <= k < |queues[i].spine| :: queues[i].spine[k] in nodes
  {
    assert forall i, k | 0 <= i < |queues| && 0 <= k < |queues[i].spine| ::
        queues[i] in queues && queues[i].spine[k] in queues[i].spine;
    set q, n | q in queues && n in q.spine :: n
  }

  // The lists contain these grants.
  ghost predicate Contain(queues: seq<LinkedQueue.Queue<Grant>>, lists: seq<seq<Grant>>)
    reads queues, Nodes(queues)
  {
    && |lists| == |queues|
    && forall i | 0 <= i < |queues| :: queues[i].Valid() && lists[i] == queues[i].contents
  }

  method NewQueues(n: nat) returns (queues: seq<LinkedQueue.Queue<Grant>>)
    ensures |queues| == n && fresh(queues) && Separate(queues) && Contain(queues, seq(n, _ => []))
  {
    queues := [];
    for i := 0 to n
      invariant |queues| == i && fresh(queues)
      invariant forall k | 0 <= k < i :: queues[k].Valid() && queues[k].contents == [] && queues[k].spine == []
      invariant forall k, m | 0 <= k < m < i :: queues[k] != queues[m]
    {
      var q := new LinkedQueue.Queue<Grant>();
      queues := queues + [q];
    }
  }

  // One list grows at its end; the others are not touched.
  method EnqueueIn(queues: seq<LinkedQueue.Queue<Grant>>, t: nat, g: Grant, ghost lists: seq<seq<Grant>>)
    requires t < |queues| && Separate(queues) && Contain(queues, lists)
    modifies queues[t], queues[t].spine
    ensures Separate(queues) && Contain(queues, lists[t := lists[t] + [g]])
  {
    ghost var spine := queues[t].spine;
    queues[t].Enqueue(g);
    forall i | 0 <= i < |queues| && i != t
      ensures queues[i].Valid() && queues[i].contents == lists[i] && queues[i].spine == old(queues[i].spine)
    {
      assert unchanged(queues[i]);
      assert forall k | 0 <= k < |queues[i].spine| :: queues[i].spine[k] in old(queues[i].spine);
      assert forall k | 0 <= k < |queues[i].spine| :: unchanged(queues[i].spine[k]);
    }
  }

  method ClearIn(queues: seq<LinkedQueue.Queue<Grant>>, t: nat, ghost lists: seq<seq<Grant>>)
    requires t < |queues| && Separate(queues) && Contain(queues, lists)
    modifies queues[t]
    ensures Separate(queues) && Contain(queues, lists[t := []])
  {
    queues[t].Clear();
    assert forall i | 0 <= i < |queues| && i != t :: queues[i].spine == old(queues[i].spine);
  }

  // Walks the list past its first skip nodes and releases up to bound.
  method ReleaseNodes(queue: LinkedQueue.Queue<Grant>, skip: nat, bound: nat) returns (releases: seq<Grant>)
    requires queue.Valid() && skip <= bound <= |queue.contents|
    ensures releases == queue.contents[skip..bound]
  {
    releases := [];
    var ptr := queue.head;
    for index := 0 to skip
      invariant queue.At(ptr, index)
    {
      queue.NextIsAt(ptr, index);
      ptr := ptr.next;
    }
    for index := skip to bound
      invariant queue.At(ptr, index)
      invariant releases == queue.contents[skip..index]
    {
      queue.NextIsAt(ptr, index);
      releases := releases + [ptr.value];
      ptr := ptr.next;
    }
  }

  class TransmitLoop {
    const w: Workload
    var idx: nat
    var lastTxn: nat
    var lastTxnIdx: nat
    var txnS: seq<nat>
    var txnR: seq<nat>
    var deadlocked: seq<bool>
    var finished: seq<bool>
    var queues: seq<LinkedQueue.Queue<Grant>>
    ghost var lists: seq<seq<Grant>>

    ghost function View(): State
      reads this
    {
      State(idx, lastTxn, lastTxnIdx, txnS, txnR, deadlocked, finished, lists)
    }

    ghost predicate Valid()
      reads this, queues, Nodes(queues)
    {
      Shape(w, View()) && Separate(queues) && Contain(queues, lists)
    }

    constructor (w: Workload)
      requires w.trace != [] && 0 < |w.locksEach| && forall i | 0 <= i < |w.trace| :: w.trace[i].tid < |w.locksEach|
      ensures this.w == w && Valid() && View() == Start(w) && fresh(queues)
    {
      var n := |w.locksEach|;
      this.w := w;
      idx, lastTxn, lastTxnIdx := 0, 0, 0;
      txnS, txnR := seq(n, _ => 0), seq(n, _ => 0);
      deadlocked, finished := seq(n, _ => false), seq(n, _ => false);
      queues, lists := [], seq(n, _ => []);
      new;
      queues := NewQueues(n);
    }

    method ReceiveGrant(g: Grant)
      requires Valid() && g.tid < |queues|
      modifies this, queues[g.tid], queues[g.tid].spine
      ensures Valid() && View() == Receive(old(View()), g) && queues == old(queues)
    {
      EnqueueIn(queues, g.tid, g, lists);
      lists := lists[g.tid := lists[g.tid] + [g]];
      txnR := txnR[g.tid := txnR[g.tid] + 1];
    }

    // Sends the releases and forgets the list.
    method EmptyList(bound: nat) returns (releases: seq<Grant>)
      requires lastTxn < |txnS| == |queues| == |lists| && Separate(queues) && Contain(queues, lists)
      requires txnS[lastTxn] <= bound <= |lists[lastTxn]|
      modifies `lists, queues
      ensures releases == old(lists)[lastTxn][txnS[lastTxn]..bound]
      ensures lists == old(lists)[lastTxn := []] && Separate(queues) && Contain(queues, lists)
    {
      releases := ReleaseNodes(queues[lastTxn], txnS[lastTxn], bound);
      ClearIn(queues, lastTxn, lists);
      lists := lists[lastTxn := []];
    }

    // The last transaction has all its grants.
    method FinishLast() returns (releases: seq<Grant>)
      requires Valid()
      modifies this, queues
      ensures View() == Finish(old(View())) && releases == Unreleased(old(View()))
      ensures queues == old(queues) && Separate(queues) && Contain(queues, lists)
    {
      var bound := txnR[lastTxn];
      releases := EmptyList(bound);
      txnR := txnR[lastTxn := 0];
      txnS := txnS[lastTxn := 0];
      finished := finished[lastTxn := true];
    }

    // Its timer has run out.
    method GiveBackEarly() returns (releases: seq<Grant>)
      requires Valid()
      modifies this
      ensures View() == ReleaseEarly(old(View())) && releases == Unreleased(old(View()))
      ensures queues == old(queues) && Separate(queues) && Contain(queues, lists)
    {
      deadlocked := deadlocked[lastTxn := true];
      var bound := txnR[lastTxn];
      releases := ReleaseNodes(queues[lastTxn], txnS[lastTxn], bound);
      txnS := txnS[lastTxn := bound];
    }

    // The rest of the turn, unless it ends with the wait.
    method TakeUp(row: Row, ghost releases: seq<Grant>) returns (action: Action, acquire: Option<Row>)
      requires lastTxn < |deadlocked| == |finished| == |txnS| && row.tid < |deadlocked|
      modifies `idx, `lastTxn, `lastTxnIdx, `deadlocked, `finished, `txnS
      ensures Outcome(View(), action, releases, acquire) == Proceed(old(View()), row, releases)
    {
      action := Sent;
      if row.tid != lastTxn && finished[lastTxn] {
        if !deadlocked[lastTxn] {
          lastTxnIdx := idx;
          deadlocked := deadlocked[lastTxn := false];
          deadlocked := deadlocked[row.tid := false];
          action := Committed;
        } else {
          idx := lastTxnIdx;
          deadlocked := deadlocked[lastTxn := false];
          return RolledBack, None;
        }
      }
      lastTxn := row.tid;
      finished := finished[lastTxn := false];
      txnS := txnS[lastTxn := 0];
      acquire := Some(row);
      idx := idx + 1;
    }

    // The next row is of another transaction.
    method WaitForLast(expired: bool) returns (action: Action, releases: seq<Grant>)
      requires Valid()
      modifies this, queues
      ensures queues == old(queues) && Separate(queues) && Contain(queues, lists)
      ensures var c := old(View());
              if c.txnR[c.lastTxn] == w.locksEach[c.lastTxn] then
                action.Sent? && View() == Finish(c) && releases == Unreleased(c)
              else if c.txnR[c.lastTxn] > w.locksEach[c.lastTxn] then
                action.Sent? && View() == c && releases == []
              else if expired then
                action.TimedOut? && View() == ReleaseEarly(c) && releases == Unreleased(c)
              else action.Idle? && View() == c && releases == []
    {
      action, releases := Sent, [];
      if txnR[lastTxn] == w.locksEach[lastTxn] {
        releases := FinishLast();
      } else if txnR[lastTxn] < w.locksEach[lastTxn] {
        action := Idle;
        if expired {
          releases := GiveBackEarly();
          action := TimedOut;
        }
      }
    }

    // The next row is an acquire.
    method AcquireTurn(row: Row, expired: bool) returns (action: Action, releases: seq<Grant>, acquire: Option<Row>)
      requires Valid() && row.tid < |queues|
      modifies this, queues
      ensures Outcome(View(), action, releases, acquire) == AskFor(w, old(View()), row, expired)
      ensures queues == old(queues) && Separate(queues) && Contain(queues, lists)
    {
      action, releases, acquire := Sent, [], None;
      if row.tid != lastTxn {
        action, releases := WaitForLast(expired);
      }
      if action.Sent? {
        action, acquire := TakeUp(row, releases);
      }
    }

    method OneTurn(expired: bool) returns (action: Action, releases: seq<Grant>, acquire: Option<Row>)
      requires Valid()
      modifies this, queues
      ensures Outcome(View(), action, releases, acquire) == Turn(w, old(View()), expired)
      ensures queues == old(queues) && Separate(queues) && Contain(queues, lists)
    {
      if idx == |w.trace| {
        idx := 0;
      }
      var row := w.trace[idx];
      if !row.acquire {
        idx := idx + 1;
        return Skipped, [], None;
      }
      action, releases, acquire := AcquireTurn(row, expired);
    }
  }

  function Start(w: Workload): State
    requires 0 < |w.locksEach|
  {
    var n := |w.locksEach|;
    State(0, 0, 0, seq(n, _ => 0), seq(n, _ => 0), seq(n, _ => false), seq(n, _ => false), seq(n, _ => []))
  }
}
