/** What every turn of a client keeps, and what follows for its releases and commits. */
module ClientInvariant {
  import opened NetLockTypes
  import opened ClientMachine

  // How many acquires of transaction t the trace holds at or after row i.
  function CountTid(trace: seq<Row>, i: nat, t: nat): nat
    requires i <= |trace|
    decreases |trace| - i
  {
    if i == |trace| then 0
    else (if trace[i].tid == t && trace[i].acquire then 1 else 0) + CountTid(trace, i + 1, t)
  }

  // A trace as get_traces builds it from a file of acquires and releases; the first and the
  // last transaction differ, so that the trace can be played round and round.
  ghost predicate Good(w: Workload) {
    && w.trace != [] && 0 < |w.locksEach|
    && (forall i | 0 <= i < |w.trace| :: w.trace[i].acquire && w.trace[i].tid < |w.locksEach|)
    && (forall t | 0 <= t < |w.locksEach| :: w.locksEach[t] == CountTid(w.trace, 0, t))
    && w.trace[0].tid != w.trace[|w.trace| - 1].tid
  }

  lemma {:induction false} BlockIsCounted(trace: seq<Row>, i: nat, from: nat, m: nat, t: nat)
    requires i <= from && from + m <= |trace|
    requires forall j | from <= j < from + m :: trace[j].tid == t && trace[j].acquire
    ensures m <= CountTid(trace, i, t)
    decreases |trace| - i
  {
    if i < from {
      BlockIsCounted(trace, i + 1, from, m, t);
    } else if m > 0 {
      BlockIsCounted(trace, i + 1, from + 1, m - 1, t);
    }
  }

  // c is in an attempt of its last transaction in which m acquires have been sent.
  ghost predicate Inv(w: Workload, c: State, m: nat) {
    && Good(w) && Shape(w, c)
    && AtRow(w, c, m)
    && Quiet(c)
    && var last := c.lastTxn;
       && c.txnR[last] == |c.queues[last]| <= m
       && (c.txnS[last] > 0 ==> c.deadlocked[last])
       && (m > 0 ==> !c.finished[last])
       && (c.deadlocked[last] ==> w.trace[Wrapped(w, c).idx].tid != last)
  }

  // The attempt began at last_txn_idx and has sent m rows, all of one transaction.
  ghost predicate AtRow(w: Workload, c: State, m: nat) {
    && c.lastTxnIdx + m <= |w.trace|
    && (c.idx == c.lastTxnIdx + m || (c.idx == 0 && c.lastTxnIdx + m == |w.trace|))
    && forall i | c.lastTxnIdx <= i < c.lastTxnIdx + m :: w.trace[i].tid == c.lastTxn
  }

  // Nothing is left over of any other transaction.
  ghost predicate Quiet(c: State)
    requires |c.txnS| == |c.txnR| == |c.deadlocked| == |c.queues|
  {
    forall t | 0 <= t < |c.queues| && t != c.lastTxn ::
      c.queues[t] == [] && c.txnS[t] == 0 && c.txnR[t] == 0 && !c.deadlocked[t]
  }

  lemma StartInv(w: Workload)
    requires Good(w)
    ensures Inv(w, Start(w), 0)
  {
  }

  lemma SentAtMostAll(w: Workload, c: State, m: nat)
    requires Inv(w, c, m)
    ensures m <= w.locksEach[c.lastTxn]
  {
    BlockIsCounted(w.trace, 0, c.lastTxnIdx, m, c.lastTxn);
  }

  lemma SendKeepsInv(w: Workload, c: State, m: nat, row: Row)
    requires Inv(w, c, m) && c.idx < |w.trace| && row == w.trace[c.idx]
    requires row.tid == c.lastTxn || (m == 0 && c.txnR[c.lastTxn] == 0 && !c.deadlocked[c.lastTxn])
    ensures Inv(w, SendRow(c, row), m + 1)
    ensures c.idx == c.lastTxnIdx + m
    ensures c.txnS[row.tid] == 0
  {
  }

  // A finished transaction leaves an empty attempt.
  lemma FinishKeepsInv(w: Workload, c: State, m: nat, row: Row)
    requires Inv(w, c, m) && c.idx < |w.trace| && row == w.trace[c.idx] && row.tid != c.lastTxn
    requires c.txnR[c.lastTxn] == w.locksEach[c.lastTxn]
    ensures m == w.locksEach[c.lastTxn]
    ensures !c.deadlocked[c.lastTxn] ==> Inv(w, Commit(Finish(c), row.tid), 0)
    ensures c.deadlocked[c.lastTxn] ==> Inv(w, RollBack(Finish(c)), 0)
  {
    SentAtMostAll(w, c, m);
  }

  lemma WrapKeepsInv(w: Workload, c: State, m: nat)
    requires Inv(w, c, m)
    ensures Inv(w, Wrapped(w, c), m)
  {
  }

  // What a turn o from c may be, m acquires into the attempt. A transaction ends only with
  // all its acquires sent and granted, and it is counted as committed only if nothing of it
  // was released before.
  ghost predicate TurnFacts(w: Workload, c: State, m: nat, o: Outcome)
    requires Inv(w, c, m)
  {
    var last := c.lastTxn;
    match o.action
    case Skipped => false
    case Idle => o.c == Wrapped(w, c)
    case Sent =>
      && Inv(w, o.c, m + 1) && o.releases == [] && o.c.queues == c.queues && o.c.lastTxn == last
      && o.c.lastTxnIdx == c.lastTxnIdx && c.lastTxnIdx + m < |w.trace|
      && o.acquire == Some(w.trace[c.lastTxnIdx + m])
      && o.c.txnS[last] == c.txnS[last] && o.c.deadlocked == c.deadlocked
    case TimedOut =>
      && Inv(w, o.c, m) && o.releases == c.queues[last][c.txnS[last]..] && o.acquire == None
      && o.c.queues == c.queues && o.c.lastTxn == last && o.c.lastTxnIdx == c.lastTxnIdx
      && o.c.txnS[last] == |c.queues[last]| && o.c.deadlocked[last]
    case RolledBack =>
      && |c.queues[last]| == m == w.locksEach[last]
      && Inv(w, o.c, 0) && o.releases == c.queues[last][c.txnS[last]..] && o.acquire == None
      && o.c.lastTxn == last && o.c.queues[last] == [] && o.c.lastTxnIdx == c.lastTxnIdx == o.c.idx
      && o.c.finished[last] && !o.c.deadlocked[last]
    case Committed =>
      && |c.queues[last]| == m == w.locksEach[last] && c.txnS[last] == 0
      && Inv(w, o.c, 1) && o.releases == c.queues[last]
      && o.c.lastTxnIdx == Wrapped(w, c).idx && o.acquire == Some(w.trace[o.c.lastTxnIdx])
      && o.c.queues[o.c.lastTxn] == [] && o.c.finished[last] && !o.c.deadlocked[o.c.lastTxn]
  }

  lemma SendingTurn(w: Workload, c: State, m: nat, expired: bool)
    requires Inv(w, c, m) && w.trace[Wrapped(w, c).idx].tid == c.lastTxn
    ensures TurnFacts(w, c, m, Turn(w, c, expired))
  {
    var d := Wrapped(w, c);
    WrapKeepsInv(w, c, m);
    SendKeepsInv(w, d, m, w.trace[d.idx]);
  }

  lemma EndingTurn(w: Workload, c: State, m: nat, expired: bool)
    requires Inv(w, c, m) && w.trace[Wrapped(w, c).idx].tid != c.lastTxn
    requires c.txnR[c.lastTxn] == w.locksEach[c.lastTxn]
    ensures TurnFacts(w, c, m, Turn(w, c, expired))
  {
    var d := Wrapped(w, c);
    var row := w.trace[d.idx];
    WrapKeepsInv(w, c, m);
    FinishKeepsInv(w, d, m, row);
    if !c.deadlocked[c.lastTxn] {
      SendKeepsInv(w, Commit(Finish(d), row.tid), 0, row);
    }
  }

  lemma WaitingTurn(w: Workload, c: State, m: nat, expired: bool)
    requires Inv(w, c, m) && w.trace[Wrapped(w, c).idx].tid != c.lastTxn
    requires c.txnR[c.lastTxn] < w.locksEach[c.lastTxn]
    ensures TurnFacts(w, c, m, Turn(w, c, expired))
  {
    WrapKeepsInv(w, c, m);
  }

  lemma TurnKinds(w: Workload, c: State, m: nat, expired: bool)
    requires Inv(w, c, m)
    ensures TurnFacts(w, c, m, Turn(w, c, expired))
  {
    SentAtMostAll(w, c, m);
    if w.trace[Wrapped(w, c).idx].tid == c.lastTxn {
      SendingTurn(w, c, m, expired);
    } else if c.txnR[c.lastTxn] == w.locksEach[c.lastTxn] {
      EndingTurn(w, c, m, expired);
    } else {
      WaitingTurn(w, c, m, expired);
    }
  }

  // Which of these a turn is. A transaction whose acquires have all been granted is committed,
  // unless a turn timed out on it: then it is rolled back. While grants are missing the turn
  // waits, and within a transaction it sends.
  lemma TurnDecides(w: Workload, c: State, m: nat, expired: bool)
    requires Inv(w, c, m)
    ensures var last, t, action := c.lastTxn, w.trace[Wrapped(w, c).idx].tid, Turn(w, c, expired).action;
            && (action.Sent? <==> t == last)
            && (action.Committed? <==> t != last && c.txnR[last] == w.locksEach[last] && !c.deadlocked[last])
            && (action.RolledBack? <==> t != last && c.txnR[last] == w.locksEach[last] && c.deadlocked[last])
            && (action.TimedOut? <==> t != last && c.txnR[last] < w.locksEach[last] && expired)
            && (action.Idle? <==> t != last && c.txnR[last] < w.locksEach[last] && !expired)
  {
    SentAtMostAll(w, c, m);
  }

  // A row that is no acquire is passed over: no packet, and only the index moves.
  lemma OthersAreSkipped(w: Workload, c: State, expired: bool)
    requires Shape(w, c)
    ensures var d, o := Wrapped(w, c), Turn(w, c, expired);
            (o.action.Skipped? <==> !w.trace[d.idx].acquire)
            && (o.action.Skipped? ==> o.releases == [] && o.acquire == None && o.c == d.(idx := d.idx + 1))
  {
  }

  // A commit passes through the state in which the old transaction is forgotten and nothing of
  // the next one has been sent.
  lemma CommittingTurn(w: Workload, c: State, m: nat, expired: bool, row: Row)
    requires Inv(w, c, m) && Turn(w, c, expired).action.Committed?
    requires row == w.trace[Wrapped(w, c).idx]
    ensures var o, mid := Turn(w, c, expired), Commit(Finish(Wrapped(w, c)), row.tid);
            && o.acquire == Some(row) && o.c == SendRow(mid, row)
            && Inv(w, mid, 0) && mid.queues[mid.lastTxn] == []
            && |c.queues[c.lastTxn]| == m && c.txnS[c.lastTxn] == 0 && o.releases == c.queues[c.lastTxn]
  {
    TurnKinds(w, c, m, expired);
    WrapKeepsInv(w, c, m);
    FinishKeepsInv(w, Wrapped(w, c), m, row);
  }

  lemma ReceiveKeepsInv(w: Workload, c: State, m: nat, g: Grant)
    requires Inv(w, c, m) && g.tid == c.lastTxn && |c.queues[c.lastTxn]| < m
    ensures Inv(w, Receive(c, g), m)
  {
  }

  // ---- Releases over whole runs ----

  datatype Event = TurnNow(expired: bool) | GrantArrives(g: Grant)

  // An attempt of a transaction: what was received and released since its first acquire, and
  // whether a turn timed out; and all the rows asked for since the start of the run.
  datatype Attempt = Attempt(c: State, m: nat, received: seq<Grant>, released: seq<Grant>, timedOut: bool, asked: seq<Row>)

  // A grant answers an acquire of the attempt.
  ghost predicate Enabled(w: Workload, a: Attempt, ev: Event) {
    && Shape(w, a.c)
    && (ev.GrantArrives? ==> ev.g.tid == a.c.lastTxn && |a.c.queues[a.c.lastTxn]| < a.m)
  }

  function AskedBy(a: Attempt, o: Outcome): seq<Row> {
    a.asked + match o.acquire case None => [] case Some(row) => [row]
  }

  function Step(w: Workload, a: Attempt, ev: Event): Attempt
    requires Enabled(w, a, ev)
  {
    match ev
    case GrantArrives(g) => a.(c := Receive(a.c, g), received := a.received + [g])
    case TurnNow(expired) =>
      var o := Turn(w, a.c, expired);
      match o.action
      case Committed => Attempt(o.c, 1, [], [], false, AskedBy(a, o))
      case RolledBack => Attempt(o.c, 0, [], [], false, a.asked)
      case Sent => Attempt(o.c, a.m + 1, a.received, a.released, a.timedOut, AskedBy(a, o))
      case TimedOut => Attempt(o.c, a.m, a.received, a.released + o.releases, true, a.asked)
      case _ => a.(c := o.c)
  }

  ghost predicate LegalRun(w: Workload, a: Attempt, evs: seq<Event>)
    decreases |evs|
  {
    evs != [] ==> Enabled(w, a, evs[0]) && LegalRun(w, Step(w, a, evs[0]), evs[1..])
  }

  function Run(w: Workload, a: Attempt, evs: seq<Event>): Attempt
    requires LegalRun(w, a, evs)
    decreases |evs|
  {
    if evs == [] then a else Run(w, Step(w, a, evs[0]), evs[1..])
  }

  function First(w: Workload): Attempt
    requires 0 < |w.locksEach|
  {
    Attempt(Start(w), 0, [], [], false, [])
  }

  // The first txn_s grants of the list have been released, in order and once; no other has.
  ghost predicate Exact(w: Workload, a: Attempt) {
    && Inv(w, a.c, a.m)
    && a.received == a.c.queues[a.c.lastTxn]
    && a.released == a.received[..a.c.txnS[a.c.lastTxn]]
    && a.timedOut == a.c.deadlocked[a.c.lastTxn]
  }

  // A new attempt starts with nothing received.
  lemma FreshIsExact(w: Workload, c: State, m: nat, asked: seq<Row>)
    requires Inv(w, c, m) && c.queues[c.lastTxn] == [] && !c.deadlocked[c.lastTxn]
    ensures Exact(w, Attempt(c, m, [], [], false, asked))
  {
  }

  lemma TimeoutStaysExact(w: Workload, a: Attempt, c': State)
    requires Exact(w, a) && Inv(w, c', a.m) && c'.lastTxn == a.c.lastTxn && c'.queues == a.c.queues
    requires c'.txnS[c'.lastTxn] == |a.received| && c'.deadlocked[c'.lastTxn]
    ensures Exact(w, Attempt(c', a.m, a.received, a.released + a.received[a.c.txnS[a.c.lastTxn]..], true, a.asked))
  {
    var s := a.c.txnS[a.c.lastTxn];
    assert a.received == a.received[..s] + a.received[s..];
  }

  lemma TurnStaysExact(w: Workload, a: Attempt, o: Outcome)
    requires Exact(w, a) && TurnFacts(w, a.c, a.m, o)
    ensures match o.action
            case Committed => Exact(w, Attempt(o.c, 1, [], [], false, AskedBy(a, o)))
            case RolledBack => Exact(w, Attempt(o.c, 0, [], [], false, a.asked))
            case Sent => Exact(w, Attempt(o.c, a.m + 1, a.received, a.released, a.timedOut, AskedBy(a, o)))
            case TimedOut => Exact(w, Attempt(o.c, a.m, a.received, a.released + o.releases, true, a.asked))
            case _ => true
  {
    match o.action
    case Committed => FreshIsExact(w, o.c, 1, AskedBy(a, o));
    case RolledBack => FreshIsExact(w, o.c, 0, a.asked);
    case TimedOut => TimeoutStaysExact(w, a, o.c);
    case _ =>
  }

  lemma StepStaysExact(w: Workload, a: Attempt, ev: Event)
    requires Exact(w, a) && Enabled(w, a, ev)
    ensures Exact(w, Step(w, a, ev))
  {
    match ev
    case GrantArrives(g) => ReceiveKeepsInv(w, a.c, a.m, g);
    case TurnNow(expired) =>
      TurnKinds(w, a.c, a.m, expired);
      TurnStaysExact(w, a, Turn(w, a.c, expired));
      if Turn(w, a.c, expired).action.Idle? {
        IdleStaysExact(w, a, expired);
      }
  }

  lemma IdleStaysExact(w: Workload, a: Attempt, expired: bool)
    requires Exact(w, a) && Turn(w, a.c, expired).action.Idle?
    ensures Exact(w, Step(w, a, TurnNow(expired)))
  {
    WrapKeepsInv(w, a.c, a.m);
    TurnKinds(w, a.c, a.m, expired);
  }

  lemma {:induction false} RunStaysExact(w: Workload, a: Attempt, evs: seq<Event>)
    requires Exact(w, a) && LegalRun(w, a, evs)
    ensures Exact(w, Run(w, a, evs))
    decreases |evs|
  {
    if evs != [] {
      StepStaysExact(w, a, evs[0]);
      RunStaysExact(w, Step(w, a, evs[0]), evs[1..]);
    }
  }

  // Over any interleaving of turns, timeouts and grants: when an attempt ends, the releases
  // sent in it are the grants received in it, each once and in order, one for every acquire
  // of the transaction; it is rolled back if and only if a turn timed out in it, and an attempt
  // that commits had released nothing before.
  lemma AttemptReleasesExactly(w: Workload, evs: seq<Event>, expired: bool)
    requires Good(w) && LegalRun(w, First(w), evs)
    ensures var a := Run(w, First(w), evs);
            && Exact(w, a)
            && var o := Turn(w, a.c, expired);
               && (o.action.Committed? || o.action.RolledBack? ==>
                     a.released + o.releases == a.received && |a.received| == w.locksEach[a.c.lastTxn])
               && (o.action.Committed? ==> a.released == [] && !a.timedOut)
               && (o.action.RolledBack? ==> a.timedOut)
  {
    StartInv(w);
    RunStaysExact(w, First(w), evs);
    var a := Run(w, First(w), evs);
    TurnKinds(w, a.c, a.m, expired);
    var s := a.c.txnS[a.c.lastTxn];
    assert a.received == a.received[..s] + a.received[s..];
  }

  // ---- The rows asked for ----

  // Row i is the first of its transaction: the row in front of it is of another one.
  predicate Begins(w: Workload, i: nat) {
    i < |w.trace| && (i == 0 || w.trace[i - 1].tid != w.trace[i].tid)
  }

  // The last m rows asked for are the trace from row i on.
  ghost predicate Recent(w: Workload, asked: seq<Row>, i: nat, m: nat) {
    m <= |asked| && i + m <= |w.trace| && asked[|asked| - m..] == w.trace[i..i + m]
  }

  lemma RecentGrows(w: Workload, asked: seq<Row>, i: nat, m: nat)
    requires Recent(w, asked, i, m) && i + m < |w.trace|
    ensures Recent(w, asked + [w.trace[i + m]], i, m + 1)
  {
    var row := w.trace[i + m];
    assert w.trace[i..i + m + 1] == w.trace[i..i + m] + [row];
    assert (asked + [row])[|asked| - m..] == asked[|asked| - m..] + [row];
  }

  // The attempt is at the first row of a transaction and has asked for the rows from there on;
  // the first row asked for at all is the first of the trace.
  ghost predicate Plays(w: Workload, a: Attempt) {
    && Inv(w, a.c, a.m)
    && Begins(w, a.c.lastTxnIdx) && Recent(w, a.asked, a.c.lastTxnIdx, a.m)
    && if a.asked == [] then a.c.idx == 0 && a.c.lastTxnIdx == 0 else a.asked[0] == w.trace[0]
  }

  lemma NextBegins(w: Workload, c: State, m: nat)
    requires Inv(w, c, m) && Begins(w, c.lastTxnIdx) && w.trace[Wrapped(w, c).idx].tid != c.lastTxn
    ensures Begins(w, Wrapped(w, c).idx)
  {
    if Wrapped(w, c).idx > 0 && m > 0 {
      assert w.trace[c.lastTxnIdx + m - 1].tid == c.lastTxn;
    }
  }

  lemma CommittedBegins(w: Workload, c: State, m: nat, expired: bool)
    requires Inv(w, c, m) && Begins(w, c.lastTxnIdx) && Turn(w, c, expired).action.Committed?
    ensures Begins(w, Wrapped(w, c).idx)
  {
    TurnDecides(w, c, m, expired);
    NextBegins(w, c, m);
  }

  lemma GrownPlays(w: Workload, a: Attempt, c': State)
    requires Plays(w, a) && a.c.lastTxnIdx + a.m < |w.trace| && Inv(w, c', a.m + 1) && c'.lastTxnIdx == a.c.lastTxnIdx
    ensures Plays(w, Attempt(c', a.m + 1, a.received, a.released, a.timedOut, a.asked + [w.trace[a.c.lastTxnIdx + a.m]]))
  {
    RecentGrows(w, a.asked, a.c.lastTxnIdx, a.m);
  }

  lemma SentPlays(w: Workload, a: Attempt, o: Outcome)
    requires Plays(w, a) && TurnFacts(w, a.c, a.m, o) && o.action.Sent?
    ensures Plays(w, Attempt(o.c, a.m + 1, a.received, a.released, a.timedOut, AskedBy(a, o)))
  {
    GrownPlays(w, a, o.c);
  }

  lemma CommittedPlays(w: Workload, a: Attempt, o: Outcome)
    requires Plays(w, a) && TurnFacts(w, a.c, a.m, o) && o.action.Committed? && Begins(w, o.c.lastTxnIdx)
    ensures Plays(w, Attempt(o.c, 1, [], [], false, AskedBy(a, o)))
  {
    RecentGrows(w, a.asked, o.c.lastTxnIdx, 0);
  }

  lemma RolledBackPlays(w: Workload, a: Attempt, o: Outcome)
    requires Plays(w, a) && TurnFacts(w, a.c, a.m, o) && o.action.RolledBack?
    ensures Plays(w, Attempt(o.c, 0, [], [], false, a.asked))
  {
  }

  lemma WaitPlays(w: Workload, a: Attempt, a': Attempt)
    requires Plays(w, a) && Inv(w, a'.c, a.m) && a'.m == a.m && a'.asked == a.asked
    requires a'.c.lastTxnIdx == a.c.lastTxnIdx && (a.asked == [] ==> a'.c.idx == 0)
    ensures Plays(w, a')
  {
  }

  // While nothing has been asked for, the client waits at the first row.
  lemma WaitingTurnStays(w: Workload, c: State, m: nat, expired: bool)
    requires Inv(w, c, m) && (Turn(w, c, expired).action.TimedOut? || Turn(w, c, expired).action.Idle?)
    ensures Inv(w, Turn(w, c, expired).c, m)
    ensures Turn(w, c, expired).c.lastTxnIdx == c.lastTxnIdx && Turn(w, c, expired).c.idx == Wrapped(w, c).idx
  {
    TurnKinds(w, c, m, expired);
    WrapKeepsInv(w, c, m);
  }

  lemma TurnPlays(w: Workload, a: Attempt, expired: bool)
    requires Plays(w, a)
    ensures Plays(w, Step(w, a, TurnNow(expired)))
  {
    TurnKinds(w, a.c, a.m, expired);
    var o := Turn(w, a.c, expired);
    match o.action
    case Sent => SentPlays(w, a, o);
    case Committed =>
      CommittedBegins(w, a.c, a.m, expired);
      CommittedPlays(w, a, o);
    case RolledBack => RolledBackPlays(w, a, o);
    case TimedOut =>
      WaitingTurnStays(w, a.c, a.m, expired);
      WaitPlays(w, a, Step(w, a, TurnNow(expired)));
    case Idle =>
      WaitingTurnStays(w, a.c, a.m, expired);
      WaitPlays(w, a, Step(w, a, TurnNow(expired)));
  }

  lemma StepPlays(w: Workload, a: Attempt, ev: Event)
    requires Plays(w, a) && Enabled(w, a, ev)
    ensures Plays(w, Step(w, a, ev))
  {
    match ev
    case GrantArrives(g) => ReceiveKeepsInv(w, a.c, a.m, g);
    case TurnNow(expired) => TurnPlays(w, a, expired);
  }

  // In every run the trace is played from its first row on, transaction by transaction.
  lemma {:induction false} RunPlays(w: Workload, a: Attempt, evs: seq<Event>)
    requires Plays(w, a) && LegalRun(w, a, evs)
    ensures Plays(w, Run(w, a, evs))
    decreases |evs|
  {
    if evs != [] {
      StepPlays(w, a, evs[0]);
      RunPlays(w, Step(w, a, evs[0]), evs[1..]);
    }
  }

  lemma PlaysFromTheStart(w: Workload, evs: seq<Event>)
    requires Good(w) && LegalRun(w, First(w), evs)
    ensures var a := Run(w, First(w), evs);
            && Begins(w, a.c.lastTxnIdx)
            && (a.asked != [] ==> a.asked[0] == w.trace[0])
            && Recent(w, a.asked, a.c.lastTxnIdx, a.m)
  {
    StartInv(w);
    RunPlays(w, First(w), evs);
  }

  // A commit moves on to the row behind the transaction, at the end of the trace to its first.
  lemma CommitMovesOn(w: Workload, c: State, m: nat, expired: bool)
    requires Inv(w, c, m) && Turn(w, c, expired).action.Committed?
    ensures var o, next := Turn(w, c, expired), if c.lastTxnIdx + m == |w.trace| then 0 else c.lastTxnIdx + m;
            o.c.lastTxnIdx == next && o.acquire == Some(w.trace[next]) && o.c.lastTxn == w.trace[next].tid && o.c.idx == next + 1
  {
    TurnKinds(w, c, m, expired);
  }
}
