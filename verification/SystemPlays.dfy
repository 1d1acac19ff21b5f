/** Every client plays its trace from the first row on, transaction by transaction. */
module SystemPlays {
  import opened NetLockTypes
  import opened ClientMachine
  import opened LockSystem
  import opened SystemSends
  import opened SystemSwitch
  import opened SystemArrivals
  import opened SystemRuns
  import CI = ClientInvariant

  // The attempt began at the first row of a transaction, the first attempt at that of the trace.
  ghost predicate NodePlays(node: Node) {
    CI.Begins(node.load, node.c.lastTxnIdx) && (node.places == [] ==> node.c.idx == 0 && node.c.lastTxnIdx == 0)
  }

  ghost predicate AllPlay(w: World) {
    forall who | who in w.nodes :: NodePlays(w.nodes[who])
  }

  // A turn gives the client its next state and nobody else another one.
  lemma TurnTakesState(w: World, who: Client, expired: bool, tsHi: nat, tsLo: nat)
    requires Inv(w) && CanTurn(w, who)
    ensures var node, o, nodes' := w.nodes[who], OutcomeOf(w, who, expired), TakeTurn(w, who, expired, tsHi, tsLo).nodes;
            && nodes'.Keys == w.nodes.Keys && (forall x | x in w.nodes && x != who :: nodes'[x] == w.nodes[x])
            && nodes'[who].c == o.c && nodes'[who].load == node.load
            && nodes'[who].places == node.places + if o.acquire.Some? then [Flying] else []
  {
    TurnAsks(w.nodes[who].load, w.nodes[who].c, expired);
  }

  lemma ClientPlays(load: Workload, c: State, m: nat, expired: bool, sent: bool)
    requires CI.Inv(load, c, m) && CI.Begins(load, c.lastTxnIdx)
    requires m > 0 ==> sent
    requires !sent ==> c.idx == 0 && c.lastTxnIdx == 0
    ensures var o := Turn(load, c, expired);
            && CI.Begins(load, o.c.lastTxnIdx)
            && (!sent && o.acquire == None ==> o.c.idx == 0 && o.c.lastTxnIdx == 0)
            && (!sent && o.acquire.Some? ==> o.acquire == Some(load.trace[0]))
  {
    CI.TurnKinds(load, c, m, expired);
    if Turn(load, c, expired).action.Committed? {
      CI.CommittedBegins(load, c, m, expired);
    }
  }

  lemma TurnPlays(w: World, who: Client, expired: bool, tsHi: nat, tsLo: nat)
    requires Inv(w) && AllPlay(w) && CanTurn(w, who)
    ensures AllPlay(TakeTurn(w, who, expired, tsHi, tsLo))
  {
    TurnTakesState(w, who, expired, tsHi, tsLo);
    var node := w.nodes[who];
    assert NodeOk(w, who) && NodePlays(node);
    ClientPlays(node.load, node.c, |node.places| - node.base, expired, node.places != []);
  }

  lemma NextPlays(w: World, t: Step)
    requires Inv(w) && AllPlay(w) && Enabled(w, t)
    ensures AllPlay(Next(w, t))
  {
    match t
    case ClientTurn(who, expired, tsHi, tsLo) => TurnPlays(w, who, expired, tsHi, tsLo);
    case GrantDelivered(g) => assert NodePlays(w.nodes[g.e.Owner()]);
    case AcquireArrived(a) => assert NodePlays(w.nodes[a.e.Owner()]);
    case ReleaseArrived(_) =>
    case PacketRecirculated(_, _) =>
  }

  lemma InitialPlays(w: World)
    requires Initial(w)
    ensures AllPlay(w)
  {
  }

  lemma {:induction false} RunPlays(ws: seq<World>, ts: seq<Step>, i: nat)
    requires IsRun(ws, ts) && IsInTime(ws, ts) && i < |ws|
    ensures Inv(ws[i]) && AllPlay(ws[i])
  {
    RunKeepsInv(ws, ts, i);
    if i == 0 {
      InitialPlays(ws[0]);
    } else {
      RunPlays(ws, ts, i - 1);
      assert StepAt(ws, ts, i - 1);
      NextPlays(ws[i - 1], ts[i - 1]);
    }
  }

  // The first acquire a client ever sends, in whatever run, is the first row of its trace.
  lemma FirstAcquireIsFirstRow(ws: seq<World>, ts: seq<Step>, i: nat, who: Client, expired: bool, tsHi: nat, tsLo: nat)
    requires IsRun(ws, ts) && IsInTime(ws, ts) && i < |ws| && CanTurn(ws[i], who)
    requires ws[i].nodes[who].places == [] && OutcomeOf(ws[i], who, expired).acquire.Some?
    ensures var row := ws[i].nodes[who].load.trace[0];
            && OutcomeOf(ws[i], who, expired).acquire == Some(row)
            && PacketFor(who, 0, row, tsHi, tsLo) in TakeTurn(ws[i], who, expired, tsHi, tsLo).acquires
  {
    RunPlays(ws, ts, i);
    var node := ws[i].nodes[who];
    assert NodeOk(ws[i], who) && NodePlays(node);
    ClientPlays(node.load, node.c, 0, expired, false);
    TurnAsks(node.load, node.c, expired);
  }
}
