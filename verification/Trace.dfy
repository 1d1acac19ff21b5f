/**
 Building a client's trace from the lines of a file (get_traces): releases are dropped, and
 a transaction asks for each object once.
 */
module Trace {
  import opened NetLockTypes
  import ClientMachine
  import CI = ClientInvariant
  import SlotArithmetic

  // One line of the file, and one entry of the five arrays built from it. kind is the lock
  // type: 2 and 9 are the file's exclusive types, 1, 7 and 8 its shared ones.
  datatype Line = Line(tid: nat, action: nat, manager: nat, obj: nat, kind: nat)

  // merge: task 'g'. draws: the objects drawn in place of those of the file, if any are.
  datatype Config = Config(merge: bool, batchMap: seq<nat>, draws: Option<seq<nat>>)

  predicate WantsExclusive(kind: nat) {
    kind == 2 || kind == 9
  }

  function Normal(kind: nat): nat {
    if kind == 7 || kind == 8 || kind == 1 then 0
    else if WantsExclusive(kind) then 1
    else kind
  }

  predicate Readable(cfg: Config, lines: seq<Line>) {
    if cfg.draws.Some? then |lines| <= |cfg.draws.value|
    else cfg.merge ==> forall i | 0 <= i < |lines| && lines[i].action != 1 :: lines[i].obj < |cfg.batchMap|
  }

  function ObjectOf(cfg: Config, lines: seq<Line>, i: nat): nat
    requires Readable(cfg, lines) && i < |lines| && lines[i].action != 1
  {
    if cfg.draws.Some? then cfg.draws.value[i] % 7000000 + 1
    else if cfg.merge then cfg.batchMap[lines[i].obj] + 1
    else lines[i].obj + 1
  }

  // The lines that are not releases, by their final objects.
  function Asked(cfg: Config, lines: seq<Line>, n: nat): seq<Line>
    requires Readable(cfg, lines) && n <= |lines|
  {
    if n == 0 then []
    else if lines[n - 1].action == 1 then Asked(cfg, lines, n - 1)
    else Asked(cfg, lines, n - 1) + [lines[n - 1].(obj := ObjectOf(cfg, lines, n - 1))]
  }

  // ---- What the builder does, row by row ----

  // The scan backwards over the rows of the same transaction.
  function Find(rows: seq<Line>, tid: nat, obj: nat): (r: Option<nat>)
    ensures r.Some? ==> r.value < |rows|
  {
    var n := |rows|;
    if n == 0 || rows[n - 1].tid != tid then None
    else if rows[n - 1].obj == obj then Some(n - 1)
    else Find(rows[..n - 1], tid, obj)
  }

  function Keep(merge: bool, rows: seq<Line>, r: Line): seq<Line> {
    match Find(rows, r.tid, r.obj)
    case None => rows + [r.(kind := Normal(r.kind))]
    case Some(i) => if merge && WantsExclusive(r.kind) then rows[i := rows[i].(kind := 1)] else rows
  }

  function Build(merge: bool, asked: seq<Line>): seq<Line> {
    if asked == [] then [] else Keep(merge, Build(merge, asked[..|asked| - 1]), asked[|asked| - 1])
  }

  // ---- What the trace is meant to be ----

  // Requests f and i are for one object, in one stretch of one transaction id.
  ghost predicate Joins(asked: seq<Line>, f: nat, i: nat) {
    && f <= i < |asked| && asked[f].obj == asked[i].obj
    && forall k | f <= k <= i :: asked[k].tid == asked[i].tid
  }

  ghost predicate First(asked: seq<Line>, i: nat) {
    i < |asked| && forall f: nat | f < i :: !Joins(asked, f, i)
  }

  ghost function Firsts(asked: seq<Line>): seq<nat> {
    if asked == [] then []
    else
      var n := |asked| - 1;
      Firsts(asked[..n]) + if First(asked, n) then [n] else []
  }

  // Some request joined to f asks for the object exclusively.
  ghost predicate AnyExclusive(asked: seq<Line>, f: nat) {
    exists i: nat :: Joins(asked, f, i) && WantsExclusive(asked[i].kind)
  }

  ghost function Merged(merge: bool, asked: seq<Line>, f: nat): Line
    requires f < |asked|
  {
    asked[f].(kind := if merge && AnyExclusive(asked, f) then 1 else Normal(asked[f].kind))
  }

  // rows are the first requests for each object, in their order, with the merged modes.
  ghost predicate IsTrace(merge: bool, asked: seq<Line>, rows: seq<Line>) {
    var fs := Firsts(asked);
    && |rows| == |fs|
    && forall k | 0 <= k < |fs| :: fs[k] < |asked| && rows[k] == Merged(merge, asked, fs[k])
  }

  // ---- First requests ----

  lemma JoinsInPrefix(asked: seq<Line>, n: nat, f: nat, i: nat)
    requires i < n <= |asked|
    ensures Joins(asked[..n], f, i) <==> Joins(asked, f, i)
  {
    if f <= i {
      assert forall k | f <= k <= i :: asked[..n][k] == asked[k];
    }
  }

  lemma {:induction false} FirstsAreFirst(asked: seq<Line>)
    ensures var fs := Firsts(asked);
            && (forall k | 0 <= k < |fs| :: First(asked, fs[k]))
            && (forall j, k | 0 <= j < k < |fs| :: fs[j] < fs[k])
            && (forall i: nat | First(asked, i) :: i in fs)
  {
    if asked != [] {
      var n := |asked| - 1;
      FirstsAreFirst(asked[..n]);
      forall i: nat | i < n
        ensures First(asked[..n], i) <==> First(asked, i)
      {
        forall f: nat ensures Joins(asked[..n], f, i) <==> Joins(asked, f, i) { JoinsInPrefix(asked, n, f, i); }
      }
    }
  }

  // Every request is joined to a first one.
  lemma {:induction false} Covered(asked: seq<Line>, i: nat) returns (k: nat)
    requires i < |asked|
    ensures k < |Firsts(asked)| && Joins(asked, Firsts(asked)[k], i)
    decreases i
  {
    FirstsAreFirst(asked);
    if First(asked, i) {
      k :| 0 <= k < |Firsts(asked)| && Firsts(asked)[k] == i;
    } else {
      var f: nat :| f < i && Joins(asked, f, i);
      k := Covered(asked, f);
    }
  }

  // Rows of one transaction in a row come from requests of one transaction in a row.
  lemma StretchOfRows(asked: seq<Line>, a: nat, b: nat, i: nat)
    requires a <= b <= |Firsts(asked)| && a < |Firsts(asked)| && i < |asked|
    requires Firsts(asked)[a] <= i && (b < |Firsts(asked)| ==> i < Firsts(asked)[b])
    requires forall k | a <= k < b :: Firsts(asked)[k] < |asked| && asked[Firsts(asked)[k]].tid == asked[Firsts(asked)[a]].tid
    ensures Firsts(asked)[a] < |asked| && asked[i].tid == asked[Firsts(asked)[a]].tid
  {
    FirstsAreFirst(asked);
    var fs := Firsts(asked);
    var k := Covered(asked, i);
    assert asked[fs[k]].tid == asked[i].tid;
  }

  // ---- The builder does what is meant ----

  lemma {:induction false} FindIs(rows: seq<Line>, tid: nat, obj: nat)
    ensures match Find(rows, tid, obj)
            case Some(i) => rows[i].obj == obj && forall k | i <= k < |rows| :: rows[k].tid == tid
            case None => forall i | 0 <= i < |rows| && rows[i].obj == obj ::
                           exists k :: i <= k < |rows| && rows[k].tid != tid
  {
    var n := |rows|;
    if n == 0 {
    } else if rows[n - 1].tid != tid {
    } else if rows[n - 1].obj != obj {
      FindIs(rows[..n - 1], tid, obj);
      if Find(rows, tid, obj).None? {
        forall i | 0 <= i < n && rows[i].obj == obj
          ensures exists k :: i <= k < n && rows[k].tid != tid
        {
          var k :| i <= k < n - 1 && rows[..n - 1][k].tid != tid;
          assert rows[k].tid != tid;
        }
      }
    }
  }

  // The scan finds a row exactly for a request that joins an earlier one, and it finds the
  // row of the first of them.
  lemma FindsTheFirst(merge: bool, asked: seq<Line>, rows: seq<Line>)
    requires asked != [] && IsTrace(merge, asked[..|asked| - 1], rows)
    ensures var n := |asked| - 1;
            match Find(rows, asked[n].tid, asked[n].obj)
            case Some(j) => Joins(asked, Firsts(asked[..n])[j], n)
            case None => First(asked, n)
  {
    var n := |asked| - 1;
    var prev, r, fs := asked[..n], asked[n], Firsts(asked[..n]);
    FirstsAreFirst(prev);
    FindIs(rows, r.tid, r.obj);
    match Find(rows, r.tid, r.obj)
    case Some(j) =>
      assert rows[j] == Merged(merge, prev, fs[j]);
      forall i | fs[j] <= i < n
        ensures asked[i].tid == r.tid
      {
        assert forall k | j <= k < |rows| :: rows[k] == Merged(merge, prev, fs[k]);
        StretchOfRows(prev, j, |rows|, i);
      }
    case None =>
      forall i: nat | i < n
        ensures !Joins(asked, i, n)
      {
        if Joins(asked, i, n) {
          NotFoundIsNew(merge, asked, rows, i);
        }
      }
  }

  lemma NotFoundIsNew(merge: bool, asked: seq<Line>, rows: seq<Line>, i: nat)
    requires asked != [] && IsTrace(merge, asked[..|asked| - 1], rows)
    requires i < |asked| - 1 && Joins(asked, i, |asked| - 1)
    ensures Find(rows, asked[|asked| - 1].tid, asked[|asked| - 1].obj).Some?
  {
    var n := |asked| - 1;
    var prev, r, fs := asked[..n], asked[n], Firsts(asked[..n]);
    FirstsAreFirst(prev);
    var k := Covered(prev, i);
    assert rows[k] == Merged(merge, prev, fs[k]);
    forall j | k <= j < |rows|
      ensures rows[j].tid == r.tid
    {
      assert rows[j] == Merged(merge, prev, fs[j]);
      assert prev[fs[j]].tid == asked[fs[j]].tid;
    }
    FindIs(rows, r.tid, r.obj);
  }

  // One more request changes the merged mode of the row it joins, and of no other.
  lemma MergedGrows(merge: bool, asked: seq<Line>, f: nat)
    requires asked != [] && f < |asked| - 1
    ensures var n := |asked| - 1;
            Merged(merge, asked, f) ==
            if merge && Joins(asked, f, n) && WantsExclusive(asked[n].kind)
            then Merged(merge, asked[..n], f).(kind := 1) else Merged(merge, asked[..n], f)
  {
    var n := |asked| - 1;
    forall i: nat | i < n
      ensures Joins(asked[..n], f, i) <==> Joins(asked, f, i)
    {
      JoinsInPrefix(asked, n, f, i);
    }
    if AnyExclusive(asked, f) && !(Joins(asked, f, n) && WantsExclusive(asked[n].kind)) {
      var i: nat :| Joins(asked, f, i) && WantsExclusive(asked[i].kind);
      assert Joins(asked[..n], f, i) && WantsExclusive(asked[..n][i].kind);
    }
    if AnyExclusive(asked[..n], f) {
      var i: nat :| Joins(asked[..n], f, i) && WantsExclusive(asked[..n][i].kind);
      assert Joins(asked, f, i) && WantsExclusive(asked[i].kind);
    }
  }

  lemma NewRowIsMerged(merge: bool, asked: seq<Line>)
    requires asked != []
    ensures var n := |asked| - 1;
            Merged(merge, asked, n) == asked[n].(kind := Normal(asked[n].kind))
  {
    var n := |asked| - 1;
    if AnyExclusive(asked, n) {
      var i: nat :| Joins(asked, n, i) && WantsExclusive(asked[i].kind);
    }
  }

  lemma JoinsOneFirst(asked: seq<Line>, j: nat, k: nat, n: nat)
    requires j < |Firsts(asked)| && k < |Firsts(asked)|
    requires Joins(asked, Firsts(asked)[j], n) && Joins(asked, Firsts(asked)[k], n)
    ensures j == k
  {
    FirstsAreFirst(asked);
    assert j < k ==> Joins(asked, Firsts(asked)[j], Firsts(asked)[k]);
    assert k < j ==> Joins(asked, Firsts(asked)[k], Firsts(asked)[j]);
  }

  // The trace holds the first request for each object of a transaction, in the order of the
  // requests; with merging, exclusive if and only if some joined request is.
  lemma {:induction false} BuildIsTrace(merge: bool, asked: seq<Line>)
    ensures IsTrace(merge, asked, Build(merge, asked))
  {
    if asked != [] {
      var n := |asked| - 1;
      BuildIsTrace(merge, asked[..n]);
      KeepIsTrace(merge, asked, Build(merge, asked[..n]));
    }
  }

  lemma KeepIsTrace(merge: bool, asked: seq<Line>, rows: seq<Line>)
    requires asked != [] && IsTrace(merge, asked[..|asked| - 1], rows)
    ensures IsTrace(merge, asked, Keep(merge, rows, asked[|asked| - 1]))
  {
    var fs, rows' := Firsts(asked), Keep(merge, rows, asked[|asked| - 1]);
    FoundIsNotFirst(merge, asked, rows);
    LastRow(merge, asked, rows);
    forall k | 0 <= k < |fs|
      ensures fs[k] < |asked| && rows'[k] == Merged(merge, asked, fs[k])
    {
      if k < |rows| {
        KeptRow(merge, asked, rows, k);
      }
    }
  }

  lemma FoundIsNotFirst(merge: bool, asked: seq<Line>, rows: seq<Line>)
    requires asked != [] && IsTrace(merge, asked[..|asked| - 1], rows)
    ensures var n := |asked| - 1;
            Find(rows, asked[n].tid, asked[n].obj).None? <==> First(asked, n)
  {
    var n := |asked| - 1;
    FindsTheFirst(merge, asked, rows);
    match Find(rows, asked[n].tid, asked[n].obj)
    case Some(j) =>
      var f := Firsts(asked[..n])[j];
      assert f < n && Joins(asked, f, n);
    case None =>
  }

  lemma FirstsGrow(asked: seq<Line>)
    requires asked != []
    ensures var n := |asked| - 1; Firsts(asked) == Firsts(asked[..n]) + if First(asked, n) then [n] else []
  {
  }

  // A row is added for the last request exactly if it is a first one.
  lemma LastRow(merge: bool, asked: seq<Line>, rows: seq<Line>)
    requires asked != [] && |rows| == |Firsts(asked[..|asked| - 1])|
    requires Find(rows, asked[|asked| - 1].tid, asked[|asked| - 1].obj).None? <==> First(asked, |asked| - 1)
    ensures var n, fs, rows' := |asked| - 1, Firsts(asked), Keep(merge, rows, asked[|asked| - 1]);
            && |rows| <= |rows'| == |fs| <= |rows| + 1
            && (|fs| > |rows| ==> fs[|rows|] == n && rows'[|rows|] == Merged(merge, asked, n))
  {
    FirstsGrow(asked);
    NewRowIsMerged(merge, asked);
  }

  // A row that was there before.
  lemma KeptRow(merge: bool, asked: seq<Line>, rows: seq<Line>, k: nat)
    requires asked != [] && IsTrace(merge, asked[..|asked| - 1], rows) && k < |rows|
    ensures var fs, rows' := Firsts(asked), Keep(merge, rows, asked[|asked| - 1]);
            k < |fs| && fs[k] < |asked| - 1 && k < |rows'| && rows'[k] == Merged(merge, asked, fs[k])
  {
    var n := |asked| - 1;
    var f := Firsts(asked[..n])[k];
    assert rows[k] == Merged(merge, asked[..n], f);
    FirstsGrow(asked);
    MergedGrows(merge, asked, f);
    KeptRowJoins(merge, asked, rows, k, f);
  }

  // The last request joins the row that the scan finds, and no other.
  lemma KeptRowJoins(merge: bool, asked: seq<Line>, rows: seq<Line>, k: nat, f: nat)
    requires asked != [] && IsTrace(merge, asked[..|asked| - 1], rows) && k < |rows|
    requires f == Firsts(asked[..|asked| - 1])[k]
    ensures var n := |asked| - 1;
            Joins(asked, f, n) <==> Find(rows, asked[n].tid, asked[n].obj) == Some(k)
  {
    var n := |asked| - 1;
    FindsTheFirst(merge, asked, rows);
    FirstsGrow(asked);
    var at := Find(rows, asked[n].tid, asked[n].obj);
    if at.Some? && Joins(asked, f, n) {
      JoinsOneFirst(asked, k, at.value, n);
    }
  }

  // ---- What follows for the trace ----

  lemma FirstsJoin(asked: seq<Line>, i: nat, j: nat)
    requires i <= j < |Firsts(asked)| && Firsts(asked)[i] < |asked| && Firsts(asked)[j] < |asked|
    requires asked[Firsts(asked)[i]].obj == asked[Firsts(asked)[j]].obj
    requires asked[Firsts(asked)[i]].tid == asked[Firsts(asked)[j]].tid
    requires forall k | i <= k < j :: Firsts(asked)[k] < |asked| && asked[Firsts(asked)[k]].tid == asked[Firsts(asked)[i]].tid
    ensures Joins(asked, Firsts(asked)[i], Firsts(asked)[j])
  {
    var fs := Firsts(asked);
    FirstsAreFirst(asked);
    forall x | fs[i] <= x < fs[j]
      ensures asked[x].tid == asked[fs[i]].tid
    {
      StretchOfRows(asked, i, j, x);
    }
  }

  lemma RowIsFirst(merge: bool, asked: seq<Line>, k: nat)
    requires k < |Build(merge, asked)|
    ensures k < |Firsts(asked)| && Firsts(asked)[k] < |asked|
    ensures var row, first := Build(merge, asked)[k], asked[Firsts(asked)[k]];
            row.tid == first.tid && row.obj == first.obj
  {
    BuildIsTrace(merge, asked);
    assert Build(merge, asked)[k] == Merged(merge, asked, Firsts(asked)[k]);
  }

  // Rows of one transaction id for one object come from joined requests.
  lemma SameRowsJoin(merge: bool, asked: seq<Line>, i: nat, j: nat)
    requires var rows := Build(merge, asked);
             && i <= j < |rows| && rows[i].obj == rows[j].obj
             && forall k | i <= k < j :: rows[k].tid == rows[j].tid
    ensures j < |Firsts(asked)| && Joins(asked, Firsts(asked)[i], Firsts(asked)[j])
  {
    RowIsFirst(merge, asked, i);
    RowIsFirst(merge, asked, j);
    forall k | i <= k < j
      ensures k < |Firsts(asked)| && Firsts(asked)[k] < |asked|
      ensures asked[Firsts(asked)[k]].tid == asked[Firsts(asked)[i]].tid
    {
      RowIsFirst(merge, asked, k);
    }
    FirstsJoin(asked, i, j);
  }

  // No transaction asks for an object twice: between two rows for one object the id changes.
  lemma NoObjectTwice(merge: bool, asked: seq<Line>, i: nat, j: nat)
    requires var rows := Build(merge, asked); i < j < |rows| && rows[i].obj == rows[j].obj
    ensures var rows := Build(merge, asked); exists k :: i <= k < j && rows[k].tid != rows[j].tid
  {
    var rows := Build(merge, asked);
    if forall k | i <= k < j :: rows[k].tid == rows[j].tid {
      SameRowsJoin(merge, asked, i, j);
      FirstsAreFirst(asked);
      assert false;
    }
  }

  // No request is lost: its transaction has a row for its object, of the first request it joins.
  lemma EveryRequestIsKept(merge: bool, asked: seq<Line>, i: nat) returns (k: nat)
    requires i < |asked|
    ensures var rows, fs := Build(merge, asked), Firsts(asked);
            && k < |rows| == |fs| && Joins(asked, fs[k], i)
            && rows[k].tid == asked[i].tid && rows[k].obj == asked[i].obj
            && (merge && WantsExclusive(asked[i].kind) ==> rows[k].kind == 1)
  {
    BuildIsTrace(merge, asked);
    k := Covered(asked, i);
  }

  // A row is exclusive when any of the requests it stands for is - unless nothing is merged
  // and the first of them is not.
  lemma UpgradeIsLostExactly(merge: bool, asked: seq<Line>, k: nat)
    requires k < |Build(merge, asked)|
    ensures k < |Firsts(asked)| && Firsts(asked)[k] < |asked|
    ensures (Build(merge, asked)[k].kind == 1 <==> AnyExclusive(asked, Firsts(asked)[k]))
            <==> (merge || WantsExclusive(asked[Firsts(asked)[k]].kind) || !AnyExclusive(asked, Firsts(asked)[k]))
  {
    BuildIsTrace(merge, asked);
    FirstsAreFirst(asked);
    var f := Firsts(asked)[k];
    assert Joins(asked, f, f);
    assert Build(merge, asked)[k] == Merged(merge, asked, f);
  }

  // Without merging, a transaction that reads an object and then writes it gets a shared lock.
  lemma UpgradeLost(read: Line)
    requires read.kind == 1
    ensures var asked := [read, read.(kind := 2)];
            Build(false, asked) == [read.(kind := 0)] && Build(true, asked) == [read.(kind := 1)]
  {
    var asked := [read, read.(kind := 2)];
    assert asked[..1] == [read] && asked[..1][..0] == [];
    assert forall merge :: Build(merge, asked[..1]) == [read.(kind := 0)];
    assert forall merge :: Build(merge, asked) == Keep(merge, Build(merge, asked[..1]), asked[1]);
  }

  // ---- From the lines of the file to the rows ----

  // Row obj of the trace has the object that line i names: its own, the one its batch maps to
  // in task g, or the one drawn for it; counted from 1.
  ghost predicate Names(cfg: Config, lines: seq<Line>, i: nat, obj: nat)
    requires Readable(cfg, lines) && i < |lines| && lines[i].action != 1
  {
    && (cfg.draws.None? && !cfg.merge ==> obj == lines[i].obj + 1)
    && (cfg.draws.None? && cfg.merge ==> obj == cfg.batchMap[lines[i].obj] + 1)
    && (cfg.draws.Some? ==> obj == cfg.draws.value[i] % 7000000 + 1)
  }

  // The lines that are not releases.
  function Requests(lines: seq<Line>, n: nat): seq<nat>
    requires n <= |lines|
  {
    if n == 0 then [] else Requests(lines, n - 1) + if lines[n - 1].action != 1 then [n - 1] else []
  }

  lemma {:induction false} RequestsAre(lines: seq<Line>, n: nat)
    requires n <= |lines|
    ensures var from := Requests(lines, n);
            && (forall j, k | 0 <= j < k < |from| :: from[j] < from[k])
            && (forall j | 0 <= j < |from| :: from[j] < n && lines[from[j]].action != 1)
            && (forall i: nat | i < n && lines[i].action != 1 :: i in from)
  {
    if n > 0 {
      RequestsAre(lines, n - 1);
    }
  }

  ghost predicate Comes(cfg: Config, lines: seq<Line>, i: nat, r: Line)
    requires Readable(cfg, lines)
  {
    && i < |lines| && lines[i].action != 1
    && r.tid == lines[i].tid && r.action == lines[i].action && r.manager == lines[i].manager && r.kind == lines[i].kind
    && Names(cfg, lines, i, r.obj)
  }

  lemma RequestComes(cfg: Config, lines: seq<Line>, i: nat)
    requires Readable(cfg, lines) && i < |lines| && lines[i].action != 1
    ensures Comes(cfg, lines, i, lines[i].(obj := ObjectOf(cfg, lines, i)))
  {
  }

  ghost predicate AllCome(cfg: Config, lines: seq<Line>, from: seq<nat>, asked: seq<Line>)
    requires Readable(cfg, lines)
  {
    |asked| == |from| && forall j | 0 <= j < |from| :: Comes(cfg, lines, from[j], asked[j])
  }

  lemma AllComeAppend(cfg: Config, lines: seq<Line>, from: seq<nat>, asked: seq<Line>, i: nat, r: Line)
    requires Readable(cfg, lines) && AllCome(cfg, lines, from, asked) && Comes(cfg, lines, i, r)
    ensures AllCome(cfg, lines, from + [i], asked + [r])
  {
  }

  // The requests are those lines, all of them and in their order, with the objects they name.
  lemma {:induction false} AskedAreLines(cfg: Config, lines: seq<Line>, n: nat)
    requires Readable(cfg, lines) && n <= |lines|
    ensures AllCome(cfg, lines, Requests(lines, n), Asked(cfg, lines, n))
  {
    if n > 0 {
      AskedAreLines(cfg, lines, n - 1);
      if lines[n - 1].action != 1 {
        RequestComes(cfg, lines, n - 1);
        AllComeAppend(cfg, lines, Requests(lines, n - 1), Asked(cfg, lines, n - 1), n - 1,
                      lines[n - 1].(obj := ObjectOf(cfg, lines, n - 1)));
      }
    }
  }

  // The mode of a request by its type in the file.
  ghost predicate IsModeOf(kind: nat, mode: nat) {
    && (kind == 1 || kind == 7 || kind == 8 ==> mode == 0)
    && (kind == 2 || kind == 9 ==> mode == 1)
    && (kind != 1 && kind != 7 && kind != 8 && kind != 2 && kind != 9 ==> mode == kind)
  }

  // No line from i to j is a request of another transaction than line i is.
  ghost predicate OneStretch(lines: seq<Line>, i: nat, j: nat) {
    i <= j < |lines| && forall x | i <= x <= j && lines[x].action != 1 :: lines[x].tid == lines[i].tid
  }

  // In the stretch of line i, line j asks for the object exclusively.
  ghost predicate AsksExclusively(cfg: Config, lines: seq<Line>, i: nat, j: nat, obj: nat)
    requires Readable(cfg, lines)
  {
    && OneStretch(lines, i, j) && lines[j].action != 1 && Names(cfg, lines, j, obj)
    && (lines[j].kind == 2 || lines[j].kind == 9)
  }

  lemma JoinedLines(cfg: Config, lines: seq<Line>, f: nat, j: nat)
    requires Readable(cfg, lines) && Joins(Asked(cfg, lines, |lines|), f, j)
    ensures j < |Requests(lines, |lines|)| && OneStretch(lines, Requests(lines, |lines|)[f], Requests(lines, |lines|)[j])
  {
    var asked, from := Asked(cfg, lines, |lines|), Requests(lines, |lines|);
    AskedAreLines(cfg, lines, |lines|);
    RequestsAre(lines, |lines|);
    forall x | from[f] <= x <= from[j] && lines[x].action != 1
      ensures lines[x].tid == lines[from[f]].tid
    {
      assert x in from;
      var y :| 0 <= y < |from| && from[y] == x;
      assert f <= y <= j;
      assert Comes(cfg, lines, from[y], asked[y]) && Comes(cfg, lines, from[f], asked[f]);
    }
  }

  ghost predicate RowOfLine(cfg: Config, lines: seq<Line>, i: nat, row: Line)
    requires Readable(cfg, lines) && i < |lines| && lines[i].action != 1
  {
    && row.tid == lines[i].tid && row.action == lines[i].action && row.manager == lines[i].manager
    && Names(cfg, lines, i, row.obj)
    && (IsModeOf(lines[i].kind, row.kind)
        || (cfg.merge && row.kind == 1 && exists j: nat :: AsksExclusively(cfg, lines, i, j, row.obj)))
  }

  // The line that row k comes from.
  ghost function Origin(cfg: Config, lines: seq<Line>, k: nat): nat
    requires Readable(cfg, lines)
  {
    var firsts, from := Firsts(Asked(cfg, lines, |lines|)), Requests(lines, |lines|);
    if k < |firsts| && firsts[k] < |from| then from[firsts[k]] else 0
  }

  lemma OriginIs(cfg: Config, lines: seq<Line>, k: nat)
    requires Readable(cfg, lines) && k < |Build(cfg.merge, Asked(cfg, lines, |lines|))|
    ensures var asked := Asked(cfg, lines, |lines|);
            && k < |Firsts(asked)| && Firsts(asked)[k] < |asked| == |Requests(lines, |lines|)|
            && Origin(cfg, lines, k) == Requests(lines, |lines|)[Firsts(asked)[k]]
            && Build(cfg.merge, asked)[k] == Merged(cfg.merge, asked, Firsts(asked)[k])
            && Comes(cfg, lines, Origin(cfg, lines, k), asked[Firsts(asked)[k]])
  {
    BuildIsTrace(cfg.merge, Asked(cfg, lines, |lines|));
    AskedAreLines(cfg, lines, |lines|);
  }

  // Every row comes from a line that is not a release. Without merging its mode is that of the
  // line; with merging it is, or it is exclusive because some line of the same stretch of the
  // transaction asks for the object by type 2 or 9.
  lemma RowIsLine(cfg: Config, lines: seq<Line>, k: nat)
    requires Readable(cfg, lines) && k < |Build(cfg.merge, Asked(cfg, lines, |lines|))|
    ensures var i := Origin(cfg, lines, k);
            i < |lines| && lines[i].action != 1 && RowOfLine(cfg, lines, i, Build(cfg.merge, Asked(cfg, lines, |lines|))[k])
  {
    OriginIs(cfg, lines, k);
    var asked := Asked(cfg, lines, |lines|);
    var f := Firsts(asked)[k];
    if cfg.merge && AnyExclusive(asked, f) {
      ExclusiveLine(cfg, lines, f);
    }
  }

  lemma ExclusiveLine(cfg: Config, lines: seq<Line>, f: nat)
    requires Readable(cfg, lines) && f < |Asked(cfg, lines, |lines|)| && AnyExclusive(Asked(cfg, lines, |lines|), f)
    ensures f < |Requests(lines, |lines|)|
    ensures exists j: nat :: AsksExclusively(cfg, lines, Requests(lines, |lines|)[f], j, Asked(cfg, lines, |lines|)[f].obj)
  {
    var asked := Asked(cfg, lines, |lines|);
    var i: nat :| Joins(asked, f, i) && WantsExclusive(asked[i].kind);
    AskedAreLines(cfg, lines, |lines|);
    assert Comes(cfg, lines, Requests(lines, |lines|)[i], asked[i]);
    JoinedLines(cfg, lines, f, i);
    assert AsksExclusively(cfg, lines, Requests(lines, |lines|)[f], Requests(lines, |lines|)[i], asked[f].obj);
  }

  // Rows follow the order of the lines.
  lemma RowsInOrder(cfg: Config, lines: seq<Line>, j: nat, k: nat)
    requires Readable(cfg, lines) && j < k < |Build(cfg.merge, Asked(cfg, lines, |lines|))|
    ensures Origin(cfg, lines, j) < Origin(cfg, lines, k)
  {
    OriginIs(cfg, lines, j);
    OriginIs(cfg, lines, k);
    FirstsAreFirst(Asked(cfg, lines, |lines|));
    RequestsAre(lines, |lines|);
  }

  // And no line is lost: each that is not a release has a row for its transaction and object,
  // with merging an exclusive one if its type is 2 or 9. The row comes from a line of the same
  // stretch: after a request of another transaction the object gets a row of its own.
  lemma LineIsKept(cfg: Config, lines: seq<Line>, i: nat) returns (k: nat)
    requires Readable(cfg, lines) && i < |lines| && lines[i].action != 1
    ensures var rows := Build(cfg.merge, Asked(cfg, lines, |lines|));
            && k < |rows| && rows[k].tid == lines[i].tid
            && (cfg.draws.None? && !cfg.merge ==> rows[k].obj == lines[i].obj + 1)
            && (cfg.draws.None? && cfg.merge ==> rows[k].obj == cfg.batchMap[lines[i].obj] + 1)
            && (cfg.draws.Some? ==> rows[k].obj == cfg.draws.value[i] % 7000000 + 1)
            && (cfg.merge && (lines[i].kind == 2 || lines[i].kind == 9) ==> rows[k].kind == 1)
            && OneStretch(lines, Origin(cfg, lines, k), i)
  {
    AskedAreLines(cfg, lines, |lines|);
    RequestsAre(lines, |lines|);
    var j :| 0 <= j < |Requests(lines, |lines|)| && Requests(lines, |lines|)[j] == i;
    assert Comes(cfg, lines, i, Asked(cfg, lines, |lines|)[j]);
    k := EveryRequestIsKept(cfg.merge, Asked(cfg, lines, |lines|), j);
    JoinedLines(cfg, lines, Firsts(Asked(cfg, lines, |lines|))[k], j);
  }

  // ---- The lock of an object, and the client's workload ----

  // Objects up to extensive have a lock each, perLock of the others share one.
  function LockOf(obj: nat, extensive: nat, perLock: nat): nat
    requires perLock > 0
  {
    if obj <= extensive then obj else extensive + 1 + (obj - extensive - 1) / perLock
  }

  // How many acquires the trace holds for transaction t.
  function Acquires(rows: seq<Line>, t: nat): nat {
    if rows == [] then 0
    else
      var n := |rows| - 1;
      Acquires(rows[..n], t) + if rows[n].tid == t && rows[n].action == 0 then 1 else 0
  }

  lemma {:induction false} KindIsNotCounted(rows: seq<Line>, j: nat, kind: nat, t: nat)
    requires j < |rows|
    ensures Acquires(rows[j := rows[j].(kind := kind)], t) == Acquires(rows, t)
  {
    var n := |rows| - 1;
    var rows' := rows[j := rows[j].(kind := kind)];
    if j < n {
      KindIsNotCounted(rows[..n], j, kind, t);
      assert rows'[..n] == rows[..n][j := rows[j].(kind := kind)];
    } else {
      assert rows'[..n] == rows[..n];
    }
  }

  lemma KeepCounts(merge: bool, rows: seq<Line>, r: Line, t: nat)
    ensures Acquires(Keep(merge, rows, r), t) ==
            Acquires(rows, t) + if Find(rows, r.tid, r.obj).None? && r.tid == t && r.action == 0 then 1 else 0
  {
    match Find(rows, r.tid, r.obj)
    case Some(j) => KindIsNotCounted(rows, j, 1, t);
    case None => assert Keep(merge, rows, r)[..|rows|] == rows;
  }

  // The types a file is made of.
  predicate Known(kind: nat) {
    kind == 0 || kind == 1 || kind == 2 || kind == 7 || kind == 8 || kind == 9
  }

  // Every row has one of the two modes of the switch if and only if every first request is of
  // a known type, or is merged with an exclusive one.
  lemma ModesExactly(merge: bool, asked: seq<Line>)
    ensures var rows, fs := Build(merge, asked), Firsts(asked);
            && |rows| == |fs| && (forall k | 0 <= k < |fs| :: fs[k] < |asked|)
            && ((forall k | 0 <= k < |rows| :: rows[k].kind <= 1)
                <==> forall k | 0 <= k < |fs| :: Known(asked[fs[k]].kind) || (merge && AnyExclusive(asked, fs[k])))
  {
    var rows, fs := Build(merge, asked), Firsts(asked);
    BuildIsTrace(merge, asked);
    forall k | 0 <= k < |fs|
      ensures fs[k] < |asked|
      ensures rows[k].kind <= 1 <==> Known(asked[fs[k]].kind) || (merge && AnyExclusive(asked, fs[k]))
    {
      assert rows[k] == Merged(merge, asked, fs[k]);
    }
  }

  // The rows as the transmit loop plays them; kinds 0 and 1 are the packet's modes. Any other
  // kind would be sent as it is, for which the switch has no entry: here it counts as exclusive.
  function Played(rows: seq<Line>, extensive: nat, perLock: nat): (s: seq<ClientMachine.Row>)
    requires perLock > 0
    ensures |s| == |rows|
    ensures forall i | 0 <= i < |rows| ::
              s[i] == ClientMachine.Row(rows[i].tid, rows[i].action == 0, LockOf(rows[i].obj, extensive, perLock),
                                        if rows[i].kind == 0 then Shared else Exclusive)
  {
    seq(|rows|, i requires 0 <= i < |rows| =>
      ClientMachine.Row(rows[i].tid, rows[i].action == 0, LockOf(rows[i].obj, extensive, perLock),
                        if rows[i].kind == 0 then Shared else Exclusive))
  }

  // What a row asks for: an object up to extensive has the lock of its number, the others
  // share locks from extensive + 1 on, perLock to each.
  lemma RowAsksFor(rows: seq<Line>, extensive: nat, perLock: nat, i: nat, j: nat, d: nat)
    requires i < |rows| && d < perLock
    ensures var row := Played(rows, extensive, perLock)[i];
            && row.tid == rows[i].tid && (row.acquire <==> rows[i].action == 0)
            && (rows[i].kind == 0 ==> row.mode.Shared?) && (rows[i].kind == 1 ==> row.mode.Exclusive?)
            && (rows[i].obj <= extensive ==> row.lock == rows[i].obj)
            && (rows[i].obj == extensive + 1 + j * perLock + d ==> row.lock == extensive + 1 + j)
  {
    if rows[i].obj == extensive + 1 + j * perLock + d {
      QuotientIs(j * perLock + d, perLock, j, d);
    }
  }

  lemma QuotientIs(x: nat, n: nat, q: nat, d: nat)
    requires d < n && x == q * n + d
    ensures x / n == q
  {
    var q', d' := x / n, x % n;
    assert x == n * q' + d';
    SlotArithmetic.MulMonotone(n, q', q);
    SlotArithmetic.MulMonotone(n, q, q');
  }

  // Two rows for one lock in one stretch of a transaction id.
  ghost predicate LockTwice(rows: seq<ClientMachine.Row>, i: nat, j: nat) {
    && i < j < |rows| && rows[i].lock == rows[j].lock
    && forall k | i <= k < j :: rows[k].tid == rows[j].tid
  }

  ghost predicate NoLockTwice(rows: seq<ClientMachine.Row>) {
    forall i: nat, j: nat :: !LockTwice(rows, i, j)
  }

  // A transaction never asks for a lock twice, whatever the file, if and only if every object
  // has a lock of its own.
  lemma NoLockTwiceExactly(merge: bool, extensive: nat, perLock: nat)
    requires perLock > 0
    ensures (forall asked :: NoLockTwice(Played(Build(merge, asked), extensive, perLock))) <==> perLock == 1
  {
    if perLock == 1 {
      forall asked ensures NoLockTwice(Played(Build(merge, asked), extensive, 1)) {
        OneObjectPerLock(merge, asked, extensive);
      }
    } else {
      SharedLockTwice(merge, extensive, perLock);
    }
  }

  lemma OneObjectPerLock(merge: bool, asked: seq<Line>, extensive: nat)
    ensures NoLockTwice(Played(Build(merge, asked), extensive, 1))
  {
    var rows := Build(merge, asked);
    var s := Played(rows, extensive, 1);
    forall i: nat, j: nat
      ensures !LockTwice(s, i, j)
    {
      if i < j < |s| && s[i].lock == s[j].lock {
        NoObjectTwice(merge, asked, i, j);
        var k :| i <= k < j && rows[k].tid != rows[j].tid;
        assert s[k].tid != s[j].tid;
      }
    }
  }

  // The first two objects that share a lock, asked for by one transaction.
  lemma SharedLockTwice(merge: bool, extensive: nat, perLock: nat)
    requires perLock > 1
    ensures exists asked :: !NoLockTwice(Played(Build(merge, asked), extensive, perLock))
  {
    var a, b := Line(0, 0, 0, extensive + 1, 0), Line(0, 0, 0, extensive + 2, 0);
    var asked := [a, b];
    assert asked[..1] == [a] && asked[..1][..0] == [];
    assert Build(merge, asked[..1]) == [a];
    assert [a][..0] == [];
    assert Build(merge, asked) == Keep(merge, [a], b) == [a, b];
    assert LockTwice(Played(Build(merge, asked), extensive, perLock), 0, 1);
  }

  lemma {:induction false} CountsAgree(rows: seq<Line>, s: seq<ClientMachine.Row>, n: nat, t: nat)
    requires |s| == |rows| && n <= |s|
    requires forall i | 0 <= i < |s| :: s[i].tid == rows[i].tid && s[i].acquire == (rows[i].action == 0)
    ensures Acquires(rows[..n], t) + CI.CountTid(s, n, t) == CI.CountTid(s, 0, t)
  {
    if n > 0 {
      CountsAgree(rows, s, n - 1, t);
      assert rows[..n][..n - 1] == rows[..n - 1];
    }
  }

  lemma PlayedCounts(rows: seq<Line>, extensive: nat, perLock: nat, t: nat)
    requires perLock > 0
    ensures CI.CountTid(Played(rows, extensive, perLock), 0, t) == Acquires(rows, t)
  {
    CountsAgree(rows, Played(rows, extensive, perLock), |rows|, t);
    assert rows[..|rows|] == rows;
  }

  lemma RowsAreAcquires(merge: bool, asked: seq<Line>, n: nat)
    requires forall i | 0 <= i < |asked| :: asked[i].action == 0 && asked[i].tid < n
    ensures var rows := Build(merge, asked);
            forall k | 0 <= k < |rows| :: rows[k].action == 0 && rows[k].tid < n
  {
    BuildIsTrace(merge, asked);
    var rows, fs := Build(merge, asked), Firsts(asked);
    assert forall k | 0 <= k < |rows| :: rows[k] == Merged(merge, asked, fs[k]);
  }

  // A file of acquires whose first and last transactions differ gives a trace that satisfies
  // what the transmit loop relies on.
  lemma TraceIsGood(merge: bool, asked: seq<Line>, locksEach: seq<nat>, extensive: nat, perLock: nat)
    requires perLock > 0 && asked != [] && asked[0].tid != asked[|asked| - 1].tid
    requires forall i | 0 <= i < |asked| :: asked[i].action == 0 && asked[i].tid < |locksEach|
    requires forall t | 0 <= t < |locksEach| :: locksEach[t] == Acquires(Build(merge, asked), t)
    ensures CI.Good(ClientMachine.Workload(Played(Build(merge, asked), extensive, perLock), locksEach))
  {
    var rows := Build(merge, asked);
    RowsAreAcquires(merge, asked, |locksEach|);
    FirstAndLast(merge, asked);
    forall t | 0 <= t < |locksEach|
      ensures locksEach[t] == CI.CountTid(Played(rows, extensive, perLock), 0, t)
    {
      PlayedCounts(rows, extensive, perLock, t);
    }
  }

  // The same from the lines of the file: its releases are passed over, and its first and last
  // requests are of different transactions.
  lemma FileIsGood(cfg: Config, lines: seq<Line>, first: nat, last: nat, locksEach: seq<nat>, extensive: nat, perLock: nat)
    requires Readable(cfg, lines) && perLock > 0
    requires first <= last < |lines| && lines[first].action != 1 && lines[last].action != 1
    requires forall i | 0 <= i < first || last < i < |lines| :: lines[i].action == 1
    requires lines[first].tid != lines[last].tid
    requires forall i | 0 <= i < |lines| && lines[i].action != 1 :: lines[i].action == 0 && lines[i].tid < |locksEach|
    requires forall t | 0 <= t < |locksEach| :: locksEach[t] == Acquires(Build(cfg.merge, Asked(cfg, lines, |lines|)), t)
    ensures CI.Good(ClientMachine.Workload(Played(Build(cfg.merge, Asked(cfg, lines, |lines|)), extensive, perLock), locksEach))
  {
    AskedAreLines(cfg, lines, |lines|);
    RequestsAre(lines, |lines|);
    var asked, from := Asked(cfg, lines, |lines|), Requests(lines, |lines|);
    var a :| 0 <= a < |from| && from[a] == first;
    assert from[0] == first && from[|from| - 1] == last;
    assert forall j | 0 <= j < |asked| :: Comes(cfg, lines, from[j], asked[j]);
    TraceIsGood(cfg.merge, asked, locksEach, extensive, perLock);
  }

  lemma RowTid(merge: bool, asked: seq<Line>, k: nat)
    requires k < |Build(merge, asked)|
    ensures k < |Firsts(asked)| && Firsts(asked)[k] < |asked|
    ensures Build(merge, asked)[k].tid == asked[Firsts(asked)[k]].tid
  {
    BuildIsTrace(merge, asked);
    assert Build(merge, asked)[k] == Merged(merge, asked, Firsts(asked)[k]);
  }

  lemma FirstAndLast(merge: bool, asked: seq<Line>)
    requires asked != []
    ensures var rows := Build(merge, asked);
            rows != [] && rows[0].tid == asked[0].tid && rows[|rows| - 1].tid == asked[|asked| - 1].tid
  {
    var rows, n := Build(merge, asked), |asked| - 1;
    var z := EveryRequestIsKept(merge, asked, 0);
    var k := EveryRequestIsKept(merge, asked, n);
    RowTid(merge, asked, 0);
    RowTid(merge, asked, |rows| - 1);
    FirstsAreFirst(asked);
  }

  // ---- The loop itself ----

  // Entry k of the five arrays.
  function RowAt(txnId: array<nat>, actionType: array<nat>, targetLm: array<nat>, targetObj: array<nat>,
                 lockType: array<nat>, k: nat): Line
    requires k < txnId.Length == actionType.Length == targetLm.Length == targetObj.Length == lockType.Length
    reads txnId, actionType, targetLm, targetObj, lockType
  {
    Line(txnId[k], actionType[k], targetLm[k], targetObj[k], lockType[k])
  }

  // The inner loop: the row of this transaction and object, or -1.
  method SameLock(txnId: array<nat>, targetObj: array<nat>, len: nat, tid: nat, obj: nat, ghost rows: seq<Line>)
    returns (found: int)
    requires len == |rows| <= txnId.Length == targetObj.Length
    requires forall k | 0 <= k < len :: txnId[k] == rows[k].tid && targetObj[k] == rows[k].obj
    ensures -1 <= found < len
    ensures Find(rows, tid, obj) == if found == -1 then None else Some(found)
    ensures found >= 0 ==> targetObj[found] == obj && forall k | found <= k < len :: txnId[k] == tid
    ensures found == -1 ==> forall i | 0 <= i < len && targetObj[i] == obj :: exists k :: i <= k < len && txnId[k] != tid
  {
    FindIs(rows, tid, obj);
    found := len - 1;
    assert rows[..len] == rows;
    while found >= 0 && txnId[found] == tid
      invariant -1 <= found < len
      invariant Find(rows, tid, obj) == Find(rows[..found + 1], tid, obj)
    {
      assert rows[..found + 1][..found] == rows[..found];
      if targetObj[found] == obj {
        return;
      }
      found := found - 1;
    }
    return -1;
  }

  ghost predicate Apart(a: array<nat>, b: array<nat>, c: array<nat>, d: array<nat>, e: array<nat>) {
    && a != b && a != c && a != d && a != e
    && b != c && b != d && b != e
    && c != d && c != e
    && d != e
  }

  // The arrays hold these rows.
  ghost predicate Hold(txnId: array<nat>, actionType: array<nat>, targetLm: array<nat>, targetObj: array<nat>,
                       lockType: array<nat>, rows: seq<Line>)
    reads txnId, actionType, targetLm, targetObj, lockType
  {
    && |rows| <= txnId.Length == actionType.Length == targetLm.Length == targetObj.Length == lockType.Length
    && forall k | 0 <= k < |rows| :: RowAt(txnId, actionType, targetLm, targetObj, lockType, k) == rows[k]
  }

  method AppendRow(r: Line, txnId: array<nat>, actionType: array<nat>, targetLm: array<nat>, targetObj: array<nat>,
                   lockType: array<nat>, len: nat, ghost rows: seq<Line>)
    requires Hold(txnId, actionType, targetLm, targetObj, lockType, rows) && len == |rows| < txnId.Length
    requires Apart(txnId, actionType, targetLm, targetObj, lockType)
    modifies txnId, actionType, targetLm, targetObj, lockType
    ensures Hold(txnId, actionType, targetLm, targetObj, lockType, rows + [r.(kind := Normal(r.kind))])
  {
    txnId[len] := r.tid;
    actionType[len] := r.action;
    targetLm[len] := r.manager;
    targetObj[len] := r.obj;
    lockType[len] := r.kind;
    if lockType[len] == 7 || lockType[len] == 8 || lockType[len] == 1 {
      lockType[len] := 0;
    } else if lockType[len] == 9 || lockType[len] == 2 {
      lockType[len] := 1;
    }
  }

  // One line of the file that is not a release.
  method TakeLine(merge: bool, r: Line, txnId: array<nat>, actionType: array<nat>, targetLm: array<nat>,
                  targetObj: array<nat>, lockType: array<nat>, len: nat, ghost rows: seq<Line>)
    returns (len': nat)
    requires Hold(txnId, actionType, targetLm, targetObj, lockType, rows) && len == |rows| < txnId.Length
    requires Apart(txnId, actionType, targetLm, targetObj, lockType)
    modifies txnId, actionType, targetLm, targetObj, lockType
    ensures len' == |Keep(merge, rows, r)|
    ensures Hold(txnId, actionType, targetLm, targetObj, lockType, Keep(merge, rows, r))
    ensures len' > len <==> Find(rows, r.tid, r.obj).None?
  {
    var i := SameLock(txnId, targetObj, len, r.tid, r.obj, rows);
    if i >= 0 {
      if merge && (r.kind == 2 || r.kind == 9) {
        lockType[i] := 1;
      }
      return len;
    }
    AppendRow(r, txnId, actionType, targetLm, targetObj, lockType, len, rows);
    return len + 1;
  }

  // locks_each_txn has grown by the acquires of these rows.
  ghost predicate Counted(before: seq<nat>, locksEach: array<nat>, rows: seq<Line>)
    reads locksEach
  {
    |before| == locksEach.Length && forall t | 0 <= t < |before| :: locksEach[t] == before[t] + Acquires(rows, t)
  }

  method CountLine(merge: bool, r: Line, isNew: bool, locksEach: array<nat>, ghost before: seq<nat>, ghost rows: seq<Line>)
    requires Counted(before, locksEach, rows) && r.tid < locksEach.Length
    requires isNew <==> Find(rows, r.tid, r.obj).None?
    modifies locksEach
    ensures Counted(before, locksEach, Keep(merge, rows, r))
  {
    forall t: nat
      ensures Acquires(Keep(merge, rows, r), t) ==
              Acquires(rows, t) + if isNew && r.tid == t && r.action == 0 then 1 else 0
    {
      KeepCounts(merge, rows, r, t);
    }
    if isNew && r.action == 0 {
      locksEach[r.tid] := locksEach[r.tid] + 1;
    }
  }

  method TargetOf(cfg: Config, lines: seq<Line>, i: nat) returns (obj: nat)
    requires Readable(cfg, lines) && i < |lines| && lines[i].action != 1
    ensures obj == ObjectOf(cfg, lines, i)
  {
    if cfg.draws.Some? {
      obj := cfg.draws.value[i] % 7000000 + 1;
    } else {
      obj := lines[i].obj;
      if cfg.merge {
        obj := cfg.batchMap[obj];
      }
      obj := obj + 1;
    }
  }

  // One line of the file: a release is passed over.
  method TakeAny(cfg: Config, lines: seq<Line>, i: nat, txnId: array<nat>, actionType: array<nat>, targetLm: array<nat>,
                 targetObj: array<nat>, lockType: array<nat>, locksEach: array<nat>, len: nat,
                 ghost rows: seq<Line>, ghost before: seq<nat>)
    returns (len': nat)
    requires Readable(cfg, lines) && i < |lines| && lines[i].tid < locksEach.Length
    requires Apart(txnId, actionType, targetLm, targetObj, lockType)
    requires locksEach !in {txnId, actionType, targetLm, targetObj, lockType}
    requires rows == Build(cfg.merge, Asked(cfg, lines, i)) && len == |rows| < txnId.Length
    requires Hold(txnId, actionType, targetLm, targetObj, lockType, rows) && Counted(before, locksEach, rows)
    modifies txnId, actionType, targetLm, targetObj, lockType, locksEach
    ensures var rows' := Build(cfg.merge, Asked(cfg, lines, i + 1));
            && len' == |rows'| <= len + 1
            && Hold(txnId, actionType, targetLm, targetObj, lockType, rows') && Counted(before, locksEach, rows')
  {
    len' := len;
    if lines[i].action != 1 {
      var obj := TargetOf(cfg, lines, i);
      BuildStep(cfg, lines, i);
      var r := lines[i].(obj := obj);
      len' := TakeLine(cfg.merge, r, txnId, actionType, targetLm, targetObj, lockType, len, rows);
      CountLine(cfg.merge, r, len' > len, locksEach, before, rows);
    }
  }

  // The loop over the lines: the arrays end up holding the trace.
  method Fill(cfg: Config, lines: seq<Line>, txnId: array<nat>, actionType: array<nat>, targetLm: array<nat>,
              targetObj: array<nat>, lockType: array<nat>, locksEach: array<nat>)
    returns (len: nat)
    requires Readable(cfg, lines) && forall i | 0 <= i < |lines| :: lines[i].tid < locksEach.Length
    requires Apart(txnId, actionType, targetLm, targetObj, lockType)
    requires locksEach !in {txnId, actionType, targetLm, targetObj, lockType}
    requires Hold(txnId, actionType, targetLm, targetObj, lockType, []) && txnId.Length > |lines|
    modifies txnId, actionType, targetLm, targetObj, lockType, locksEach
    ensures var rows := Build(cfg.merge, Asked(cfg, lines, |lines|));
            && len == |rows| && Hold(txnId, actionType, targetLm, targetObj, lockType, rows)
            && Counted(old(locksEach[..]), locksEach, rows)
  {
    len := 0;
    ghost var rows: seq<Line>, before := [], locksEach[..];
    for i := 0 to |lines|
      invariant rows == Build(cfg.merge, Asked(cfg, lines, i)) && len == |rows| <= i
      invariant Hold(txnId, actionType, targetLm, targetObj, lockType, rows)
      invariant Counted(before, locksEach, rows)
    {
      ghost var next := Build(cfg.merge, Asked(cfg, lines, i + 1));
      len := TakeAny(cfg, lines, i, txnId, actionType, targetLm, targetObj, lockType, locksEach, len, rows, before);
      rows := next;
    }
  }

  // locks_each_txn grows by the acquires of the trace.
  method GetTraces(cfg: Config, lines: seq<Line>, locksEach: array<nat>)
    returns (len: nat, txnId: array<nat>, actionType: array<nat>, targetLm: array<nat>,
             targetObj: array<nat>, lockType: array<nat>)
    requires Readable(cfg, lines) && forall i | 0 <= i < |lines| :: lines[i].tid < locksEach.Length
    modifies locksEach
    ensures var rows := Build(cfg.merge, Asked(cfg, lines, |lines|));
            && len == |rows| && Hold(txnId, actionType, targetLm, targetObj, lockType, rows)
            && Counted(old(locksEach[..]), locksEach, rows)
    ensures len <= txnId.Length == targetObj.Length
    ensures cfg.draws.None? && !cfg.merge ==>
              forall i | 0 <= i < |lines| && lines[i].action != 1 :: HasRow(txnId[..len], targetObj[..len], lines[i].tid, lines[i].obj + 1)
    ensures cfg.draws.None? && cfg.merge ==>
              forall i | 0 <= i < |lines| && lines[i].action != 1 ::
                HasRow(txnId[..len], targetObj[..len], lines[i].tid, cfg.batchMap[lines[i].obj] + 1)
    ensures cfg.draws.Some? ==>
              forall i | 0 <= i < |lines| && lines[i].action != 1 ::
                HasRow(txnId[..len], targetObj[..len], lines[i].tid, cfg.draws.value[i] % 7000000 + 1)
  {
    var n := |lines| + 1;
    txnId, actionType := new nat[n], new nat[n];
    targetLm, targetObj, lockType := new nat[n], new nat[n], new nat[n];
    len := Fill(cfg, lines, txnId, actionType, targetLm, targetObj, lockType, locksEach);
    ghost var rows := Build(cfg.merge, Asked(cfg, lines, |lines|));
    assert forall k | 0 <= k < len ::
        txnId[..len][k] == RowAt(txnId, actionType, targetLm, targetObj, lockType, k).tid
        && targetObj[..len][k] == RowAt(txnId, actionType, targetLm, targetObj, lockType, k).obj;
    LinesHaveRows(cfg, lines, txnId[..len], targetObj[..len]);
  }

  // Some entry of the two arrays is for this transaction and object.
  ghost predicate HasRow(tids: seq<nat>, objs: seq<nat>, tid: nat, obj: nat)
    requires |tids| == |objs|
  {
    exists k :: 0 <= k < |tids| && tids[k] == tid && objs[k] == obj
  }

  lemma LinesHaveRows(cfg: Config, lines: seq<Line>, tids: seq<nat>, objs: seq<nat>)
    requires Readable(cfg, lines)
    requires var rows := Build(cfg.merge, Asked(cfg, lines, |lines|));
             |tids| == |objs| == |rows| && forall k | 0 <= k < |rows| :: tids[k] == rows[k].tid && objs[k] == rows[k].obj
    ensures forall i | 0 <= i < |lines| && lines[i].action != 1 ::
              && (cfg.draws.None? && !cfg.merge ==> HasRow(tids, objs, lines[i].tid, lines[i].obj + 1))
              && (cfg.draws.None? && cfg.merge ==> HasRow(tids, objs, lines[i].tid, cfg.batchMap[lines[i].obj] + 1))
              && (cfg.draws.Some? ==> HasRow(tids, objs, lines[i].tid, cfg.draws.value[i] % 7000000 + 1))
  {
    forall i | 0 <= i < |lines| && lines[i].action != 1
      ensures cfg.draws.None? && !cfg.merge ==> HasRow(tids, objs, lines[i].tid, lines[i].obj + 1)
      ensures cfg.draws.None? && cfg.merge ==> HasRow(tids, objs, lines[i].tid, cfg.batchMap[lines[i].obj] + 1)
      ensures cfg.draws.Some? ==> HasRow(tids, objs, lines[i].tid, cfg.draws.value[i] % 7000000 + 1)
    {
      var k := LineIsKept(cfg, lines, i);
      assert HasRow(tids, objs, tids[k], objs[k]);
    }
  }

  lemma BuildStep(cfg: Config, lines: seq<Line>, i: nat)
    requires Readable(cfg, lines) && i < |lines| && lines[i].action != 1
    ensures Build(cfg.merge, Asked(cfg, lines, i + 1)) ==
            Keep(cfg.merge, Build(cfg.merge, Asked(cfg, lines, i)), lines[i].(obj := ObjectOf(cfg, lines, i)))
  {
    var asked := Asked(cfg, lines, i);
    assert Asked(cfg, lines, i + 1)[..|asked|] == asked;
  }
}
