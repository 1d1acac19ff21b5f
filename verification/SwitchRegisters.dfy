/**
 The switch's registers and the packets that update them. Each method is one trip of
 one packet through the ingress pipeline, table by table; its contract ties the
 registers to the log of the lock it works on.
 */
module SwitchRegisters {
  import opened NetLockTypes
  import opened RwLock
  import opened LockRing
  import opened SlotArithmetic

  // slots_two_sides_register: empty slots in the low half, requests in the server in the high half.
  datatype Slots = Slots(empty: nat, inServer: nat)

  // shared_and_exclusive_count_register: exclusive in the low half, shared in the high half.
  datatype Counts = Counts(exclusive: nat, shared: nat)

  // What a recirculated release carries: nlk_hdr.recirc_flag and recirculate_hdr.
  datatype Recirculated = Recirculated(flag: nat, curHead: nat, curTail: nat, dequeuedMode: Mode)

  datatype AcquireOp = AcquireLock | PushBackLock

  const WIDTH: nat := 0x1_0000_0000

  // dec_empty_slots_alu and push_back_alu, on one cell; push_back_alu does not look whether
  // there is an empty slot.
  function Taken(s: Slots, op: AcquireOp): Slots
    requires op.PushBackLock? ==> s.inServer > 0
  {
    if op.PushBackLock? then Slots(if s.empty > 0 then s.empty - 1 else WIDTH - 1, s.inServer - 1)
    else if s.empty > 0 && s.inServer == 0 then Slots(s.empty - 1, 0)
    else Slots(s.empty, s.inServer + 1)
  }

  // inc_empty_slots_alu.
  function Freed(s: Slots): Slots {
    Slots(if s.empty + 1 == WIDTH then 0 else s.empty + 1, s.inServer)
  }

  // acquire_lock_table, on the count pair alone.
  predicate GrantedByCounts(c: Counts, e: Entry) {
    c.exclusive == 0 && (e.mode.Shared? || c.shared == 0)
  }

  function Counted(c: Counts, e: Entry): Counts {
    if e.mode.Exclusive? then Counts(c.exclusive + 1, c.shared) else Counts(c.exclusive, c.shared + 1)
  }

  // update_lock_alu.
  function Uncounted(c: Counts, mode: Mode): Counts {
    if mode.Exclusive? then c.(exclusive := if c.exclusive > 0 then c.exclusive - 1 else WIDTH - 1)
    else c.(shared := if c.shared > 0 then c.shared - 1 else WIDTH - 1)
  }

  // The registers of one lock, and the entry arrays as one sequence of slots, represent the ring r.
  ghost predicate Represents(r: Ring, left: nat, right: nat, head: nat, tail: nat,
                             slots: Slots, counts: Counts, cells: seq<Entry>) {
    && r.Ok()
    && left + r.cap == right + 1 <= |cells| && r.cap < WIDTH
    && head == Slot(left, r.cap, r.q.popped)
    && tail == Slot(left, r.cap, |r.q.log|)
    && slots == Slots(r.cap - r.Size(), r.inServer)
    && counts == Counts(CountFrom(r.q.log, r.q.popped, Exclusive), CountFrom(r.q.log, r.q.popped, Shared))
    // the last cap requests of the log are in the slots of their positions
    && forall p | 0 <= p < |r.q.log| <= p + r.cap :: cells[Slot(left, r.cap, p)] == r.q.log[p]
  }

  // A write outside its region does not disturb a lock.
  lemma RepresentsKept(r: Ring, left: nat, right: nat, head: nat, tail: nat,
                       slots: Slots, counts: Counts, cells: seq<Entry>, t: nat, e: Entry)
    requires Represents(r, left, right, head, tail, slots, counts, cells)
    requires t < |cells| && !(left <= t <= right)
    ensures Represents(r, left, right, head, tail, slots, counts, cells[t := e])
  {
  }

  // After the write at the old tail the registers represent the longer log.
  lemma RepresentsEntered(r: Ring, r': Ring, e: Entry, left: nat, right: nat, head: nat, tail: nat,
                          slots: Slots, counts: Counts, cells: seq<Entry>)
    requires Represents(r, left, right, head, tail, slots, counts, cells)
    requires r.Size() < r.cap && r'.cap == r.cap && r'.q == Next(r.q, Acquire(e))
    ensures tail <= right
    ensures Represents(r', left, right, head, if tail == right then left else tail + 1,
              Slots(r.cap - r.Size() - 1, r'.inServer),
              Counted(counts, e),
              cells[tail := e])
  {
    NextSlot(left, r.cap, |r.q.log|);
    CountAppendEntry(r.q.log, r.q.popped, e, Exclusive);
    CountAppendEntry(r.q.log, r.q.popped, e, Shared);
    forall p | 0 <= p < |r'.q.log| <= p + r.cap
      ensures cells[tail := e][Slot(left, r.cap, p)] == r'.q.log[p]
    {
      if p < |r.q.log| {
        SlotsDiffer(left, r.cap, p, |r.q.log|);
      }
    }
  }

  lemma TailInRing(r: Ring, left: nat, right: nat, head: nat, tail: nat,
                   slots: Slots, counts: Counts, cells: seq<Entry>)
    requires Represents(r, left, right, head, tail, slots, counts, cells)
    ensures left <= tail <= right
  {
    NextSlot(left, r.cap, |r.q.log|);
  }

  // The count registers decide a grant as the policy does.
  lemma CountsDecide(r: Ring, e: Entry, counts: Counts)
    requires r.Ok()
    requires counts == Counts(CountFrom(r.q.log, r.q.popped, Exclusive), CountFrom(r.q.log, r.q.popped, Shared))
    ensures Admits(r.q, e) <==> GrantedByCounts(counts, e)
  {
    AdmitsWhen(r.q, e);
    NoExclusiveCounted(r.q.log, r.q.popped);
  }

  // After a pop they represent the shorter queue.
  lemma RepresentsPopped(r: Ring, left: nat, right: nat, head: nat, tail: nat,
                         slots: Slots, counts: Counts, cells: seq<Entry>)
    requires Represents(r, left, right, head, tail, slots, counts, cells) && r.Size() > 0
    ensures var m := r.q.log[r.q.popped].mode;
            && left <= head <= right && cells[head] == r.q.log[r.q.popped]
            && (if m.Exclusive? then counts.exclusive else counts.shared) > 0
            && Represents(Popped(r), left, right, if head == right then left else head + 1, tail,
                 Freed(slots), Uncounted(counts, m), cells)
  {
    NextSlot(left, r.cap, r.q.popped);
  }

  // The header that the first pass of a release leaves is that of its scan.
  lemma HeaderOfPop(r: Ring, left: nat, right: nat, head: nat, tail: nat,
                    slots: Slots, counts: Counts, cells: seq<Entry>)
    requires Represents(r, left, right, head, tail, slots, counts, cells) && r.Size() > 0
    ensures head < |cells|
    ensures var next := if head == right then left else head + 1;
            HeaderMatches(left, r.cap, FirstScan(r), if next != tail then Some(Recirculated(1, next, tail, cells[head].mode)) else None)
  {
    NextSlot(left, r.cap, r.q.popped);
    HeadMeetsTail(left, right, r.cap, r.q.popped, |r.q.log|);
  }

  // The header a recirculated packet carries for the scan s of a ring.
  function HeaderOf(left: nat, cap: nat, s: Scan): Recirculated
    requires 1 <= cap
  {
    Recirculated(if s.sweep then 2 else 1, Slot(left, cap, s.head), Slot(left, cap, s.tail), s.dequeued)
  }

  ghost predicate HeaderMatches(left: nat, cap: nat, s: Option<Scan>, h: Option<Recirculated>)
    requires 1 <= cap
  {
    match s case None => h == None case Some(scan) => h == Some(HeaderOf(left, cap, scan))
  }

  // Comparing meta.head with meta.tail tells whether requests are left behind the head.
  lemma HeadMeetsTail(left: nat, right: nat, cap: nat, h: nat, t: nat)
    requires 1 <= cap && left + cap == right + 1 && h < t < h + 1 + cap
    ensures var next := if Slot(left, cap, h) == right then left else Slot(left, cap, h) + 1;
            next == Slot(left, cap, h + 1) && (next == Slot(left, cap, t) <==> h + 1 == t)
  {
    NextSlot(left, cap, h);
    if h + 1 < t {
      SlotsDiffer(left, cap, h + 1, t);
    }
  }

  // A hand-off leaves the counts of the released request behind.
  lemma HandOffDoesNotPop(r: Ring, left: nat, right: nat, head: nat, tail: nat,
                          slots: Slots, slots': Slots, counts: Counts, cells: seq<Entry>)
    requires Represents(r, left, right, head, tail, slots, counts, cells) && r.Size() > 0
    ensures !Represents(Popped(r), left, right, head, tail, slots', counts, cells)
  {
    NoExclusiveCounted(r.q.log, r.q.popped);
    NoExclusiveCounted(r.q.log, r.q.popped + 1);
  }

  // The six register arrays that hold queue entries, indexed by slot.
  class EntryArrays {
    const modes: array<Mode>
    const tids: array<nat>
    const ips: array<nat>
    const clientIds: array<nat>
    const tsHis: array<nat>
    const tsLos: array<nat>
    ghost var cells: seq<Entry>

    ghost function Repr(): set<object> {
      {this, modes, tids, ips, clientIds, tsHis, tsLos}
    }

    ghost predicate Valid()
      reads Repr()
    {
      && modes.Length == tids.Length == ips.Length == clientIds.Length == tsHis.Length == tsLos.Length == |cells|
      && ips != tids && clientIds !in {ips, tids} && tsHis !in {clientIds, ips, tids}
      && tsLos !in {tsHis, clientIds, ips, tids}
      && forall i | 0 <= i < |cells| ::
           cells[i] == Entry(modes[i], tids[i], ips[i], clientIds[i], tsHis[i], tsLos[i])
    }

    constructor (length: nat)
      ensures Valid() && |cells| == length && fresh(Repr())
    {
      modes := new Mode[length];
      tids := new nat[length];
      ips := new nat[length];
      clientIds := new nat[length];
      tsHis := new nat[length];
      tsLos := new nat[length];
      new;
      cells := seq(length, i requires 0 <= i < length reads modes, tids, ips, clientIds, tsHis, tsLos =>
        Entry(modes[i], tids[i], ips[i], clientIds[i], tsHis[i], tsLos[i]));
    }

    // update_ip_array_table up to update_timestamp_lo_array_table.
    method Write(t: nat, e: Entry)
      requires Valid() && t < |cells|
      modifies Repr()
      ensures Valid() && cells == old(cells)[t := e]
      ensures modes[t] == e.mode && tids[t] == e.tid && ips[t] == e.ip && clientIds[t] == e.clientId
      ensures tsHis[t] == e.tsHi && tsLos[t] == e.tsLo
    {
      ips[t] := e.ip;
      modes[t] := e.mode;
      clientIds[t] := e.clientId;
      tids[t] := e.tid;
      tsHis[t] := e.tsHi;
      tsLos[t] := e.tsLo;
      cells := cells[t := e];
    }

    // get_ip_table up to get_timestamp_lo_table.
    method Read(t: nat) returns (e: Entry)
      requires Valid() && t < |cells|
      ensures e == cells[t]
      ensures modes[t] == e.mode && tids[t] == e.tid && ips[t] == e.ip && clientIds[t] == e.clientId
      ensures tsHis[t] == e.tsHi && tsLos[t] == e.tsLo
    {
      e := Entry(modes[t], tids[t], ips[t], clientIds[t], tsHis[t], tsLos[t]);
    }
  }

  class Switch {
    const numLocks: nat
    const left: array<nat>
    const right: array<nat>
    const head: array<nat>
    const tail: array<nat>
    const slots: array<Slots>
    const counts: array<Counts>
    const entries: EntryArrays
    // failure_status_register: 1 while the switch is being reset.
    var failureStatus: nat

    // The log of every lock; lock indices start at 1.
    ghost var rings: seq<Ring>

    ghost function Repr(): set<object> {
      {this, left, right, head, tail, slots, counts} + entries.Repr()
    }

    // One index array per purpose, apart from the entry arrays.
    ghost predicate Shape()
      reads entries.Repr()
    {
      && left.Length == right.Length == head.Length == tail.Length == numLocks + 1
      && slots.Length == counts.Length == numLocks + 1
      && left != right && left != head && left != tail && right != head && right != tail && head != tail
      && {left, right, head, tail} !! entries.Repr()
      && entries.Valid()
    }

    ghost predicate Layout()
      requires left.Length == right.Length == numLocks + 1
      reads left, right, entries
    {
      && (forall l | 1 <= l <= numLocks :: left[l] <= right[l] < |entries.cells|)
      && (forall l, m | 1 <= l < m <= numLocks :: right[l] < left[m])
    }

    ghost predicate Holds(l: nat, r: Ring)
      requires Shape() && l <= numLocks
      reads this, left, right, head, tail, slots, counts, entries.Repr()
    {
      Represents(r, left[l], right[l], head[l], tail[l], slots[l], counts[l], entries.cells)
    }

    // Every lock but l is represented; with l == 0, every lock.
    ghost predicate ValidBut(l: nat)
      reads this, left, right, head, tail, slots, counts, entries.Repr()
    {
      && Shape() && Layout()
      && |rings| == numLocks + 1
      && forall m | 1 <= m <= numLocks && m != l :: Holds(m, rings[m])
    }

    ghost predicate Valid()
      reads this, left, right, head, tail, slots, counts, entries.Repr()
    {
      ValidBut(0)
    }

    // Registers as the pipeline is loaded, before the controller writes them.
    constructor (locks: nat, length: nat)
      ensures Shape() && numLocks == locks && |entries.cells| == length && fresh(Repr())
    {
      numLocks := locks;
      left := new nat[locks + 1];
      right := new nat[locks + 1];
      head := new nat[locks + 1];
      tail := new nat[locks + 1];
      slots := new Slots[locks + 1];
      counts := new Counts[locks + 1];
      entries := new EntryArrays(length);
      failureStatus := 0;
      rings := [];
    }

    // ---- Single tables ----

    // dec_empty_slots_alu and push_back_alu.
    method DecEmptySlotsTable(l: nat, op: AcquireOp) returns (lengthInServer: nat)
      requires ValidBut(l) && l <= numLocks
      requires op.PushBackLock? ==> slots[l].inServer > 0
      modifies slots
      ensures ValidBut(l)
      ensures slots[l] == Taken(old(slots[l]), op)
      ensures lengthInServer == if op.PushBackLock? then 0 else slots[l].inServer
    {
      var s := slots[l];
      lengthInServer := 0;
      if op.AcquireLock? {
        slots[l] := if s.empty > 0 && !(s.inServer > 0) then Slots(s.empty - 1, s.inServer)
                    else Slots(s.empty, s.inServer + 1);
        lengthInServer := slots[l].inServer;
      } else {
        slots[l] := Slots(if s.empty > 0 then s.empty - 1 else WIDTH - 1, s.inServer - 1);
      }
    }

    // acquire_shared_lock_alu and acquire_exclusive_lock_alu: the output is 0 when the
    // output predicate fails.
    method AcquireLockTable(l: nat, mode: Mode) returns (locked: nat)
      requires ValidBut(l) && l <= numLocks
      modifies counts
      ensures ValidBut(l)
      ensures forall e: Entry | e.mode == mode ::
                && counts[l] == Counted(old(counts[l]), e)
                && (locked == 0 <==> GrantedByCounts(old(counts[l]), e))
    {
      var c := counts[l];
      if mode.Shared? {
        counts[l] := Counts(c.exclusive, c.shared + 1);
        locked := if c.exclusive > 0 then c.shared + 1 else 0;
      } else {
        counts[l] := Counts(c.exclusive + 1, c.shared);
        locked := if c.exclusive > 0 || c.shared > 0 then c.exclusive + 1 else 0;
      }
    }

    // update_tail_table and the tables that write the entry at the old tail.
    method EnqueueTables(l: nat, e: Entry)
      requires ValidBut(l) && 1 <= l <= numLocks && left[l] <= tail[l] <= right[l]
      modifies tail, entries.Repr()
      ensures ValidBut(l)
      ensures tail[l] == if old(tail[l]) == right[l] then left[l] else old(tail[l]) + 1
      ensures entries.cells == old(entries.cells)[old(tail[l]) := e]
    {
      var t := tail[l];
      tail[l] := if t == right[l] then left[l] else t + 1;
      ghost var cells := entries.cells;
      assert forall m | 1 <= m <= numLocks && m != l :: Holds(m, rings[m]);
      entries.Write(t, e);
      forall m | 1 <= m <= numLocks && m != l
        ensures Holds(m, rings[m])
      {
        RepresentsKept(rings[m], left[m], right[m], head[m], tail[m], slots[m], counts[m], cells, t, e);
      }
    }

    // Record what lock l now represents.
    ghost method SetRing(l: nat, r: Ring)
      requires ValidBut(l) && 1 <= l <= numLocks && Holds(l, r)
      modifies this`rings
      ensures Valid() && rings == old(rings)[l := r]
    {
      rings := rings[l := r];
    }

    // ---- acquire_lock ----

    // The branch that takes the request into the ring.
    method TakeIntoRing(l: nat, e: Entry) returns (v: Verdict)
      requires ValidBut(l) && 1 <= l <= numLocks && left[l] <= tail[l] <= right[l]
      modifies tail, counts, entries.Repr()
      ensures ValidBut(l)
      ensures counts[l] == Counted(old(counts[l]), e)
      ensures tail[l] == if old(tail[l]) == right[l] then left[l] else old(tail[l]) + 1
      ensures entries.cells == old(entries.cells)[old(tail[l]) := e]
      ensures v == if GrantedByCounts(old(counts[l]), e) then Granted else Queued
    {
      var locked := AcquireLockTable(l, e.mode);
      EnqueueTables(l, e);
      v := if locked == 0 then Granted else Queued;
    }

    // acquire_lock for a client's request and for one pushed back. A push-back comes after a
    // hand-off, so the registers of the lock need not represent a queue.
    method AcquireOrPushBack(l: nat, op: AcquireOp, e: Entry) returns (v: Verdict)
      requires ValidBut(l) && 1 <= l <= numLocks && left[l] <= tail[l] <= right[l]
      requires op.PushBackLock? ==> slots[l].inServer > 0
      requires slots[l].inServer + 1 < WIDTH
      modifies tail, slots, counts, entries.Repr()
      ensures ValidBut(l) && rings == old(rings)
      ensures v.Forwarded? <==> op.AcquireLock? && (old(slots[l]).empty == 0 || old(slots[l]).inServer > 0)
      ensures op.PushBackLock? ==> slots[l].inServer == old(slots[l]).inServer - 1
                                   && slots[l].empty == if old(slots[l]).empty > 0 then old(slots[l]).empty - 1 else WIDTH - 1
      ensures op.AcquireLock? ==> slots[l] == if v.Forwarded? then Slots(old(slots[l]).empty, old(slots[l]).inServer + 1)
                                              else Slots(old(slots[l]).empty - 1, 0)
      ensures v.Forwarded? ==> counts[l] == old(counts[l]) && tail[l] == old(tail[l]) && entries.cells == old(entries.cells)
      ensures !v.Forwarded? ==>
                && (v.Granted? <==> GrantedByCounts(old(counts[l]), e))
                && counts[l] == Counted(old(counts[l]), e)
                && tail[l] == (if old(tail[l]) == right[l] then left[l] else old(tail[l]) + 1)
                && entries.cells == old(entries.cells)[old(tail[l]) := e]
    {
      var lengthInServer := DecEmptySlotsTable(l, op);
      if lengthInServer != 0 && op.AcquireLock? {
        v := Forwarded;
      } else {
        v := TakeIntoRing(l, e);
      }
    }

    // A client's request, before any hand-off of the lock.
    method AcquirePass(l: nat, e: Entry) returns (v: Verdict)
      requires Valid() && 1 <= l <= numLocks && slots[l].inServer + 1 < WIDTH
      modifies this`rings, tail, slots, counts, entries.Repr()
      ensures Valid() && old(rings[l]).Ok()
      ensures v == AcquireVerdict(old(rings[l]), e)
      ensures rings == old(rings)[l := AfterAcquire(old(rings[l]), e)]
    {
      ghost var r := rings[l];
      assert Holds(l, r);
      TailInRing(r, left[l], right[l], head[l], tail[l], slots[l], counts[l], entries.cells);
      CountsDecide(r, e, counts[l]);
      if HasRoom(r) {
        RepresentsEntered(r, AfterAcquire(r, e), e, left[l], right[l], head[l], tail[l], slots[l], counts[l], entries.cells);
      }
      v := AcquireOrPushBack(l, AcquireLock, e);
      SetRing(l, AfterAcquire(r, e));
    }

    // ---- release_lock ----

    // inc_empty_slots_alu: the output is 0 unless requests are in the server.
    method IncEmptySlotsTable(l: nat) returns (emptySlotsBeforePop: nat)
      requires ValidBut(l) && l <= numLocks
      modifies slots
      ensures ValidBut(l)
      ensures slots[l] == Freed(old(slots[l]))
      ensures emptySlotsBeforePop == if old(slots[l]).inServer > 0 then old(slots[l]).empty else 0
    {
      var s := slots[l];
      slots[l] := Slots(if s.empty + 1 == WIDTH then 0 else s.empty + 1, s.inServer);
      emptySlotsBeforePop := if s.inServer > 0 then s.empty else 0;
    }

    // update_head_alu; the output is the head before the update.
    method UpdateHeadTable(l: nat) returns (popped: nat)
      requires ValidBut(l) && 1 <= l <= numLocks
      modifies head
      ensures ValidBut(l)
      ensures popped == old(head[l])
      ensures head[l] == if popped == right[l] then left[l] else popped + 1
    {
      popped := head[l];
      head[l] := if popped == right[l] then left[l] else popped + 1;
    }

    // update_lock_alu: decrements the count of the packet's own mode.
    method UpdateLockTable(l: nat, mode: Mode)
      requires ValidBut(l) && l <= numLocks
      modifies counts
      ensures ValidBut(l)
      ensures counts[l] == Uncounted(old(counts[l]), mode)
    {
      var c := counts[l];
      if mode.Exclusive? {
        counts[l] := Counts(if c.exclusive > 0 then c.exclusive - 1 else WIDTH - 1, c.shared);
      } else {
        counts[l] := Counts(c.exclusive, if c.shared > 0 then c.shared - 1 else WIDTH - 1);
      }
    }

    // From get_tail_table to mark_to_resubmit_table: the node read is the one just popped, the
    // packet goes round unless the head has met the tail.
    method MarkToResubmit(l: nat, popped: nat) returns (recirc: Option<Recirculated>)
      requires ValidBut(l) && 1 <= l <= numLocks && left[l] <= popped <= right[l]
      ensures popped < |entries.cells|
      ensures var next := if popped == right[l] then left[l] else popped + 1;
              recirc == if next != tail[l] then Some(Recirculated(1, next, tail[l], entries.cells[popped].mode)) else None
    {
      var t := tail[l];
      var node := entries.Read(popped);
      // metahead_plus_1_table, metahead_plus_2_table
      var next := if popped == right[l] then left[l] else popped + 1;
      // mark_to_resubmit_table
      recirc := if next != t then Some(Recirculated(1, next, t, node.mode)) else None;
    }

    // The tables of a release that pops.
    method PopTables(l: nat, mode: Mode) returns (recirc: Option<Recirculated>)
      requires ValidBut(l) && 1 <= l <= numLocks && left[l] <= head[l] <= right[l]
      modifies head, counts
      ensures ValidBut(l) && old(head[l]) < |entries.cells|
      ensures head[l] == if old(head[l]) == right[l] then left[l] else old(head[l]) + 1
      ensures counts[l] == Uncounted(old(counts[l]), mode)
      ensures recirc == if head[l] != tail[l] then Some(Recirculated(1, head[l], tail[l], entries.cells[old(head[l])].mode)) else None
    {
      var popped := UpdateHeadTable(l);
      UpdateLockTable(l, mode);
      recirc := MarkToResubmit(l, popped);
    }

    // release_lock with recirc_flag 0, whatever a hand-off has left in the registers of the lock.
    // A ring of several slots hands the release over exactly if requests are in the server and
    // all slots but one are counted empty; otherwise it pops.
    method ReleaseAny(l: nat, mode: Mode) returns (forwarded: bool, recirc: Option<Recirculated>)
      requires ValidBut(l) && 1 <= l <= numLocks && left[l] <= head[l] <= right[l]
      modifies head, slots, counts
      ensures ValidBut(l) && rings == old(rings)
      ensures left[l] < right[l] ==> (forwarded <==> old(slots[l]).inServer > 0 && old(slots[l]).empty == right[l] - left[l])
      ensures left[l] == right[l] ==> (forwarded <==> old(slots[l]).inServer == 0 || old(slots[l]).empty == 0)
      ensures slots[l].inServer == old(slots[l]).inServer
      ensures slots[l].empty == if old(slots[l]).empty + 1 == WIDTH then 0 else old(slots[l]).empty + 1
      ensures forwarded ==> head[l] == old(head[l]) && counts[l] == old(counts[l]) && recirc == None
      ensures !forwarded ==> old(head[l]) < |entries.cells|
      ensures !forwarded ==>
                && head[l] == (if old(head[l]) == right[l] then left[l] else old(head[l]) + 1)
                && (var was, x := old(counts[l]), mode.Exclusive?;
                    && counts[l].exclusive == (if !x then was.exclusive else if was.exclusive > 0 then was.exclusive - 1 else WIDTH - 1)
                    && counts[l].shared == if x then was.shared else if was.shared > 0 then was.shared - 1 else WIDTH - 1)
                && recirc == if head[l] != tail[l] then Some(Recirculated(1, head[l], tail[l], entries.cells[old(head[l])].mode)) else None
    {
      recirc := None;
      var emptySlotsBeforePop := IncEmptySlotsTable(l);
      var sizeOfQueue := right[l] - left[l];
      forwarded := emptySlotsBeforePop == sizeOfQueue;
      if !forwarded {
        recirc := PopTables(l, mode);
      }
    }

    // The same before any hand-off. Only a holder sends a release, so the ring is not empty and
    // the packet's mode is the head's.
    method ReleasePass(l: nat, mode: Mode) returns (forwarded: bool, recirc: Option<Recirculated>)
      requires Valid() && 1 <= l <= numLocks
      requires rings[l].Size() > 0 && mode == rings[l].q.log[rings[l].q.popped].mode
      modifies this`rings, head, slots, counts
      ensures forwarded == HandOff(old(rings[l]))
      ensures Holds(l, Popped(old(rings[l]))) <==> !forwarded
      ensures !forwarded ==> Valid() && rings == old(rings)[l := Popped(old(rings[l]))]
      ensures !forwarded ==> HeaderMatches(left[l], old(rings[l]).cap, FirstScan(old(rings[l])), recirc)
      ensures forwarded ==> ValidBut(l) && rings == old(rings) && recirc == None
      ensures forwarded ==> slots[l] == Slots(old(slots[l]).empty + 1, old(slots[l]).inServer)
                            && head[l] == old(head[l]) && counts[l] == old(counts[l])
    {
      ghost var r, s := rings[l], slots[l];
      assert Holds(l, r);
      RepresentsPopped(r, left[l], right[l], head[l], tail[l], slots[l], counts[l], entries.cells);
      HeaderOfPop(r, left[l], right[l], head[l], tail[l], slots[l], counts[l], entries.cells);
      ghost var counts0, head0 := counts[l], head[l];
      forwarded, recirc := ReleaseAny(l, mode);
      if forwarded {
        HandOffDoesNotPop(r, left[l], right[l], head0, tail[l], s, slots[l], counts0, entries.cells);
      } else {
        SetRing(l, Popped(r));
      }
    }

    // The same packet comes round again, with recirc_flag 1 or 2: it reads one slot, may send
    // the grant for the entry there, and may go round once more. No register changes.
    method RecirculatedPass(l: nat, h: Recirculated, ghost s: Scan)
      returns (grant: Option<Entry>, recirc: Option<Recirculated>)
      requires Valid() && 1 <= l <= numLocks
      requires s.head < s.tail <= |rings[l].q.log| && s.tail < s.head + rings[l].cap
      requires h == HeaderOf(left[l], rings[l].cap, s)
      ensures var e := Visible(rings[l], s.head);
              && grant == (if PassGrants(s, e) then Some(e) else None)
              && HeaderMatches(left[l], rings[l].cap, PassNext(s, e), recirc)
      ensures recirc.Some? ==>
                recirc.value.flag == 2 && recirc.value.curTail == h.curTail && recirc.value.dequeuedMode == h.dequeuedMode
                && recirc.value.curHead == if h.curHead == right[l] then left[l] else h.curHead + 1
    {
      ghost var r := rings[l];
      assert Holds(l, r);
      NextSlot(left[l], r.cap, s.head);
      LatestSharesSlot(left[l], |r.q.log|, r.cap, s.head);
      HeadMeetsTail(left[l], right[l], r.cap, s.head, s.tail);
      var node := entries.Read(h.curHead);
      grant, recirc := None, None;
      if (h.flag == 1 && (h.dequeuedMode.Exclusive? || node.mode.Exclusive?)) || (h.flag == 2 && node.mode.Shared?) {
        // i2e_mirror_table and change_mode_act: the clone carries the node's fields to its client
        grant := Some(node);
        var next := if h.curHead == right[l] then left[l] else h.curHead + 1;
        if next != h.curTail && ((h.flag == 1 && node.mode.Shared?) || h.flag == 2) {
          // mark_to_resubmit_2_table
          recirc := Some(Recirculated(2, next, h.curTail, h.dequeuedMode));
        }
      }
    }
  }
}
