/**
 The lock policy as a specification: a FIFO queue of requests of which a leading
 run is granted. The run is the head alone when the head is exclusive, and the
 longest shared prefix otherwise.

 A queue is kept as the log of every request that ever entered it and the number
 of requests taken out, so that a request keeps one position for ever.
 */
module RwLock {
  import opened NetLockTypes

  datatype Queue = Queue(log: seq<Entry>, popped: nat) {
    ghost predicate Ok() {
      popped <= |log|
    }

    function Waiting(): seq<Entry>
      requires Ok()
    {
      log[popped..]
    }
  }

  // The first exclusive request at or after position i, or the end of the log.
  function FirstExclusive(log: seq<Entry>, i: nat): (n: nat)
    requires i <= |log|
    ensures i <= n <= |log|
    ensures forall p | i <= p < n :: log[p].mode.Shared?
    ensures n < |log| ==> log[n].mode.Exclusive?
    decreases |log| - i
  {
    if i == |log| || log[i].mode.Exclusive? then i else FirstExclusive(log, i + 1)
  }

  // Every position below the result has been granted, no other one has.
  function GrantEnd(q: Queue): (n: nat)
    requires q.Ok()
    ensures q.popped <= n <= |q.log|
    ensures q.popped < |q.log| ==> q.popped < n
    ensures n > q.popped + 1 ==> forall p | q.popped <= p < n :: q.log[p].mode.Shared?
  {
    if q.popped < |q.log| && q.log[q.popped].mode.Exclusive? then q.popped + 1
    else FirstExclusive(q.log, q.popped)
  }

  // A release carries the mode it was granted in.
  datatype Event = Acquire(e: Entry) | Release(mode: Mode)

  // Only a holder releases, and all holders have the mode of the head.
  ghost predicate Legal(q: Queue, ev: Event) {
    q.Ok() && (ev.Release? ==> q.popped < |q.log| && ev.mode == q.log[q.popped].mode)
  }

  function Next(q: Queue, ev: Event): (q': Queue)
    requires Legal(q, ev)
    ensures q'.Ok()
  {
    match ev
    case Acquire(e) => q.(log := q.log + [e])
    case Release(_) => q.(popped := q.popped + 1)
  }

  // The grants an event sends: the requests that enter the leading run, in queue order.
  function Grants(q: Queue, ev: Event): seq<Entry>
    requires Legal(q, ev)
  {
    GrantEndGrows(q, ev);
    Next(q, ev).log[GrantEnd(q)..GrantEnd(Next(q, ev))]
  }

  lemma {:induction false} FirstExclusiveIs(log: seq<Entry>, i: nat, n: nat)
    requires i <= n <= |log|
    requires forall p | i <= p < n :: log[p].mode.Shared?
    requires n < |log| ==> log[n].mode.Exclusive?
    ensures FirstExclusive(log, i) == n
    decreases n - i
  {
    if i < n {
      FirstExclusiveIs(log, i + 1, n);
    }
  }

  lemma FirstExclusiveAppend(log: seq<Entry>, i: nat, e: Entry)
    requires i <= |log|
    ensures FirstExclusive(log + [e], i) ==
            if FirstExclusive(log, i) == |log| && e.mode.Shared? then |log| + 1 else FirstExclusive(log, i)
  {
    var n := FirstExclusive(log, i);
    FirstExclusiveIs(log + [e], i, if n == |log| && e.mode.Shared? then |log| + 1 else n);
  }

  // An event never takes the lock away from a request that has it.
  lemma GrantEndGrows(q: Queue, ev: Event)
    requires Legal(q, ev)
    ensures GrantEnd(q) <= GrantEnd(Next(q, ev))
  {
    match ev
    case Acquire(e) => FirstExclusiveAppend(q.log, q.popped, e);
    case Release(_) =>
  }

  // An arriving request joins the holders: it lies inside the leading run.
  predicate Admits(q: Queue, e: Entry)
    requires q.Ok()
  {
    GrantEnd(q.(log := q.log + [e])) == |q.log| + 1
  }

  lemma AdmitsWhen(q: Queue, e: Entry)
    requires q.Ok()
    ensures Admits(q, e) <==>
            if e.mode.Shared? then FirstExclusive(q.log, q.popped) == |q.log| else q.popped == |q.log|
  {
    FirstExclusiveAppend(q.log, q.popped, e);
  }

  // An arrival is granted at once or wakes nobody.
  lemma AcquireGrants(q: Queue, e: Entry)
    requires q.Ok()
    ensures Grants(q, Acquire(e)) == if Admits(q, e) then [e] else []
  {
    FirstExclusiveAppend(q.log, q.popped, e);
  }

  // Whom a release wakes: an exclusive request that is next, or the shared run behind an
  // exclusive head.
  lemma ReleaseGrants(q: Queue, mode: Mode)
    requires Legal(q, Release(mode))
    ensures var next := q.popped + 1;
            Grants(q, Release(mode)) ==
              if next == |q.log| then []
              else if q.log[next].mode.Exclusive? then [q.log[next]]
              else if q.log[q.popped].mode.Shared? then []
              else q.log[next..FirstExclusive(q.log, next)]
  {
    GrantEndGrows(q, Release(mode));
    if q.popped + 1 < |q.log| && q.log[q.popped + 1].mode.Exclusive? {
      FirstExclusiveIs(q.log, q.popped + 1, q.popped + 1);
      if q.log[q.popped].mode.Shared? {
        FirstExclusiveIs(q.log, q.popped, q.popped + 1);
      }
    }
  }

  // ---- Counts ----

  // The requests of one mode at or after position i.
  function CountFrom(log: seq<Entry>, i: nat, m: Mode): (n: nat)
    requires i <= |log|
    ensures n <= |log| - i
    decreases |log| - i
  {
    if i == |log| then 0 else (if log[i].mode == m then 1 else 0) + CountFrom(log, i + 1, m)
  }

  lemma {:induction false} CountAppendEntry(log: seq<Entry>, i: nat, e: Entry, m: Mode)
    requires i <= |log|
    ensures CountFrom(log + [e], i, m) == CountFrom(log, i, m) + (if e.mode == m then 1 else 0)
    decreases |log| - i
  {
    if i < |log| {
      CountAppendEntry(log, i + 1, e, m);
    } else {
      assert CountFrom(log + [e], i + 1, m) == 0;
    }
  }

  // The two counts decide a grant as the policy does.
  lemma {:induction false} NoExclusiveCounted(log: seq<Entry>, i: nat)
    requires i <= |log|
    ensures CountFrom(log, i, Exclusive) == 0 <==> FirstExclusive(log, i) == |log|
    ensures CountFrom(log, i, Exclusive) + CountFrom(log, i, Shared) == |log| - i
    decreases |log| - i
  {
    if i < |log| {
      NoExclusiveCounted(log, i + 1);
    }
  }

  // ---- Whole runs ----

  ghost predicate LegalRun(q: Queue, evs: seq<Event>)
    decreases |evs|
  {
    q.Ok() && (evs != [] ==> Legal(q, evs[0]) && LegalRun(Next(q, evs[0]), evs[1..]))
  }

  function RunQueue(q: Queue, evs: seq<Event>): Queue
    requires LegalRun(q, evs)
    decreases |evs|
  {
    if evs == [] then q else RunQueue(Next(q, evs[0]), evs[1..])
  }

  function RunGrants(q: Queue, evs: seq<Event>): seq<Entry>
    requires LegalRun(q, evs)
    decreases |evs|
  {
    if evs == [] then [] else Grants(q, evs[0]) + RunGrants(Next(q, evs[0]), evs[1..])
  }

  function Releases(evs: seq<Event>): (n: nat)
    ensures n <= |evs|
  {
    if evs == [] then 0 else (if evs[0].Release? then 1 else 0) + Releases(evs[1..])
  }

  lemma {:induction false} RunKeepsLog(q: Queue, evs: seq<Event>)
    requires LegalRun(q, evs)
    ensures RunQueue(q, evs).Ok()
    ensures q.log <= RunQueue(q, evs).log
    ensures RunQueue(q, evs).popped == q.popped + Releases(evs)
    decreases |evs|
  {
    if evs != [] {
      RunKeepsLog(Next(q, evs[0]), evs[1..]);
    }
  }

  // FIFO and exactly once: the grants of a run are the requests that follow the holders
  // of its start in arrival order, without gap or repetition.
  lemma {:induction false} GrantsFollowArrivalOrder(q: Queue, evs: seq<Event>)
    requires LegalRun(q, evs)
    ensures RunQueue(q, evs).Ok()
    ensures GrantEnd(q) <= GrantEnd(RunQueue(q, evs))
    ensures RunGrants(q, evs) == RunQueue(q, evs).log[GrantEnd(q)..GrantEnd(RunQueue(q, evs))]
    decreases |evs|
  {
    if evs != [] {
      var q' := Next(q, evs[0]);
      GrantEndGrows(q, evs[0]);
      GrantsFollowArrivalOrder(q', evs[1..]);
      RunKeepsLog(q', evs[1..]);
      SplitSlice(q'.log, RunQueue(q, evs).log, GrantEnd(q), GrantEnd(q'), GrantEnd(RunQueue(q, evs)));
    }
  }

  lemma SplitSlice(s: seq<Entry>, t: seq<Entry>, a: nat, b: nat, c: nat)
    requires s <= t && a <= b <= |s| && b <= c <= |t|
    ensures s[a..b] + t[b..c] == t[a..c]
  {
  }

  // Bounded waiting: a request with p requests in front of it has been granted once p
  // releases have been processed, whatever else arrived meanwhile.
  lemma BoundedWaiting(q: Queue, evs: seq<Event>, p: nat)
    requires LegalRun(q, evs)
    requires GrantEnd(q) <= q.popped + p < |q.log|
    requires Releases(evs) >= p
    ensures var k := q.popped + p - GrantEnd(q);
            k < |RunGrants(q, evs)| && RunGrants(q, evs)[k] == q.log[q.popped + p]
  {
    RunKeepsLog(q, evs);
    GrantsFollowArrivalOrder(q, evs);
  }
}
