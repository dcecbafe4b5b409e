/** What the tick-driven SJF simulation guarantees: every dispatch takes a shortest job among those that
    have arrived, the CPU never idles while one is ready, and the loop ends iff every burst is positive. */
module TickTheorems {
  import opened Wrappers
  import opened Processes
  import opened HeapModel
  import opened TickSjf
  import opened Sums

  ghost predicate Positive(jobs: seq<Job>) {
    forall p :: 0 <= p < |jobs| ==> jobs[p].burst > 0
  }

  /** How often process p has been dispatched. */
  function Dispatches(log: seq<Slot>, p: nat): nat {
    if |log| == 0 then 0 else
      Dispatches(log[..|log| - 1], p) + if log[|log| - 1].pid == p then 1 else 0
  }

  /** When the last dispatched process is done, if it runs to completion. */
  function Free(jobs: seq<Job>, log: seq<Slot>): int {
    if |log| == 0 || log[|log| - 1].pid >= |jobs| then 0
    else log[|log| - 1].from + jobs[log[|log| - 1].pid].burst
  }

  function Max(a: int, b: int): int { if a < b then b else a }

  /** The process chosen comes first, by burst and then arrival, among those that have arrived by then
      and were not dispatched earlier. */
  ghost predicate Choice(jobs: seq<Job>, log: seq<Slot>, slot: Slot) {
    forall q: nat :: q < |jobs| && jobs[q].arrival <= slot.from && Dispatches(log, q) == 0 ==> Le(jobs, slot.pid, q)
  }

  /** Entry k of the log: a greedy choice, made for the first time, at the moment the CPU is free or the
      process arrives, whichever is later. */
  ghost predicate Greedy(jobs: seq<Job>, log: seq<Slot>, k: nat)
    requires k < |log|
  {
    && log[k].pid < |jobs| && Dispatches(log[..k], log[k].pid) == 0
    && Choice(jobs, log[..k], log[k])
    && log[k].from == Max(Free(jobs, log[..k]), jobs[log[k].pid].arrival)
  }

  /** The record of process p agrees with where it is. */
  ghost predicate RecordOk(jobs: seq<Job>, s: Tick, p: nat)
    requires p < |jobs| == |s.procs|
  {
    var pr := s.procs[p];
    && pr.arrival == jobs[p].arrival && pr.burst == jobs[p].burst
    && multiset(s.waiting)[p] + multiset(s.heap)[p] + Dispatches(s.log, p) == 1
    && if Dispatches(s.log, p) == 0 then
         pr.remaining == pr.burst && pr.start == -1 && s.current != Some(p)
       else if s.current == Some(p) then
         && (pr.burst > 0 ==> pr.remaining > 0) && pr.remaining <= pr.burst
         && s.now == pr.start + pr.burst - pr.remaining
       else
         pr.remaining == 0 && pr.finish == pr.start + pr.burst
  }

  ghost predicate Books(jobs: seq<Job>, s: Tick) {
    && Shape(jobs, s)
    && (forall p :: 0 <= p < |jobs| ==> RecordOk(jobs, s, p))
    && (forall k :: 0 <= k < |s.log| ==> Greedy(jobs, s.log, k))
    && (forall k :: 0 <= k < |s.log| ==> s.log[k].pid < |jobs| && s.procs[s.log[k].pid].start == s.log[k].from)
    && (match s.current
        case None => s.now >= Free(jobs, s.log) >= 0
        case Some(p) => |s.log| > 0 && s.log[|s.log| - 1].pid == p)
  }

  /** Between iterations: the heap holds processes that have arrived, the waiting array those that had
      not arrived a moment ago, and an idle moment means that nobody was ready. */
  ghost predicate TickInv(jobs: seq<Job>, s: Tick) {
    && Books(jobs, s)
    && (forall q :: q in multiset(s.heap) ==> q < |jobs| && jobs[q].arrival <= s.now)
    && (s.now > 0 ==> forall q :: q in multiset(s.waiting) ==> q < |jobs| && jobs[q].arrival >= s.now)
    && (s.current.None? && s.now > Free(jobs, s.log) ==> |s.heap| == 0)
  }

  /** After the arrivals of the instant. */
  ghost predicate MidInv(jobs: seq<Job>, s: Tick) {
    && Books(jobs, s)
    && (forall q :: q in multiset(s.heap) ==> q < |jobs| && jobs[q].arrival <= s.now)
    && (forall q :: q in multiset(s.waiting) ==> q < |jobs| && jobs[q].arrival > s.now)
    && (s.current.None? && s.now > Free(jobs, s.log) ==>
          forall q :: q in multiset(s.heap) ==> q < |jobs| && jobs[q].arrival == s.now)
  }

  lemma AdmittedRecords(jobs: seq<Job>, s: Tick)
    requires TickInv(jobs, s)
    ensures forall p :: 0 <= p < |jobs| ==> RecordOk(jobs, Admitted(jobs, s), p)
  {
    hide Greedy;
    ArrivedMoves(jobs, s.now, s.waiting, s.heap, 0);
    var s' := Admitted(jobs, s);
    forall p | 0 <= p < |jobs| ensures RecordOk(jobs, s', p) {
      assert RecordOk(jobs, s, p);
      assert multiset(s'.waiting)[p] + multiset(s'.heap)[p] == (multiset(s'.waiting) + multiset(s'.heap))[p];
      assert multiset(s.waiting)[p] + multiset(s.heap)[p] == (multiset(s.waiting) + multiset(s.heap))[p];
    }
  }

  lemma AdmittedInv(jobs: seq<Job>, s: Tick)
    requires TickInv(jobs, s)
    ensures MidInv(jobs, Admitted(jobs, s))
  {
    hide RecordOk;
    AdmittedRecords(jobs, s);
    ArrivedMoves(jobs, s.now, s.waiting, s.heap, 0);
    var s' := Admitted(jobs, s);
    forall q | q in multiset(s'.waiting) ensures q < |jobs| && jobs[q].arrival > s.now { assert q in s'.waiting; }
  }

  lemma PickRecords(jobs: seq<Job>, s: Tick)
    requires MidInv(jobs, s) && s.current.None? && |s.heap| > 0
    ensures s.heap[0] < |s.procs| && Dispatches(s.log, s.heap[0]) == 0
    ensures forall q :: 0 <= q < |jobs| ==> RecordOk(jobs, Pick(jobs, s), q)
  {
    hide Greedy, HeapOrdered, AfterExtract, Free;
    ExtractKeepsHeap(jobs, s.heap);
    var p, s' := s.heap[0], Pick(jobs, s);
    assert p in multiset(s.heap);
    assert RecordOk(jobs, s, p);
    assert s'.log[..|s.log|] == s.log;
    forall q | 0 <= q < |jobs| ensures RecordOk(jobs, s', q) {
      assert RecordOk(jobs, s, q);
      assert Dispatches(s'.log, q) == Dispatches(s.log, q) + if p == q then 1 else 0;
    }
  }

  lemma PickGreedy(jobs: seq<Job>, s: Tick)
    requires MidInv(jobs, s) && s.current.None? && |s.heap| > 0
    ensures s.heap[0] < |jobs| && Greedy(jobs, s.log + [Slot(s.heap[0], s.now)], |s.log|)
  {
    hide HeapOrdered;
    ExtractKeepsHeap(jobs, s.heap);
    var p := s.heap[0];
    assert p in multiset(s.heap);
    assert RecordOk(jobs, s, p);
    assert (s.log + [Slot(p, s.now)])[..|s.log|] == s.log;
    forall q: nat | q < |jobs| && jobs[q].arrival <= s.now && Dispatches(s.log, q) == 0 ensures Le(jobs, p, q) {
      assert RecordOk(jobs, s, q);
    }
    assert Choice(jobs, s.log, Slot(p, s.now));
  }

  lemma PickLog(jobs: seq<Job>, s: Tick, k: nat)
    requires MidInv(jobs, s) && s.current.None? && |s.heap| > 0 && s.heap[0] < |s.procs| && k <= |s.log|
    ensures var s' := Pick(jobs, s);
      Greedy(jobs, s'.log, k) && s'.log[k].pid < |jobs| && s'.procs[s'.log[k].pid].start == s'.log[k].from
  {
    hide HeapOrdered, AfterExtract;
    PickGreedy(jobs, s);
    var s' := Pick(jobs, s);
    assert RecordOk(jobs, s, s.heap[0]);
    if k < |s.log| {
      assert Greedy(jobs, s.log, k);
      assert s'.log[..k] == s.log[..k];
      DispatchedOnce(s.log, k);
      PickRecords(jobs, s);
    } else {
      PickRecords(jobs, s);
    }
  }

  lemma PickHeap(jobs: seq<Job>, s: Tick)
    requires MidInv(jobs, s) && s.current.None? && |s.heap| > 0
    ensures s.heap[0] < |s.procs| && Shape(jobs, Pick(jobs, s))
    ensures |Pick(jobs, s).procs| == |jobs| && Pick(jobs, s).waiting == s.waiting && Pick(jobs, s).now == s.now
    ensures forall q :: q in multiset(Pick(jobs, s).heap) ==> q in multiset(s.heap)
  {
    hide Greedy, RecordOk, HeapOrdered, AfterExtract;
    PickShape(jobs, s);
    ExtractKeepsHeap(jobs, s.heap);
  }

  lemma PickBooks(jobs: seq<Job>, s: Tick)
    requires MidInv(jobs, s) && s.current.None? && |s.heap| > 0
    ensures s.heap[0] < |s.procs| && Books(jobs, Pick(jobs, s))
  {
    hide Greedy, RecordOk, HeapOrdered, AfterExtract, Shape;
    PickHeap(jobs, s);
    PickRecords(jobs, s);
    var s' := Pick(jobs, s);
    forall k: nat | 0 <= k < |s.log| + 1
      ensures Greedy(jobs, s'.log, k) && s'.log[k].pid < |jobs| && s'.procs[s'.log[k].pid].start == s'.log[k].from
    {
      PickLog(jobs, s, k);
    }
    assert s.now >= 0 && s.heap[0] < |jobs| by { PickNow(jobs, s); }
  }

  lemma PickNow(jobs: seq<Job>, s: Tick)
    requires Shape(jobs, s) && |s.heap| > 0
    ensures s.now >= 0 && s.heap[0] < |jobs|
  {
  }

  /** A logged process has been dispatched. */
  lemma {:induction false} DispatchedOnce(log: seq<Slot>, k: nat)
    requires k < |log|
    ensures Dispatches(log, log[k].pid) > 0
  {
    if k < |log| - 1 { DispatchedOnce(log[..|log| - 1], k); }
  }

  lemma RunUnitRecords(jobs: seq<Job>, s: Tick)
    requires Books(jobs, s) && s.current.Some?
    ensures forall q :: 0 <= q < |jobs| ==> RecordOk(jobs, RunUnit(s), q)
    ensures RunUnit(s).current.None? ==> s.now + 1 == Free(jobs, s.log)
    ensures forall q :: 0 <= q < |jobs| ==> RunUnit(s).procs[q].start == s.procs[q].start
  {
    hide Greedy, HeapOrdered;
    var p := s.current.value;
    var last := s.log[|s.log| - 1];
    DispatchedOnce(s.log, |s.log| - 1);
    assert RecordOk(jobs, s, p);
    assert last.pid == p && s.procs[p].start == last.from;
    forall q | 0 <= q < |jobs| ensures RecordOk(jobs, RunUnit(s), q) { assert RecordOk(jobs, s, q); }
  }

  lemma RunUnitInv(jobs: seq<Job>, s: Tick)
    requires Books(jobs, s) && s.current.Some?
    requires forall q :: q in multiset(s.heap) ==> q < |jobs| && jobs[q].arrival <= s.now
    requires forall q :: q in multiset(s.waiting) ==> q < |jobs| && jobs[q].arrival > s.now
    ensures TickInv(jobs, RunUnit(s))
  {
    hide Greedy, HeapOrdered, RecordOk, Free;
    RunUnitRecords(jobs, s);
    var s' := RunUnit(s);
    forall k | 0 <= k < |s.log| ensures s.log[k].pid < |jobs| && s'.procs[s.log[k].pid].start == s.log[k].from {
      assert s'.procs[s.log[k].pid].start == s.procs[s.log[k].pid].start;
    }
  }

  lemma NextInv(jobs: seq<Job>, s: Tick)
    requires TickInv(jobs, s)
    ensures TickInv(jobs, Next(jobs, s))
  {
    AdmittedInv(jobs, s);
    AdmittedShape(jobs, s);
    var s1 := Admitted(jobs, s);
    if s1.current.Some? {
      RunUnitInv(jobs, s1);
    } else if |s1.heap| == 0 {
      IdleInv(jobs, s1);
    } else {
      PickHeap(jobs, s1);
      PickBooks(jobs, s1);
      RunUnitInv(jobs, Pick(jobs, s1));
    }
  }

  lemma IdleInv(jobs: seq<Job>, s: Tick)
    requires MidInv(jobs, s) && s.current.None? && |s.heap| == 0
    ensures TickInv(jobs, s.(now := s.now + 1))
  {
    var s' := s.(now := s.now + 1);
    forall q | 0 <= q < |jobs| ensures RecordOk(jobs, s', q) { assert RecordOk(jobs, s, q); }
  }

  lemma {:induction false} IdentityMultiset(n: nat, p: nat)
    requires p < n
    ensures multiset(seq(n, i => i))[p] == 1
  {
    var a := seq(n, i => i);
    assert a == seq(n - 1, i => i) + [n - 1];
    if p < n - 1 {
      IdentityMultiset(n - 1, p);
    } else {
      assert p !in seq(n - 1, i => i);
    }
  }

  lemma {:induction false} AllTicks(jobs: seq<Job>, k: nat)
    ensures TickInv(jobs, Ticks(jobs, k))
  {
    hide Next, TickInv;
    if k == 0 {
      StartInv(jobs);
    } else {
      AllTicks(jobs, k - 1);
      if Ticks(jobs, k - 1).completed < |jobs| { NextInv(jobs, Ticks(jobs, k - 1)); }
    }
  }

  lemma StartInv(jobs: seq<Job>)
    ensures TickInv(jobs, Start(jobs))
  {
    forall p | 0 <= p < |jobs| ensures RecordOk(jobs, Start(jobs), p) { IdentityMultiset(|jobs|, p); }
  }

  // ----- the main results -----

  /** Shortest job first, at every moment of every run, whatever the burst times: each dispatch is of a
      process never dispatched before that comes first, by burst and then arrival, among all arrived
      processes not dispatched before, at the very moment the CPU is free and the process is there. */
  lemma EveryDispatchIsShortest(jobs: seq<Job>, k: nat, i: nat)
    ensures var log := Ticks(jobs, k).log;
      i < |log| ==>
        && log[i].pid < |jobs|
        && (forall q: nat :: q < |jobs| && jobs[q].arrival <= log[i].from && Dispatches(log[..i], q) == 0 ==>
              jobs[log[i].pid].burst < jobs[q].burst ||
              (jobs[log[i].pid].burst == jobs[q].burst && jobs[log[i].pid].arrival <= jobs[q].arrival))
        && Dispatches(log[..i], log[i].pid) == 0
        && log[i].from == Max(Free(jobs, log[..i]), jobs[log[i].pid].arrival)
  {
    hide Next, Shape;
    AllTicks(jobs, k);
    if i < |Ticks(jobs, k).log| { assert Greedy(jobs, Ticks(jobs, k).log, i); }
  }

  // ----- termination -----

  function Lefts(procs: seq<Proc>): seq<int> {
    seq(|procs|, p requires 0 <= p < |procs| => procs[p].remaining)
  }

  function Latest(jobs: seq<Job>): (m: int)
    ensures m >= 0 && forall p :: 0 <= p < |jobs| ==> jobs[p].arrival <= m
  {
    if |jobs| == 0 then 0 else Max(jobs[|jobs| - 1].arrival, Latest(jobs[..|jobs| - 1]))
  }

  /** Work left, and time until the last arrival. */
  function Togo(jobs: seq<Job>, s: Tick): int {
    Sum(Lefts(s.procs)) + Max(0, Latest(jobs) - s.now)
  }

  lemma RunUnitWorks(jobs: seq<Job>, s: Tick)
    requires s.current.Some? && s.current.value < |s.procs|
    ensures Togo(jobs, RunUnit(s)) < Togo(jobs, s)
  {
    var p, s' := s.current.value, RunUnit(s);
    assert Lefts(s'.procs) == Lefts(s.procs)[p := s.procs[p].remaining - 1];
    SumUpdate(Lefts(s.procs), p, s.procs[p].remaining - 1);
  }

  lemma NextWorks(jobs: seq<Job>, s: Tick)
    requires TickInv(jobs, s) && s.completed < |jobs|
    ensures Togo(jobs, Next(jobs, s)) < Togo(jobs, s)
  {
    AdmittedInv(jobs, s);
    AdmittedShape(jobs, s);
    var s1 := Admitted(jobs, s);
    if s1.current.Some? {
      RunUnitWorks(jobs, s1);
    } else if |s1.heap| == 0 {
      assert s1.waiting[0] in multiset(s1.waiting);
    } else {
      PickShape(jobs, s1);
      var s2 := Pick(jobs, s1);
      assert Lefts(s2.procs) == Lefts(s1.procs);
      RunUnitWorks(jobs, s2);
    }
  }

  lemma TogoNonNegative(jobs: seq<Job>, s: Tick)
    requires TickInv(jobs, s) && Positive(jobs)
    ensures Togo(jobs, s) >= 0
  {
    forall p | 0 <= p < |jobs| ensures Lefts(s.procs)[p] >= 0 { assert RecordOk(jobs, s, p); }
    if |jobs| > 0 { SumNonNegative(Lefts(s.procs), 0); }
  }

  lemma {:induction false} TogoFalls(jobs: seq<Job>, k: nat)
    ensures Ticks(jobs, k).completed >= |jobs| || Togo(jobs, Ticks(jobs, k)) <= Togo(jobs, Start(jobs)) - k
  {
    hide Next, TickInv, Togo;
    if k > 0 {
      TogoFalls(jobs, k - 1);
      AllTicks(jobs, k - 1);
      if Ticks(jobs, k - 1).completed < |jobs| { NextWorks(jobs, Ticks(jobs, k - 1)); }
    }
  }

  /** Iterations that are enough: one per unit of work and one per unit of time before the last arrival. */
  ghost function Enough(jobs: seq<Job>): nat
    requires Positive(jobs)
  {
    StartInv(jobs);
    TogoNonNegative(jobs, Start(jobs));
    Togo(jobs, Start(jobs)) + 1
  }

  /** The simulation of process p, whose burst is not positive, never reports it complete. */
  lemma {:induction false} NeverCompletes(jobs: seq<Job>, p: nat, k: nat)
    requires p < |jobs| && jobs[p].burst <= 0
    ensures Unfinished(Ticks(jobs, k), p) && Ticks(jobs, k).completed < |jobs|
  {
    hide Next, Unfinished, Shape;
    if k == 0 {
      StartUnfinished(jobs, p);
    } else {
      NeverCompletes(jobs, p, k - 1);
      NextUnfinished(jobs, Ticks(jobs, k - 1), p);
    }
  }

  /** No work is left for p, and yet it is not completed. */
  ghost predicate Unfinished(s: Tick, p: nat) {
    && p < |s.procs| && s.procs[p].remaining <= 0
    && (p in multiset(s.waiting) || p in multiset(s.heap) || s.current == Some(p))
  }

  lemma StartUnfinished(jobs: seq<Job>, p: nat)
    requires p < |jobs| && jobs[p].burst <= 0
    ensures Unfinished(Start(jobs), p) && Start(jobs).completed < |jobs|
  {
    assert Start(jobs).waiting[p] == p;
  }

  lemma AdmittedUnfinished(jobs: seq<Job>, s: Tick, p: nat)
    requires Shape(jobs, s) && Unfinished(s, p)
    ensures Shape(jobs, Admitted(jobs, s)) && Unfinished(Admitted(jobs, s), p)
  {
    hide HeapOrdered, Arrived;
    ArrivedMoves(jobs, s.now, s.waiting, s.heap, 0);
    var s1 := Admitted(jobs, s);
    if s.current != Some(p) {
      assert p in multiset(s.waiting) + multiset(s.heap);
      assert p in multiset(s1.waiting) + multiset(s1.heap);
    }
  }

  lemma PickUnfinished(jobs: seq<Job>, s: Tick, p: nat)
    requires Shape(jobs, s) && Unfinished(s, p) && s.current.None? && |s.heap| > 0 && s.heap[0] < |s.procs|
    ensures Unfinished(Pick(jobs, s), p)
  {
    hide HeapOrdered, AfterExtract;
    ExtractKeepsHeap(jobs, s.heap);
    if p !in multiset(s.waiting) && p != s.heap[0] {
      assert p in multiset(AfterExtract(jobs, s.heap)) + multiset{s.heap[0]};
    }
  }

  /** Somebody waiting, ready or running is not completed. */
  lemma UnfinishedIncomplete(jobs: seq<Job>, s: Tick, p: nat)
    requires Shape(jobs, s) && Unfinished(s, p)
    ensures s.completed < |jobs|
  {
    hide HeapOrdered;
    if p in multiset(s.waiting) { assert p in s.waiting; } else if p in multiset(s.heap) { assert p in s.heap; }
  }

  lemma NextUnfinished(jobs: seq<Job>, s: Tick, p: nat)
    requires Shape(jobs, s) && Unfinished(s, p)
    ensures Unfinished(Next(jobs, s), p) && Next(jobs, s).completed < |jobs|
  {
    hide HeapOrdered, Admitted, Pick, AfterExtract;
    NextShape(jobs, s);
    AdmittedUnfinished(jobs, s, p);
    var s1 := Admitted(jobs, s);
    if s1.current.None? && |s1.heap| > 0 {
      PickShape(jobs, s1);
      PickUnfinished(jobs, s1, p);
    }
    UnfinishedIncomplete(jobs, Next(jobs, s), p);
  }

  /** The simulation ends iff every process has a positive burst. */
  lemma EndsIffPositive(jobs: seq<Job>)
    ensures (exists k: nat :: Ticks(jobs, k).completed >= |jobs|) <==> Positive(jobs)
  {
    if Positive(jobs) {
      var k := Enough(jobs);
      TogoFalls(jobs, k);
      AllTicks(jobs, k);
      TogoNonNegative(jobs, Ticks(jobs, k));
      assert Ticks(jobs, k).completed >= |jobs|;
    } else {
      var p :| 0 <= p < |jobs| && jobs[p].burst <= 0;
      forall k: nat ensures Ticks(jobs, k).completed < |jobs| { NeverCompletes(jobs, p, k); }
    }
  }

  /** When it ends, every process has been dispatched exactly once and has run its whole burst from
      there without interruption. */
  lemma EveryProcessServed(jobs: seq<Job>, k: nat, p: nat)
    requires Ticks(jobs, k).completed >= |jobs| && p < |jobs|
    ensures var s := Ticks(jobs, k);
      && Dispatches(s.log, p) == 1 && s.procs[p].remaining == 0
      && s.procs[p].finish == s.procs[p].start + jobs[p].burst
      && forall i :: 0 <= i < |s.log| && s.log[i].pid == p ==> s.procs[p].start == s.log[i].from
  {
    AllTicks(jobs, k);
    assert RecordOk(jobs, Ticks(jobs, k), p);
  }
}
