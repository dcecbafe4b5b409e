/** The tick-driven SJF simulation: every iteration moves the processes that have arrived from the
    waiting array into the heap, picks a process if the CPU is idle, and runs it for one time unit. */
module TickSjf {
  import opened Wrappers
  import opened Processes
  import opened HeapModel
  import opened Sums

  /** A dispatch: process pid gets the CPU at time from. */
  datatype Slot = Slot(pid: nat, from: int)

  datatype Tick = Tick(
    procs: seq<Proc>, now: int, waiting: seq<nat>, heap: seq<nat>, current: Option<nat>, completed: int, log: seq<Slot>)

  /** Removal by overwriting with the last entry. */
  function SwapOut(w: seq<nat>, i: nat): (r: seq<nat>)
    requires i < |w|
    ensures |r| == |w| - 1
  {
    w[i := w[|w| - 1]][..|w| - 1]
  }

  /** `check_arrivals_heap` from index i on. */
  function Arrived(jobs: seq<Job>, now: int, waiting: seq<nat>, heap: seq<nat>, i: nat): (r: (seq<nat>, seq<nat>))
    requires i <= |waiting| && Indices(jobs, waiting)
    decreases |waiting| - i
  {
    if i == |waiting| then (waiting, heap)
    else if jobs[waiting[i]].arrival <= now then
      Arrived(jobs, now, SwapOut(waiting, i), Insert(jobs, heap, waiting[i]), i)
    else Arrived(jobs, now, waiting, heap, i + 1)
  }

  /** `current_process` becomes the heap's minimum. */
  function Pick(jobs: seq<Job>, s: Tick): Tick
    requires |s.heap| > 0 && s.heap[0] < |s.procs|
  {
    var p := s.heap[0];
    var pr := s.procs[p];
    s.(heap := AfterExtract(jobs, s.heap),
       current := Some(p),
       procs := s.procs[p := if pr.start == -1 then pr.(start := s.now) else pr],
       log := s.log + [Slot(p, s.now)])
  }

  /** One time unit of the current process. */
  function RunUnit(s: Tick): Tick
    requires s.current.Some? && s.current.value < |s.procs|
  {
    var p := s.current.value;
    var pr := s.procs[p].(remaining := s.procs[p].remaining - 1);
    if pr.remaining == 0 then
      s.(procs := s.procs[p := pr.(finish := s.now + 1)],
         now := s.now + 1, current := None, completed := s.completed + 1)
    else
      s.(procs := s.procs[p := pr], now := s.now + 1)
  }

  /** What every iteration keeps, whatever the burst times: the waiting array and the heap hold process
      indices, and the processes are those waiting, those in the heap, the current one and the completed. */
  ghost predicate Shape(jobs: seq<Job>, s: Tick) {
    && |s.procs| == |jobs|
    && Indices(jobs, s.waiting) && Indices(jobs, s.heap) && HeapOrdered(jobs, s.heap)
    && (s.current.Some? ==> s.current.value < |jobs|)
    && |s.waiting| + |s.heap| + (if s.current.Some? then 1 else 0) + s.completed == |jobs|
    && s.now >= 0 && s.completed >= 0
  }

  /** The arrivals of this instant have been moved into the heap. */
  function Admitted(jobs: seq<Job>, s: Tick): Tick
    requires Indices(jobs, s.waiting)
  {
    var r := Arrived(jobs, s.now, s.waiting, s.heap, 0);
    s.(waiting := r.0, heap := r.1)
  }

  lemma SwapOutMultiset(w: seq<nat>, i: nat)
    requires i < |w|
    ensures multiset(w) == multiset(SwapOut(w, i)) + multiset{w[i]}
    ensures forall k :: 0 <= k < |w| - 1 ==> SwapOut(w, i)[k] == if k == i then w[|w| - 1] else w[k]
  {
    var g := w[i := w[|w| - 1]];
    assert g == SwapOut(w, i) + [w[|w| - 1]];
    assert multiset(g) == multiset(w) - multiset{w[i]} + multiset{w[|w| - 1]};
  }

  /** One step of the scan. */
  lemma ArrivedStep(jobs: seq<Job>, now: int, waiting: seq<nat>, heap: seq<nat>, i: nat)
    requires i < |waiting| && Indices(jobs, waiting)
    ensures Indices(jobs, SwapOut(waiting, i))
    ensures Arrived(jobs, now, waiting, heap, i) ==
      if jobs[waiting[i]].arrival <= now then Arrived(jobs, now, SwapOut(waiting, i), Insert(jobs, heap, waiting[i]), i)
      else Arrived(jobs, now, waiting, heap, i + 1)
  {
    SwapOutMultiset(waiting, i);
  }

  lemma ArrivedDone(jobs: seq<Job>, now: int, waiting: seq<nat>, heap: seq<nat>)
    requires Indices(jobs, waiting)
    ensures Arrived(jobs, now, waiting, heap, |waiting|) == (waiting, heap)
  {
  }

  /** The scan moves exactly the processes that have arrived, and keeps the heap a heap. */
  lemma {:induction false} ArrivedMoves(jobs: seq<Job>, now: int, waiting: seq<nat>, heap: seq<nat>, i: nat)
    requires i <= |waiting| && Indices(jobs, waiting) && Indices(jobs, heap) && HeapOrdered(jobs, heap)
    requires forall k :: 0 <= k < i ==> jobs[waiting[k]].arrival > now
    ensures var (w, h) := Arrived(jobs, now, waiting, heap, i);
      && Indices(jobs, w) && Indices(jobs, h) && HeapOrdered(jobs, h)
      && multiset(w) + multiset(h) == multiset(waiting) + multiset(heap)
      && |w| + |h| == |waiting| + |heap| && |w| <= |waiting|
      && (forall k :: 0 <= k < |w| ==> jobs[w[k]].arrival > now)
      && (forall q :: q in multiset(h) ==>
            q in multiset(heap) || (q < |jobs| && q in multiset(waiting) && jobs[q].arrival <= now))
    decreases |waiting| - i
  {
    hide HeapOrdered, Insert, SwapOut;
    if i < |waiting| {
      var p := waiting[i];
      if jobs[p].arrival <= now {
        SwapOutMultiset(waiting, i);
        InsertKeepsHeap(jobs, heap, p);
        assert multiset(SwapOut(waiting, i)) + multiset(Insert(jobs, heap, p)) == multiset(waiting) + multiset(heap);
        ArrivedMoves(jobs, now, SwapOut(waiting, i), Insert(jobs, heap, p), i);
      } else {
        ArrivedMoves(jobs, now, waiting, heap, i + 1);
      }
    }
  }

  lemma AdmittedShape(jobs: seq<Job>, s: Tick)
    requires Shape(jobs, s)
    ensures Shape(jobs, Admitted(jobs, s))
  {
    ArrivedMoves(jobs, s.now, s.waiting, s.heap, 0);
  }

  /** One iteration of the simulation loop. */
  ghost function Next(jobs: seq<Job>, s: Tick): Tick
    requires Shape(jobs, s)
  {
    AdmittedShape(jobs, s);
    var s1 := Admitted(jobs, s);
    if s1.current.Some? then RunUnit(s1)
    else if |s1.heap| == 0 then s1.(now := s1.now + 1)
    else RunUnit(Pick(jobs, s1))
  }

  lemma PickShape(jobs: seq<Job>, s: Tick)
    requires Shape(jobs, s) && s.current.None? && |s.heap| > 0
    ensures s.heap[0] < |s.procs| && Shape(jobs, Pick(jobs, s))
  {
    ExtractKeepsHeap(jobs, s.heap);
  }

  lemma NextShape(jobs: seq<Job>, s: Tick)
    requires Shape(jobs, s)
    ensures Shape(jobs, Next(jobs, s))
  {
    AdmittedShape(jobs, s);
    var s1 := Admitted(jobs, s);
    if s1.current.None? && |s1.heap| > 0 { PickShape(jobs, s1); }
  }

  function Start(jobs: seq<Job>): Tick {
    Tick(InitProcs(jobs), 0, seq(|jobs|, i => i), [], None, 0, [])
  }

  /** The state after k iterations, or the final one if the loop has ended before. */
  ghost function Ticks(jobs: seq<Job>, k: nat): (s: Tick)
    ensures Shape(jobs, s)
  {
    if k == 0 then Start(jobs) else
      var s := Ticks(jobs, k - 1);
      if s.completed >= |jobs| then s else NextShape(jobs, s); Next(jobs, s)
  }
}
