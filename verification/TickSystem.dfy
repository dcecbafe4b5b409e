/** The tick-driven SJF simulation as a program: an array min-heap sifted in place, a waiting array with
    swap-with-last removal, and the loop over time units. */
module TickSystem {
  import opened Wrappers
  import opened Processes
  import opened HeapModel
  import opened TickSjf
  import opened TickTheorems

  const MAX_PROCESSES := 256

  class MinHeap {
    const data: array<nat>
    var size: int

    ghost predicate Valid()
      reads this
    {
      data.Length == MAX_PROCESSES && 0 <= size <= data.Length
    }

    ghost function Content(): (s: seq<nat>)
      requires Valid()
      reads this, data
      ensures |s| == size
    {
      data[..size]
    }

    constructor ()
      ensures Valid() && fresh(data) && Content() == []
    {
      data := new nat[MAX_PROCESSES](_ => 0);
      size := 0;
    }

    /** `heapify_up`: swaps the entry at `index` with its parent until the parent comes first. */
    method HeapifyUp(jobs: seq<Job>, index: nat)
      requires index < data.Length
      modifies data
      ensures data[..index + 1] == SiftUp(jobs, old(data[..index + 1]), index)
      ensures data[index + 1..] == old(data[index + 1..])
    {
      var i := index;
      while i > 0
        invariant 0 <= i <= index
        invariant SiftUp(jobs, data[..index + 1], i) == SiftUp(jobs, old(data[..index + 1]), index)
        invariant data[index + 1..] == old(data[index + 1..])
        decreases i
      {
        var parent := (i - 1) / 2;
        if Le(jobs, data[parent], data[i]) {
          break;
        }
        ghost var h := data[..index + 1];
        data[parent], data[i] := data[i], data[parent];
        assert data[..index + 1] == Swap(h, parent, i);
        i := parent;
      }
    }

    /** `heapify_down`: swaps the entry at `index` with its first child until no child comes first. */
    method HeapifyDown(jobs: seq<Job>, index: nat)
      requires Valid() && (index < size || size == 0)
      modifies data
      ensures Content() == if size == 0 then [] else SiftDown(jobs, old(Content()), index)
    {
      hide SiftDown;
      var i := index;
      while true
        invariant size > 0 ==> i < size && SiftDown(jobs, Content(), i) == SiftDown(jobs, old(Content()), index)
        decreases size - i
      {
        ghost var h := Content();
        if size > 0 { SiftDownStep(jobs, h, i); }
        var left, right := 2 * i + 1, 2 * i + 2;
        var smallest := i;
        if left < size && Lt(jobs, data[left], data[smallest]) {
          smallest := left;
        }
        if right < size && Lt(jobs, data[right], data[smallest]) {
          smallest := right;
        }
        assert size > 0 ==> smallest == Smallest(jobs, h, i);
        if smallest == i {
          break;
        }
        data[i], data[smallest] := data[smallest], data[i];
        assert Content() == Swap(h, i, smallest);
        i := smallest;
      }
    }

    /** `heap_insert`. */
    method Insert(jobs: seq<Job>, p: nat)
      requires Valid() && size < data.Length
      modifies this, data
      ensures Valid() && Content() == HeapModel.Insert(jobs, old(Content()), p)
    {
      data[size] := p;
      assert data[..size + 1] == old(Content()) + [p];
      HeapifyUp(jobs, size);
      size := size + 1;
    }

    /** `heap_extract_min`. */
    method ExtractMin(jobs: seq<Job>) returns (p: nat)
      requires Valid() && size > 0
      modifies this, data
      ensures Valid() && p == old(Content())[0] && Content() == AfterExtract(jobs, old(Content()))
    {
      p := data[0];
      size := size - 1;
      data[0] := data[size];
      assert data[..size] == Refilled(old(Content()));
      HeapifyDown(jobs, 0);
    }
  }

  class TickScheduler {
    const jobs: seq<Job>
    const procs: array<Proc>
    const waiting: array<nat>
    const heap: MinHeap
    var notInserted: int
    var now: int
    var current: Option<nat>
    var completed: int
    ghost var log: seq<Slot>

    ghost predicate Valid()
      reads this, procs, waiting, heap, heap.data
    {
      && heap.Valid() && waiting != heap.data
      && waiting.Length == |jobs| <= MAX_PROCESSES && 0 <= notInserted <= |jobs|
    }

    ghost function View(): Tick
      requires Valid()
      reads this, procs, waiting, heap, heap.data
    {
      Tick(procs[..], now, waiting[..notInserted], heap.Content(), current, completed, log)
    }

    constructor (jobs: seq<Job>)
      requires |jobs| <= MAX_PROCESSES
      ensures this.jobs == jobs && Valid() && View() == Start(jobs)
      ensures fresh(procs) && fresh(waiting) && fresh(heap) && fresh(heap.data)
    {
      this.jobs := jobs;
      procs := new Proc[|jobs|](p requires 0 <= p < |jobs| => InitProcs(jobs)[p]);
      waiting := new nat[|jobs|](i => i);
      heap := new MinHeap();
      notInserted, now, completed := |jobs|, 0, 0;
      current := None;
      log := [];
      new;
      assert procs[..] == InitProcs(jobs);
      assert waiting[..notInserted] == seq(|jobs|, i => i);
    }

    /** `inserting_process_heap`. */
    method InsertingProcess(index: nat)
      requires Valid() && index < notInserted && heap.size < MAX_PROCESSES
      modifies this`notInserted, waiting, heap, heap.data
      ensures Valid()
      ensures View() == old(View()).(waiting := SwapOut(old(View()).waiting, index),
        heap := HeapModel.Insert(jobs, old(View()).heap, old(View()).waiting[index]))
    {
      var holder := waiting[index];
      waiting[index] := waiting[notInserted - 1];
      notInserted := notInserted - 1;
      assert waiting[..notInserted] == SwapOut(old(View()).waiting, index);
      heap.Insert(jobs, holder);
    }

    /** `check_arrivals_heap`: the waiting processes that have arrived move into the heap. */
    method CheckArrivals()
      requires Valid() && Shape(jobs, View())
      modifies this`notInserted, waiting, heap, heap.data
      ensures Valid() && View() == Admitted(jobs, old(View()))
    {
      hide Arrived, SwapOut, HeapModel.Insert, HeapOrdered;
      ghost var s := View();
      var i := 0;
      while i < notInserted
        invariant Valid() && 0 <= i <= notInserted && Indices(jobs, View().waiting)
        invariant View() == s.(waiting := View().waiting, heap := View().heap)
        invariant notInserted + heap.size <= |jobs|
        invariant Arrived(jobs, now, View().waiting, View().heap, i) == Arrived(jobs, now, s.waiting, s.heap, 0)
        decreases notInserted - i
      {
        ArrivedStep(jobs, now, View().waiting, View().heap, i);
        assert View().waiting[i] == waiting[i];
        if jobs[waiting[i]].arrival <= now {
          InsertingProcess(i);
        } else {
          i := i + 1;
        }
      }
      ArrivedDone(jobs, now, View().waiting, View().heap);
    }

    /** The heap's minimum becomes the current process. */
    method PickNext()
      requires Valid() && heap.size > 0 && View().heap[0] < procs.Length
      modifies this`current, this`log, procs, heap, heap.data
      ensures Valid() && View() == Pick(jobs, old(View()))
    {
      hide AfterExtract;
      ghost var s := View();
      var min := heap.ExtractMin(jobs);
      current := Some(min);
      log := log + [Slot(min, now)];
      if procs[min].start == -1 {
        procs[min] := procs[min].(start := now);
      }
      assert procs[..] == Pick(jobs, s).procs;
    }

    /** One time unit of the current process. */
    method RunCurrent()
      requires Valid() && current.Some? && current.value < procs.Length
      modifies this`now, this`current, this`completed, procs
      ensures Valid() && View() == RunUnit(old(View()))
    {
      ghost var s := View();
      var p := current.value;
      procs[p] := procs[p].(remaining := procs[p].remaining - 1);
      now := now + 1;
      if procs[p].remaining == 0 {
        procs[p] := procs[p].(finish := now);
        current := None;
        completed := completed + 1;
      }
      assert procs[..] == RunUnit(s).procs;
    }

    /** The body of the loop in `schedule_sjf`. */
    method TickOnce()
      requires Valid() && Shape(jobs, View())
      modifies this, procs, waiting, heap, heap.data
      ensures Valid() && View() == Next(jobs, old(View()))
    {
      hide Admitted, RunUnit, HeapOrdered, AfterExtract;
      AdmittedShape(jobs, View());
      CheckArrivals();
      if current.None? {
        if heap.size == 0 {
          now := now + 1;
          return;
        }
        PickShape(jobs, View());
        PickNext();
      }
      RunCurrent();
    }

    /** `schedule_sjf`: ends when all processes are complete, which needs positive bursts. */
    method ScheduleSjf()
      requires Valid() && Positive(jobs) && View() == Start(jobs)
      modifies this, procs, waiting, heap, heap.data
      ensures Valid() && exists k: nat :: View() == Ticks(jobs, k) && completed >= |jobs|
      ensures procs.Length == |jobs|
      ensures forall p :: 0 <= p < |jobs| ==>
        procs[p].remaining == 0 && procs[p].finish == procs[p].start + jobs[p].burst && Dispatches(log, p) == 1
      ensures forall i :: 0 <= i < |log| ==> Greedy(jobs, log, i)
    {
      hide Next, HeapOrdered, Greedy, RecordOk, Togo;
      ghost var k := 0;
      while completed < |jobs|
        invariant Valid() && View() == Ticks(jobs, k)
        decreases Togo(jobs, View())
      {
        ghost var s := View();
        AllTicks(jobs, k);
        NextWorks(jobs, s);
        TogoNonNegative(jobs, s);
        TickOnce();
        k := k + 1;
        assert View() == Ticks(jobs, k);
      }
      assert |View().procs| == |jobs|;
      forall p | 0 <= p < |jobs|
        ensures procs[p].remaining == 0 && Dispatches(log, p) == 1
        ensures procs[p].finish == procs[p].start + jobs[p].burst
      {
        EveryProcessServed(jobs, k, p);
        assert View().procs[p] == procs[p];
      }
      AllTicks(jobs, k);
    }
  }
}
