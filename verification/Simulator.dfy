/** The simulator as a program: event handlers that update the process table, the event list and the
    ready queue in place, each proved to do what one step of the model does. */
module Simulator {
  import opened Wrappers
  import opened Processes
  import opened SchedModel
  import opened SchedInv
  import opened SchedRun
  import opened SchedTheorems
  import opened SchedQueues
  import opened MlfqLists

  class Simulation {
    const cfg: Config
    const procs: array<Proc>
    const queue: EventQueue
    const waiting: ProcessQueue
    var running: Option<nat>
    var now: int
    ghost var trace: seq<Seg>
    ghost var hist: seq<Hist>

    ghost function View(): State
      reads this, procs, queue, waiting.Self()
    {
      State(procs[..], queue.events, waiting.View(), running, now, trace, hist)
    }

    ghost predicate Valid()
      reads this, procs, queue, waiting.Self(), waiting.Repr()
    {
      && procs.Length == |cfg.jobs| == |hist|
      && queue.Valid() && waiting.Valid() && waiting.For(cfg.policy) && Fits(cfg.policy, waiting.View())
      && this !in waiting.Repr() && procs !in waiting.Repr() && queue !in waiting.Repr()
    }

    /** `initialize_events` on freshly constructed processes. */
    constructor (cfg: Config)
      requires ConfigOk(cfg)
      ensures this.cfg == cfg && Valid() && View() == Init(cfg)
      ensures fresh(procs) && fresh(queue) && fresh(waiting.Repr())
    {
      this.cfg := cfg;
      procs := new Proc[|cfg.jobs|](p requires 0 <= p < |cfg.jobs| => InitProcs(cfg.jobs)[p]);
      queue := new EventQueue();
      var ready := NewQueue(cfg.policy);
      waiting := ready;
      running, now := None, 0;
      trace := [];
      hist := seq(|cfg.jobs|, _ => Hist(Future, 0, 0));
      new;
      assert procs[..] == InitProcs(cfg.jobs);
      InitializeEvents();
    }

    method InitializeEvents()
      requires queue.Valid() && queue.events == [] && procs.Length == |cfg.jobs| && procs[..] == InitProcs(cfg.jobs)
      modifies queue
      ensures queue.Valid() && queue.events == Insertions(ByRemaining(cfg.policy), procs[..], procs.Length)
    {
      hide InsertEvent, Sorted, EventCount;
      var i := 0;
      while i < procs.Length
        invariant 0 <= i <= procs.Length
        invariant queue.Valid() && queue.events == Insertions(ByRemaining(cfg.policy), procs[..], i)
      {
        InsertionsOk(ByRemaining(cfg.policy), procs[..], i);
        queue.Enqueue(Event(procs[i].arrival, Arrival, i), ByRemaining(cfg.policy), procs);
        i := i + 1;
      }
    }

    // ----- scheduling functions -----

    /** `schedule_fcfs` and `schedule_sjf`. */
    method ScheduleToEnd(p: nat) returns (t: int)
      requires p < procs.Length && RunsToEnd(cfg.policy)
      modifies procs
      ensures t == old(procs[p]).remaining
      ensures procs[..] == old(procs[..])[p := Scheduled(cfg.policy, old(procs[p]), now, t)]
    {
      var pr := procs[p];
      pr := pr.(start := now);
      pr := pr.(finish := pr.start + pr.burst);
      pr := pr.(response := pr.start - pr.arrival);
      pr := pr.(waiting := pr.start - pr.arrival);
      pr := pr.(turnaround := pr.finish - pr.arrival);
      procs[p] := pr;
      t := pr.remaining;
    }

    /** `schedule_stcf`. */
    method ScheduleStcf(p: nat) returns (t: int)
      requires p < procs.Length && cfg.policy.STCF? && queue.Valid()
      modifies procs
      ensures t == RunTime(cfg.policy, old(View()), p)
      ensures procs[..] == old(procs[..])[p := Scheduled(cfg.policy, old(procs[p]), now, t)]
    {
      var pr := procs[p];
      if pr.start == -1 {
        pr := pr.(start := now, response := now - pr.arrival);
      }
      var next := queue.PeekNextArrival();
      var untilArrival := pr.remaining;
      if next.Some? && next.value.time > now {
        untilArrival := next.value.time - now;
      }
      if pr.remaining <= untilArrival {
        t := pr.remaining;
      } else {
        t := untilArrival;
      }
      if t == pr.remaining {
        pr := pr.(finish := now + t);
        pr := pr.(turnaround := pr.finish - pr.arrival);
        pr := pr.(waiting := pr.turnaround - pr.burst);
      }
      procs[p] := pr;
    }

    /** `schedule_rr`. */
    method ScheduleRr(p: nat) returns (t: int)
      requires p < procs.Length && cfg.policy.RR?
      modifies procs
      ensures t == RunTime(cfg.policy, old(View()), p)
      ensures t <= cfg.policy.quantum && t <= old(procs[p]).remaining
      ensures t == cfg.policy.quantum || t == old(procs[p]).remaining
      ensures procs[..] == old(procs[..])[p := Scheduled(cfg.policy, old(procs[p]), now, t)]
    {
      var pr := procs[p];
      if pr.remaining <= cfg.policy.quantum {
        t := pr.remaining;
      } else {
        t := cfg.policy.quantum;
      }
      if pr.start == -1 {
        pr := pr.(start := now);
      }
      if t == pr.remaining {
        pr := pr.(finish := now + t);
      }
      procs[p] := pr;
    }

    /** `schedule_mlfq`. */
    method ScheduleMlfq(p: nat) returns (t: int)
      requires p < procs.Length && cfg.policy.MLFQ?
      modifies procs
      ensures t == RunTime(cfg.policy, old(View()), p)
      ensures t <= old(procs[p]).remaining
      ensures var level := old(procs[p]).priority;
        0 <= level < |cfg.policy.levels| ==>
          var q := cfg.policy.levels[level].quantum;
          (q != -1 ==> t <= q) && (t == old(procs[p]).remaining || (q != -1 && t == q))
      ensures procs[..] == old(procs[..])[p := Scheduled(cfg.policy, old(procs[p]), now, t)]
    {
      var pr := procs[p];
      var quantum := Quantum(cfg.policy, pr.priority);
      if quantum == -1 {
        t := pr.remaining;
      } else if pr.remaining <= quantum {
        t := pr.remaining;
      } else {
        t := quantum;
      }
      if pr.start == -1 {
        pr := pr.(start := now);
      }
      pr := pr.(inQueue := pr.inQueue + t);
      if t == pr.remaining {
        pr := pr.(finish := now + t);
        pr := pr.(turnaround := pr.finish - pr.arrival);
        pr := pr.(waiting := pr.turnaround - pr.burst);
      }
      procs[p] := pr;
    }

    method Schedule(p: nat) returns (t: int)
      requires p < procs.Length && queue.Valid()
      modifies procs
      ensures t == RunTime(cfg.policy, old(View()), p)
      ensures procs[p].remaining == old(procs[p]).remaining
      ensures procs[..] == old(procs[..])[p := Scheduled(cfg.policy, old(procs[p]), now, t)]
    {
      match cfg.policy {
        case FCFS => t := ScheduleToEnd(p);
        case SJF => t := ScheduleToEnd(p);
        case STCF => t := ScheduleStcf(p);
        case RR(_) => t := ScheduleRr(p);
        case MLFQ(_) => t := ScheduleMlfq(p);
      }
    }

    // ----- dispatching -----

    /** Runs the scheduling function and charges the slice it grants. */
    method ChargeSlice(p: nat, guard: bool) returns (t: int)
      requires Valid() && p < procs.Length
      modifies procs
      ensures t == RunTime(cfg.policy, old(View()), p)
      ensures procs[..] == Dispatch(cfg.policy, old(View()), p, guard).procs
    {
      hide RunTime, Scheduled, InsertEvent, Flat, Fits;
      ghost var s := View();
      t := Schedule(p);
      procs[p] := procs[p].(remaining := procs[p].remaining - t);
      if guard && procs[p].remaining == 0 && procs[p].finish == -1 {
        var pr := procs[p].(finish := now + t);
        pr := pr.(turnaround := pr.finish - pr.arrival);
        procs[p] := pr.(waiting := pr.turnaround - pr.burst);
      }
      assert procs[..] == Dispatch(cfg.policy, s, p, guard).procs;
    }

    /** The tail of every handler: charge the slice and plan the event that ends it. */
    method StartSlice(p: nat, guard: bool)
      requires Valid() && running == Some(p) && p < procs.Length
      requires forall i :: 0 <= i < |queue.events| ==> queue.events[i].pid < procs.Length
      modifies this`trace, this`hist, procs, queue
      ensures Valid() && View() == Dispatch(cfg.policy, old(View()), p, guard)
    {
      hide RunTime, Charge, Guarded, InsertEvent, Flat, Fits;
      ghost var s := View();
      var t := ChargeSlice(p, guard);
      DispatchFrame(cfg.policy, s, p, guard);
      var kind := if procs[p].remaining == 0 then Completion else Expire;
      queue.Enqueue(Event(now + t, kind, p), ByRemaining(cfg.policy), procs);
      trace := trace + [Seg(p, procs[p].priority, now, now + t)];
      hist := hist[p := Hist(OnCpu, hist[p].since, hist[p].waited + now - hist[p].since)];
    }

    /** Takes the next process from the ready queue, if there is one, and starts its slice. */
    method ServeNext(guard: bool)
      requires Valid() && Core(cfg, View(), {}) && running.None?
      modifies this`running, this`trace, this`hist, procs, queue, waiting.Repr()
      ensures fresh(waiting.Repr() - old(waiting.Repr()))
      ensures Valid()
      ensures !Empty(old(View()).ready) ==> Head(old(View()).ready) < |old(View()).procs|
      ensures View() == Serve(cfg.policy, old(View()), guard)
    {
      hide Core, Dispatch, Head, Rest, Empty;
      ghost var s := View();
      EmptyLength(waiting.View());
      if waiting.Size() > 0 {
        DequeueCore(cfg, s, {});
        EventMembers(cfg, s, {});
        running := waiting.Dequeue();
        DispatchIgnoresRunning(cfg.policy, s.(ready := Rest(s.ready)), running, running.value, guard);
        StartSlice(running.value, guard);
      }
    }

    // ----- event handlers -----

    /** STCF: the running process's event is cancelled and it goes back to the ready queue. */
    method Preempt(r: nat)
      requires Valid() && running == Some(r) && r < procs.Length && procs[r].priority >= 0
      requires forall i :: 0 <= i < |Flat(waiting.View())| ==> Flat(waiting.View())[i] < procs.Length
      modifies this`hist, procs, queue, waiting.Repr()
      ensures fresh(waiting.Repr() - old(waiting.Repr()))
      ensures Valid() && View() == Preempted(cfg.policy, old(View()), r).(running := Some(r))
    {
      hide RemoveEvent;
      queue.RemoveEventForProcess(r);
      hist := hist[r := hist[r].(phase := Waiting, since := now)];
      waiting.Enqueue(cfg.policy, procs, r);
    }

    /** The arriving process p preempts r and starts its slice. */
    method TakeOver(p: nat, r: nat)
      requires Valid() && running == Some(r) && r < procs.Length && procs[r].priority >= 0 && p < procs.Length
      requires forall i :: 0 <= i < |Flat(waiting.View())| ==> Flat(waiting.View())[i] < procs.Length
      requires forall i :: 0 <= i < |queue.events| ==> queue.events[i].pid < procs.Length
      modifies this`running, this`trace, this`hist, procs, queue, waiting.Repr()
      ensures fresh(waiting.Repr() - old(waiting.Repr()))
      ensures Valid() && View() == Dispatch(cfg.policy, Preempted(cfg.policy, old(View()), r), p, false)
    {
      hide Dispatch, SchedModel.Enqueue, Flat;
      ghost var s := View();
      Preempt(r);
      running := Some(p);
      DispatchIgnoresRunning(cfg.policy, Preempted(cfg.policy, s, r), running, p, false);
      StartSlice(p, false);
    }

    method HandleArrival(p: nat, ghost s: State)
      requires Valid() && Inv(cfg, s) && |s.events| > 0 && s.events[0].kind.Arrival? && s.events[0].pid == p
      requires View() == Pop(s)
      modifies this`running, this`trace, this`hist, procs, queue, waiting.Repr()
      ensures fresh(waiting.Repr() - old(waiting.Repr()))
      ensures Valid() && View() == OnArrival(cfg, s)
    {
      hide Core, Inv, Dispatch, SchedModel.Enqueue, Flat, Preempted, LevelOf;
      ArrivalReady(cfg, s, p);
      hist := hist[p := hist[p].(phase := Waiting, since := now)];
      ghost var s1 := View();
      assert s1 == Admit(Pop(s), p);
      if running.None? {
        running := Some(p);
        DispatchIgnoresRunning(cfg.policy, s1, running, p, false);
        StartSlice(p, false);
      } else if cfg.policy.STCF? && procs[p].remaining < procs[running.value].remaining {
        CancelledIsDue(cfg, s);
        PreemptCore(cfg, s1, {p}, running.value);
        TakeOver(p, running.value);
      } else {
        waiting.Enqueue(cfg.policy, procs, p);
        assert View() == Enter(cfg.policy, s1, p);
      }
    }

    method HandleCompletion(p: nat, ghost s: State)
      requires Valid() && Inv(cfg, s) && |s.events| > 0 && s.events[0].kind.Completion? && s.events[0].pid == p
      requires View() == Pop(s)
      modifies this`running, this`trace, this`hist, procs, queue, waiting.Repr()
      ensures fresh(waiting.Repr() - old(waiting.Repr()))
      ensures Valid() && View() == OnCompletion(cfg, s)
    {
      PopCompletionCore(cfg, s);
      var r := running.value;
      procs[r] := Guarded(procs[r], now);
      running := None;
      hist := hist[r := hist[r].(phase := Finished)];
      assert View() == Leave(Pop(s));
      ServeNext(false);
    }

    /** `mlfq_check_demotion`: an exhausted allotment moves the running process one level down. */
    method CheckDemotion(r: nat) returns (demoted: bool)
      requires Valid() && cfg.policy.MLFQ? && r < procs.Length
      requires 0 <= procs[r].priority < |cfg.policy.levels| && ReadyCount(View().ready, r) == 0
      modifies procs, waiting.Repr()
      ensures fresh(waiting.Repr() - old(waiting.Repr()))
      ensures Valid() && demoted == Demotes(cfg.policy, old(procs[r]))
      ensures var pr := old(procs[r]);
        var allotment := cfg.policy.levels[pr.priority].allotment;
        demoted <==> allotment != -1 && pr.inQueue >= allotment && pr.priority + 1 < |cfg.policy.levels|
      ensures !demoted ==> procs[..] == old(procs[..]) && waiting.View() == old(waiting.View())
      ensures demoted ==>
        && procs[..] == old(procs[..])[r := Demoted(old(procs[r]))]
        && waiting.View() == SchedModel.Enqueue(cfg.policy, procs[..], old(waiting.View()), r)
    {
      var level := procs[r].priority;
      var allotment := Allotment(cfg.policy, level);
      demoted := false;
      if allotment != -1 && procs[r].inQueue >= allotment {
        var next := level + 1;
        if next >= |cfg.policy.levels| {
          next := |cfg.policy.levels| - 1;
        }
        if next != level {
          AtNoLevel(waiting.mlfq.View(), r, level);
          waiting.mlfq.MoveProcess(procs, r, next);
          demoted := true;
        }
      }
    }

    /** The preempted process goes to the round buffer, to the next level, or to the ready queue. */
    method GiveBack(r: nat)
      requires Valid() && running == Some(r) && r < procs.Length && procs[r].priority >= 0
      requires cfg.policy.MLFQ? ==> procs[r].priority < |cfg.policy.levels|
      requires ReadyCount(waiting.View(), r) == 0
      requires forall i :: 0 <= i < |Flat(waiting.View())| ==> Flat(waiting.View())[i] < procs.Length
      modifies this`running, this`hist, procs, waiting.Repr()
      ensures fresh(waiting.Repr() - old(waiting.Repr()))
      ensures Valid() && running.None? && View() == Return(cfg.policy, Yield(old(View())), r)
    {
      hide SchedModel.Enqueue, Flat, ReadyCount;
      var demoted := false;
      if cfg.policy.MLFQ? {
        demoted := CheckDemotion(r);
      }
      if cfg.policy.RR? {
        waiting.rr.Requeue(r);
      } else if !demoted {
        waiting.Enqueue(cfg.policy, procs, r);
      }
      running := None;
      hist := hist[r := hist[r].(phase := Waiting, since := now)];
    }

    method HandleQuantumExpire(p: nat, ghost s: State)
      requires Valid() && Inv(cfg, s) && |s.events| > 0 && s.events[0].kind.Expire? && s.events[0].pid == p
      requires View() == Pop(s)
      modifies this`running, this`trace, this`hist, procs, queue, waiting.Repr()
      ensures fresh(waiting.Repr() - old(waiting.Repr()))
      ensures Valid() && View() == OnExpire(cfg, s)
    {
      hide Core, Serve, Return, Empty, Head, Rest, Flat, ReadyCount, SliceEndsFirst;
      PopExpireCore(cfg, s);
      ghost var s1 := Yield(Pop(s));
      CoreSizes(cfg, s1, {p});
      InHand(cfg, s1, p);
      ReadyMembers(cfg, s1, {p});
      ReturnCore(cfg, s1, {p}, p);
      assert {p} - {p} == {};
      GiveBack(running.value);
      ServeNext(true);
    }

    // ----- the event loop -----

    method HandleNext()
      requires Valid() && Inv(cfg, View()) && queue.size > 0
      modifies this, procs, queue, waiting.Repr()
      ensures fresh(waiting.Repr() - old(waiting.Repr()))
      ensures Valid() && View() == Step(cfg, old(View()))
    {
      ghost var s := View();
      var current := queue.Dequeue();
      now := current.value.time;
      match current.value.kind {
        case Arrival => HandleArrival(current.value.pid, s);
        case Completion => HandleCompletion(current.value.pid, s);
        case Expire => HandleQuantumExpire(current.value.pid, s);
      }
    }

    /** `calculate_metrics`. */
    method CalculateMetrics()
      modifies procs
      ensures forall p :: 0 <= p < procs.Length ==> var was := old(procs[..])[p];
        procs[p] == was.(turnaround := was.finish - was.arrival,
                         waiting := was.finish - was.arrival - was.burst,
                         response := was.start - was.arrival)
    {
      var i := 0;
      while i < procs.Length
        invariant 0 <= i <= procs.Length
        invariant forall p :: 0 <= p < i ==> var was := old(procs[..])[p];
          procs[p] == was.(turnaround := was.finish - was.arrival,
                           waiting := was.finish - was.arrival - was.burst,
                           response := was.start - was.arrival)
        invariant forall p :: i <= p < procs.Length ==> procs[p] == old(procs[..])[p]
      {
        var pr := procs[i];
        pr := pr.(turnaround := pr.finish - pr.arrival);
        pr := pr.(waiting := pr.turnaround - pr.burst);
        procs[i] := pr.(response := pr.start - pr.arrival);
        i := i + 1;
      }
    }

    /** `simulate_scheduler`: handles events until none is left, then computes the metrics. */
    method Simulate()
      requires Valid() && ConfigOk(cfg) && View() == Init(cfg)
      modifies this, procs, queue, waiting.Repr()
      ensures |procs[..]| == |cfg.jobs| && trace == Run(cfg, Bound(cfg)).trace && hist == Run(cfg, Bound(cfg)).hist
      ensures |hist| == procs.Length == |cfg.jobs|
      ensures forall p :: 0 <= p < procs.Length ==> Reported(cfg.jobs[p], procs[p], trace, hist[p], p)
    {
      hide Init, Inv, Step, Bound, Ran, LastEnd, FirstStart, Reported;
      ghost var k := 0;
      while queue.size > 0
        invariant Valid() && View() == Run(cfg, k) && k <= Bound(cfg)
        invariant fresh(waiting.Repr() - old(waiting.Repr()))
        decreases Bound(cfg) - k
      {
        if k == Bound(cfg) { Terminates(cfg, k); }
        HandleNext();
        k := k + 1;
      }
      RunStays(cfg, k, Bound(cfg));
      Finals(cfg);
      assert running.None?;
      ghost var ended := procs[..];
      CalculateMetrics();
      forall p | 0 <= p < procs.Length ensures Reported(cfg.jobs[p], procs[p], trace, hist[p], p) {
        assert procs[p] == WithMetrics(ended[p]);
      }
    }
  }

  /** What the arrival handler finds. */
  lemma ArrivalReady(cfg: Config, s: State, p: nat)
    requires Inv(cfg, s) && |s.events| > 0 && s.events[0].kind.Arrival? && s.events[0].pid == p
    ensures p < |cfg.jobs| == |s.procs| == |s.hist| && s.procs[p].priority >= 0
    ensures s.running.Some? ==> s.running.value < |cfg.jobs| && s.procs[s.running.value].priority >= 0
    ensures Core(cfg, Admit(Pop(s), p), {p})
    ensures forall i :: 0 <= i < |s.events| - 1 ==> s.events[1..][i].pid < |cfg.jobs|
    ensures forall i :: 0 <= i < |Flat(s.ready)| ==> Flat(s.ready)[i] < |cfg.jobs|
  {
    EventFits(cfg, s);
    PopArrivalCore(cfg, s);
    EventMembers(cfg, Admit(Pop(s), p), {p});
    ReadyMembers(cfg, s, {});
  }

  lemma InHand(cfg: Config, s: State, p: nat)
    requires Core(cfg, s, {p})
    ensures p < |cfg.jobs| == |s.procs| && s.procs[p].priority >= 0 && ReadyCount(s.ready, p) == 0
    ensures cfg.policy.MLFQ? ==> s.procs[p].priority < |cfg.policy.levels|
  {
    ProcAt(cfg, s, {p}, p);
  }

  /** Once the event list is empty nothing changes any more. */
  lemma {:induction false} RunStays(cfg: Config, k: nat, n: nat)
    requires ConfigOk(cfg) && |Run(cfg, k).events| == 0 && k <= n
    ensures Run(cfg, n) == Run(cfg, k)
    decreases n
  {
    hide Inv, Step;
    if k < n {
      assert Run(cfg, n) == if |Run(cfg, n - 1).events| == 0 then Run(cfg, n - 1) else Step(cfg, Run(cfg, n - 1));
      RunStays(cfg, k, n - 1);
    }
  }

  /** What the process table and the trace say when the loop has ended. */
  lemma Finals(cfg: Config)
    requires ConfigOk(cfg)
    ensures var s := Run(cfg, Bound(cfg));
      && s.running.None? && |s.procs| == |s.hist| == |cfg.jobs|
      && forall p :: 0 <= p < |cfg.jobs| ==> Reported(cfg.jobs[p], WithMetrics(s.procs[p]), s.trace, s.hist[p], p)
  {
    Terminates(cfg, Bound(cfg));
    var s := Run(cfg, Bound(cfg));
    RunningOk(cfg, s, {});
    if s.running.Some? { EventPresent(s.events, s.running.value); }
    forall p | 0 <= p < |cfg.jobs| ensures Reported(cfg.jobs[p], WithMetrics(s.procs[p]), s.trace, s.hist[p], p) {
      Accounting(cfg, Bound(cfg), p);
    }
  }
}
