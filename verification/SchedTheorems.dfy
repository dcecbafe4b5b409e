/** What every run of every policy guarantees: the event list agrees with the CPU, one process runs at
    a time, all work is done, the loop ends, and the reported metrics are the time really spent. */
module SchedTheorems {
  import opened Wrappers
  import opened Processes
  import opened SchedModel
  import opened SchedInv
  import opened SchedRun
  import opened Sums

  // ----- the event list and the CPU agree -----

  lemma {:induction false} EventUnique(q: seq<Event>, i: nat, j: nat)
    requires i < j < |q| && q[i].pid == q[j].pid
    ensures EventCount(q, q[i].pid) >= 2
  {
    EventPresent(q[1..], q[j].pid);
    if i > 0 {
      EventUnique(q[1..], i - 1, j - 1);
    } else {
      assert q[1..][j - 1] == q[j];
    }
  }

  /** In every reachable state: the event list is ordered; the events that are not arrivals are exactly
      the one of the running process, due when its slice ends, a completion iff no work is left; an
      idle CPU means an empty ready queue. */
  lemma EventAgreement(cfg: Config, k: nat)
    requires ConfigOk(cfg)
    ensures var s := Run(cfg, k); var q := s.events;
      && Sorted(ByRemaining(cfg.policy), s.procs, q)
      && (forall i :: 0 <= i < |q| ==>
            q[i].time >= s.now && q[i].pid < |s.procs| && (!q[i].kind.Arrival? <==> s.running == Some(q[i].pid)))
      && (forall i :: 0 <= i < |q| && !q[i].kind.Arrival? ==>
            q[i].time == End(s) && (q[i].kind.Completion? <==> s.procs[q[i].pid].remaining == 0))
      && (forall i, j :: 0 <= i < j < |q| ==> q[i].pid != q[j].pid)
      && (s.running.Some? ==> EventOf(q, s.running.value) < |q|)
      && (s.running.None? ==> Empty(s.ready))
  {
    var s := Run(cfg, k);
    var q := s.events;
    forall i | 0 <= i < |q|
      ensures q[i].time >= s.now && q[i].pid < |s.procs| && (!q[i].kind.Arrival? <==> s.running == Some(q[i].pid))
    {
      assert EventOk(s, q[i]);
      assert ProcOk(cfg, s, {}, q[i].pid);
    }
    forall i, j | 0 <= i < j < |q| ensures q[i].pid != q[j].pid {
      assert EventOk(s, q[i]);
      assert ProcOk(cfg, s, {}, q[i].pid);
      if q[i].pid == q[j].pid { EventUnique(q, i, j); }
    }
    if s.running.Some? {
      assert ProcOk(cfg, s, {}, s.running.value);
      EventPresent(q, s.running.value);
    }
  }

  /** Each process is in exactly one place: its arrival is pending, it is in the ready queue once, it
      is running, or it has finished. */
  lemma OnePlace(cfg: Config, k: nat, p: nat)
    requires ConfigOk(cfg) && p < |cfg.jobs|
    ensures var s := Run(cfg, k); var arriving := EventCount(s.events, p) - One(s.running == Some(p));
      && arriving >= 0 && ReadyCount(s.ready, p) >= 0
      && arriving + ReadyCount(s.ready, p) + One(s.running == Some(p))
         + One(s.procs[p].finish != -1 && s.running != Some(p)) == 1
  {
    var s := Run(cfg, k);
    assert ProcOk(cfg, s, {}, p);
    if s.procs[p].start != -1 { assert s.procs[p].arrival >= 0; }
  }

  // ----- the clock -----

  /** The clock never goes back. */
  lemma ClockMonotone(cfg: Config, k: nat)
    requires ConfigOk(cfg)
    ensures Run(cfg, k).now <= Run(cfg, k + 1).now
  {
    var s := Run(cfg, k);
    if |s.events| > 0 {
      assert EventOk(s, s.events[0]);
      EventFits(cfg, s);
      if s.events[0].kind.Expire? {
        PopExpireCore(cfg, s);
        ReturnCore(cfg, Yield(Pop(s)), {s.events[0].pid}, s.events[0].pid);
      }
      assert Step(cfg, s).now == s.events[0].time;
    }
  }

  /** The trace only grows. */
  lemma TraceGrows(cfg: Config, s: State)
    requires Inv(cfg, s) && |s.events| > 0
    ensures s.trace <= Step(cfg, s).trace
  {
    EventFits(cfg, s);
    if s.events[0].kind.Expire? {
      PopExpireCore(cfg, s);
      ReturnCore(cfg, Yield(Pop(s)), {s.events[0].pid}, s.events[0].pid);
    }
  }

  // ----- one CPU, exact work -----

  /** The slices of any run are in time order, never overlap, never start before their process arrives,
      and a process has been given exactly the work it no longer has to do. */
  lemma OneCpu(cfg: Config, k: nat)
    requires ConfigOk(cfg)
    ensures var s := Run(cfg, k);
      && (forall i, j :: 0 <= i < j < |s.trace| ==> s.trace[i].to <= s.trace[j].from)
      && (forall i :: 0 <= i < |s.trace| ==>
            s.trace[i].pid < |cfg.jobs| && cfg.jobs[s.trace[i].pid].arrival <= s.trace[i].from <= s.trace[i].to)
      && (forall p :: 0 <= p < |cfg.jobs| ==> Ran(s.trace, p) == cfg.jobs[p].burst - s.procs[p].remaining)
  {
    var s := Run(cfg, k);
    forall p | 0 <= p < |cfg.jobs| ensures Ran(s.trace, p) == cfg.jobs[p].burst - s.procs[p].remaining {
      assert ProcOk(cfg, s, {}, p);
    }
  }

  // ----- termination -----

  function Weight(pr: Proc): int {
    pr.remaining + One(pr.finish == -1)
  }

  function Weights(procs: seq<Proc>): seq<int> {
    seq(|procs|, p requires 0 <= p < |procs| => Weight(procs[p]))
  }

  /** Pending events, remaining work, and processes whose last slice has not been planned. */
  function Measure(s: State): int {
    |s.events| + Sum(Weights(s.procs))
  }

  lemma DispatchMeasure(cfg: Config, s: State, hand: set<nat>, p: nat, guard: bool)
    requires Core(cfg, s, hand) && p in hand
    ensures Measure(Dispatch(cfg.policy, s, p, guard)) <= Measure(s)
  {
    var s' := Dispatch(cfg.policy, s, p, guard);
    assert ProcOk(cfg, s, hand, p);
    ChargeOk(cfg, s, hand, p, guard);
    RunTimeOk(cfg, s, hand, p);
    assert Weights(s'.procs) == Weights(s.procs)[p := Weight(s'.procs[p])];
    SumUpdate(Weights(s.procs), p, Weight(s'.procs[p]));
  }

  lemma ServeMeasure(cfg: Config, s: State, guard: bool)
    requires Core(cfg, s, {})
    ensures !Empty(s.ready) ==> Head(s.ready) < |cfg.jobs|
    ensures Measure(Serve(cfg.policy, s, guard)) <= Measure(s)
  {
    if !Empty(s.ready) {
      DequeueCore(cfg, s, {});
      DispatchMeasure(cfg, s.(ready := Rest(s.ready)), {} + {Head(s.ready)}, Head(s.ready), guard);
    }
  }

  lemma PopMeasure(s: State, s': State)
    requires |s.events| > 0 && s'.events == s.events[1..] && s'.procs == s.procs
    ensures Measure(s') == Measure(s) - 1
  {
  }

  lemma SameMeasure(s: State, s': State)
    requires |s'.events| == |s.events| && Weights(s'.procs) == Weights(s.procs)
    ensures Measure(s') == Measure(s)
  {
  }

  lemma ArrivalMeasure(cfg: Config, s: State)
    requires Inv(cfg, s) && |s.events| > 0 && s.events[0].kind.Arrival?
    ensures Measure(OnArrival(cfg, s)) < Measure(s)
  {
    hide Dispatch, Measure, Core, Preempted;
    EventFits(cfg, s);
    CoreSizes(cfg, s, {});
    var p := s.events[0].pid;
    PopArrivalCore(cfg, s);
    var s1 := Admit(Pop(s), p);
    CoreSizes(cfg, s1, {p});
    PopMeasure(s, s1);
    if s.running.None? {
      DispatchMeasure(cfg, s1, {p}, p, false);
    } else if Preempts(cfg.policy, s1, p) {
      CancelledIsDue(cfg, s);
      PreemptCore(cfg, s1, {p}, s.running.value);
      EnterSame(cfg.policy, s1, s.running.value);
      DispatchMeasure(cfg, Preempted(cfg.policy, s1, s.running.value), {p}, p, false);
    } else {
      EnterCore(cfg, s1, {p}, p);
      SameMeasure(s1, Enter(cfg.policy, s1, p));
    }
  }

  lemma StepMeasure(cfg: Config, s: State)
    requires Inv(cfg, s) && |s.events| > 0
    ensures Measure(Step(cfg, s)) < Measure(s)
  {
    hide Serve, Measure, Core, Enqueue;
    EventFits(cfg, s);
    CoreSizes(cfg, s, {});
    match s.events[0].kind {
      case Arrival => ArrivalMeasure(cfg, s);
      case Completion =>
        PopCompletionCore(cfg, s);
        PopMeasure(s, Leave(Pop(s)));
        ServeMeasure(cfg, Leave(Pop(s)), false);
      case Expire =>
        var p := s.events[0].pid;
        PopExpireCore(cfg, s);
        var s1 := Yield(Pop(s));
        PopMeasure(s, s1);
        ReturnCore(cfg, s1, {p}, p);
        var s2 := Return(cfg.policy, s1, p);
        assert {p} - {p} == {};
        assert Weights(s2.procs) == Weights(s1.procs);
        SameMeasure(s1, s2);
        ServeMeasure(cfg, s2, true);
    }
  }

  lemma EnterSame(pol: Policy, s: State, r: nat)
    requires s.running == Some(r) && r < |s.hist| == |s.procs| && Fits(pol, s.ready) && s.procs[r].priority >= 0
    ensures Measure(Preempted(pol, s, r)) <= Measure(s)
  {
    assert Preempted(pol, s, r).procs == s.procs;
  }

  function Bursts(jobs: seq<Job>): seq<int> {
    seq(|jobs|, p requires 0 <= p < |jobs| => jobs[p].burst)
  }

  lemma {:induction false} InitWeight(jobs: seq<Job>)
    ensures Sum(Weights(InitProcs(jobs))) == |jobs| + Sum(Bursts(jobs))
  {
    if |jobs| > 0 {
      InitWeight(jobs[1..]);
      assert Weights(InitProcs(jobs))[1..] == Weights(InitProcs(jobs[1..]));
      assert Bursts(jobs)[1..] == Bursts(jobs[1..]);
    }
  }

  lemma MeasureNonNegative(cfg: Config, s: State)
    requires Inv(cfg, s)
    ensures Measure(s) >= |s.events|
  {
    forall p | 0 <= p < |s.procs| ensures Weights(s.procs)[p] >= 0 { assert ProcOk(cfg, s, {}, p); }
    if |s.procs| > 0 { SumNonNegative(Weights(s.procs), 0); }
  }

  lemma {:induction false} MeasureFalls(cfg: Config, k: nat)
    requires ConfigOk(cfg)
    ensures |Run(cfg, k).events| == 0 || Measure(Run(cfg, k)) <= 2 * |cfg.jobs| + Sum(Bursts(cfg.jobs)) - k
  {
    hide Step, Inv;
    if k == 0 {
      InitWeight(cfg.jobs);
      InsertionsOk(ByRemaining(cfg.policy), InitProcs(cfg.jobs), |cfg.jobs|);
    } else {
      MeasureFalls(cfg, k - 1);
      var s := Run(cfg, k - 1);
      if |s.events| > 0 { StepMeasure(cfg, s); }
    }
  }

  /** Steps after which the loop has certainly ended. */
  function Bound(cfg: Config): nat {
    var b := 2 * |cfg.jobs| + Sum(Bursts(cfg.jobs));
    if b > 0 then b else 0
  }

  /** The event loop ends: it handles at most two events per process plus one per unit of work. */
  lemma Terminates(cfg: Config, k: nat)
    requires ConfigOk(cfg) && k >= Bound(cfg)
    ensures |Run(cfg, k).events| == 0
  {
    MeasureFalls(cfg, k);
    MeasureNonNegative(cfg, Run(cfg, k));
  }

  /** When the event list is empty every process has finished. */
  lemma AllFinished(cfg: Config, s: State, p: nat)
    requires Inv(cfg, s) && |s.events| == 0 && p < |cfg.jobs|
    ensures s.running.None? && Empty(s.ready) && s.hist[p].phase.Finished?
  {
    RunningOk(cfg, s, {});
    assert ProcOk(cfg, s, {}, p);
    EventPresent(s.events, p);
    if Empty(s.ready) { EmptyCounts(s.ready, p); }
  }

  // ----- the reported metrics -----

  /** `calculate_metrics` for one process. */
  function WithMetrics(pr: Proc): Proc {
    pr.(turnaround := pr.finish - pr.arrival,
        waiting := pr.finish - pr.arrival - pr.burst,
        response := pr.start - pr.arrival)
  }

  /** What is reported for process p at the end: all work is done; start and finish are the start of its
      first slice and the end of its last; response is the time to the first slice, turnaround the time to
      the end, and waiting the time spent in the ready queue, which is the turnaround without the burst. */
  ghost predicate Reported(job: Job, pr: Proc, trace: seq<Seg>, h: Hist, p: nat) {
    && pr.arrival == job.arrival && pr.burst == job.burst
    && pr.remaining == 0 && Ran(trace, p) == job.burst
    && pr.start == FirstStart(trace, p) && pr.finish == LastEnd(trace, p)
    && pr.response == FirstStart(trace, p) - job.arrival
    && pr.turnaround == LastEnd(trace, p) - job.arrival
    && pr.waiting == h.waited == pr.turnaround - job.burst
    && 0 <= pr.response <= pr.waiting
  }

  /** The accounting identity, for every process and policy. */
  lemma Accounting(cfg: Config, k: nat, p: nat)
    requires ConfigOk(cfg) && |Run(cfg, k).events| == 0 && p < |cfg.jobs|
    ensures var s := Run(cfg, k); Reported(cfg.jobs[p], WithMetrics(s.procs[p]), s.trace, s.hist[p], p)
  {
    AllFinished(cfg, Run(cfg, k), p);
    assert ProcOk(cfg, Run(cfg, k), {}, p);
  }

  // ----- what the policies write themselves -----

  /** The figures a policy's scheduling function has left in a process: those that are written at all are
      the final ones, and the others have their first value, 0. */
  ghost predicate Written(pol: Policy, pr: Proc) {
    var ended := pr.finish != -1 && !pol.RR?;
    && pr.turnaround == (if ended then pr.finish - pr.arrival else 0)
    && pr.waiting == (if ended then pr.finish - pr.arrival - pr.burst else 0)
    && pr.response == (if pr.start != -1 && !pol.RR? && !pol.MLFQ? then pr.start - pr.arrival else 0)
  }

  ghost predicate AllWritten(pol: Policy, procs: seq<Proc>) {
    forall p :: 0 <= p < |procs| ==> Written(pol, procs[p])
  }

  lemma DispatchWrites(cfg: Config, s: State, hand: set<nat>, p: nat, guard: bool)
    requires Core(cfg, s, hand) && p in hand && AllWritten(cfg.policy, s.procs)
    ensures p < |s.procs| == |s.hist| && AllWritten(cfg.policy, Dispatch(cfg.policy, s, p, guard).procs)
  {
    hide TraceOk, EventOk, Sorted, Placed, Traced, InsertEvent, RunTime;
    ProcAt(cfg, s, hand, p);
    RunTimeOk(cfg, s, hand, p);
    assert Written(cfg.policy, s.procs[p]);
  }

  lemma ServeWrites(cfg: Config, s: State, guard: bool)
    requires Core(cfg, s, {}) && AllWritten(cfg.policy, s.procs)
    ensures |s.procs| == |s.hist| && (!Empty(s.ready) ==> Head(s.ready) < |s.procs|)
    ensures AllWritten(cfg.policy, Serve(cfg.policy, s, guard).procs)
  {
    hide Core, Dispatch, AllWritten;
    CoreSizes(cfg, s, {});
    if !Empty(s.ready) {
      DequeueCore(cfg, s, {});
      DispatchWrites(cfg, s.(ready := Rest(s.ready)), {} + {Head(s.ready)}, Head(s.ready), guard);
    }
  }

  lemma StepWrites(cfg: Config, s: State)
    requires Inv(cfg, s) && |s.events| > 0 && AllWritten(cfg.policy, s.procs)
    ensures AllWritten(cfg.policy, Step(cfg, s).procs)
  {
    hide Core, Dispatch, Serve, SliceEndsFirst;
    EventFits(cfg, s);
    CoreSizes(cfg, s, {});
    var p := s.events[0].pid;
    match s.events[0].kind {
      case Arrival =>
        PopArrivalCore(cfg, s);
        var s1 := Admit(Pop(s), p);
        CoreSizes(cfg, s1, {p});
        if s.running.None? {
          DispatchWrites(cfg, s1, {p}, p, false);
        } else if Preempts(cfg.policy, s1, p) {
          CancelledIsDue(cfg, s);
          PreemptCore(cfg, s1, {p}, s.running.value);
          DispatchWrites(cfg, Preempted(cfg.policy, s1, s.running.value), {p}, p, false);
        } else {
          EnterCore(cfg, s1, {p}, p);
        }
      case Completion =>
        PopCompletionCore(cfg, s);
        ServeWrites(cfg, Leave(Pop(s)), false);
      case Expire =>
        PopExpireCore(cfg, s);
        var s1 := Yield(Pop(s));
        ReturnCore(cfg, s1, {p}, p);
        assert {p} - {p} == {};
        ReturnWrites(cfg, s1, {p}, p);
        ServeWrites(cfg, Return(cfg.policy, s1, p), true);
    }
  }

  lemma ReturnWrites(cfg: Config, s: State, hand: set<nat>, p: nat)
    requires Core(cfg, s, hand) && p in hand && AllWritten(cfg.policy, s.procs)
    ensures Fits(cfg.policy, s.ready) && p < |s.procs| && s.procs[p].priority >= 0
    ensures AllWritten(cfg.policy, Return(cfg.policy, s, p).procs)
  {
    hide Core, Enqueue;
    CoreSizes(cfg, s, hand);
    ReturnCore(cfg, s, hand, p);
    assert Written(cfg.policy, s.procs[p]);
  }

  /** What the policies write, in every reachable state: the turnaround and waiting times of a process whose
      last slice is planned are the ones that will be reported, except that round robin leaves them to the
      end; the response time is, except under round robin and MLFQ. */
  lemma {:induction false} WrittenEarly(cfg: Config, k: nat)
    requires ConfigOk(cfg)
    ensures AllWritten(cfg.policy, Run(cfg, k).procs)
  {
    hide Step, Inv, AllWritten;
    if k == 0 {
      InitWritten(cfg);
    } else {
      WrittenEarly(cfg, k - 1);
      if |Run(cfg, k - 1).events| > 0 { StepWrites(cfg, Run(cfg, k - 1)); }
    }
  }

  lemma InitWritten(cfg: Config)
    ensures AllWritten(cfg.policy, Init(cfg).procs)
  {
  }
}
