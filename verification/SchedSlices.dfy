/** When a process gets the CPU by arriving, and how long every slice of every run is, told by the trace,
    the policy's parameters and the pending arrivals alone. */
module SchedSlices {
  import opened Wrappers
  import opened Processes
  import opened SchedModel
  import opened SchedInv
  import opened SchedRun
  import opened SchedTheorems

  /** A step that starts a slice ends with a dispatch, in a state where nobody runs. */
  lemma StepDispatches(cfg: Config, s: State) returns (s1: State, hand: set<nat>, p: nat, guard: bool)
    requires Inv(cfg, s) && |s.events| > 0 && |Step(cfg, s).trace| != |s.trace|
    ensures Core(cfg, s1, hand) && p in hand && s1.running.None? && s1.trace == s.trace
    ensures p < |s1.procs| == |s1.hist| && Step(cfg, s) == Dispatch(cfg.policy, s1, p, guard)
  {
    hide Core, Dispatch, SliceEndsFirst;
    EventFits(cfg, s);
    CoreSizes(cfg, s, {});
    p := s.events[0].pid;
    match s.events[0].kind {
      case Arrival =>
        PopArrivalCore(cfg, s);
        s1, hand, guard := Admit(Pop(s), p), {p}, false;
        CoreSizes(cfg, s1, hand);
        if s.running.Some? && Preempts(cfg.policy, s1, p) {
          CancelledIsDue(cfg, s);
          PreemptCore(cfg, s1, {p}, s.running.value);
          s1 := Preempted(cfg.policy, s1, s.running.value);
        }
      case Completion =>
        PopCompletionCore(cfg, s);
        s1, hand, p, guard := ServeDispatches(cfg, Leave(Pop(s)), false);
      case Expire =>
        PopExpireCore(cfg, s);
        s1 := Yield(Pop(s));
        ReturnCore(cfg, s1, {p}, p);
        assert {p} - {p} == {};
        s1 := Return(cfg.policy, s1, p);
        CoreSizes(cfg, s1, {});
        if !Empty(s1.ready) { DequeueCore(cfg, s1, {}); }
        s1, hand, p, guard := ServeDispatches(cfg, s1, true);
    }
  }

  lemma ServeDispatches(cfg: Config, s: State, guarded: bool)
      returns (s1: State, hand: set<nat>, p: nat, guard: bool)
    requires Core(cfg, s, {}) && s.running.None? && |s.procs| == |s.hist| == |cfg.jobs|
    requires !Empty(s.ready) ==> Head(s.ready) < |s.procs|
    requires |Serve(cfg.policy, s, guarded).trace| != |s.trace|
    ensures Core(cfg, s1, hand) && p in hand && s1.running.None? && s1.trace == s.trace
    ensures p < |s1.procs| == |s1.hist| && Serve(cfg.policy, s, guarded) == Dispatch(cfg.policy, s1, p, guard)
  {
    hide Core, Dispatch;
    DequeueCore(cfg, s, {});
    s1, p, guard := s.(ready := Rest(s.ready)), Head(s.ready), guarded;
    hand := {} + {p};
  }

  // ----- arrivals -----

  lemma ArrivalAt(cfg: Config, s: State)
    requires Inv(cfg, s) && |s.events| > 0 && s.events[0].kind.Arrival?
    ensures var e, s' := s.events[0], Step(cfg, s);
      && e.pid < |cfg.jobs| == |s.procs| && e.time >= s.now && s.procs[e.pid].remaining == cfg.jobs[e.pid].burst
      && (s.running.Some? ==>
            && s.running.value < |cfg.jobs|
            && s.procs[s.running.value].remaining == cfg.jobs[s.running.value].burst - Ran(s.trace, s.running.value))
  {
    assert EventOk(s, s.events[0]);
    ProcAt(cfg, s, {}, s.events[0].pid);
    RunningOk(cfg, s, {});
  }

  /** An arrival that finds the CPU idle gets it at once. One that finds it busy takes it away iff the
      policy is STCF and its burst is less than what the running process will have left at the end of its
      slice, which is then ready again; otherwise the arrival is ready and the slice goes on. */
  lemma ArrivalPreemptsIff(cfg: Config, k: nat)
    requires ConfigOk(cfg) && |Run(cfg, k).events| > 0 && Run(cfg, k).events[0].kind.Arrival?
    ensures var s, s', p := Run(cfg, k), Run(cfg, k + 1), Run(cfg, k).events[0].pid;
      && p < |cfg.jobs| && s'.now == s.events[0].time
      && match s.running
         case None => s'.running == Some(p) && ReadyCount(s'.ready, p) == 0
         case Some(r) =>
           && r < |cfg.jobs| && r != p
           && if cfg.policy.STCF? && cfg.jobs[p].burst < cfg.jobs[r].burst - Ran(s.trace, r) then
                && s'.running == Some(p) && ReadyCount(s'.ready, r) == 1
                && |s'.trace| == |s.trace| + 1 && s'.trace[|s.trace|].from == s'.now
              else
                s'.running == Some(r) && ReadyCount(s'.ready, p) == 1 && s'.trace == s.trace
  {
    hide Dispatch, Enqueue, RemoveEvent, ProcOk, TraceOk, EventOk, Sorted, Fits, SliceEndsFirst;
    var s, s', p := Run(cfg, k), Run(cfg, k + 1), Run(cfg, k).events[0].pid;
    EventFits(cfg, s);
    CoreSizes(cfg, s, {});
    ArrivalAt(cfg, s);
    assert s' == Step(cfg, s);
    PlaceNow(cfg, s', p);
    if s.running.None? {
      DispatchFrame(cfg.policy, Admit(Pop(s), p), p, false);
    } else {
      PlaceNow(cfg, s', s.running.value);
      PlaceNow(cfg, s, p);
      if Preempts(cfg.policy, Admit(Pop(s), p), p) {
        DispatchFrame(cfg.policy, Preempted(cfg.policy, Admit(Pop(s), p), s.running.value), p, false);
      }
    }
  }

  lemma PlaceNow(cfg: Config, s: State, p: nat)
    requires Inv(cfg, s) && p < |cfg.jobs|
    ensures |s.hist| == |cfg.jobs| && ReadyCount(s.ready, p) == One(s.hist[p].phase.Waiting?)
    ensures s.running == Some(p) <==> s.hist[p].phase.OnCpu?
  {
    ProcAt(cfg, s, {}, p);
  }

  // ----- quanta -----

  /** Slice i uses up its quantum, or ends its process's work; without a quantum it does the latter. */
  ghost predicate FullSlice(cfg: Config, trace: seq<Seg>, i: nat)
    requires i < |trace|
  {
    var g := trace[i];
    var length := g.to - g.from;
    g.pid < |cfg.jobs| &&
    var done := Ran(trace[..i + 1], g.pid) == cfg.jobs[g.pid].burst;
    match cfg.policy
    case RR(q) => length <= q && (length == q || done)
    case MLFQ(ls) =>
      && 0 <= g.level < |ls|
      && if ls[g.level].quantum == -1 then done
         else length <= ls[g.level].quantum && (length == ls[g.level].quantum || done)
    case STCF => true
    case _ => done
  }

  ghost predicate FullSlices(cfg: Config, trace: seq<Seg>) {
    forall i :: 0 <= i < |trace| ==> FullSlice(cfg, trace, i)
  }

  lemma DispatchFull(cfg: Config, s: State, hand: set<nat>, p: nat, guard: bool)
    requires Core(cfg, s, hand) && p in hand
    ensures p < |s.procs| == |s.hist|
    ensures var s' := Dispatch(cfg.policy, s, p, guard);
      |s'.trace| == |s.trace| + 1 && s.trace <= s'.trace && FullSlice(cfg, s'.trace, |s.trace|)
  {
    hide Dispatch, Ran, LastEnd, FirstStart;
    CoreSizes(cfg, s, hand);
    ProcAt(cfg, s, hand, p);
    DispatchFrame(cfg.policy, s, p, guard);
    ChargeOk(cfg, s, hand, p, guard);
    var s' := Dispatch(cfg.policy, s, p, guard);
    TraceAppend(s.trace, s'.trace[|s.trace|], p);
    assert s'.trace[..|s.trace| + 1] == s'.trace;
  }

  lemma FullSliceKept(cfg: Config, t: seq<Seg>, t': seq<Seg>, i: nat)
    requires i < |t| && t <= t' && FullSlice(cfg, t, i)
    ensures FullSlice(cfg, t', i)
  {
    assert t'[..i + 1] == t[..i + 1];
  }

  lemma StepFull(cfg: Config, s: State)
    requires Inv(cfg, s) && |s.events| > 0 && FullSlices(cfg, s.trace)
    ensures FullSlices(cfg, Step(cfg, s).trace)
  {
    hide Step, Core, Dispatch, FullSlice;
    TraceGrows(cfg, s);
    var t, t' := s.trace, Step(cfg, s).trace;
    if |t'| == |t| {
      assert t' == t;
    } else {
      var s1, hand, p, guard := StepDispatches(cfg, s);
      DispatchFull(cfg, s1, hand, p, guard);
      forall i | 0 <= i < |t| ensures FullSlice(cfg, t', i) { FullSliceKept(cfg, t, t', i); }
    }
  }

  /** Every slice of every run uses up its quantum unless its process has no work left at the end of it:
      the quantum of the policy under round robin, that of the process's level under MLFQ; with no
      quantum to use up, a slice under any policy but STCF ends its process's work. */
  lemma {:induction false} SlicesAreFull(cfg: Config, k: nat)
    requires ConfigOk(cfg)
    ensures FullSlices(cfg, Run(cfg, k).trace)
  {
    hide Step, Inv, FullSlices;
    if k == 0 {
      NoSlices(cfg);
    } else {
      SlicesAreFull(cfg, k - 1);
      var s := Run(cfg, k - 1);
      if |s.events| > 0 { StepFull(cfg, s); }
    }
  }

  lemma NoSlices(cfg: Config)
    ensures FullSlices(cfg, Init(cfg).trace)
  {
  }

  /** Round robin: slice i takes the quantum exactly, or less and its process is then done. */
  lemma RrSliceExact(cfg: Config, k: nat, i: nat)
    requires ConfigOk(cfg) && cfg.policy.RR? && i < |Run(cfg, k).trace|
    ensures var t, g := Run(cfg, k).trace, Run(cfg, k).trace[i];
      && g.pid < |cfg.jobs| && g.to - g.from <= cfg.policy.quantum
      && (Ran(t[..i + 1], g.pid) != cfg.jobs[g.pid].burst ==> g.to - g.from == cfg.policy.quantum)
  {
    hide Run;
    SlicesAreFull(cfg, k);
    assert FullSlice(cfg, Run(cfg, k).trace, i);
  }

  /** MLFQ: slice i takes the quantum of its process's level exactly, or less and the process is then
      done; at a level without a quantum the process is done. */
  lemma MlfqSliceExact(cfg: Config, k: nat, i: nat)
    requires ConfigOk(cfg) && cfg.policy.MLFQ? && i < |Run(cfg, k).trace|
    ensures var t, g := Run(cfg, k).trace, Run(cfg, k).trace[i];
      && g.pid < |cfg.jobs| && 0 <= g.level < |cfg.policy.levels|
      && (cfg.policy.levels[g.level].quantum != -1 ==> g.to - g.from <= cfg.policy.levels[g.level].quantum)
      && (Ran(t[..i + 1], g.pid) != cfg.jobs[g.pid].burst ==>
            cfg.policy.levels[g.level].quantum != -1 && g.to - g.from == cfg.policy.levels[g.level].quantum)
  {
    hide Run;
    SlicesAreFull(cfg, k);
    assert FullSlice(cfg, Run(cfg, k).trace, i);
  }

  /** FCFS and SJF never take the CPU away. */
  lemma RunsToEndExact(cfg: Config, k: nat, i: nat)
    requires ConfigOk(cfg) && (cfg.policy.FCFS? || cfg.policy.SJF?) && i < |Run(cfg, k).trace|
    ensures var t, g := Run(cfg, k).trace, Run(cfg, k).trace[i];
      g.pid < |cfg.jobs| && Ran(t[..i + 1], g.pid) == cfg.jobs[g.pid].burst
  {
    hide Run;
    SlicesAreFull(cfg, k);
    assert FullSlice(cfg, Run(cfg, k).trace, i);
  }

  // ----- slices up to the next arrival -----

  /** How an STCF slice is planned when it starts: up to the end of the work, unless arrivals are pending
      and none is due now; then no arrival comes inside the slice, and work left over means that one
      comes exactly at its end. */
  ghost predicate PlannedStcf(s: State) {
    s.running.Some? && s.running.value < |s.procs| &&
    var left := s.procs[s.running.value].remaining;
    && left >= 0
    && ((exists i :: DueAt(s, i, s.now)) ==> left == 0)
    && (!(exists i :: DueAt(s, i, s.now)) ==>
          && (left > 0 ==> exists i :: DueAt(s, i, End(s)))
          && forall i :: 0 <= i < |s.events| && s.events[i].kind.Arrival? ==> s.events[i].time >= End(s))
  }

  /** Pending event i is an arrival at time t. */
  ghost predicate DueAt(s: State, i: int, t: int) {
    0 <= i < |s.events| && s.events[i].kind.Arrival? && s.events[i].time == t
  }

  lemma DispatchPlanned(cfg: Config, s: State, hand: set<nat>, p: nat, guard: bool)
    requires Core(cfg, s, hand) && p in hand && s.running.None? && cfg.policy.STCF?
    ensures p < |s.procs| == |s.hist| && PlannedStcf(Dispatch(cfg.policy, s, p, guard))
  {
    hide Dispatch, ProcOk, TraceOk, RunTime, Core, EventOk, Sorted;
    CoreSizes(cfg, s, hand);
    DispatchFrame(cfg.policy, s, p, guard);
    ChargeOk(cfg, s, hand, p, guard);
    RunTimeOk(cfg, s, hand, p);
    FirstArrival(cfg, s, hand, p);
    var s' := Dispatch(cfg.policy, s, p, guard);
    var e := SliceEnd(cfg.policy, s, p, s'.procs[p]);
    var k, n := EventPos(true, s'.procs, s.events, e), NextArrival(s.events);
    InsertKeeps(s.events, k, e);
    forall i | 0 <= i < |s'.events| && s'.events[i].kind.Arrival?
      ensures n < |s.events| && s.events[n].time <= s'.events[i].time
    {
      assert s'.events[i] == s.events[if i < k then i else i - 1];
    }
    PlannedBy(s', if n == |s.events| then |s'.events| else if n < k then n else n + 1, s.procs[p].remaining);
  }

  /** A slice decided by the earliest pending arrival, number m. */
  lemma PlannedBy(s: State, m: nat, left: int)
    requires m < |s.events| ==> s.events[m].kind.Arrival? && s.now <= s.events[m].time
    requires forall i :: 0 <= i < |s.events| && s.events[i].kind.Arrival? ==>
      m < |s.events| && s.events[m].time <= s.events[i].time
    requires s.running.Some? && s.running.value < |s.procs|
    requires 0 <= s.procs[s.running.value].remaining == s.now + left - End(s)
    requires End(s) ==
      if m < |s.events| && s.now < s.events[m].time < s.now + left then s.events[m].time else s.now + left
    ensures PlannedStcf(s)
  {
    if m < |s.events| { assert DueAt(s, m, s.events[m].time); }
  }

  /** The first arrival in the list is the earliest, and decides the slice. */
  lemma FirstArrival(cfg: Config, s: State, hand: set<nat>, p: nat)
    requires Core(cfg, s, hand) && p in hand && cfg.policy.STCF? && p < |s.procs|
    ensures var n, t, left := NextArrival(s.events), RunTime(cfg.policy, s, p), s.procs[p].remaining;
      && (forall i :: 0 <= i < |s.events| && s.events[i].kind.Arrival? ==> s.events[n].time <= s.events[i].time)
      && (n < |s.events| ==> s.now <= s.events[n].time)
      && t == if n < |s.events| && s.now < s.events[n].time < s.now + left then s.events[n].time - s.now else left
  {
    hide ProcOk, TraceOk;
    var n := NextArrival(s.events);
    if n < |s.events| { assert EventOk(s, s.events[n]); }
    forall i | 0 <= i < |s.events| && s.events[i].kind.Arrival? ensures s.events[n].time <= s.events[i].time {
      assert n < i ==> !Before(true, s.procs, s.events[i], s.events[n]);
    }
  }

  /** STCF: every slice of every run is planned that way. */
  lemma StcfSliceExact(cfg: Config, k: nat)
    requires ConfigOk(cfg) && cfg.policy.STCF? && |Run(cfg, k + 1).trace| != |Run(cfg, k).trace|
    ensures PlannedStcf(Run(cfg, k + 1))
  {
    hide Step, Core, Dispatch, PlannedStcf;
    var s := Run(cfg, k);
    var s1, hand, p, guard := StepDispatches(cfg, s);
    DispatchPlanned(cfg, s1, hand, p, guard);
  }
}
