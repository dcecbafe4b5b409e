/** STCF measured by the work really left. A slice is charged when it starts, so the remaining time of
    the running process is what will be left at the end of its slice; what is left now is that plus the
    rest of the slice. Preemptive shortest-job-first would keep it minimal at every moment; here is
    where the scheduler does, and where it does not. */
module SchedStcf {
  import opened Processes
  import opened Wrappers
  import opened SchedModel
  import opened SchedInv
  import opened SchedRun
  import opened SchedShortest
  import opened SchedTheorems
  import opened SchedSlices

  /** Work the running process has left at this moment. */
  function Left(s: State): int {
    if s.running.None? then 0 else Remaining(s.procs, s.running.value) + End(s) - s.now
  }

  /** Nobody who is ready has less work left than the running process. */
  ghost predicate LeftMinimal(s: State) {
    s.running.Some? ==> forall x :: x in Flat(s.ready) ==> Left(s) <= Remaining(s.procs, x)
  }

  /** Nobody who is still to arrive before the slice ends will find more work left than it brings. */
  ghost predicate Clear(s: State) {
    s.running.Some? ==>
      forall i :: 0 <= i < |s.events| && s.events[i].kind.Arrival? && s.events[i].time < End(s) ==>
        Remaining(s.procs, s.events[i].pid) >= End(s) - s.events[i].time
  }

  /** No pending arrival is due at this moment. */
  ghost predicate NoneDue(s: State) {
    forall i :: 0 <= i < |s.events| && s.events[i].kind.Arrival? ==> s.events[i].time > s.now
  }

  /** How a slice starts: minimal, and clear unless an arrival is due at that moment. */
  ghost predicate WellStarted(s: State) {
    s.running.Some? && LeftMinimal(s) && (NoneDue(s) ==> Clear(s))
  }

  // ----- every dispatch is minimal -----

  /** Unless an arrival is due, the slice ends at the next one at the latest. */
  lemma DispatchClear(cfg: Config, s: State, hand: set<nat>, p: nat, guard: bool)
    requires Core(cfg, s, hand) && p in hand && s.running.None? && cfg.policy.STCF?
    ensures NoneDue(Dispatch(cfg.policy, s, p, guard)) ==> Clear(Dispatch(cfg.policy, s, p, guard))
  {
    hide Dispatch, Core;
    DispatchPlanned(cfg, s, hand, p, guard);
  }

  lemma DispatchLeft(cfg: Config, s: State, hand: set<nat>, p: nat, guard: bool)
    requires Core(cfg, s, hand) && p in hand && s.running.None? && cfg.policy.STCF?
    requires forall x :: x in Flat(s.ready) ==> Remaining(s.procs, p) <= Remaining(s.procs, x)
    ensures WellStarted(Dispatch(cfg.policy, s, p, guard))
  {
    hide Core, Dispatch, RunTime, Clear, NoneDue;
    DispatchClear(cfg, s, hand, p, guard);
    HandAway(cfg, s, hand, p);
    CoreSizes(cfg, s, hand);
    var s' := Dispatch(cfg.policy, s, p, guard);
    DispatchFrame(cfg.policy, s, p, guard);
    ChargeOk(cfg, s, hand, p, guard);
    forall x | x in Flat(s'.ready) ensures Left(s') <= Remaining(s'.procs, x) {
      assert x != p && Remaining(s'.procs, x) == Remaining(s.procs, x);
    }
  }

  lemma ServeLeft(cfg: Config, s: State, guard: bool)
    requires Core(cfg, s, {}) && s.running.None? && cfg.policy.STCF? && Shortest(cfg, s)
    ensures !Empty(s.ready) ==> Head(s.ready) < |cfg.jobs|
    ensures !Empty(s.ready) ==> WellStarted(Serve(cfg.policy, s, guard))
  {
    hide Core, Dispatch;
    if !Empty(s.ready) {
      CoreSizes(cfg, s, {});
      DequeueCore(cfg, s, {});
      DispatchLeft(cfg, s.(ready := Rest(s.ready)), {} + {Head(s.ready)}, Head(s.ready), guard);
    }
  }

  lemma PreemptLeft(cfg: Config, s: State, p: nat, r: nat)
    requires Core(cfg, s, {p}) && s.running == Some(r) && Shortest(cfg, s) && r < |cfg.jobs| && p < |cfg.jobs|
    requires s.now == End(s) && s.procs[r].remaining > 0 && Preempts(cfg.policy, s, p)
    ensures Fits(cfg.policy, s.ready) && s.procs[r].priority >= 0
    ensures WellStarted(Dispatch(cfg.policy, Preempted(cfg.policy, s, r), p, false))
  {
    hide Dispatch, Core, LinePos;
    CoreSizes(cfg, s, {p});
    PreemptCore(cfg, s, {p}, r);
    InsertOrdered(cfg.policy, s.procs, s.ready.q, r);
    var s2 := Preempted(cfg.policy, s, r);
    assert s2.procs == s.procs;
    DispatchLeft(cfg, s2, {p}, p, false);
  }

  /** One event: if it starts a slice, it starts it well. */
  lemma StepLeft(cfg: Config, s: State)
    requires Inv(cfg, s) && cfg.policy.STCF? && Shortest(cfg, s) && |s.events| > 0
    ensures |Step(cfg, s).trace| != |s.trace| ==> WellStarted(Step(cfg, s))
  {
    hide Core, WellStarted, Dispatch, LineOrdered;
    EventFits(cfg, s);
    CoreSizes(cfg, s, {});
    var p := s.events[0].pid;
    match s.events[0].kind {
      case Arrival =>
        PopArrivalCore(cfg, s);
        var s1 := Admit(Pop(s), p);
        CoreSizes(cfg, s1, {p});
        if s.running.None? {
          NobodyIn(s1.ready);
          DispatchLeft(cfg, s1, {p}, p, false);
        } else if Preempts(cfg.policy, s1, p) {
          CancelledIsDue(cfg, s);
          PreemptLeft(cfg, s1, p, s.running.value);
        }
      case Completion =>
        PopCompletionCore(cfg, s);
        ServeLeft(cfg, Leave(Pop(s)), false);
      case Expire =>
        PopExpireCore(cfg, s);
        var s1 := Yield(Pop(s));
        ReturnCore(cfg, s1, {p}, p);
        assert {p} - {p} == {};
        EnterShortest(cfg, s1, {p}, p);
        ServeLeft(cfg, Return(cfg.policy, s1, p), true);
    }
  }

  lemma NobodyIn(r: Ready)
    requires Empty(r)
    ensures forall x :: x !in Flat(r)
  {
    forall x: nat ensures x !in Flat(r) {
      EmptyCounts(r, x);
      CountPositive(Flat(r), x);
    }
  }

  // ----- from the dispatch to the end of the slice -----

  /** When a slice ends with work left, the process itself is ready, so another slice starts. */
  lemma ExpiryDispatches(cfg: Config, s: State)
    requires Inv(cfg, s) && |s.events| > 0 && cfg.policy.STCF? && s.events[0].kind.Expire?
    ensures |Step(cfg, s).trace| == |s.trace| + 1
  {
    hide ProcOk, TraceOk, Sorted, EventOk;
    EventFits(cfg, s);
    PopExpireCore(cfg, s);
    ReturnCore(cfg, Yield(Pop(s)), {s.events[0].pid}, s.events[0].pid);
  }

  /** A step that starts no slice while a process keeps running is the arrival of one more. */
  lemma SliceGoesOn(cfg: Config, s: State)
    requires Inv(cfg, s) && |s.events| > 0 && cfg.policy.STCF?
    requires |Step(cfg, s).trace| == |s.trace| && Step(cfg, s).running.Some?
    ensures var s', p := Step(cfg, s), s.events[0].pid;
      && s.running == s'.running && s.running.value < |s.procs| && p < |s.procs|
      && s.events[0].kind.Arrival? && s'.now == s.events[0].time >= s.now
      && s'.trace == s.trace && s'.procs == s.procs && s'.events == s.events[1..]
      && s.procs[p].remaining >= s.procs[s.running.value].remaining
      && (forall x :: x in Flat(s'.ready) <==> x == p || x in Flat(s.ready))
  {
    hide TraceOk, Sorted;
    EventFits(cfg, s);
    assert EventOk(s, s.events[0]);
    match s.events[0].kind {
      case Arrival =>
        var p := s.events[0].pid;
        PopArrivalCore(cfg, s);
        EnterCore(cfg, Admit(Pop(s), p), {p}, p);
        forall x ensures x in Flat(Step(cfg, s).ready) <==> x == p || x in Flat(s.ready) {
          InsertedMembers(s.ready.q, LinePos(cfg.policy, s.procs, s.ready.q, p), p, x);
        }
      case Completion => PopCompletionCore(cfg, s);
      case Expire => ExpiryDispatches(cfg, s);
    }
  }

  /** What an arrival finds: work left at the end of the slice means that it comes at that end. */
  lemma ArrivalFinds(cfg: Config, s: State)
    requires Inv(cfg, s) && |s.events| > 0 && cfg.policy.STCF?
    requires s.running.Some? && s.running.value < |s.procs| && s.events[0].kind.Arrival?
    ensures s.events[0].time <= End(s)
    ensures s.procs[s.running.value].remaining >= 0
    ensures s.procs[s.running.value].remaining > 0 ==> s.events[0].time == End(s)
  {
    RunningOk(cfg, s, {});
    var r := s.running.value;
    EventPresent(s.events, r);
    var j := EventOf(s.events, r);
    assert EventOk(s, s.events[j]);
    assert EventOk(s, s.events[0]);
    assert j > 0 ==> !Before(true, s.procs, s.events[j], s.events[0]);
  }

  lemma SliceKeeps(cfg: Config, s: State)
    requires Inv(cfg, s) && |s.events| > 0 && cfg.policy.STCF? && LeftMinimal(s) && Clear(s)
    requires |Step(cfg, s).trace| == |s.trace| && Step(cfg, s).running.Some?
    ensures LeftMinimal(Step(cfg, s)) && Clear(Step(cfg, s))
  {
    hide Inv, Step;
    SliceGoesOn(cfg, s);
    ArrivalFinds(cfg, s);
    var s' := Step(cfg, s);
    assert forall i :: 0 <= i < |s'.events| ==> s'.events[i] == s.events[i + 1];
    forall x | x in Flat(s'.ready) ensures Left(s') <= Remaining(s'.procs, x) {
      if x in Flat(s.ready) { assert Left(s) <= Remaining(s.procs, x); }
    }
  }
  /** The event handled as number k + 1 starts a slice. */
  ghost predicate Dispatches(cfg: Config, k: nat)
    requires ConfigOk(cfg)
  {
    |Run(cfg, k + 1).trace| != |Run(cfg, k).trace|
  }

  /** STCF, every dispatch of every run: nobody who is ready has less work left than the process that
      gets the CPU. */
  lemma StcfDispatchesShortest(cfg: Config, k: nat)
    requires ConfigOk(cfg) && cfg.policy.STCF?
    ensures Dispatches(cfg, k) ==> WellStarted(Run(cfg, k + 1))
  {
    hide Step, WellStarted, Inv;
    var s := Run(cfg, k);
    AlwaysShortest(cfg, k);
    if |s.events| > 0 { StepLeft(cfg, s); }
  }

  /** After n more events the slice running after k events is still running. */
  ghost predicate SameSlice(cfg: Config, k: nat, n: nat)
    requires ConfigOk(cfg)
  {
    |Run(cfg, k + n).trace| == |Run(cfg, k).trace| && Run(cfg, k + n).running.Some?
  }

  lemma {:induction false} TraceLonger(cfg: Config, k: nat, n: nat)
    requires ConfigOk(cfg)
    ensures |Run(cfg, k).trace| <= |Run(cfg, k + n).trace|
  {
    hide Step, Inv;
    if n > 0 {
      TraceLonger(cfg, k, n - 1);
      var s := Run(cfg, k + n - 1);
      if |s.events| > 0 {
        TraceGrows(cfg, s);
        assert Run(cfg, k + n) == Step(cfg, s);
      }
    }
  }

  /** A clear slice stays minimal as long as it runs. */
  lemma {:induction false} ClearStaysMinimal(cfg: Config, k: nat, n: nat)
    requires ConfigOk(cfg) && cfg.policy.STCF? && LeftMinimal(Run(cfg, k)) && Clear(Run(cfg, k)) && SameSlice(cfg, k, n)
    ensures LeftMinimal(Run(cfg, k + n)) && Clear(Run(cfg, k + n))
  {
    hide Step, Inv, LeftMinimal, Clear;
    if n > 0 {
      var s := Run(cfg, k + n - 1);
      TraceLonger(cfg, k, n - 1);
      if |s.events| > 0 {
        assert Run(cfg, k + n) == Step(cfg, s);
        TraceGrows(cfg, s);
        SliceGoesOn(cfg, s);
        ClearStaysMinimal(cfg, k, n - 1);
        SliceKeeps(cfg, s);
      } else {
        assert Run(cfg, k + n) == s;
        ClearStaysMinimal(cfg, k, n - 1);
      }
    }
  }

  /** Pending event i is an arrival inside the slice that will find more work left than it brings. */
  ghost predicate TooShort(s: State, i: nat) {
    && i < |s.events| && s.events[i].kind.Arrival? && s.events[i].time < End(s)
    && Remaining(s.procs, s.events[i].pid) < End(s) - s.events[i].time
  }

  /** Until such an arrival only arrivals happen, and none of them preempts. */
  lemma TooShortStep(cfg: Config, s: State, i: nat)
    requires Inv(cfg, s) && cfg.policy.STCF? && s.running.Some? && TooShort(s, i)
    ensures |Step(cfg, s).trace| == |s.trace| && Step(cfg, s).running.Some?
    ensures if i == 0 then !LeftMinimal(Step(cfg, s)) else TooShort(Step(cfg, s), i - 1)
  {
    hide LeftMinimal, Core;
    EventFits(cfg, s);
    CoreSizes(cfg, s, {});
    ArrivalsFirst(cfg, s, i);
    var p := s.events[0].pid;
    PopArrivalCore(cfg, s);
    CoreSizes(cfg, Admit(Pop(s), p), {p});
    EnterCore(cfg, Admit(Pop(s), p), {p}, p);
    TooShortAfter(cfg, s, i);
  }

  lemma ArrivalsFirst(cfg: Config, s: State, i: nat)
    requires Inv(cfg, s) && cfg.policy.STCF? && s.running.Some? && TooShort(s, i)
    ensures s.events[0].kind.Arrival? && s.events[0].pid < |s.procs| && s.running.value < |s.procs|
    ensures s.procs[s.events[0].pid].remaining >= 0 == s.procs[s.running.value].remaining
  {
    RunningOk(cfg, s, {});
    assert EventOk(s, s.events[0]) && EventOk(s, s.events[i]);
    assert i > 0 ==> !Before(true, s.procs, s.events[i], s.events[0]);
    ProcAt(cfg, s, {}, s.events[0].pid);
  }

  lemma TooShortAfter(cfg: Config, s: State, i: nat)
    requires Inv(cfg, s) && cfg.policy.STCF? && s.running.Some? && TooShort(s, i)
    requires |Step(cfg, s).trace| == |s.trace| && Step(cfg, s).running.Some?
    ensures if i == 0 then !LeftMinimal(Step(cfg, s)) else TooShort(Step(cfg, s), i - 1)
  {
    hide Step, Inv;
    SliceGoesOn(cfg, s);
    ArrivalFinds(cfg, s);
    if i == 0 { assert s.events[0].pid in Flat(Step(cfg, s).ready); }
  }

  lemma {:induction false} TooShortBreaks(cfg: Config, k: nat, i: nat)
    requires ConfigOk(cfg) && cfg.policy.STCF? && Run(cfg, k).running.Some? && TooShort(Run(cfg, k), i)
    ensures SameSlice(cfg, k, i + 1) && !LeftMinimal(Run(cfg, k + i + 1))
    decreases i
  {
    hide Step, Inv, LeftMinimal;
    TooShortStep(cfg, Run(cfg, k), i);
    assert Run(cfg, k + 1) == Step(cfg, Run(cfg, k));
    if i > 0 {
      TooShortBreaks(cfg, k + 1, i - 1);
      assert k + 1 + (i - 1) + 1 == k + i + 1;
    }
  }

  lemma UnclearArrival(s: State) returns (i: nat)
    requires !Clear(s)
    ensures s.running.Some? && TooShort(s, i)
  {
    i :| 0 <= i < |s.events| && s.events[i].kind.Arrival? && s.events[i].time < End(s) &&
         Remaining(s.procs, s.events[i].pid) < End(s) - s.events[i].time;
  }

  // ----- exactly when STCF runs the process with least work left -----

  /** If the slice is still running after n more events, it is minimal then. */
  ghost predicate MinimalAfter(cfg: Config, k: nat, n: nat)
    requires ConfigOk(cfg)
  {
    SameSlice(cfg, k, n) ==> LeftMinimal(Run(cfg, k + n))
  }

  /** The slice running after k events is minimal for as long as it runs. */
  ghost predicate StaysMinimal(cfg: Config, k: nat)
    requires ConfigOk(cfg)
  {
    forall n: nat :: MinimalAfter(cfg, k, n)
  }

  lemma StaysMinimalIff(cfg: Config, k: nat)
    requires ConfigOk(cfg) && cfg.policy.STCF? && LeftMinimal(Run(cfg, k))
    ensures StaysMinimal(cfg, k) <==> Clear(Run(cfg, k))
  {
    hide Run, LeftMinimal, Clear;
    if Clear(Run(cfg, k)) {
      forall n: nat ensures MinimalAfter(cfg, k, n) {
        if SameSlice(cfg, k, n) { ClearStaysMinimal(cfg, k, n); }
      }
    } else {
      var i := UnclearArrival(Run(cfg, k));
      TooShortBreaks(cfg, k, i);
      assert k + i + 1 == k + (i + 1);
      assert !MinimalAfter(cfg, k, i + 1);
    }
  }

  /** STCF, every slice of every run: the running process has least work left until its slice ends, iff
      at the dispatch no pending arrival inside the slice is shorter than what will then be left of it.
      With no arrival due at the dispatch there is none inside. */
  lemma StcfSliceIff(cfg: Config, k: nat)
    requires ConfigOk(cfg) && cfg.policy.STCF?
    ensures Dispatches(cfg, k) ==> (StaysMinimal(cfg, k + 1) <==> Clear(Run(cfg, k + 1)))
    ensures Dispatches(cfg, k) && NoneDue(Run(cfg, k + 1)) ==> Clear(Run(cfg, k + 1))
  {
    hide Run, LeftMinimal, Clear, NoneDue;
    StcfDispatchesShortest(cfg, k);
    if Dispatches(cfg, k) { StaysMinimalIff(cfg, k + 1); }
  }

  lemma {:induction false} ClearRunMinimal(cfg: Config, k: nat)
    requires ConfigOk(cfg) && cfg.policy.STCF? && forall j: nat :: Clear(Run(cfg, j))
    ensures LeftMinimal(Run(cfg, k))
  {
    hide Step, Inv, Clear;
    if k > 0 {
      ClearRunMinimal(cfg, k - 1);
      var s := Run(cfg, k - 1);
      if |s.events| > 0 {
        assert Run(cfg, k) == Step(cfg, s);
        StcfDispatchesShortest(cfg, k - 1);
        assert Clear(s);
        if |Run(cfg, k).trace| == |s.trace| && Run(cfg, k).running.Some? { SliceKeeps(cfg, s); }
      }
    }
  }

  /** STCF is preemptive shortest-job-first throughout a run, that is, nobody ready ever has less work
      left than the running process, iff no state of the run has such an arrival ahead. */
  lemma StcfPreemptiveIff(cfg: Config)
    requires ConfigOk(cfg) && cfg.policy.STCF?
    ensures (forall k: nat :: LeftMinimal(Run(cfg, k))) <==> (forall k: nat :: Clear(Run(cfg, k)))
  {
    hide Run, LeftMinimal, Clear;
    if forall k: nat :: Clear(Run(cfg, k)) {
      forall k: nat ensures LeftMinimal(Run(cfg, k)) { ClearRunMinimal(cfg, k); }
    } else {
      var k: nat :| !Clear(Run(cfg, k));
      var i := UnclearArrival(Run(cfg, k));
      TooShortBreaks(cfg, k, i);
    }
  }

  // ----- a workload for which it always does -----

  /** A process that arrives later is never shorter. */
  ghost predicate LaterIsLonger(jobs: seq<Job>) {
    forall p, q :: 0 <= p < |jobs| && 0 <= q < |jobs| && jobs[p].arrival < jobs[q].arrival ==>
      jobs[p].burst <= jobs[q].burst
  }

  /** Of two processes that arrive together the one whose arrival is still pending is not shorter. */
  ghost predicate TiesInOrder(cfg: Config, s: State)
    requires |s.hist| == |cfg.jobs|
  {
    forall p, q :: 0 <= p < |cfg.jobs| && 0 <= q < |cfg.jobs| ==>
      (cfg.jobs[p].arrival == cfg.jobs[q].arrival && !s.hist[p].phase.Future? && s.hist[q].phase.Future? ==>
         cfg.jobs[p].burst <= cfg.jobs[q].burst)
  }

  lemma ArrivalPhases(cfg: Config, s: State, q: nat)
    requires Inv(cfg, s) && |s.events| > 0 && s.events[0].kind.Arrival? && q < |cfg.jobs|
    ensures |OnArrival(cfg, s).hist| == |s.hist| == |cfg.jobs|
    ensures OnArrival(cfg, s).hist[q].phase.Future? <==> s.hist[q].phase.Future? && s.events[0].pid != q
  {
    hide TraceOk, Sorted, EventOk, Dispatch, RemoveEvent;
    EventFits(cfg, s);
    RunningOk(cfg, s, {});
    var p := s.events[0].pid;
    var s1 := Admit(Pop(s), p);
    DispatchFrame(cfg.policy, s1, p, false);
    if s.running.Some? && Preempts(cfg.policy, s1, p) {
      DispatchFrame(cfg.policy, Preempted(cfg.policy, s1, s.running.value), p, false);
    }
  }

  /** A process stops being a future one when its arrival is handled, and only then. */
  lemma StepPhases(cfg: Config, s: State, q: nat)
    requires Inv(cfg, s) && |s.events| > 0 && q < |cfg.jobs|
    ensures |Step(cfg, s).hist| == |s.hist| == |cfg.jobs|
    ensures Step(cfg, s).hist[q].phase.Future? <==>
      s.hist[q].phase.Future? && !(s.events[0].kind.Arrival? && s.events[0].pid == q)
  {
    hide TraceOk, Sorted, Serve;
    EventFits(cfg, s);
    assert EventOk(s, s.events[0]);
    RunningOk(cfg, s, {});
    match s.events[0].kind {
      case Arrival => ArrivalPhases(cfg, s, q);
      case Completion =>
        PopCompletionCore(cfg, s);
        ServePhases(cfg, Leave(Pop(s)), false, q);
      case Expire =>
        var p := s.events[0].pid;
        PopExpireCore(cfg, s);
        ReturnCore(cfg, Yield(Pop(s)), {p}, p);
        assert {p} - {p} == {};
        ServePhases(cfg, Return(cfg.policy, Yield(Pop(s)), p), true, q);
    }
  }

  lemma ServePhases(cfg: Config, s: State, guard: bool, q: nat)
    requires Core(cfg, s, {}) && q < |cfg.jobs|
    ensures !Empty(s.ready) ==> Head(s.ready) < |cfg.jobs|
    ensures |Serve(cfg.policy, s, guard).hist| == |cfg.jobs| == |s.hist|
    ensures Serve(cfg.policy, s, guard).hist[q].phase.Future? <==> s.hist[q].phase.Future?
  {
    if !Empty(s.ready) {
      DequeueCore(cfg, s, {});
      DequeueTakes(s.ready, Head(s.ready));
      ProcAt(cfg, s, {}, Head(s.ready));
      DispatchFrame(cfg.policy, s.(ready := Rest(s.ready)), Head(s.ready), guard);
    }
  }

  /** The first of several arrivals due together is a shortest one. */
  lemma FirstOfTies(cfg: Config, s: State, q: nat)
    requires Inv(cfg, s) && cfg.policy.STCF? && |s.events| > 0 && s.events[0].kind.Arrival?
    requires q < |cfg.jobs| == |s.hist|
    requires s.events[0].pid < |cfg.jobs| && cfg.jobs[s.events[0].pid].arrival == cfg.jobs[q].arrival
    requires s.hist[q].phase.Future?
    ensures cfg.jobs[s.events[0].pid].burst <= cfg.jobs[q].burst
  {
    var p := s.events[0].pid;
    assert EventOk(s, s.events[0]);
    ProcAt(cfg, s, {}, p);
    ProcAt(cfg, s, {}, q);
    EventPresent(s.events, q);
    var i := EventOf(s.events, q);
    assert EventOk(s, s.events[i]);
    assert i > 0 ==> !Before(true, s.procs, s.events[i], s.events[0]);
  }

  lemma {:induction false} TiesStayInOrder(cfg: Config, k: nat)
    requires ConfigOk(cfg) && cfg.policy.STCF?
    ensures TiesInOrder(cfg, Run(cfg, k))
  {
    hide Step, Inv;
    if k > 0 {
      TiesStayInOrder(cfg, k - 1);
      var s := Run(cfg, k - 1);
      if |s.events| > 0 { TiesStep(cfg, s); }
    }
  }

  lemma TiesStep(cfg: Config, s: State)
    requires Inv(cfg, s) && cfg.policy.STCF? && |s.events| > 0 && TiesInOrder(cfg, s)
    ensures |Step(cfg, s).hist| == |cfg.jobs| && TiesInOrder(cfg, Step(cfg, s))
  {
    hide Step, Core;
    CoreSizes(cfg, s, {});
    forall q: nat | q < |cfg.jobs|
      ensures |Step(cfg, s).hist| == |cfg.jobs|
      ensures Step(cfg, s).hist[q].phase.Future? <==>
        s.hist[q].phase.Future? && !(s.events[0].kind.Arrival? && s.events[0].pid == q)
    {
      StepPhases(cfg, s, q);
    }
    var p := s.events[0].pid;
    EventFits(cfg, s);
    StepPhases(cfg, s, p);
    forall q: nat | q < |cfg.jobs| && s.events[0].kind.Arrival? && cfg.jobs[p].arrival == cfg.jobs[q].arrival
        && s.hist[q].phase.Future?
      ensures cfg.jobs[p].burst <= cfg.jobs[q].burst
    {
      FirstOfTies(cfg, s, q);
    }
  }

  lemma {:induction false} RanNonNegative(trace: seq<Seg>, p: nat)
    requires forall i :: 0 <= i < |trace| ==> trace[i].from <= trace[i].to
    ensures Ran(trace, p) >= 0
  {
    if |trace| > 0 { RanNonNegative(trace[..|trace| - 1], p); }
  }

  /** The running process's slice began after it had arrived and is no longer than its burst. */
  lemma SliceInBurst(cfg: Config, s: State)
    requires Inv(cfg, s) && s.running.Some?
    ensures |s.trace| > 0 && s.running.value < |cfg.jobs|
    ensures var g, job := s.trace[|s.trace| - 1], cfg.jobs[s.running.value];
      job.arrival <= g.from <= s.now && g.to == End(s) && End(s) - g.from <= job.burst
  {
    RunningOk(cfg, s, {});
    RanNonNegative(s.trace[..|s.trace| - 1], s.running.value);
  }

  lemma LongerIsClear(cfg: Config, k: nat)
    requires ConfigOk(cfg) && cfg.policy.STCF? && LaterIsLonger(cfg.jobs)
    ensures Clear(Run(cfg, k))
  {
    hide TraceOk, Step;
    var s := Run(cfg, k);
    TiesStayInOrder(cfg, k);
    if s.running.Some? {
      SliceInBurst(cfg, s);
      RunningOk(cfg, s, {});
      forall i | 0 <= i < |s.events| && s.events[i].kind.Arrival? && s.events[i].time < End(s)
        ensures Remaining(s.procs, s.events[i].pid) >= End(s) - s.events[i].time
      {
        assert EventOk(s, s.events[i]);
        ProcAt(cfg, s, {}, s.events[i].pid);
      }
    }
  }

  /** If no process is shorter than one that arrives before it, nobody ready ever has less work left than
      the running process. */
  lemma StcfMinimalIfLonger(cfg: Config, k: nat)
    requires ConfigOk(cfg) && cfg.policy.STCF? && LaterIsLonger(cfg.jobs)
    ensures LeftMinimal(Run(cfg, k))
  {
    forall j: nat ensures Clear(Run(cfg, j)) { LongerIsClear(cfg, j); }
    ClearRunMinimal(cfg, k);
  }

  // ----- it does not always -----

  /** Two processes at time 0 with bursts 10 and 20, and one at time 5 with burst 1. */
  function Example(): Config {
    Config(STCF, [Job(0, 10), Job(0, 20), Job(5, 1)])
  }

  lemma ExampleStart()
    ensures ConfigOk(Example())
    ensures Init(Example()).events == [Event(0, Arrival, 0), Event(0, Arrival, 1), Event(5, Arrival, 2)]
  {
    var procs := InitProcs(Example().jobs);
    assert Insertions(true, procs, 1) == [Event(0, Arrival, 0)];
    assert Insertions(true, procs, 2) == [Event(0, Arrival, 0), Event(0, Arrival, 1)];
  }

  /** The example once process 0 runs: nothing changes but the clock and the two queues. */
  ghost predicate ExampleRuns(s: State) {
    && s.running == Some(0) && |s.procs| == |s.hist| == 3
    && Remaining(s.procs, 0) == 0 && Remaining(s.procs, 1) == 20 && Remaining(s.procs, 2) == 1
    && s.trace == [Seg(0, 0, 0, 10)] && s.ready.Line? && s.procs[1].priority == 0 == s.procs[2].priority
  }

  /** The example when its first arrival is handled. */
  function ExampleAdmitted(): State {
    Admit(Pop(Init(Example()).(
      events := [Event(0, Arrival, 0), Event(0, Arrival, 1), Event(5, Arrival, 2)])), 0)
  }

  lemma ExampleDispatch()
    ensures ConfigOk(Example()) && |Run(Example(), 0).trace| == 0
    ensures var s := Run(Example(), 1);
      && ExampleRuns(s) && s.ready == Line([])
      && s.events == [Event(0, Arrival, 1), Event(5, Arrival, 2), Event(10, Completion, 0)]
  {
    hide Insertions, Dispatch, Inv;
    ExampleStart();
    RunNext(Example(), 0);
    assert Run(Example(), 1) == Dispatch(STCF, ExampleAdmitted(), 0, false);
    ExampleFirst();
  }

  lemma ExampleFirst()
    ensures var s := Dispatch(STCF, ExampleAdmitted(), 0, false);
      && ExampleRuns(s) && s.ready == Line([])
      && s.events == [Event(0, Arrival, 1), Event(5, Arrival, 2), Event(10, Completion, 0)]
  {
    hide Insertions;
    var s := ExampleAdmitted();
    assert RunTime(STCF, s, 0) == 10;
  }

  /** An arrival in the example joins the line. */
  lemma ExampleArrival(s: State, p: nat)
    requires Inv(Example(), s) && ExampleRuns(s) && |s.events| > 0
    requires s.events[0].kind.Arrival? && 0 < s.events[0].pid == p < 3
    ensures var s' := Step(Example(), s);
      && ExampleRuns(s') && s'.now == s.events[0].time && s'.events == s.events[1..]
      && s'.ready == Line(InsertAt(s.ready.q, LinePos(STCF, s.procs, s.ready.q, p), p))
  {
    hide Inv, LinePos, Dispatch, OnCompletion, OnExpire, Enter;
    EventFits(Example(), s);
    ExampleEnters(Admit(Pop(s), p), p);
  }

  lemma ExampleEnters(s: State, p: nat)
    requires ExampleRuns(s) && 0 < p < 3
    ensures Enter(STCF, s, p) == s.(ready := Line(InsertAt(s.ready.q, LinePos(STCF, s.procs, s.ready.q, p), p)))
  {
    hide LinePos, InsertAt;
    assert s.procs[p := s.procs[p]] == s.procs;
  }

  /** The first dispatch finds the second arrival due and runs to completion, so that at time 5 a process
      with one unit of work waits for one that has five units left. */
  lemma StcfCounterexample()
    ensures ConfigOk(Example()) && Dispatches(Example(), 0) && !Clear(Run(Example(), 1))
    ensures var s := Run(Example(), 3);
      && s.now == 5 && s.running == Some(0) && Left(s) == 5
      && 2 in Flat(s.ready) && Remaining(s.procs, 2) == 1 && !LeftMinimal(s)
  {
    hide Run, Step, Inv;
    var cfg := Example();
    ExampleDispatch();
    var s1 := Run(cfg, 1);
    assert s1.events[1] == Event(5, Arrival, 2);
    ExampleArrival(s1, 1);
    RunNext(cfg, 1);
    var s2 := Run(cfg, 2);
    assert s2.events == [Event(5, Arrival, 2), Event(10, Completion, 0)];
    ExampleArrival(s2, 2);
    RunNext(cfg, 2);
    var s3 := Run(cfg, 3);
    InsertedMembers(s2.ready.q, LinePos(STCF, s2.procs, s2.ready.q, 2), 2, 2);
    assert 2 in Flat(s3.ready);
  }
}
