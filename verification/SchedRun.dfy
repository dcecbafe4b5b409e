/** The event loop: one event handled per step, for all five policies. */
module SchedRun {
  import opened Wrappers
  import opened Processes
  import opened SchedModel
  import opened SchedInv
  import opened Sums

  /** STCF plans a slice up to the next arrival: work left over means no arrival comes earlier. */
  ghost predicate SliceEndsFirst(cfg: Config, s: State)
    requires |s.procs| == |cfg.jobs|
  {
    cfg.policy.STCF? && s.running.Some? && s.running.value < |cfg.jobs| && s.procs[s.running.value].remaining > 0 ==>
      forall i :: 0 <= i < |s.events| && s.events[i].kind.Arrival? ==> s.events[i].time >= End(s)
  }

  /** What holds between events: the core agreement, and an idle CPU means nobody is ready. */
  ghost predicate Inv(cfg: Config, s: State) {
    && Core(cfg, s, {})
    && (s.running.None? ==> Empty(s.ready))
    && SliceEndsFirst(cfg, s)
  }

  // ----- one event -----

  /** The next event is one the handlers accept for the process they find running. */
  lemma EventFits(cfg: Config, s: State)
    requires Inv(cfg, s) && |s.events| > 0
    ensures var e, s0 := s.events[0], Pop(s);
      && e.pid < |cfg.jobs| && s.procs[e.pid].priority >= 0
      && (!e.kind.Arrival? ==> s.running == Some(e.pid))
      && Fits(cfg.policy, s.ready)
      && (s.running.Some? ==> s.running.value < |cfg.jobs| && s.procs[s.running.value].priority >= 0)
      && (!Empty(s.ready) ==> Head(s.ready) < |cfg.jobs|)
  {
    assert EventOk(s, s.events[0]);
    assert ProcOk(cfg, s, {}, s.events[0].pid);
    if s.running.Some? { assert ProcOk(cfg, s, {}, s.running.value); }
    if !Empty(s.ready) { DequeueCore(cfg, s, {}); }
  }

  /** STCF preemption: the running process's event is cancelled and it goes back to the queue. */
  function Preempted(pol: Policy, s: State, r: nat): State
    requires s.running == Some(r) && r < |s.hist| == |s.procs| && Fits(pol, s.ready) && s.procs[r].priority >= 0
  {
    Enter(pol, Yield(s.(events := RemoveEvent(s.events, r))), r)
  }

  ghost function OnArrival(cfg: Config, s: State): State
    requires Inv(cfg, s) && |s.events| > 0 && s.events[0].kind.Arrival?
  {
    EventFits(cfg, s);
    var p := s.events[0].pid;
    var s1 := Admit(Pop(s), p);
    match s.running
    case None => Dispatch(cfg.policy, s1, p, false)
    case Some(r) =>
      if Preempts(cfg.policy, s1, p) then Dispatch(cfg.policy, Preempted(cfg.policy, s1, r), p, false)
      else Enter(cfg.policy, s1, p)
  }

  ghost function OnCompletion(cfg: Config, s: State): State
    requires Inv(cfg, s) && |s.events| > 0 && s.events[0].kind.Completion?
  {
    EventFits(cfg, s);
    Serve(cfg.policy, Leave(Pop(s)), false)
  }

  ghost function OnExpire(cfg: Config, s: State): State
    requires Inv(cfg, s) && |s.events| > 0 && s.events[0].kind.Expire?
  {
    EventFits(cfg, s);
    PopExpireCore(cfg, s);
    var p := s.events[0].pid;
    var s1 := Yield(Pop(s));
    ReturnCore(cfg, s1, {p}, p);
    var s2 := Return(cfg.policy, s1, p);
    if !Empty(s2.ready) then DequeueCore(cfg, s2, {p} - {p}); Serve(cfg.policy, s2, true)
    else Serve(cfg.policy, s2, true)
  }

  /** One iteration of the event loop. */
  ghost function Step(cfg: Config, s: State): State
    requires Inv(cfg, s) && |s.events| > 0
  {
    match s.events[0].kind
    case Arrival => OnArrival(cfg, s)
    case Completion => OnCompletion(cfg, s)
    case Expire => OnExpire(cfg, s)
  }

  // ----- the invariant is kept -----

  lemma ServeCore(cfg: Config, s: State, guard: bool)
    requires Core(cfg, s, {}) && s.running.None?
    ensures !Empty(s.ready) ==> Head(s.ready) < |cfg.jobs|
    ensures var s' := Serve(cfg.policy, s, guard);
      Core(cfg, s', {}) && (s'.running.None? ==> Empty(s'.ready))
  {
    if !Empty(s.ready) {
      DequeueCore(cfg, s, {});
      var p := Head(s.ready);
      DispatchCore(cfg, s.(ready := Rest(s.ready)), {} + {p}, p, guard);
      assert {} + {p} - {p} == {};
    }
  }

  /** After a dispatch under STCF, leftover work means the slice ends at the next arrival. */
  lemma DispatchEndsFirst(cfg: Config, s: State, hand: set<nat>, p: nat, guard: bool)
    requires Core(cfg, s, hand) && p in hand && s.running.None?
    ensures SliceEndsFirst(cfg, Dispatch(cfg.policy, s, p, guard))
  {
    var s' := Dispatch(cfg.policy, s, p, guard);
    if cfg.policy.STCF? {
      ChargeOk(cfg, s, hand, p, guard);
      var e := Event(s.now + RunTime(cfg.policy, s, p), if s'.procs[p].remaining == 0 then Completion else Expire, p);
      var k := EventPos(true, s'.procs, s.events, e);
      InsertKeeps(s.events, k, e);
      forall i | 0 <= i < |s.events| && s.events[i].kind.Arrival?
        ensures s'.procs[p].remaining > 0 ==> s.events[i].time >= End(s')
      {
        var n := NextArrival(s.events);
        assert n < i ==> !Before(true, s.procs, s.events[i], s.events[n]);
      }
    }
  }

  /** An event cancelled by preemption belongs to the running process, is its only one and is due now. */
  lemma CancelledIsDue(cfg: Config, s: State)
    requires Inv(cfg, s) && |s.events| > 0 && s.events[0].kind.Arrival?
    requires s.running.Some? && s.events[0].pid < |cfg.jobs|
    requires s.running.value < |cfg.jobs| && Preempts(cfg.policy, s, s.events[0].pid)
    ensures var s0, r := Pop(s), s.running.value;
      && s0.now == End(s) && EventCount(s0.events, r) == 1 && s.procs[r].remaining > 0
      && EventOf(s0.events, r) < |s0.events| && s0.events[EventOf(s0.events, r)].time == s0.now
      && s0.events[EventOf(s0.events, r)].kind.Expire?
  {
    var s0, r, p := Pop(s), s.running.value, s.events[0].pid;
    assert ProcOk(cfg, s, {}, r) && ProcOk(cfg, s, {}, p);
    PopEvents(cfg, s, {});
    EventPresent(s0.events, r);
    assert EventOk(s, s0.events[EventOf(s0.events, r)]);
    assert EventOk(s, s.events[0]);
  }

  lemma RemovedEvent(q: seq<Event>, k: nat, i: nat)
    requires k < |q| && i < |q| - 1
    ensures RemoveAt(q, k)[i] == q[if i < k then i else i + 1]
  {
  }

  lemma RemovedSorted(byRemaining: bool, procs: seq<Proc>, q: seq<Event>, k: nat)
    requires k < |q| && Sorted(byRemaining, procs, q)
    ensures Sorted(byRemaining, procs, RemoveAt(q, k))
  {
    forall i, j | 0 <= i < j < |q| - 1 ensures !Before(byRemaining, procs, RemoveAt(q, k)[j], RemoveAt(q, k)[i]) {
      RemovedEvent(q, k, i);
      RemovedEvent(q, k, j);
    }
  }

  lemma CancelledEvents(cfg: Config, s: State, hand: set<nat>, r: nat)
    requires Core(cfg, s, hand) && s.running == Some(r) && r < |cfg.jobs|
    ensures var q := RemoveEvent(s.events, r);
      && (forall i :: 0 <= i < |q| ==> q[i].pid != r && q[i].time >= s.now && EventOk(s, q[i]))
      && Sorted(ByRemaining(cfg.policy), s.procs, q)
      && forall p :: EventCount(q, p) == EventCount(s.events, p) - One(p == r)
  {
    hide TraceOk, Account, Traced, Sorted;
    var q, k := RemoveEvent(s.events, r), EventOf(s.events, r);
    assert ProcOk(cfg, s, hand, r);
    EventPresent(s.events, r);
    RemovedSorted(ByRemaining(cfg.policy), s.procs, s.events, k);
    forall p ensures EventCount(q, p) == EventCount(s.events, p) - One(p == r) { EventRemoved(s.events, k, p); }
    EventPresent(q, r);
    forall i | 0 <= i < |q| ensures q[i].time >= s.now && EventOk(s, q[i]) {
      RemovedEvent(s.events, k, i);
      assert EventOk(s, s.events[if i < k then i else i + 1]);
    }
  }

  lemma PreemptCore(cfg: Config, s: State, hand: set<nat>, r: nat)
    requires Core(cfg, s, hand) && s.running == Some(r) && r < |cfg.jobs|
    requires s.now == End(s) && s.procs[r].remaining > 0
    ensures Fits(cfg.policy, s.ready) && s.procs[r].priority >= 0
    ensures Core(cfg, Preempted(cfg.policy, s, r), hand)
    ensures Preempted(cfg.policy, s, r).running.None?
  {
    var s2 := s.(events := RemoveEvent(s.events, r));
    assert ProcOk(cfg, s, hand, r);
    CancelledEvents(cfg, s, hand, r);
    YieldCore(cfg, s, s2, hand);
    EnterCore(cfg, Yield(s2), hand + {r}, r);
    assert hand + {r} - {r} == hand;
  }

  lemma PreemptInv(cfg: Config, s: State, p: nat, r: nat)
    requires Core(cfg, s, {p}) && s.running == Some(r) && r < |cfg.jobs| && p < |cfg.jobs|
    requires s.now == End(s) && s.procs[r].remaining > 0
    ensures Fits(cfg.policy, s.ready) && s.procs[r].priority >= 0
    ensures Inv(cfg, Dispatch(cfg.policy, Preempted(cfg.policy, s, r), p, false))
  {
    hide Core, SliceEndsFirst, Preempted;
    CoreSizes(cfg, s, {p});
    PreemptCore(cfg, s, {p}, r);
    assert {p} - {p} == {};
    DispatchCore(cfg, Preempted(cfg.policy, s, r), {p}, p, false);
    DispatchEndsFirst(cfg, Preempted(cfg.policy, s, r), {p}, p, false);
  }

  lemma EnterInv(cfg: Config, s: State, p: nat)
    requires Inv(cfg, s) && |s.events| > 0 && s.events[0].kind.Arrival? && s.events[0].pid == p < |cfg.jobs|
    requires Core(cfg, Admit(Pop(s), p), {p}) && s.running.Some?
    ensures Fits(cfg.policy, s.ready) && Entered(cfg.policy, s.procs[p]).priority >= 0
    ensures Inv(cfg, Enter(cfg.policy, Admit(Pop(s), p), p))
  {
    hide ProcOk, EventOk, Sorted, TraceOk;
    var s1 := Admit(Pop(s), p);
    EnterCore(cfg, s1, {p}, p);
    assert {p} - {p} == {};
    assert forall i :: 0 <= i < |s1.events| ==> s1.events[i] == s.events[i + 1];
  }

  lemma ArrivalInv(cfg: Config, s: State)
    requires Inv(cfg, s) && |s.events| > 0 && s.events[0].kind.Arrival?
    ensures Inv(cfg, OnArrival(cfg, s))
  {
    hide Core, SliceEndsFirst, Dispatch, Preempted;
    EventFits(cfg, s);
    CoreSizes(cfg, s, {});
    PopArrivalCore(cfg, s);
    var p := s.events[0].pid;
    var s1 := Admit(Pop(s), p);
    assert {p} - {p} == {};
    if s.running.None? {
      DispatchCore(cfg, s1, {p}, p, false);
      DispatchFrame(cfg.policy, s1, p, false);
      DispatchEndsFirst(cfg, s1, {p}, p, false);
    } else if Preempts(cfg.policy, s1, p) {
      CancelledIsDue(cfg, s);
      PreemptInv(cfg, s1, p, s.running.value);
    } else {
      EnterInv(cfg, s, p);
    }
  }

  lemma ServeEndsFirst(cfg: Config, s: State, guard: bool)
    requires Core(cfg, s, {}) && s.running.None?
    ensures !Empty(s.ready) ==> Head(s.ready) < |cfg.jobs|
    ensures SliceEndsFirst(cfg, Serve(cfg.policy, s, guard))
  {
    if !Empty(s.ready) {
      DequeueCore(cfg, s, {});
      DispatchEndsFirst(cfg, s.(ready := Rest(s.ready)), {} + {Head(s.ready)}, Head(s.ready), guard);
    }
  }

  lemma StepInv(cfg: Config, s: State)
    requires Inv(cfg, s) && |s.events| > 0
    ensures Inv(cfg, Step(cfg, s))
  {
    match s.events[0].kind {
      case Arrival => ArrivalInv(cfg, s);
      case Completion =>
        PopCompletionCore(cfg, s);
        ServeCore(cfg, Leave(Pop(s)), false);
        ServeEndsFirst(cfg, Leave(Pop(s)), false);
      case Expire =>
        var p := s.events[0].pid;
        PopExpireCore(cfg, s);
        ReturnCore(cfg, Yield(Pop(s)), {p}, p);
        assert {p} - {p} == {};
        ServeCore(cfg, Return(cfg.policy, Yield(Pop(s)), p), true);
        ServeEndsFirst(cfg, Return(cfg.policy, Yield(Pop(s)), p), true);
    }
  }

  // ----- the initial state -----

  lemma {:induction false} InsertionsOk(byRemaining: bool, procs: seq<Proc>, n: nat)
    requires n <= |procs|
    ensures var q := Insertions(byRemaining, procs, n);
      && |q| == n
      && Sorted(byRemaining, procs, q)
      && (forall i :: 0 <= i < |q| ==> q[i].pid < n && q[i] == Event(procs[q[i].pid].arrival, Arrival, q[i].pid))
      && forall p :: 0 <= p ==> EventCount(q, p) == One(p < n)
  {
    if n > 0 {
      InsertionsOk(byRemaining, procs, n - 1);
      var q := Insertions(byRemaining, procs, n - 1);
      var e := Event(procs[n - 1].arrival, Arrival, n - 1);
      InsertSorted(byRemaining, procs, q, e);
      InsertKeeps(q, EventPos(byRemaining, procs, q, e), e);
      forall p: nat ensures EventCount(InsertEvent(byRemaining, procs, q, e), p) == One(p < n) {
        EventInserted(q, EventPos(byRemaining, procs, q, e), e, p);
      }
    }
  }

  lemma InitEmpty(pol: Policy, p: nat)
    requires pol.MLFQ? ==> |pol.levels| > 0
    ensures Fits(pol, InitReady(pol)) && Empty(InitReady(pol)) && ReadyCount(InitReady(pol), p) == 0
  {
    EmptyCounts(InitReady(pol), p);
  }

  lemma InitProc(cfg: Config, p: nat)
    requires ConfigOk(cfg) && p < |cfg.jobs|
    ensures ProcOk(cfg, Init(cfg), {}, p)
  {
    InsertionsOk(ByRemaining(cfg.policy), InitProcs(cfg.jobs), |cfg.jobs|);
    InitEmpty(cfg.policy, p);
    assert EventCount(Init(cfg).events, p) == 1;
  }

  lemma InitEvents(cfg: Config)
    requires ConfigOk(cfg)
    ensures var s := Init(cfg);
      Sorted(ByRemaining(cfg.policy), s.procs, s.events) && forall i :: 0 <= i < |s.events| ==> EventOk(s, s.events[i])
  {
    var s := Init(cfg);
    InsertionsOk(ByRemaining(cfg.policy), s.procs, |s.procs|);
    forall i | 0 <= i < |s.events| ensures EventOk(s, s.events[i]) {
      assert s.events[i].pid < |s.procs|;
    }
  }

  lemma InitInv(cfg: Config)
    requires ConfigOk(cfg)
    ensures Inv(cfg, Init(cfg))
  {
    hide ProcOk, EventOk, Sorted, Insertions, Empty;
    InitEvents(cfg);
    InitEmpty(cfg.policy, 0);
    forall p | 0 <= p < |cfg.jobs| ensures ProcOk(cfg, Init(cfg), {}, p) { InitProc(cfg, p); }
    forall p: nat ensures ReadyCount(Init(cfg).ready, p) == 0 { InitEmpty(cfg.policy, p); }
  }

  /** The state after k events, or the final one if the loop has ended before. */
  ghost function Run(cfg: Config, k: nat): (s: State)
    requires ConfigOk(cfg)
    ensures Inv(cfg, s)
  {
    if k == 0 then InitInv(cfg); Init(cfg) else
      var s := Run(cfg, k - 1);
      if |s.events| == 0 then s else StepInv(cfg, s); Step(cfg, s)
  }

  lemma RunNext(cfg: Config, k: nat)
    requires ConfigOk(cfg) && |Run(cfg, k).events| > 0
    ensures Run(cfg, k + 1) == Step(cfg, Run(cfg, k))
  {
  }
}
