/** MLFQ without boosts: levels are kept in first-come order, a process never moves up, and it leaves a
    level that has both a quantum and an allotment after a bounded amount of CPU time there. */
module SchedMlfq {
  import opened Wrappers
  import opened Processes
  import opened SchedModel
  import opened SchedInv
  import opened SchedRun

  /** CPU time the trace gives to process p while it is at level l. */
  function Used(trace: seq<Seg>, p: nat, l: int): int {
    if |trace| == 0 then 0 else
      var g := trace[|trace| - 1];
      Used(trace[..|trace| - 1], p, l) + if g.pid == p && g.level == l then g.to - g.from else 0
  }

  lemma UsedAppend(trace: seq<Seg>, g: Seg, p: nat, l: int)
    ensures Used(trace + [g], p, l) == Used(trace, p, l) + if g.pid == p && g.level == l then g.to - g.from else 0
  {
    assert (trace + [g])[..|trace|] == trace;
  }

  /** A level a process must leave: not the last one, with a quantum and an allotment. */
  predicate Limited(pol: Policy, l: int) {
    pol.MLFQ? && 0 <= l && l + 1 < |pol.levels| && Quantum(pol, l) > 0 && Allotment(pol, l) > 0
  }

  /** The time used at the process's level is what it records; at lower levels it has used none. Every
      level it has left has an allotment, and it has used that up, at limited levels by no more than one
      quantum less one. While it is not on the CPU the record is below the allotment of a limited level. */
  ghost predicate UseOk(pol: Policy, trace: seq<Seg>, pr: Proc, onCpu: bool, p: nat)
    requires pol.MLFQ?
  {
    && pr.inQueue >= 0
    && (forall l :: l >= pr.priority ==> Used(trace, p, l) == if l == pr.priority then pr.inQueue else 0)
    && (forall l :: 0 <= l < pr.priority && l < |pol.levels| ==>
          pol.levels[l].allotment != -1 && Used(trace, p, l) >= pol.levels[l].allotment)
    && (forall l :: l < pr.priority && Limited(pol, l) ==> Used(trace, p, l) <= Allotment(pol, l) - 1 + Quantum(pol, l))
    && (Limited(pol, pr.priority) ==>
          pr.inQueue <= Allotment(pol, pr.priority) - 1 + if onCpu then Quantum(pol, pr.priority) else 0)
  }

  function Priority(s: State, p: nat): int {
    if p < |s.procs| then s.procs[p].priority else 0
  }

  /** Waiting processes stand at their own level, in the order in which they joined it. */
  ghost predicate LevelsOk(s: State) {
    && s.ready.Levels?
    && (forall l, i :: 0 <= l < |s.ready.levels| && 0 <= i < |s.ready.levels[l]| ==>
          Priority(s, s.ready.levels[l][i]) == l)
    && (forall l, i, j :: 0 <= l < |s.ready.levels| && 0 <= i < j < |s.ready.levels[l]| ==>
          Since(s, s.ready.levels[l][i]) <= Since(s, s.ready.levels[l][j]))
  }

  ghost predicate UseAll(cfg: Config, s: State)
    requires cfg.policy.MLFQ? && |s.procs| == |s.hist| == |cfg.jobs|
  {
    forall p :: 0 <= p < |cfg.jobs| ==> UseOk(cfg.policy, s.trace, s.procs[p], !s.hist[p].phase.Waiting?, p)
  }

  // ----- the level queues -----

  /** Levels stay in order when only processes that stand at no level change. */
  lemma LevelsKept(s: State, s': State, p: nat)
    requires LevelsOk(s) && s'.ready == s.ready && ReadyCount(s.ready, p) == 0
    requires forall q :: q != p ==> Since(s', q) == Since(s, q) && Priority(s', q) == Priority(s, q)
    ensures LevelsOk(s')
  {
    forall l, i | 0 <= l < |s.ready.levels| && 0 <= i < |s.ready.levels[l]| ensures s.ready.levels[l][i] != p {
      AtNoLevel(s.ready.levels, p, l);
    }
  }

  /** Joining a level at its end, last of all. */
  lemma LevelJoined(s: State, s': State, p: nat, l: nat)
    requires LevelsOk(s) && l < |s.ready.levels| && s'.ready == Levels(s.ready.levels[l := s.ready.levels[l] + [p]])
    requires forall q :: Since(s', q) == Since(s, q) && (q != p ==> Priority(s', q) == Priority(s, q))
    requires ReadyCount(s.ready, p) == 0 && Priority(s', p) == l
    requires forall i :: 0 <= i < |s.ready.levels[l]| ==> Since(s, s.ready.levels[l][i]) <= Since(s, p)
    ensures LevelsOk(s')
  {
    hide Since, Priority;
    forall k, i | 0 <= k < |s.ready.levels| && 0 <= i < |s.ready.levels[k]| ensures s.ready.levels[k][i] != p {
      AtNoLevel(s.ready.levels, p, k);
    }
  }

  lemma LevelsRest(s: State)
    requires LevelsOk(s) && !Empty(s.ready)
    ensures LevelsOk(s.(ready := Rest(s.ready)))
  {
  }

  /** Everybody at a level has been waiting since now at the latest. */
  lemma SinceBound(cfg: Config, s: State, hand: set<nat>, l: nat, i: nat)
    requires Core(cfg, s, hand) && s.ready.Levels? && l < |s.ready.levels| && i < |s.ready.levels[l]|
    ensures s.ready.levels[l][i] < |cfg.jobs| && Since(s, s.ready.levels[l][i]) <= s.now
  {
    var x := s.ready.levels[l][i];
    CountPositive(Concat(s.ready.levels), x);
    if Count(Concat(s.ready.levels), x) == 0 { AtNoLevel(s.ready.levels, x, l); }
    assert ReadyCount(s.ready, x) > 0;
    ProcAt(cfg, s, hand, x);
  }

  lemma JoinLevels(cfg: Config, s: State, s': State, p: nat, l: nat)
    requires Core(cfg, s, {p}) && LevelsOk(s) && l < |s.ready.levels| && s.hist[p].since == s.now
    requires s' == s.(ready := Levels(s.ready.levels[l := s.ready.levels[l] + [p]]), procs := s'.procs)
    requires |s'.procs| == |s.procs| && s'.procs[p].priority == l
    requires forall q :: 0 <= q < |s.procs| && q != p ==> s'.procs[q] == s.procs[q]
    ensures LevelsOk(s')
  {
    assert ProcOk(cfg, s, {p}, p);
    forall i | 0 <= i < |s.ready.levels[l]| ensures Since(s, s.ready.levels[l][i]) <= Since(s, p) {
      SinceBound(cfg, s, {p}, l, i);
    }
    LevelJoined(s, s', p, l);
  }

  // ----- CPU time per level -----

  lemma DispatchUse(cfg: Config, s: State, hand: set<nat>, p: nat, guard: bool)
    requires Core(cfg, s, hand) && p in hand && cfg.policy.MLFQ? && UseAll(cfg, s)
    ensures UseAll(cfg, Dispatch(cfg.policy, s, p, guard))
  {
    var s' := Dispatch(cfg.policy, s, p, guard);
    assert ProcOk(cfg, s, hand, p);
    ChargeOk(cfg, s, hand, p, guard);
    RunTimeOk(cfg, s, hand, p);
    var g := s'.trace[|s.trace|];
    forall q | 0 <= q < |cfg.jobs| ensures UseOk(cfg.policy, s'.trace, s'.procs[q], !s'.hist[q].phase.Waiting?, q) {
      assert UseOk(cfg.policy, s.trace, s.procs[q], !s.hist[q].phase.Waiting?, q);
      forall l
        ensures Used(s'.trace, q, l)
             == Used(s.trace, q, l) + if g.pid == q && g.level == l then g.to - g.from else 0
      {
        UsedAppend(s.trace, g, q, l);
      }
    }
  }

  lemma DispatchLevels(cfg: Config, s: State, hand: set<nat>, p: nat, guard: bool)
    requires Core(cfg, s, hand) && p in hand && cfg.policy.MLFQ? && LevelsOk(s)
    ensures LevelsOk(Dispatch(cfg.policy, s, p, guard))
  {
    assert ProcOk(cfg, s, hand, p);
    ChargeOk(cfg, s, hand, p, guard);
    LevelsKept(s, Dispatch(cfg.policy, s, p, guard), p);
  }

  lemma ServeDisciplined(cfg: Config, s: State, guard: bool)
    requires Core(cfg, s, {}) && s.running.None? && cfg.policy.MLFQ? && LevelsOk(s) && UseAll(cfg, s)
    ensures !Empty(s.ready) ==> Head(s.ready) < |cfg.jobs|
    ensures var s' := Serve(cfg.policy, s, guard);
      |s'.procs| == |s'.hist| == |cfg.jobs| && LevelsOk(s') && UseAll(cfg, s')
    ensures var s' := Serve(cfg.policy, s, guard); forall p :: Priority(s', p) == Priority(s, p)
  {
    if !Empty(s.ready) {
      DequeueCore(cfg, s, {});
      LevelsRest(s);
      var s1, h := s.(ready := Rest(s.ready)), Head(s.ready);
      ChargeOk(cfg, s1, {} + {h}, h, guard);
      DispatchUse(cfg, s1, {} + {h}, h, guard);
      DispatchLevels(cfg, s1, {} + {h}, h, guard);
    }
  }

  /** One event under MLFQ keeps the discipline, and no process moves up. */
  ghost predicate Advances(cfg: Config, s: State, s': State)
    requires cfg.policy.MLFQ? && |s.procs| == |s.hist| == |cfg.jobs|
  {
    && |s'.procs| == |s'.hist| == |cfg.jobs|
    && (LevelsOk(s) && UseAll(cfg, s) ==> LevelsOk(s') && UseAll(cfg, s'))
    && forall p :: Priority(s', p) >= Priority(s, p)
  }

  lemma ArrivalAdvances(cfg: Config, s: State)
    requires Inv(cfg, s) && cfg.policy.MLFQ? && |s.events| > 0 && s.events[0].kind.Arrival?
    requires LevelsOk(s) && UseAll(cfg, s)
    ensures Advances(cfg, s, OnArrival(cfg, s))
  {
    var p := s.events[0].pid;
    PopArrivalCore(cfg, s);
    var s1 := Admit(Pop(s), p);
    assert EventOk(s, s.events[0]);
    assert ProcOk(cfg, s, {}, p);
    LevelsKept(s, s1, p);
    forall q | 0 <= q < |cfg.jobs| ensures UseOk(cfg.policy, s1.trace, s1.procs[q], !s1.hist[q].phase.Waiting?, q) {
      assert UseOk(cfg.policy, s.trace, s.procs[q], !s.hist[q].phase.Waiting?, q);
    }
    if s.running.None? {
      ChargeOk(cfg, s1, {p}, p, false);
      DispatchUse(cfg, s1, {p}, p, false);
      DispatchLevels(cfg, s1, {p}, p, false);
    } else {
      EnterCore(cfg, s1, {p}, p);
      JoinLevels(cfg, s1, Enter(cfg.policy, s1, p), p, s1.procs[p].priority);
    }
  }

  lemma CompletionAdvances(cfg: Config, s: State)
    requires Inv(cfg, s) && cfg.policy.MLFQ? && |s.events| > 0 && s.events[0].kind.Completion?
    requires LevelsOk(s) && UseAll(cfg, s)
    ensures Advances(cfg, s, OnCompletion(cfg, s))
  {
    assert EventOk(s, s.events[0]);
    PopCompletionCore(cfg, s);
    RunningOk(cfg, s, {});
    var s1 := Leave(Pop(s));
    LevelsKept(s, s1, s.running.value);
    forall q | 0 <= q < |cfg.jobs| ensures UseOk(cfg.policy, s1.trace, s1.procs[q], !s1.hist[q].phase.Waiting?, q) {
      assert UseOk(cfg.policy, s.trace, s.procs[q], !s.hist[q].phase.Waiting?, q);
    }
    ServeDisciplined(cfg, s1, false);
  }

  lemma ReturnUse(cfg: Config, s: State, s1: State, p: nat)
    requires Inv(cfg, s) && cfg.policy.MLFQ? && s.running == Some(p) && p < |cfg.jobs| && UseAll(cfg, s)
    requires s1 == Yield(s.(events := s1.events, now := s1.now)) && Core(cfg, s1, {p})
    ensures s1.procs[p].priority >= 0
    ensures var s2 := Return(cfg.policy, s1, p);
      && |s2.procs| == |s2.hist| == |cfg.jobs| && UseAll(cfg, s2)
      && forall q :: Priority(s2, q) >= Priority(s, q)
  {
    hide TraceOk, EventOk, Sorted, Enqueue, Used;
    assert ProcOk(cfg, s, {}, p);
    var s2 := Return(cfg.policy, s1, p);
    if !Demotes(cfg.policy, s1.procs[p]) { EnterCore(cfg, s1, {p}, p); }
    forall q | 0 <= q < |cfg.jobs|
      ensures UseOk(cfg.policy, s2.trace, s2.procs[q], !s2.hist[q].phase.Waiting?, q)
    {
      assert UseOk(cfg.policy, s.trace, s.procs[q], !s.hist[q].phase.Waiting?, q);
    }
  }

  /** A process whose quantum expired stays at its level below the allotment, or is moved one down. */
  lemma ReturnDisciplined(cfg: Config, s: State, s1: State, p: nat)
    requires Inv(cfg, s) && cfg.policy.MLFQ? && s.running == Some(p) && p < |cfg.jobs| && LevelsOk(s) && UseAll(cfg, s)
    requires s1 == Yield(s.(events := s1.events, now := s1.now)) && Core(cfg, s1, {p})
    ensures s1.procs[p].priority >= 0
    ensures var s2 := Return(cfg.policy, s1, p);
      && |s2.procs| == |s2.hist| == |cfg.jobs| && LevelsOk(s2) && UseAll(cfg, s2)
      && forall q :: Priority(s2, q) >= Priority(s, q)
  {
    hide TraceOk, EventOk, Sorted, UseAll, LevelsOk;
    assert ProcOk(cfg, s, {}, p);
    var s2 := Return(cfg.policy, s1, p);
    ReturnUse(cfg, s, s1, p);
    LevelsKept(s, s1, p);
    if !Demotes(cfg.policy, s1.procs[p]) { EnterCore(cfg, s1, {p}, p); }
    JoinLevels(cfg, s1, s2, p, s2.procs[p].priority);
  }

  lemma ExpireAdvances(cfg: Config, s: State)
    requires Inv(cfg, s) && cfg.policy.MLFQ? && |s.events| > 0 && s.events[0].kind.Expire?
    requires LevelsOk(s) && UseAll(cfg, s)
    ensures Advances(cfg, s, OnExpire(cfg, s))
  {
    var p := s.events[0].pid;
    PopExpireCore(cfg, s);
    var s1 := Yield(Pop(s));
    ReturnDisciplined(cfg, s, s1, p);
    ReturnCore(cfg, s1, {p}, p);
    assert {p} - {p} == {};
    ServeDisciplined(cfg, Return(cfg.policy, s1, p), true);
  }

  lemma StepAdvances(cfg: Config, s: State)
    requires Inv(cfg, s) && cfg.policy.MLFQ? && |s.events| > 0 && LevelsOk(s) && UseAll(cfg, s)
    ensures Advances(cfg, s, Step(cfg, s))
  {
    match s.events[0].kind {
      case Arrival => ArrivalAdvances(cfg, s);
      case Completion => CompletionAdvances(cfg, s);
      case Expire => ExpireAdvances(cfg, s);
    }
  }

  lemma InitDisciplined(cfg: Config)
    requires ConfigOk(cfg) && cfg.policy.MLFQ?
    ensures LevelsOk(Init(cfg)) && UseAll(cfg, Init(cfg))
  {
    forall l | Limited(cfg.policy, l) ensures Allotment(cfg.policy, l) >= 1 {}
  }

  lemma {:induction false} Discipline(cfg: Config, k: nat)
    requires ConfigOk(cfg) && cfg.policy.MLFQ?
    ensures LevelsOk(Run(cfg, k)) && UseAll(cfg, Run(cfg, k))
  {
    hide Step, LevelsOk, UseAll, Core;
    if k == 0 {
      InitDisciplined(cfg);
    } else {
      var s := Run(cfg, k - 1);
      Discipline(cfg, k - 1);
      if |s.events| > 0 {
        StepAdvances(cfg, s);
        assert Run(cfg, k) == Step(cfg, s);
      }
    }
  }

  /** Without boosts a process never moves to a better level. */
  lemma {:induction false} NeverPromoted(cfg: Config, k: nat, n: nat, p: nat)
    requires ConfigOk(cfg) && cfg.policy.MLFQ? && p < |cfg.jobs|
    ensures Run(cfg, k).procs[p].priority <= Run(cfg, k + n).procs[p].priority
  {
    hide Step, LevelsOk, UseAll, ProcOk, EventOk, TraceOk;
    if n > 0 {
      NeverPromoted(cfg, k, n - 1, p);
      var s := Run(cfg, k + n - 1);
      Discipline(cfg, k + n - 1);
      if |s.events| > 0 {
        StepAdvances(cfg, s);
        assert Priority(Step(cfg, s), p) >= Priority(s, p);
      }
    }
  }

  /** At a level that is not the last, with quantum q > 0 and allotment A > 0, no process ever uses more
      than A - 1 + q units of CPU time, in any run. */
  lemma LevelUseBounded(cfg: Config, k: nat, p: nat, l: nat)
    requires ConfigOk(cfg) && cfg.policy.MLFQ? && p < |cfg.jobs| && l + 1 < |cfg.policy.levels|
    requires cfg.policy.levels[l].quantum > 0 && cfg.policy.levels[l].allotment > 0
    ensures Used(Run(cfg, k).trace, p, l) <= cfg.policy.levels[l].allotment - 1 + cfg.policy.levels[l].quantum
  {
    Discipline(cfg, k);
    var s := Run(cfg, k);
    assert Limited(cfg.policy, l);
    assert UseOk(cfg.policy, s.trace, s.procs[p], !s.hist[p].phase.Waiting?, p);
  }

  /** Nobody is moved down early, and no level is skipped: every level above the process's own has an
      allotment, and the process has used at least that much CPU time there. */
  lemma DemotedOnlyWhenUsed(cfg: Config, k: nat, p: nat, l: nat)
    requires ConfigOk(cfg) && cfg.policy.MLFQ? && p < |cfg.jobs|
    ensures l < Run(cfg, k).procs[p].priority ==>
      && l < |cfg.policy.levels| && cfg.policy.levels[l].allotment != -1
      && Used(Run(cfg, k).trace, p, l) >= cfg.policy.levels[l].allotment
  {
    hide LevelsOk, EventOk, TraceOk, Sorted;
    Discipline(cfg, k);
    var s := Run(cfg, k);
    assert UseOk(cfg.policy, s.trace, s.procs[p], !s.hist[p].phase.Waiting?, p);
    ProcAt(cfg, s, {}, p);
  }

  /** The process served next stands at the best level anybody waits at, and no one at that level has
      been waiting there longer. */
  lemma ServesBestLevel(cfg: Config, k: nat, x: nat)
    requires ConfigOk(cfg) && cfg.policy.MLFQ?
    ensures var s := Run(cfg, k);
      ReadyCount(s.ready, x) > 0 ==>
        && !Empty(s.ready) && Head(s.ready) < |s.procs| && x < |s.procs|
        && s.procs[Head(s.ready)].priority <= s.procs[x].priority
        && (s.procs[Head(s.ready)].priority == s.procs[x].priority ==> s.hist[Head(s.ready)].since <= s.hist[x].since)
  {
    hide LevelsOk, UseAll;
    var s := Run(cfg, k);
    if ReadyCount(s.ready, x) > 0 {
      Discipline(cfg, k);
      if Empty(s.ready) { EmptyCounts(s.ready, x); }
      DequeueCore(cfg, s, {});
      BestLevelFirst(s, x);
    }
  }

  lemma BestLevelFirst(s: State, x: nat)
    requires LevelsOk(s) && !Empty(s.ready) && ReadyCount(s.ready, x) > 0
    ensures var h := Head(s.ready);
      && Priority(s, h) <= Priority(s, x)
      && (Priority(s, h) == Priority(s, x) ==> Since(s, h) <= Since(s, x))
  {
    var l := LevelHolding(s.ready.levels, x);
    var i := Place(s.ready.levels[l], x);
    assert s.ready.levels[BestLevel(s.ready.levels)][0] == Head(s.ready);
    assert s.ready.levels[l][i] == x;
  }

  lemma {:induction false} LevelHolding(ls: seq<seq<nat>>, x: nat) returns (l: nat)
    requires Count(Concat(ls), x) > 0
    ensures l < |ls| && x in ls[l]
  {
    CountAppend(ls[0], Concat(ls[1..]), x);
    CountPositive(ls[0], x);
    if x in ls[0] {
      l := 0;
    } else {
      CountPositive(Concat(ls[1..]), x);
      l := LevelHolding(ls[1..], x);
      l := l + 1;
    }
  }

  lemma Place(q: seq<nat>, x: nat) returns (i: nat)
    requires x in q
    ensures i < |q| && q[i] == x
  {
    i :| i < |q| && q[i] == x;
  }
}
