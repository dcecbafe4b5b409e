/** SJF and STCF: the ready line is always ordered, so every dispatch from it takes a shortest process,
    and under STCF the running process's field of remaining time is the least. */
module SchedShortest {
  import opened Wrappers
  import opened Processes
  import opened SchedModel
  import opened SchedInv
  import opened SchedRun

  ghost predicate LineOrdered(pol: Policy, procs: seq<Proc>, q: seq<nat>) {
    forall i, j :: 0 <= i < j < |q| ==> Key(pol, procs, q[i]) <= Key(pol, procs, q[j])
  }

  lemma InsertedMembers(q: seq<nat>, k: nat, p: nat, x: nat)
    requires k <= |q|
    ensures x in InsertAt(q, k, p) <==> x == p || x in q
  {
    CountInsert(q, k, p, x);
    CountPositive(q, x);
    CountPositive(InsertAt(q, k, p), x);
  }

  lemma InsertedAt(q: seq<nat>, k: nat, p: nat, i: nat)
    requires k <= |q| && i <= |q|
    ensures |InsertAt(q, k, p)| == |q| + 1
    ensures InsertAt(q, k, p)[i] == if i < k then q[i] else if i == k then p else q[i - 1]
  {
  }

  lemma InsertOrdered(pol: Policy, procs: seq<Proc>, q: seq<nat>, p: nat)
    requires LineOrdered(pol, procs, q)
    ensures LineOrdered(pol, procs, InsertAt(q, LinePos(pol, procs, q, p), p))
    ensures forall x :: x in InsertAt(q, LinePos(pol, procs, q, p), p) ==> x == p || x in q
  {
    hide Key;
    var k := LinePos(pol, procs, q, p);
    var q' := InsertAt(q, k, p);
    forall i, j | 0 <= i < j < |q'| ensures Key(pol, procs, q'[i]) <= Key(pol, procs, q'[j]) {
      InsertedAt(q, k, p, i);
      InsertedAt(q, k, p, j);
      if i == k { assert Key(pol, procs, p) < Key(pol, procs, q[k]); }
    }
    forall x | x in q' ensures x == p || x in q { InsertedMembers(q, k, p, x); }
  }

  /** The line is ordered by burst time (SJF) or remaining time (STCF), and under STCF no
      remaining time in it is less than that of the running process. */
  ghost predicate Shortest(cfg: Config, s: State) {
    (cfg.policy.SJF? || cfg.policy.STCF? ==>
      && s.ready.Line?
      && LineOrdered(cfg.policy, s.procs, s.ready.q)
      && (cfg.policy.STCF? && s.running.Some? ==>
            forall x :: x in s.ready.q ==> Remaining(s.procs, s.running.value) <= Remaining(s.procs, x)))
  }

  /** Dispatching a process no longer than anyone in the line keeps the order. */
  lemma DispatchShortest(cfg: Config, s: State, hand: set<nat>, p: nat, guard: bool)
    requires Core(cfg, s, hand) && p in hand && s.running.None? && Shortest(cfg, s)
    requires cfg.policy.STCF? ==> forall x :: x in s.ready.q ==> Remaining(s.procs, p) <= Remaining(s.procs, x)
    ensures Shortest(cfg, Dispatch(cfg.policy, s, p, guard))
  {
    hide Core, Dispatch, RunTime;
    if cfg.policy.SJF? || cfg.policy.STCF? {
      HandAway(cfg, s, hand, p);
      CoreSizes(cfg, s, hand);
      var s' := Dispatch(cfg.policy, s, p, guard);
      DispatchFrame(cfg.policy, s, p, guard);
      ChargeOk(cfg, s, hand, p, guard);
      RunTimeOk(cfg, s, hand, p);
      assert forall x :: x in s.ready.q ==> Key(cfg.policy, s'.procs, x) == Key(cfg.policy, s.procs, x);
    }
  }

  lemma EnterShortest(cfg: Config, s: State, hand: set<nat>, p: nat)
    requires Core(cfg, s, hand) && p in hand && Shortest(cfg, s)
    requires cfg.policy.STCF? && s.running.Some? ==> Remaining(s.procs, s.running.value) <= Remaining(s.procs, p)
    ensures s.procs[p].priority >= 0 && Shortest(cfg, Enter(cfg.policy, s, p))
  {
    EnterCore(cfg, s, hand, p);
    if cfg.policy.SJF? || cfg.policy.STCF? { InsertOrdered(cfg.policy, s.procs, s.ready.q, p); }
  }

  lemma ServeShortest(cfg: Config, s: State, guard: bool)
    requires Core(cfg, s, {}) && s.running.None? && Shortest(cfg, s)
    ensures !Empty(s.ready) ==> Head(s.ready) < |cfg.jobs|
    ensures Shortest(cfg, Serve(cfg.policy, s, guard))
  {
    if !Empty(s.ready) {
      DequeueCore(cfg, s, {});
      DispatchShortest(cfg, s.(ready := Rest(s.ready)), {} + {Head(s.ready)}, Head(s.ready), guard);
    }
  }

  lemma PreemptShortest(cfg: Config, s: State, p: nat, r: nat)
    requires Core(cfg, s, {p}) && s.running == Some(r) && Shortest(cfg, s) && r < |cfg.jobs| && p < |cfg.jobs|
    requires s.now == End(s) && s.procs[r].remaining > 0 && Preempts(cfg.policy, s, p)
    ensures Fits(cfg.policy, s.ready) && s.procs[r].priority >= 0
    ensures Shortest(cfg, Dispatch(cfg.policy, Preempted(cfg.policy, s, r), p, false))
  {
    hide Dispatch, Core, LinePos;
    CoreSizes(cfg, s, {p});
    PreemptCore(cfg, s, {p}, r);
    CoreSizes(cfg, Preempted(cfg.policy, s, r), {p});
    InsertOrdered(cfg.policy, s.procs, s.ready.q, r);
    var s2 := Preempted(cfg.policy, s, r);
    assert s2.procs == s.procs;
    DispatchShortest(cfg, s2, {p}, p, false);
  }

  lemma ArrivalShortest(cfg: Config, s: State)
    requires Inv(cfg, s) && Shortest(cfg, s) && |s.events| > 0 && s.events[0].kind.Arrival?
    ensures Shortest(cfg, OnArrival(cfg, s))
  {
    hide Core, Dispatch, Preempted, LineOrdered;
    var p := s.events[0].pid;
    EventFits(cfg, s);
    CoreSizes(cfg, s, {});
    PopArrivalCore(cfg, s);
    var s1 := Admit(Pop(s), p);
    CoreSizes(cfg, s1, {p});
    if s.running.None? {
      DispatchShortest(cfg, s1, {p}, p, false);
    } else if Preempts(cfg.policy, s1, p) {
      CancelledIsDue(cfg, s);
      PreemptShortest(cfg, s1, p, s.running.value);
    } else {
      EnterShortest(cfg, s1, {p}, p);
    }
  }

  lemma StepShortest(cfg: Config, s: State)
    requires Inv(cfg, s) && Shortest(cfg, s) && |s.events| > 0
    ensures Shortest(cfg, Step(cfg, s))
  {
    hide Core, Serve, LineOrdered;
    EventFits(cfg, s);
    CoreSizes(cfg, s, {});
    match s.events[0].kind {
      case Arrival => ArrivalShortest(cfg, s);
      case Completion =>
        PopCompletionCore(cfg, s);
        ServeShortest(cfg, Leave(Pop(s)), false);
      case Expire =>
        var p := s.events[0].pid;
        PopExpireCore(cfg, s);
        var s1 := Yield(Pop(s));
        ReturnCore(cfg, s1, {p}, p);
        assert {p} - {p} == {};
        EnterShortest(cfg, s1, {p}, p);
        ServeShortest(cfg, Return(cfg.policy, s1, p), true);
    }
  }

  lemma {:induction false} AlwaysShortest(cfg: Config, k: nat)
    requires ConfigOk(cfg)
    ensures Shortest(cfg, Run(cfg, k))
  {
    hide Step, Inv;
    if k > 0 {
      AlwaysShortest(cfg, k - 1);
      if |Run(cfg, k - 1).events| > 0 { StepShortest(cfg, Run(cfg, k - 1)); }
    }
  }

  /** STCF, in every reachable state: the remaining-time field of the running process, from which the
      whole slice has been taken already, is at most that of any waiting one. This is the comparison the
      preemption test makes; SchedStcf says what holds of the work really left. */
  lemma StcfRunsShortest(cfg: Config, k: nat, x: nat)
    requires ConfigOk(cfg) && cfg.policy.STCF?
    ensures var s := Run(cfg, k);
      s.running.Some? && ReadyCount(s.ready, x) > 0 ==>
        x < |s.procs| && s.running.value < |s.procs| && s.procs[s.running.value].remaining <= s.procs[x].remaining
  {
    hide Step, LineOrdered;
    var s := Run(cfg, k);
    AlwaysShortest(cfg, k);
    RunningOk(cfg, s, {});
    CountPositive(s.ready.q, x);
    if s.running.Some? && x in s.ready.q { assert Remaining(s.procs, s.running.value) <= Remaining(s.procs, x); }
  }

  /** The next event is an arrival that preempts the running process. */
  ghost predicate PreemptsNext(cfg: Config, s: State) {
    && |s.events| > 0 && s.events[0].kind.Arrival? && s.events[0].pid < |s.procs|
    && s.running.Some? && s.running.value < |s.procs| && Preempts(cfg.policy, s, s.events[0].pid)
  }

  lemma PreemptionStep(cfg: Config, s: State)
    requires Inv(cfg, s) && PreemptsNext(cfg, s)
    ensures var s' := OnArrival(cfg, s);
      && |s'.trace| == |s.trace| + 1 && s'.trace[..|s.trace|] == s.trace
      && s'.trace[|s.trace|].pid == s.events[0].pid && s'.trace[|s.trace|].from == s.events[0].time
  {
    EventFits(cfg, s);
  }

  /** STCF, in every run: an event cancelled by a preemption is the running process's only one, is due
      at this very instant, and the CPU time charged for the cancelled slice has elapsed in full; the
      arriving process starts at once. */
  lemma StcfCancelsDueEvents(cfg: Config, k: nat)
    requires ConfigOk(cfg)
    ensures PreemptsNext(cfg, Run(cfg, k)) ==>
      var s, s' := Run(cfg, k), Run(cfg, k + 1);
      var p, r, q, now := s.events[0].pid, s.running.value, s.events[1..], s.events[0].time;
      var i := EventOf(q, r);
      && EventCount(q, r) == 1 && i < |q| && q[i].kind.Expire? && q[i].time == now
      && |s.trace| > 0 && s.trace[|s.trace| - 1].pid == r && s.trace[|s.trace| - 1].to == now
      && |s'.trace| == |s.trace| + 1 && s'.trace[..|s.trace|] == s.trace
      && s'.trace[|s.trace|].pid == p && s'.trace[|s.trace|].from == now
  {
    var s := Run(cfg, k);
    if PreemptsNext(cfg, s) {
      CancelledIsDue(cfg, s);
      RunningLast(cfg, s);
      PreemptionStep(cfg, s);
      assert Run(cfg, k + 1) == OnArrival(cfg, s);
    }
  }

  /** The latest slice is the running process's. */
  lemma RunningLast(cfg: Config, s: State)
    requires Inv(cfg, s) && s.running.Some?
    ensures |s.trace| > 0 && s.trace[|s.trace| - 1].pid == s.running.value
  {
  }

  // ----- ties -----

  /** Among processes with the same key, the line is in order of joining it. */
  ghost predicate LineFair(pol: Policy, s: State, q: seq<nat>) {
    forall i, j :: 0 <= i < j < |q| && Key(pol, s.procs, q[i]) == Key(pol, s.procs, q[j]) ==>
      Since(s, q[i]) <= Since(s, q[j])
  }

  /** The members of q are the same, as far as their place in the line goes, in both states. */
  ghost predicate SameLine(pol: Policy, s: State, s': State, q: seq<nat>) {
    forall x :: x in q ==> Key(pol, s'.procs, x) == Key(pol, s.procs, x) && Since(s', x) == Since(s, x)
  }

  lemma FairInsert(pol: Policy, s: State, q: seq<nat>, p: nat)
    requires LineFair(pol, s, q) && forall x :: x in q ==> Since(s, x) <= Since(s, p)
    requires LineOrdered(pol, s.procs, q)
    ensures LineFair(pol, s, InsertAt(q, LinePos(pol, s.procs, q, p), p))
  {
    hide Key, Since, InsertAt, LineFair;
    var k := LinePos(pol, s.procs, q, p);
    var q' := InsertAt(q, k, p);
    InsertedAt(q, k, p, 0);
    forall i, j | 0 <= i < j < |q| + 1 ensures |q'| == |q| + 1 && FairPair(pol, s, q'[i], q'[j]) {
      InsertedAt(q, k, p, i);
      InsertedAt(q, k, p, j);
      FairPlaces(pol, s, q, p, k, i, j);
    }
    FairPairs(pol, s, q');
  }

  ghost predicate FairPair(pol: Policy, s: State, x: nat, y: nat) {
    Key(pol, s.procs, x) == Key(pol, s.procs, y) ==> Since(s, x) <= Since(s, y)
  }

  lemma FairPairs(pol: Policy, s: State, q: seq<nat>)
    requires forall i, j :: 0 <= i < j < |q| ==> FairPair(pol, s, q[i], q[j])
    ensures LineFair(pol, s, q)
  {
    hide Key, Since;
  }

  lemma FairPlaces(pol: Policy, s: State, q: seq<nat>, p: nat, k: nat, i: nat, j: nat)
    requires k <= |q| && LineFair(pol, s, q) && LineOrdered(pol, s.procs, q) && i < j <= |q|
    requires k < |q| ==> Key(pol, s.procs, p) < Key(pol, s.procs, q[k])
    requires forall x :: x in q ==> Since(s, x) <= Since(s, p)
    ensures FairPair(pol, s, if i < k then q[i] else if i == k then p else q[i - 1],
                             if j < k then q[j] else if j == k then p else q[j - 1])
  {
    hide Key, Since;
    if i == k { assert Key(pol, s.procs, q[k]) <= Key(pol, s.procs, q[j - 1]); }
  }

  /** Whoever waits has been waiting since now at the latest. */
  lemma LineSince(cfg: Config, s: State, hand: set<nat>, p: nat)
    requires Core(cfg, s, hand) && p in hand && s.ready.Line? && p < |s.hist| && s.hist[p].since == s.now
    ensures forall x :: x in s.ready.q ==> Since(s, x) <= Since(s, p)
  {
    ReadyMembers(cfg, s, hand);
    forall x | x in s.ready.q ensures Since(s, x) <= Since(s, p) {
      var i :| 0 <= i < |s.ready.q| && s.ready.q[i] == x;
      assert Flat(s.ready)[i] == x;
      ProcAt(cfg, s, hand, x);
      CountPositive(s.ready.q, x);
    }
  }

  lemma DispatchFair(cfg: Config, s: State, hand: set<nat>, p: nat, guard: bool)
    requires Core(cfg, s, hand) && p in hand && s.ready.Line? && LineFair(cfg.policy, s, s.ready.q)
    ensures p < |s.procs| == |s.hist|
    ensures LineFair(cfg.policy, Dispatch(cfg.policy, s, p, guard), s.ready.q)
  {
    hide Core, Dispatch;
    HandAway(cfg, s, hand, p);
    CoreSizes(cfg, s, hand);
    var s' := Dispatch(cfg.policy, s, p, guard);
    DispatchFrame(cfg.policy, s, p, guard);
    assert SameLine(cfg.policy, s, s', s.ready.q);
  }

  lemma EnterFair(cfg: Config, s: State, hand: set<nat>, p: nat)
    requires Core(cfg, s, hand) && p in hand && (cfg.policy.SJF? || cfg.policy.STCF?) && p < |s.hist|
    requires s.ready.Line? && LineFair(cfg.policy, s, s.ready.q) && LineOrdered(cfg.policy, s.procs, s.ready.q)
    requires s.hist[p].since == s.now
    ensures p < |s.procs| && s.procs[p].priority >= 0 && Fits(cfg.policy, s.ready)
    ensures var s' := Enter(cfg.policy, s, p); s'.ready.Line? && LineFair(cfg.policy, s', s'.ready.q)
  {
    EnterCore(cfg, s, hand, p);
    LineSince(cfg, s, hand, p);
    FairInsert(cfg.policy, s, s.ready.q, p);
  }

  lemma ServeFair(cfg: Config, s: State, guard: bool)
    requires Core(cfg, s, {}) && s.ready.Line? && LineFair(cfg.policy, s, s.ready.q)
    ensures |s.procs| == |s.hist| && (!Empty(s.ready) ==> Head(s.ready) < |s.procs|)
    ensures var s' := Serve(cfg.policy, s, guard); s'.ready.Line? && LineFair(cfg.policy, s', s'.ready.q)
  {
    hide Core, Dispatch;
    CoreSizes(cfg, s, {});
    if !Empty(s.ready) {
      DequeueCore(cfg, s, {});
      var h, s1 := Head(s.ready), s.(ready := Rest(s.ready));
      DispatchFair(cfg, s1, {} + {h}, h, guard);
      DispatchFrame(cfg.policy, s1, h, guard);
    }
  }

  lemma PreemptFair(cfg: Config, s: State, p: nat, r: nat)
    requires Core(cfg, s, {p}) && s.running == Some(r) && r < |cfg.jobs| && p < |cfg.jobs| && cfg.policy.STCF?
    requires s.now == End(s) && s.procs[r].remaining > 0
    requires s.ready.Line? && LineFair(cfg.policy, s, s.ready.q) && LineOrdered(cfg.policy, s.procs, s.ready.q)
    ensures Fits(cfg.policy, s.ready) && s.procs[r].priority >= 0
    ensures var s' := Dispatch(cfg.policy, Preempted(cfg.policy, s, r), p, false);
      s'.ready.Line? && LineFair(cfg.policy, s', s'.ready.q)
  {
    hide Core, Dispatch, LineOrdered, LineFair;
    CoreSizes(cfg, s, {p});
    PreemptedQueue(cfg, s, {p}, r);
    var s1 := Yield(s.(events := RemoveEvent(s.events, r)));
    CoreSizes(cfg, s1, {p} + {r});
    HandAway(cfg, s1, {p} + {r}, r);
    YieldFair(cfg.policy, s, s1, r);
    EnterFair(cfg, s1, {p} + {r}, r);
    PreemptCore(cfg, s, {p}, r);
    var s2 := Preempted(cfg.policy, s, r);
    DispatchFair(cfg, s2, {p}, p, false);
    DispatchFrame(cfg.policy, s2, p, false);
  }

  lemma PreemptedQueue(cfg: Config, s: State, hand: set<nat>, r: nat)
    requires Core(cfg, s, hand) && s.running == Some(r) && r < |cfg.jobs| == |s.procs| == |s.hist|
    requires s.now == End(s) && s.procs[r].remaining > 0
    ensures Core(cfg, Yield(s.(events := RemoveEvent(s.events, r))), hand + {r})
  {
    CancelledEvents(cfg, s, hand, r);
    YieldCore(cfg, s, s.(events := RemoveEvent(s.events, r)), hand);
  }

  /** A process that is not in the line may change. */
  lemma YieldFair(pol: Policy, s: State, s': State, p: nat)
    requires s.ready.Line? && s'.ready == s.ready && p !in s.ready.q && s'.procs == s.procs
    requires LineFair(pol, s, s.ready.q) && forall x :: x != p ==> Since(s', x) == Since(s, x)
    ensures LineFair(pol, s', s'.ready.q)
  {
    hide Key, Since;
    assert SameLine(pol, s, s', s.ready.q);
  }

  lemma StepFair(cfg: Config, s: State)
    requires Inv(cfg, s) && Shortest(cfg, s) && |s.events| > 0 && (cfg.policy.SJF? || cfg.policy.STCF?)
    requires LineFair(cfg.policy, s, s.ready.q)
    ensures Step(cfg, s).ready.Line? && LineFair(cfg.policy, Step(cfg, s), Step(cfg, s).ready.q)
  {
    hide Core, Dispatch, Serve, LineFair, LineOrdered, Since, SliceEndsFirst;
    EventFits(cfg, s);
    CoreSizes(cfg, s, {});
    var p := s.events[0].pid;
    match s.events[0].kind {
      case Arrival =>
        PopArrivalCore(cfg, s);
        var s1 := Admit(Pop(s), p);
        CoreSizes(cfg, s1, {p});
        AdmitFair(cfg, s, s1, p);
        if s.running.None? {
          DispatchFair(cfg, s1, {p}, p, false);
          DispatchFrame(cfg.policy, s1, p, false);
        } else if Preempts(cfg.policy, s1, p) {
          CancelledIsDue(cfg, s);
          PreemptFair(cfg, s1, p, s.running.value);
        } else {
          EnterFair(cfg, s1, {p}, p);
        }
      case Completion =>
        PopCompletionCore(cfg, s);
        LeaveFair(cfg.policy, s, Leave(Pop(s)));
        ServeFair(cfg, Leave(Pop(s)), false);
      case Expire =>
        PopExpireCore(cfg, s);
        var s1 := Yield(Pop(s));
        CoreSizes(cfg, s1, {p});
        AdmitFair(cfg, s, s1, p);
        EnterFair(cfg, s1, {p}, p);
        ReturnCore(cfg, s1, {p}, p);
        assert {p} - {p} == {};
        ServeFair(cfg, Return(cfg.policy, s1, p), true);
    }
  }

  lemma AdmitFair(cfg: Config, s: State, s1: State, p: nat)
    requires Core(cfg, s1, {p}) && p < |s.hist| && s.ready.Line? && LineFair(cfg.policy, s, s.ready.q)
    requires s1.ready == s.ready && s1.procs == s.procs && s1.hist == s.hist[p := s1.hist[p]]
    ensures LineFair(cfg.policy, s1, s1.ready.q)
  {
    hide Core, LineFair;
    HandAway(cfg, s1, {p}, p);
    YieldFair(cfg.policy, s, s1, p);
  }

  lemma LeaveFair(pol: Policy, s: State, s1: State)
    requires s.ready.Line? && LineFair(pol, s, s.ready.q)
    requires s1.ready == s.ready && s1.procs == s.procs && |s1.hist| == |s.hist|
    requires forall x :: 0 <= x < |s.hist| ==> s1.hist[x].since == s.hist[x].since
    ensures LineFair(pol, s1, s1.ready.q)
  {
    hide Key;
    assert SameLine(pol, s, s1, s.ready.q);
  }

  lemma {:induction false} AlwaysFair(cfg: Config, k: nat)
    requires ConfigOk(cfg) && (cfg.policy.SJF? || cfg.policy.STCF?)
    ensures Run(cfg, k).ready.Line? && LineFair(cfg.policy, Run(cfg, k), Run(cfg, k).ready.q)
  {
    hide Step, Inv, LineFair, Shortest;
    if k == 0 {
      EmptyFair(cfg);
    } else {
      AlwaysFair(cfg, k - 1);
      AlwaysShortest(cfg, k - 1);
      if |Run(cfg, k - 1).events| > 0 { StepFair(cfg, Run(cfg, k - 1)); }
    }
  }

  lemma EmptyFair(cfg: Config)
    requires cfg.policy.SJF? || cfg.policy.STCF?
    ensures Init(cfg).ready == Line([]) && LineFair(cfg.policy, Init(cfg), [])
  {
  }

  /** SJF and STCF: the process served next is a shortest one among those waiting, by burst time under SJF
      and by remaining time under STCF, and the one that has been waiting longest among the shortest. */
  lemma ServesShortest(cfg: Config, k: nat, x: nat)
    requires ConfigOk(cfg) && (cfg.policy.SJF? || cfg.policy.STCF?)
    ensures var s := Run(cfg, k);
      ReadyCount(s.ready, x) > 0 ==>
        && !Empty(s.ready) && Head(s.ready) < |s.procs| == |s.hist| && x < |s.procs|
        && var pr, pr' := s.procs[Head(s.ready)], s.procs[x];
        var key, key' := if cfg.policy.SJF? then pr.burst else pr.remaining,
                         if cfg.policy.SJF? then pr'.burst else pr'.remaining;
        key < key' || (key == key' && s.hist[Head(s.ready)].since <= s.hist[x].since)
  {
    hide ProcOk, EventOk, TraceOk, Sorted;
    var s := Run(cfg, k);
    AlwaysShortest(cfg, k);
    AlwaysFair(cfg, k);
    ReadyMembers(cfg, s, {});
    CountPositive(s.ready.q, x);
    if x in s.ready.q {
      var i :| 0 <= i < |s.ready.q| && s.ready.q[i] == x;
      assert Flat(s.ready)[0] == Head(s.ready) && Flat(s.ready)[i] == x;
    }
  }
}
