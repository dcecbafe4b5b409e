/** Round robin: a process that is ready is dispatched within a bounded number of dispatches, and so
    within a bounded time, whatever arrives later. */
module SchedRoundRobin {
  import opened Wrappers
  import opened Processes
  import opened SchedModel
  import opened SchedInv
  import opened SchedRun
  import opened SchedTheorems
  import opened SchedSlices

  /** How many dispatches may come before p's: its position in service order and, while it is pending,
      one more for the running process and each active one, which may re-enter ahead of it. */
  function Rank(r: Ready, p: nat): nat
    requires r.Rounds?
  {
    if p in r.active then First(r.active, p)
    else if p in r.round then |r.active| + First(r.round, p)
    else |r.active| + |r.round| + First(r.pending, p) + |r.active| + 1
  }

  lemma {:induction false} FirstAppend(a: seq<nat>, b: seq<nat>, p: nat)
    ensures First(a + b, p) == if p in a then First(a, p) else |a| + First(b, p)
  {
    if |a| == 0 {
      assert a + b == b;
    } else {
      assert (a + b)[1..] == a[1..] + b;
      FirstAppend(a[1..], b, p);
    }
  }

  /** Putting another process into the round buffer delays only pending ones, by one dispatch. */
  lemma RequeueRank(r: Ready, x: nat, p: nat)
    requires r.Rounds? && x != p
    ensures Rank(r.(round := r.round + [x]), p) == Rank(r, p) + if p in r.active || p in r.round then 0 else 1
  {
    FirstAppend(r.round, [x], p);
  }

  lemma ArriveRank(r: Ready, x: nat, p: nat)
    requires r.Rounds? && p in Flat(r)
    ensures Rank(r.(pending := r.pending + [x]), p) == Rank(r, p)
  {
    FirstAppend(r.pending, [x], p);
  }

  /** Serving somebody else brings every ready process nearer, pending ones by two. */
  lemma ServeRank(r: Ready, p: nat)
    requires r.Rounds? && !Empty(r) && p in Flat(r) && Head(r) != p
    ensures p in Flat(Rest(r))
    ensures Rank(Rest(r), p) + (if p in r.active || p in r.round then 1 else 2) <= Rank(r, p)
  {
    RoundsTakes(r, p);
    var o := Opened(r);
    assert o.active == [Head(r)] + Rest(r).active;
    FirstAppend([Head(r)], Rest(r).active, p);
    FirstAppend(r.round, r.pending, p);
  }

  /** The rank is below twice the number of ready processes. */
  lemma RankBound(r: Ready, p: nat)
    requires r.Rounds? && p in Flat(r)
    ensures Rank(r, p) < 2 * |Flat(r)|
  {
  }

  // ----- runs -----

  lemma SliceBound(cfg: Config, s: State, hand: set<nat>, p: nat, guard: bool)
    requires Core(cfg, s, hand) && p in hand && cfg.policy.RR?
    ensures End(Dispatch(cfg.policy, s, p, guard)) <= s.now + cfg.policy.quantum
  {
  }

  /** From s to s' p is still waiting, and nearer by at least one place per dispatch. */
  ghost predicate Closer(q: int, s: State, s': State, p: nat) {
    && s.ready.Rounds? && s'.ready.Rounds? && p in Flat(s'.ready) && |s.trace| <= |s'.trace|
    && Rank(s'.ready, p) + (|s'.trace| - |s.trace|) <= Rank(s.ready, p)
    && End(s') <= End(s) + (|s'.trace| - |s.trace|) * q
  }

  /** Slice i of the later state is p's turn, in time. */
  ghost predicate Turn(q: int, s: State, s': State, p: nat, i: nat) {
    && s.ready.Rounds? && |s.trace| <= i < |s'.trace| && s'.trace[i].pid == p
    && i - |s.trace| <= Rank(s.ready, p)
    && s'.trace[i].from <= End(s) + Rank(s.ready, p) * q
  }

  /** One event: the trace grows by at most one slice, which starts where the last one ended. */
  lemma StepRank(cfg: Config, s: State, p: nat)
    requires Inv(cfg, s) && cfg.policy.RR? && |s.events| > 0 && p in Flat(s.ready)
    ensures Step(cfg, s).ready.Rounds? && s.trace <= Step(cfg, s).trace
    ensures var s' := Step(cfg, s); |s'.trace| == |s.trace| ==>
      p in Flat(s'.ready) && Rank(s'.ready, p) <= Rank(s.ready, p) && End(s') == End(s)
    ensures var s' := Step(cfg, s); |s'.trace| != |s.trace| ==>
      && |s'.trace| == |s.trace| + 1 && s'.trace[|s.trace|].from == End(s)
      && End(s') <= End(s) + cfg.policy.quantum
      && (s'.trace[|s.trace|].pid == p || (p in Flat(s'.ready) && Rank(s'.ready, p) + 1 <= Rank(s.ready, p)))
  {
    var e := s.events[0];
    EventFits(cfg, s);
    assert EventOk(s, e);
    if Empty(s.ready) { EmptyCounts(s.ready, p); CountPositive(Flat(s.ready), p); }
    match e.kind {
      case Arrival =>
        PopArrivalCore(cfg, s);
        EnterCore(cfg, Admit(Pop(s), e.pid), {e.pid}, e.pid);
        ArriveRank(s.ready, e.pid, p);
      case Completion =>
        PopCompletionCore(cfg, s);
        ServeNext(cfg, Leave(Pop(s)), p, false);
      case Expire =>
        PopExpireCore(cfg, s);
        var s1 := Yield(Pop(s));
        assert ProcOk(cfg, s1, {e.pid}, e.pid);
        CountPositive(Flat(s.ready), e.pid);
        RequeueRank(s.ready, e.pid, p);
        ReturnCore(cfg, s1, {e.pid}, e.pid);
        assert {e.pid} - {e.pid} == {};
        var s2 := Return(cfg.policy, s1, e.pid);
        ServeNext(cfg, s2, p, true);
    }
  }

  lemma ServeNext(cfg: Config, s: State, p: nat, guard: bool)
    requires Core(cfg, s, {}) && cfg.policy.RR? && s.running.None? && p in Flat(s.ready)
    ensures !Empty(s.ready) && Head(s.ready) < |cfg.jobs|
    ensures var s' := Serve(cfg.policy, s, guard);
      && s'.ready.Rounds? && |s'.trace| == |s.trace| + 1 && s'.trace[..|s.trace|] == s.trace
      && s'.trace[|s.trace|].from == s.now && End(s') <= s.now + cfg.policy.quantum
      && s'.trace[|s.trace|].pid == Head(s.ready)
      && (Head(s.ready) != p ==> p in Flat(s'.ready))
      && (Head(s.ready) != p ==>
            Rank(s'.ready, p) + (if p in s.ready.active || p in s.ready.round then 1 else 2) <= Rank(s.ready, p))
  {
    if Empty(s.ready) { EmptyCounts(s.ready, p); CountPositive(Flat(s.ready), p); }
    DequeueCore(cfg, s, {});
    SliceBound(cfg, s.(ready := Rest(s.ready)), {} + {Head(s.ready)}, Head(s.ready), guard);
    if Head(s.ready) != p { ServeRank(s.ready, p); }
  }

  lemma Scale(a: int, b: int, q: int)
    requires a <= b && q >= 0
    ensures a * q <= b * q && (a + 1) * q == a * q + q
  {
  }

  lemma CloserStep(cfg: Config, s: State, s1: State, p: nat)
    requires ConfigOk(cfg) && Inv(cfg, s1) && cfg.policy.RR? && Closer(cfg.policy.quantum, s, s1, p) && |s1.events| > 0
    ensures Closer(cfg.policy.quantum, s, Step(cfg, s1), p) || Turn(cfg.policy.quantum, s, Step(cfg, s1), p, |s1.trace|)
  {
    hide Step, Inv, Rank, Flat, End;
    StepRank(cfg, s1, p);
    var n, q := |s1.trace| - |s.trace|, cfg.policy.quantum;
    assert (n + 1) * q == n * q + q;
    Scale(|s1.trace| - |s.trace|, Rank(s.ready, p), cfg.policy.quantum);
  }

  /** After n more events p's turn has come in time, or p is still waiting and nearer. */
  lemma {:induction false} Approach(cfg: Config, k: nat, n: nat, p: nat) returns (i: nat)
    requires ConfigOk(cfg) && cfg.policy.RR? && Run(cfg, k).ready.Rounds? && p in Flat(Run(cfg, k).ready)
    ensures Closer(cfg.policy.quantum, Run(cfg, k), Run(cfg, k + n), p)
         || Turn(cfg.policy.quantum, Run(cfg, k), Run(cfg, k + n), p, i)
  {
    hide Step, Core, Rank;
    if n == 0 {
      i := 0;
    } else {
      i := Approach(cfg, k, n - 1, p);
      var s, s1, s' := Run(cfg, k), Run(cfg, k + n - 1), Run(cfg, k + n);
      if |s1.events| > 0 {
        assert s' == Step(cfg, s1);
        if Closer(cfg.policy.quantum, s, s1, p) {
          CloserStep(cfg, s, s1, p);
          i := |s1.trace|;
        } else {
          TraceGrows(cfg, s1);
        }
      }
    }
  }

  /** Bounded waiting: with R processes in the ready queue, p among them, p is dispatched as one of the
      next 2R dispatches and at most 2R quanta from now, whatever arrives in the meantime. */
  lemma RrBoundedWaiting(cfg: Config, k: nat, p: nat) returns (n: nat, i: nat)
    requires ConfigOk(cfg) && cfg.policy.RR?
    ensures var s, s', r := Run(cfg, k), Run(cfg, k + n), |Flat(Run(cfg, k).ready)|;
      ReadyCount(s.ready, p) > 0 ==>
        && |s.trace| <= i < |s'.trace| && s'.trace[i].pid == p
        && i < |s.trace| + 2 * r
        && s'.trace[i].from <= s.now + 2 * r * cfg.policy.quantum
  {
    hide Run, Inv;
    n, i := Bound(cfg), 0;
    var s := Run(cfg, k);
    if ReadyCount(s.ready, p) > 0 {
      CountPositive(Flat(s.ready), p);
      ReadyInRounds(cfg, s, p);
      i := Approach(cfg, k, n, p);
      Terminates(cfg, k + n);
      NobodyReady(cfg, Run(cfg, k + n), p);
      LastSlice(cfg, k, p);
      TurnBound(cfg.policy.quantum, s, Run(cfg, k + n), p, i);
    }
  }

  lemma ReadyInRounds(cfg: Config, s: State, p: nat)
    requires Inv(cfg, s) && cfg.policy.RR? && ReadyCount(s.ready, p) > 0
    ensures p < |cfg.jobs| && s.ready.Rounds?
  {
  }

  lemma TurnBound(q: int, s: State, s': State, p: nat, i: nat)
    requires Turn(q, s, s', p, i) && q > 0 && p in Flat(s.ready) && End(s) <= s.now + q
    ensures i < |s.trace| + 2 * |Flat(s.ready)|
    ensures s'.trace[i].from <= s.now + 2 * |Flat(s.ready)| * q
  {
    RankBound(s.ready, p);
    Scale(Rank(s.ready, p) + 1, 2 * |Flat(s.ready)|, q);
    Scale(Rank(s.ready, p), Rank(s.ready, p), q);
  }

  lemma NobodyReady(cfg: Config, s: State, p: nat)
    requires Inv(cfg, s) && |s.events| == 0 && p < |cfg.jobs|
    ensures p !in Flat(s.ready)
  {
    AllFinished(cfg, s, p);
    EmptyCounts(s.ready, p);
    CountPositive(Flat(s.ready), p);
  }

  lemma RunningSlice(cfg: Config, s: State)
    requires Inv(cfg, s) && s.running.Some?
    ensures |s.trace| > 0 && s.trace[|s.trace| - 1].from <= s.now
  {
  }

  /** While somebody is ready a slice is running, and at most one quantum of it is left. */
  lemma LastSlice(cfg: Config, k: nat, p: nat)
    requires ConfigOk(cfg) && cfg.policy.RR? && p < |cfg.jobs| && ReadyCount(Run(cfg, k).ready, p) > 0
    ensures End(Run(cfg, k)) <= Run(cfg, k).now + cfg.policy.quantum
  {
    hide Core;
    var s := Run(cfg, k);
    if Empty(s.ready) { EmptyCounts(s.ready, p); }
    RunningSlice(cfg, s);
    RrSliceExact(cfg, k, |s.trace| - 1);
  }
}
