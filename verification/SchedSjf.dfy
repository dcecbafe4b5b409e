/** SJF is optimal: when all processes arrive together, the simulated run's total waiting time is at
    most that of running the same processes back to back in any other order. */
module SchedSjf {
  import opened Wrappers
  import opened Processes
  import opened SchedModel
  import opened SchedInv
  import opened SchedRun
  import opened SchedTheorems
  import opened SchedShortest
  import opened Sums

  // ----- running processes back to back -----

  function BurstOf(jobs: seq<Job>, p: nat): int {
    if p < |jobs| then jobs[p].burst else 0
  }

  function TotalBurst(jobs: seq<Job>, order: seq<nat>): int {
    if |order| == 0 then 0 else TotalBurst(jobs, order[..|order| - 1]) + BurstOf(jobs, order[|order| - 1])
  }

  /** Total waiting time when the processes of `order` run back to back: each waits for all before it. */
  function TotalWait(jobs: seq<Job>, order: seq<nat>): int {
    if |order| == 0 then 0 else TotalWait(jobs, order[..|order| - 1]) + TotalBurst(jobs, order[..|order| - 1])
  }

  // ----- the exchange argument -----

  lemma {:induction false} FrontBurst(jobs: seq<Job>, x: nat, r: seq<nat>)
    ensures TotalBurst(jobs, [x] + r) == BurstOf(jobs, x) + TotalBurst(jobs, r)
  {
    if |r| > 0 {
      FrontBurst(jobs, x, r[..|r| - 1]);
      assert ([x] + r)[..|r|] == [x] + r[..|r| - 1];
    } else {
      assert [x] + r == [x] && [x][..0] == [];
    }
  }

  /** The first process makes every later one wait for its burst. */
  lemma {:induction false} FrontWait(jobs: seq<Job>, x: nat, r: seq<nat>)
    ensures TotalWait(jobs, [x] + r) == |r| * BurstOf(jobs, x) + TotalWait(jobs, r)
  {
    if |r| > 0 {
      var b, n := BurstOf(jobs, x), |r|;
      FrontWait(jobs, x, r[..n - 1]);
      FrontBurst(jobs, x, r[..n - 1]);
      assert ([x] + r)[..n] == [x] + r[..n - 1];
      assert n * b == (n - 1) * b + b;
    } else {
      assert [x] + r == [x] && [x][..0] == [];
    }
  }

  /** Moving a shortest process to the front makes nobody wait longer in total. */
  lemma {:induction false} MoveToFront(jobs: seq<Job>, q: seq<nat>, i: nat)
    requires i < |q| && forall j :: 0 <= j < |q| ==> BurstOf(jobs, q[i]) <= BurstOf(jobs, q[j])
    ensures TotalWait(jobs, [q[i]] + RemoveAt(q, i)) <= TotalWait(jobs, q)
  {
    if i == 0 {
      assert [q[0]] + RemoveAt(q, 0) == q;
    } else {
      var x, m, r := q[0], q[i], q[1..];
      var r' := RemoveAt(r, i - 1);
      MoveToFront(jobs, r, i - 1);
      assert q == [x] + r && [q[i]] + RemoveAt(q, i) == [m] + ([x] + r');
      FrontWait(jobs, x, r);
      FrontWait(jobs, m, r');
      FrontWait(jobs, m, [x] + r');
      FrontWait(jobs, x, r');
      SwapBursts(BurstOf(jobs, m), BurstOf(jobs, x), |r'|);
    }
  }

  lemma SwapBursts(m: int, x: int, n: int)
    requires m <= x
    ensures (n + 1) * m + n * x <= (n + 1) * x + n * m
  {
    assert (n + 1) * m == n * m + m && (n + 1) * x == n * x + x;
  }

  /** Shortest first is best among all orders of the same processes. */
  lemma {:induction false} SortedIsBest(jobs: seq<Job>, best: seq<nat>, other: seq<nat>)
    requires forall i, j :: 0 <= i < j < |best| ==> BurstOf(jobs, best[i]) <= BurstOf(jobs, best[j])
    requires forall p: nat :: Count(best, p) == Count(other, p)
    ensures TotalWait(jobs, best) <= TotalWait(jobs, other) && |best| == |other|
    decreases |best|
  {
    if |best| == 0 {
      if |other| > 0 { CountPositive(other, other[0]); }
    } else {
      var x := best[0];
      CountPositive(best, x);
      CountPositive(other, x);
      var i :| 0 <= i < |other| && other[i] == x;
      forall j | 0 <= j < |other| ensures BurstOf(jobs, x) <= BurstOf(jobs, other[j]) {
        CountPositive(other, other[j]);
        CountPositive(best, other[j]);
      }
      var rest := RemoveAt(other, i);
      forall p: nat ensures Count(best[1..], p) == Count(rest, p) { CountRemoved(other, i, p); }
      SortedIsBest(jobs, best[1..], rest);
      MoveToFront(jobs, other, i);
      assert best == [x] + best[1..];
      FrontWait(jobs, x, best[1..]);
      FrontWait(jobs, x, rest);
    }
  }

  // ----- the simulated run is sorted and has no gaps -----

  function Dispatched(trace: seq<Seg>): seq<nat> {
    seq(|trace|, i requires 0 <= i < |trace| => trace[i].pid)
  }

  predicate Undispatched(ph: Phase) {
    ph.Future? || ph.Waiting?
  }

  /** Nobody waiting or yet to arrive is shorter than a process that has been dispatched. */
  ghost predicate Minimal(cfg: Config, s: State)
    requires |s.hist| == |cfg.jobs|
  {
    forall i, u :: 0 <= i < |s.trace| && 0 <= u < |cfg.jobs| && Undispatched(s.hist[u].phase) ==>
      BurstOf(cfg.jobs, s.trace[i].pid) <= BurstOf(cfg.jobs, u)
  }

  /** Nobody yet to arrive is shorter than a waiting process. */
  ghost predicate Arrived(cfg: Config, s: State)
    requires |s.hist| == |cfg.jobs|
  {
    forall w, u :: 0 <= w < |cfg.jobs| && 0 <= u < |cfg.jobs| && s.hist[w].phase.Waiting? && s.hist[u].phase.Future? ==>
      BurstOf(cfg.jobs, w) <= BurstOf(cfg.jobs, u)
  }

  ghost predicate Rising(cfg: Config, trace: seq<Seg>) {
    forall i, j :: 0 <= i < j < |trace| ==> BurstOf(cfg.jobs, trace[i].pid) <= BurstOf(cfg.jobs, trace[j].pid)
  }

  /** Slice i starts where the one before it ends, the first one at t0, and is a whole burst. */
  ghost predicate PackedAt(cfg: Config, procs: seq<Proc>, trace: seq<Seg>, t0: int, i: nat)
    requires |procs| == |cfg.jobs| && i < |trace|
  {
    && trace[i].pid < |cfg.jobs|
    && trace[i].from == (if i == 0 then t0 else trace[i - 1].to)
    && trace[i].to == trace[i].from + BurstOf(cfg.jobs, trace[i].pid) == procs[trace[i].pid].finish
  }

  ghost predicate Packed(cfg: Config, s: State, t0: int)
    requires |s.procs| == |cfg.jobs|
  {
    forall i :: 0 <= i < |s.trace| ==> PackedAt(cfg, s.procs, s.trace, t0, i)
  }

  /** Every process has been dispatched at most once. */
  ghost predicate Once(cfg: Config, s: State)
    requires |s.hist| == |cfg.jobs|
  {
    forall p :: 0 <= p < |cfg.jobs| ==> Count(Dispatched(s.trace), p) == One(!Undispatched(s.hist[p].phase))
  }

  /** All arrive at t0: processes run in order of burst time, back to back from t0 on. */
  ghost predicate Greedy(cfg: Config, s: State, t0: int)
    requires |s.procs| == |s.hist| == |cfg.jobs|
  {
    Minimal(cfg, s) && Arrived(cfg, s) && Rising(cfg, s.trace) && Packed(cfg, s, t0) && Once(cfg, s)
  }

  lemma DispatchOnce(cfg: Config, s: State, hand: set<nat>, p: nat)
    requires Core(cfg, s, hand) && p in hand && Once(cfg, s)
    ensures Once(cfg, Dispatch(cfg.policy, s, p, false))
    ensures forall i :: 0 <= i < |s.trace| ==> s.trace[i].pid != p
  {
    var s' := Dispatch(cfg.policy, s, p, false);
    assert ProcOk(cfg, s, hand, p);
    assert Dispatched(s'.trace) == Dispatched(s.trace) + [p];
    forall q | 0 <= q < |cfg.jobs| ensures Count(Dispatched(s'.trace), q) == One(!Undispatched(s'.hist[q].phase)) {
      CountAppend(Dispatched(s.trace), [p], q);
    }
    CountPositive(Dispatched(s.trace), p);
    forall i | 0 <= i < |s.trace| ensures s.trace[i].pid != p {
      assert Dispatched(s.trace)[i] == s.trace[i].pid;
    }
  }

  lemma DispatchPacked(cfg: Config, s: State, hand: set<nat>, p: nat, t0: int)
    requires Core(cfg, s, hand) && p in hand && s.running.None? && cfg.policy.SJF? && Once(cfg, s) && Packed(cfg, s, t0)
    requires s.now == if |s.trace| == 0 then t0 else End(s)
    ensures Packed(cfg, Dispatch(cfg.policy, s, p, false), t0)
  {
    assert ProcOk(cfg, s, hand, p);
    ChargeOk(cfg, s, hand, p, false);
    DispatchOnce(cfg, s, hand, p);
    var s' := Dispatch(cfg.policy, s, p, false);
    forall i | 0 <= i < |s'.trace| ensures PackedAt(cfg, s'.procs, s'.trace, t0, i) {
      if i < |s.trace| { assert PackedAt(cfg, s.procs, s.trace, t0, i); }
    }
  }

  lemma WasWaiting(cfg: Config, s: State, hand: set<nat>, p: nat)
    requires Core(cfg, s, hand) && p in hand
    ensures p < |cfg.jobs| == |s.hist| && s.hist[p].phase.Waiting?
  {
    assert ProcOk(cfg, s, hand, p);
  }

  /** Whoever has been dispatched is no longer than p, which has not. */
  lemma DispatchMinimal(cfg: Config, s: State, p: nat, trace: seq<Seg>)
    requires |s.hist| == |cfg.jobs| && Minimal(cfg, s) && trace == s.trace
    requires p < |cfg.jobs| && Undispatched(s.hist[p].phase)
    ensures forall i :: 0 <= i < |trace| ==> BurstOf(cfg.jobs, trace[i].pid) <= BurstOf(cfg.jobs, p)
  {
  }

  lemma DispatchGreedy(cfg: Config, s: State, hand: set<nat>, p: nat, t0: int)
    requires Core(cfg, s, hand) && p in hand && s.running.None? && cfg.policy.SJF? && Greedy(cfg, s, t0)
    requires forall u :: 0 <= u < |cfg.jobs| && Undispatched(s.hist[u].phase) ==>
      BurstOf(cfg.jobs, p) <= BurstOf(cfg.jobs, u)
    requires s.now == if |s.trace| == 0 then t0 else End(s)
    ensures Greedy(cfg, Dispatch(cfg.policy, s, p, false), t0)
  {
    hide Dispatch, RunTime, Once, Packed, ProcOk;
    CoreSizes(cfg, s, hand);
    WasWaiting(cfg, s, hand, p);
    DispatchOnce(cfg, s, hand, p);
    DispatchPacked(cfg, s, hand, p, t0);
    var s' := Dispatch(cfg.policy, s, p, false);
    DispatchFrame(cfg.policy, s, p, false);
    DispatchMinimal(cfg, s, p, s.trace);
    assert Rising(cfg, s'.trace);
    assert Arrived(cfg, s');
    assert Minimal(cfg, s');
  }

  /** Nothing is dispatched: only phases change, and not whether a process has been dispatched. */
  lemma GreedyKept(cfg: Config, s: State, s': State, t0: int)
    requires |s.procs| == |s.hist| == |s'.hist| == |cfg.jobs| && Greedy(cfg, s, t0)
    requires s'.trace == s.trace && s'.procs == s.procs && Arrived(cfg, s')
    requires forall u :: 0 <= u < |cfg.jobs| ==> (Undispatched(s'.hist[u].phase) <==> Undispatched(s.hist[u].phase))
    ensures Greedy(cfg, s', t0)
  {
  }

  lemma AdmitGreedy(cfg: Config, s: State, p: nat, t0: int)
    requires |s.procs| == |s.hist| == |cfg.jobs| && Greedy(cfg, s, t0) && |s.events| > 0
    requires p < |cfg.jobs| && s.hist[p].phase.Future?
    requires forall u :: 0 <= u < |cfg.jobs| && s.hist[u].phase.Future? ==> BurstOf(cfg.jobs, p) <= BurstOf(cfg.jobs, u)
    ensures Greedy(cfg, Admit(Pop(s), p), t0)
  {
    assert Arrived(cfg, Admit(Pop(s), p));
    GreedyKept(cfg, s, Admit(Pop(s), p), t0);
  }

  /** Arrivals fire in order of burst time, because they tie on time. */
  lemma ArrivalIsShortest(cfg: Config, s: State, t0: int, u: nat)
    requires Inv(cfg, s) && cfg.policy.SJF? && |s.events| > 0 && s.events[0].kind.Arrival? && u < |cfg.jobs|
    requires forall p :: 0 <= p < |cfg.jobs| ==> cfg.jobs[p].arrival == t0
    requires s.hist[u].phase.Future?
    ensures s.events[0].time == t0
    ensures BurstOf(cfg.jobs, s.events[0].pid) <= BurstOf(cfg.jobs, u)
  {
    var p := s.events[0].pid;
    assert EventOk(s, s.events[0]);
    assert ProcOk(cfg, s, {}, p) && ProcOk(cfg, s, {}, u);
    EventPresent(s.events, u);
    var i := EventOf(s.events, u);
    assert EventOk(s, s.events[i]);
    assert i > 0 ==> !Before(true, s.procs, s.events[i], s.events[0]);
  }

  lemma ArrivalGreedy(cfg: Config, s: State, t0: int)
    requires Inv(cfg, s) && cfg.policy.SJF? && |s.events| > 0 && s.events[0].kind.Arrival? && Greedy(cfg, s, t0)
    requires forall p :: 0 <= p < |cfg.jobs| ==> cfg.jobs[p].arrival == t0
    ensures |OnArrival(cfg, s).procs| == |OnArrival(cfg, s).hist| == |cfg.jobs| && Greedy(cfg, OnArrival(cfg, s), t0)
  {
    var p := s.events[0].pid;
    PopArrivalCore(cfg, s);
    var s1 := Admit(Pop(s), p);
    assert EventOk(s, s.events[0]);
    assert ProcOk(cfg, s, {}, p);
    forall u | 0 <= u < |cfg.jobs| && s.hist[u].phase.Future? ensures BurstOf(cfg.jobs, p) <= BurstOf(cfg.jobs, u) {
      ArrivalIsShortest(cfg, s, t0, u);
    }
    AdmitGreedy(cfg, s, p, t0);
    if s.running.None? {
      forall u | 0 <= u < |cfg.jobs| && Undispatched(s1.hist[u].phase)
        ensures BurstOf(cfg.jobs, p) <= BurstOf(cfg.jobs, u)
      {
        assert ProcOk(cfg, s, {}, u);
        EmptyCounts(s.ready, u);
      }
      DispatchGreedy(cfg, s1, {p}, p, t0);
    } else {
      EnterCore(cfg, s1, {p}, p);
      GreedyKept(cfg, s1, Enter(cfg.policy, s1, p), t0);
    }
  }

  lemma LeaveGreedy(cfg: Config, s: State, t0: int)
    requires Inv(cfg, s) && |s.events| > 0 && s.events[0].kind.Completion? && Greedy(cfg, s, t0)
    requires s.running.Some? && s.running.value < |cfg.jobs|
    ensures |Leave(Pop(s)).procs| == |Leave(Pop(s)).hist| == |cfg.jobs| && Greedy(cfg, Leave(Pop(s)), t0)
  {
    PopCompletionCore(cfg, s);
    RunningOk(cfg, s, {});
    GreedyKept(cfg, s, Leave(Pop(s)), t0);
  }

  lemma HeadIsShortest(cfg: Config, s: State, u: nat)
    requires Core(cfg, s, {}) && cfg.policy.SJF? && Shortest(cfg, s) && Arrived(cfg, s) && !Empty(s.ready)
    requires u < |cfg.jobs| && Undispatched(s.hist[u].phase)
    ensures Head(s.ready) < |cfg.jobs| && BurstOf(cfg.jobs, Head(s.ready)) <= BurstOf(cfg.jobs, u)
  {
    DequeueCore(cfg, s, {});
    var p := Head(s.ready);
    DequeueTakes(s.ready, p);
    assert ProcOk(cfg, s, {}, u) && ProcOk(cfg, s, {}, p);
    if s.hist[u].phase.Waiting? {
      CountPositive(s.ready.q, u);
      assert Key(cfg.policy, s.procs, p) <= Key(cfg.policy, s.procs, u);
    }
  }

  /** A completion happens when the last slice ends. */
  lemma CompletionTime(cfg: Config, s: State)
    requires Inv(cfg, s) && |s.events| > 0 && s.events[0].kind.Completion?
    ensures s.events[0].time == End(s) && |s.trace| > 0
  {
    assert EventOk(s, s.events[0]);
    assert ProcOk(cfg, s, {}, s.events[0].pid);
  }

  lemma CompletionGreedy(cfg: Config, s: State, t0: int)
    requires Inv(cfg, s) && cfg.policy.SJF? && |s.events| > 0 && s.events[0].kind.Completion?
    requires Greedy(cfg, s, t0) && Shortest(cfg, s)
    ensures |OnCompletion(cfg, s).procs| == |OnCompletion(cfg, s).hist| == |cfg.jobs|
    ensures Greedy(cfg, OnCompletion(cfg, s), t0)
  {
    hide Dispatch, Minimal, Rising, Packed, Once;
    assert EventOk(s, s.events[0]);
    PopCompletionCore(cfg, s);
    var s1 := Leave(Pop(s));
    LeaveGreedy(cfg, s, t0);
    CompletionTime(cfg, s);
    if !Empty(s1.ready) {
      DequeueCore(cfg, s1, {});
      var p, s2 := Head(s1.ready), s1.(ready := Rest(s1.ready));
      forall u | 0 <= u < |cfg.jobs| && Undispatched(s2.hist[u].phase)
        ensures BurstOf(cfg.jobs, p) <= BurstOf(cfg.jobs, u)
      {
        HeadIsShortest(cfg, s1, u);
      }
      GreedyKept(cfg, s1, s2, t0);
      DispatchFrame(cfg.policy, s2, p, false);
      DispatchGreedy(cfg, s2, {} + {p}, p, t0);
    }
  }

  lemma StepGreedy(cfg: Config, s: State, t0: int)
    requires Inv(cfg, s) && cfg.policy.SJF? && |s.events| > 0 && Greedy(cfg, s, t0) && Shortest(cfg, s)
    requires forall p :: 0 <= p < |cfg.jobs| ==> cfg.jobs[p].arrival == t0
    ensures |Step(cfg, s).procs| == |Step(cfg, s).hist| == |cfg.jobs| && Greedy(cfg, Step(cfg, s), t0)
  {
    assert EventOk(s, s.events[0]);
    assert ProcOk(cfg, s, {}, s.events[0].pid);
    match s.events[0].kind {
      case Arrival => ArrivalGreedy(cfg, s, t0);
      case Completion => CompletionGreedy(cfg, s, t0);
      case Expire => assert false;
    }
  }

  lemma InitGreedy(cfg: Config, t0: int)
    ensures Greedy(cfg, Init(cfg), t0)
  {
    assert Dispatched(Init(cfg).trace) == [];
  }

  lemma BaseGreedy(cfg: Config, k: nat, t0: int)
    requires ConfigOk(cfg) && k == 0
    ensures Greedy(cfg, Run(cfg, k), t0)
  {
    InitGreedy(cfg, t0);
    assert Run(cfg, k) == Init(cfg);
  }

  lemma NextGreedy(cfg: Config, k: nat, t0: int)
    requires ConfigOk(cfg) && cfg.policy.SJF? && k > 0
    requires forall p :: 0 <= p < |cfg.jobs| ==> cfg.jobs[p].arrival == t0
    requires Greedy(cfg, Run(cfg, k - 1), t0)
    ensures Greedy(cfg, Run(cfg, k), t0)
  {
    hide Step, Greedy, Shortest, Core;
    var s := Run(cfg, k - 1);
    AlwaysShortest(cfg, k - 1);
    if |s.events| > 0 {
      StepGreedy(cfg, s, t0);
      assert Run(cfg, k) == Step(cfg, s);
    }
  }

  lemma {:induction false} RunGreedy(cfg: Config, k: nat, t0: int)
    requires ConfigOk(cfg) && cfg.policy.SJF?
    requires forall p :: 0 <= p < |cfg.jobs| ==> cfg.jobs[p].arrival == t0
    ensures Greedy(cfg, Run(cfg, k), t0)
  {
    hide Step, Greedy, Core;
    if k == 0 {
      BaseGreedy(cfg, k, t0);
    } else {
      RunGreedy(cfg, k - 1, t0);
      NextGreedy(cfg, k, t0);
    }
  }

  // ----- from slices to reported waiting times -----

  /** The reported waiting times, in process order. */
  function Waits(procs: seq<Proc>): seq<int> {
    seq(|procs|, p requires 0 <= p < |procs| => WithMetrics(procs[p]).waiting)
  }

  function At(f: seq<int>, p: nat): int {
    if p < |f| then f[p] else 0
  }

  function Along(f: seq<int>, order: seq<nat>): int {
    if |order| == 0 then 0 else At(f, order[0]) + Along(f, order[1..])
  }

  function Scaled(f: seq<int>, order: seq<nat>): seq<int> {
    seq(|f|, p requires 0 <= p < |f| => f[p] * Count(order, p))
  }

  /** Adding up along an order counts each element as often as the order names it. */
  lemma {:induction false} AlongIsSum(f: seq<int>, order: seq<nat>)
    requires forall i :: 0 <= i < |order| ==> order[i] < |f|
    ensures Along(f, order) == Sum(Scaled(f, order))
  {
    if |order| == 0 {
      SumZero(Scaled(f, order));
    } else {
      var x, r := order[0], order[1..];
      AlongIsSum(f, r);
      assert f[x] * (1 + Count(r, x)) == f[x] + f[x] * Count(r, x);
      assert Scaled(f, order) == Scaled(f, r)[x := f[x] + f[x] * Count(r, x)];
      SumUpdate(Scaled(f, r), x, f[x] + f[x] * Count(r, x));
    }
  }

  lemma {:induction false} AlongAppend(f: seq<int>, order: seq<nat>, x: nat)
    ensures Along(f, order + [x]) == Along(f, order) + At(f, x)
  {
    if |order| == 0 {
      assert order + [x] == [x] && [x][1..] == [];
    } else {
      assert (order + [x])[1..] == order[1..] + [x];
      AlongAppend(f, order[1..], x);
    }
  }

  /** The first n slices start after the bursts before them, so their waiting adds up to TotalWait. */
  lemma {:induction false} SlicesWait(cfg: Config, s: State, t0: int, n: nat)
    requires |s.procs| == |s.hist| == |cfg.jobs| && Greedy(cfg, s, t0) && n <= |s.trace|
    requires forall p :: 0 <= p < |cfg.jobs| ==> s.procs[p].arrival == t0 && s.procs[p].burst == cfg.jobs[p].burst
    ensures n > 0 ==> s.trace[n - 1].to == t0 + TotalBurst(cfg.jobs, Dispatched(s.trace)[..n])
    ensures Along(Waits(s.procs), Dispatched(s.trace)[..n]) == TotalWait(cfg.jobs, Dispatched(s.trace)[..n])
  {
    if n > 0 {
      var d := Dispatched(s.trace);
      SlicesWait(cfg, s, t0, n - 1);
      assert PackedAt(cfg, s.procs, s.trace, t0, n - 1);
      assert d[..n][..n - 1] == d[..n - 1] && d[..n] == d[..n - 1] + [d[n - 1]];
      AlongAppend(Waits(s.procs), d[..n - 1], d[n - 1]);
      assert n == 1 ==> d[..n - 1] == [];
    }
  }

  /** SJF optimality: for processes that arrive together, the total of the reported waiting times is at
      most the total waiting time of running the processes back to back in any order. */
  lemma SjfOptimal(cfg: Config, n: nat, t0: int, other: seq<nat>)
    requires ConfigOk(cfg) && cfg.policy.SJF? && n >= Bound(cfg)
    requires forall p :: 0 <= p < |cfg.jobs| ==> cfg.jobs[p].arrival == t0
    requires forall p: nat :: Count(other, p) == One(p < |cfg.jobs|)
    ensures Sum(Waits(Run(cfg, n).procs)) <= TotalWait(cfg.jobs, other)
  {
    var s := Run(cfg, n);
    var d := Dispatched(s.trace);
    Terminates(cfg, n);
    RunGreedy(cfg, n, t0);
    forall p: nat ensures Count(d, p) == One(p < |cfg.jobs|) {
      if p < |cfg.jobs| {
        AllFinished(cfg, s, p);
      } else {
        CountPositive(d, p);
      }
    }
    forall p | 0 <= p < |cfg.jobs| ensures s.procs[p].arrival == t0 && s.procs[p].burst == cfg.jobs[p].burst {
      assert ProcOk(cfg, s, {}, p);
    }
    SlicesWait(cfg, s, t0, |s.trace|);
    assert d[..|s.trace|] == d;
    AlongIsSum(Waits(s.procs), d);
    assert Scaled(Waits(s.procs), d) == Waits(s.procs);
    SortedIsBest(cfg.jobs, d, other);
  }
}
