/** FCFS: the event-driven run computes exactly the textbook recurrence over the processes in stable
    order of arrival, for any workload, including ties and idle gaps. */
module SchedFcfs {
  import opened Wrappers
  import opened Processes
  import opened SchedModel
  import opened SchedInv
  import opened SchedRun
  import opened SchedTheorems

  // ----- the recurrence -----

  /** Process a comes before process b: by arrival, and by input order on a tie. */
  predicate Earlier(jobs: seq<Job>, a: nat, b: nat)
    requires a < |jobs| && b < |jobs|
  {
    jobs[a].arrival < jobs[b].arrival || (jobs[a].arrival == jobs[b].arrival && a < b)
  }

  /** `order` lists every process once, in stable order of arrival. */
  ghost predicate StableOrder(jobs: seq<Job>, order: seq<nat>) {
    && |order| == |jobs|
    && (forall i :: 0 <= i < |order| ==> order[i] < |jobs|)
    && (forall p :: 0 <= p < |jobs| ==> Count(order, p) == 1)
    && forall i, j :: 0 <= i < j < |order| ==> Earlier(jobs, order[i], order[j])
  }

  /** start_k = max(arrival_k, finish_{k-1}), finish_k = start_k + burst_k. */
  function StartAt(jobs: seq<Job>, order: seq<nat>, k: nat): int
    requires k < |order| && forall i :: 0 <= i < |order| ==> order[i] < |jobs|
    decreases k, 0
  {
    var free := if k == 0 then 0 else FinishAt(jobs, order, k - 1);
    if jobs[order[k]].arrival > free then jobs[order[k]].arrival else free
  }

  function FinishAt(jobs: seq<Job>, order: seq<nat>, k: nat): int
    requires k < |order| && forall i :: 0 <= i < |order| ==> order[i] < |jobs|
    decreases k, 1
  {
    StartAt(jobs, order, k) + jobs[order[k]].burst
  }

  // ----- pending arrivals, in list order -----

  function Arriving(q: seq<Event>): seq<nat> {
    if |q| == 0 then [] else (if q[0].kind.Arrival? then [q[0].pid] else []) + Arriving(q[1..])
  }

  lemma {:induction false} ArrivingInsert(q: seq<Event>, k: nat, e: Event)
    requires k <= |q| && !e.kind.Arrival?
    ensures Arriving(InsertAt(q, k, e)) == Arriving(q)
  {
    if k == 0 {
      assert InsertAt(q, k, e) == [e] + q;
    } else {
      assert InsertAt(q, k, e) == [q[0]] + InsertAt(q[1..], k - 1, e);
      ArrivingInsert(q[1..], k - 1, e);
    }
  }

  lemma {:induction false} AllArriving(q: seq<Event>)
    requires forall i :: 0 <= i < |q| ==> q[i].kind.Arrival?
    ensures Arriving(q) == seq(|q|, i requires 0 <= i < |q| => q[i].pid)
  {
    if |q| > 0 {
      AllArriving(q[1..]);
      assert seq(|q|, i requires 0 <= i < |q| => q[i].pid)
          == [q[0].pid] + seq(|q[1..]|, i requires 0 <= i < |q[1..]| => q[1..][i].pid);
    }
  }

  // ----- the arrival order of the initial event list -----

  /** Arrival a stands before arrival b: by time, then by remaining time if asked for, then in input order. */
  predicate StandsBefore(byRemaining: bool, procs: seq<Proc>, a: Event, b: Event) {
    || a.time < b.time
    || (a.time == b.time && byRemaining && Remaining(procs, a.pid) < Remaining(procs, b.pid))
    || (a.time == b.time && (byRemaining ==> Remaining(procs, a.pid) == Remaining(procs, b.pid)) && a.pid < b.pid)
  }

  lemma {:induction false} InsertionsStable(byRemaining: bool, procs: seq<Proc>, n: nat)
    requires n <= |procs|
    ensures var q := Insertions(byRemaining, procs, n);
      && |q| == n
      && (forall i :: 0 <= i < n ==> q[i].pid < n && q[i] == Event(procs[q[i].pid].arrival, Arrival, q[i].pid))
      && forall i, j :: 0 <= i < j < n ==> StandsBefore(byRemaining, procs, q[i], q[j])
  {
    InsertionsOk(byRemaining, procs, n);
    if n > 0 {
      InsertionsStable(byRemaining, procs, n - 1);
      var q, e := Insertions(byRemaining, procs, n - 1), Event(procs[n - 1].arrival, Arrival, n - 1);
      var k := EventPos(byRemaining, procs, q, e);
      InsertKeeps(q, k, e);
      forall i | 0 <= i < k ensures StandsBefore(byRemaining, procs, q[i], e) {
        assert !Before(byRemaining, procs, e, q[i]) && q[i].pid < n - 1;
      }
      forall i | k <= i < n - 1 ensures StandsBefore(byRemaining, procs, e, q[i]) {
        assert i > k ==> StandsBefore(byRemaining, procs, q[k], q[i]);
      }
    }
  }

  lemma {:induction false} PidsCount(q: seq<Event>, p: nat)
    ensures Count(seq(|q|, i requires 0 <= i < |q| => q[i].pid), p) == EventCount(q, p)
  {
    if |q| > 0 {
      PidsCount(q[1..], p);
      assert seq(|q|, i requires 0 <= i < |q| => q[i].pid)[1..]
          == seq(|q[1..]|, i requires 0 <= i < |q[1..]| => q[1..][i].pid);
    }
  }

  /** The order in which the arrivals are scheduled. */
  function ArrivalOrder(cfg: Config): seq<nat> {
    Arriving(Init(cfg).events)
  }

  lemma OrderListsAll(cfg: Config)
    requires ConfigOk(cfg)
    ensures var order, q := ArrivalOrder(cfg), Init(cfg).events;
      && |order| == |q| == |cfg.jobs|
      && (forall i :: 0 <= i < |order| ==>
            order[i] == q[i].pid < |cfg.jobs| && q[i].time == cfg.jobs[q[i].pid].arrival)
      && (forall p :: 0 <= p < |cfg.jobs| ==> Count(order, p) == 1)
      && forall i, j :: 0 <= i < j < |order| ==>
           StandsBefore(ByRemaining(cfg.policy), Init(cfg).procs, q[i], q[j])
  {
    var s := Init(cfg);
    InsertionsOk(ByRemaining(cfg.policy), s.procs, |s.procs|);
    InsertionsStable(ByRemaining(cfg.policy), s.procs, |s.procs|);
    AllArriving(s.events);
    forall p | 0 <= p < |cfg.jobs| ensures Count(ArrivalOrder(cfg), p) == 1 { PidsCount(s.events, p); }
  }

  /** FCFS, round robin and MLFQ schedule the arrivals by arrival time and, on a tie, in input order. */
  lemma OrderIsStable(cfg: Config)
    requires ConfigOk(cfg) && !cfg.policy.SJF? && !cfg.policy.STCF?
    ensures StableOrder(cfg.jobs, ArrivalOrder(cfg))
  {
    hide Insertions, Arriving;
    OrderListsAll(cfg);
    var order := ArrivalOrder(cfg);
    forall i, j | 0 <= i < j < |order| ensures Earlier(cfg.jobs, order[i], order[j]) {
      assert StandsBefore(false, Init(cfg).procs, Init(cfg).events[i], Init(cfg).events[j]);
    }
  }

  /** SJF and STCF schedule them by arrival time, on a tie by burst, and only then in input order. */
  lemma OrderIsShortestFirst(cfg: Config, i: nat, j: nat)
    requires ConfigOk(cfg) && (cfg.policy.SJF? || cfg.policy.STCF?) && i < j < |cfg.jobs|
    ensures |ArrivalOrder(cfg)| == |cfg.jobs| && ArrivalOrder(cfg)[i] < |cfg.jobs| && ArrivalOrder(cfg)[j] < |cfg.jobs|
    ensures var a, b := cfg.jobs[ArrivalOrder(cfg)[i]], cfg.jobs[ArrivalOrder(cfg)[j]];
      || a.arrival < b.arrival
      || (a.arrival == b.arrival && a.burst < b.burst)
      || (a == b && ArrivalOrder(cfg)[i] < ArrivalOrder(cfg)[j])
  {
    hide Insertions, Arriving;
    OrderListsAll(cfg);
    assert StandsBefore(true, Init(cfg).procs, Init(cfg).events[i], Init(cfg).events[j]);
  }

  // ----- the run follows the recurrence -----

  /** With m processes arrived and d dispatched: the line is order[d..m], the arrivals still pending are
      order[m..], and the slices so far are the recurrence. */
  ghost predicate Follows(cfg: Config, s: State, order: seq<nat>, d: nat, m: nat) {
    && StableOrder(cfg.jobs, order)
    && d == |s.trace| <= m <= |order|
    && s.ready == Line(order[d..m])
    && Arriving(s.events) == order[m..]
    && forall j :: 0 <= j < d ==>
         && s.trace[j] == Seg(order[j], 0, StartAt(cfg.jobs, order, j), FinishAt(cfg.jobs, order, j))
         && order[j] < |s.procs|
         && s.procs[order[j]].start == StartAt(cfg.jobs, order, j)
         && s.procs[order[j]].finish == FinishAt(cfg.jobs, order, j)
  }

  lemma {:induction false} CountTwice(q: seq<nat>, i: nat, j: nat)
    requires i < j < |q| && q[i] == q[j]
    ensures Count(q, q[i]) >= 2
  {
    CountPositive(q[1..], q[j]);
    if i > 0 { CountTwice(q[1..], i - 1, j - 1); } else { assert q[1..][j - 1] == q[j]; }
  }

  lemma OrderDistinct(jobs: seq<Job>, order: seq<nat>, i: nat, j: nat)
    requires StableOrder(jobs, order) && i < j < |order|
    ensures order[i] != order[j]
  {
    if order[i] == order[j] { CountTwice(order, i, j); }
  }

  /** Dispatching the next process in the order at max(arrival, previous finish). */
  lemma DispatchFollows(cfg: Config, s: State, hand: set<nat>, order: seq<nat>, d: nat, m: nat, guard: bool)
    requires Core(cfg, s, hand) && cfg.policy.FCFS? && s.running.None? && d < m <= |order| && order[d] in hand
    requires Follows(cfg, s.(ready := Line(order[d..m])), order, d, m) && s.ready == Line(order[d + 1..m])
    requires s.now == StartAt(cfg.jobs, order, d)
    ensures Follows(cfg, Dispatch(cfg.policy, s, order[d], guard), order, d + 1, m)
  {
    hide Dispatch, Sorted, TraceOk;
    var p := order[d];
    assert ProcOk(cfg, s, hand, p);
    var s' := Dispatch(cfg.policy, s, p, guard);
    DispatchFrame(cfg.policy, s, p, guard);
    ChargeOk(cfg, s, hand, p, guard);
    var e := SliceEnd(cfg.policy, s, p, s'.procs[p]);
    ArrivingInsert(s.events, EventPos(false, s'.procs, s.events, e), e);
    forall j | 0 <= j < d ensures order[j] != p { OrderDistinct(cfg.jobs, order, j, d); }
  }

  /** The first pending arrival is the next in the order, and joins the line at its end. */
  lemma AdmitFollows(cfg: Config, s: State, order: seq<nat>, d: nat, m: nat)
    requires Inv(cfg, s) && cfg.policy.FCFS? && |s.events| > 0 && s.events[0].kind.Arrival?
    requires Follows(cfg, s, order, d, m)
    ensures s.events[0].pid < |s.hist| == |s.procs| == |cfg.jobs| && m < |order| && order[m] == s.events[0].pid
    ensures order[d..m] + [order[m]] == order[d..m + 1]
    ensures Follows(cfg, Admit(Pop(s), order[m]).(ready := Line(order[d..m + 1])), order, d, m + 1)
  {
    hide StartAt, FinishAt, StableOrder, Sorted, TraceOk;
    var p := s.events[0].pid;
    assert EventOk(s, s.events[0]);
    assert order[m..] == [p] + Arriving(s.events[1..]);
    assert order[m] == p && order[m + 1..] == order[m..][1..] == Arriving(s.events[1..]);
  }

  lemma ArrivalFollows(cfg: Config, s: State, order: seq<nat>, d: nat, m: nat) returns (d': nat)
    requires Inv(cfg, s) && cfg.policy.FCFS? && |s.events| > 0 && s.events[0].kind.Arrival?
    requires Follows(cfg, s, order, d, m)
    ensures m + 1 <= |order| && Follows(cfg, OnArrival(cfg, s), order, d', m + 1)
  {
    hide Dispatch, Core;
    AdmitFollows(cfg, s, order, d, m);
    PopArrivalCore(cfg, s);
    var p := order[m];
    var s1 := Admit(Pop(s), p);
    if s.running.None? {
      d' := d + 1;
      assert d == m;
      assert s1.ready == Line(order[d + 1..m + 1]);
      ArrivedBy(cfg, s1, {p}, p);
      FreeBy(cfg, s1, {p});
      ArrivalDue(cfg, s);
      DispatchFollows(cfg, s1, {p}, order, d, m + 1, false);
    } else {
      d' := d;
      EnterCore(cfg, s1, {p}, p);
    }
  }

  lemma FreeBy(cfg: Config, s: State, hand: set<nat>)
    requires Core(cfg, s, hand) && s.running.None?
    ensures End(s) <= s.now && s.now >= 0
  {
  }

  lemma ArrivalDue(cfg: Config, s: State)
    requires Inv(cfg, s) && |s.events| > 0 && s.events[0].kind.Arrival?
    ensures s.events[0].pid < |cfg.jobs| && s.events[0].time == cfg.jobs[s.events[0].pid].arrival
  {
    assert EventOk(s, s.events[0]);
    assert ProcOk(cfg, s, {}, s.events[0].pid);
  }

  /** The next in line is served when the running process's slice, the latest one, has ended. */
  lemma LeaveFollows(cfg: Config, s: State, order: seq<nat>, d: nat, m: nat)
    requires Inv(cfg, s) && cfg.policy.FCFS? && |s.events| > 0 && s.events[0].kind.Completion?
    requires Follows(cfg, s, order, d, m)
    ensures s.running.Some? && s.running.value < |s.hist| == |s.procs|
    ensures Core(cfg, Leave(Pop(s)), {}) && Follows(cfg, Leave(Pop(s)), order, d, m)
    ensures d > 0 && s.events[0].time == FinishAt(cfg.jobs, order, d - 1)
  {
    assert EventOk(s, s.events[0]);
    PopCompletionCore(cfg, s);
    assert Arriving(s.events[1..]) == Arriving(s.events);
    assert ProcOk(cfg, s, {}, s.events[0].pid);
  }

  lemma CompletionFollows(cfg: Config, s: State, order: seq<nat>, d: nat, m: nat) returns (d': nat)
    requires Inv(cfg, s) && cfg.policy.FCFS? && |s.events| > 0 && s.events[0].kind.Completion?
    requires Follows(cfg, s, order, d, m)
    ensures Follows(cfg, OnCompletion(cfg, s), order, d', m)
  {
    hide Dispatch, Core, Inv;
    LeaveFollows(cfg, s, order, d, m);
    var s1 := Leave(Pop(s));
    d' := d;
    if d < m {
      d' := d + 1;
      DequeueCore(cfg, s1, {});
      assert Head(s1.ready) == order[d];
      var s2 := s1.(ready := Rest(s1.ready));
      assert s2.ready == Line(order[d + 1..m]);
      ArrivedBy(cfg, s2, {} + {order[d]}, order[d]);
      DispatchFollows(cfg, s2, {} + {order[d]}, order, d, m, false);
    }
  }

  lemma ArrivedBy(cfg: Config, s: State, hand: set<nat>, p: nat)
    requires Core(cfg, s, hand) && p in hand
    ensures p < |cfg.jobs| && cfg.jobs[p].arrival <= s.now
  {
    assert ProcOk(cfg, s, hand, p);
  }

  lemma StepFollows(cfg: Config, s: State, order: seq<nat>, d: nat, m: nat) returns (d': nat, m': nat)
    requires Inv(cfg, s) && cfg.policy.FCFS? && |s.events| > 0 && Follows(cfg, s, order, d, m)
    ensures Follows(cfg, Step(cfg, s), order, d', m')
  {
    d', m' := d, m;
    assert EventOk(s, s.events[0]);
    assert ProcOk(cfg, s, {}, s.events[0].pid);
    match s.events[0].kind {
      case Arrival =>
        d' := ArrivalFollows(cfg, s, order, d, m);
        m' := m + 1;
      case Completion =>
        d' := CompletionFollows(cfg, s, order, d, m);
      case Expire => assert false;
    }
  }

  lemma InitFollows(cfg: Config)
    requires ConfigOk(cfg) && cfg.policy.FCFS?
    ensures Follows(cfg, Init(cfg), ArrivalOrder(cfg), 0, 0)
  {
    OrderIsStable(cfg);
  }

  lemma {:induction false} RunFollows(cfg: Config, k: nat) returns (d: nat, m: nat)
    requires ConfigOk(cfg) && cfg.policy.FCFS?
    ensures Follows(cfg, Run(cfg, k), ArrivalOrder(cfg), d, m)
  {
    hide Step, Inv, Follows;
    if k == 0 {
      InitFollows(cfg);
      d, m := 0, 0;
    } else {
      d, m := RunFollows(cfg, k - 1);
      var s := Run(cfg, k - 1);
      if |s.events| > 0 { d, m := StepFollows(cfg, s, ArrivalOrder(cfg), d, m); }
    }
  }

  lemma EndFollows(cfg: Config, s: State, order: seq<nat>, d: nat, m: nat)
    requires Inv(cfg, s) && cfg.policy.FCFS? && |s.events| == 0 && Follows(cfg, s, order, d, m)
    ensures d == m == |order|
  {
    assert |order[m..]| == 0;
    RunningOk(cfg, s, {});
    if s.running.Some? { EventPresent(s.events, s.running.value); }
    assert |order[d..m]| == 0;
  }

  /** FCFS refinement: at the end the k-th process in stable arrival order started and finished exactly
      at the times of the recurrence. */
  lemma FcfsRefinement(cfg: Config, n: nat, k: nat)
    requires ConfigOk(cfg) && cfg.policy.FCFS? && n >= Bound(cfg) && k < |cfg.jobs|
    ensures var order, s := ArrivalOrder(cfg), Run(cfg, n);
      && StableOrder(cfg.jobs, order) && order[k] < |s.procs|
      && s.procs[order[k]].start == StartAt(cfg.jobs, order, k)
      && s.procs[order[k]].finish == FinishAt(cfg.jobs, order, k)
  {
    Terminates(cfg, n);
    var d, m := RunFollows(cfg, n);
    EndFollows(cfg, Run(cfg, n), ArrivalOrder(cfg), d, m);
  }

  lemma Later(jobs: seq<Job>, a: seq<nat>, b: seq<nat>, k: nat, i: nat)
    requires StableOrder(jobs, a) && |b| == |a| && 0 < k <= |a| && a[..k - 1] == b[..k - 1]
    requires i < |b| && b[i] == a[k - 1]
    ensures i >= k - 1
  {
    assert forall j :: 0 <= j < k - 1 ==> a[j] == a[..k - 1][j] == b[..k - 1][j] == b[j];
  }

  /** There is only one stable order, so the refinement determines every start and finish time. */
  lemma {:induction false} StableOrderUnique(jobs: seq<Job>, a: seq<nat>, b: seq<nat>, k: nat)
    requires StableOrder(jobs, a) && StableOrder(jobs, b) && k <= |jobs|
    ensures a[..k] == b[..k]
  {
    if k > 0 {
      StableOrderUnique(jobs, a, b, k - 1);
      var x, y := a[k - 1], b[k - 1];
      CountPositive(b, x);
      CountPositive(a, y);
      var i :| 0 <= i < |b| && b[i] == x;
      var j :| 0 <= j < |a| && a[j] == y;
      Later(jobs, a, b, k, i);
      Later(jobs, b, a, k, j);
      assert i > k - 1 ==> Earlier(jobs, y, x);
      assert j > k - 1 ==> Earlier(jobs, x, y);
      assert a[..k] == a[..k - 1] + [x] && b[..k] == b[..k - 1] + [y];
    }
  }
}
