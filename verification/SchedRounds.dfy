/** Round robin in rounds: whoever is preempted during a round is served before whoever arrived during
    it, and the order in which two processes wait never changes. */
module SchedRounds {
  import opened Wrappers
  import opened Processes
  import opened SchedModel
  import opened SchedInv
  import opened SchedRun
  import opened SchedTheorems
  import opened SchedRoundRobin

  /** What one event does to the ready queue. */
  lemma StepRounds(cfg: Config, s: State)
    requires Inv(cfg, s) && cfg.policy.RR? && |s.events| > 0
    ensures s.ready.Rounds? && s.events[0].pid !in Flat(s.ready)
    ensures var r, r', p := s.ready, Step(cfg, s).ready, s.events[0].pid;
      match s.events[0].kind
      case Arrival => r' == if s.running.None? then r else r.(pending := r.pending + [p])
      case Completion => r' == if Empty(r) then r else Rest(r)
      case Expire => !Empty(r.(round := r.round + [p])) && r' == Rest(r.(round := r.round + [p]))
  {
    hide ProcOk, EventOk, TraceOk, Sorted, SliceEndsFirst;
    var p := s.events[0].pid;
    EventFits(cfg, s);
    NotReady(cfg, s);
    match s.events[0].kind {
      case Arrival => PopArrivalCore(cfg, s);
      case Completion => PopCompletionCore(cfg, s);
      case Expire =>
        PopExpireCore(cfg, s);
        ReturnCore(cfg, Yield(Pop(s)), {p}, p);
    }
  }

  /** A process with a pending event is not ready. */
  lemma NotReady(cfg: Config, s: State)
    requires Inv(cfg, s) && |s.events| > 0
    ensures s.events[0].pid !in Flat(s.ready)
  {
    assert EventOk(s, s.events[0]);
    ProcAt(cfg, s, {}, s.events[0].pid);
    CountPositive(Flat(s.ready), s.events[0].pid);
  }

  // ----- the order of waiting -----

  /** Both x and y wait, and x will be served first. */
  ghost predicate Ahead(r: Ready, x: nat, y: nat) {
    x in Flat(r) && y in Flat(r) && First(Flat(r), x) < First(Flat(r), y)
  }

  lemma FirstInserted(q: seq<nat>, k: nat, p: nat, x: nat)
    requires k <= |q| && p !in q
    ensures First(InsertAt(q, k, p), p) == k
    ensures x != p ==> First(InsertAt(q, k, p), x) == First(q, x) + if First(q, x) >= k then 1 else 0
    ensures x in InsertAt(q, k, p) <==> x == p || x in q
  {
    assert q == q[..k] + q[k..];
    FirstAppend(q[..k] + [p], q[k..], x);
    FirstAppend(q[..k], [p], x);
    FirstAppend(q[..k], q[k..], x);
    FirstAppend(q[..k] + [p], q[k..], p);
    FirstAppend(q[..k], [p], p);
  }

  /** Taking the head of the line. */
  lemma AheadRest(r: Ready, x: nat, y: nat)
    requires r.Rounds? && !Empty(r) && Ahead(r, x, y) && ReadyCount(r, x) <= 1 && x in Flat(Rest(r))
    ensures Ahead(Rest(r), x, y)
  {
    RoundsTakes(r, x);
    CountPositive(Flat(Rest(r)), x);
    FirstAppend([Head(r)], Flat(Rest(r)), x);
    FirstAppend([Head(r)], Flat(Rest(r)), y);
  }

  lemma AheadArrival(r: Ready, p: nat, x: nat, y: nat)
    requires r.Rounds? && p !in Flat(r) && Ahead(r, x, y)
    ensures Ahead(r.(pending := r.pending + [p]), x, y)
  {
    var r' := r.(pending := r.pending + [p]);
    assert Flat(r') == InsertAt(Flat(r), |Flat(r)|, p);
    FirstInserted(Flat(r), |Flat(r)|, p, x);
    FirstInserted(Flat(r), |Flat(r)|, p, y);
  }

  /** A preempted process stands behind the active list and the round buffer, before the pending list. */
  lemma RequeuePlace(r: Ready, p: nat)
    requires r.Rounds?
    ensures Flat(r.(round := r.round + [p])) == InsertAt(Flat(r), |r.active| + |r.round|, p)
  {
  }

  lemma AheadRequeue(r: Ready, p: nat, x: nat, y: nat)
    requires r.Rounds? && p !in Flat(r) && Ahead(r, x, y)
    ensures Ahead(r.(round := r.round + [p]), x, y)
    ensures ReadyCount(r.(round := r.round + [p]), x) == ReadyCount(r, x)
  {
    RequeuePlace(r, p);
    RequeueAdds(r, p, x);
    FirstInserted(Flat(r), |r.active| + |r.round|, p, x);
    FirstInserted(Flat(r), |r.active| + |r.round|, p, y);
  }

  lemma ReadyOnce(cfg: Config, s: State, x: nat)
    requires Inv(cfg, s)
    ensures ReadyCount(s.ready, x) <= 1
  {
    if x < |cfg.jobs| { ProcAt(cfg, s, {}, x); }
  }

  /** Nobody overtakes: while x is ready, everybody behind it stays ready and behind it. */
  lemma AheadKept(cfg: Config, s: State, x: nat, y: nat)
    requires Inv(cfg, s) && cfg.policy.RR? && |s.events| > 0 && Ahead(s.ready, x, y) && x in Flat(Step(cfg, s).ready)
    ensures Ahead(Step(cfg, s).ready, x, y)
  {
    hide Inv, Step, Ahead, Flat;
    StepRounds(cfg, s);
    ReadyOnce(cfg, s, x);
    var p := s.events[0].pid;
    match s.events[0].kind {
      case Arrival => AheadArrival(s.ready, p, x, y);
      case Completion => if !Empty(s.ready) { AheadRest(s.ready, x, y); }
      case Expire =>
        AheadRequeue(s.ready, p, x, y);
        AheadRest(s.ready.(round := s.ready.round + [p]), x, y);
    }
  }

  // ----- rounds -----

  /** Event k + 1 opens a round: the running process gives up the CPU, and nobody who belongs to the
      current round is left to serve. */
  ghost predicate Opens(cfg: Config, k: nat)
    requires ConfigOk(cfg) && cfg.policy.RR?
  {
    var s := Run(cfg, k);
    |s.events| > 0 && !s.events[0].kind.Arrival? && |s.ready.active| == 0
  }

  /** Who has arrived at a busy CPU, in the first k events, since the latest round was opened. */
  ghost function Newcomers(cfg: Config, k: nat): set<nat>
    requires ConfigOk(cfg) && cfg.policy.RR?
  {
    if k == 0 then {}
    else
      var s := Run(cfg, k - 1);
      if Opens(cfg, k - 1) then {}
      else if |s.events| > 0 && s.events[0].kind.Arrival? && s.running.Some?
      then Newcomers(cfg, k - 1) + {s.events[0].pid}
      else Newcomers(cfg, k - 1)
  }

  /** They are exactly the processes in the pending list. */
  lemma {:induction false} NewcomersPending(cfg: Config, k: nat)
    requires ConfigOk(cfg) && cfg.policy.RR?
    ensures Run(cfg, k).ready.Rounds?
    ensures forall y :: y in Newcomers(cfg, k) <==> y in Run(cfg, k).ready.pending
  {
    hide Step, Inv, Flat;
    if k > 0 {
      var s := Run(cfg, k - 1);
      NewcomersPending(cfg, k - 1);
      if |s.events| > 0 { StepRounds(cfg, s); }
    }
  }

  lemma PlaceOf(r: Ready, i: nat, y: nat)
    requires r.Rounds? && y in Flat(r) && ReadyCount(r, y) <= 1 && i == |r.active| + |r.round|
    ensures First(Flat(r), y) >= i <==> y in r.pending
  {
    FirstAppend(r.active + r.round, r.pending, y);
    CountAppend(r.active + r.round, r.pending, y);
    CountPositive(r.active + r.round, y);
    CountPositive(r.pending, y);
  }

  /** Where a preempted process goes: x, whose quantum has expired, is served before exactly those ready
      processes that have arrived since the round was opened. */
  lemma PreemptedPlace(cfg: Config, k: nat, y: nat)
    requires ConfigOk(cfg) && cfg.policy.RR? && |Run(cfg, k).events| > 0 && Run(cfg, k).events[0].kind.Expire?
    ensures var s, s', x := Run(cfg, k), Run(cfg, k + 1), Run(cfg, k).events[0].pid;
      x in Flat(s'.ready) && y in Flat(s'.ready) && y != x ==> (Ahead(s'.ready, x, y) <==> y in Newcomers(cfg, k))
  {
    hide Step, Inv, Ahead;
    var s, s', x := Run(cfg, k), Run(cfg, k + 1), Run(cfg, k).events[0].pid;
    assert s' == Step(cfg, s);
    StepRounds(cfg, s);
    NewcomersPending(cfg, k);
    ReadyOnce(cfg, s, x);
    ReadyOnce(cfg, s, y);
    if x in Flat(s'.ready) && y in Flat(s'.ready) && y != x {
      PreemptedBefore(s.ready, x, y);
    }
  }

  lemma PreemptedBefore(r: Ready, x: nat, y: nat)
    requires r.Rounds? && x !in Flat(r) && ReadyCount(r, y) <= 1 && x != y && !Empty(r.(round := r.round + [x]))
    requires var r' := Rest(r.(round := r.round + [x])); x in Flat(r') && y in Flat(r')
    ensures Ahead(Rest(r.(round := r.round + [x])), x, y) <==> y in r.pending
  {
    hide Flat, Rest, Empty, Ahead;
    var r1 := r.(round := r.round + [x]);
    RequeueAdds(r, x, x);
    RequeueAdds(r, x, y);
    CountPositive(Flat(r), x);
    RoundsTakes(r1, y);
    RequeueOrder(r, x, y);
    if Ahead(r1, x, y) {
      AheadRest(r1, x, y);
      AheadOne(Rest(r1), x, y);
    } else {
      AheadRest(r1, y, x);
      AheadOne(Rest(r1), x, y);
    }
  }

  lemma AheadOne(r: Ready, x: nat, y: nat)
    ensures !(Ahead(r, x, y) && Ahead(r, y, x))
    ensures x in Flat(r) && y in Flat(r) && x != y ==> Ahead(r, x, y) || Ahead(r, y, x)
  {
    hide Flat;
  }

  lemma RequeueOrder(r: Ready, x: nat, y: nat)
    requires r.Rounds? && x !in Flat(r) && ReadyCount(r, y) <= 1 && x != y
    requires y in Flat(r.(round := r.round + [x]))
    ensures Ahead(r.(round := r.round + [x]), x, y) <==> y in r.pending
    ensures Ahead(r.(round := r.round + [x]), y, x) <==> y !in r.pending
  {
    hide Flat;
    RequeuePlace(r, x);
    RoundsSize(r);
    FirstInserted(Flat(r), |r.active| + |r.round|, x, y);
    PlaceOf(r, |r.active| + |r.round|, y);
  }

  lemma RoundsSize(r: Ready)
    requires r.Rounds?
    ensures |Flat(r)| == |r.active| + |r.round| + |r.pending|
  {
  }

  /** x is ready after each of the events from number k to number k + n. */
  ghost predicate StaysReady(cfg: Config, k: nat, n: nat, x: nat)
    requires ConfigOk(cfg)
  {
    forall m :: k <= m <= k + n ==> x in Flat(Run(cfg, m).ready)
  }

  /** First come, first served among those who wait: if x is ahead of y, then for as long as x waits so
      does y, behind x. */
  lemma {:induction false} NobodyOvertakes(cfg: Config, k: nat, n: nat, x: nat, y: nat)
    requires ConfigOk(cfg) && cfg.policy.RR? && Ahead(Run(cfg, k).ready, x, y) && StaysReady(cfg, k, n, x)
    ensures Ahead(Run(cfg, k + n).ready, x, y)
  {
    hide Step, Inv, Ahead;
    if n > 0 {
      NobodyOvertakes(cfg, k, n - 1, x, y);
      var s := Run(cfg, k + n - 1);
      if |s.events| > 0 { AheadKept(cfg, s, x, y); }
    }
  }

  /** Round robin's rounds: when event k + 1 preempts x, and y has arrived since the round was opened,
      then x gets the CPU at once or, for as long as it waits, y waits behind it. */
  lemma PreemptedServedFirst(cfg: Config, k: nat, n: nat, y: nat)
    requires ConfigOk(cfg) && cfg.policy.RR? && |Run(cfg, k).events| > 0 && Run(cfg, k).events[0].kind.Expire?
    requires y in Newcomers(cfg, k)
    ensures var x := Run(cfg, k).events[0].pid;
      Run(cfg, k + 1).running == Some(x) || (StaysReady(cfg, k + 1, n, x) ==> Ahead(Run(cfg, k + 1 + n).ready, x, y))
  {
    hide Step, Inv, Ahead, Newcomers, Flat, Rest, Empty, Run;
    var s, s', x := Run(cfg, k), Run(cfg, k + 1), Run(cfg, k).events[0].pid;
    StepRounds(cfg, s);
    RunNext(cfg, k);
    NewcomersPending(cfg, k);
    if StaysReady(cfg, k + 1, n, x) {
      assert x in Flat(s'.ready);
      NewcomerStays(s.ready, x, y);
      PreemptedPlace(cfg, k, y);
      NobodyOvertakes(cfg, k + 1, n, x, y);
    }
  }

  lemma NewcomerStays(r: Ready, x: nat, y: nat)
    requires r.Rounds? && x !in Flat(r) && y in r.pending && !Empty(r.(round := r.round + [x]))
    ensures y != x && y in Flat(Rest(r.(round := r.round + [x])))
  {
    var r1 := r.(round := r.round + [x]);
    var i :| 0 <= i < |r.pending| && r.pending[i] == y;
    assert Flat(r1)[|r.active| + |r.round| + 1 + i] == y;
    RoundsTakes(r1, y);
    assert Flat(Rest(r1))[|r.active| + |r.round| + i] == y;
  }
}
