/** The invariant that ties the event list, the ready queue, the running process, the clock and the
    trace together, and its preservation by every piece of every event handler. */
module SchedInv {
  import opened Wrappers
  import opened Processes
  import opened SchedModel

  // ----- counting -----

  function One(b: bool): int { if b then 1 else 0 }

  /** Position of the first p in a list, or its length. */
  function First(q: seq<nat>, p: nat): (k: nat)
    ensures k <= |q|
    ensures forall i :: 0 <= i < k ==> q[i] != p
    ensures k < |q| ==> q[k] == p
    ensures p in q ==> k < |q|
  {
    if |q| == 0 || q[0] == p then 0 else 1 + First(q[1..], p)
  }

  function Count(q: seq<nat>, p: nat): int {
    if |q| == 0 then 0 else One(q[0] == p) + Count(q[1..], p)
  }

  lemma {:induction false} CountAppend(a: seq<nat>, b: seq<nat>, p: nat)
    ensures Count(a + b, p) == Count(a, p) + Count(b, p)
  {
    if |a| == 0 {
      assert a + b == b;
    } else {
      assert (a + b)[1..] == a[1..] + b;
      CountAppend(a[1..], b, p);
    }
  }

  lemma {:induction false} CountPositive(q: seq<nat>, p: nat)
    ensures Count(q, p) >= 0
    ensures Count(q, p) > 0 <==> p in q
  {
    if |q| > 0 {
      CountPositive(q[1..], p);
      assert p in q <==> q[0] == p || p in q[1..];
    }
  }

  lemma CountInsert(q: seq<nat>, k: nat, x: nat, p: nat)
    requires k <= |q|
    ensures Count(InsertAt(q, k, x), p) == Count(q, p) + One(x == p)
  {
    assert q == q[..k] + q[k..];
    CountAppend(q[..k], q[k..], p);
    CountAppend(q[..k] + [x], q[k..], p);
    CountAppend(q[..k], [x], p);
  }

  lemma CountRemoved(q: seq<nat>, k: nat, p: nat)
    requires k < |q|
    ensures Count(RemoveAt(q, k), p) == Count(q, p) - One(q[k] == p)
  {
    assert q == q[..k] + ([q[k]] + q[k + 1..]);
    CountAppend(q[..k], [q[k]] + q[k + 1..], p);
    CountAppend(q[..k], q[k + 1..], p);
    CountAppend([q[k]], q[k + 1..], p);
  }

  /** How many pending events process p has. */
  function EventCount(q: seq<Event>, p: nat): int {
    if |q| == 0 then 0 else One(q[0].pid == p) + EventCount(q[1..], p)
  }

  lemma {:induction false} EventInserted(q: seq<Event>, k: nat, e: Event, p: nat)
    requires k <= |q|
    ensures EventCount(InsertAt(q, k, e), p) == EventCount(q, p) + One(e.pid == p)
  {
    if k == 0 {
      assert InsertAt(q, k, e) == [e] + q;
    } else {
      assert InsertAt(q, k, e) == [q[0]] + InsertAt(q[1..], k - 1, e);
      EventInserted(q[1..], k - 1, e, p);
    }
  }

  lemma {:induction false} EventRemoved(q: seq<Event>, k: nat, p: nat)
    requires k < |q|
    ensures EventCount(RemoveAt(q, k), p) == EventCount(q, p) - One(q[k].pid == p)
  {
    if k == 0 {
      assert RemoveAt(q, k) == q[1..];
    } else {
      assert RemoveAt(q, k) == [q[0]] + RemoveAt(q[1..], k - 1);
      EventRemoved(q[1..], k - 1, p);
    }
  }

  lemma {:induction false} EventPresent(q: seq<Event>, p: nat)
    ensures EventCount(q, p) >= 0
    ensures EventCount(q, p) > 0 <==> EventOf(q, p) < |q|
    ensures EventCount(q, p) == 0 ==> forall i :: 0 <= i < |q| ==> q[i].pid != p
  {
    if |q| > 0 {
      EventPresent(q[1..], p);
      assert forall i :: 0 < i < |q| ==> q[i] == q[1..][i - 1];
    }
  }

  /** How many times process p is in the ready queue. */
  function ReadyCount(r: Ready, p: nat): int {
    Count(Flat(r), p)
  }

  lemma {:induction false} ConcatUpdate(ls: seq<seq<nat>>, l: nat, line: seq<nat>, p: nat)
    requires l < |ls|
    ensures Count(Concat(ls[l := line]), p) == Count(Concat(ls), p) - Count(ls[l], p) + Count(line, p)
  {
    if l == 0 {
      assert ls[0 := line][1..] == ls[1..];
      CountAppend(ls[0], Concat(ls[1..]), p);
      CountAppend(line, Concat(ls[1..]), p);
    } else {
      assert ls[l := line][1..] == ls[1..][l - 1 := line];
      CountAppend(ls[0], Concat(ls[1..]), p);
      CountAppend(ls[0], Concat(ls[1..][l - 1 := line]), p);
      ConcatUpdate(ls[1..], l - 1, line, p);
    }
  }

  lemma EnqueueAdds(pol: Policy, procs: seq<Proc>, r: Ready, p: nat, q: nat)
    requires Fits(pol, r) && p < |procs| && procs[p].priority >= 0
    ensures ReadyCount(Enqueue(pol, procs, r, p), q) == ReadyCount(r, q) + One(p == q)
  {
    match pol {
      case MLFQ(_) =>
        var l := LevelOf(procs[p], |r.levels|);
        CountAppend(r.levels[l], [p], q);
        ConcatUpdate(r.levels, l, r.levels[l] + [p], q);
      case RR(_) =>
        assert Flat(Enqueue(pol, procs, r, p)) == Flat(r) + [p];
        CountAppend(Flat(r), [p], q);
      case FCFS =>
        CountAppend(r.q, [p], q);
      case SJF => CountInsert(r.q, LinePos(pol, procs, r.q, p), p, q);
      case STCF => CountInsert(r.q, LinePos(pol, procs, r.q, p), p, q);
    }
  }

  lemma RequeueAdds(r: Ready, p: nat, q: nat)
    requires r.Rounds?
    ensures ReadyCount(r.(round := r.round + [p]), q) == ReadyCount(r, q) + One(p == q)
  {
    CountInsert(Flat(r), |r.active| + |r.round|, p, q);
    assert Flat(r.(round := r.round + [p])) == InsertAt(Flat(r), |r.active| + |r.round|, p);
  }

  lemma RoundsTakes(r: Ready, q: nat)
    requires r.Rounds? && !Empty(r)
    ensures ReadyCount(Rest(r), q) == ReadyCount(r, q) - One(Head(r) == q)
    ensures Flat(r) == [Head(r)] + Flat(Rest(r))
  {
    hide Count;
    var o := Opened(r);
    assert r.active == [] ==> r.active + r.round + r.pending == r.round + r.pending + [] + [];
    FrontSplit(o.active, o.round, o.pending);
    CountAppend([Head(r)], Flat(Rest(r)), q);
    CountOne(Head(r), q);
  }

  lemma CountOne(x: nat, q: nat)
    ensures Count([x], q) == One(x == q)
  {
  }

  lemma FrontSplit(a: seq<nat>, b: seq<nat>, c: seq<nat>)
    requires |a| > 0
    ensures a + b + c == [a[0]] + (a[1..] + b + c)
  {
    assert a == [a[0]] + a[1..];
  }

  lemma LevelsTakes(ls: seq<seq<nat>>, q: nat)
    requires BestLevel(ls) < |ls|
    ensures var l := BestLevel(ls); Count(Concat(ls[l := ls[l][1..]]), q) == Count(Concat(ls), q) - One(ls[l][0] == q)
    ensures Count(Concat(ls), ls[BestLevel(ls)][0]) > 0
  {
    var l := BestLevel(ls);
    ConcatUpdate(ls, l, ls[l][1..], q);
    ConcatUpdate(ls, l, [], ls[l][0]);
    CountPositive(ls[l], ls[l][0]);
    CountPositive(Concat(ls[l := []]), ls[l][0]);
  }

  lemma {:induction false} LevelsInOrder(ls: seq<seq<nat>>)
    requires BestLevel(ls) < |ls|
    ensures var l := BestLevel(ls); Concat(ls) == [ls[l][0]] + Concat(ls[l := ls[l][1..]])
  {
    var l := BestLevel(ls);
    if l == 0 {
      assert ls[0 := ls[0][1..]][1..] == ls[1..];
      FrontSplit(ls[0], Concat(ls[1..]), []);
      assert ls[0] + Concat(ls[1..]) + [] == ls[0] + Concat(ls[1..]);
    } else {
      LevelsInOrder(ls[1..]);
      assert ls[l := ls[l][1..]][1..] == ls[1..][l - 1 := ls[l][1..]];
      assert ls[0] == [] && [] + Concat(ls[1..]) == Concat(ls[1..]);
    }
  }

  /** Every ready queue is served as if it were one line: the lists of round robin as
      active ++ round ++ pending, the levels of MLFQ from best to worst. */
  lemma ServiceOrder(r: Ready)
    requires !Empty(r)
    ensures Flat(r) == [Head(r)] + Flat(Rest(r))
  {
    match r {
      case Line(_) =>
      case Rounds(_, _, _) => RoundsTakes(r, 0);
      case Levels(ls) => LevelsInOrder(ls);
    }
  }

  lemma DequeueTakes(r: Ready, q: nat)
    requires !Empty(r)
    ensures ReadyCount(Rest(r), q) == ReadyCount(r, q) - One(Head(r) == q)
    ensures ReadyCount(r, Head(r)) > 0
  {
    match r {
      case Line(l) => CountPositive(l, l[0]);
      case Rounds(_, _, _) =>
        RoundsTakes(r, q);
        CountPositive(Flat(r), Head(r));
      case Levels(ls) => LevelsTakes(ls, q);
    }
  }

  lemma {:induction false} ConcatEmpty(ls: seq<seq<nat>>)
    requires forall i :: 0 <= i < |ls| ==> |ls[i]| == 0
    ensures Concat(ls) == []
  {
    if |ls| > 0 { ConcatEmpty(ls[1..]); }
  }

  lemma {:induction false} ConcatLength(ls: seq<seq<nat>>, l: nat, line: seq<nat>)
    requires l < |ls|
    ensures |Concat(ls[l := line])| == |Concat(ls)| - |ls[l]| + |line|
    ensures |ls[l]| <= |Concat(ls)|
  {
    if l == 0 {
      assert ls[0 := line][1..] == ls[1..];
    } else {
      assert ls[l := line][1..] == ls[1..][l - 1 := line];
      ConcatLength(ls[1..], l - 1, line);
    }
  }

  /** A process with no entry in the queue stands at no level. */
  lemma AtNoLevel(ls: seq<seq<nat>>, p: nat, l: nat)
    requires Count(Concat(ls), p) == 0 && l < |ls|
    ensures p !in ls[l]
  {
    ConcatUpdate(ls, l, [], p);
    CountPositive(Concat(ls[l := []]), p);
    CountPositive(ls[l], p);
  }

  lemma EmptyCounts(r: Ready, p: nat)
    requires Empty(r)
    ensures ReadyCount(r, p) == 0
  {
    if r.Levels? { ConcatEmpty(r.levels); }
  }

  // ----- measures of a trace -----

  /** CPU time the trace gives to process p. */
  function Ran(trace: seq<Seg>, p: nat): int {
    if |trace| == 0 then 0 else
      var g := trace[|trace| - 1];
      Ran(trace[..|trace| - 1], p) + if g.pid == p then g.to - g.from else 0
  }

  /** End of the last slice of process p, -1 if it has none. */
  function LastEnd(trace: seq<Seg>, p: nat): int {
    if |trace| == 0 then -1
    else if trace[|trace| - 1].pid == p then trace[|trace| - 1].to
    else LastEnd(trace[..|trace| - 1], p)
  }

  /** Start of the first slice of process p, -1 if it has none. */
  function FirstStart(trace: seq<Seg>, p: nat): int {
    if |trace| == 0 then -1
    else if FirstStart(trace[..|trace| - 1], p) != -1 then FirstStart(trace[..|trace| - 1], p)
    else if trace[|trace| - 1].pid == p then trace[|trace| - 1].from
    else -1
  }

  lemma TraceAppend(trace: seq<Seg>, g: Seg, p: nat)
    ensures Ran(trace + [g], p) == Ran(trace, p) + if g.pid == p then g.to - g.from else 0
    ensures LastEnd(trace + [g], p) == if g.pid == p then g.to else LastEnd(trace, p)
    ensures FirstStart(trace + [g], p) ==
      if FirstStart(trace, p) != -1 then FirstStart(trace, p) else if g.pid == p then g.from else -1
  {
    assert (trace + [g])[..|trace|] == trace;
  }

  /** When the slice now running, or the last one that ran, ends. */
  function End(s: State): int {
    if |s.trace| == 0 then 0 else s.trace[|s.trace| - 1].to
  }

  /** Since when process p has been waiting. */
  function Since(s: State, p: nat): int {
    if p < |s.hist| then s.hist[p].since else 0
  }

  // ----- the invariant -----

  predicate RunsToEnd(pol: Policy) {
    pol.FCFS? || pol.SJF?
  }

  /** Where process p is. Processes in `hand` have just been taken from, or are about to be put into,
      the ready queue. */
  ghost predicate Placed(s: State, hand: set<nat>, p: nat)
    requires p < |s.hist|
  {
    var ph := s.hist[p].phase;
    && (p in hand ==> ph.Waiting?)
    && EventCount(s.events, p) == One(ph.Future? || ph.OnCpu?)
    && ReadyCount(s.ready, p) == One(ph.Waiting? && p !in hand)
    && (s.running == Some(p) <==> ph.OnCpu?)
  }

  /** The time account of a process: time since arrival is time waited plus time charged. `now` is the
      clock, `end` the end of the latest slice, `last` the end of this process's latest slice. */
  predicate Account(pol: Policy, job: Job, pr: Proc, h: Hist, now: int, end: int, last: int) {
    && pr.arrival == job.arrival && pr.burst == job.burst
    && 0 <= pr.remaining <= pr.burst && h.waited >= 0
    && (if pol.MLFQ? then 0 <= pr.priority < |pol.levels| else pr.priority == 0)
    && (pr.start != -1 ==> pr.arrival <= pr.start && pr.start - pr.arrival <= h.waited)
    && match h.phase
       case Future =>
         && pr.remaining == pr.burst && pr.start == -1 && pr.finish == -1
         && h.waited == 0 && pr.priority == 0 && pr.inQueue == 0
       case Waiting =>
         && pr.finish == -1 && pr.arrival <= h.since <= now
         && h.since - pr.arrival == h.waited + pr.burst - pr.remaining
         && (pr.start == -1 ==> pr.remaining == pr.burst && h.waited == 0)
         && (pr.start != -1 ==> pr.remaining > 0)
         && (RunsToEnd(pol) ==> pr.start == -1)
       case OnCpu =>
         && pr.start != -1
         && end - pr.arrival == h.waited + pr.burst - pr.remaining
         && pr.finish == (if pr.remaining == 0 then end else -1)
         && (RunsToEnd(pol) ==> pr.remaining == 0)
       case Finished =>
         && pr.start != -1 && pr.remaining == 0 && pr.finish == last <= now
         && pr.finish - pr.arrival == h.waited + pr.burst
  }

  /** The trace agrees with what the process records. */
  ghost predicate Traced(s: State, p: nat)
    requires p < |s.procs|
  {
    Ran(s.trace, p) == s.procs[p].burst - s.procs[p].remaining && s.procs[p].start == FirstStart(s.trace, p)
  }

  ghost predicate ProcOk(cfg: Config, s: State, hand: set<nat>, p: nat)
    requires p < |s.procs| == |s.hist| == |cfg.jobs|
  {
    && Placed(s, hand, p)
    && Account(cfg.policy, cfg.jobs[p], s.procs[p], s.hist[p], s.now, End(s), LastEnd(s.trace, p))
    && Traced(s, p)
  }

  /** An event of a process that has not arrived is its arrival; an event of the running process ends
      its slice, and is a completion exactly when no work is left. */
  ghost predicate EventOk(s: State, e: Event) {
    && e.pid < |s.procs| == |s.hist| && e.time >= s.now
    && match s.hist[e.pid].phase
       case Future => e.kind.Arrival? && e.time == s.procs[e.pid].arrival
       case OnCpu => !e.kind.Arrival? && e.time == End(s) && (e.kind.Completion? <==> s.procs[e.pid].remaining == 0)
       case _ => false
  }

  ghost predicate Sorted(byRemaining: bool, procs: seq<Proc>, q: seq<Event>) {
    forall i, j :: 0 <= i < j < |q| ==> !Before(byRemaining, procs, q[j], q[i])
  }

  ghost predicate TraceOk(cfg: Config, s: State) {
    && (forall i :: 0 <= i < |s.trace| ==>
          s.trace[i].pid < |cfg.jobs| && cfg.jobs[s.trace[i].pid].arrival <= s.trace[i].from <= s.trace[i].to)
    && (forall i, j :: 0 <= i < j < |s.trace| ==> s.trace[i].to <= s.trace[j].from)
    && (match s.running
        case None => End(s) <= s.now
        case Some(p) =>
          && |s.trace| > 0 && s.trace[|s.trace| - 1].pid == p
          && s.trace[|s.trace| - 1].from <= s.now <= End(s))
  }

  ghost predicate Core(cfg: Config, s: State, hand: set<nat>) {
    && ConfigOk(cfg)
    && |s.procs| == |s.hist| == |cfg.jobs|
    && Fits(cfg.policy, s.ready)
    && s.now >= 0
    && (forall p :: p in hand ==> p < |cfg.jobs|)
    && (forall p :: p >= |cfg.jobs| ==> ReadyCount(s.ready, p) == 0)
    && (s.running.Some? ==> s.running.value < |cfg.jobs|)
    && (forall p :: 0 <= p < |cfg.jobs| ==> ProcOk(cfg, s, hand, p))
    && (forall i :: 0 <= i < |s.events| ==> EventOk(s, s.events[i]))
    && Sorted(ByRemaining(cfg.policy), s.procs, s.events)
    && TraceOk(cfg, s)
  }

  /** Whoever is in the ready queue is a process. */
  lemma ReadyMembers(cfg: Config, s: State, hand: set<nat>)
    requires Core(cfg, s, hand)
    ensures forall i :: 0 <= i < |Flat(s.ready)| ==> Flat(s.ready)[i] < |cfg.jobs|
  {
    forall i | 0 <= i < |Flat(s.ready)| ensures Flat(s.ready)[i] < |cfg.jobs| {
      CountPositive(Flat(s.ready), Flat(s.ready)[i]);
      assert ReadyCount(s.ready, Flat(s.ready)[i]) > 0;
    }
  }

  lemma EventMembers(cfg: Config, s: State, hand: set<nat>)
    requires Core(cfg, s, hand)
    ensures forall i :: 0 <= i < |s.events| ==> s.events[i].pid < |cfg.jobs|
  {
    forall i | 0 <= i < |s.events| ensures s.events[i].pid < |cfg.jobs| { assert EventOk(s, s.events[i]); }
  }

  lemma CoreSizes(cfg: Config, s: State, hand: set<nat>)
    requires Core(cfg, s, hand)
    ensures |s.procs| == |s.hist| == |cfg.jobs| && Fits(cfg.policy, s.ready) && forall p :: p in hand ==> p < |cfg.jobs|
  {
  }

  /** A process in hand is not in the ready queue. */
  lemma HandAway(cfg: Config, s: State, hand: set<nat>, p: nat)
    requires Core(cfg, s, hand) && p in hand
    ensures p < |cfg.jobs| == |s.procs| && p !in Flat(s.ready)
  {
    assert ProcOk(cfg, s, hand, p);
    CountPositive(Flat(s.ready), p);
  }

  lemma ProcAt(cfg: Config, s: State, hand: set<nat>, p: nat)
    requires Core(cfg, s, hand) && p < |cfg.jobs|
    ensures ProcOk(cfg, s, hand, p)
  {
  }

  lemma RunningOk(cfg: Config, s: State, hand: set<nat>)
    requires Core(cfg, s, hand)
    ensures s.running.Some? ==> s.running.value < |cfg.jobs| && ProcOk(cfg, s, hand, s.running.value)
  {
  }

  // ----- putting a process into the ready queue -----

  /** Same process up to the fields only MLFQ uses. */
  predicate SameWork(pol: Policy, pr: Proc, pr': Proc) {
    && pr' == pr.(priority := pr'.priority, inQueue := pr'.inQueue)
    && if pol.MLFQ? then 0 <= pr'.priority < |pol.levels| else pr'.priority == 0
  }

  /** Only the ready queue, the hand and MLFQ fields of waiting processes change. */
  lemma ReadyChanged(cfg: Config, s: State, s': State, hand: set<nat>, hand': set<nat>)
    requires Core(cfg, s, hand)
    requires s' == s.(ready := s'.ready, procs := s'.procs) && |s'.procs| == |s.procs| && Fits(cfg.policy, s'.ready)
    requires forall q :: 0 <= q < |cfg.jobs| ==> SameWork(cfg.policy, s.procs[q], s'.procs[q])
    requires forall q :: 0 <= q < |cfg.jobs| && !s.hist[q].phase.Waiting? ==> s'.procs[q] == s.procs[q]
    requires forall q :: q in hand' ==> q < |cfg.jobs| && s.hist[q].phase.Waiting?
    requires forall q :: 0 <= q < |cfg.jobs| ==> ReadyCount(s'.ready, q) == One(s.hist[q].phase.Waiting? && q !in hand')
    requires forall q :: q >= |cfg.jobs| ==> ReadyCount(s'.ready, q) == 0
    ensures Core(cfg, s', hand')
  {
    forall q | 0 <= q < |cfg.jobs| ensures ProcOk(cfg, s', hand', q) {
      assert ProcOk(cfg, s, hand, q);
      assert SameWork(cfg.policy, s.procs[q], s'.procs[q]);
    }
    forall i | 0 <= i < |s'.events| ensures EventOk(s', s'.events[i]) { assert EventOk(s, s.events[i]); }
    assert forall q :: Remaining(s'.procs, q) == Remaining(s.procs, q);
  }

  /** A process in hand goes into the queue. */
  lemma PutCore(cfg: Config, s: State, s': State, hand: set<nat>, p: nat)
    requires Core(cfg, s, hand) && p in hand
    requires |s'.procs| == |s.procs| && SameWork(cfg.policy, s.procs[p], s'.procs[p])
    requires s' == s.(ready := s'.ready, procs := s.procs[p := s'.procs[p]]) && Fits(cfg.policy, s'.ready)
    requires forall q :: ReadyCount(s'.ready, q) == ReadyCount(s.ready, q) + One(p == q)
    ensures Core(cfg, s', hand - {p})
  {
    forall q | 0 <= q < |cfg.jobs|
      ensures SameWork(cfg.policy, s.procs[q], s'.procs[q])
      ensures ReadyCount(s'.ready, q) == One(s.hist[q].phase.Waiting? && q !in hand - {p})
      ensures q in hand ==> s.hist[q].phase.Waiting?
    {
      assert ProcOk(cfg, s, hand, q);
    }
    ReadyChanged(cfg, s, s', hand, hand - {p});
  }

  lemma EnterCore(cfg: Config, s: State, hand: set<nat>, p: nat)
    requires Core(cfg, s, hand) && p in hand
    ensures s.procs[p].priority >= 0 && Entered(cfg.policy, s.procs[p]) == s.procs[p]
    ensures Core(cfg, Enter(cfg.policy, s, p), hand - {p}) && Enter(cfg.policy, s, p).procs == s.procs
  {
    assert ProcOk(cfg, s, hand, p);
    var s' := Enter(cfg.policy, s, p);
    assert s'.procs == s.procs;
    forall q ensures ReadyCount(s'.ready, q) == ReadyCount(s.ready, q) + One(p == q) {
      EnqueueAdds(cfg.policy, s.procs, s.ready, p, q);
    }
    PutCore(cfg, s, s', hand, p);
  }

  lemma ReturnCore(cfg: Config, s: State, hand: set<nat>, p: nat)
    requires Core(cfg, s, hand) && p in hand
    ensures s.procs[p].priority >= 0 && Core(cfg, Return(cfg.policy, s, p), hand - {p})
  {
    assert ProcOk(cfg, s, hand, p);
    var s' := Return(cfg.policy, s, p);
    if cfg.policy.RR? {
      forall q ensures ReadyCount(s'.ready, q) == ReadyCount(s.ready, q) + One(p == q) { RequeueAdds(s.ready, p, q); }
      PutCore(cfg, s, s', hand, p);
    } else if Demotes(cfg.policy, s.procs[p]) {
      forall q ensures ReadyCount(s'.ready, q) == ReadyCount(s.ready, q) + One(p == q) {
        EnqueueAdds(cfg.policy, s'.procs, s.ready, p, q);
      }
      PutCore(cfg, s, s', hand, p);
    } else {
      EnterCore(cfg, s, hand, p);
    }
  }

  /** The process dequeued is a waiting one, and leaves the queue. */
  lemma DequeueCore(cfg: Config, s: State, hand: set<nat>)
    requires Core(cfg, s, hand) && !Empty(s.ready)
    ensures Head(s.ready) < |cfg.jobs| && Head(s.ready) !in hand
    ensures Core(cfg, s.(ready := Rest(s.ready)), hand + {Head(s.ready)})
  {
    var p, s' := Head(s.ready), s.(ready := Rest(s.ready));
    DequeueTakes(s.ready, p);
    assert p < |cfg.jobs| && ProcOk(cfg, s, hand, p);
    forall q ensures ReadyCount(s'.ready, q) == ReadyCount(s.ready, q) - One(p == q) { DequeueTakes(s.ready, q); }
    forall q | 0 <= q < |cfg.jobs|
      ensures SameWork(cfg.policy, s.procs[q], s'.procs[q])
      ensures ReadyCount(s'.ready, q) == One(s.hist[q].phase.Waiting? && q !in hand + {p})
      ensures q in hand ==> s.hist[q].phase.Waiting?
    {
      assert ProcOk(cfg, s, hand, q);
    }
    ReadyChanged(cfg, s, s', hand, hand + {p});
  }

  // ----- dispatching -----

  lemma RunTimeOk(cfg: Config, s: State, hand: set<nat>, p: nat)
    requires Core(cfg, s, hand) && p in hand
    ensures var t := RunTime(cfg.policy, s, p);
      && 0 <= t <= s.procs[p].remaining && (t == 0 ==> s.procs[p].remaining == 0)
      && (RunsToEnd(cfg.policy) ==> t == s.procs[p].remaining)
  {
    assert ProcOk(cfg, s, hand, p);
  }

  lemma ChargeOk(cfg: Config, s: State, hand: set<nat>, p: nat, guard: bool)
    requires Core(cfg, s, hand) && p in hand
    ensures var pr, t := s.procs[p], RunTime(cfg.policy, s, p);
      var pr' := Dispatch(cfg.policy, s, p, guard).procs[p];
      && pr'.arrival == pr.arrival && pr'.burst == pr.burst && pr'.remaining == pr.remaining - t
      && pr'.start == (if pr.start == -1 then s.now else pr.start)
      && pr'.finish == (if pr'.remaining == 0 then s.now + t else -1)
      && pr'.priority == pr.priority && pr'.inQueue == (if cfg.policy.MLFQ? then pr.inQueue + t else pr.inQueue)
  {
    assert ProcOk(cfg, s, hand, p);
    RunTimeOk(cfg, s, hand, p);
  }

  lemma InsertSorted(byRemaining: bool, procs: seq<Proc>, q: seq<Event>, e: Event)
    requires Sorted(byRemaining, procs, q)
    ensures Sorted(byRemaining, procs, InsertEvent(byRemaining, procs, q, e))
  {
    var k := EventPos(byRemaining, procs, q, e);
    var q' := InsertAt(q, k, e);
    forall i, j | 0 <= i < j < |q'| ensures !Before(byRemaining, procs, q'[j], q'[i]) {
      InsertKeeps(q, k, e);
    }
  }

  lemma InsertKeeps(q: seq<Event>, k: nat, e: Event)
    requires k <= |q|
    ensures |InsertAt(q, k, e)| == |q| + 1
    ensures forall i :: 0 <= i < k ==> InsertAt(q, k, e)[i] == q[i]
    ensures InsertAt(q, k, e)[k] == e
    ensures forall i :: k < i <= |q| ==> InsertAt(q, k, e)[i] == q[i - 1]
  {
  }

  /** A dispatch does not depend on who was running before. */
  lemma DispatchIgnoresRunning(pol: Policy, s: State, r: Option<nat>, p: nat, guard: bool)
    requires p < |s.procs| == |s.hist|
    ensures Dispatch(pol, s.(running := r), p, guard) == Dispatch(pol, s, p, guard)
  {
  }

  /** What a dispatch leaves alone, and what it appends. */
  lemma DispatchFrame(pol: Policy, s: State, p: nat, guard: bool)
    requires p < |s.procs| == |s.hist|
    ensures var s', t := Dispatch(pol, s, p, guard), RunTime(pol, s, p);
      && |s'.procs| == |s'.hist| == |s.procs|
      && s'.ready == s.ready && s'.now == s.now && s'.running == Some(p)
      && (forall q :: 0 <= q < |s.procs| && q != p ==> s'.procs[q] == s.procs[q] && s'.hist[q] == s.hist[q])
      && s'.hist[p] == Hist(OnCpu, s.hist[p].since, s.hist[p].waited + s.now - s.hist[p].since)
      && s'.trace == s.trace + [Seg(p, s'.procs[p].priority, s.now, s.now + t)]
      && s'.events == InsertEvent(ByRemaining(pol), s'.procs, s.events, SliceEnd(pol, s, p, s'.procs[p]))
  {
    hide RunTime, Charge, Guarded, InsertEvent;
  }

  /** The event that ends the slice. */
  function SliceEnd(pol: Policy, s: State, p: nat, pr': Proc): Event
    requires p < |s.procs|
  {
    Event(s.now + RunTime(pol, s, p), if pr'.remaining == 0 then Completion else Expire, p)
  }

  /** Inserting the end of the new slice keeps the list in order and adds one event of p. */
  lemma DispatchInserts(cfg: Config, s: State, hand: set<nat>, p: nat, guard: bool)
    requires Core(cfg, s, hand) && p in hand
    ensures var s' := Dispatch(cfg.policy, s, p, guard);
      && Sorted(ByRemaining(cfg.policy), s'.procs, s'.events)
      && forall q :: EventCount(s'.events, q) == EventCount(s.events, q) + One(q == p)
  {
    hide Dispatch, RunTime, Traced, Account;
    var s' := Dispatch(cfg.policy, s, p, guard);
    DispatchFrame(cfg.policy, s, p, guard);
    assert ProcOk(cfg, s, hand, p);
    EventPresent(s.events, p);
    var byRem := ByRemaining(cfg.policy);
    var e := SliceEnd(cfg.policy, s, p, s'.procs[p]);
    forall i | 0 <= i < |s.events| ensures Remaining(s'.procs, s.events[i].pid) == Remaining(s.procs, s.events[i].pid) {
      assert s.events[i].pid != p;
    }
    assert Sorted(byRem, s'.procs, s.events);
    InsertSorted(byRem, s'.procs, s.events, e);
    forall q ensures EventCount(s'.events, q) == EventCount(s.events, q) + One(q == p) {
      EventInserted(s.events, EventPos(byRem, s'.procs, s.events, e), e, q);
    }
  }

  lemma DispatchEvents(cfg: Config, s: State, hand: set<nat>, p: nat, guard: bool)
    requires Core(cfg, s, hand) && p in hand && s.running.None?
    ensures var s' := Dispatch(cfg.policy, s, p, guard);
      forall i :: 0 <= i < |s'.events| ==> EventOk(s', s'.events[i])
  {
    hide Dispatch, RunTime, Traced;
    var s' := Dispatch(cfg.policy, s, p, guard);
    DispatchFrame(cfg.policy, s, p, guard);
    assert ProcOk(cfg, s, hand, p);
    ChargeOk(cfg, s, hand, p, guard);
    RunTimeOk(cfg, s, hand, p);
    EventPresent(s.events, p);
    forall i | 0 <= i < |s.events| ensures EventOk(s', s.events[i]) {
      assert EventOk(s, s.events[i]) && s.events[i].pid != p;
      assert ProcOk(cfg, s, hand, s.events[i].pid);
    }
    var e := SliceEnd(cfg.policy, s, p, s'.procs[p]);
    assert EventOk(s', e);
    InsertKeeps(s.events, EventPos(ByRemaining(cfg.policy), s'.procs, s.events, e), e);
  }

  lemma DispatchOther(cfg: Config, s: State, hand: set<nat>, p: nat, guard: bool, q: nat)
    requires Core(cfg, s, hand) && p in hand && s.running.None? && q < |cfg.jobs| && q != p
    requires var s' := Dispatch(cfg.policy, s, p, guard);
      forall q :: EventCount(s'.events, q) == EventCount(s.events, q) + One(q == p)
    ensures |Dispatch(cfg.policy, s, p, guard).procs| == |Dispatch(cfg.policy, s, p, guard).hist| == |cfg.jobs|
    ensures ProcOk(cfg, Dispatch(cfg.policy, s, p, guard), hand - {p}, q)
  {
    hide Dispatch, RunTime, Ran, FirstStart, LastEnd, Sorted, EventOk;
    var s' := Dispatch(cfg.policy, s, p, guard);
    DispatchFrame(cfg.policy, s, p, guard);
    assert ProcOk(cfg, s, hand, q);
    TraceAppend(s.trace, s'.trace[|s.trace|], q);
  }

  lemma DispatchSelf(cfg: Config, s: State, hand: set<nat>, p: nat, guard: bool)
    requires Core(cfg, s, hand) && p in hand && s.running.None?
    requires var s' := Dispatch(cfg.policy, s, p, guard);
      forall q :: EventCount(s'.events, q) == EventCount(s.events, q) + One(q == p)
    ensures |Dispatch(cfg.policy, s, p, guard).procs| == |Dispatch(cfg.policy, s, p, guard).hist| == |cfg.jobs|
    ensures ProcOk(cfg, Dispatch(cfg.policy, s, p, guard), hand - {p}, p)
  {
    hide Dispatch, RunTime, Ran, FirstStart, LastEnd, Sorted, EventOk;
    var s' := Dispatch(cfg.policy, s, p, guard);
    DispatchFrame(cfg.policy, s, p, guard);
    assert ProcOk(cfg, s, hand, p);
    ChargeOk(cfg, s, hand, p, guard);
    RunTimeOk(cfg, s, hand, p);
    TraceAppend(s.trace, s'.trace[|s.trace|], p);
  }

  lemma DispatchTrace(cfg: Config, s: State, hand: set<nat>, p: nat, guard: bool)
    requires Core(cfg, s, hand) && p in hand && s.running.None?
    ensures TraceOk(cfg, Dispatch(cfg.policy, s, p, guard))
  {
    hide Dispatch, RunTime, Traced;
    DispatchFrame(cfg.policy, s, p, guard);
    assert ProcOk(cfg, s, hand, p);
    RunTimeOk(cfg, s, hand, p);
  }

  lemma DispatchCore(cfg: Config, s: State, hand: set<nat>, p: nat, guard: bool)
    requires Core(cfg, s, hand) && p in hand && s.running.None?
    ensures Core(cfg, Dispatch(cfg.policy, s, p, guard), hand - {p})
  {
    hide Dispatch, RunTime, ProcOk, TraceOk, EventOk, Sorted;
    var s' := Dispatch(cfg.policy, s, p, guard);
    DispatchFrame(cfg.policy, s, p, guard);
    DispatchInserts(cfg, s, hand, p, guard);
    DispatchEvents(cfg, s, hand, p, guard);
    DispatchTrace(cfg, s, hand, p, guard);
    forall q | 0 <= q < |cfg.jobs| ensures ProcOk(cfg, s', hand - {p}, q) {
      if q == p { DispatchSelf(cfg, s, hand, p, guard); } else { DispatchOther(cfg, s, hand, p, guard, q); }
    }
  }

  // ----- taking an event off the list -----

  lemma PopEvents(cfg: Config, s: State, hand: set<nat>)
    requires Core(cfg, s, hand) && |s.events| > 0
    ensures var s', e := Pop(s), s.events[0];
      && s'.now >= s.now && e.pid < |cfg.jobs|
      && (forall i :: 0 <= i < |s'.events| ==>
            s'.events[i].pid != e.pid && s'.events[i].time >= s'.now && EventOk(s, s'.events[i]))
      && Sorted(ByRemaining(cfg.policy), s'.procs, s'.events)
      && forall q :: EventCount(s'.events, q) == EventCount(s.events, q) - One(q == e.pid)
  {
    var s', e := Pop(s), s.events[0];
    assert EventOk(s, e);
    assert s'.events == RemoveAt(s.events, 0);
    forall q ensures EventCount(s'.events, q) == EventCount(s.events, q) - One(q == e.pid) {
      EventRemoved(s.events, 0, q);
    }
    assert ProcOk(cfg, s, hand, e.pid);
    EventPresent(s'.events, e.pid);
    forall i | 0 <= i < |s'.events|
      ensures s'.events[i].pid != e.pid && s'.events[i].time >= s'.now && EventOk(s, s'.events[i])
    {
      assert !Before(ByRemaining(cfg.policy), s.procs, s.events[i + 1], s.events[0]);
      assert s'.events[i] == s.events[i + 1];
      assert EventOk(s, s.events[i + 1]);
    }
  }

  lemma PopArrivalCore(cfg: Config, s: State)
    requires Core(cfg, s, {}) && |s.events| > 0 && s.events[0].kind.Arrival?
    ensures s.events[0].pid < |cfg.jobs| && Core(cfg, Admit(Pop(s), s.events[0].pid), {s.events[0].pid})
  {
    var p := s.events[0].pid;
    PopEvents(cfg, s, {});
    var s' := Admit(Pop(s), p);
    assert EventOk(s, s.events[0]);
    assert ProcOk(cfg, s, {}, p);
    forall q | 0 <= q < |cfg.jobs| ensures ProcOk(cfg, s', {p}, q) { assert ProcOk(cfg, s, {}, q); }
    forall i | 0 <= i < |s'.events| ensures EventOk(s', s'.events[i]) { assert EventOk(s, s'.events[i]); }
    if s.running.Some? {
      var r := s.running.value;
      assert ProcOk(cfg, s, {}, r);
      EventPresent(s'.events, r);
      assert EventOk(s, s'.events[EventOf(s'.events, r)]);
    }
  }

  lemma PopCompletionCore(cfg: Config, s: State)
    requires Core(cfg, s, {}) && |s.events| > 0 && s.events[0].kind.Completion?
    ensures s.running == Some(s.events[0].pid) && s.events[0].pid < |cfg.jobs|
    ensures Core(cfg, Leave(Pop(s)), {})
    ensures Leave(Pop(s)).procs == s.procs
  {
    var p := s.events[0].pid;
    PopEvents(cfg, s, {});
    assert EventOk(s, s.events[0]);
    assert ProcOk(cfg, s, {}, p);
    var s' := Leave(Pop(s));
    assert s'.procs == s.procs;
    LastEndIsEnd(s, p);
    forall q | 0 <= q < |cfg.jobs| ensures ProcOk(cfg, s', {}, q) { assert ProcOk(cfg, s, {}, q); }
    forall i | 0 <= i < |s'.events| ensures EventOk(s', s'.events[i]) { assert EventOk(s, s'.events[i]); }
  }

  lemma LastEndIsEnd(s: State, p: nat)
    ensures |s.trace| > 0 && s.trace[|s.trace| - 1].pid == p ==> LastEnd(s.trace, p) == End(s)
  {
  }

  /** The running process gives up the CPU at the very end of its slice. */
  lemma YieldCore(cfg: Config, s: State, s0: State, hand: set<nat>)
    requires Core(cfg, s, hand) && s.running.Some? && s0.running == s.running
    requires s0.procs == s.procs && s0.hist == s.hist && s0.ready == s.ready && s0.trace == s.trace
    requires s0.now >= s.now && s0.now == End(s) && s.procs[s.running.value].remaining > 0
    requires forall i :: 0 <= i < |s0.events| ==>
      s0.events[i].pid != s.running.value && s0.events[i].time >= s0.now && EventOk(s, s0.events[i])
    requires Sorted(ByRemaining(cfg.policy), s0.procs, s0.events)
    requires forall q :: EventCount(s0.events, q) == EventCount(s.events, q) - One(q == s.running.value)
    ensures Core(cfg, Yield(s0), hand + {s.running.value})
  {
    var p := s.running.value;
    var s' := Yield(s0);
    assert ProcOk(cfg, s, hand, p);
    forall q | 0 <= q < |cfg.jobs| ensures ProcOk(cfg, s', hand + {p}, q) { assert ProcOk(cfg, s, hand, q); }
    forall i | 0 <= i < |s'.events| ensures EventOk(s', s'.events[i]) { assert EventOk(s, s0.events[i]); }
  }

  lemma PopExpireCore(cfg: Config, s: State)
    requires Core(cfg, s, {}) && |s.events| > 0 && s.events[0].kind.Expire?
    ensures s.running == Some(s.events[0].pid) && s.events[0].pid < |cfg.jobs|
    ensures Core(cfg, Yield(Pop(s)), {s.events[0].pid})
  {
    PopEvents(cfg, s, {});
    assert EventOk(s, s.events[0]);
    assert ProcOk(cfg, s, {}, s.events[0].pid);
    YieldCore(cfg, s, Pop(s), {});
    assert {} + {s.events[0].pid} == {s.events[0].pid};
  }
}
