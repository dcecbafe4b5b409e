/** The discrete-event CPU scheduler: an event list, a ready queue and one running process, driven by
    arrivals, completions and quantum expiries, under five policies.

    Processes are identified by their index. A dispatch charges the whole slice at once: remaining
    time falls when the slice starts and the event that ends the slice fires later. Priority boosts
    are not part of this model. */
module SchedModel {
  import opened Processes
  import opened Wrappers

  datatype Level = Level(quantum: int, allotment: int)

  datatype Policy = FCFS | SJF | STCF | RR(quantum: int) | MLFQ(levels: seq<Level>)

  datatype Config = Config(policy: Policy, jobs: seq<Job>)

  datatype Kind = Arrival | Completion | Expire

  datatype Event = Event(time: int, kind: Kind, pid: nat)

  /** The ready queue: one line, the three lists of round robin, or one line per priority level. */
  datatype Ready =
    | Line(q: seq<nat>)
    | Rounds(active: seq<nat>, round: seq<nat>, pending: seq<nat>)
    | Levels(levels: seq<seq<nat>>)

  /** A slice of CPU time given to a process, at the priority level it then has. */
  datatype Seg = Seg(pid: nat, level: int, from: int, to: int)

  datatype Phase = Future | Waiting | OnCpu | Finished

  /** History of a process: where it is, since when it has been waiting, and how long it has waited in
      the ready queue before. No step reads it. */
  datatype Hist = Hist(phase: Phase, since: int, waited: int)

  datatype State = State(
    procs: seq<Proc>, events: seq<Event>, ready: Ready, running: Option<nat>, now: int,
    trace: seq<Seg>, hist: seq<Hist>)

  ghost predicate ConfigOk(cfg: Config) {
    && (forall p :: 0 <= p < |cfg.jobs| ==> cfg.jobs[p].arrival >= 0 && cfg.jobs[p].burst >= 0)
    && (cfg.policy.RR? ==> cfg.policy.quantum > 0)
    && (cfg.policy.MLFQ? ==> |cfg.policy.levels| > 0)
    && (cfg.policy.MLFQ? ==> forall l :: 0 <= l < |cfg.policy.levels| ==> LevelOk(cfg.policy.levels[l]))
  }

  /** -1 stands for no limit. */
  predicate LevelOk(l: Level) {
    (l.quantum == -1 || l.quantum > 0) && (l.allotment == -1 || l.allotment > 0)
  }

  // ----- lists -----

  function InsertAt<T>(q: seq<T>, k: nat, x: T): seq<T>
    requires k <= |q|
  {
    q[..k] + [x] + q[k..]
  }

  function RemoveAt<T>(q: seq<T>, k: nat): seq<T>
    requires k < |q|
  {
    q[..k] + q[k + 1..]
  }

  function Concat(qs: seq<seq<nat>>): seq<nat> {
    if |qs| == 0 then [] else qs[0] + Concat(qs[1..])
  }

  // ----- the event list -----

  function Remaining(procs: seq<Proc>, p: nat): int {
    if p < |procs| then procs[p].remaining else 0
  }

  /** Event a goes before event b: by time and, for SJF and STCF, by remaining time on a tie. */
  predicate Before(byRemaining: bool, procs: seq<Proc>, a: Event, b: Event) {
    a.time < b.time ||
    (byRemaining && a.time == b.time && Remaining(procs, a.pid) < Remaining(procs, b.pid))
  }

  /** Where the insertion loop stops: in front of the first event the new one goes before. */
  function EventPos(byRemaining: bool, procs: seq<Proc>, q: seq<Event>, e: Event): (k: nat)
    ensures k <= |q|
    ensures forall i :: 0 <= i < k ==> !Before(byRemaining, procs, e, q[i])
    ensures k < |q| ==> Before(byRemaining, procs, e, q[k])
  {
    if |q| == 0 || Before(byRemaining, procs, e, q[0]) then 0
    else 1 + EventPos(byRemaining, procs, q[1..], e)
  }

  function InsertEvent(byRemaining: bool, procs: seq<Proc>, q: seq<Event>, e: Event): seq<Event> {
    InsertAt(q, EventPos(byRemaining, procs, q, e), e)
  }

  /** Index of the first event of process p, or |q|. */
  function EventOf(q: seq<Event>, p: nat): (k: nat)
    ensures k <= |q|
    ensures forall i :: 0 <= i < k ==> q[i].pid != p
    ensures k < |q| ==> q[k].pid == p
  {
    if |q| == 0 || q[0].pid == p then 0 else 1 + EventOf(q[1..], p)
  }

  function RemoveEvent(q: seq<Event>, p: nat): seq<Event> {
    var k := EventOf(q, p);
    if k < |q| then RemoveAt(q, k) else q
  }

  /** Index of the first pending arrival, or |q|. */
  function NextArrival(q: seq<Event>): (k: nat)
    ensures k <= |q|
    ensures forall i :: 0 <= i < k ==> !q[i].kind.Arrival?
    ensures k < |q| ==> q[k].kind.Arrival?
  {
    if |q| == 0 || q[0].kind.Arrival? then 0 else 1 + NextArrival(q[1..])
  }

  // ----- the ready queue -----

  /** SJF orders the line by burst time, STCF by remaining time. */
  function Key(pol: Policy, procs: seq<Proc>, p: nat): int {
    if p >= |procs| then 0 else if pol.SJF? then procs[p].burst else procs[p].remaining
  }

  function LinePos(pol: Policy, procs: seq<Proc>, q: seq<nat>, p: nat): (k: nat)
    ensures k <= |q|
    ensures forall i :: 0 <= i < k ==> Key(pol, procs, p) >= Key(pol, procs, q[i])
    ensures k < |q| ==> Key(pol, procs, p) < Key(pol, procs, q[k])
  {
    if |q| == 0 || Key(pol, procs, p) < Key(pol, procs, q[0]) then 0
    else 1 + LinePos(pol, procs, q[1..], p)
  }

  /** The queue has the shape its policy uses. */
  predicate Fits(pol: Policy, r: Ready) {
    match pol
    case RR(_) => r.Rounds?
    case MLFQ(levels) => r.Levels? && |r.levels| == |levels| > 0
    case _ => r.Line?
  }

  /** The processes in the ready queue, in the order in which they would be served from now on. */
  function Flat(r: Ready): seq<nat> {
    match r
    case Line(q) => q
    case Rounds(a, b, c) => a + b + c
    case Levels(ls) => Concat(ls)
  }

  /** A process whose priority was never set enters at the top level. */
  function Entered(pol: Policy, pr: Proc): Proc {
    if pol.MLFQ? && pr.priority == -1 then pr.(priority := 0, inQueue := 0) else pr
  }

  function LevelOf(pr: Proc, n: nat): nat
    requires pr.priority >= 0 && n > 0
  {
    if pr.priority >= n then n - 1 else pr.priority
  }

  function Enqueue(pol: Policy, procs: seq<Proc>, r: Ready, p: nat): (r': Ready)
    requires Fits(pol, r) && p < |procs| && procs[p].priority >= 0
    ensures Fits(pol, r')
  {
    match pol
    case FCFS => Line(r.q + [p])
    case RR(_) => r.(pending := r.pending + [p])
    case MLFQ(ls) =>
      var l := LevelOf(procs[p], |r.levels|);
      Levels(r.levels[l := r.levels[l] + [p]])
    case _ => Line(InsertAt(r.q, LinePos(pol, procs, r.q, p), p))
  }

  /** The best level that is not empty, or |ls|. */
  function BestLevel(ls: seq<seq<nat>>): (k: nat)
    ensures k <= |ls|
    ensures forall i :: 0 <= i < k ==> |ls[i]| == 0
    ensures k < |ls| ==> |ls[k]| > 0
  {
    if |ls| == 0 || |ls[0]| > 0 then 0 else 1 + BestLevel(ls[1..])
  }

  /** Round robin starts a new round when no active entry is left: first the processes preempted
      during this round, then the ones that arrived during it. */
  function Opened(r: Ready): (r': Ready)
    requires r.Rounds?
    ensures r'.Rounds?
  {
    if |r.active| == 0 then Rounds(r.round + r.pending, [], []) else r
  }

  predicate Empty(r: Ready) {
    match r
    case Line(q) => |q| == 0
    case Rounds(a, b, c) => |a| + |b| + |c| == 0
    case Levels(ls) => BestLevel(ls) == |ls|
  }

  /** The process `dequeue` returns, and the queue it leaves. */
  function Head(r: Ready): nat
    requires !Empty(r)
  {
    match r
    case Line(q) => q[0]
    case Rounds(_, _, _) => Opened(r).active[0]
    case Levels(ls) => ls[BestLevel(ls)][0]
  }

  function Rest(r: Ready): Ready
    requires !Empty(r)
  {
    match r
    case Line(q) => Line(q[1..])
    case Rounds(_, _, _) =>
      var o := Opened(r);
      Rounds(o.active[1..], o.round, o.pending)
    case Levels(ls) => Levels(ls[BestLevel(ls) := ls[BestLevel(ls)][1..]])
  }

  // ----- dispatch -----

  function Quantum(pol: Policy, level: int): int
    requires pol.MLFQ?
  {
    if 0 <= level < |pol.levels| then pol.levels[level].quantum else -1
  }

  function Allotment(pol: Policy, level: int): int
    requires pol.MLFQ?
  {
    if 0 <= level < |pol.levels| then pol.levels[level].allotment else -1
  }

  /** How long the policy lets process p run from now. */
  function RunTime(pol: Policy, s: State, p: nat): int
    requires p < |s.procs|
  {
    var left := s.procs[p].remaining;
    match pol
    case RR(q) => if left <= q then left else q
    case STCF =>
      var k := NextArrival(s.events);
      var slice := if k < |s.events| && s.events[k].time > s.now then s.events[k].time - s.now else left;
      if left <= slice then left else slice
    case MLFQ(_) =>
      var q := Quantum(pol, s.procs[p].priority);
      if q == -1 || left <= q then left else q
    case _ => left
  }

  /** What the policy's scheduling function writes into the process it lets run for t from now. */
  function Scheduled(pol: Policy, pr: Proc, now: int, t: int): Proc {
    var last := t == pr.remaining;
    match pol
    case RR(_) =>
      pr.(start := if pr.start == -1 then now else pr.start, finish := if last then now + t else pr.finish)
    case STCF =>
      pr.(start := if pr.start == -1 then now else pr.start,
          response := if pr.start == -1 then now - pr.arrival else pr.response,
          finish := if last then now + t else pr.finish,
          turnaround := if last then now + t - pr.arrival else pr.turnaround,
          waiting := if last then now + t - pr.arrival - pr.burst else pr.waiting)
    case MLFQ(_) =>
      pr.(start := if pr.start == -1 then now else pr.start,
          inQueue := pr.inQueue + t,
          finish := if last then now + t else pr.finish,
          turnaround := if last then now + t - pr.arrival else pr.turnaround,
          waiting := if last then now + t - pr.arrival - pr.burst else pr.waiting)
    case _ =>
      pr.(start := now, finish := now + pr.burst, response := now - pr.arrival,
          waiting := now - pr.arrival, turnaround := now + pr.burst - pr.arrival)
  }

  /** The scheduling function's writes, and the simulator's charge for the slice. */
  function Charge(pol: Policy, pr: Proc, now: int, t: int): Proc {
    Scheduled(pol, pr, now, t).(remaining := pr.remaining - t)
  }

  /** The simulator's guard against a completed process without a finish time. */
  function Guarded(pr: Proc, time: int): Proc {
    if pr.finish == -1 then
      pr.(finish := time, turnaround := time - pr.arrival, waiting := time - pr.arrival - pr.burst)
    else pr
  }

  predicate ByRemaining(pol: Policy) {
    pol.SJF? || pol.STCF?
  }

  /** Gives the CPU to process p: charge the slice, schedule the event that ends it. `guard` is the
      extra check made when a quantum expired. */
  function Dispatch(pol: Policy, s: State, p: nat, guard: bool): State
    requires p < |s.procs| == |s.hist|
  {
    var t := RunTime(pol, s, p);
    var charged := Charge(pol, s.procs[p], s.now, t);
    var pr := if guard && charged.remaining == 0 then Guarded(charged, s.now + t) else charged;
    var procs := s.procs[p := pr];
    var e := Event(s.now + t, if pr.remaining == 0 then Completion else Expire, p);
    var h := s.hist[p];
    s.(procs := procs,
       running := Some(p),
       events := InsertEvent(ByRemaining(pol), procs, s.events, e),
       trace := s.trace + [Seg(p, pr.priority, s.now, s.now + t)],
       hist := s.hist[p := Hist(OnCpu, h.since, h.waited + s.now - h.since)])
  }

  // ----- the pieces of an event handler -----

  /** The first event leaves the list and the clock moves to it. */
  function Pop(s: State): State
    requires |s.events| > 0
  {
    s.(events := s.events[1..], now := s.events[0].time)
  }

  /** Process p may compete for the CPU from now on. */
  function Admit(s: State, p: nat): State
    requires p < |s.hist|
  {
    s.(hist := s.hist[p := s.hist[p].(phase := Waiting, since := s.now)])
  }

  function Enter(pol: Policy, s: State, p: nat): State
    requires Fits(pol, s.ready) && p < |s.procs| && Entered(pol, s.procs[p]).priority >= 0
  {
    var procs := s.procs[p := Entered(pol, s.procs[p])];
    s.(procs := procs, ready := Enqueue(pol, procs, s.ready, p))
  }

  /** The running process gives up the CPU and competes for it again. */
  function Yield(s: State): State
    requires s.running.Some? && s.running.value < |s.hist|
  {
    Admit(s.(running := None), s.running.value)
  }

  /** The running process is done. */
  function Leave(s: State): State
    requires s.running.Some? && s.running.value < |s.hist| == |s.procs|
  {
    var p := s.running.value;
    s.(running := None,
       procs := s.procs[p := Guarded(s.procs[p], s.now)],
       hist := s.hist[p := s.hist[p].(phase := Finished)])
  }

  /** MLFQ: the process has used up its allotment and there is a lower level to move it to. */
  predicate Demotes(pol: Policy, pr: Proc) {
    pol.MLFQ? && Allotment(pol, pr.priority) != -1 && pr.inQueue >= Allotment(pol, pr.priority)
    && pr.priority + 1 < |pol.levels|
  }

  function Demoted(pr: Proc): Proc {
    pr.(priority := pr.priority + 1, inQueue := 0)
  }

  /** A preempted process goes back: to the round buffer, to the next level, or to the queue. */
  function Return(pol: Policy, s: State, p: nat): State
    requires Fits(pol, s.ready) && p < |s.procs| && s.procs[p].priority >= 0
  {
    if pol.RR? then s.(ready := s.ready.(round := s.ready.round + [p]))
    else if Demotes(pol, s.procs[p]) then
      var procs := s.procs[p := Demoted(s.procs[p])];
      s.(procs := procs, ready := Enqueue(pol, procs, s.ready, p))
    else Enter(pol, s, p)
  }

  /** The next ready process, if any, gets the CPU. */
  function Serve(pol: Policy, s: State, guard: bool): State
    requires |s.procs| == |s.hist| && (!Empty(s.ready) ==> Head(s.ready) < |s.procs|)
  {
    if Empty(s.ready) then s.(running := None)
    else Dispatch(pol, s.(ready := Rest(s.ready)), Head(s.ready), guard)
  }

  /** STCF: the arriving process p is shorter than what is left of the running one. */
  predicate Preempts(pol: Policy, s: State, p: nat)
    requires p < |s.procs| && s.running.Some? && s.running.value < |s.procs|
  {
    pol.STCF? && s.procs[p].remaining < s.procs[s.running.value].remaining
  }

  function Insertions(byRemaining: bool, procs: seq<Proc>, n: nat): seq<Event>
    requires n <= |procs|
  {
    if n == 0 then [] else
      InsertEvent(
        byRemaining, procs, Insertions(byRemaining, procs, n - 1), Event(procs[n - 1].arrival, Arrival, n - 1))
  }

  function InitReady(pol: Policy): Ready {
    match pol
    case RR(_) => Rounds([], [], [])
    case MLFQ(ls) => Levels(seq(|ls|, _ => []))
    case _ => Line([])
  }

  /** All arrivals are scheduled, in input order. */
  function Init(cfg: Config): State {
    var procs := InitProcs(cfg.jobs);
    State(procs, Insertions(ByRemaining(cfg.policy), procs, |procs|), InitReady(cfg.policy), None, 0, [],
          seq(|cfg.jobs|, _ => Hist(Future, 0, 0)))
  }
}
