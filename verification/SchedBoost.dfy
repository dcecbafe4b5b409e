/** The priority-boost handler. It dispatches again without cancelling the event of the process that was
    running, so runs with boosts are not among the runs of this project; here is exactly when the handler
    breaks the agreement between the event list and the CPU. */
module SchedBoost {
  import opened Processes
  import opened Wrappers
  import opened SchedModel
  import opened SchedInv
  import opened SchedRun
  import opened MlfqLists

  /** All queued processes start over at the top level. */
  function BoostQueued(s: State): State
    requires s.ready.Levels? && |s.ready.levels| > 0
  {
    s.(ready := Levels(BoostedLevels(s.ready.levels)),
       procs := seq(|s.procs|, p requires 0 <= p < |s.procs| =>
         if p in Concat(s.ready.levels) then Boosted(s.procs[p]) else s.procs[p]))
  }

  /** So does the running process, behind them. */
  function BoostRunning(s: State, r: nat): State
    requires s.ready.Levels? && |s.ready.levels| > 0 && r < |s.procs| == |s.hist|
  {
    Admit(s, r).(
      running := None,
      procs := s.procs[r := Boosted(s.procs[r])],
      ready := Levels(s.ready.levels[0 := s.ready.levels[0] + [r]]))
  }

  /** `handle_priority_boost`, with the clock already at the time of the boost. */
  ghost function PriorityBoost(cfg: Config, s: State): State
    requires Inv(cfg, s) && cfg.policy.MLFQ?
  {
    CoreSizes(cfg, s, {});
    RunningOk(cfg, s, {});
    match s.running
    case None =>
      QueuedFits(cfg, s);
      Serve(cfg.policy, BoostQueued(s), false)
    case Some(r) =>
      if s.procs[r].remaining == 0 then s
      else
        QueuedFits(cfg, s);
        RunningFits(cfg, s, r);
        Serve(cfg.policy, BoostRunning(BoostQueued(s), r), false)
  }

  lemma QueuedFits(cfg: Config, s: State)
    requires Inv(cfg, s) && cfg.policy.MLFQ?
    ensures s.ready.Levels? && |s.ready.levels| > 0
    ensures var s' := BoostQueued(s);
      && |s'.procs| == |s'.hist| == |cfg.jobs| && |s'.ready.levels| == |s.ready.levels|
      && (!Empty(s'.ready) ==> Head(s'.ready) < |cfg.jobs|)
      && (Empty(s.ready) ==> s' == s)
  {
    hide ProcOk, EventOk, TraceOk, Sorted, SliceEndsFirst;
    ReadyMembers(cfg, s, {});
    var ls := s.ready.levels;
    BoostKeepsOrder(ls);
    if Empty(s.ready) {
      ConcatEmpty(ls);
      assert BoostedLevels(ls) == ls;
      assert BoostQueued(s).procs == s.procs;
    } else if !Empty(BoostQueued(s).ready) {
      ServiceOrder(BoostQueued(s).ready);
    }
  }

  /** With the running process queued there is somebody to dispatch. */
  lemma RunningFits(cfg: Config, s: State, r: nat)
    requires Inv(cfg, s) && cfg.policy.MLFQ? && s.running == Some(r) && r < |cfg.jobs| == |s.procs| == |s.hist|
    requires s.ready.Levels? && |s.ready.levels| > 0
    ensures var s' := BoostRunning(BoostQueued(s), r);
      |s'.procs| == |s'.hist| == |cfg.jobs| && !Empty(s'.ready) && Head(s'.ready) < |cfg.jobs|
  {
    ReadyMembers(cfg, s, {});
    var top := Concat(s.ready.levels);
    var s' := BoostRunning(BoostQueued(s), r);
    assert s'.ready.levels[0] == top + [r];
    assert Head(s'.ready) == (top + [r])[0] == if |top| > 0 then Flat(s.ready)[0] else r;
  }

  /** The stale event: after the boost the event that was to end the interrupted slice is still pending,
      and a new slice runs. */
  lemma BoostLeavesEvent(cfg: Config, s: State, r: nat)
    requires Inv(cfg, s) && cfg.policy.MLFQ? && s.running == Some(r) && r < |s.procs| && s.procs[r].remaining > 0
    ensures var s' := PriorityBoost(cfg, s);
      && s'.running.Some? && EventCount(s'.events, r) == (if s'.running == Some(r) then 2 else 1)
      && r < |s'.hist| && (s'.running != Some(r) ==> s'.hist[r].phase.Waiting?)
  {
    hide InsertEvent, RunTime, Charge, Guarded;
    CoreSizes(cfg, s, {});
    RunningOk(cfg, s, {});
    QueuedFits(cfg, s);
    RunningFits(cfg, s, r);
    var s2 := BoostRunning(BoostQueued(s), r);
    var h := Head(s2.ready);
    var s3 := s2.(ready := Rest(s2.ready));
    DispatchFrame(cfg.policy, s3, h, false);
    var s' := Dispatch(cfg.policy, s3, h, false);
    var e := SliceEnd(cfg.policy, s3, h, s'.procs[h]);
    InsertCounts(ByRemaining(cfg.policy), s'.procs, s.events, e, r);
  }

  /** What a boost does to a busy CPU with work left: the running process joins the end of the line, everybody
      starts over at the top level, and the first of the line gets the CPU. */
  lemma BoostServes(cfg: Config, s: State, r: nat)
    requires Inv(cfg, s) && cfg.policy.MLFQ? && s.running == Some(r) && r < |s.procs| && s.procs[r].remaining > 0
    ensures var s', line := PriorityBoost(cfg, s), Flat(s.ready) + [r];
      && s'.running == Some(line[0]) && s'.ready.Levels? && |s'.ready.levels| > 0 && |s'.procs| == |s.procs|
      && s'.ready.levels[0] == Flat(s'.ready) == line[1..]
      && forall p :: p in line[1..] ==> p < |s'.procs| && s'.procs[p] == s.procs[p].(priority := 0, inQueue := 0)
  {
    hide InsertEvent, RunTime, Charge, Guarded;
    CoreSizes(cfg, s, {});
    RunningOk(cfg, s, {});
    QueuedFits(cfg, s);
    RunningFits(cfg, s, r);
    var s2 := BoostRunning(BoostQueued(s), r);
    var h, s3 := Head(s2.ready), s2.(ready := Rest(s2.ready));
    DispatchFrame(cfg.policy, s3, h, false);
    BoostedLine(cfg, s, r);
    LineOnce(cfg, s, r);
    LineReset(cfg, s, r);
  }

  lemma LineReset(cfg: Config, s: State, r: nat)
    requires Inv(cfg, s) && cfg.policy.MLFQ? && s.running == Some(r) && r < |cfg.jobs| == |s.procs| == |s.hist|
    requires s.ready.Levels? && |s.ready.levels| > 0
    ensures var s', line := BoostRunning(BoostQueued(s), r), Flat(s.ready) + [r];
      forall p :: p in line[1..] ==> p < |s.procs| && s'.procs[p] == s.procs[p].(priority := 0, inQueue := 0)
  {
    var line := Flat(s.ready) + [r];
    ReadyMembers(cfg, s, {});
    forall p | p in line[1..] ensures p == r || p in Flat(s.ready) { assert p in line; }
  }

  lemma BoostedLine(cfg: Config, s: State, r: nat)
    requires Inv(cfg, s) && cfg.policy.MLFQ? && s.running == Some(r) && r < |cfg.jobs| == |s.procs| == |s.hist|
    requires s.ready.Levels? && |s.ready.levels| > 0
    ensures var s', line := BoostRunning(BoostQueued(s), r), Flat(s.ready) + [r];
      && s'.ready.Levels? && s'.ready.levels[0] == line && |s'.ready.levels| > 0
      && (forall l :: 0 < l < |s'.ready.levels| ==> s'.ready.levels[l] == [])
      && !Empty(s'.ready) && Head(s'.ready) == line[0]
      && Flat(Rest(s'.ready)) == line[1..] && Rest(s'.ready) == Levels(s'.ready.levels[0 := line[1..]])
  {
    var ls := BoostRunning(BoostQueued(s), r).ready.levels;
    assert ls[0] == Flat(s.ready) + [r];
    ConcatEmpty(ls[1..]);
  }

  lemma LineOnce(cfg: Config, s: State, r: nat)
    requires Inv(cfg, s) && s.running == Some(r)
    ensures var line := Flat(s.ready) + [r]; line[0] !in line[1..]
  {
    var line := Flat(s.ready) + [r];
    ReadyMembers(cfg, s, {});
    RunningOk(cfg, s, {});
    ProcAt(cfg, s, {}, line[0]);
    CountAppend(Flat(s.ready), [r], line[0]);
    assert Count([r], line[0]) == One(r == line[0]);
    assert line == [line[0]] + line[1..];
    CountPositive(line[1..], line[0]);
  }

  lemma InsertCounts(byRemaining: bool, procs: seq<Proc>, q: seq<Event>, e: Event, p: nat)
    ensures EventCount(InsertEvent(byRemaining, procs, q, e), p) == EventCount(q, p) + One(e.pid == p)
  {
    EventInserted(q, EventPos(byRemaining, procs, q, e), e, p);
  }

  /** The handler keeps the invariant of the runs iff it finds the CPU idle or its slice the last one of
      the process. */
  lemma BoostKeepsInvIff(cfg: Config, s: State)
    requires Inv(cfg, s) && cfg.policy.MLFQ?
    ensures s.running.Some? ==> s.running.value < |s.procs|
    ensures Inv(cfg, PriorityBoost(cfg, s)) <==> s.running.None? || s.procs[s.running.value].remaining == 0
  {
    RunningOk(cfg, s, {});
    QueuedFits(cfg, s);
    if s.running.Some? && s.procs[s.running.value].remaining != 0 {
      var r, s' := s.running.value, PriorityBoost(cfg, s);
      BoostLeavesEvent(cfg, s, r);
      if Inv(cfg, s') { NoStaleEvent(cfg, s', r); }
    }
  }

  lemma NoStaleEvent(cfg: Config, s: State, r: nat)
    requires Inv(cfg, s) && r < |s.hist|
    ensures s.running == Some(r) ==> EventCount(s.events, r) == 1
    ensures s.hist[r].phase.Waiting? ==> EventCount(s.events, r) == 0
  {
    ProcAt(cfg, s, {}, r);
  }
}
