/** What the reports of the bank are made of. The pool counts its loads and unloads and the largest usage
    there has been; a transaction records the ticks at which it started and ended, and how many ticks its
    operations took. Each record is told here by the schedule alone. */
module BankRecords {
  import opened Wrappers
  import opened BankModel
  import opened BankPool

  // ----- the pool -----

  /** The last choice of the schedule is a thread at this program counter, and it makes its step. */
  ghost predicate LastIs(cfg: Config, sched: seq<Choice>, c: Choice)
    requires ConfigOk(cfg)
  {
    |sched| > 0 && sched[|sched| - 1] == c && c.Run? && Enabled(cfg, Exec(cfg, sched[..|sched| - 1]), c.t)
  }

  /** The program counter at which the last step of the schedule is made, if it is a step of a thread. */
  ghost function LastStep(cfg: Config, sched: seq<Choice>): Option<PC>
    requires ConfigOk(cfg)
  {
    if |sched| > 0 && LastIs(cfg, sched, sched[|sched| - 1]) then
      Some(Exec(cfg, sched[..|sched| - 1]).threads[sched[|sched| - 1].t].pc)
    else None
  }

  /** How many loads and how many unloads the schedule makes. */
  ghost function LoadsMade(cfg: Config, sched: seq<Choice>): nat
    requires ConfigOk(cfg)
  {
    if |sched| == 0 then 0 else
      LoadsMade(cfg, sched[..|sched| - 1])
      + if LastStep(cfg, sched).Some? && LastStep(cfg, sched).value.LoadSlot? then 1 else 0
  }

  ghost function UnloadsMade(cfg: Config, sched: seq<Choice>): nat
    requires ConfigOk(cfg)
  {
    if |sched| == 0 then 0 else
      UnloadsMade(cfg, sched[..|sched| - 1])
      + if LastStep(cfg, sched).Some? && LastStep(cfg, sched).value.Unload? then 1 else 0
  }

  lemma StepCounts(cfg: Config, s: State, t: nat)
    requires Shape(cfg, s) && Enabled(cfg, s, t)
    ensures var p, p', pc := s.pool, Next(cfg, s, t).pool, s.threads[t].pc;
      && p'.loads == p.loads + (if pc.LoadSlot? then 1 else 0)
      && p'.unloads == p.unloads + (if pc.Unload? then 1 else 0)
      && p'.peak == (if p'.usage > p.peak && pc.LoadSlot? then p'.usage else p.peak)
      && (p'.usage > p.usage ==> pc.LoadSlot?)
  {
    hide NextThread, NextLocks, NextBalances, NextReserve, NextLog;
  }

  /** The counters count the steps. */
  lemma {:induction false} PoolCounts(cfg: Config, sched: seq<Choice>)
    requires ConfigOk(cfg)
    ensures var pool := Exec(cfg, sched).pool;
      pool.loads == LoadsMade(cfg, sched) && pool.unloads == UnloadsMade(cfg, sched)
  {
    hide Next, Enabled, PcOk;
    if |sched| > 0 {
      var s, c := Exec(cfg, sched[..|sched| - 1]), sched[|sched| - 1];
      PoolCounts(cfg, sched[..|sched| - 1]);
      if c.Run? && Enabled(cfg, s, c.t) { StepCounts(cfg, s, c.t); }
    }
  }

  /** The peak is the largest usage there has been: no earlier moment exceeds it, and one attains it. */
  lemma {:induction false} PeakIsLargest(cfg: Config, sched: seq<Choice>) returns (j: nat)
    requires ConfigOk(cfg)
    ensures forall i :: 0 <= i <= |sched| ==> Exec(cfg, sched[..i]).pool.usage <= Exec(cfg, sched).pool.peak
    ensures j <= |sched| && Exec(cfg, sched[..j]).pool.usage == Exec(cfg, sched).pool.peak
  {
    hide Next, Enabled, PcOk;
    assert sched[..|sched|] == sched;
    if |sched| == 0 {
      j := 0;
    } else {
      var before, c := sched[..|sched| - 1], sched[|sched| - 1];
      var s, s' := Exec(cfg, before), Exec(cfg, sched);
      j := PeakIsLargest(cfg, before);
      assert before[..|before|] == before;
      forall i | 0 <= i < |sched| ensures Exec(cfg, sched[..i]).pool.usage <= s.pool.peak {
        assert before[..i] == sched[..i];
      }
      assert before[..j] == sched[..j];
      if c.Run? && Enabled(cfg, s, c.t) {
        StepCounts(cfg, s, c.t);
        if s'.pool.peak != s.pool.peak { j := |sched|; }
      }
    }
  }

  // ----- the transactions -----

  /** The tick at which thread t last made its step at program counter pc, or 0. */
  ghost function LastTick(cfg: Config, sched: seq<Choice>, t: nat, pc: PC): int
    requires ConfigOk(cfg)
  {
    if |sched| == 0 then 0
    else if LastIs(cfg, sched, Run(t)) && LastStep(cfg, sched) == Some(pc) then Exec(cfg, sched[..|sched| - 1]).tick
    else LastTick(cfg, sched[..|sched| - 1], t, pc)
  }

  /** The ticks that pass in the operations of thread t, each from its beginning to the point after the
      bank operation, added up. */
  ghost function TicksInOps(cfg: Config, sched: seq<Choice>, t: nat): int
    requires ConfigOk(cfg)
  {
    if |sched| == 0 then 0
    else
      var before := sched[..|sched| - 1];
      TicksInOps(cfg, before, t)
      + if LastIs(cfg, sched, Run(t)) && LastStep(cfg, sched) == Some(OpEnd)
        then Exec(cfg, before).tick - LastTick(cfg, before, t, OpBegin) else 0
  }

  /** What thread t has recorded is what the schedule says. */
  ghost predicate RecordsOk(cfg: Config, sched: seq<Choice>, t: nat)
    requires ConfigOk(cfg) && t < |cfg.txs|
  {
    var th := Exec(cfg, sched).threads[t];
    && th.waitTicks == TicksInOps(cfg, sched, t)
    && (InOp(th.pc) ==> th.before == LastTick(cfg, sched, t, OpBegin))
    && (!th.pc.WaitStart? && !th.pc.ReadStart? ==> th.actualStart == LastTick(cfg, sched, t, ReadStart))
    && (th.pc.Done? ==> th.actualEnd == LastTick(cfg, sched, t, Finish))
    && (th.pc.WaitNext? ==> th.next == LastTick(cfg, sched, t, OpEnd) + 1)
  }

  lemma StepRecords(tx: Tx, th: Thread, tick: int, balances: seq<int>)
    requires PcOk(tx, th, |balances|) && !th.pc.Done?
    ensures var th' := NextThread(tx, th, tick, balances);
      && th'.waitTicks == th.waitTicks + (if th.pc.OpEnd? then tick - th.before else 0)
      && (InOp(th'.pc) ==> th'.before == if th.pc.OpBegin? then tick else th.before)
      && (InOp(th'.pc) ==> InOp(th.pc) || th.pc.OpBegin?)
      && !th'.pc.WaitStart? && (th'.pc.ReadStart? <==> th.pc.WaitStart?)
      && (!th'.pc.ReadStart? ==> th'.actualStart == if th.pc.ReadStart? then tick else th.actualStart)
      && (th'.pc.Done? ==> th.pc.Finish? && th'.actualEnd == tick)
      && (th'.pc.WaitNext? ==> th.pc.OpEnd? && th'.next == tick + 1)
  {
  }

  lemma OwnStep(cfg: Config, s: State, t: nat)
    requires Shape(cfg, s) && Enabled(cfg, s, t)
    ensures t < |cfg.txs| && !s.threads[t].pc.Done?
    ensures Next(cfg, s, t).threads[t] == NextThread(cfg.txs[t], s.threads[t], s.tick, s.balances)
    ensures forall u :: 0 <= u < |cfg.txs| && u != t ==> Next(cfg, s, t).threads[u] == s.threads[u]
  {
  }

  lemma {:induction false} RecordsHold(cfg: Config, sched: seq<Choice>, t: nat)
    requires ConfigOk(cfg) && t < |cfg.txs|
    ensures RecordsOk(cfg, sched, t)
  {
    hide Next, Enabled, PcOk, NextThread;
    if |sched| > 0 {
      var s, c := Exec(cfg, sched[..|sched| - 1]), sched[|sched| - 1];
      RecordsHold(cfg, sched[..|sched| - 1], t);
      if c.Run? && Enabled(cfg, s, c.t) {
        OwnStep(cfg, s, c.t);
        StepRecords(cfg.txs[c.t], s.threads[c.t], s.tick, s.balances);
      }
    }
  }

  /** When a transaction has ended, its start and end are the ticks at which it read the clock first and
      last, and its wait ticks are the ticks that passed in its operations, under any interleaving. */
  lemma TransactionRecords(cfg: Config, sched: seq<Choice>, t: nat)
    requires ConfigOk(cfg) && t < |cfg.txs|
    ensures var th := Exec(cfg, sched).threads[t];
      th.pc.Done? ==>
        && th.actualStart == LastTick(cfg, sched, t, ReadStart)
        && th.actualEnd == LastTick(cfg, sched, t, Finish)
        && th.waitTicks == TicksInOps(cfg, sched, t)
  {
    RecordsHold(cfg, sched, t);
  }

  /** The waits for the clock, under any interleaving: a transaction may start iff its start tick has come,
      and may go on after an operation iff the clock has moved since the operation ended. */
  lemma TickWaits(cfg: Config, sched: seq<Choice>, t: nat)
    requires ConfigOk(cfg) && t < |cfg.txs|
    ensures var s := Exec(cfg, sched);
      && (s.threads[t].pc.WaitStart? ==> (Enabled(cfg, s, t) <==> s.tick >= cfg.txs[t].startTick))
      && (s.threads[t].pc.WaitNext? ==> (Enabled(cfg, s, t) <==> s.tick > LastTick(cfg, sched, t, OpEnd)))
  {
    hide Exec, LastTick, TicksInOps, PcOk, CanLock;
    RecordsHold(cfg, sched, t);
  }

  // ----- the order of unloading -----

  /** Between its two unloads a committing transfer still holds the smaller account, which it loaded first;
      an aborting one holds the larger. */
  lemma HeldBetweenUnloads(cfg: Config, sched: seq<Choice>, t: nat)
    requires ConfigOk(cfg) && t < |cfg.txs|
    ensures var th := Exec(cfg, sched).threads[t];
      th.pc == Post(0) && cfg.txs[t].ops[th.i].Transfer? ==>
        var op := cfg.txs[t].ops[th.i];
        var small, large := if op.from < op.to then op.from else op.to, if op.from < op.to then op.to else op.from;
        forall a :: Loaded(cfg.txs[t], th, Some(a)) == if a == (if th.ok then small else large) then 1 else 0
  {
    hide Exec;
  }

  /** Between its two loads a transfer holds the smaller account. */
  lemma HeldBetweenLoads(cfg: Config, sched: seq<Choice>, t: nat)
    requires ConfigOk(cfg) && t < |cfg.txs|
    ensures var th := Exec(cfg, sched).threads[t];
      th.pc == LoadSem(1) ==>
        var op := cfg.txs[t].ops[th.i];
        op.Transfer? && forall a ::
          Loaded(cfg.txs[t], th, Some(a)) == if a == (if op.from < op.to then op.from else op.to) then 1 else 0
  {
    hide Exec;
  }
}
