/** Progress of the bank: no deadlock as long as fewer transactions contain a transfer than the pool
    has slots, exactly what a deadlock looks like otherwise, and how long a transaction takes. */
module BankProgress {
  import opened Wrappers
  import opened BankModel
  import opened BankLocks
  import opened BankPool
  import opened Sums

  // ----- runs from a state -----

  ghost function RunFrom(cfg: Config, s: State, cs: seq<Choice>): (s': State)
    requires Shape(cfg, s)
    ensures Shape(cfg, s')
    decreases |cs|
  {
    if |cs| == 0 then s else
      TakeShape(cfg, s, cs[0]);
      RunFrom(cfg, Take(cfg, s, cs[0]), cs[1..])
  }

  lemma {:induction false} ExecThen(cfg: Config, sched: seq<Choice>, cs: seq<Choice>)
    requires ConfigOk(cfg)
    ensures Exec(cfg, sched + cs) == RunFrom(cfg, Exec(cfg, sched), cs)
    decreases |cs|
  {
    if |cs| == 0 {
      assert sched + cs == sched;
    } else {
      var longer := sched + [cs[0]];
      assert longer[..|longer| - 1] == sched;
      assert sched + cs == longer + cs[1..];
      ExecThen(cfg, longer, cs[1..]);
    }
  }

  function Ticks(n: nat): seq<Choice> {
    seq(n, _ => Tick)
  }

  lemma {:induction false} TicksPass(cfg: Config, s: State, n: nat)
    requires Shape(cfg, s)
    ensures RunFrom(cfg, s, Ticks(n)) == s.(tick := s.tick + n)
    decreases n
  {
    if n > 0 {
      assert Ticks(n)[1..] == Ticks(n - 1);
      TicksPass(cfg, s.(tick := s.tick + 1), n - 1);
    }
  }

  lemma {:induction false} RunThen(cfg: Config, s: State, cs: seq<Choice>, ds: seq<Choice>)
    requires Shape(cfg, s)
    ensures RunFrom(cfg, s, cs + ds) == RunFrom(cfg, RunFrom(cfg, s, cs), ds)
    decreases |cs|
  {
    if |cs| == 0 {
      assert cs + ds == ds;
    } else {
      assert (cs + ds)[1..] == cs[1..] + ds;
      TakeShape(cfg, s, cs[0]);
      RunThen(cfg, Take(cfg, s, cs[0]), cs[1..], ds);
    }
  }

  /** A tick by which every transaction may have started. */
  function LastStart(txs: seq<Tx>): (n: nat)
    ensures forall t :: 0 <= t < |txs| ==> txs[t].startTick <= n
  {
    if |txs| == 0 then 0 else
      var n := LastStart(txs[1..]);
      assert forall t :: 0 < t < |txs| ==> txs[t] == txs[1..][t - 1];
      if txs[0].startTick > n then txs[0].startTick else n
  }

  // ----- some thread can always move -----

  /** The transaction contains a TRANSFER, so it may wait for a second slot while it holds one. */
  predicate Transfers(tx: Tx) {
    exists j :: 0 <= j < |tx.ops| && tx.ops[j].Transfer?
  }

  function Flags(cfg: Config): seq<int> {
    seq(|cfg.txs|, t requires 0 <= t < |cfg.txs| => if Transfers(cfg.txs[t]) then 1 else 0)
  }

  /** Ascending lock order: following the owner of the awaited lock leads to ever larger account ids,
      so it reaches a thread that does not wait for a lock. */
  lemma {:induction false} LockOwnerMoves(cfg: Config, s: State, t: nat) returns (u: nat)
    requires Shape(cfg, s) && LockInv(cfg, s) && t < |s.threads| && s.threads[t].pc.Lock?
    ensures Enabled(cfg, s, u)
    decreases |cfg.initial| - LockAccounts(cfg.txs[t].ops[s.threads[t].i])[s.threads[t].pc.k]
  {
    var a := LockAccounts(cfg.txs[t].ops[s.threads[t].i])[s.threads[t].pc.k];
    assert LockOk(cfg, s, a);
    if Enabled(cfg, s, t) {
      u := t;
    } else if s.locks[a].writer.Some? {
      u := s.locks[a].writer.value;
      assert Holds(cfg.txs[u], s.threads[u], a, false);
      if s.threads[u].pc.Lock? { u := LockOwnerMoves(cfg, s, u); }
    } else {
      u :| u in s.locks[a].readers;
      assert Holds(cfg.txs[u], s.threads[u], a, true);
    }
  }

  /** Every unfinished thread waits for a slot and there is none. */
  ghost predicate SlotsExhausted(s: State) {
    && s.pool.permits == 0
    && (forall t :: 0 <= t < |s.threads| ==> s.threads[t].pc.LoadSem? || s.threads[t].pc.Done?)
  }

  /** Unless the slots are exhausted, some thread can move now or after some ticks. */
  lemma SomeoneMoves(cfg: Config, s: State, t: nat) returns (n: nat, u: nat)
    requires Shape(cfg, s) && LockInv(cfg, s) && t < |s.threads| && !s.threads[t].pc.Done?
    requires !SlotsExhausted(s)
    ensures Shape(cfg, s.(tick := s.tick + n)) && Enabled(cfg, s.(tick := s.tick + n), u)
    ensures n > 0 ==> forall v :: 0 <= v < |s.threads| && Enabled(cfg, s, v) ==> false
  {
    n := 0;
    if v :| 0 <= v < |s.threads| && Enabled(cfg, s, v) {
      u := v;
    } else if v :| 0 <= v < |s.threads| && s.threads[v].pc.Lock? {
      u := LockOwnerMoves(cfg, s, v);
    } else if v :| 0 <= v < |s.threads| && !s.threads[v].pc.LoadSem? && !s.threads[v].pc.Done? {
      u := v;
      var due := if s.threads[v].pc.WaitStart? then cfg.txs[v].startTick else s.threads[v].next;
      n := if due > s.tick then due - s.tick else 0;
    } else {
      u := t;
    }
  }

  /** When the slots are exhausted, as many transfers as there are slots each hold one slot and wait
      for their second. */
  lemma ExhaustedBy(cfg: Config, s: State)
    requires Shape(cfg, s) && PoolInv(cfg, s) && SlotsExhausted(s)
    ensures Sum(Loads(cfg, s, None)) == cfg.poolSize <= Sum(Flags(cfg))
    ensures forall t :: 0 <= t < |s.threads| ==>
      Loads(cfg, s, None)[t] == if s.threads[t].pc == LoadSem(1) then 1 else 0
  {
    SumZero(Transits(s));
    assert InUse(s.pool.slots, None) == Sum(Loads(cfg, s, None));
    forall t | 0 <= t < |s.threads| ensures Loads(cfg, s, None)[t] <= Flags(cfg)[t] {
      if s.threads[t].pc == LoadSem(1) { assert cfg.txs[t].ops[s.threads[t].i].Transfer?; }
    }
    SumMonotone(Loads(cfg, s, None), Flags(cfg));
  }

  /** Deadlock freedom: with fewer transferring transactions than slots, and any number of others, every
      interleaving that has not ended can go on, at once or after finitely many ticks. */
  lemma DeadlockFree(cfg: Config, sched: seq<Choice>)
    requires ConfigOk(cfg) && Sum(Flags(cfg)) < cfg.poolSize
    ensures !AllDone(Exec(cfg, sched)) ==> exists n: nat, t: nat :: Enabled(cfg, Exec(cfg, sched + Ticks(n)), t)
  {
    hide Exec, RunFrom, SlotsExhausted, Enabled, PcOk, LockInv, PoolInv;
    var s := Exec(cfg, sched);
    LocksAgree(cfg, sched);
    PoolConsistent(cfg, sched);
    if t :| 0 <= t < |s.threads| && !s.threads[t].pc.Done? {
      if SlotsExhausted(s) { ExhaustedBy(cfg, s); }
      var n, u := SomeoneMoves(cfg, s, t);
      ExecThen(cfg, sched, Ticks(n));
      TicksPass(cfg, s, n);
      assert Enabled(cfg, Exec(cfg, sched + Ticks(n)), u);
    }
  }

  /** Nothing will ever move again although some transaction has not ended. */
  ghost predicate Deadlocked(cfg: Config, sched: seq<Choice>)
    requires ConfigOk(cfg)
  {
    !AllDone(Exec(cfg, sched)) &&
    forall n: nat, t: nat :: !Enabled(cfg, Exec(cfg, sched + Ticks(n)), t)
  }

  lemma ExhaustedStays(cfg: Config, s: State, n: nat, t: nat)
    requires Shape(cfg, s) && SlotsExhausted(s)
    ensures Shape(cfg, s.(tick := s.tick + n)) && !Enabled(cfg, s.(tick := s.tick + n), t)
  {
  }

  /** The only deadlock: account locks are never part of it. */
  lemma DeadlockShape(cfg: Config, sched: seq<Choice>)
    requires ConfigOk(cfg)
    ensures Deadlocked(cfg, sched) <==> !AllDone(Exec(cfg, sched)) && SlotsExhausted(Exec(cfg, sched))
  {
    hide Exec, RunFrom, SlotsExhausted, Enabled, PcOk, LockInv;
    var s := Exec(cfg, sched);
    LocksAgree(cfg, sched);
    if !AllDone(s) && !SlotsExhausted(s) {
      var t :| 0 <= t < |s.threads| && !s.threads[t].pc.Done?;
      var n, u := SomeoneMoves(cfg, s, t);
      ExecThen(cfg, sched, Ticks(n));
      TicksPass(cfg, s, n);
      assert Enabled(cfg, Exec(cfg, sched + Ticks(n)), u);
    } else if !AllDone(s) {
      forall n: nat, t: nat ensures !Enabled(cfg, Exec(cfg, sched + Ticks(n)), t) {
        ExecThen(cfg, sched, Ticks(n));
        TicksPass(cfg, s, n);
        ExhaustedStays(cfg, s, n, t);
      }
    }
  }

  // ----- every run ends -----

  /** Steps left inside the current operation; larger than any later program counter's. */
  function Rank(pc: PC): int {
    match pc
    case WaitStart => 32 case ReadStart => 31 case OpBegin => 30
    case LoadSem(k) => 29 - 2 * k case LoadSlot(k) => 28 - 2 * k
    case Lock(k) => 25 - k case Test => 23 case Debit => 22 case Credit => 21 case Read => 20
    case Unlock(k) => 17 + k case Reserve => 17 case OpEnd => 16 case WaitNext => 15
    case Unload(k) => 14 - 2 * k case Post(k) => 13 - 2 * k
    case Finish => 1 case Done => 0
  }

  function WorkOf(tx: Tx, th: Thread): int {
    if th.pc.Done? then 0 else if th.pc.Finish? then 1 else 30 * (|tx.ops| - th.i) + Rank(th.pc)
  }

  lemma WorkOfStep(tx: Tx, th: Thread, tick: int, balances: seq<int>)
    requires PcOk(tx, th, |balances|)
    ensures WorkOf(tx, th) >= 0
    ensures !th.pc.Done? ==> WorkOf(tx, NextThread(tx, th, tick, balances)) < WorkOf(tx, th)
  {
  }

  ghost function Works(cfg: Config, s: State): (xs: seq<int>)
    requires |s.threads| == |cfg.txs|
    ensures |xs| == |s.threads|
  {
    seq(|s.threads|, t requires 0 <= t < |s.threads| => WorkOf(cfg.txs[t], s.threads[t]))
  }

  /** The number of thread steps that can still happen is bounded, whatever the interleaving. */
  lemma WorkFalls(cfg: Config, s: State, t: nat)
    requires Shape(cfg, s) && Enabled(cfg, s, t)
    ensures 0 <= Sum(Works(cfg, Next(cfg, s, t))) < Sum(Works(cfg, s))
  {
    var s' := Next(cfg, s, t);
    TakeShape(cfg, s, Run(t));
    forall u | 0 <= u < |s.threads| ensures WorkOf(cfg.txs[u], s'.threads[u]) >= 0 {
      WorkOfStep(cfg.txs[u], s'.threads[u], s.tick, s.balances);
    }
    WorkOfStep(cfg.txs[t], s.threads[t], s.tick, s.balances);
    SumNonNegative(Works(cfg, s'), t);
    assert Works(cfg, s') == Works(cfg, s)[t := WorkOf(cfg.txs[t], s'.threads[t])];
    SumUpdate(Works(cfg, s), t, WorkOf(cfg.txs[t], s'.threads[t]));
  }

  lemma TickKeeps(cfg: Config, s: State, n: nat)
    requires Shape(cfg, s) && LockInv(cfg, s) && PoolInv(cfg, s)
    ensures var s' := s.(tick := s.tick + n);
      Shape(cfg, s') && LockInv(cfg, s') && PoolInv(cfg, s') && Works(cfg, s') == Works(cfg, s)
  {
    var s' := s.(tick := s.tick + n);
    forall a | 0 <= a < |s.locks| ensures LockOk(cfg, s', a) { assert LockOk(cfg, s, a); }
    assert Transits(s') == Transits(s);
    forall p ensures InUse(s'.pool.slots, p) == Sum(Loads(cfg, s', p)) { assert Loads(cfg, s', p) == Loads(cfg, s, p); }
  }

  lemma {:induction false} CanFinishFrom(cfg: Config, s: State) returns (more: seq<Choice>)
    requires Shape(cfg, s) && LockInv(cfg, s) && PoolInv(cfg, s) && Sum(Flags(cfg)) < cfg.poolSize
    ensures AllDone(RunFrom(cfg, s, more))
    decreases Sum(Works(cfg, s))
  {
    if t :| 0 <= t < |s.threads| && !s.threads[t].pc.Done? {
      if SlotsExhausted(s) { ExhaustedBy(cfg, s); }
      var n, u := SomeoneMoves(cfg, s, t);
      var s1 := s.(tick := s.tick + n);
      TickKeeps(cfg, s, n);
      TicksPass(cfg, s, n);
      LockStep(cfg, s1, u);
      PoolStep(cfg, s1, u);
      WorkFalls(cfg, s1, u);
      var rest := CanFinishFrom(cfg, Next(cfg, s1, u));
      RunThen(cfg, s, Ticks(n), [Run(u)] + rest);
      assert ([Run(u)] + rest)[1..] == rest;
      more := Ticks(n) + ([Run(u)] + rest);
    } else {
      more := [];
    }
  }

  /** With fewer transferring transactions than slots, every reachable state can be run to the end. */
  lemma CanFinish(cfg: Config, sched: seq<Choice>) returns (more: seq<Choice>)
    requires ConfigOk(cfg) && Sum(Flags(cfg)) < cfg.poolSize
    ensures AllDone(Exec(cfg, sched + more))
  {
    LocksAgree(cfg, sched);
    PoolConsistent(cfg, sched);
    more := CanFinishFrom(cfg, Exec(cfg, sched));
    ExecThen(cfg, sched, more);
  }

  // ----- ticks -----

  /** Ticks the thread has certainly seen since it started: one per finished operation, plus the ticks
      it recorded as waiting. */
  function Seen(th: Thread): int {
    th.actualStart + th.waitTicks + th.i
  }

  predicate TimeOk(tx: Tx, th: Thread, tick: int) {
    && (!th.pc.WaitStart? ==> tick >= tx.startTick)
    && (!th.pc.WaitStart? && !th.pc.ReadStart? ==> th.actualStart >= tx.startTick)
    && match th.pc
       case WaitStart => th.waitTicks == 0
       case ReadStart => th.waitTicks == 0
       case OpBegin => tick >= Seen(th)
       case WaitNext => th.next >= Seen(th) + 1
       case Unload(_) => tick >= Seen(th) + if th.ok then 1 else 0
       case Post(_) => tick >= Seen(th) + if th.ok then 1 else 0
       case Finish => tick >= Seen(th)
       case Done => th.actualEnd >= Seen(th)
       case _ => tick >= th.before >= Seen(th)
  }

  lemma TimeStep(cfg: Config, s: State, t: nat)
    requires Shape(cfg, s) && Enabled(cfg, s, t) && TimeOk(cfg.txs[t], s.threads[t], s.tick)
    ensures TimeOk(cfg.txs[t], Next(cfg, s, t).threads[t], s.tick)
  {
  }

  lemma {:induction false} TimeKept(cfg: Config, sched: seq<Choice>, t: nat)
    requires ConfigOk(cfg) && t < |cfg.txs|
    ensures TimeOk(cfg.txs[t], Exec(cfg, sched).threads[t], Exec(cfg, sched).tick)
  {
    if |sched| > 0 {
      var s, c := Exec(cfg, sched[..|sched| - 1]), sched[|sched| - 1];
      TimeKept(cfg, sched[..|sched| - 1], t);
      if c == Run(t) && Enabled(cfg, s, t) { TimeStep(cfg, s, t); }
    }
  }

  /** Tick lower bound, under any interleaving with the timer: a transaction starts no earlier than its
      start tick; a committed one spans its recorded waiting plus one tick per operation, and one
      aborted at operation i spans its recorded waiting plus i ticks. */
  lemma TickLowerBound(cfg: Config, sched: seq<Choice>, t: nat)
    requires ConfigOk(cfg) && t < |cfg.txs| && Exec(cfg, sched).threads[t].pc.Done?
    ensures var th := Exec(cfg, sched).threads[t];
      && th.actualStart >= cfg.txs[t].startTick
      && th.actualEnd - th.actualStart >= th.waitTicks + if th.ok then |cfg.txs[t].ops| else th.i
  {
    TimeKept(cfg, sched, t);
    assert PcOk(cfg.txs[t], Exec(cfg, sched).threads[t], |cfg.initial|);
  }
}
