/** The bound on transfers is sharp: a deadlock on the pool can be reached as soon as enough transactions
    get to a transfer, whatever they do before it. */
module BankDeadlock {
  import opened Wrappers
  import opened BankModel
  import opened BankLocks
  import opened BankPool
  import opened BankProgress
  import opened Sums
  import BankLedger

  // ----- what a transaction does before its first transfer -----

  /** Index of the first transfer, or |ops|. */
  function FirstTransfer(ops: seq<Op>): (j: nat)
    ensures j <= |ops|
    ensures forall i :: 0 <= i < j ==> !ops[i].Transfer?
    ensures j < |ops| ==> ops[j].Transfer?
  {
    if |ops| == 0 || ops[0].Transfer? then 0 else 1 + FirstTransfer(ops[1..])
  }

  /** The balances after an operation that nothing interferes with. */
  function Effect(op: Op, balances: seq<int>): (b: seq<int>)
    requires OpOk(op, |balances|)
    ensures |b| == |balances|
  {
    BankLedger.Apply(BankLedger.Book(balances, 0), op).0.balances
  }

  /** The operation succeeds when nothing interferes with it. */
  predicate Passes(op: Op, balances: seq<int>)
    requires OpOk(op, |balances|)
  {
    !BankLedger.Apply(BankLedger.Book(balances, 0), op).1.Failure?
  }

  /** The balances after the operations have run alone, one after the other, if none of them fails. */
  function RunAlone(balances: seq<int>, ops: seq<Op>): (r: Option<seq<int>>)
    requires forall op :: op in ops ==> OpOk(op, |balances|)
    ensures r.Some? ==> |r.value| == |balances|
    decreases |ops|
  {
    if |ops| == 0 then Some(balances)
    else if Passes(ops[0], balances) then RunAlone(Effect(ops[0], balances), ops[1..])
    else None
  }

  /** Run alone on these balances, the transaction gets to its first transfer. */
  predicate Joins(tx: Tx, balances: seq<int>)
    requires TxOk(tx, |balances|)
  {
    FirstTransfer(tx.ops) < |tx.ops| && RunAlone(balances, tx.ops[..FirstTransfer(tx.ops)]).Some?
  }

  /** Of the first m transactions, how many get to their first transfer when they run up to it one after
      the other in input order, and the balances this leaves. The others are passed over. */
  function Lineup(cfg: Config, m: nat): (r: (nat, seq<int>))
    requires ConfigOk(cfg) && m <= |cfg.txs|
    ensures |r.1| == |cfg.initial| && r.0 <= m
  {
    if m == 0 then (0, cfg.initial) else
      var (n, b) := Lineup(cfg, m - 1);
      var tx := cfg.txs[m - 1];
      if Joins(tx, b) then (n + 1, RunAlone(b, tx.ops[..FirstTransfer(tx.ops)]).value) else (n, b)
  }

  // ----- steps of one thread -----

  /** Thread t moves to pc at operation i and takes so many permits; nothing else it shares changes. */
  ghost predicate Moves(s: State, s': State, t: nat, pc: PC, i: nat, taken: nat) {
    && t < |s.threads| == |s'.threads| && s'.threads == s.threads[t := s'.threads[t]]
    && s'.threads[t].pc == pc && s'.threads[t].i == i && s'.threads[t].ok == s.threads[t].ok
    && s'.pool.permits == s.pool.permits - taken && s'.tick == s.tick
    && s'.locks == s.locks && s'.balances == s.balances
  }

  lemma OneStep(cfg: Config, s: State, t: nat, pc: PC, taken: nat)
    requires Shape(cfg, s) && Enabled(cfg, s, t)
    requires var th, th' := s.threads[t], NextThread(cfg.txs[t], s.threads[t], s.tick, s.balances);
      th'.pc == pc && th'.i == th.i && th'.ok == th.ok
    requires var pc := s.threads[t].pc;
      pc.WaitStart? || pc.ReadStart? || pc.OpBegin? || pc.LoadSem? || pc.LoadSlot? || pc.Finish?
    requires taken == if s.threads[t].pc.LoadSem? then 1 else 0
    ensures RunFrom(cfg, s, [Run(t)]) == Next(cfg, s, t) && Moves(s, Next(cfg, s, t), t, pc, s.threads[t].i, taken)
  {
    hide NextThread, NextReserve, NextLog, PcOk;
    TakeShape(cfg, s, Run(t));
    assert [Run(t)][1..] == [];
    assert RunFrom(cfg, Take(cfg, s, Run(t)), []) == Take(cfg, s, Run(t));
  }

  ghost predicate Fresh(cfg: Config, s: State, t: nat)
    requires |s.threads| == |cfg.txs| && t < |s.threads|
  {
    s.threads[t].pc == WaitStart && s.threads[t].i == 0 && s.threads[t].ok && s.tick >= cfg.txs[t].startTick
  }

  /** A fresh thread starts. */
  lemma Begin(cfg: Config, s: State, t: nat)
    requires Shape(cfg, s) && t < |s.threads| && Fresh(cfg, s, t)
    ensures Moves(s, RunFrom(cfg, s, [Run(t), Run(t)]), t, OpBegin, 0, 0)
  {
    hide RunFrom, Next;
    OneStep(cfg, s, t, ReadStart, 0);
    OneStep(cfg, Next(cfg, s, t), t, OpBegin, 0);
    RunThen(cfg, s, [Run(t)], [Run(t)]);
    assert [Run(t)] + [Run(t)] == [Run(t), Run(t)];
  }

  /** A thread about to begin a transfer takes its first slot. */
  lemma LoadFirst(cfg: Config, s: State, t: nat)
    requires Shape(cfg, s) && t < |s.threads| && s.threads[t].pc == OpBegin && s.threads[t].ok && s.pool.permits > 0
    requires s.threads[t].i < |cfg.txs[t].ops| && cfg.txs[t].ops[s.threads[t].i].Transfer?
    ensures Moves(s, RunFrom(cfg, s, [Run(t), Run(t), Run(t)]), t, LoadSem(1), s.threads[t].i, 1)
  {
    hide RunFrom, Next;
    OneStep(cfg, s, t, LoadSem(0), 0);
    var s1 := Next(cfg, s, t);
    OneStep(cfg, s1, t, LoadSlot(0), 1);
    var s2 := Next(cfg, s1, t);
    OneStep(cfg, s2, t, LoadSem(1), 0);
    RunThen(cfg, s, [Run(t)], [Run(t)]);
    RunThen(cfg, s, [Run(t)] + [Run(t)], [Run(t)]);
    assert [Run(t)] + [Run(t)] + [Run(t)] == [Run(t), Run(t), Run(t)];
  }

  // ----- one operation run alone -----

  predicate HoldsSlot(pc: PC) {
    InOp(pc) && !pc.LoadSem?
  }

  predicate HoldsLock(pc: PC) {
    pc.Test? || pc.Debit? || pc.Credit? || pc.Read? || pc.Unlock?
  }

  predicate Written(pc: PC) {
    pc.Unlock? || pc.Reserve? || pc.OpEnd? || pc.WaitNext? || pc.Unload? || pc.Post?
  }

  /** Where thread t can be while it runs an operation alone that it began in s0: what it holds and what
      it has written is told by its program counter. */
  ghost predicate Solo(cfg: Config, s0: State, s: State, t: nat) {
    && Shape(cfg, s0) && Shape(cfg, s) && t < |s0.threads| && s.threads == s0.threads[t := s.threads[t]]
    && s0.threads[t].pc == OpBegin && s0.threads[t].ok && s0.threads[t].i < |cfg.txs[t].ops|
    && var op, th := cfg.txs[t].ops[s0.threads[t].i], s.threads[t];
      && !op.Transfer? && OpOk(op, |s0.balances|) && Passes(op, s0.balances)
      && s0.pool.permits > 0 && s0.locks[op.account] == RWLock(None, {})
      && th.ok && th.i == s0.threads[t].i && (InOp(th.pc) || th.pc == OpBegin)
      && s.tick >= s0.tick && (th.pc.WaitNext? ==> th.next <= s.tick + 1)
      && s.pool.permits == s0.pool.permits - (if HoldsSlot(th.pc) then 1 else 0)
      && s.locks == (if HoldsLock(th.pc) then
           s0.locks[op.account := Acquire(s0.locks[op.account], t, op.Balance?)] else s0.locks)
      && s.balances == if Written(th.pc) then Effect(op, s0.balances) else s0.balances
  }

  /** The operation begun in s0 is over in s. */
  ghost predicate Over(cfg: Config, s0: State, s: State, t: nat) {
    && Shape(cfg, s0) && Shape(cfg, s) && t < |s0.threads| && s.threads == s0.threads[t := s.threads[t]]
    && s0.threads[t].i < |cfg.txs[t].ops|
    && var op, th := cfg.txs[t].ops[s0.threads[t].i], s.threads[t];
      && OpOk(op, |s0.balances|)
      && th.pc == OpBegin && th.ok && th.i == s0.threads[t].i + 1
      && s.tick >= s0.tick && s.pool.permits == s0.pool.permits && s.locks == s0.locks
      && s.balances == Effect(op, s0.balances)
  }

  lemma SoloPermits(cfg: Config, s0: State, s: State, t: nat)
    requires Solo(cfg, s0, s, t) && Enabled(cfg, s, t)
    ensures Next(cfg, s, t).pool.permits == s0.pool.permits - if HoldsSlot(Next(cfg, s, t).threads[t].pc) then 1 else 0
  {
    hide NextReserve, NextLog, NextBalances, NextLocks;
  }

  lemma SoloLocks(cfg: Config, s0: State, s: State, t: nat)
    requires Solo(cfg, s0, s, t) && Enabled(cfg, s, t)
    ensures var a := cfg.txs[t].ops[s0.threads[t].i].account;
      Next(cfg, s, t).locks ==
        if HoldsLock(Next(cfg, s, t).threads[t].pc) then
          s0.locks[a := Acquire(s0.locks[a], t, cfg.txs[t].ops[s0.threads[t].i].Balance?)]
        else s0.locks
  {
    hide NextReserve, NextLog, NextBalances, NextPool;
    assert {} + {t} - {t} == {};
  }

  lemma SoloBalances(cfg: Config, s0: State, s: State, t: nat)
    requires Solo(cfg, s0, s, t) && Enabled(cfg, s, t)
    ensures var s' := Next(cfg, s, t);
      && s'.threads[t].ok
      && s'.balances == if Written(s'.threads[t].pc) || s'.threads[t].i > s0.threads[t].i
           then Effect(cfg.txs[t].ops[s0.threads[t].i], s0.balances) else s0.balances
  {
    hide NextReserve, NextLog, NextPool, NextLocks;
  }

  lemma SoloStep(cfg: Config, s0: State, s: State, t: nat)
    requires Solo(cfg, s0, s, t) && (s.threads[t].pc.WaitNext? ==> s.tick >= s.threads[t].next)
    ensures Enabled(cfg, s, t)
    ensures Solo(cfg, s0, Next(cfg, s, t), t) || Over(cfg, s0, Next(cfg, s, t), t)
  {
    hide NextReserve, NextLog, NextPool, NextLocks, NextBalances;
    TakeShape(cfg, s, Run(t));
    SoloPermits(cfg, s0, s, t);
    SoloLocks(cfg, s0, s, t);
    SoloBalances(cfg, s0, s, t);
  }

  /** Left alone, the thread finishes its operation; one tick is enough for its wait. */
  lemma {:induction false} SoloRun(cfg: Config, s0: State, s: State, t: nat) returns (cs: seq<Choice>)
    requires Solo(cfg, s0, s, t)
    ensures Over(cfg, s0, RunFrom(cfg, s, cs), t)
    decreases WorkOf(cfg.txs[t], s.threads[t])
  {
    hide Next, Solo, Over, PcOk;
    var s1 := s.(tick := s.tick + 1);
    SoloTick(cfg, s0, s, t);
    SoloStep(cfg, s0, s1, t);
    SoloWork(cfg, s0, s1, t);
    TakeShape(cfg, s1, Run(t));
    var s2 := Next(cfg, s1, t);
    var two := [Tick, Run(t)];
    assert two[1..] == [Run(t)] && [Run(t)][1..] == [];
    assert RunFrom(cfg, s2, []) == s2;
    assert RunFrom(cfg, s1, [Run(t)]) == s2;
    if Over(cfg, s0, s2, t) {
      cs := two;
    } else {
      var rest := SoloRun(cfg, s0, s2, t);
      RunThen(cfg, s, two, rest);
      cs := two + rest;
    }
  }

  lemma SoloTick(cfg: Config, s0: State, s: State, t: nat)
    requires Solo(cfg, s0, s, t)
    ensures Solo(cfg, s0, s.(tick := s.tick + 1), t) && Shape(cfg, s) && t < |s.threads|
    ensures s.threads[t].pc.WaitNext? ==> s.tick + 1 >= s.threads[t].next
  {
  }

  lemma SoloWork(cfg: Config, s0: State, s: State, t: nat)
    requires Solo(cfg, s0, s, t) && Enabled(cfg, s, t)
    ensures 0 <= WorkOf(cfg.txs[t], Next(cfg, s, t).threads[t]) < WorkOf(cfg.txs[t], s.threads[t])
  {
    TakeShape(cfg, s, Run(t));
    WorkOfStep(cfg.txs[t], s.threads[t], s.tick, s.balances);
    WorkOfStep(cfg.txs[t], Next(cfg, s, t).threads[t], s.tick, s.balances);
  }

  // ----- what comes before the first transfer -----

  /** Only thread t, the balances and the clock differ; t is about to begin operation i. */
  ghost predicate At(s0: State, s: State, t: nat, i: nat) {
    && t < |s0.threads| == |s.threads| && s.threads == s0.threads[t := s.threads[t]]
    && s.threads[t].pc == OpBegin && s.threads[t].i == i && s.threads[t].ok
    && s.tick >= s0.tick && s.pool.permits == s0.pool.permits && s.locks == s0.locks
    && |s.balances| == |s0.balances|
  }

  ghost predicate Unlocked(s: State) {
    forall a :: 0 <= a < |s.locks| ==> s.locks[a] == RWLock(None, {})
  }

  /** The thread runs alone through operations i up to, and not including, n. */
  lemma {:induction false} RunPrefix(cfg: Config, s: State, t: nat, i: nat, n: nat) returns (cs: seq<Choice>)
    requires Shape(cfg, s) && At(s, s, t, i) && Unlocked(s) && s.pool.permits > 0 && i <= n <= |cfg.txs[t].ops|
    requires forall j :: i <= j < n ==> !cfg.txs[t].ops[j].Transfer?
    requires forall op :: op in cfg.txs[t].ops[i..n] ==> OpOk(op, |s.balances|)
    requires RunAlone(s.balances, cfg.txs[t].ops[i..n]).Some?
    ensures At(s, RunFrom(cfg, s, cs), t, n)
    ensures RunFrom(cfg, s, cs).balances == RunAlone(s.balances, cfg.txs[t].ops[i..n]).value
    decreases n - i
  {
    hide Next, Over, PcOk;
    if i == n {
      cs := [];
    } else {
      var ops := cfg.txs[t].ops[i..n];
      assert ops[0] == cfg.txs[t].ops[i] && ops[1..] == cfg.txs[t].ops[i + 1..n] && ops[0] in ops;
      SoloStart(cfg, s, t);
      var first := SoloRun(cfg, s, s, t);
      var s1 := RunFrom(cfg, s, first);
      OverAt(cfg, s, s1, t);
      var rest := RunPrefix(cfg, s1, t, i + 1, n);
      RunThen(cfg, s, first, rest);
      cs := first + rest;
    }
  }

  lemma SoloStart(cfg: Config, s: State, t: nat)
    requires Shape(cfg, s) && At(s, s, t, if t < |s.threads| then s.threads[t].i else 0)
    requires Unlocked(s) && s.pool.permits > 0
    requires s.threads[t].i < |cfg.txs[t].ops| && !cfg.txs[t].ops[s.threads[t].i].Transfer?
    requires OpOk(cfg.txs[t].ops[s.threads[t].i], |s.balances|) && Passes(cfg.txs[t].ops[s.threads[t].i], s.balances)
    ensures Solo(cfg, s, s, t)
  {
    assert s.threads == s.threads[t := s.threads[t]];
  }

  lemma OverAt(cfg: Config, s0: State, s: State, t: nat)
    requires Over(cfg, s0, s, t)
    ensures At(s0, s, t, s0.threads[t].i + 1)
    ensures OpOk(cfg.txs[t].ops[s0.threads[t].i], |s0.balances|)
    ensures s.balances == Effect(cfg.txs[t].ops[s0.threads[t].i], s0.balances)
  {
  }

  // ----- one slot for each of the first transactions that get there -----

  /** Thread t is one of those that take a slot when the first m have had their turn. */
  predicate Takes(cfg: Config, t: nat, m: nat)
    requires ConfigOk(cfg) && t < |cfg.txs|
  {
    t < m && Lineup(cfg, t).0 < cfg.poolSize && Joins(cfg.txs[t], Lineup(cfg, t).1)
  }

  function Min(a: nat, b: nat): nat { if a < b then a else b }

  /** The first m transactions have had their turn: those that get to a transfer hold its first slot, up
      to the pool size; the others have not started. No account is locked. */
  ghost predicate FirstSlots(cfg: Config, s: State, m: nat) {
    && Shape(cfg, s) && m <= |s.threads| && Unlocked(s)
    && s.pool.permits == cfg.poolSize - Min(Lineup(cfg, m).0, cfg.poolSize)
    && (Lineup(cfg, m).0 < cfg.poolSize ==> s.balances == Lineup(cfg, m).1)
    && forall t :: 0 <= t < |s.threads| ==>
         if Takes(cfg, t, m) then s.threads[t].pc == LoadSem(1) else Fresh(cfg, s, t)
  }

  /** Thread t runs up to its first transfer and takes the first slot of that. */
  lemma TakeSlot(cfg: Config, s: State, t: nat) returns (cs: seq<Choice>)
    requires Shape(cfg, s) && t < |s.threads| && Fresh(cfg, s, t) && Unlocked(s) && s.pool.permits > 0
    requires Joins(cfg.txs[t], s.balances)
    ensures var s' := RunFrom(cfg, s, cs);
      && s'.threads == s.threads[t := s'.threads[t]] && s'.threads[t].pc == LoadSem(1)
      && s'.pool.permits == s.pool.permits - 1 && s'.tick >= s.tick && s'.locks == s.locks
      && s'.balances == RunAlone(s.balances, cfg.txs[t].ops[..FirstTransfer(cfg.txs[t].ops)]).value
  {
    hide RunFrom, PcOk;
    var n := FirstTransfer(cfg.txs[t].ops);
    Begin(cfg, s, t);
    var s1 := RunFrom(cfg, s, [Run(t), Run(t)]);
    assert cfg.txs[t].ops[0..n] == cfg.txs[t].ops[..n];
    assert At(s1, s1, t, 0);
    var prefix := RunPrefix(cfg, s1, t, 0, n);
    var s2 := RunFrom(cfg, s1, prefix);
    LoadFirst(cfg, s2, t);
    RunThen(cfg, s, [Run(t), Run(t)], prefix);
    RunThen(cfg, s, [Run(t), Run(t)] + prefix, [Run(t), Run(t), Run(t)]);
    cs := [Run(t), Run(t)] + prefix + [Run(t), Run(t), Run(t)];
  }

  lemma RunNothing(cfg: Config, s: State)
    requires Shape(cfg, s)
    ensures RunFrom(cfg, s, []) == s
  {
  }

  lemma LineupNext(cfg: Config, t: nat)
    requires ConfigOk(cfg) && t < |cfg.txs|
    ensures var (n, b), tx := Lineup(cfg, t), cfg.txs[t];
      Lineup(cfg, t + 1) ==
        if Joins(tx, b) then (n + 1, RunAlone(b, tx.ops[..FirstTransfer(tx.ops)]).value) else (n, b)
  {
  }

  lemma TakesNext(cfg: Config, t: nat, u: nat)
    requires ConfigOk(cfg) && t < |cfg.txs| && u < |cfg.txs|
    ensures Takes(cfg, u, t + 1) <==> Takes(cfg, u, t) || (u == t && Takes(cfg, t, t + 1))
    ensures !Takes(cfg, t, t)
  {
  }

  lemma FirstSlotsNext(cfg: Config, s: State, t: nat) returns (cs: seq<Choice>)
    requires FirstSlots(cfg, s, t) && t < |cfg.txs|
    ensures FirstSlots(cfg, RunFrom(cfg, s, cs), t + 1)
  {
    hide PcOk, Joins, RunFrom, RunAlone, FirstTransfer, Lineup;
    var s' := s;
    LineupNext(cfg, t);
    TakesNext(cfg, t, t);
    if Takes(cfg, t, t + 1) {
      cs := TakeSlot(cfg, s, t);
      s' := RunFrom(cfg, s, cs);
    } else {
      cs := [];
      RunNothing(cfg, s);
    }
    forall u | 0 <= u < |s'.threads|
      ensures if Takes(cfg, u, t + 1) then s'.threads[u].pc == LoadSem(1) else Fresh(cfg, s', u)
    {
      hide Takes;
      TakesNext(cfg, t, u);
      assert if Takes(cfg, u, t) then s.threads[u].pc == LoadSem(1) else Fresh(cfg, s, u);
    }
  }

  lemma {:induction false} TakeFirstSlots(cfg: Config, s: State, m: nat) returns (cs: seq<Choice>)
    requires FirstSlots(cfg, s, 0) && m <= |cfg.txs|
    ensures FirstSlots(cfg, RunFrom(cfg, s, cs), m)
  {
    hide FirstSlots;
    if m == 0 {
      cs := [];
      assert RunFrom(cfg, s, cs) == s by { SlotsShape(cfg, s, 0); }
    } else {
      SlotsShape(cfg, s, 0);
      var before := TakeFirstSlots(cfg, s, m - 1);
      var more := FirstSlotsNext(cfg, RunFrom(cfg, s, before), m - 1);
      RunThen(cfg, s, before, more);
      cs := before + more;
    }
  }

  lemma SlotsShape(cfg: Config, s: State, m: nat)
    requires FirstSlots(cfg, s, m)
    ensures Shape(cfg, s)
  {
  }

  // ----- the others wait behind them -----

  /** With no permit left a fresh thread waits at its first load, or ends if it has nothing to do. */
  lemma Park(cfg: Config, s: State, t: nat)
    requires Shape(cfg, s) && t < |s.threads| && Fresh(cfg, s, t) && s.pool.permits == 0
    ensures var s' := RunFrom(cfg, s, [Run(t), Run(t), Run(t), Run(t)]);
      Moves(s, s', t, if |cfg.txs[t].ops| > 0 then LoadSem(0) else Done, 0, 0)
  {
    hide RunFrom, Next;
    Begin(cfg, s, t);
    var s2 := RunFrom(cfg, s, [Run(t), Run(t)]);
    OneStep(cfg, s2, t, if |cfg.txs[t].ops| > 0 then LoadSem(0) else Finish, 0);
    var s3 := Next(cfg, s2, t);
    if |cfg.txs[t].ops| == 0 { OneStep(cfg, s3, t, Done, 0); } else { Blocked(cfg, s3, t); }
    RunThen(cfg, s, [Run(t), Run(t)], [Run(t)]);
    RunThen(cfg, s, [Run(t), Run(t)] + [Run(t)], [Run(t)]);
    assert [Run(t), Run(t)] + [Run(t)] + [Run(t)] == [Run(t), Run(t), Run(t), Run(t)];
  }

  lemma Blocked(cfg: Config, s: State, t: nat)
    requires Shape(cfg, s) && !Enabled(cfg, s, t)
    ensures RunFrom(cfg, s, [Run(t)]) == s
  {
    assert [Run(t)][1..] == [];
    assert RunFrom(cfg, Take(cfg, s, Run(t)), []) == s;
  }

  /** Of the first m threads those that have not started come to wait for a slot, or end. */
  lemma {:induction false} ParkOthers(cfg: Config, s: State, m: nat) returns (cs: seq<Choice>)
    requires Shape(cfg, s) && s.pool.permits == 0 && m <= |s.threads|
    requires forall t :: 0 <= t < |s.threads| ==> s.threads[t].pc.LoadSem? || Fresh(cfg, s, t)
    ensures var s' := RunFrom(cfg, s, cs);
      && s'.pool.permits == 0 && s'.tick == s.tick
      && (forall t :: 0 <= t < m ==> s'.threads[t].pc.LoadSem? || s'.threads[t].pc.Done?)
      && (forall t :: 0 <= t < |s.threads| && s.threads[t].pc.LoadSem? ==> s'.threads[t] == s.threads[t])
      && (forall t :: m <= t < |s.threads| ==> s'.threads[t] == s.threads[t])
  {
    hide PcOk;
    if m == 0 { return []; }
    cs := ParkOthers(cfg, s, m - 1);
    var s1 := RunFrom(cfg, s, cs);
    var t := m - 1;
    if Fresh(cfg, s1, t) {
      Park(cfg, s1, t);
      RunThen(cfg, s, cs, [Run(t), Run(t), Run(t), Run(t)]);
      cs := cs + [Run(t), Run(t), Run(t), Run(t)];
    }
  }

  lemma {:induction false} SomebodyTakes(cfg: Config, m: nat) returns (t: nat)
    requires ConfigOk(cfg) && 0 < cfg.poolSize && m <= |cfg.txs| && Lineup(cfg, m).0 > 0
    ensures t < m && Takes(cfg, t, m)
  {
    if Lineup(cfg, m - 1).0 > 0 { t := SomebodyTakes(cfg, m - 1); } else { t := m - 1; }
  }

  lemma StartSlots(cfg: Config, n: nat)
    requires ConfigOk(cfg) && n >= LastStart(cfg.txs)
    ensures Shape(cfg, Exec(cfg, []).(tick := n)) && FirstSlots(cfg, Exec(cfg, []).(tick := n), 0)
  {
  }

  /** For any workload: when at least as many transactions as there are slots get to a transfer, running
      up to it one after the other in input order, some interleaving deadlocks on the pool, although
      account locks are ordered. */
  lemma DeadlockReachable(cfg: Config) returns (sched: seq<Choice>)
    requires ConfigOk(cfg) && 0 < cfg.poolSize <= Lineup(cfg, |cfg.txs|).0
    ensures Deadlocked(cfg, sched)
  {
    hide Lineup, PcOk, RunFrom, Exec, Joins;
    var n := LastStart(cfg.txs);
    var s := Exec(cfg, []).(tick := n);
    StartSlots(cfg, n);
    ExecThen(cfg, [], Ticks(n));
    TicksPass(cfg, Exec(cfg, []), n);
    StartTick(cfg);
    var cs := TakeFirstSlots(cfg, s, |cfg.txs|);
    var s1 := RunFrom(cfg, s, cs);
    var ds := ParkOthers(cfg, s1, |cfg.txs|);
    ExecThen(cfg, [] + Ticks(n), cs);
    ExecThen(cfg, [] + Ticks(n) + cs, ds);
    sched := [] + Ticks(n) + cs + ds;
    var t := SomebodyTakes(cfg, |cfg.txs|);
    assert Exec(cfg, sched).threads[t] == s1.threads[t];
    DeadlockShape(cfg, sched);
  }

  lemma StartTick(cfg: Config)
    requires ConfigOk(cfg)
    ensures Exec(cfg, []).tick == 0
  {
  }

  // ----- exactly when a deadlock is possible -----

  /** Every transaction that transfers gets to its first transfer when the transactions run up to their
      first transfers one after the other in input order: its withdrawals before that are covered. */
  ghost predicate PrefixesCovered(cfg: Config)
    requires ConfigOk(cfg)
  {
    forall t :: 0 <= t < |cfg.txs| && Transfers(cfg.txs[t]) ==> Joins(cfg.txs[t], Lineup(cfg, t).1)
  }

  lemma {:induction false} LineupIsFlags(cfg: Config, m: nat)
    requires ConfigOk(cfg) && m <= |cfg.txs| && PrefixesCovered(cfg)
    ensures Lineup(cfg, m).0 == Sum(Flags(cfg)[..m])
  {
    hide RunAlone;
    if m > 0 {
      LineupIsFlags(cfg, m - 1);
      assert Flags(cfg)[..m] == Flags(cfg)[..m - 1] + [Flags(cfg)[m - 1]];
      SumAppend(Flags(cfg)[..m - 1], Flags(cfg)[m - 1]);
      var tx := cfg.txs[m - 1];
      assert Joins(tx, Lineup(cfg, m - 1).1) ==> tx.ops[FirstTransfer(tx.ops)].Transfer?;
    }
  }

  /** Exactly when a deadlock is possible, for workloads whose withdrawals before a first transfer are
      covered: iff at least as many transactions transfer as there are slots. */
  lemma DeadlockIffCovered(cfg: Config)
    requires ConfigOk(cfg) && 0 < cfg.poolSize && PrefixesCovered(cfg)
    ensures (exists sched :: Deadlocked(cfg, sched)) <==> cfg.poolSize <= Sum(Flags(cfg))
  {
    hide Deadlocked, Lineup;
    LineupIsFlags(cfg, |cfg.txs|);
    assert Flags(cfg)[..|cfg.txs|] == Flags(cfg);
    if cfg.poolSize <= Sum(Flags(cfg)) {
      var sched := DeadlockReachable(cfg);
    } else {
      forall sched ensures !Deadlocked(cfg, sched) { NoDeadlock(cfg, sched); }
    }
  }

  lemma NoDeadlock(cfg: Config, sched: seq<Choice>)
    requires ConfigOk(cfg) && Sum(Flags(cfg)) < cfg.poolSize
    ensures !Deadlocked(cfg, sched)
  {
    DeadlockFree(cfg, sched);
  }

  /** No withdrawal comes before the transaction's first transfer. */
  predicate TransfersBeforeWithdrawing(tx: Tx) {
    FirstTransfer(tx.ops) < |tx.ops| ==> forall j :: 0 <= j < FirstTransfer(tx.ops) ==> !tx.ops[j].Withdraw?
  }

  /** Deposits and balance reads never fail. */
  lemma {:induction false} HarmlessPrefix(balances: seq<int>, ops: seq<Op>)
    requires forall op :: op in ops ==> OpOk(op, |balances|)
    requires forall j :: 0 <= j < |ops| ==> !ops[j].Withdraw? && !ops[j].Transfer?
    ensures RunAlone(balances, ops).Some?
    decreases |ops|
  {
    if |ops| > 0 { HarmlessPrefix(Effect(ops[0], balances), ops[1..]); }
  }

  /** Exactly when a deadlock is possible, for workloads in which no transaction withdraws before its
      first transfer. */
  lemma DeadlockIff(cfg: Config)
    requires ConfigOk(cfg) && 0 < cfg.poolSize
    requires forall t :: 0 <= t < |cfg.txs| ==> TransfersBeforeWithdrawing(cfg.txs[t])
    ensures (exists sched :: Deadlocked(cfg, sched)) <==> cfg.poolSize <= Sum(Flags(cfg))
  {
    hide Deadlocked, Lineup;
    forall t | 0 <= t < |cfg.txs| && Transfers(cfg.txs[t]) ensures Joins(cfg.txs[t], Lineup(cfg, t).1) {
      HarmlessPrefix(Lineup(cfg, t).1, cfg.txs[t].ops[..FirstTransfer(cfg.txs[t].ops)]);
    }
    DeadlockIffCovered(cfg);
  }
}
