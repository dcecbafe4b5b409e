/** The concurrent bank: one small program per transaction thread, interleaved with a timer.

    A state is everything the threads share plus each thread's own variables and program counter.
    `Next` is one step of one thread; `Exec` runs a schedule, so the set of all schedules is the set
    of all interleavings. A critical section guarded by a mutex that no thread ever blocks in
    (tick_lock, pool_lock) is one step; reader-writer locks, the semaphore and the tick waits block. */
module BankModel {
  import opened Wrappers

  datatype Op =
    | Deposit(account: nat, amount: int)
    | Withdraw(account: nat, amount: int)
    | Transfer(from: nat, to: nat, amount: int)
    | Balance(account: nat)

  datatype Tx = Tx(startTick: int, ops: seq<Op>)

  /** The parsed input: transactions, number of pool slots, initial balance of every account. */
  datatype Config = Config(txs: seq<Tx>, poolSize: nat, initial: seq<int>)

  datatype Status = Running | Committed | Aborted

  /** Program counters of `execute_transaction` with the functions it calls inlined.
      In `LoadSem(k)`, `LoadSlot(k)` and `Lock(k)`, k counts what has been acquired so far; in
      `Unlock(k)`, k account locks are still held; `Unload(k)` and `Post(k)` count slots returned. */
  datatype PC =
    | WaitStart | ReadStart | OpBegin
    | LoadSem(k: nat) | LoadSlot(k: nat)
    | Lock(k: nat) | Test | Debit | Credit | Read | Unlock(k: nat) | Reserve
    | OpEnd | WaitNext | Unload(k: nat) | Post(k: nat)
    | Finish | Done

  datatype Thread = Thread(
    pc: PC, i: nat, before: int, next: int, ok: bool,
    actualStart: int, actualEnd: int, waitTicks: int, status: Status)

  datatype RWLock = RWLock(writer: Option<nat>, readers: set<nat>)

  datatype Slot = Slot(account: nat, inUse: bool)

  datatype Pool = Pool(slots: seq<Slot>, permits: nat, loads: int, unloads: int, usage: int, peak: int)

  /** What an operation reports to its caller. */
  datatype Outcome = Success | Failure | Value(v: int)

  /** One operation taking effect; the log is a history variable that no step reads. */
  datatype Entry = Entry(tid: nat, op: Op, out: Outcome)

  datatype State = State(
    tick: int, balances: seq<int>, reserve: int, locks: seq<RWLock>, pool: Pool,
    threads: seq<Thread>, log: seq<Entry>)

  // ----- operations -----

  /** A transfer between an account and itself returns before it takes any lock. */
  predicate SelfTransfer(op: Op) {
    op.Transfer? && op.from == op.to
  }

  /** Accounts loaded into the pool, in loading order; a transfer loads the smaller id first. */
  function SlotAccounts(op: Op): seq<nat> {
    match op
    case Transfer(f, t, _) => if f < t then [f, t] else [t, f]
    case _ => [op.account]
  }

  /** Accounts locked, in locking order. */
  function LockAccounts(op: Op): seq<nat> {
    if SelfTransfer(op) then [] else SlotAccounts(op)
  }

  /** The commit path returns the second slot first; the abort path keeps the loading order. */
  function UnloadAccounts(op: Op, ok: bool): seq<nat> {
    var a := SlotAccounts(op);
    if ok && |a| == 2 then [a[1], a[0]] else a
  }

  /** The account whose balance is tested and debited. */
  function Source(op: Op): nat {
    if op.Transfer? then op.from else op.account
  }

  function Amount(op: Op): int {
    if op.Balance? then 0 else op.amount
  }

  /** Account ids are below n, the number of accounts. */
  predicate OpOk(op: Op, n: nat) {
    Source(op) < n && (op.Transfer? ==> op.to < n)
  }

  predicate TxOk(tx: Tx, n: nat) {
    forall op :: op in tx.ops ==> OpOk(op, n)
  }

  predicate ConfigOk(cfg: Config) {
    forall t :: 0 <= t < |cfg.txs| ==> TxOk(cfg.txs[t], |cfg.initial|)
  }

  // ----- program counters -----

  predicate InOp(pc: PC) {
    !pc.WaitStart? && !pc.ReadStart? && !pc.OpBegin? && !pc.Finish? && !pc.Done?
  }

  function AfterLoad(op: Op): PC {
    if SelfTransfer(op) then OpEnd else Lock(0)
  }

  function AfterLocks(op: Op): PC {
    match op
    case Deposit(_, _) => Credit
    case Balance(_) => Read
    case _ => Test
  }

  function AfterUnlock(op: Op, ok: bool): PC {
    if !ok then Unload(0) else if op.Deposit? || op.Withdraw? then Reserve else OpEnd
  }

  /** The program counters a thread can be at, given the operation it is executing; n is the number of
      accounts. */
  predicate PcOk(tx: Tx, th: Thread, n: nat) {
    && th.i <= |tx.ops|
    && (InOp(th.pc) || !th.ok ==> th.i < |tx.ops| && OpOk(tx.ops[th.i], n))
    && (!th.ok ==>
          && (th.pc.Unlock? || th.pc.Unload? || th.pc.Post? || th.pc.Finish? || th.pc.Done?)
          && (tx.ops[th.i].Withdraw? || (tx.ops[th.i].Transfer? && !SelfTransfer(tx.ops[th.i]))))
    && match th.pc
       case WaitStart => th.i == 0
       case ReadStart => th.i == 0
       case OpBegin => true
       case LoadSem(k) => k < |SlotAccounts(tx.ops[th.i])|
       case LoadSlot(k) => k < |SlotAccounts(tx.ops[th.i])|
       case Lock(k) => k < |LockAccounts(tx.ops[th.i])|
       case Test => tx.ops[th.i].Withdraw? || (tx.ops[th.i].Transfer? && !SelfTransfer(tx.ops[th.i]))
       case Debit => tx.ops[th.i].Withdraw? || (tx.ops[th.i].Transfer? && !SelfTransfer(tx.ops[th.i]))
       case Credit => tx.ops[th.i].Deposit? || (tx.ops[th.i].Transfer? && !SelfTransfer(tx.ops[th.i]))
       case Read => tx.ops[th.i].Balance?
       case Unlock(k) => 1 <= k <= |LockAccounts(tx.ops[th.i])|
       case Reserve => tx.ops[th.i].Deposit? || tx.ops[th.i].Withdraw?
       case Unload(k) => k < |SlotAccounts(tx.ops[th.i])|
       case Post(k) => k < |SlotAccounts(tx.ops[th.i])|
       case Finish => th.ok ==> th.i == |tx.ops|
       case Done => th.ok ==> th.i == |tx.ops|
       case _ => true
  }

  ghost predicate Shape(cfg: Config, s: State) {
    && ConfigOk(cfg)
    && |s.balances| == |s.locks| == |cfg.initial|
    && |s.threads| == |cfg.txs|
    && |s.pool.slots| == cfg.poolSize
    && forall t :: 0 <= t < |s.threads| ==> PcOk(cfg.txs[t], s.threads[t], |cfg.initial|)
  }

  // ----- the buffer pool -----

  /** Index of the first slot the scan of `load_account` accepts, or |slots| when there is none. */
  function FirstFree(slots: seq<Slot>): (k: nat)
    ensures k <= |slots|
    ensures forall j :: 0 <= j < k ==> slots[j].inUse
    ensures k < |slots| ==> !slots[k].inUse
  {
    if |slots| == 0 || !slots[0].inUse then 0 else 1 + FirstFree(slots[1..])
  }

  /** Index of the first slot the scan of `unload_account` accepts, or |slots| when there is none. */
  function FirstHolding(slots: seq<Slot>, a: nat): (k: nat)
    ensures k <= |slots|
    ensures forall j :: 0 <= j < k ==> !(slots[j].inUse && slots[j].account == a)
    ensures k < |slots| ==> slots[k].inUse && slots[k].account == a
  {
    if |slots| == 0 || (slots[0].inUse && slots[0].account == a) then 0
    else 1 + FirstHolding(slots[1..], a)
  }

  /** `load_account` between lock and unlock of pool_lock; the permit is already taken. */
  function LoadPool(p: Pool, a: nat): Pool {
    var k := FirstFree(p.slots);
    p.(loads := p.loads + 1,
       usage := p.usage + 1,
       peak := if p.usage + 1 > p.peak then p.usage + 1 else p.peak,
       slots := if k < |p.slots| then p.slots[k := Slot(a, true)] else p.slots)
  }

  /** `unload_account` between lock and unlock of pool_lock; the permit is posted afterwards. */
  function UnloadPool(p: Pool, a: nat): Pool {
    var k := FirstHolding(p.slots, a);
    p.(unloads := p.unloads + 1,
       usage := p.usage - 1,
       slots := if k < |p.slots| then p.slots[k := p.slots[k].(inUse := false)] else p.slots)
  }

  // ----- account locks -----

  predicate CanLock(l: RWLock, read: bool) {
    l.writer.None? && (read || l.readers == {})
  }

  function Acquire(l: RWLock, t: nat, read: bool): RWLock {
    if read then l.(readers := l.readers + {t}) else l.(writer := Some(t))
  }

  function Release(l: RWLock, t: nat, read: bool): RWLock {
    if read then l.(readers := l.readers - {t}) else l.(writer := None)
  }

  // ----- steps -----

  /** The step at a thread's program counter does not block. */
  ghost predicate Enabled(cfg: Config, s: State, t: nat)
    requires Shape(cfg, s)
  {
    t < |s.threads| &&
    var tx, th := cfg.txs[t], s.threads[t];
    match th.pc
    case WaitStart => s.tick >= tx.startTick
    case LoadSem(_) => s.pool.permits > 0
    case Lock(k) => CanLock(s.locks[LockAccounts(tx.ops[th.i])[k]], tx.ops[th.i].Balance?)
    case WaitNext => s.tick >= th.next
    case Done => false
    case _ => true
  }

  /** The thread's own part of a step: where it goes next and what it writes to its own variables. */
  function NextThread(tx: Tx, th: Thread, tick: int, balances: seq<int>): Thread
    requires PcOk(tx, th, |balances|)
  {
    match th.pc
    case WaitStart => th.(pc := ReadStart)
    case ReadStart => th.(pc := OpBegin, actualStart := tick, status := Running)
    case OpBegin => if th.i < |tx.ops| then th.(pc := LoadSem(0), before := tick) else th.(pc := Finish)
    case Finish => th.(pc := Done, actualEnd := tick, status := if th.ok then Committed else Aborted)
    case Done => th
    case LoadSem(k) => th.(pc := LoadSlot(k))
    case LoadSlot(k) =>
      var op := tx.ops[th.i];
      th.(pc := if k + 1 < |SlotAccounts(op)| then LoadSem(k + 1) else AfterLoad(op))
    case Lock(k) =>
      var op := tx.ops[th.i];
      th.(pc := if k + 1 < |LockAccounts(op)| then Lock(k + 1) else AfterLocks(op))
    case Test =>
      var op := tx.ops[th.i];
      if balances[Source(op)] < op.amount then th.(pc := Unlock(|LockAccounts(op)|), ok := false)
      else th.(pc := Debit)
    case Debit => th.(pc := if tx.ops[th.i].Transfer? then Credit else Unlock(1))
    case Credit => th.(pc := Unlock(|LockAccounts(tx.ops[th.i])|))
    case Read => th.(pc := Unlock(1))
    case Unlock(k) => th.(pc := if k > 1 then Unlock(k - 1) else AfterUnlock(tx.ops[th.i], th.ok))
    case Reserve => th.(pc := OpEnd)
    case OpEnd => th.(pc := WaitNext, next := tick + 1, waitTicks := th.waitTicks + (tick - th.before))
    case WaitNext => th.(pc := Unload(0))
    case Unload(k) => th.(pc := Post(k))
    case Post(k) =>
      if k + 1 < |SlotAccounts(tx.ops[th.i])| then th.(pc := Unload(k + 1))
      else if th.ok then th.(pc := OpBegin, i := th.i + 1)
      else th.(pc := Finish)
  }

  /** The account a Debit or Credit step changes, and by how much. */
  function Delta(op: Op, pc: PC): (nat, int) {
    if pc.Debit? then (Source(op), -Amount(op))
    else if pc.Credit? then (if op.Transfer? then op.to else op.account, Amount(op))
    else (Source(op), 0)
  }

  function NextBalances(tx: Tx, th: Thread, balances: seq<int>): seq<int>
    requires PcOk(tx, th, |balances|)
  {
    if th.pc.Debit? || th.pc.Credit? then
      var (a, d) := Delta(tx.ops[th.i], th.pc);
      balances[a := balances[a] + d]
    else balances
  }

  /** The reserve moves the other way, in one atomic step after the account lock is gone. */
  function NextReserve(tx: Tx, th: Thread, n: nat, reserve: int): int
    requires PcOk(tx, th, n)
  {
    if th.pc.Reserve? then
      var op := tx.ops[th.i];
      if op.Deposit? then reserve - op.amount else reserve + op.amount
    else reserve
  }

  function NextLocks(tx: Tx, th: Thread, t: nat, locks: seq<RWLock>): seq<RWLock>
    requires PcOk(tx, th, |locks|)
  {
    match th.pc
    case Lock(k) =>
      var op := tx.ops[th.i];
      var a := LockAccounts(op)[k];
      locks[a := Acquire(locks[a], t, op.Balance?)]
    case Unlock(k) =>
      var op := tx.ops[th.i];
      var a := LockAccounts(op)[k - 1];
      locks[a := Release(locks[a], t, op.Balance?)]
    case _ => locks
  }

  function NextPool(tx: Tx, th: Thread, n: nat, pool: Pool): Pool
    requires PcOk(tx, th, n)
    requires th.pc.LoadSem? ==> pool.permits > 0
  {
    match th.pc
    case LoadSem(_) => pool.(permits := pool.permits - 1)
    case LoadSlot(k) => LoadPool(pool, SlotAccounts(tx.ops[th.i])[k])
    case Unload(k) => UnloadPool(pool, UnloadAccounts(tx.ops[th.i], th.ok)[k])
    case Post(_) => pool.(permits := pool.permits + 1)
    case _ => pool
  }

  /** The operation takes effect in this step: the last write or the only read under its locks, the
      failing test, or the return of a transfer that locks nothing. */
  predicate TakesEffect(tx: Tx, th: Thread, balances: seq<int>)
    requires PcOk(tx, th, |balances|)
  {
    InOp(th.pc) &&
    var op := tx.ops[th.i];
    match th.pc
    case LoadSlot(k) => SelfTransfer(op) && k + 1 == |SlotAccounts(op)|
    case Test => balances[Source(op)] < op.amount
    case Debit => op.Withdraw?
    case Credit => true
    case Read => true
    case _ => false
  }

  function NextLog(tx: Tx, th: Thread, t: nat, balances: seq<int>, log: seq<Entry>): seq<Entry>
    requires PcOk(tx, th, |balances|)
  {
    if TakesEffect(tx, th, balances) then
      var op := tx.ops[th.i];
      log + [Entry(t, op, if th.pc.Test? then Failure
                          else if th.pc.Read? then Value(balances[op.account])
                          else Success)]
    else log
  }

  /** One step of thread t. */
  ghost function Next(cfg: Config, s: State, t: nat): State
    requires Shape(cfg, s) && Enabled(cfg, s, t)
  {
    var tx, th := cfg.txs[t], s.threads[t];
    s.(threads := s.threads[t := NextThread(tx, th, s.tick, s.balances)],
       balances := NextBalances(tx, th, s.balances),
       reserve := NextReserve(tx, th, |cfg.initial|, s.reserve),
       locks := NextLocks(tx, th, t, s.locks),
       pool := NextPool(tx, th, |cfg.initial|, s.pool),
       log := NextLog(tx, th, t, s.balances, s.log))
  }

  /** What the scheduler picks: the timer, or a thread (which makes no progress while it is blocked). */
  datatype Choice = Tick | Run(t: nat)

  ghost function Take(cfg: Config, s: State, c: Choice): State
    requires Shape(cfg, s)
  {
    match c
    case Tick => s.(tick := s.tick + 1)
    case Run(t) => if Enabled(cfg, s, t) then Next(cfg, s, t) else s
  }

  function InitPool(n: nat): Pool {
    Pool(seq(n, i => Slot(0, false)), n, 0, 0, 0, 0)
  }

  function Init(cfg: Config): State {
    State(0, cfg.initial, 0, seq(|cfg.initial|, i => RWLock(None, {})), InitPool(cfg.poolSize),
          seq(|cfg.txs|, i => Thread(WaitStart, 0, 0, 0, true, 0, 0, 0, Running)), [])
  }

  lemma NextPcOk(tx: Tx, th: Thread, tick: int, balances: seq<int>)
    requires TxOk(tx, |balances|) && PcOk(tx, th, |balances|)
    ensures PcOk(tx, NextThread(tx, th, tick, balances), |balances|)
  {
  }

  lemma TakeShape(cfg: Config, s: State, c: Choice)
    requires Shape(cfg, s)
    ensures Shape(cfg, Take(cfg, s, c))
  {
    if c.Run? && Enabled(cfg, s, c.t) {
      NextPcOk(cfg.txs[c.t], s.threads[c.t], s.tick, s.balances);
    }
  }

  /** The state after a schedule; every interleaving of the threads and the timer is one schedule. */
  ghost function Exec(cfg: Config, sched: seq<Choice>): (s: State)
    requires ConfigOk(cfg)
    ensures Shape(cfg, s)
  {
    if |sched| == 0 then Init(cfg) else
      var s := Exec(cfg, sched[..|sched| - 1]);
      TakeShape(cfg, s, sched[|sched| - 1]);
      Take(cfg, s, sched[|sched| - 1])
  }
}
