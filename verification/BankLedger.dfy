/** Refinement to atomic operations. Every interleaving of the fine-grained steps is explained by
    replaying the operations one at a time, each in the order in which it took effect under its
    locks; money is conserved along the way and balances never go negative. */
module BankLedger {
  import opened Wrappers
  import opened BankModel
  import opened BankLocks
  import opened BankPool
  import opened Sums

  // ----- the sequential bank -----

  datatype Book = Book(balances: seq<int>, reserve: int)

  /** deposit, withdraw, transfer and get_balance run alone, from call to return. */
  function Apply(b: Book, op: Op): (r: (Book, Outcome))
    requires OpOk(op, |b.balances|)
    ensures |r.0.balances| == |b.balances|
  {
    match op
    case Deposit(a, x) => (Book(b.balances[a := b.balances[a] + x], b.reserve - x), Success)
    case Withdraw(a, x) =>
      if b.balances[a] < x then (b, Failure)
      else (Book(b.balances[a := b.balances[a] - x], b.reserve + x), Success)
    case Transfer(f, t, x) =>
      if f == t then (b, Success)
      else if b.balances[f] < x then (b, Failure)
      else (b.(balances := b.balances[f := b.balances[f] - x][t := b.balances[t] + x]), Success)
    case Balance(a) => (b, Value(b.balances[a]))
  }

  predicate LogOk(n: nat, log: seq<Entry>) {
    forall e :: e in log ==> OpOk(e.op, n)
  }

  /** The bank after the logged operations have run one after the other. */
  function Replay(initial: seq<int>, log: seq<Entry>): (b: Book)
    requires LogOk(|initial|, log)
    ensures |b.balances| == |initial|
  {
    if |log| == 0 then Book(initial, 0)
    else Apply(Replay(initial, log[..|log| - 1]), log[|log| - 1].op).0
  }

  /** Every logged outcome is what the sequential bank reports at that point. */
  predicate Legal(initial: seq<int>, log: seq<Entry>)
    requires LogOk(|initial|, log)
  {
    |log| == 0 ||
    (Legal(initial, log[..|log| - 1]) &&
     Apply(Replay(initial, log[..|log| - 1]), log[|log| - 1].op).1 == log[|log| - 1].out)
  }

  lemma LogAppend(initial: seq<int>, log: seq<Entry>, e: Entry)
    requires LogOk(|initial|, log) && OpOk(e.op, |initial|)
    ensures LogOk(|initial|, log + [e])
    ensures Replay(initial, log + [e]) == Apply(Replay(initial, log), e.op).0
    ensures Legal(initial, log + [e]) <==> Legal(initial, log) && Apply(Replay(initial, log), e.op).1 == e.out
  {
    assert (log + [e])[..|log|] == log;
  }

  // ----- the simulation relation -----

  /** The thread has debited the source of a transfer and not yet credited the target. */
  predicate HalfDone(tx: Tx, th: Thread) {
    th.pc.Credit? && th.i < |tx.ops| && tx.ops[th.i].Transfer?
  }

  /** What the thread still has to move into the reserve. */
  function Owed(tx: Tx, th: Thread): int {
    if (th.pc.Unlock? || th.pc.Reserve?) && th.ok && th.i < |tx.ops| then
      var op := tx.ops[th.i];
      if op.Deposit? then -op.amount else if op.Withdraw? then op.amount else 0
    else 0
  }

  /** Money that is neither in an account nor in the reserve because of this thread. */
  function InFlight(tx: Tx, th: Thread): int {
    Owed(tx, th) + if HalfDone(tx, th) then tx.ops[th.i].amount else 0
  }

  ghost function Debts(cfg: Config, s: State): (xs: seq<int>)
    requires |s.threads| == |cfg.txs|
    ensures |xs| == |s.threads|
  {
    seq(|s.threads|, t requires 0 <= t < |s.threads| => Owed(cfg.txs[t], s.threads[t]))
  }

  ghost function Flights(cfg: Config, s: State): (xs: seq<int>)
    requires |s.threads| == |cfg.txs|
    ensures |xs| == |s.threads|
  {
    seq(|s.threads|, t requires 0 <= t < |s.threads| => InFlight(cfg.txs[t], s.threads[t]))
  }

  /** The stored balance of account a, given its replayed balance: they differ only while the writer
      of a is between the debit and the credit of a transfer out of a. */
  ghost function Stored(cfg: Config, s: State, a: nat, replayed: int): int
    requires |s.threads| == |cfg.txs| && a < |s.locks|
  {
    match s.locks[a].writer
    case None => replayed
    case Some(t) =>
      if t < |s.threads| && HalfDone(cfg.txs[t], s.threads[t]) && cfg.txs[t].ops[s.threads[t].i].from == a
      then replayed - cfg.txs[t].ops[s.threads[t].i].amount
      else replayed
  }

  /** The outcome of a balance test still stands when the thread acts on it. */
  predicate Tested(tx: Tx, th: Thread, balances: seq<int>)
    requires PcOk(tx, th, |balances|)
  {
    && (th.pc.Debit? ==> balances[Source(tx.ops[th.i])] >= tx.ops[th.i].amount)
    && (HalfDone(tx, th) ==> balances[Source(tx.ops[th.i])] >= 0)
  }

  ghost predicate LedgerInv(cfg: Config, s: State)
    requires Shape(cfg, s)
  {
    && LogOk(|cfg.initial|, s.log)
    && Legal(cfg.initial, s.log)
    && (forall a :: 0 <= a < |s.balances| ==>
          s.balances[a] == Stored(cfg, s, a, Replay(cfg.initial, s.log).balances[a]))
    && s.reserve + Sum(Debts(cfg, s)) == Replay(cfg.initial, s.log).reserve
    && forall t :: 0 <= t < |s.threads| ==> Tested(cfg.txs[t], s.threads[t], s.balances)
  }

  // ----- one step -----

  /** A thread that reads or writes an account inside its critical section holds the right lock. */
  lemma AccessIsLocked(cfg: Config, s: State, t: nat)
    requires Shape(cfg, s) && LockInv(cfg, s) && t < |s.threads|
    ensures var tx, th := cfg.txs[t], s.threads[t];
      && (th.pc.Test? || th.pc.Debit? || th.pc.Credit? ==>
            s.locks[Source(tx.ops[th.i])].writer == Some(t) &&
            (tx.ops[th.i].Transfer? ==> s.locks[tx.ops[th.i].to].writer == Some(t)))
      && (th.pc.Read? ==> s.locks[tx.ops[th.i].account].writer == None)
  {
    var tx, th := cfg.txs[t], s.threads[t];
    if th.pc.Test? || th.pc.Debit? || th.pc.Credit? || th.pc.Read? {
      var op := tx.ops[th.i];
      var locks := LockAccounts(op);
      var j := if op.Transfer? && op.to < op.from then 1 else 0;
      assert locks[j] == Source(op);
      assert LockOk(cfg, s, Source(op));
      if op.Transfer? {
        assert locks[1 - j] == op.to;
        assert LockOk(cfg, s, op.to);
      }
      assert Holds(tx, th, Source(op), op.Balance?);
    }
  }

  /** A step writes only balances of accounts whose write lock its thread holds. */
  lemma WritesUnderLock(cfg: Config, s: State, t: nat, a: nat)
    requires Shape(cfg, s) && LockInv(cfg, s) && Enabled(cfg, s, t) && a < |s.balances|
    ensures |Next(cfg, s, t).balances| == |s.balances|
    ensures Next(cfg, s, t).balances[a] != s.balances[a] ==> s.locks[a].writer == Some(t)
  {
    hide NextLocks, NextPool, NextReserve, NextLog, LockOk;
    AccessIsLocked(cfg, s, t);
  }

  /** Another thread's test is not spoiled, because the tested account is locked. */
  lemma TestedAt(cfg: Config, s: State, t: nat, u: nat)
    requires Shape(cfg, s) && LockInv(cfg, s) && Enabled(cfg, s, t) && u < |s.threads|
    requires Tested(cfg.txs[u], s.threads[u], s.balances)
    ensures Shape(cfg, Next(cfg, s, t)) && Tested(cfg.txs[u], Next(cfg, s, t).threads[u], Next(cfg, s, t).balances)
  {
    TakeShape(cfg, s, Run(t));
    if u == t {
      hide NextLocks, NextPool, NextReserve, NextLog, LockInv;
      AccessIsLocked(cfg, s, t);
    } else {
      hide NextBalances, NextLocks, NextPool, NextReserve, NextLog, NextThread, LockInv;
      AccessIsLocked(cfg, s, u);
      if s.threads[u].pc.Debit? || s.threads[u].pc.Credit? {
        WritesUnderLock(cfg, s, t, Source(cfg.txs[u].ops[s.threads[u].i]));
      }
    }
  }

  lemma TestedStep(cfg: Config, s: State, t: nat)
    requires Shape(cfg, s) && LockInv(cfg, s) && LedgerInv(cfg, s) && Enabled(cfg, s, t)
    ensures var s' := Next(cfg, s, t);
      Shape(cfg, s') && forall u :: 0 <= u < |s'.threads| ==> Tested(cfg.txs[u], s'.threads[u], s'.balances)
  {
    TakeShape(cfg, s, Run(t));
    forall u | 0 <= u < |s.threads| ensures Tested(cfg.txs[u], Next(cfg, s, t).threads[u], Next(cfg, s, t).balances) {
      TestedAt(cfg, s, t, u);
    }
  }

  lemma DebtsStep(cfg: Config, s: State, t: nat)
    requires Shape(cfg, s) && Enabled(cfg, s, t)
    ensures var s', tx := Next(cfg, s, t), cfg.txs[t];
      && Sum(Debts(cfg, s')) - Sum(Debts(cfg, s)) == Owed(tx, s'.threads[t]) - Owed(tx, s.threads[t])
      && Sum(Flights(cfg, s')) - Sum(Flights(cfg, s)) == InFlight(tx, s'.threads[t]) - InFlight(tx, s.threads[t])
  {
    var s', tx := Next(cfg, s, t), cfg.txs[t];
    assert Debts(cfg, s') == Debts(cfg, s)[t := Owed(tx, s'.threads[t])];
    assert Flights(cfg, s') == Flights(cfg, s)[t := InFlight(tx, s'.threads[t])];
    SumUpdate(Debts(cfg, s), t, Owed(tx, s'.threads[t]));
    SumUpdate(Flights(cfg, s), t, InFlight(tx, s'.threads[t]));
  }

  /** The effect of the step that makes an operation take effect is the whole operation. */
  lemma EffectStep(cfg: Config, s: State, t: nat)
    requires Shape(cfg, s) && LockInv(cfg, s) && LedgerInv(cfg, s) && Enabled(cfg, s, t)
    requires TakesEffect(cfg.txs[t], s.threads[t], s.balances)
    ensures var s', b := Next(cfg, s, t), Replay(cfg.initial, s.log);
      && LogOk(|cfg.initial|, s'.log) && Legal(cfg.initial, s'.log)
      && Replay(cfg.initial, s'.log) == Apply(b, cfg.txs[t].ops[s.threads[t].i]).0
      && Replay(cfg.initial, s'.log).reserve
           == b.reserve + Owed(cfg.txs[t], s'.threads[t]) - Owed(cfg.txs[t], s.threads[t])
  {
    var tx, th, s' := cfg.txs[t], s.threads[t], Next(cfg, s, t);
    AccessIsLocked(cfg, s, t);
    assert Tested(tx, th, s.balances);
    LogAppend(cfg.initial, s.log, s'.log[|s.log|]);
  }

  /** Taking or dropping a lock changes no stored balance and no replayed one. */
  lemma StoredLock(cfg: Config, s: State, t: nat, a: nat, x: int)
    requires Shape(cfg, s) && LockInv(cfg, s) && Enabled(cfg, s, t) && a < |s.balances|
    requires s.threads[t].pc.Lock? || s.threads[t].pc.Unlock?
    ensures Stored(cfg, Next(cfg, s, t), a, x) == Stored(cfg, s, a, x)
  {
    var tx, th, s' := cfg.txs[t], s.threads[t], Next(cfg, s, t);
    assert LockOk(cfg, s, a);
    if th.pc.Unlock? {
      assert Holds(tx, th, LockAccounts(tx.ops[th.i])[th.pc.k - 1], tx.ops[th.i].Balance?);
    }
  }

  /** A write moves the stored balance and the replayed one together. */
  lemma StoredWrite(cfg: Config, s: State, t: nat, a: nat)
    requires Shape(cfg, s) && LockInv(cfg, s) && LedgerInv(cfg, s) && Enabled(cfg, s, t) && a < |s.balances|
    requires s.threads[t].pc.Debit? || s.threads[t].pc.Credit?
    ensures var b, tx, th, s' := Replay(cfg.initial, s.log), cfg.txs[t], s.threads[t], Next(cfg, s, t);
      s'.balances[a] == Stored(cfg, s', a,
        if TakesEffect(tx, th, s.balances) then Apply(b, tx.ops[th.i]).0.balances[a] else b.balances[a])
  {
    hide NextPool, NextReserve, NextLog, Legal, Replay;
    var b, tx, th, s' := Replay(cfg.initial, s.log), cfg.txs[t], s.threads[t], Next(cfg, s, t);
    var op := tx.ops[th.i];
    AccessIsLocked(cfg, s, t);
    assert Tested(tx, th, s.balances);
    assert LockOk(cfg, s, a);
    assert s'.locks == s.locks;
    assert s.balances[a] == Stored(cfg, s, a, b.balances[a]);
    assert s.balances[Source(op)] == Stored(cfg, s, Source(op), b.balances[Source(op)]);
    assert op.Transfer? ==> s.balances[op.to] == Stored(cfg, s, op.to, b.balances[op.to]);
  }

  lemma StoredSame(cfg: Config, s: State, t: nat, a: nat, x: int)
    requires Shape(cfg, s) && Enabled(cfg, s, t) && a < |s.balances|
    requires var pc := s.threads[t].pc; !pc.Lock? && !pc.Unlock? && !pc.Debit? && !pc.Credit?
    ensures Stored(cfg, Next(cfg, s, t), a, x) == Stored(cfg, s, a, x) && Next(cfg, s, t).balances == s.balances
  {
    var tx, th, s' := cfg.txs[t], s.threads[t], Next(cfg, s, t);
    assert s'.locks == s.locks;
    assert !HalfDone(tx, th) && !HalfDone(tx, s'.threads[t]);
  }

  lemma EffectWithoutWrite(cfg: Config, s: State, t: nat)
    requires Shape(cfg, s) && LockInv(cfg, s) && LedgerInv(cfg, s) && Enabled(cfg, s, t)
    requires TakesEffect(cfg.txs[t], s.threads[t], s.balances)
    requires !s.threads[t].pc.Debit? && !s.threads[t].pc.Credit?
    ensures var b := Replay(cfg.initial, s.log); Apply(b, cfg.txs[t].ops[s.threads[t].i]).0 == b
  {
    var b, tx, th := Replay(cfg.initial, s.log), cfg.txs[t], s.threads[t];
    AccessIsLocked(cfg, s, t);
    var a := Source(tx.ops[th.i]);
    assert s.balances[a] == Stored(cfg, s, a, b.balances[a]);
  }

  lemma StoredAt(cfg: Config, s: State, t: nat, a: nat)
    requires Shape(cfg, s) && LockInv(cfg, s) && LedgerInv(cfg, s) && Enabled(cfg, s, t) && a < |s.balances|
    ensures var b, tx, th, s' := Replay(cfg.initial, s.log), cfg.txs[t], s.threads[t], Next(cfg, s, t);
      s'.balances[a] == Stored(cfg, s', a,
        if TakesEffect(tx, th, s.balances) then Apply(b, tx.ops[th.i]).0.balances[a] else b.balances[a])
  {
    var b, tx, th, s' := Replay(cfg.initial, s.log), cfg.txs[t], s.threads[t], Next(cfg, s, t);
    assert s.balances[a] == Stored(cfg, s, a, b.balances[a]);
    if th.pc.Lock? || th.pc.Unlock? {
      StoredLock(cfg, s, t, a, b.balances[a]);
    } else if th.pc.Debit? || th.pc.Credit? {
      StoredWrite(cfg, s, t, a);
    } else {
      StoredSame(cfg, s, t, a, b.balances[a]);
      if TakesEffect(tx, th, s.balances) { EffectWithoutWrite(cfg, s, t); }
    }
  }

  lemma StoredStep(cfg: Config, s: State, t: nat)
    requires Shape(cfg, s) && LockInv(cfg, s) && LedgerInv(cfg, s) && Enabled(cfg, s, t)
    ensures var s' := Next(cfg, s, t);
      && LogOk(|cfg.initial|, s'.log) && Legal(cfg.initial, s'.log) && Shape(cfg, s')
      && forall a :: 0 <= a < |s'.balances| ==>
           s'.balances[a] == Stored(cfg, s', a, Replay(cfg.initial, s'.log).balances[a])
  {
    var s' := Next(cfg, s, t);
    TakeShape(cfg, s, Run(t));
    if TakesEffect(cfg.txs[t], s.threads[t], s.balances) { EffectStep(cfg, s, t); }
    forall a | 0 <= a < |s'.balances|
      ensures s'.balances[a] == Stored(cfg, s', a, Replay(cfg.initial, s'.log).balances[a])
    {
      StoredAt(cfg, s, t, a);
    }
  }

  lemma LedgerStep(cfg: Config, s: State, t: nat)
    requires Shape(cfg, s) && LockInv(cfg, s) && LedgerInv(cfg, s) && Enabled(cfg, s, t)
    ensures Shape(cfg, Next(cfg, s, t)) && LedgerInv(cfg, Next(cfg, s, t))
  {
    hide NextLocks, NextPool, NextBalances, Tested, LockInv;
    StoredStep(cfg, s, t);
    TestedStep(cfg, s, t);
    DebtsStep(cfg, s, t);
    if TakesEffect(cfg.txs[t], s.threads[t], s.balances) { EffectStep(cfg, s, t); }
  }

  /** Refinement: in every interleaving the log is a legal sequential history, and the stored balances
      and reserve are those of its replay up to what is visibly in flight. */
  lemma {:induction false} Refinement(cfg: Config, sched: seq<Choice>)
    requires ConfigOk(cfg)
    ensures LedgerInv(cfg, Exec(cfg, sched))
  {
    hide Next, LockInv, LedgerInv, Enabled, PcOk;
    if |sched| == 0 {
      InitLedger(cfg);
    } else {
      var s, c := Exec(cfg, sched[..|sched| - 1]), sched[|sched| - 1];
      Refinement(cfg, sched[..|sched| - 1]);
      LocksAgree(cfg, sched[..|sched| - 1]);
      TakeLedger(cfg, s, c);
    }
  }

  lemma InitLedger(cfg: Config)
    requires ConfigOk(cfg)
    ensures Shape(cfg, Init(cfg)) && LedgerInv(cfg, Init(cfg))
  {
    SumZero(Debts(cfg, Init(cfg)));
  }

  lemma TakeLedger(cfg: Config, s: State, c: Choice)
    requires Shape(cfg, s) && LockInv(cfg, s) && LedgerInv(cfg, s)
    ensures Shape(cfg, Take(cfg, s, c)) && LedgerInv(cfg, Take(cfg, s, c))
  {
    hide Next, LockInv, Enabled;
    TakeShape(cfg, s, c);
    if c.Run? && Enabled(cfg, s, c.t) {
      LedgerStep(cfg, s, c.t);
    } else {
      assert Debts(cfg, Take(cfg, s, c)) == Debts(cfg, s);
      assert forall t :: 0 <= t < |s.threads| ==> Tested(cfg.txs[t], s.threads[t], s.balances);
    }
  }

  lemma QuiescentAt(cfg: Config, s: State)
    requires Shape(cfg, s) && LedgerInv(cfg, s) && AllDone(s)
    ensures Book(s.balances, s.reserve) == Replay(cfg.initial, s.log)
  {
    SumZero(Debts(cfg, s));
    var b := Replay(cfg.initial, s.log);
    forall a | 0 <= a < |s.balances| ensures s.balances[a] == b.balances[a] {
      assert s.balances[a] == Stored(cfg, s, a, b.balances[a]);
    }
    assert s.balances == b.balances;
  }

  /** When no transaction is running, balances and reserve are exactly those of the replay. */
  lemma QuiescentRefinement(cfg: Config, sched: seq<Choice>)
    requires ConfigOk(cfg) && AllDone(Exec(cfg, sched))
    ensures var s := Exec(cfg, sched);
      && LogOk(|cfg.initial|, s.log) && Legal(cfg.initial, s.log)
      && Book(s.balances, s.reserve) == Replay(cfg.initial, s.log)
  {
    Refinement(cfg, sched);
    QuiescentAt(cfg, Exec(cfg, sched));
  }

  // ----- conservation -----

  /** Accounts, reserve and money in flight. */
  ghost function Total(cfg: Config, s: State): int
    requires |s.threads| == |cfg.txs|
  {
    Sum(s.balances) + s.reserve + Sum(Flights(cfg, s))
  }

  lemma TotalStep(cfg: Config, s: State, t: nat)
    requires Shape(cfg, s) && Enabled(cfg, s, t)
    ensures Total(cfg, Next(cfg, s, t)) == Total(cfg, s)
  {
    var tx, th := cfg.txs[t], s.threads[t];
    DebtsStep(cfg, s, t);
    if th.pc.Debit? || th.pc.Credit? {
      var (a, d) := Delta(tx.ops[th.i], th.pc);
      SumUpdate(s.balances, a, s.balances[a] + d);
    }
  }

  /** Conservation: no interleaving, including one in which transactions abort half-way without any
      rollback, changes the total. */
  lemma {:induction false} Conservation(cfg: Config, sched: seq<Choice>)
    requires ConfigOk(cfg)
    ensures Total(cfg, Exec(cfg, sched)) == Sum(cfg.initial)
  {
    if |sched| == 0 {
      SumZero(Flights(cfg, Init(cfg)));
    } else {
      var s, c := Exec(cfg, sched[..|sched| - 1]), sched[|sched| - 1];
      Conservation(cfg, sched[..|sched| - 1]);
      if c.Run? && Enabled(cfg, s, c.t) {
        TotalStep(cfg, s, c.t);
      } else {
        assert Flights(cfg, Exec(cfg, sched)) == Flights(cfg, s);
      }
    }
  }

  /** The audit after all joins: accounts plus reserve equal the initial total. */
  lemma AuditPasses(cfg: Config, sched: seq<Choice>)
    requires ConfigOk(cfg) && AllDone(Exec(cfg, sched))
    ensures Sum(Exec(cfg, sched).balances) + Exec(cfg, sched).reserve == Sum(cfg.initial)
  {
    Conservation(cfg, sched);
    SumZero(Flights(cfg, Exec(cfg, sched)));
  }

  // ----- balances stay non-negative -----

  ghost predicate AmountsOk(cfg: Config) {
    && (forall a :: 0 <= a < |cfg.initial| ==> cfg.initial[a] >= 0)
    && forall t, j :: 0 <= t < |cfg.txs| && 0 <= j < |cfg.txs[t].ops| ==> Amount(cfg.txs[t].ops[j]) >= 0
  }

  lemma {:induction false} ReplayNonNegative(initial: seq<int>, log: seq<Entry>)
    requires LogOk(|initial|, log)
    requires forall a :: 0 <= a < |initial| ==> initial[a] >= 0
    requires forall e :: e in log ==> Amount(e.op) >= 0
    ensures forall a :: 0 <= a < |initial| ==> Replay(initial, log).balances[a] >= 0
  {
    if |log| > 0 {
      ReplayNonNegative(initial, log[..|log| - 1]);
      assert Amount(log[|log| - 1].op) >= 0;
    }
  }

  lemma {:induction false} LogAmounts(cfg: Config, sched: seq<Choice>)
    requires ConfigOk(cfg) && AmountsOk(cfg)
    ensures forall e :: e in Exec(cfg, sched).log ==> Amount(e.op) >= 0
  {
    if |sched| > 0 {
      var s, c := Exec(cfg, sched[..|sched| - 1]), sched[|sched| - 1];
      LogAmounts(cfg, sched[..|sched| - 1]);
      if c.Run? && Enabled(cfg, s, c.t) && InOp(s.threads[c.t].pc) {
        assert Amount(cfg.txs[c.t].ops[s.threads[c.t].i]) >= 0;
      }
    }
  }

  /** With non-negative amounts and initial balances, no account is ever overdrawn, not even between
      the two writes of a transfer. */
  lemma NeverOverdrawn(cfg: Config, sched: seq<Choice>, a: nat)
    requires ConfigOk(cfg) && AmountsOk(cfg) && a < |cfg.initial|
    ensures Exec(cfg, sched).balances[a] >= 0
  {
    var s := Exec(cfg, sched);
    Refinement(cfg, sched);
    LogAmounts(cfg, sched);
    ReplayNonNegative(cfg.initial, s.log);
    assert forall t :: 0 <= t < |s.threads| ==> Tested(cfg.txs[t], s.threads[t], s.balances);
    var w := s.locks[a].writer;
    if w.Some? && w.value < |s.threads| {
      assert Tested(cfg.txs[w.value], s.threads[w.value], s.balances);
    }
  }

  // ----- outcomes per transaction -----

  /** The entries of thread t, in log order. */
  function Mine(log: seq<Entry>, t: nat): seq<Entry> {
    if |log| == 0 then []
    else if log[|log| - 1].tid == t then Mine(log[..|log| - 1], t) + [log[|log| - 1]]
    else Mine(log[..|log| - 1], t)
  }

  predicate Past(pc: PC) {
    pc.Unlock? || pc.Reserve? || pc.OpEnd? || pc.WaitNext? || pc.Unload? || pc.Post?
  }

  /** How many operations of the thread have taken effect. */
  function Effects(th: Thread): nat {
    th.i + if Past(th.pc) || !th.ok then 1 else 0
  }

  /** The thread's entries are its operations in program order, each once, and only the last can have
      failed; it has failed exactly when the thread is on its abort path. */
  ghost predicate Ordered(tx: Tx, th: Thread, mine: seq<Entry>) {
    && |mine| == Effects(th) <= |tx.ops|
    && forall j :: 0 <= j < |mine| ==> mine[j].op == tx.ops[j] && (mine[j].out.Failure? <==> !th.ok && j == th.i)
  }

  lemma OrderedStep(cfg: Config, s: State, t: nat, u: nat)
    requires Shape(cfg, s) && Enabled(cfg, s, t) && u < |s.threads|
    requires Ordered(cfg.txs[u], s.threads[u], Mine(s.log, u))
    ensures Ordered(cfg.txs[u], Next(cfg, s, t).threads[u], Mine(Next(cfg, s, t).log, u))
  {
    hide NextLocks, NextPool, NextReserve, NextBalances, NextThread, Ordered, Mine;
    MineStep(cfg.txs[t], s.threads[t], t, s.balances, s.log, u);
    if u == t { OrderedThread(cfg.txs[t], s.threads[t], t, s.tick, s.balances, Mine(s.log, t)); }
  }

  /** A step adds to its own thread's entries what it adds to the log. */
  lemma MineStep(tx: Tx, th: Thread, t: nat, balances: seq<int>, log: seq<Entry>, u: nat)
    requires PcOk(tx, th, |balances|)
    ensures Mine(NextLog(tx, th, t, balances, log), u)
         == if u == t then NextLog(tx, th, t, balances, Mine(log, u)) else Mine(log, u)
  {
    hide PcOk, TakesEffect;
    if TakesEffect(tx, th, balances) { assert NextLog(tx, th, t, balances, log)[..|log|] == log; }
  }

  lemma OrderedThread(tx: Tx, th: Thread, t: nat, tick: int, balances: seq<int>, mine: seq<Entry>)
    requires PcOk(tx, th, |balances|) && !th.pc.Done? && Ordered(tx, th, mine)
    ensures Ordered(tx, NextThread(tx, th, tick, balances), NextLog(tx, th, t, balances, mine))
  {
  }

  lemma {:induction false} ProgramOrder(cfg: Config, sched: seq<Choice>, u: nat)
    requires ConfigOk(cfg) && u < |cfg.txs|
    ensures Ordered(cfg.txs[u], Exec(cfg, sched).threads[u], Mine(Exec(cfg, sched).log, u))
  {
    if |sched| > 0 {
      var s, c := Exec(cfg, sched[..|sched| - 1]), sched[|sched| - 1];
      ProgramOrder(cfg, sched[..|sched| - 1], u);
      if c.Run? && Enabled(cfg, s, c.t) { OrderedStep(cfg, s, c.t, u); }
    }
  }

  lemma StatusStep(tx: Tx, th: Thread, tick: int, balances: seq<int>)
    requires PcOk(tx, th, |balances|)
    ensures var th' := NextThread(tx, th, tick, balances);
      th'.pc.Done? && !th.pc.Done? ==> th'.ok == th.ok && th'.status == if th.ok then Committed else Aborted
  {
  }

  lemma {:induction false} FinalStatus(cfg: Config, sched: seq<Choice>, t: nat)
    requires ConfigOk(cfg) && t < |cfg.txs|
    ensures var th := Exec(cfg, sched).threads[t];
      th.pc.Done? ==> th.status == if th.ok then Committed else Aborted
  {
    if |sched| > 0 {
      var s, c := Exec(cfg, sched[..|sched| - 1]), sched[|sched| - 1];
      FinalStatus(cfg, sched[..|sched| - 1], t);
      if c.Run? && Enabled(cfg, s, c.t) { StatusStep(cfg.txs[c.t], s.threads[c.t], s.tick, s.balances); }
    }
  }

  /** A finished transaction is committed exactly when all its operations took effect with success; it
      is aborted exactly when its last logged operation failed, and the ones before it stay in effect. */
  lemma OutcomeMatchesReplay(cfg: Config, sched: seq<Choice>, t: nat)
    requires ConfigOk(cfg) && t < |cfg.txs| && Exec(cfg, sched).threads[t].pc.Done?
    ensures var th, mine := Exec(cfg, sched).threads[t], Mine(Exec(cfg, sched).log, t);
      && (th.status == Committed <==>
            |mine| == |cfg.txs[t].ops| && forall j :: 0 <= j < |mine| ==> !mine[j].out.Failure?)
      && (th.status == Aborted <==> |mine| > 0 && mine[|mine| - 1].out.Failure?)
      && th.status != Running
  {
    ProgramOrder(cfg, sched, t);
    FinalStatus(cfg, sched, t);
    var tx, th, mine := cfg.txs[t], Exec(cfg, sched).threads[t], Mine(Exec(cfg, sched).log, t);
    assert PcOk(tx, th, |cfg.initial|);
    if !th.ok { assert mine[th.i].out.Failure?; }
  }
}
