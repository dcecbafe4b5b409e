/** The bank as a program that updates its shared variables in place. Every method is proved against
    the step functions of BankModel, so the theorems about all interleavings apply to it. */
module BankSystem {
  import opened Wrappers
  import opened BankModel
  import BankLedger
  import BankPool
  import opened Sums

  class System {
    const cfg: Config
    var tick: int
    var reserve: int
    const balances: array<int>
    const locks: array<RWLock>
    const slots: array<Slot>
    var permits: nat
    var loads: int
    var unloads: int
    var usage: int
    var peak: int
    const threads: array<Thread>
    ghost var log: seq<Entry>

    ghost function PoolView(): Pool
      reads this, slots
    {
      Pool(slots[..], permits, loads, unloads, usage, peak)
    }

    ghost function View(): State
      reads this, balances, locks, slots, threads
    {
      State(tick, balances[..], reserve, locks[..], PoolView(), threads[..], log)
    }

    ghost predicate Valid()
      reads this, balances, locks, slots, threads
    {
      Shape(cfg, View())
    }

    constructor (cfg: Config)
      requires ConfigOk(cfg)
      ensures this.cfg == cfg && Valid() && View() == Init(cfg)
      ensures fresh(balances) && fresh(locks) && fresh(slots) && fresh(threads)
    {
      this.cfg := cfg;
      tick, reserve := 0, 0;
      balances := new int[|cfg.initial|](i requires 0 <= i < |cfg.initial| => cfg.initial[i]);
      locks := new RWLock[|cfg.initial|](_ => RWLock(None, {}));
      slots := new Slot[cfg.poolSize](_ => Slot(0, false));
      permits := cfg.poolSize;
      loads, unloads, usage, peak := 0, 0, 0, 0;
      threads := new Thread[|cfg.txs|](_ => Thread(WaitStart, 0, 0, 0, true, 0, 0, 0, Running));
      log := [];
      new;
      assert View().balances == Init(cfg).balances && View().locks == Init(cfg).locks;
      assert View().pool.slots == InitPool(cfg.poolSize).slots && View().threads == Init(cfg).threads;
    }

    /** The critical section of `load_account`: account the load, then scan for a free slot. */
    method LoadAccount(account: nat)
      modifies this`loads, this`usage, this`peak, slots
      ensures PoolView() == LoadPool(old(PoolView()), account)
      ensures loads == old(loads) + 1 && usage == old(usage) + 1
      ensures peak == if usage > old(peak) then usage else old(peak)
    {
      loads := loads + 1;
      usage := usage + 1;
      if usage > peak {
        peak := usage;
      }
      var i := 0;
      while i < slots.Length && slots[i].inUse
        invariant 0 <= i <= slots.Length && slots[..] == old(slots[..])
        invariant forall j :: 0 <= j < i ==> slots[j].inUse
      {
        i := i + 1;
      }
      assert i == FirstFree(old(slots[..]));
      if i < slots.Length {
        slots[i] := Slot(account, true);
      }
    }

    /** The critical section of `unload_account`: account the unload, then scan for the account. */
    method UnloadAccount(account: nat)
      modifies this`unloads, this`usage, slots
      ensures PoolView() == UnloadPool(old(PoolView()), account)
    {
      unloads := unloads + 1;
      usage := usage - 1;
      var i := 0;
      while i < slots.Length && !(slots[i].inUse && slots[i].account == account)
        invariant 0 <= i <= slots.Length && slots[..] == old(slots[..])
        invariant forall j :: 0 <= j < i ==> !(slots[j].inUse && slots[j].account == account)
      {
        i := i + 1;
      }
      assert i == FirstHolding(old(slots[..]), account);
      if i < slots.Length {
        slots[i] := slots[i].(inUse := false);
      }
    }

    /** Does the step at the thread's program counter go through, or does it block? */
    predicate CanStep(t: nat)
      requires Valid()
      reads this, balances, locks, slots, threads
      ensures CanStep(t) == Enabled(cfg, View(), t)
    {
      t < threads.Length &&
      var th := threads[t];
      match th.pc
      case WaitStart => tick >= cfg.txs[t].startTick
      case LoadSem(_) => permits > 0
      case Lock(k) =>
        var op := cfg.txs[t].ops[th.i];
        CanLock(locks[LockAccounts(op)[k]], op.Balance?)
      case WaitNext => tick >= th.next
      case Done => false
      case _ => true
    }

    /** Shared variables a step of the pool protocol changes. */
    method PoolStep(t: nat)
      requires Valid() && Enabled(cfg, View(), t)
      requires var pc := threads[t].pc; pc.LoadSem? || pc.LoadSlot? || pc.Unload? || pc.Post?
      modifies this`loads, this`unloads, this`usage, this`peak, this`permits, slots
      ensures PoolView() == NextPool(cfg.txs[t], threads[t], |cfg.initial|, old(PoolView()))
    {
      var th := threads[t];
      var op := cfg.txs[t].ops[th.i];
      if th.pc.LoadSem? {
        permits := permits - 1;
      } else if th.pc.LoadSlot? {
        LoadAccount(SlotAccounts(op)[th.pc.k]);
      } else if th.pc.Unload? {
        UnloadAccount(UnloadAccounts(op, th.ok)[th.pc.k]);
      } else {
        permits := permits + 1;
      }
    }

    /** Shared variables a step of deposit, withdraw, transfer or get_balance changes. */
    method AccountStep(t: nat)
      requires Valid() && Enabled(cfg, View(), t)
      requires var pc := threads[t].pc; pc.Lock? || pc.Debit? || pc.Credit? || pc.Unlock? || pc.Reserve?
      modifies this`reserve, balances, locks
      ensures balances[..] == NextBalances(cfg.txs[t], threads[t], old(balances[..]))
      ensures locks[..] == NextLocks(cfg.txs[t], threads[t], t, old(locks[..]))
      ensures reserve == NextReserve(cfg.txs[t], threads[t], |cfg.initial|, old(reserve))
    {
      var th := threads[t];
      var op := cfg.txs[t].ops[th.i];
      if th.pc.Lock? {
        var a := LockAccounts(op)[th.pc.k];
        locks[a] := if op.Balance? then locks[a].(readers := locks[a].readers + {t}) else locks[a].(writer := Some(t));
      } else if th.pc.Unlock? {
        var a := LockAccounts(op)[th.pc.k - 1];
        locks[a] := if op.Balance? then locks[a].(readers := locks[a].readers - {t}) else locks[a].(writer := None);
      } else if th.pc.Debit? {
        var a := if op.Transfer? then op.from else op.account;
        balances[a] := balances[a] - op.amount;
      } else if th.pc.Credit? {
        var a := if op.Transfer? then op.to else op.account;
        balances[a] := balances[a] + op.amount;
      } else if op.Deposit? {
        reserve := reserve - op.amount;
      } else {
        reserve := reserve + op.amount;
      }
    }

    /** Where control goes next inside an operation, as deposit, withdraw, transfer and get_balance and the
        calls around them have it. */
    method AdvanceOperation(t: nat) returns (th: Thread)
      requires Valid() && Enabled(cfg, View(), t)
      requires var pc := threads[t].pc;
        pc.LoadSlot? || pc.Lock? || pc.Test? || pc.Debit? || pc.Credit? || pc.Read? || pc.Unlock? || pc.Reserve?
      ensures th == NextThread(cfg.txs[t], threads[t], tick, balances[..])
    {
      th := threads[t];
      var op := cfg.txs[t].ops[th.i];
      var two := op.Transfer? && op.from != op.to;
      match th.pc {
        case LoadSlot(k) =>
          if op.Transfer? && k == 0 {
            th := th.(pc := LoadSem(1));
          } else if op.Transfer? && !two {
            th := th.(pc := OpEnd);
          } else {
            th := th.(pc := Lock(0));
          }
        case Lock(k) =>
          if two && k == 0 {
            th := th.(pc := Lock(1));
          } else if op.Deposit? {
            th := th.(pc := Credit);
          } else if op.Balance? {
            th := th.(pc := Read);
          } else {
            th := th.(pc := Test);
          }
        case Test =>
          var source := if op.Transfer? then op.from else op.account;
          if balances[source] < op.amount {
            th := th.(pc := Unlock(if two then 2 else 1), ok := false);
          } else {
            th := th.(pc := Debit);
          }
        case Debit => th := th.(pc := if two then Credit else Unlock(1));
        case Credit => th := th.(pc := Unlock(if two then 2 else 1));
        case Read => th := th.(pc := Unlock(1));
        case Unlock(k) =>
          if k == 2 {
            th := th.(pc := Unlock(1));
          } else if !th.ok {
            th := th.(pc := Unload(0));
          } else if two || op.Balance? {
            th := th.(pc := OpEnd);
          } else {
            th := th.(pc := Reserve);
          }
        case Reserve => th := th.(pc := OpEnd);
      }
    }

    /** Where control goes next in `execute_transaction`, and what it writes into its transaction. */
    method Advance(t: nat) returns (th: Thread)
      requires Valid() && Enabled(cfg, View(), t)
      ensures th == NextThread(cfg.txs[t], threads[t], tick, balances[..])
      ensures threads[t].pc.ReadStart? ==> th.actualStart == tick
      ensures threads[t].pc.OpBegin? && th.pc.LoadSem? ==> th.before == tick
      ensures threads[t].pc.OpEnd? ==> th.waitTicks == threads[t].waitTicks + tick - threads[t].before
      ensures threads[t].pc.Finish? ==> th.actualEnd == tick
    {
      th := threads[t];
      match th.pc {
        case WaitStart => th := th.(pc := ReadStart);
        case ReadStart => th := th.(pc := OpBegin, actualStart := tick, status := Running);
        case OpBegin =>
          if th.i < |cfg.txs[t].ops| {
            th := th.(pc := LoadSem(0), before := tick);
          } else {
            th := th.(pc := Finish);
          }
        case LoadSem(k) => th := th.(pc := LoadSlot(k));
        case OpEnd => th := th.(pc := WaitNext, next := tick + 1, waitTicks := th.waitTicks + (tick - th.before));
        case WaitNext => th := th.(pc := Unload(0));
        case Unload(k) => th := th.(pc := Post(k));
        case Post(k) =>
          if cfg.txs[t].ops[th.i].Transfer? && k == 0 {
            th := th.(pc := Unload(1));
          } else if th.ok {
            th := th.(pc := OpBegin, i := th.i + 1);
          } else {
            th := th.(pc := Finish);
          }
        case Finish =>
          th := th.(pc := Done, actualEnd := tick);
          th := th.(status := if th.ok then Committed else Aborted);
        case _ => th := AdvanceOperation(t);
      }
    }

    /** One step of one transaction thread, in place. */
    method ThreadStep(t: nat)
      requires Valid() && Enabled(cfg, View(), t)
      modifies this, balances, locks, slots, threads
      ensures Valid() && View() == Next(cfg, old(View()), t)
    {
      hide NextThread, NextLog, LoadPool, UnloadPool, Delta;
      ghost var before := View();
      TakeShape(cfg, before, Run(t));
      var th := threads[t];
      var th' := Advance(t);
      log := NextLog(cfg.txs[t], th, t, balances[..], log);
      if th.pc.LoadSem? || th.pc.LoadSlot? || th.pc.Unload? || th.pc.Post? {
        PoolStep(t);
      } else if th.pc.Lock? || th.pc.Debit? || th.pc.Credit? || th.pc.Unlock? || th.pc.Reserve? {
        AccountStep(t);
      }
      threads[t] := th';
      assert View().threads == Next(cfg, before, t).threads;
      assert View() == Next(cfg, before, t);
    }

    /** `calculate_total_balance`: the reserve plus every account. */
    method TotalBalance() returns (total: int)
      ensures total == Sum(balances[..]) + reserve
    {
      total := reserve;
      var i := 0;
      while i < balances.Length
        invariant 0 <= i <= balances.Length
        invariant total == reserve + Sum(balances[..i])
      {
        assert balances[..i + 1] == balances[..i] + [balances[i]];
        SumAppend(balances[..i], balances[i]);
        total := total + balances[i];
        i := i + 1;
      }
      assert balances[..i] == balances[..];
    }

    /** Runs one interleaving. The schedule stands for the operating system: it picks the timer or a
        thread, and a thread that is blocked makes no progress. */
    method Execute(sched: seq<Choice>)
      requires Valid() && View() == Init(cfg)
      modifies this, balances, locks, slots, threads
      ensures Valid() && View() == Exec(cfg, sched)
    {
      var i := 0;
      while i < |sched|
        invariant 0 <= i <= |sched|
        invariant Valid() && View() == Exec(cfg, sched[..i])
      {
        assert sched[..i + 1][..i] == sched[..i];
        match sched[i] {
          case Tick => tick := tick + 1;
          case Run(t) => if CanStep(t) { ThreadStep(t); }
        }
        i := i + 1;
      }
      assert sched[..i] == sched;
    }
  }

  /** `main`: audit, run all transactions, and audit again once they have all been joined. The outcome
      is the one of a sequential replay, and the conservation check passes. */
  method RunBank(cfg: Config, sched: seq<Choice>) returns (initialTotal: int, finalTotal: int, bank: System)
    requires ConfigOk(cfg) && BankPool.AllDone(Exec(cfg, sched))
    ensures fresh(bank) && bank.cfg == cfg && bank.View() == Exec(cfg, sched)
    ensures initialTotal == finalTotal == Sum(cfg.initial)
    ensures BankLedger.LogOk(|cfg.initial|, bank.log) && BankLedger.Legal(cfg.initial, bank.log)
    ensures BankLedger.Book(bank.balances[..], bank.reserve) == BankLedger.Replay(cfg.initial, bank.log)
  {
    bank := new System(cfg);
    initialTotal := bank.TotalBalance();
    bank.Execute(sched);
    finalTotal := bank.TotalBalance();
    BankLedger.AuditPasses(cfg, sched);
    BankLedger.QuiescentRefinement(cfg, sched);
  }
}
