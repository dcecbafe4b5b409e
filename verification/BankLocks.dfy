/** Account locks: the reader-writer locks always agree with the program counters, so a writer is
    alone on its account and nobody holds an account lock while waiting for a pool slot. */
module BankLocks {
  import opened Wrappers
  import opened BankModel

  /** How many of its account locks a thread holds. */
  function HeldCount(tx: Tx, th: Thread): nat
    requires th.i < |tx.ops|
  {
    match th.pc
    case Lock(k) => k
    case Test => |LockAccounts(tx.ops[th.i])|
    case Debit => |LockAccounts(tx.ops[th.i])|
    case Credit => |LockAccounts(tx.ops[th.i])|
    case Read => |LockAccounts(tx.ops[th.i])|
    case Unlock(k) => k
    case _ => 0
  }

  /** Thread program th of tx holds the lock of account a, as a reader or as the writer. */
  predicate Holds(tx: Tx, th: Thread, a: nat, read: bool) {
    InOp(th.pc) && th.i < |tx.ops| && tx.ops[th.i].Balance? == read &&
    exists j :: 0 <= j < |LockAccounts(tx.ops[th.i])| && j < HeldCount(tx, th) && LockAccounts(tx.ops[th.i])[j] == a
  }

  ghost predicate LockOk(cfg: Config, s: State, a: nat)
    requires |s.threads| == |cfg.txs| && a < |s.locks|
  {
    && (s.locks[a].writer.Some? ==> s.locks[a].readers == {})
    && (forall t: nat :: s.locks[a].writer == Some(t) <==> t < |s.threads| && Holds(cfg.txs[t], s.threads[t], a, false))
    && (forall t: nat :: t in s.locks[a].readers <==> t < |s.threads| && Holds(cfg.txs[t], s.threads[t], a, true))
  }

  ghost predicate LockInv(cfg: Config, s: State)
    requires Shape(cfg, s)
  {
    forall a :: 0 <= a < |s.locks| ==> LockOk(cfg, s, a)
  }

  /** What one step changes in the set of locks a thread holds. */
  lemma HoldsStep(tx: Tx, th: Thread, tick: int, balances: seq<int>, a: nat, read: bool)
    requires PcOk(tx, th, |balances|)
    ensures var th', op := NextThread(tx, th, tick, balances), if th.i < |tx.ops| then tx.ops[th.i] else Balance(0);
      Holds(tx, th', a, read) <==>
        if th.pc.Lock? && LockAccounts(op)[th.pc.k] == a && op.Balance? == read then true
        else if th.pc.Unlock? && LockAccounts(op)[th.pc.k - 1] == a && op.Balance? == read then false
        else Holds(tx, th, a, read)
  {
    var th' := NextThread(tx, th, tick, balances);
    if th.i < |tx.ops| && InOp(th.pc) {
      var op := tx.ops[th.i];
      var locks := LockAccounts(op);
      assert |locks| == 2 ==> locks[0] != locks[1];
      if th.pc.Lock? {
        assert HeldCount(tx, th') == th.pc.k + 1;
        assert locks[th.pc.k] == a && op.Balance? == read ==> Holds(tx, th', a, read);
      } else if th.pc.Unlock? {
        assert HeldCount(tx, th') == th.pc.k - 1;
      } else {
        assert th'.i == th.i ==> HeldCount(tx, th') == HeldCount(tx, th);
      }
    }
  }

  /** A thread that is about to release a lock holds it. */
  lemma HoldsToRelease(tx: Tx, th: Thread, n: nat)
    requires PcOk(tx, th, n) && th.pc.Unlock?
    ensures Holds(tx, th, LockAccounts(tx.ops[th.i])[th.pc.k - 1], tx.ops[th.i].Balance?)
  {
  }

  lemma LockStep(cfg: Config, s: State, t: nat)
    requires Shape(cfg, s) && LockInv(cfg, s) && Enabled(cfg, s, t)
    ensures Shape(cfg, Next(cfg, s, t)) && LockInv(cfg, Next(cfg, s, t))
  {
    hide NextBalances, NextReserve, NextPool, NextLog, Holds;
    var s', tx, th := Next(cfg, s, t), cfg.txs[t], s.threads[t];
    TakeShape(cfg, s, Run(t));
    forall a | 0 <= a < |s'.locks| ensures LockOk(cfg, s', a) {
      assert LockOk(cfg, s, a);
      HoldsStep(tx, th, s.tick, s.balances, a, true);
      HoldsStep(tx, th, s.tick, s.balances, a, false);
      if th.pc.Unlock? { HoldsToRelease(tx, th, |s.balances|); }
    }
  }

  lemma LocksAgree(cfg: Config, sched: seq<Choice>)
    requires ConfigOk(cfg)
    ensures LockInv(cfg, Exec(cfg, sched))
  {
    if |sched| > 0 {
      var s, c := Exec(cfg, sched[..|sched| - 1]), sched[|sched| - 1];
      LocksAgree(cfg, sched[..|sched| - 1]);
      if c.Run? && Enabled(cfg, s, c.t) {
        LockStep(cfg, s, c.t);
      } else {
        forall a | 0 <= a < |s.locks| ensures LockOk(cfg, Exec(cfg, sched), a) { assert LockOk(cfg, s, a); }
      }
    }
  }

  /** A writer excludes every other thread from its account, in every interleaving. */
  lemma WriterAlone(cfg: Config, sched: seq<Choice>, t: nat, u: nat, a: nat, read: bool)
    requires ConfigOk(cfg) && t < |cfg.txs| && u < |cfg.txs| && a < |cfg.initial|
    requires Holds(cfg.txs[t], Exec(cfg, sched).threads[t], a, false)
    requires Holds(cfg.txs[u], Exec(cfg, sched).threads[u], a, read)
    ensures t == u
  {
    LocksAgree(cfg, sched);
    assert LockOk(cfg, Exec(cfg, sched), a);
  }

  /** No thread waits for a pool slot while any account lock is held in its name. */
  lemma NoLockWhileWaitingForSlot(cfg: Config, sched: seq<Choice>, t: nat, a: nat)
    requires ConfigOk(cfg) && t < |cfg.txs| && a < |cfg.initial|
    requires Exec(cfg, sched).threads[t].pc.LoadSem?
    ensures Exec(cfg, sched).locks[a].writer != Some(t) && t !in Exec(cfg, sched).locks[a].readers
  {
    LocksAgree(cfg, sched);
    assert LockOk(cfg, Exec(cfg, sched), a);
  }

  /** Lock modes, in every interleaving: a balance read waits at its account lock iff a writer holds the
      account, however many readers do; a writer waits iff anybody does. */
  lemma LockModes(cfg: Config, sched: seq<Choice>, t: nat)
    requires ConfigOk(cfg) && t < |cfg.txs| && Exec(cfg, sched).threads[t].pc.Lock?
    ensures var s := Exec(cfg, sched);
      var op := cfg.txs[t].ops[s.threads[t].i];
      var a := LockAccounts(op)[s.threads[t].pc.k];
      Enabled(cfg, s, t) <==>
        forall u :: 0 <= u < |cfg.txs| ==>
          && !Holds(cfg.txs[u], s.threads[u], a, false)
          && (!op.Balance? ==> !Holds(cfg.txs[u], s.threads[u], a, true))
  {
    hide Exec, Holds;
    var s := Exec(cfg, sched);
    var a := LockAccounts(cfg.txs[t].ops[s.threads[t].i])[s.threads[t].pc.k];
    LocksAgree(cfg, sched);
    assert LockOk(cfg, s, a);
    if s.locks[a].writer.None? && s.locks[a].readers != {} {
      var u :| u in s.locks[a].readers;
      assert Holds(cfg.txs[u], s.threads[u], a, true);
    }
  }
}
