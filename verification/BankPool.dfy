/** The buffer pool in every reachable state: permits, permits in transit and occupied slots add up to
    the pool size, and the occupied slots hold exactly what the transactions have loaded. */
module BankPool {
  import opened Wrappers
  import opened BankModel
  import opened Sums

  /** Counting accounts: `None` counts every account, `Some(a)` only a. */
  predicate Counts(p: Option<nat>, a: nat) {
    p.None? || p.value == a
  }

  /** Counted accounts at positions lo <= j < hi of a list of one or two accounts. */
  function Part(a: seq<nat>, lo: int, hi: int, p: Option<nat>): int {
    (if lo <= 0 < hi && |a| > 0 && Counts(p, a[0]) then 1 else 0)
    + (if lo <= 1 < hi && |a| > 1 && Counts(p, a[1]) then 1 else 0)
  }

  /** Accounts the thread has in the pool: loaded and not yet unloaded. */
  function Loaded(tx: Tx, th: Thread, p: Option<nat>): int {
    if !InOp(th.pc) || th.i >= |tx.ops| then 0 else
      var a, b := SlotAccounts(tx.ops[th.i]), UnloadAccounts(tx.ops[th.i], th.ok);
      if th.pc.LoadSem? || th.pc.LoadSlot? then Part(a, 0, th.pc.k, p)
      else if th.pc.Unload? then Part(b, th.pc.k, 2, p)
      else if th.pc.Post? then Part(b, th.pc.k + 1, 2, p)
      else Part(a, 0, 2, p)
  }

  /** A permit is in transit from sem_wait to the slot, and from the slot to sem_post. */
  function Transit(th: Thread): int {
    if th.pc.LoadSlot? || th.pc.Post? then 1 else 0
  }

  ghost function Loads(cfg: Config, s: State, p: Option<nat>): (xs: seq<int>)
    requires |s.threads| == |cfg.txs|
    ensures |xs| == |s.threads|
  {
    seq(|s.threads|, t requires 0 <= t < |s.threads| => Loaded(cfg.txs[t], s.threads[t], p))
  }

  ghost function Transits(s: State): (xs: seq<int>)
    ensures |xs| == |s.threads|
  {
    seq(|s.threads|, t requires 0 <= t < |s.threads| => Transit(s.threads[t]))
  }

  function Content(x: Slot, p: Option<nat>): int {
    if x.inUse && Counts(p, x.account) then 1 else 0
  }

  /** How many occupied slots hold a counted account. */
  function InUse(slots: seq<Slot>, p: Option<nat>): (n: int)
    ensures 0 <= n <= |slots|
  {
    if |slots| == 0 then 0 else Content(slots[0], p) + InUse(slots[1..], p)
  }

  lemma {:induction false} InUseUpdate(slots: seq<Slot>, k: nat, x: Slot, p: Option<nat>)
    requires k < |slots|
    ensures InUse(slots[k := x], p) == InUse(slots, p) - Content(slots[k], p) + Content(x, p)
  {
    if k == 0 {
      assert slots[0 := x][1..] == slots[1..];
    } else {
      assert slots[k := x][1..] == slots[1..][k - 1 := x];
      InUseUpdate(slots[1..], k - 1, x, p);
    }
  }

  /** The scan for a free slot fails exactly when every slot is occupied. */
  lemma {:induction false} FreeSlot(slots: seq<Slot>)
    ensures InUse(slots, None) < |slots| <==> FirstFree(slots) < |slots|
  {
    if |slots| > 0 { FreeSlot(slots[1..]); }
  }

  /** The scan for account a fails exactly when no occupied slot holds it. */
  lemma {:induction false} HoldingSlot(slots: seq<Slot>, a: nat)
    ensures InUse(slots, Some(a)) > 0 <==> FirstHolding(slots, a) < |slots|
  {
    if |slots| > 0 { HoldingSlot(slots[1..], a); }
  }

  /** Permits are never lost, and for every account the number of occupied slots holding it is the
      number of times transactions have loaded it and not yet unloaded it. */
  ghost predicate PoolInv(cfg: Config, s: State)
    requires |s.threads| == |cfg.txs|
  {
    && |s.pool.slots| == cfg.poolSize
    && s.pool.permits + Sum(Transits(s)) + InUse(s.pool.slots, None) == cfg.poolSize
    && (forall p :: InUse(s.pool.slots, p) == Sum(Loads(cfg, s, p)))
    && s.pool.usage == s.pool.loads - s.pool.unloads == InUse(s.pool.slots, None)
    && s.pool.usage <= s.pool.peak <= cfg.poolSize
  }

  lemma LoadedStep(tx: Tx, th: Thread, tick: int, balances: seq<int>, p: Option<nat>)
    requires PcOk(tx, th, |balances|)
    ensures var th' := NextThread(tx, th, tick, balances);
      Loaded(tx, th', p) == Loaded(tx, th, p) +
        if th.pc.LoadSlot? && Counts(p, SlotAccounts(tx.ops[th.i])[th.pc.k]) then 1
        else if th.pc.Unload? && Counts(p, UnloadAccounts(tx.ops[th.i], th.ok)[th.pc.k]) then -1
        else 0
  {
  }

  /** If the thread is about to scan, the scan ends at a slot, not behind the last one. */
  predicate ScanHits(tx: Tx, th: Thread, n: nat, slots: seq<Slot>)
    requires PcOk(tx, th, n)
  {
    && (th.pc.LoadSlot? ==> FirstFree(slots) < |slots|)
    && (th.pc.Unload? ==> FirstHolding(slots, UnloadAccounts(tx.ops[th.i], th.ok)[th.pc.k]) < |slots|)
  }

  /** A permit in transit to a slot means a free slot; a loaded account means a slot holding it. */
  lemma ScanFinds(cfg: Config, s: State, t: nat)
    requires Shape(cfg, s) && PoolInv(cfg, s) && t < |s.threads|
    ensures ScanHits(cfg.txs[t], s.threads[t], |cfg.initial|, s.pool.slots)
  {
    var tx, th := cfg.txs[t], s.threads[t];
    if th.pc.LoadSlot? {
      SumNonNegative(Transits(s), t);
      FreeSlot(s.pool.slots);
    } else if th.pc.Unload? {
      var a := UnloadAccounts(tx.ops[th.i], th.ok)[th.pc.k];
      assert Loaded(tx, th, Some(a)) >= 1;
      SumNonNegative(Loads(cfg, s, Some(a)), t);
      HoldingSlot(s.pool.slots, a);
    }
  }

  lemma TransitsStep(cfg: Config, s: State, t: nat)
    requires Shape(cfg, s) && Enabled(cfg, s, t)
    ensures Sum(Transits(Next(cfg, s, t)))
         == Sum(Transits(s)) - Transit(s.threads[t]) + Transit(Next(cfg, s, t).threads[t])
  {
    var s' := Next(cfg, s, t);
    assert Transits(s') == Transits(s)[t := Transit(s'.threads[t])];
    SumUpdate(Transits(s), t, Transit(s'.threads[t]));
  }

  lemma LoadsStep(cfg: Config, s: State, t: nat, p: Option<nat>)
    requires Shape(cfg, s) && Enabled(cfg, s, t)
    ensures Sum(Loads(cfg, Next(cfg, s, t), p)) - Sum(Loads(cfg, s, p))
         == Loaded(cfg.txs[t], Next(cfg, s, t).threads[t], p) - Loaded(cfg.txs[t], s.threads[t], p)
  {
    var s' := Next(cfg, s, t);
    var x := Loaded(cfg.txs[t], s'.threads[t], p);
    assert Loads(cfg, s', p) == Loads(cfg, s, p)[t := x];
    SumUpdate(Loads(cfg, s, p), t, x);
  }

  lemma InUseStep(cfg: Config, s: State, t: nat, p: Option<nat>)
    requires Shape(cfg, s) && PoolInv(cfg, s) && Enabled(cfg, s, t)
    ensures var th, tx := s.threads[t], cfg.txs[t];
      InUse(Next(cfg, s, t).pool.slots, p) == InUse(s.pool.slots, p) +
        if th.pc.LoadSlot? && Counts(p, SlotAccounts(tx.ops[th.i])[th.pc.k]) then 1
        else if th.pc.Unload? && Counts(p, UnloadAccounts(tx.ops[th.i], th.ok)[th.pc.k]) then -1
        else 0
  {
    var tx, th := cfg.txs[t], s.threads[t];
    ScanFinds(cfg, s, t);
    if th.pc.LoadSlot? {
      InUseUpdate(s.pool.slots, FirstFree(s.pool.slots), Slot(SlotAccounts(tx.ops[th.i])[th.pc.k], true), p);
    } else if th.pc.Unload? {
      var k := FirstHolding(s.pool.slots, UnloadAccounts(tx.ops[th.i], th.ok)[th.pc.k]);
      InUseUpdate(s.pool.slots, k, s.pool.slots[k].(inUse := false), p);
    }
  }

  /** Slots in use and slots loaded change together. */
  lemma InUseIsLoads(cfg: Config, s: State, t: nat, p: Option<nat>)
    requires Shape(cfg, s) && PoolInv(cfg, s) && Enabled(cfg, s, t)
    ensures InUse(Next(cfg, s, t).pool.slots, p) == Sum(Loads(cfg, Next(cfg, s, t), p))
  {
    hide NextLocks, NextBalances, NextReserve, NextLog, NextPool, Loaded, Counts, InUse, Loads;
    LoadsStep(cfg, s, t, p);
    LoadedStep(cfg.txs[t], s.threads[t], s.tick, s.balances, p);
    InUseStep(cfg, s, t, p);
  }

  lemma PoolStep(cfg: Config, s: State, t: nat)
    requires Shape(cfg, s) && PoolInv(cfg, s) && Enabled(cfg, s, t)
    ensures PoolInv(cfg, Next(cfg, s, t))
  {
    hide NextLocks, NextBalances, NextReserve, NextLog, InUse, Loads;
    var s' := Next(cfg, s, t);
    ScanFinds(cfg, s, t);
    TransitsStep(cfg, s, t);
    forall p ensures InUse(s'.pool.slots, p) == Sum(Loads(cfg, s', p)) { InUseIsLoads(cfg, s, t, p); }
    InUseStep(cfg, s, t, None);
  }

  lemma {:induction false} InitInUse(n: nat, p: Option<nat>)
    ensures InUse(InitPool(n).slots, p) == 0
  {
    if n > 0 {
      InitInUse(n - 1, p);
      assert InitPool(n).slots[1..] == InitPool(n - 1).slots;
    }
  }

  /** Every interleaving keeps the pool consistent. */
  lemma {:induction false} PoolConsistent(cfg: Config, sched: seq<Choice>)
    requires ConfigOk(cfg)
    ensures PoolInv(cfg, Exec(cfg, sched))
  {
    if |sched| == 0 {
      SumZero(Transits(Init(cfg)));
      forall p ensures InUse(InitPool(cfg.poolSize).slots, p) == 0 == Sum(Loads(cfg, Init(cfg), p)) {
        InitInUse(cfg.poolSize, p);
        SumZero(Loads(cfg, Init(cfg), p));
      }
    } else {
      var s, c := Exec(cfg, sched[..|sched| - 1]), sched[|sched| - 1];
      PoolConsistent(cfg, sched[..|sched| - 1]);
      if c.Run? && Enabled(cfg, s, c.t) {
        PoolStep(cfg, s, c.t);
      } else {
        var s' := Exec(cfg, sched);
        assert Transits(s') == Transits(s);
        forall p ensures InUse(s'.pool.slots, p) == Sum(Loads(cfg, s', p)) {
          assert Loads(cfg, s', p) == Loads(cfg, s, p);
        }
      }
    }
  }

  ghost predicate AllDone(s: State) {
    forall t :: 0 <= t < |s.threads| ==> s.threads[t].pc.Done?
  }

  /** In every interleaving a thread that scans for a free slot, or for the slot of an account it
      unloads, finds it. */
  lemma ScansSucceed(cfg: Config, sched: seq<Choice>, t: nat)
    requires ConfigOk(cfg) && t < |cfg.txs|
    ensures ScanHits(cfg.txs[t], Exec(cfg, sched).threads[t], |cfg.initial|, Exec(cfg, sched).pool.slots)
  {
    PoolConsistent(cfg, sched);
    ScanFinds(cfg, Exec(cfg, sched), t);
  }

  /** Once every transaction has ended the pool is empty, with every permit back and as many unloads
      as loads. */
  lemma PoolDrains(cfg: Config, sched: seq<Choice>)
    requires ConfigOk(cfg) && AllDone(Exec(cfg, sched))
    ensures var pool := Exec(cfg, sched).pool;
      && pool.permits == cfg.poolSize && pool.usage == 0 && pool.loads == pool.unloads
      && forall k :: 0 <= k < |pool.slots| ==> !pool.slots[k].inUse
  {
    var s := Exec(cfg, sched);
    PoolConsistent(cfg, sched);
    SumZero(Transits(s));
    forall p ensures Sum(Loads(cfg, s, p)) == 0 { SumZero(Loads(cfg, s, p)); }
    forall k | 0 <= k < |s.pool.slots| ensures !s.pool.slots[k].inUse {
      assert InUse(s.pool.slots, Some(s.pool.slots[k].account)) == 0;
      HoldingSlot(s.pool.slots, s.pool.slots[k].account);
    }
  }
}
