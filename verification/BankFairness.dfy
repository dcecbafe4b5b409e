/** Fair schedules: with fewer transferring transactions than slots, every schedule that keeps giving the
    timer and all threads their turns runs every transaction to its end, within a bounded number of turns. */
module BankFairness {
  import opened Wrappers
  import opened BankModel
  import opened BankLocks
  import opened BankPool
  import opened BankProgress
  import opened Sums

  function TickCount(cs: seq<Choice>): nat {
    if |cs| == 0 then 0 else (if cs[0].Tick? then 1 else 0) + TickCount(cs[1..])
  }

  /** First enough ticks for every start and one more, whatever else happens meanwhile; then every thread
      gets a turn, in any order and with anything in between. */
  ghost predicate FairRound(cfg: Config, cs: seq<Choice>) {
    exists j :: FairAt(cfg, cs, j)
  }

  predicate FairAt(cfg: Config, cs: seq<Choice>, j: int) {
    && 0 <= j <= |cs| && TickCount(cs[..j]) > LastStart(cfg.txs)
    && forall t :: 0 <= t < |cfg.txs| ==> Run(t) in cs[j..]
  }

  /** The invariants of the bank, and that nobody waits for more than one tick after an operation. */
  ghost predicate Sound(cfg: Config, s: State) {
    && Shape(cfg, s) && LockInv(cfg, s) && PoolInv(cfg, s) && s.tick >= 0
    && forall t :: 0 <= t < |s.threads| && s.threads[t].pc.WaitNext? ==> s.threads[t].next <= s.tick + 1
  }

  lemma StepSound(cfg: Config, s: State, t: nat)
    requires Sound(cfg, s) && Enabled(cfg, s, t)
    ensures Sound(cfg, Next(cfg, s, t)) && Sum(Works(cfg, Next(cfg, s, t))) < Sum(Works(cfg, s))
  {
    LockStep(cfg, s, t);
    PoolStep(cfg, s, t);
    WorkFalls(cfg, s, t);
    StepDue(cfg, s, t);
  }

  lemma StepDue(cfg: Config, s: State, t: nat)
    requires Sound(cfg, s) && Enabled(cfg, s, t)
    ensures var s' := Next(cfg, s, t);
      forall u :: 0 <= u < |s'.threads| && s'.threads[u].pc.WaitNext? ==> s'.threads[u].next <= s'.tick + 1
  {
    hide NextLocks, NextPool, NextBalances, NextReserve, NextLog, LockInv, PoolInv;
  }

  lemma TickSound(cfg: Config, s: State)
    requires Sound(cfg, s)
    ensures Sound(cfg, s.(tick := s.tick + 1)) && Works(cfg, s.(tick := s.tick + 1)) == Works(cfg, s)
  {
    TickKeeps(cfg, s, 1);
  }

  /** The work left never grows, and as long as it stays the same only the clock moves. */
  lemma {:induction false} RunWorks(cfg: Config, s: State, cs: seq<Choice>)
    requires Sound(cfg, s)
    ensures var s' := RunFrom(cfg, s, cs);
      && Sound(cfg, s') && Sum(Works(cfg, s')) <= Sum(Works(cfg, s))
      && (Sum(Works(cfg, s')) == Sum(Works(cfg, s)) ==> s' == s.(tick := s.tick + TickCount(cs)))
    decreases |cs|
  {
    hide Sound, Next, Works, Enabled;
    SoundShape(cfg, s);
    if |cs| > 0 {
      var s1 := Take(cfg, s, cs[0]);
      TakeSound(cfg, s, cs[0]);
      RunWorks(cfg, s1, cs[1..]);
    }
  }

  lemma SoundShape(cfg: Config, s: State)
    requires Sound(cfg, s)
    ensures Shape(cfg, s)
  {
  }

  lemma TakeSound(cfg: Config, s: State, c: Choice)
    requires Sound(cfg, s)
    ensures Shape(cfg, s) && Sound(cfg, Take(cfg, s, c)) && |s.threads| == |Take(cfg, s, c).threads| == |cfg.txs|
    ensures Sum(Works(cfg, Take(cfg, s, c))) <= Sum(Works(cfg, s))
    ensures Sum(Works(cfg, Take(cfg, s, c))) == Sum(Works(cfg, s)) ==>
      Take(cfg, s, c) == s.(tick := s.tick + if c.Tick? then 1 else 0)
  {
    hide Sound, Next, Works, Enabled, PcOk;
    SoundShape(cfg, s);
    match c {
      case Tick => TickSound(cfg, s);
      case Run(t) =>
        if Enabled(cfg, s, t) {
          StepSound(cfg, s, t);
          SoundShape(cfg, Next(cfg, s, t));
        }
    }
  }

  /** When no tick is missing, some thread can move. */
  lemma SomeoneReady(cfg: Config, s: State, t: nat) returns (u: nat)
    requires Sound(cfg, s) && t < |s.threads| && !s.threads[t].pc.Done? && Sum(Flags(cfg)) < cfg.poolSize
    requires s.tick >= LastStart(cfg.txs)
    requires forall v :: 0 <= v < |s.threads| && s.threads[v].pc.WaitNext? ==> s.threads[v].next <= s.tick
    ensures Enabled(cfg, s, u)
  {
    hide PcOk, PoolInv, LockInv;
    if SlotsExhausted(s) { ExhaustedBy(cfg, s); }
    if v :| 0 <= v < |s.threads| && s.threads[v].pc.Lock? {
      u := LockOwnerMoves(cfg, s, v);
    } else if v :| 0 <= v < |s.threads| && !s.threads[v].pc.LoadSem? && !s.threads[v].pc.Done? {
      u := v;
    } else {
      u := t;
    }
  }

  lemma EnabledLater(cfg: Config, s: State, n: nat, t: nat)
    requires Shape(cfg, s) && Enabled(cfg, s, t)
    ensures Shape(cfg, s.(tick := s.tick + n)) && Enabled(cfg, s.(tick := s.tick + n), t)
  {
  }

  /** If somebody who can move gets a turn, the work left falls. */
  lemma TurnWorks(cfg: Config, s: State, u: nat, cs: seq<Choice>)
    requires Sound(cfg, s) && Enabled(cfg, s, u) && Run(u) in cs
    ensures Sound(cfg, RunFrom(cfg, s, cs)) && Sum(Works(cfg, RunFrom(cfg, s, cs))) < Sum(Works(cfg, s))
  {
    hide Sound, Next, Works, Enabled, RunFrom;
    SoundShape(cfg, s);
    var i :| 0 <= i < |cs| && cs[i] == Run(u);
    assert cs == cs[..i] + cs[i..];
    RunThen(cfg, s, cs[..i], cs[i..]);
    RunWorks(cfg, s, cs[..i]);
    var s1 := RunFrom(cfg, s, cs[..i]);
    RunWorks(cfg, s1, cs[i..]);
    if Sum(Works(cfg, s1)) == Sum(Works(cfg, s)) {
      EnabledLater(cfg, s, TickCount(cs[..i]), u);
      StepSound(cfg, s1, u);
      RunWorks(cfg, Next(cfg, s1, u), cs[i..][1..]);
      RunFirst(cfg, s1, u, cs[i..]);
    }
  }

  lemma RunFirst(cfg: Config, s: State, u: nat, cs: seq<Choice>)
    requires Shape(cfg, s) && Enabled(cfg, s, u) && |cs| > 0 && cs[0] == Run(u)
    ensures Shape(cfg, Next(cfg, s, u)) && RunFrom(cfg, s, cs) == RunFrom(cfg, Next(cfg, s, u), cs[1..])
  {
    TakeShape(cfg, s, Run(u));
  }

  /** A fair round brings every unfinished state nearer to its end. */
  lemma RoundWorks(cfg: Config, s: State, cs: seq<Choice>)
    requires Sound(cfg, s) && FairRound(cfg, cs) && Sum(Flags(cfg)) < cfg.poolSize && !AllDone(s)
    ensures Sound(cfg, RunFrom(cfg, s, cs)) && Sum(Works(cfg, RunFrom(cfg, s, cs))) < Sum(Works(cfg, s))
  {
    hide Next, Works, Enabled, RunFrom, PcOk, LockInv, PoolInv;
    var j :| FairAt(cfg, cs, j);
    assert cs == cs[..j] + cs[j..];
    RunThen(cfg, s, cs[..j], cs[j..]);
    RunWorks(cfg, s, cs[..j]);
    var s1 := RunFrom(cfg, s, cs[..j]);
    if Sum(Works(cfg, s1)) == Sum(Works(cfg, s)) {
      var t :| 0 <= t < |s.threads| && !s.threads[t].pc.Done?;
      var u := SomeoneReady(cfg, s1, t);
      EnabledIsThread(cfg, s1, u);
      TurnWorks(cfg, s1, u, cs[j..]);
    } else {
      RunWorks(cfg, s1, cs[j..]);
    }
  }

  lemma EnabledIsThread(cfg: Config, s: State, u: nat)
    requires Shape(cfg, s) && Enabled(cfg, s, u)
    ensures u < |cfg.txs|
  {
  }

  // ----- whole runs -----

  function Flatten(rounds: seq<seq<Choice>>): seq<Choice> {
    if |rounds| == 0 then [] else Flatten(rounds[..|rounds| - 1]) + rounds[|rounds| - 1]
  }

  lemma InitSound(cfg: Config)
    requires ConfigOk(cfg)
    ensures Exec(cfg, []) == Init(cfg) && Sound(cfg, Init(cfg))
  {
    LocksAgree(cfg, []);
    PoolConsistent(cfg, []);
  }

  /** A state with no work left is one in which all have ended. */
  lemma WorkLeft(cfg: Config, s: State)
    requires Sound(cfg, s)
    ensures Sum(Works(cfg, s)) >= 0
    ensures Sum(Works(cfg, s)) == 0 ==> AllDone(s)
  {
    forall t | 0 <= t < |s.threads| ensures Works(cfg, s)[t] >= if s.threads[t].pc.Done? then 0 else 1 {
      WorkOfStep(cfg.txs[t], s.threads[t], s.tick, s.balances);
      if !s.threads[t].pc.Done? {
        NextPcOk(cfg.txs[t], s.threads[t], s.tick, s.balances);
        WorkOfStep(cfg.txs[t], NextThread(cfg.txs[t], s.threads[t], s.tick, s.balances), s.tick, s.balances);
      }
    }
    if |s.threads| > 0 { SumNonNegative(Works(cfg, s), 0); }
    if t :| 0 <= t < |s.threads| && !s.threads[t].pc.Done? { SumNonNegative(Works(cfg, s), t); }
  }

  lemma {:induction false} DoneStays(cfg: Config, s: State, cs: seq<Choice>)
    requires Shape(cfg, s) && AllDone(s)
    ensures AllDone(RunFrom(cfg, s, cs))
    decreases |cs|
  {
    if |cs| > 0 {
      TakeShape(cfg, s, cs[0]);
      DoneStays(cfg, Take(cfg, s, cs[0]), cs[1..]);
    }
  }

  lemma {:induction false} RoundsWork(cfg: Config, rounds: seq<seq<Choice>>)
    requires ConfigOk(cfg) && Sum(Flags(cfg)) < cfg.poolSize
    requires forall i :: 0 <= i < |rounds| ==> FairRound(cfg, rounds[i])
    ensures var s := Exec(cfg, Flatten(rounds));
      Sound(cfg, s) && (AllDone(s) || Sum(Works(cfg, s)) <= Sum(Works(cfg, Init(cfg))) - |rounds|)
  {
    hide Sound, Exec, RunFrom, Works, FairRound;
    InitSound(cfg);
    if |rounds| > 0 {
      var before, last := rounds[..|rounds| - 1], rounds[|rounds| - 1];
      RoundsWork(cfg, before);
      var s := Exec(cfg, Flatten(before));
      ExecThen(cfg, Flatten(before), last);
      RunWorks(cfg, s, last);
      if AllDone(s) { DoneStays(cfg, s, last); } else { RoundWorks(cfg, s, last); }
    }
  }

  /** Liveness: with fewer transferring transactions than slots, any schedule made of as many fair rounds
      as there is work in the beginning ends with every transaction committed or aborted. */
  lemma FairRunsEnd(cfg: Config, rounds: seq<seq<Choice>>)
    requires ConfigOk(cfg) && Sum(Flags(cfg)) < cfg.poolSize
    requires forall i :: 0 <= i < |rounds| ==> FairRound(cfg, rounds[i])
    requires |rounds| >= Sum(Works(cfg, Init(cfg)))
    ensures AllDone(Exec(cfg, Flatten(rounds)))
  {
    hide Sound, Exec, Works;
    RoundsWork(cfg, rounds);
    WorkLeft(cfg, Exec(cfg, Flatten(rounds)));
  }
}
