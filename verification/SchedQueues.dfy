/** The event list and the ready queue as objects that update their lists in place. */
module SchedQueues {
  import opened Wrappers
  import opened Processes
  import opened SchedModel
  import opened SchedInv
  import opened MlfqLists

  class EventQueue {
    var events: seq<Event>
    var size: int

    ghost predicate Valid()
      reads this
    {
      size == |events|
    }

    constructor ()
      ensures Valid() && events == []
    {
      events, size := [], 0;
    }

    /** Inserts behind every event that is not later, with the remaining-time tie-break if asked for. */
    method Enqueue(e: Event, byRemaining: bool, procs: array<Proc>)
      requires Valid() && e.pid < procs.Length
      requires forall i :: 0 <= i < |events| ==> events[i].pid < procs.Length
      modifies this
      ensures Valid() && events == InsertEvent(byRemaining, procs[..], old(events), e)
    {
      var curr := 0;
      if byRemaining {
        while curr < |events| && e.time >= events[curr].time
          invariant curr <= |events|
          invariant forall i :: 0 <= i < curr ==> !Before(true, procs[..], e, events[i])
        {
          if e.time == events[curr].time && procs[e.pid].remaining < procs[events[curr].pid].remaining {
            break;
          }
          curr := curr + 1;
        }
      } else {
        while curr < |events| && e.time >= events[curr].time
          invariant curr <= |events|
          invariant forall i :: 0 <= i < curr ==> !Before(false, procs[..], e, events[i])
        {
          curr := curr + 1;
        }
      }
      assert curr == EventPos(byRemaining, procs[..], events, e);
      events := InsertAt(events, curr, e);
      size := size + 1;
    }

    method Dequeue() returns (e: Option<Event>)
      requires Valid()
      modifies this
      ensures Valid()
      ensures e == if |old(events)| == 0 then None else Some(old(events)[0])
      ensures events == if |old(events)| == 0 then [] else old(events)[1..]
    {
      if |events| == 0 {
        e := None;
      } else {
        e := Some(events[0]);
        events := events[1..];
        size := size - 1;
      }
    }

    method PeekNextArrival() returns (e: Option<Event>)
      requires Valid()
      ensures var k := NextArrival(events); e == if k < |events| then Some(events[k]) else None
    {
      var curr := 0;
      while curr < |events|
        invariant curr <= |events|
        invariant forall i :: 0 <= i < curr ==> !events[i].kind.Arrival?
      {
        if events[curr].kind.Arrival? {
          assert curr == NextArrival(events);
          return Some(events[curr]);
        }
        curr := curr + 1;
      }
      e := None;
    }

    method RemoveEventForProcess(p: nat)
      requires Valid()
      modifies this
      ensures Valid() && events == RemoveEvent(old(events), p)
    {
      var curr := 0;
      while curr < |events|
        invariant curr <= |events| && events == old(events) && size == |events|
        invariant forall i :: 0 <= i < curr ==> events[i].pid != p
      {
        if events[curr].pid == p {
          assert curr == EventOf(events, p);
          events := RemoveAt(events, curr);
          size := size - 1;
          return;
        }
        curr := curr + 1;
      }
    }
  }

  // ----- sizes -----

  lemma EmptyLength(r: Ready)
    ensures Empty(r) <==> |Flat(r)| == 0
  {
    if r.Levels? {
      if Empty(r) { ConcatEmpty(r.levels); } else { ConcatLength(r.levels, BestLevel(r.levels), []); }
    }
  }

  class FcfsQueue {
    var line: seq<nat>
    var size: int

    ghost predicate Valid()
      reads this
    {
      size == |line|
    }

    constructor ()
      ensures Valid() && line == []
    {
      line, size := [], 0;
    }

    /** `fcfs_enqueue`: behind everybody. */
    method Enqueue(p: nat)
      requires Valid()
      modifies this
      ensures Valid() && line == old(line) + [p]
    {
      line := line + [p];
      size := size + 1;
    }

    /** `fcfs_dequeue`: the head of the line. */
    method Dequeue() returns (p: Option<nat>)
      requires Valid()
      modifies this
      ensures Valid()
      ensures p == if |old(line)| == 0 then None else Some(old(line)[0])
      ensures line == if |old(line)| == 0 then [] else old(line)[1..]
    {
      if |line| == 0 {
        p := None;
      } else {
        p := Some(line[0]);
        line := line[1..];
        size := size - 1;
      }
    }
  }

  class SjfQueue {
    var line: seq<nat>
    var size: int

    ghost predicate Valid()
      reads this
    {
      size == |line|
    }

    constructor ()
      ensures Valid() && line == []
    {
      line, size := [], 0;
    }

    /** `sjf_enqueue`: behind everybody whose burst is not longer. */
    method Enqueue(procs: array<Proc>, p: nat)
      requires Valid() && p < procs.Length && forall i :: 0 <= i < |line| ==> line[i] < procs.Length
      modifies this
      ensures Valid() && line == InsertAt(old(line), LinePos(SJF, procs[..], old(line), p), p)
    {
      var curr := 0;
      while curr < |line| && procs[p].burst >= procs[line[curr]].burst
        invariant curr <= |line|
        invariant forall i :: 0 <= i < curr ==> Key(SJF, procs[..], p) >= Key(SJF, procs[..], line[i])
      {
        curr := curr + 1;
      }
      assert curr == LinePos(SJF, procs[..], line, p);
      line := InsertAt(line, curr, p);
      size := size + 1;
    }

    /** `sjf_dequeue`: the head of the line. */
    method Dequeue() returns (p: Option<nat>)
      requires Valid()
      modifies this
      ensures Valid()
      ensures p == if |old(line)| == 0 then None else Some(old(line)[0])
      ensures line == if |old(line)| == 0 then [] else old(line)[1..]
    {
      if |line| == 0 {
        p := None;
      } else {
        p := Some(line[0]);
        line := line[1..];
        size := size - 1;
      }
    }
  }

  class StcfQueue {
    var line: seq<nat>
    var size: int

    ghost predicate Valid()
      reads this
    {
      size == |line|
    }

    constructor ()
      ensures Valid() && line == []
    {
      line, size := [], 0;
    }

    /** `stcf_enqueue`: behind everybody who does not have more work left. */
    method Enqueue(procs: array<Proc>, p: nat)
      requires Valid() && p < procs.Length && forall i :: 0 <= i < |line| ==> line[i] < procs.Length
      modifies this
      ensures Valid() && line == InsertAt(old(line), LinePos(STCF, procs[..], old(line), p), p)
    {
      var curr := 0;
      while curr < |line| && procs[p].remaining >= procs[line[curr]].remaining
        invariant curr <= |line|
        invariant forall i :: 0 <= i < curr ==> Key(STCF, procs[..], p) >= Key(STCF, procs[..], line[i])
      {
        curr := curr + 1;
      }
      assert curr == LinePos(STCF, procs[..], line, p);
      line := InsertAt(line, curr, p);
      size := size + 1;
    }

    /** `stcf_dequeue`: the head of the line. */
    method Dequeue() returns (p: Option<nat>)
      requires Valid()
      modifies this
      ensures Valid()
      ensures p == if |old(line)| == 0 then None else Some(old(line)[0])
      ensures line == if |old(line)| == 0 then [] else old(line)[1..]
    {
      if |line| == 0 {
        p := None;
      } else {
        p := Some(line[0]);
        line := line[1..];
        size := size - 1;
      }
    }
  }

  class RrQueue {
    var active: seq<nat>
    var round: seq<nat>
    var pending: seq<nat>
    var size: int

    ghost function View(): Ready
      reads this
    {
      Rounds(active, round, pending)
    }

    ghost predicate Valid()
      reads this
    {
      size == |Flat(View())|
    }

    constructor ()
      ensures Valid() && View() == Rounds([], [], [])
    {
      active, round, pending, size := [], [], [], 0;
    }

    /** `rr_enqueue`: a new arrival is pending until the round ends. */
    method Enqueue(p: nat)
      requires Valid()
      modifies this
      ensures Valid() && View() == old(View()).(pending := old(pending) + [p])
    {
      pending := pending + [p];
      size := size + 1;
    }

    /** `rr_requeue`: a preempted process goes to the round buffer. */
    method Requeue(p: nat)
      requires Valid()
      modifies this
      ensures Valid() && View() == old(View()).(round := old(round) + [p])
    {
      round := round + [p];
      size := size + 1;
    }

    /** `rr_dequeue`: when no active entry is left the round buffer, then the pending arrivals, become
        the active list. */
    method Dequeue() returns (p: Option<nat>)
      requires Valid()
      modifies this
      ensures Valid()
      ensures Empty(old(View())) ==> p.None? && View() == old(View())
      ensures !Empty(old(View())) ==> p == Some(Head(old(View()))) && View() == Rest(old(View()))
    {
      if |active| == 0 {
        active, round := round, [];
        active, pending := active + pending, [];
      }
      if |active| == 0 {
        p := None;
      } else {
        p := Some(active[0]);
        active := active[1..];
        size := size - 1;
      }
    }
  }

  /** `AbstractProcessQueue`: the queue of one of the policies, with the operations the simulator calls. */
  datatype ProcessQueue =
    | Fcfs(fcfs: FcfsQueue)
    | Sjf(sjf: SjfQueue)
    | Stcf(stcf: StcfQueue)
    | Rr(rr: RrQueue)
    | Mlfq(mlfq: MlfqQueue)
  {
    /** The queue object itself. */
    function Self(): object {
      match this
      case Fcfs(q) => q
      case Sjf(q) => q
      case Stcf(q) => q
      case Rr(q) => q
      case Mlfq(q) => q
    }

    /** Everything that belongs to the queue. */
    ghost function Repr(): set<object>
      reads Self()
    {
      match this
      case Mlfq(q) =>
        var own: set<object> := {q};
        own + q.nodes
      case _ => {Self()}
    }

    /** It is the queue the policy uses. */
    predicate For(pol: Policy) {
      match pol
      case FCFS => Fcfs?
      case SJF => Sjf?
      case STCF => Stcf?
      case RR(_) => Rr?
      case MLFQ(_) => Mlfq?
    }

    ghost function View(): Ready
      reads Self()
    {
      match this
      case Fcfs(q) => Line(q.line)
      case Sjf(q) => Line(q.line)
      case Stcf(q) => Line(q.line)
      case Rr(q) => q.View()
      case Mlfq(q) => Levels(q.View())
    }

    ghost predicate Valid()
      reads Self(), Repr()
    {
      match this
      case Fcfs(q) => q.Valid()
      case Sjf(q) => q.Valid()
      case Stcf(q) => q.Valid()
      case Rr(q) => q.Valid()
      case Mlfq(q) => q.Valid()
    }

    /** Number of ready processes. */
    function Size(): (n: int)
      requires Valid()
      reads Self(), Repr()
      ensures n == |Flat(View())|
    {
      match this
      case Fcfs(q) => q.size
      case Sjf(q) => q.size
      case Stcf(q) => q.size
      case Rr(q) => q.size
      case Mlfq(q) => q.size
    }

    /** `enqueue` of whichever queue it is. */
    method Enqueue(ghost pol: Policy, procs: array<Proc>, p: nat)
      requires Valid() && For(pol) && Fits(pol, View()) && procs !in Repr()
      requires p < procs.Length && Entered(pol, procs[p]).priority >= 0
      requires forall i :: 0 <= i < |Flat(View())| ==> Flat(View())[i] < procs.Length
      modifies Repr(), procs
      ensures Valid() && fresh(Repr() - old(Repr()))
      ensures procs[..] == old(procs[..])[p := Entered(pol, old(procs[p]))]
      ensures View() == SchedModel.Enqueue(pol, procs[..], old(View()), p)
    {
      match this {
        case Fcfs(q) => q.Enqueue(p);
        case Sjf(q) =>
          assert Flat(View()) == q.line;
          q.Enqueue(procs, p);
        case Stcf(q) =>
          assert Flat(View()) == q.line;
          q.Enqueue(procs, p);
        case Rr(q) => q.Enqueue(p);
        case Mlfq(q) => q.Enqueue(procs, p);
      }
    }

    /** `dequeue` of whichever queue it is. */
    method Dequeue() returns (p: Option<nat>)
      requires Valid()
      modifies Repr()
      ensures Valid() && Repr() == old(Repr())
      ensures Empty(old(View())) ==> p.None? && View() == old(View())
      ensures !Empty(old(View())) ==> p == Some(Head(old(View()))) && View() == Rest(old(View()))
    {
      match this {
        case Fcfs(q) => p := q.Dequeue();
        case Sjf(q) => p := q.Dequeue();
        case Stcf(q) => p := q.Dequeue();
        case Rr(q) => p := q.Dequeue();
        case Mlfq(q) => p := q.Dequeue();
      }
    }
  }

  method NewQueue(pol: Policy) returns (q: ProcessQueue)
    requires pol.MLFQ? ==> |pol.levels| > 0
    ensures q.For(pol) && q.Valid() && q.View() == InitReady(pol) && fresh(q.Repr())
  {
    match pol {
      case FCFS =>
        var queue := new FcfsQueue();
        q := Fcfs(queue);
      case SJF =>
        var queue := new SjfQueue();
        q := Sjf(queue);
      case STCF =>
        var queue := new StcfQueue();
        q := Stcf(queue);
      case RR(_) =>
        var queue := new RrQueue();
        q := Rr(queue);
      case MLFQ(levels) =>
        var queue := new MlfqQueue(|levels|);
        q := Mlfq(queue);
    }
  }
}
