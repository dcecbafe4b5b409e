/** The multi-level feedback queue as linked lists: one list of nodes per priority level, with head and
    tail pointers, proved to implement the sequences of the model. */
module MlfqLists {
  import opened Wrappers
  import opened Processes
  import opened SchedModel
  import opened SchedInv
  import opened SchedMlfq

  /** Where the running process goes when it is moved to another level: out of its old one if it is
      there, and to the end of the new one. */
  function Moved(ls: seq<seq<nat>>, from: nat, to: nat, p: nat): (r: seq<seq<nat>>)
    requires from < |ls| && to < |ls|
    ensures |r| == |ls|
  {
    var k := First(ls[from], p);
    var out := if k < |ls[from]| then ls[from := RemoveAt(ls[from], k)] else ls;
    out[to := out[to] + [p]]
  }

  class Node {
    const pid: nat
    var next: Node?

    constructor (pid: nat)
      ensures this.pid == pid && next == null
    {
      this.pid := pid;
      next := null;
    }
  }

  function Pids(spine: seq<Node>): (q: seq<nat>)
    ensures |q| == |spine| && forall i :: 0 <= i < |q| ==> q[i] == spine[i].pid
  {
    seq(|spine|, i requires 0 <= i < |spine| => spine[i].pid)
  }

  ghost predicate Distinct(spine: seq<Node>) {
    forall i, j :: 0 <= i < j < |spine| ==> spine[i] != spine[j]
  }

  /** Node i of the spine points to the one after it. */
  ghost predicate PointsOn(spine: seq<Node>, i: nat)
    requires i < |spine|
    reads spine
  {
    spine[i].next == if i + 1 < |spine| then spine[i + 1] else null
  }

  /** The list from head to tail runs through the nodes of the spine. */
  ghost predicate Chain(head: Node?, tail: Node?, spine: seq<Node>)
    reads spine
  {
    && Distinct(spine)
    && (if |spine| == 0 then head == null && tail == null else head == spine[0] && tail == spine[|spine| - 1])
    && forall i :: 0 <= i < |spine| ==> PointsOn(spine, i)
  }

  // ----- one level -----

  method Append(head: Node?, tail: Node?, ghost spine: seq<Node>, node: Node) returns (h: Node, t: Node)
    requires Chain(head, tail, spine) && node !in spine && node.next == null
    modifies spine
    ensures Chain(h, t, spine + [node])
  {
    if tail == null {
      h := node;
    } else {
      tail.next := node;
      h := head;
    }
    t := node;
    forall i | 0 <= i < |spine + [node]| ensures PointsOn(spine + [node], i) {
      assert i < |spine| ==> old(PointsOn(spine, i));
    }
  }

  /** The first node that holds p and the one before it, or null. */
  method Find(head: Node?, tail: Node?, ghost spine: seq<Node>, p: nat)
    returns (prev: Node?, current: Node?, ghost k: nat)
    requires Chain(head, tail, spine)
    ensures k == First(Pids(spine), p)
    ensures current == if k < |spine| then spine[k] else null
    ensures prev == if k == 0 then null else spine[k - 1]
  {
    current, prev, k := head, null, 0;
    while current != null && current.pid != p
      invariant k <= |spine|
      invariant current == if k < |spine| then spine[k] else null
      invariant prev == if k == 0 then null else spine[k - 1]
      invariant forall i :: 0 <= i < k ==> spine[i].pid != p
      decreases |spine| - k
    {
      assert PointsOn(spine, k);
      prev := current;
      current := current.next;
      k := k + 1;
    }
    FirstIs(Pids(spine), p, k);
  }

  /** Unlinks the first node that holds p, if there is one. */
  method Remove(head: Node?, tail: Node?, ghost spine: seq<Node>, p: nat)
    returns (h: Node?, t: Node?, found: bool, ghost rest: seq<Node>)
    requires Chain(head, tail, spine)
    modifies spine
    ensures var k := First(Pids(spine), p);
      found == (k < |spine|) && rest == (if found then RemoveAt(spine, k) else spine)
    ensures Chain(h, t, rest)
  {
    hide RemoveAt;
    var prev, current, k := Find(head, tail, spine, p);
    h, t, rest := head, tail, spine;
    found := current != null;
    if found {
      assert PointsOn(spine, k);
      if prev == null {
        h := current.next;
      } else {
        prev.next := current.next;
      }
      if current == tail {
        t := prev;
      }
      RemovedSpine(spine, k);
      rest := RemoveAt(spine, k);
      forall i | 0 <= i < |rest| ensures PointsOn(rest, i) {
        assert old(PointsOn(spine, if i < k then i else i + 1));
        assert rest[i] == spine[if i < k then i else i + 1];
      }
    }
  }

  lemma {:induction false} FirstIs(q: seq<nat>, p: nat, k: nat)
    requires k <= |q| && (forall i :: 0 <= i < k ==> q[i] != p) && (k < |q| ==> q[k] == p)
    ensures First(q, p) == k
  {
  }

  lemma RemovedSpine(spine: seq<Node>, k: nat)
    requires k < |spine| && Distinct(spine)
    ensures var r := RemoveAt(spine, k);
      && |r| == |spine| - 1 && Distinct(r) && Pids(r) == RemoveAt(Pids(spine), k)
      && forall i :: 0 <= i < |r| ==> r[i] == spine[if i < k then i else i + 1]
  {
  }

  // ----- all levels -----

  /** The level `mlfq_enqueue` files a process under. */
  function HomeLevel(pr: Proc, n: nat): nat
    requires n > 0 && pr.priority >= -1
  {
    if pr.priority == -1 then 0 else LevelOf(pr, n)
  }

  /** A boosted process starts over at the top level. */
  function Boosted(pr: Proc): Proc {
    pr.(priority := 0, inQueue := 0)
  }

  /** All processes at the top level, in order of service. */
  function BoostedLevels(ls: seq<seq<nat>>): seq<seq<nat>>
    requires |ls| > 0
  {
    seq(|ls|, i => if i == 0 then Concat(ls) else [])
  }

  function AllPids(spines: seq<seq<Node>>): (v: seq<seq<nat>>)
    ensures |v| == |spines| && forall i :: 0 <= i < |spines| ==> v[i] == Pids(spines[i])
  {
    seq(|spines|, i requires 0 <= i < |spines| => Pids(spines[i]))
  }

  ghost predicate Apart(a: seq<Node>, b: seq<Node>) {
    forall n :: n in a ==> n !in b
  }

  class MlfqQueue {
    var heads: seq<Node?>
    var tails: seq<Node?>
    var size: int
    ghost var spines: seq<seq<Node>>
    ghost var nodes: set<Node>

    ghost function View(): (v: seq<seq<nat>>)
      reads `spines
      ensures |v| == |spines| && forall i :: 0 <= i < |spines| ==> v[i] == Pids(spines[i])
    {
      AllPids(spines)
    }

    ghost predicate LevelOk(i: nat)
      requires i < |heads| == |tails| == |spines|
      reads `heads, `tails, `spines, `nodes, nodes
    {
      (forall n :: n in spines[i] ==> n in nodes) && Chain(heads[i], tails[i], spines[i])
    }

    /** Every level is a well-formed list and no two share a node. */
    ghost predicate Linked()
      reads `heads, `tails, `spines, `nodes, nodes
    {
      && 0 < |heads| == |tails| == |spines|
      && (forall i :: 0 <= i < |spines| ==> LevelOk(i))
      && forall i, j :: 0 <= i < |spines| && 0 <= j < |spines| && i != j ==> Apart(spines[i], spines[j])
    }

    ghost predicate Valid()
      reads this, nodes
    {
      Linked() && size == |Concat(View())|
    }

    constructor (numLevels: nat)
      requires numLevels > 0
      ensures Valid() && fresh(nodes) && View() == seq(numLevels, _ => [])
    {
      heads, tails := seq(numLevels, _ => null), seq(numLevels, _ => null);
      spines, nodes := seq(numLevels, _ => []), {};
      size := 0;
      new;
      ConcatEmpty(View());
    }

    /** Appends a new node for p to level l. */
    method Put(l: nat, p: nat)
      requires Linked() && l < |heads|
      modifies `heads, `tails, `spines, `nodes, nodes
      ensures Linked() && View() == old(View())[l := old(View())[l] + [p]]
      ensures fresh(nodes - old(nodes))
    {
      hide Distinct, Pids, AllPids;
      var node := new Node(p);
      assert LevelOk(l);
      ghost var spine := spines[l];
      var h, t := Append(heads[l], tails[l], spine, node);
      heads, tails := heads[l := h], tails[l := t];
      spines := spines[l := spine + [node]];
      nodes := nodes + {node};
      forall i | 0 <= i < |spines| && i != l ensures LevelOk(i) {
        assert old(LevelOk(i)) && Apart(spines[i], spine);
        ghost var other := spines[i];
        assert old(Chain(heads[i], tails[i], other));
        forall k | 0 <= k < |other| ensures PointsOn(other, k) {
          assert old(PointsOn(other, k)) && other[k] !in spine;
        }
      }
      assert Pids(spine + [node]) == Pids(spine) + [p];
      assert View() == old(View())[l := old(View())[l] + [p]];
    }

    /** Unlinks the first entry for p from level l, if there is one. */
    method Unlink(l: nat, p: nat) returns (found: bool)
      requires Linked() && l < |heads|
      modifies `heads, `tails, `spines, nodes
      ensures Linked() && |heads| == |old(heads)| && nodes == old(nodes)
      ensures var q := old(View())[l]; var k := First(q, p);
        found == (k < |q|) && View() == if found then old(View())[l := RemoveAt(q, k)] else old(View())
    {
      hide RemoveAt, Distinct, Pids, AllPids;
      assert LevelOk(l);
      ghost var spine := spines[l];
      var h, t, ok, rest := Remove(heads[l], tails[l], spine, p);
      found := ok;
      heads, tails := heads[l := h], tails[l := t];
      spines := spines[l := rest];
      if found { RemovedSpine(spine, First(Pids(spine), p)); }
      assert forall n :: n in rest ==> n in spine;
      forall i | 0 <= i < |spines| && i != l ensures LevelOk(i) {
        assert old(LevelOk(i)) && Apart(old(spines)[i], spine);
        ghost var other := spines[i];
        assert old(Chain(heads[i], tails[i], other));
        forall k | 0 <= k < |other| ensures PointsOn(other, k) {
          assert old(PointsOn(other, k)) && other[k] !in spine;
        }
      }
      assert LevelOk(l);
    }

    /** `mlfq_enqueue`. */
    method Enqueue(procs: array<Proc>, p: nat)
      requires Valid() && p < procs.Length && procs[p].priority >= -1
      modifies this, nodes, procs
      ensures Valid() && fresh(nodes - old(nodes)) && |View()| == |old(View())|
      ensures procs[..] ==
        old(procs[..])[p := if old(procs[p]).priority == -1 then Boosted(old(procs[p])) else old(procs[p])]
      ensures var l := HomeLevel(old(procs[p]), |old(View())|); View() == old(View())[l := old(View())[l] + [p]]
    {
      if procs[p].priority == -1 {
        procs[p] := procs[p].(priority := 0, inQueue := 0);
      }
      var level := procs[p].priority;
      if level >= |heads| {
        level := |heads| - 1;
      }
      ConcatLength(View(), level, View()[level] + [p]);
      Put(level, p);
      size := size + 1;
    }

    /** `mlfq_dequeue`: the head of the best level that has one. */
    method Dequeue() returns (p: Option<nat>)
      requires Valid()
      modifies this
      ensures Valid() && nodes == old(nodes)
      ensures var r := Levels(old(View()));
        if Empty(r) then p.None? && View() == old(View()) else p == Some(Head(r)) && View() == Rest(r).levels
    {
      var i := 0;
      while i < |heads| && heads[i] == null
        invariant 0 <= i <= |heads| && forall j :: 0 <= j < i ==> |View()[j]| == 0
      {
        assert LevelOk(i);
        i := i + 1;
      }
      assert i < |heads| ==> LevelOk(i);
      BestLevelIs(View(), i);
      if i == |heads| {
        p := None;
      } else {
        ghost var was := View();
        ConcatLength(was, i, was[i][1..]);
        p := Some(heads[i].pid);
        TakeHead(i);
        size := size - 1;
      }
    }

    /** Drops the first node of level l. */
    method TakeHead(l: nat)
      requires Linked() && l < |heads| && heads[l] != null
      modifies `heads, `tails, `spines
      ensures Linked() && |old(View())[l]| > 0
      ensures View() == old(View())[l := old(View())[l][1..]]
    {
      assert LevelOk(l);
      ghost var spine := spines[l];
      assert PointsOn(spine, 0);
      heads := heads[l := heads[l].next];
      if heads[l] == null {
        tails := tails[l := null];
      }
      spines := spines[l := spine[1..]];
      forall k | 0 <= k < |spine[1..]| ensures PointsOn(spine[1..], k) { assert PointsOn(spine, k + 1); }
      forall i | 0 <= i < |spines| && i != l ensures LevelOk(i) { assert old(LevelOk(i)); }
      assert LevelOk(l);
      assert Pids(spine[1..]) == Pids(spine)[1..];
    }

    /** `mlfq_move_process`. */
    method MoveProcess(procs: array<Proc>, p: nat, newLevel: nat)
      requires Valid() && p < procs.Length && newLevel < |heads|
      modifies this, nodes, procs
      ensures Valid() && fresh(nodes - old(nodes))
      ensures var was := old(procs[p]).priority;
        if was == newLevel || was < 0 || was >= |old(View())| then procs[..] == old(procs[..]) && View() == old(View())
        else
          && procs[..] == old(procs[..])[p := old(procs[p]).(priority := newLevel, inQueue := 0)]
          && View() == Moved(old(View()), was, newLevel, p)
    {
      hide LevelOk, Concat, AllPids;
      var was := procs[p].priority;
      if was == newLevel || was < 0 || was >= |heads| {
        return;
      }
      ghost var v := View();
      ghost var k := First(v[was], p);
      if k < |v[was]| { ConcatLength(v, was, RemoveAt(v[was], k)); }
      var found := Unlink(was, p);
      if found {
        size := size - 1;
      }
      procs[p] := procs[p].(priority := newLevel, inQueue := 0);
      ConcatLength(View(), newLevel, View()[newLevel] + [p]);
      Put(newLevel, p);
      size := size + 1;
    }

    /** All entries in order of service: the first loop of `mlfq_priority_boost`. */
    method Collect() returns (all: seq<nat>)
      requires Linked()
      ensures all == Concat(View())
    {
      all := [];
      var i := 0;
      while i < |heads|
        invariant 0 <= i <= |heads| && all == Concat(View()[..i])
      {
        assert LevelOk(i);
        ghost var spine, before, k := spines[i], all, 0;
        var current := heads[i];
        while current != null
          invariant k <= |spine| && current == if k < |spine| then spine[k] else null
          invariant all == before + Pids(spine)[..k]
          decreases |spine| - k
        {
          assert PointsOn(spine, k);
          all := all + [current.pid];
          current := current.next;
          k := k + 1;
        }
        ConcatAppend(View()[..i], View()[i]);
        assert View()[..i + 1] == View()[..i] + [View()[i]];
        i := i + 1;
      }
      assert View()[..i] == View();
    }

    /** Every level becomes empty: the second loop of `mlfq_priority_boost`. */
    method Clear()
      requires 0 < |heads| == |tails| == |spines|
      modifies `heads, `tails, `spines
      ensures Linked() && |heads| == |old(heads)| && View() == seq(|old(heads)|, _ => [])
    {
      var i := 0;
      while i < |heads|
        invariant 0 <= i <= |heads| == |old(heads)| == |tails| == |spines|
        invariant forall j :: 0 <= j < i ==> heads[j] == null && tails[j] == null && spines[j] == []
      {
        heads, tails, spines := heads[i := null], tails[i := null], spines[i := []];
        i := i + 1;
      }
    }

    /** `mlfq_priority_boost`: everybody waiting goes to the top level, in order of service, with a fresh
        allotment; the size stays. */
    method PriorityBoost(procs: array<Proc>)
      requires Valid() && forall i :: 0 <= i < |Concat(View())| ==> Concat(View())[i] < procs.Length
      modifies this, nodes, procs
      ensures Valid() && fresh(nodes - old(nodes)) && size == old(size)
      ensures View() == BoostedLevels(old(View()))
      ensures forall p :: 0 <= p < procs.Length ==>
        procs[p] == if p in Concat(old(View())) then Boosted(old(procs[p])) else old(procs[p])
      ensures forall p :: p in Concat(old(View())) ==> p < procs.Length && procs[p].priority == 0 == procs[p].inQueue
    {
      ghost var v := View();
      var all := Collect();
      Clear();
      var i := 0;
      while i < |all|
        invariant 0 <= i <= |all| && size == old(size) && Linked() && fresh(nodes - old(nodes)) && |View()| == |v|
        invariant View() == seq(|v|, _ => [])[0 := all[..i]]
        invariant forall p :: 0 <= p < procs.Length ==>
          procs[p] == if p in all[..i] then Boosted(old(procs[p])) else old(procs[p])
      {
        var p := all[i];
        procs[p] := procs[p].(priority := 0, inQueue := 0);
        Put(0, p);
        assert all[..i + 1] == all[..i] + [p];
        i := i + 1;
      }
      assert all[..i] == all;
      assert View() == BoostedLevels(v);
      BoostKeepsOrder(v);
    }
  }

  lemma {:induction false} ConcatAppend(ls: seq<seq<nat>>, line: seq<nat>)
    ensures Concat(ls + [line]) == Concat(ls) + line
  {
    if |ls| == 0 {
      assert ls + [line] == [line] && [line][1..] == [];
    } else {
      assert (ls + [line])[1..] == ls[1..] + [line];
      ConcatAppend(ls[1..], line);
    }
  }

  /** A boost changes nobody's place in the order of service. */
  lemma BoostKeepsOrder(ls: seq<seq<nat>>)
    requires |ls| > 0
    ensures Concat(BoostedLevels(ls)) == Concat(ls)
    ensures Flat(Levels(BoostedLevels(ls))) == Flat(Levels(ls))
  {
    var b := BoostedLevels(ls);
    ConcatEmpty(b[1..]);
    assert b == [Concat(ls)] + b[1..];
  }

  // ----- every process once, and at its own level -----

  ghost predicate Filed(procs: seq<Proc>, ls: seq<seq<nat>>) {
    && (forall l, i :: 0 <= l < |ls| && 0 <= i < |ls[l]| ==> ls[l][i] < |procs| && procs[ls[l][i]].priority == l)
    && forall p: nat :: Count(Concat(ls), p) <= 1
  }

  /** A move takes out at most one entry, at the old level, and puts in one. */
  lemma MoveCounts(ls: seq<seq<nat>>, from: nat, to: nat, p: nat, q: nat)
    requires from < |ls| && to < |ls|
    ensures Count(Concat(Moved(ls, from, to, p)), q) == Count(Concat(ls), q) + One(q == p && p !in ls[from])
  {
    var k := First(ls[from], p);
    var out := if k < |ls[from]| then ls[from := RemoveAt(ls[from], k)] else ls;
    if k < |ls[from]| {
      ConcatUpdate(ls, from, RemoveAt(ls[from], k), q);
      CountRemoved(ls[from], k, q);
    }
    ConcatUpdate(out, to, out[to] + [p], q);
    CountAppend(out[to], [p], q);
  }

  /** Where an entry of a moved queue comes from. */
  lemma MovedEntry(ls: seq<seq<nat>>, from: nat, to: nat, p: nat, l: nat, x: nat)
    requires from < |ls| && to < |ls| && from != to && l < |ls| && x in Moved(ls, from, to, p)[l]
    requires Count(ls[from], p) <= 1
    ensures (x == p && l == to) || (x in ls[l] && (x == p ==> l != from))
  {
    var k := First(ls[from], p);
    if l == from && k < |ls[from]| {
      CountRemoved(ls[from], k, p);
      CountPositive(RemoveAt(ls[from], k), p);
    }
  }

  lemma FiledEntry(procs: seq<Proc>, ls: seq<seq<nat>>, l: nat, x: nat)
    requires Filed(procs, ls) && l < |ls| && x in ls[l]
    ensures x < |procs| && procs[x].priority == l
  {
    var i :| 0 <= i < |ls[l]| && ls[l][i] == x;
  }

  lemma MovedFiled(procs: seq<Proc>, ls: seq<seq<nat>>, p: nat, to: nat, l: nat, x: nat)
    requires Filed(procs, ls) && p < |procs| && to < |ls| && 0 <= procs[p].priority < |ls| && procs[p].priority != to
    requires l < |ls| && x in Moved(ls, procs[p].priority, to, p)[l]
    ensures x < |procs| && procs[p := procs[p].(priority := to, inQueue := 0)][x].priority == l
  {
    hide Moved, Filed;
    AtOneLevel(procs, ls, p);
    FiledOnce(procs, ls, p);
    MovedEntry(ls, procs[p].priority, to, p, l, x);
    if x in ls[l] { FiledEntry(procs, ls, l, x); }
  }

  lemma FiledOnce(procs: seq<Proc>, ls: seq<seq<nat>>, p: nat)
    requires Filed(procs, ls)
    ensures Count(Concat(ls), p) <= 1
  {
  }

  /** Moving a process, queued or running, to another level files it there exactly once. */
  lemma MoveFiled(procs: seq<Proc>, ls: seq<seq<nat>>, p: nat, to: nat)
    requires Filed(procs, ls) && p < |procs| && to < |ls| && 0 <= procs[p].priority < |ls| && procs[p].priority != to
    ensures var ls' := Moved(ls, procs[p].priority, to, p);
      && Filed(procs[p := procs[p].(priority := to, inQueue := 0)], ls')
      && Count(Concat(ls'), p) == 1
      && forall q: nat :: q != p ==> Count(Concat(ls'), q) == Count(Concat(ls), q)
  {
    hide Moved, Concat, Count;
    var from := procs[p].priority;
    var ls' := Moved(ls, from, to, p);
    AtOneLevel(procs, ls, p);
    CountPositive(ls[from], p);
    forall q: nat ensures Count(Concat(ls'), q) == if q == p then 1 else Count(Concat(ls), q) {
      MoveCounts(ls, from, to, p, q);
      FiledOnce(procs, ls, q);
    }
    forall l, i | 0 <= l < |ls'| && 0 <= i < |ls'[l]|
      ensures ls'[l][i] < |procs| && procs[p := procs[p].(priority := to, inQueue := 0)][ls'[l][i]].priority == l
    {
      MovedFiled(procs, ls, p, to, l, ls'[l][i]);
    }
  }

  /** A filed process is queued at its own level, once, or not at all. */
  lemma AtOneLevel(procs: seq<Proc>, ls: seq<seq<nat>>, p: nat)
    requires Filed(procs, ls) && p < |procs| && 0 <= procs[p].priority < |ls|
    ensures Count(ls[procs[p].priority], p) == Count(Concat(ls), p)
  {
    var l := procs[p].priority;
    ConcatUpdate(ls, l, [], p);
    CountPositive(ls[l], p);
    CountPositive(Concat(ls[l := []]), p);
    if Count(Concat(ls[l := []]), p) > 0 {
      var k := LevelHolding(ls[l := []], p);
    }
  }

  /** After a boost everybody is filed at the top level, in the same order of service as before. */
  lemma BoostFiled(procs: seq<Proc>, procs': seq<Proc>, ls: seq<seq<nat>>)
    requires Filed(procs, ls) && |ls| > 0 && |procs'| == |procs|
    requires forall p :: 0 <= p < |procs| && p in Concat(ls) ==> procs'[p] == Boosted(procs[p])
    ensures Filed(procs', BoostedLevels(ls)) && Concat(BoostedLevels(ls)) == Concat(ls)
  {
    BoostKeepsOrder(ls);
    forall i | 0 <= i < |Concat(ls)| ensures Concat(ls)[i] < |procs| {
      CountPositive(Concat(ls), Concat(ls)[i]);
      var l := LevelHolding(ls, Concat(ls)[i]);
    }
  }

  lemma {:induction false} BestLevelIs(ls: seq<seq<nat>>, k: nat)
    requires k <= |ls| && (forall i :: 0 <= i < k ==> |ls[i]| == 0) && (k < |ls| ==> |ls[k]| > 0)
    ensures BestLevel(ls) == k
  {
  }
}
