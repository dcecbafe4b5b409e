/** The binary min-heap of process indices as functions on sequences: sifting up and down, insertion and
    extraction, ordered by burst time and, on a tie, by arrival time. */
module HeapModel {
  import opened Processes

  function Parent(i: nat): nat
    requires i > 0
  {
    (i - 1) / 2
  }

  /** The process at p need not stand below the one at q. Jobs outside the table never occur. */
  predicate Le(jobs: seq<Job>, p: nat, q: nat) {
    p < |jobs| && q < |jobs| &&
    (jobs[p].burst < jobs[q].burst || (jobs[p].burst == jobs[q].burst && jobs[p].arrival <= jobs[q].arrival))
  }

  predicate Lt(jobs: seq<Job>, p: nat, q: nat) {
    p < |jobs| && q < |jobs| &&
    (jobs[p].burst < jobs[q].burst || (jobs[p].burst == jobs[q].burst && jobs[p].arrival < jobs[q].arrival))
  }

  predicate Indices(jobs: seq<Job>, h: seq<nat>) {
    forall i :: 0 <= i < |h| ==> h[i] < |jobs|
  }

  predicate Edge(jobs: seq<Job>, h: seq<nat>, i: nat) {
    0 < i < |h| ==> Le(jobs, h[Parent(i)], h[i])
  }

  ghost predicate HeapOrdered(jobs: seq<Job>, h: seq<nat>) {
    forall i: nat :: Edge(jobs, h, i)
  }

  function Swap(h: seq<nat>, i: nat, j: nat): (r: seq<nat>)
    requires i < |h| && j < |h|
    ensures |r| == |h| && multiset(r) == multiset(h)
  {
    h[i := h[j]][j := h[i]]
  }

  // ----- the two sift loops -----

  function SiftUp(jobs: seq<Job>, h: seq<nat>, i: nat): (r: seq<nat>)
    requires i < |h|
    ensures |r| == |h| && multiset(r) == multiset(h)
    decreases i
  {
    if i == 0 || Le(jobs, h[Parent(i)], h[i]) then h else SiftUp(jobs, Swap(h, Parent(i), i), Parent(i))
  }

  /** The index among i and its children whose process comes first. */
  function Smallest(jobs: seq<Job>, h: seq<nat>, i: nat): (m: nat)
    requires i < |h|
    ensures m < |h| && (m == i || m == 2 * i + 1 || m == 2 * i + 2)
  {
    var l := if 2 * i + 1 < |h| && Lt(jobs, h[2 * i + 1], h[i]) then 2 * i + 1 else i;
    if 2 * i + 2 < |h| && Lt(jobs, h[2 * i + 2], h[l]) then 2 * i + 2 else l
  }

  function SiftDown(jobs: seq<Job>, h: seq<nat>, i: nat): (r: seq<nat>)
    requires i < |h|
    ensures |r| == |h| && multiset(r) == multiset(h)
    decreases |h| - i
  {
    var m := Smallest(jobs, h, i);
    if m == i then h else SiftDown(jobs, Swap(h, i, m), m)
  }

  lemma SiftDownStep(jobs: seq<Job>, h: seq<nat>, i: nat)
    requires i < |h|
    ensures var m := Smallest(jobs, h, i);
      SiftDown(jobs, h, i) == if m == i then h else SiftDown(jobs, Swap(h, i, m), m)
  {
  }

  function Insert(jobs: seq<Job>, h: seq<nat>, p: nat): (r: seq<nat>)
    ensures |r| == |h| + 1
  {
    SiftUp(jobs, h + [p], |h|)
  }

  /** The last entry takes the place of the first. */
  function Refilled(h: seq<nat>): seq<nat>
    requires |h| > 0
  {
    h[0 := h[|h| - 1]][..|h| - 1]
  }

  function AfterExtract(jobs: seq<Job>, h: seq<nat>): seq<nat>
    requires |h| > 0
  {
    if |h| == 1 then [] else SiftDown(jobs, Refilled(h), 0)
  }

  // ----- heap order is restored -----

  /** Only the entry at i may be smaller than its parent; its children are in order with its parent. */
  ghost predicate UpOk(jobs: seq<Job>, h: seq<nat>, i: nat) {
    && (forall j: nat :: j != i ==> Edge(jobs, h, j))
    && (forall c: nat :: 0 < c < |h| && Parent(c) == i && 0 < i < |h| ==> Le(jobs, h[Parent(i)], h[c]))
  }

  lemma {:induction false} SiftUpOrders(jobs: seq<Job>, h: seq<nat>, i: nat)
    requires i < |h| && Indices(jobs, h) && UpOk(jobs, h, i)
    ensures HeapOrdered(jobs, SiftUp(jobs, h, i))
    decreases i
  {
    if i > 0 && !Le(jobs, h[Parent(i)], h[i]) {
      var u := Parent(i);
      var h' := Swap(h, u, i);
      assert Edge(jobs, h, u);
      forall j: nat | j != u ensures Edge(jobs, h', j) {
        assert j != i ==> Edge(jobs, h, j);
      }
      forall c: nat | 0 < c < |h'| && Parent(c) == u && 0 < u ensures Le(jobs, h'[Parent(u)], h'[c]) {
        assert c != i ==> Edge(jobs, h, c);
      }
      SiftUpOrders(jobs, h', u);
    } else {
      forall j: nat ensures Edge(jobs, h, j) { assert j != i ==> Edge(jobs, h, j); }
    }
  }

  /** Only the entry at i may be larger than its children, which are in order with its parent. */
  ghost predicate DownOk(jobs: seq<Job>, h: seq<nat>, i: nat) {
    && (forall j: nat :: 0 < j && Parent(j) != i ==> Edge(jobs, h, j))
    && (forall c: nat :: 0 < c < |h| && Parent(c) == i && 0 < i < |h| ==> Le(jobs, h[Parent(i)], h[c]))
  }

  /** One swap with the smallest child moves the disorder one level down. */
  lemma DownStep(jobs: seq<Job>, h: seq<nat>, i: nat, m: nat)
    requires i < |h| && Indices(jobs, h) && DownOk(jobs, h, i) && m == Smallest(jobs, h, i) != i
    ensures DownOk(jobs, Swap(h, i, m), m)
  {
    var h' := Swap(h, i, m);
    assert Parent(m) == i;
    forall j: nat | 0 < j && Parent(j) != m ensures Edge(jobs, h', j) {
      if Parent(j) == i {
        assert j == 2 * i + 1 || j == 2 * i + 2;
      } else {
        assert Edge(jobs, h, j);
        assert j == i ==> Le(jobs, h[Parent(i)], h[m]);
      }
    }
    forall c: nat | 0 < c < |h'| && Parent(c) == m ensures Le(jobs, h'[Parent(m)], h'[c]) {
      assert Parent(c) != i;
      assert Edge(jobs, h, c);
    }
  }

  lemma {:induction false} SiftDownOrders(jobs: seq<Job>, h: seq<nat>, i: nat)
    requires i < |h| && Indices(jobs, h) && DownOk(jobs, h, i)
    ensures HeapOrdered(jobs, SiftDown(jobs, h, i))
    decreases |h| - i
  {
    var m := Smallest(jobs, h, i);
    if m != i {
      DownStep(jobs, h, i, m);
      IndicesKept(jobs, h, Swap(h, i, m));
      SiftDownOrders(jobs, Swap(h, i, m), m);
    } else {
      forall j: nat ensures Edge(jobs, h, j) {
        if 0 < j < |h| && Parent(j) == i {
          assert j == 2 * i + 1 || j == 2 * i + 2;
        }
      }
    }
  }

  // ----- what the two heap operations promise -----

  /** The root comes before every entry. */
  lemma {:induction false} RootIsMinimum(jobs: seq<Job>, h: seq<nat>, i: nat)
    requires i < |h| && Indices(jobs, h) && HeapOrdered(jobs, h)
    ensures Le(jobs, h[0], h[i])
    decreases i
  {
    if i > 0 {
      assert Edge(jobs, h, i);
      RootIsMinimum(jobs, h, Parent(i));
    }
  }

  lemma IndicesKept(jobs: seq<Job>, h: seq<nat>, r: seq<nat>)
    requires Indices(jobs, h) && forall p :: p in multiset(r) ==> p in multiset(h)
    ensures Indices(jobs, r)
  {
    forall i | 0 <= i < |r| ensures r[i] < |jobs| {
      assert r[i] in multiset(r);
      assert r[i] in h;
    }
  }

  /** Insertion keeps the heap order and adds exactly the new index. */
  lemma InsertKeepsHeap(jobs: seq<Job>, h: seq<nat>, p: nat)
    requires Indices(jobs, h) && HeapOrdered(jobs, h) && p < |jobs|
    ensures var r := Insert(jobs, h, p);
      HeapOrdered(jobs, r) && Indices(jobs, r) && multiset(r) == multiset(h) + multiset{p} && |r| == |h| + 1
  {
    var g := h + [p];
    forall j: nat | j != |h| ensures Edge(jobs, g, j) { assert Edge(jobs, h, j); }
    SiftUpOrders(jobs, g, |h|);
    IndicesKept(jobs, g, Insert(jobs, h, p));
  }

  /** Extraction takes an index that no other precedes, keeps the heap order and removes nothing else. */
  lemma ExtractKeepsHeap(jobs: seq<Job>, h: seq<nat>)
    requires |h| > 0 && Indices(jobs, h) && HeapOrdered(jobs, h)
    ensures h[0] < |jobs| && forall q :: q in multiset(h) ==>
      && q < |jobs|
      && (jobs[h[0]].burst < jobs[q].burst
          || (jobs[h[0]].burst == jobs[q].burst && jobs[h[0]].arrival <= jobs[q].arrival))
    ensures var r := AfterExtract(jobs, h);
      && HeapOrdered(jobs, r) && Indices(jobs, r) && |r| == |h| - 1
      && multiset(h) == multiset(r) + multiset{h[0]}
  {
    forall q | q in multiset(h) ensures h[0] < |jobs| && q < |jobs| && Le(jobs, h[0], q) {
      assert q in h;
      var i :| 0 <= i < |h| && h[i] == q;
      RootIsMinimum(jobs, h, i);
    }
    RefilledMultiset(h);
    if |h| > 1 {
      var g := Refilled(h);
      forall j: nat | 0 < j && Parent(j) != 0 ensures Edge(jobs, g, j) { assert Edge(jobs, h, j); }
      IndicesKept(jobs, h, g);
      SiftDownOrders(jobs, g, 0);
      IndicesKept(jobs, g, SiftDown(jobs, g, 0));
    }
  }

  lemma RefilledMultiset(h: seq<nat>)
    requires |h| > 0
    ensures multiset(h) == multiset(Refilled(h)) + multiset{h[0]}
  {
    var g := h[0 := h[|h| - 1]];
    assert g == Refilled(h) + [h[|h| - 1]];
    assert multiset(g) == multiset(h) - multiset{h[0]} + multiset{h[|h| - 1]};
  }
}
