/** Tarjan's strongly connected components, as `tarjanSort` uses it to order
    conflicting transactions.

    An object id is twelve bytes compared as bytes, which is the order of the
    big-endian number they spell, so ids are natural numbers here. */
module Graphs {

  type Id = nat

  // A successor list for every node.
  type Graph = map<Id, seq<Id>>

  /** Every successor is itself a node. */
  predicate Closed(g: Graph) {
    forall u, v | u in g && v in g[u] :: v in g
  }

  predicate Edge(g: Graph, u: Id, v: Id) {
    u in g && v in g[u]
  }

  ghost predicate IsPath(g: Graph, p: seq<Id>) {
    && |p| > 0
    && forall i | 0 <= i < |p| - 1 :: Edge(g, p[i], p[i + 1])
  }

  ghost predicate Reaches(g: Graph, u: Id, v: Id) {
    exists p :: IsPath(g, p) && p[0] == u && p[|p| - 1] == v
  }

  ghost predicate Mutual(g: Graph, u: Id, v: Id) {
    Reaches(g, u, v) && Reaches(g, v, u)
  }

  /** No edge leaves `s`. */
  ghost predicate ClosedSet(g: Graph, s: set<Id>) {
    forall u, v | u in s && Edge(g, u, v) :: v in s
  }

  lemma ReachesSelf(g: Graph, u: Id)
    ensures Reaches(g, u, u)
  {
    assert IsPath(g, [u]);
  }

  lemma ReachesEdge(g: Graph, u: Id, v: Id)
    requires Edge(g, u, v)
    ensures Reaches(g, u, v)
  {
    var p := [u, v];
    assert IsPath(g, p) && p[0] == u && p[|p| - 1] == v;
  }

  lemma ReachesTransitive(g: Graph, u: Id, v: Id, w: Id)
    requires Reaches(g, u, v) && Reaches(g, v, w)
    ensures Reaches(g, u, w)
  {
    var p :| IsPath(g, p) && p[0] == u && p[|p| - 1] == v;
    var q :| IsPath(g, q) && q[0] == v && q[|q| - 1] == w;
    var r := p + q[1..];
    forall i | 0 <= i < |r| - 1
      ensures Edge(g, r[i], r[i + 1])
    {
      if i >= |p| - 1 {
        assert r[i] == q[i - (|p| - 1)] && r[i + 1] == q[i + 1 - (|p| - 1)];
      }
    }
    assert IsPath(g, r) && r[0] == u && r[|r| - 1] == w;
  }

  lemma {:induction false} PathStaysInside(g: Graph, s: set<Id>, p: seq<Id>)
    requires ClosedSet(g, s) && IsPath(g, p) && p[0] in s
    ensures p[|p| - 1] in s
  {
    if |p| > 1 {
      assert Edge(g, p[0], p[1]);
      PathStaysInside(g, s, p[1..]);
    }
  }

  lemma ReachesStaysInside(g: Graph, s: set<Id>, u: Id, v: Id)
    requires ClosedSet(g, s) && u in s && Reaches(g, u, v)
    ensures v in s
  {
    var p :| IsPath(g, p) && p[0] == u && p[|p| - 1] == v;
    PathStaysInside(g, s, p);
  }

  ghost predicate Increasing(s: seq<Id>) {
    forall i, j | 0 <= i < j < |s| :: s[i] <= s[j]
  }

  function InsertSorted(x: Id, s: seq<Id>): (r: seq<Id>) {
    if s == [] || x <= s[0] then [x] + s else [s[0]] + InsertSorted(x, s[1..])
  }

  /** The ids in increasing order, as sort.Sort leaves them. */
  function Sorted(s: seq<Id>): (r: seq<Id>) {
    if s == [] then [] else InsertSorted(s[0], Sorted(s[1..]))
  }

  lemma {:induction false} InsertSortedMembers(x: Id, s: seq<Id>)
    ensures multiset(InsertSorted(x, s)) == multiset{x} + multiset(s)
  {
    if s != [] {
      assert s == [s[0]] + s[1..];
      InsertSortedMembers(x, s[1..]);
    }
  }

  lemma {:induction false} InsertSortedIncreasing(x: Id, s: seq<Id>)
    requires Increasing(s)
    ensures Increasing(InsertSorted(x, s))
    ensures forall y | y in InsertSorted(x, s) :: y == x || y in s
  {
    if s != [] && s[0] < x {
      InsertSortedIncreasing(x, s[1..]);
      var t := InsertSorted(x, s[1..]);
      assert forall k | 0 <= k < |t| :: t[k] in t;
    }
  }

  /** Sorting keeps every id, as often as it occurs, in increasing order. */
  lemma {:induction false} SortedIsSorted(s: seq<Id>)
    ensures multiset(Sorted(s)) == multiset(s)
    ensures Increasing(Sorted(s))
  {
    if s != [] {
      assert s == [s[0]] + s[1..];
      SortedIsSorted(s[1..]);
      InsertSortedMembers(s[0], Sorted(s[1..]));
      InsertSortedIncreasing(s[0], Sorted(s[1..]));
    }
  }

  lemma LeastFirst(a: seq<Id>, b: seq<Id>)
    requires multiset(a) == multiset(b) && Increasing(a) && Increasing(b) && a != [] && b != []
    ensures a[0] == b[0]
  {
    assert a[0] in multiset(a) && b[0] in multiset(b);
    assert a[0] in b && b[0] in a;
  }

  lemma RestOf(a: seq<Id>)
    requires a != []
    ensures multiset(a[1..]) == multiset(a) - multiset{a[0]}
  {
    assert a == [a[0]] + a[1..];
  }

  /** There is one increasing order. */
  lemma {:induction false} OneOrder(a: seq<Id>, b: seq<Id>)
    requires multiset(a) == multiset(b) && Increasing(a) && Increasing(b)
    ensures a == b
    decreases |a|
  {
    if a == [] || b == [] {
      assert |multiset(a)| == |a| && |multiset(b)| == |b|;
    } else {
      LeastFirst(a, b);
      RestOf(a);
      RestOf(b);
      assert Increasing(a[1..]) && Increasing(b[1..]);
      OneOrder(a[1..], b[1..]);
      hide Increasing;
      assert a == [a[0]] + a[1..] && b == [b[0]] + b[1..];
    }
  }

  /** However the ids have been listed, they are sorted to the same. */
  lemma SortedAlike(a: seq<Id>, b: seq<Id>)
    requires multiset(a) == multiset(b)
    ensures Sorted(a) == Sorted(b)
  {
    SortedIsSorted(a);
    SortedIsSorted(b);
    OneOrder(Sorted(a), Sorted(b));
  }

  lemma SortedMembers(s: seq<Id>)
    ensures forall x :: x in Sorted(s) <==> x in s
  {
    SortedIsSorted(s);
    assert forall x :: x in Sorted(s) <==> x in multiset(Sorted(s));
    assert forall x :: x in s <==> x in multiset(s);
  }
}

module Tarjan {
  import opened Basics
  import opened Graphs

  datatype Node = Node(lowlink: nat, stacked: bool)

  /** All ids of a list of components, one after the other. */
  function Flatten(comps: seq<seq<Id>>): (r: seq<Id>) {
    if comps == [] then [] else Flatten(comps[..|comps| - 1]) + comps[|comps| - 1]
  }

  function Listed(comps: seq<seq<Id>>): (r: set<Id>) {
    set c, x | c in comps && x in c :: x
  }

  /** A list that holds exactly one strongly connected component. */
  ghost predicate IsComponent(g: Graph, c: seq<Id>) {
    && c != []
    && Distinct(c)
    && forall u, v | u in c :: v in c <==> Mutual(g, u, v)
  }

  /** What every list of output components satisfies, at every moment: each is
      a whole component, and no edge leads from one to a later one. */
  ghost predicate GoodOutput(g: Graph, output: seq<seq<Id>>) {
    && (forall c | c in output :: IsComponent(g, c))
    && (forall i | 0 <= i <= |output| :: ClosedSet(g, Listed(output[..i])))
    && Distinct(Flatten(output))
  }

  // The fields of tarjanData at one moment, as a value, with the ids in the
  // order in which they were numbered.
  datatype Snapshot = Snapshot(
    index: map<Id, nat>, order: seq<Id>, nodes: seq<Node>, stack: seq<Id>, output: seq<seq<Id>>)
  {
    predicate OnStack(v: Id) {
      v in index && index[v] < |nodes| && nodes[index[v]].stacked
    }
  }

  /** Numbering, flags and stack agree, and the stack is in numbering order. */
  ghost predicate Numbered(s: Snapshot) {
    && |s.order| == |s.nodes|
    && (forall v | v in s.index :: s.index[v] < |s.order| && s.order[s.index[v]] == v)
    && (forall i | 0 <= i < |s.order| :: s.order[i] in s.index && s.index[s.order[i]] == i)
    && (forall i | 0 <= i < |s.stack| :: s.OnStack(s.stack[i]))
    && (forall v | s.OnStack(v) :: v in s.stack)
    && (forall i, j | 0 <= i < j < |s.stack| :: s.index[s.stack[i]] < s.index[s.stack[j]])
  }

  /** `active` are the nodes whose calls have not returned. */
  ghost predicate Visited(g: Graph, s: Snapshot, active: set<Id>) {
    && s.index.Keys <= g.Keys
    && Listed(s.output) <= s.index.Keys
    && (forall v | v in s.index :: v in Listed(s.output) <==> !s.OnStack(v))
    && (forall u, v | u in s.index && u !in active && Edge(g, u, v) :: v in s.index)
  }

  /** A stacked node reaches every node above it. */
  ghost predicate Chained(g: Graph, stack: seq<Id>) {
    forall i, j | 0 <= i <= j < |stack| :: Reaches(g, stack[i], stack[j])
  }

  /** The node at position `i` reaches an active node at or below it. */
  ghost predicate Anchored(g: Graph, stack: seq<Id>, active: set<Id>, i: int)
    requires 0 <= i < |stack|
  {
    exists k :: 0 <= k <= i && stack[k] in active && Reaches(g, stack[i], stack[k])
  }

  ghost predicate AllAnchored(g: Graph, stack: seq<Id>, active: set<Id>) {
    forall i | 0 <= i < |stack| :: Anchored(g, stack, active, i)
  }

  ghost predicate Inv(g: Graph, s: Snapshot, active: set<Id>) {
    && Numbered(s)
    && Visited(g, s, active)
    && Chained(g, s.stack)
    && AllAnchored(g, s.stack, active)
    && GoodOutput(g, s.output)
  }

  /** Everything recorded before is still there. */
  ghost predicate Extends(s: Snapshot, s': Snapshot) {
    && s.order <= s'.order
    && |s.nodes| == |s.order| && |s'.nodes| == |s'.order|
    && s.stack <= s'.stack
    && s.output <= s'.output
    && (forall v | v in s.index :: v in s'.index && s'.index[v] == s.index[v])
    && (forall k | 0 <= k < |s.nodes| :: s'.nodes[k].lowlink == s.nodes[k].lowlink)
  }

  /** `low` bounds every edge from the stack at or above `top` to the stack below `bottom`. */
  ghost predicate BoundsEdges(g: Graph, s: Snapshot, low: nat, top: nat, bottom: nat) {
    forall i, j | top <= i < |s.stack| && 0 <= j < bottom && j < |s.stack| && Edge(g, s.stack[i], s.stack[j]) ::
      s.stack[j] in s.index && low <= s.index[s.stack[j]]
  }

  /** `low` is the number of a stacked node among the first `bottom` that `id` reaches. */
  ghost predicate Witnessed(g: Graph, s: Snapshot, low: nat, bottom: nat, id: Id) {
    exists j :: 0 <= j < bottom && j < |s.stack| && s.stack[j] in s.index && s.index[s.stack[j]] == low
      && Reaches(g, id, s.stack[j])
  }

  lemma ListedAppend(comps: seq<seq<Id>>, c: seq<Id>)
    ensures Listed(comps + [c]) == Listed(comps) + set x | x in c
  {
    var all := comps + [c];
    forall x | x in Listed(comps) + (set x | x in c)
      ensures x in Listed(all)
    {
      if x in c {
        assert c in all by { assert all[|comps|] == c; }
      } else {
        var d :| d in comps && x in d;
        var i :| 0 <= i < |comps| && comps[i] == d;
        assert all[i] == d;
      }
    }
  }

  lemma {:induction false} FlattenMembers(comps: seq<seq<Id>>)
    ensures forall x :: x in Flatten(comps) <==> x in Listed(comps)
  {
    if comps != [] {
      var init, last := comps[..|comps| - 1], comps[|comps| - 1];
      FlattenMembers(init);
      ListedAppend(init, last);
      assert comps == init + [last];
    }
  }

  /** The state right after a call has numbered and stacked `id`. */
  function Enter(s: Snapshot, id: Id): Snapshot {
    Snapshot(s.index[id := |s.nodes|], s.order + [id], s.nodes + [Node(|s.nodes|, true)], s.stack + [id], s.output)
  }

  lemma EnterNumbered(s: Snapshot, id: Id)
    requires Numbered(s) && id !in s.index
    ensures Numbered(Enter(s, id))
  {
    var s' := Enter(s, id);
    assert forall v :: s'.OnStack(v) <==> s.OnStack(v) || v == id;
    forall v | s'.OnStack(v)
      ensures v in s'.stack
    {
      assert s'.stack[|s.stack|] == id;
    }
  }

  lemma EnterLinked(g: Graph, stack: seq<Id>, active: set<Id>, id: Id)
    requires Chained(g, stack) && AllAnchored(g, stack, active)
    requires forall x | x in active :: Reaches(g, x, id)
    ensures Chained(g, stack + [id]) && AllAnchored(g, stack + [id], active + {id})
  {
    hide Reaches;
    var stack' := stack + [id];
    ReachesSelf(g, id);
    forall i, j | 0 <= i <= j < |stack'|
      ensures Reaches(g, stack'[i], stack'[j])
    {
      if i < |stack| == j {
        assert Anchored(g, stack, active, i);
        var k :| 0 <= k <= i && stack[k] in active && Reaches(g, stack[i], stack[k]);
        ReachesTransitive(g, stack[i], stack[k], id);
      }
    }
    forall i | 0 <= i < |stack'|
      ensures Anchored(g, stack', active + {id}, i)
    {
      if i == |stack| {
        assert stack'[i] in active + {id};
      } else {
        assert Anchored(g, stack, active, i);
        var k :| 0 <= k <= i && stack[k] in active && Reaches(g, stack[i], stack[k]);
        assert stack'[k] in active + {id};
      }
    }
  }

  lemma Entered(g: Graph, s: Snapshot, active: set<Id>, id: Id)
    requires Inv(g, s, active) && id in g && id !in s.index
    requires forall x | x in active :: Reaches(g, x, id)
    ensures Inv(g, Enter(s, id), active + {id})
    ensures Extends(s, Enter(s, id))
  {
    hide Reaches;
    hide GoodOutput;
    EnterNumbered(s, id);
    EnterLinked(g, s.stack, active, id);
  }

  /** A bound found before a successor's call still holds after it. */
  lemma AfterCallBounds(g: Graph, s: Snapshot, s': Snapshot, n: nat, low: nat, succLow: nat, m: nat)
    requires Extends(s, s') && n <= |s.stack|
    requires BoundsEdges(g, s, low, n, n)
    requires BoundsEdges(g, s', succLow, |s.stack|, |s.stack|)
    requires m <= low && m <= succLow
    ensures BoundsEdges(g, s', m, n, n)
  {
    forall i, j | n <= i < |s'.stack| && 0 <= j < n && j < |s'.stack| && Edge(g, s'.stack[i], s'.stack[j])
      ensures s'.stack[j] in s'.index && m <= s'.index[s'.stack[j]]
    {
      if i < |s.stack| {
        assert Edge(g, s.stack[i], s.stack[j]);
      }
    }
  }

  lemma WitnessKept(g: Graph, s: Snapshot, s': Snapshot, n: nat, low: nat, id: Id)
    requires Extends(s, s') && n <= |s.stack|
    requires Witnessed(g, s, low, n, id)
    ensures Witnessed(g, s', low, n, id)
  {
    hide Reaches;
    var j :| 0 <= j < n && j < |s.stack| && s.stack[j] in s.index && s.index[s.stack[j]] == low
      && Reaches(g, id, s.stack[j]);
    assert s'.stack[j] == s.stack[j];
  }

  /** A smaller low-link found by a successor's call names a node at or below `id`. */
  lemma WitnessFromCall(g: Graph, s: Snapshot, s': Snapshot, n: nat, succLow: nat, id: Id, succ: Id)
    requires Extends(s, s') && Numbered(s')
    requires 0 < n <= |s.stack| && s.stack[n - 1] == id && id in s.index && succLow < s.index[id]
    requires Edge(g, id, succ) && Witnessed(g, s', succLow, |s.stack|, succ)
    ensures Witnessed(g, s', succLow, n, id)
  {
    hide Reaches;
    var k :| 0 <= k < |s.stack| && k < |s'.stack| && s'.stack[k] in s'.index && s'.index[s'.stack[k]] == succLow
      && Reaches(g, succ, s'.stack[k]);
    assert s'.stack[n - 1] == id;
    ReachesEdge(g, id, succ);
    ReachesTransitive(g, id, succ, s'.stack[k]);
  }

  /** Every stacked node still reaches an active one once `stack[n]` is not active any more. */
  lemma ReturnedAnchored(g: Graph, stack: seq<Id>, active: set<Id>, n: nat, w: nat)
    requires n < |stack| && AllAnchored(g, stack, active + {stack[n]})
    requires forall i, j | 0 <= i < j < |stack| :: stack[i] != stack[j]
    requires w < n && stack[w] in active && Reaches(g, stack[n], stack[w])
    ensures AllAnchored(g, stack, active)
  {
    hide Reaches;
    forall i | 0 <= i < |stack|
      ensures Anchored(g, stack, active, i)
    {
      assert Anchored(g, stack, active + {stack[n]}, i);
      var k :| 0 <= k <= i && stack[k] in active + {stack[n]} && Reaches(g, stack[i], stack[k]);
      if k == n {
        ReachesTransitive(g, stack[i], stack[n], stack[w]);
      } else {
        assert stack[k] in active;
      }
    }
  }

  /** Whoever `stack[n]` reaches below itself leads on to an active node below it. */
  lemma ReturnedWitness(g: Graph, stack: seq<Id>, active: set<Id>, n: nat, j: nat) returns (w: nat)
    requires n < |stack| && AllAnchored(g, stack, active + {stack[n]})
    requires forall i, j | 0 <= i < j < |stack| :: stack[i] != stack[j]
    requires j < n && Reaches(g, stack[n], stack[j])
    ensures w < n && stack[w] in active && Reaches(g, stack[n], stack[w])
  {
    hide Reaches;
    assert Anchored(g, stack, active + {stack[n]}, j);
    w :| 0 <= w <= j && stack[w] in active + {stack[n]} && Reaches(g, stack[j], stack[w]);
    ReachesTransitive(g, stack[n], stack[j], stack[w]);
  }

  lemma StackDistinct(s: Snapshot)
    requires Numbered(s)
    ensures forall i, j | 0 <= i < j < |s.stack| :: s.stack[i] != s.stack[j]
  {
    forall i, j | 0 <= i < j < |s.stack|
      ensures s.stack[i] != s.stack[j]
    {
      assert s.index[s.stack[i]] < s.index[s.stack[j]];
    }
  }

  /** `stack[n]` left its call without being the root of its component. */
  lemma Returned(g: Graph, s: Snapshot, active: set<Id>, n: nat, low: nat)
    requires n < |s.stack| && Inv(g, s, active + {s.stack[n]})
    requires forall v | Edge(g, s.stack[n], v) :: v in s.index
    requires low < s.index[s.stack[n]] && Witnessed(g, s, low, n + 1, s.stack[n])
    ensures Inv(g, s, active)
    ensures Witnessed(g, s, low, n, s.stack[n])
  {
    hide Reaches;
    hide GoodOutput;
    hide AllAnchored;
    hide Chained;
    var j :| 0 <= j < n + 1 && j < |s.stack| && s.stack[j] in s.index && s.index[s.stack[j]] == low
      && Reaches(g, s.stack[n], s.stack[j]);
    assert j != n;
    StackDistinct(s);
    var w := ReturnedWitness(g, s.stack, active, n, j);
    ReturnedAnchored(g, s.stack, active, n, w);
  }

  /** The ids on the stack from position `n` up. */
  function Above(stack: seq<Id>, n: nat): (r: set<Id>)
    requires n <= |stack|
  {
    set i | n <= i < |stack| :: stack[i]
  }

  /** The root of a component has seen all its successors and found no way down. */
  ghost predicate AtRoot(g: Graph, s: Snapshot, active: set<Id>, n: nat) {
    && n < |s.stack|
    && Inv(g, s, active + {s.stack[n]})
    && (forall x | x in active :: (exists k :: 0 <= k < n && s.stack[k] == x) && Reaches(g, x, s.stack[n]))
    && (forall v | Edge(g, s.stack[n], v) :: v in s.index)
    && BoundsEdges(g, s, s.index[s.stack[n]], n, n)
  }

  lemma AboveNotActive(g: Graph, s: Snapshot, active: set<Id>, n: nat, i: nat)
    requires AtRoot(g, s, active, n) && n <= i < |s.stack|
    ensures s.stack[i] !in active
  {
    hide Reaches;
    hide GoodOutput;
    hide Visited;
    hide BoundsEdges;
    assert forall k | 0 <= k < n :: s.index[s.stack[k]] < s.index[s.stack[i]];
  }

  /** Nothing leads from the stack above a root to the stack below it. */
  lemma RootCloses(g: Graph, s: Snapshot, active: set<Id>, n: nat)
    requires AtRoot(g, s, active, n)
    ensures ClosedSet(g, Listed(s.output) + Above(s.stack, n))
  {
    hide Reaches;
    hide IsComponent;
    hide Listed;
    var listed, above := Listed(s.output), Above(s.stack, n);
    assert ClosedSet(g, listed) by {
      assert s.output[..|s.output|] == s.output;
    }
    forall u, v | u in listed + above && Edge(g, u, v)
      ensures v in listed + above
    {
      if u !in listed {
        var i :| n <= i < |s.stack| && s.stack[i] == u;
        AboveNotActive(g, s, active, n, i);
        assert v in s.index;
        if v !in listed {
          assert s.OnStack(v);
          var j :| 0 <= j < |s.stack| && s.stack[j] == v;
          assert Edge(g, s.stack[i], s.stack[j]);
        }
      }
    }
  }

  lemma RootMutual(g: Graph, s: Snapshot, active: set<Id>, n: nat, i: nat)
    requires AtRoot(g, s, active, n) && n <= i < |s.stack|
    ensures Mutual(g, s.stack[n], s.stack[i])
  {
    hide Reaches;
    hide GoodOutput;
    hide Visited;
    hide BoundsEdges;
    hide Numbered;
    var id, stack := s.stack[n], s.stack;
    assert Anchored(g, stack, active + {id}, i);
    var k :| 0 <= k <= i && stack[k] in active + {id} && Reaches(g, stack[i], stack[k]);
    if stack[k] != id {
      ReachesTransitive(g, stack[i], stack[k], id);
    }
  }

  /** The stack above a root is one whole component. */
  lemma RootComponent(g: Graph, s: Snapshot, active: set<Id>, n: nat)
    requires AtRoot(g, s, active, n)
    ensures forall u, v | u in Above(s.stack, n) :: v in Above(s.stack, n) <==> Mutual(g, u, v)
  {
    hide Reaches;
    hide IsComponent;
    hide Listed;
    var id, listed, above := s.stack[n], Listed(s.output), Above(s.stack, n);
    assert ClosedSet(g, listed) by {
      assert s.output[..|s.output|] == s.output;
    }
    RootCloses(g, s, active, n);
    forall u, v | u in above
      ensures v in above <==> Mutual(g, u, v)
    {
      var i :| n <= i < |s.stack| && s.stack[i] == u;
      assert s.OnStack(s.stack[i]) && u !in listed;
      RootMutual(g, s, active, n, i);
      if v in above {
        var j :| n <= j < |s.stack| && s.stack[j] == v;
        RootMutual(g, s, active, n, j);
        ReachesTransitive(g, u, id, v);
        ReachesTransitive(g, v, id, u);
      } else if Mutual(g, u, v) {
        ReachesStaysInside(g, listed + above, u, v);
        if v in listed {
          ReachesStaysInside(g, listed, v, u);
        }
      }
    }
  }

  ghost predicate Reversal(c: seq<Id>, stack: seq<Id>, n: nat) {
    n <= |stack| && |c| == |stack| - n && forall k | 0 <= k < |c| :: c[k] == stack[|stack| - 1 - k]
  }

  lemma ReversalMembers(c: seq<Id>, stack: seq<Id>, n: nat)
    requires Reversal(c, stack, n)
    ensures (set x | x in c) == Above(stack, n)
    ensures forall x :: x in c <==> x in Above(stack, n)
  {
    forall x | x in Above(stack, n)
      ensures x in c
    {
      var k :| n <= k < |stack| && stack[k] == x;
      assert c[|stack| - 1 - k] == x;
    }
  }

  lemma PoppedComponent(g: Graph, s: Snapshot, active: set<Id>, n: nat, c: seq<Id>)
    requires AtRoot(g, s, active, n) && Reversal(c, s.stack, n)
    ensures IsComponent(g, c)
  {
    hide Reaches;
    hide Listed;
    hide Mutual;
    RootComponent(g, s, active, n);
    ReversalMembers(c, s.stack, n);
    forall i, j | 0 <= i < j < |c|
      ensures c[i] != c[j]
    {
      var a, b := |s.stack| - 1 - j, |s.stack| - 1 - i;
      assert s.index[s.stack[a]] < s.index[s.stack[b]];
    }
  }

  lemma PoppedFlat(g: Graph, s: Snapshot, active: set<Id>, n: nat, c: seq<Id>)
    requires AtRoot(g, s, active, n) && Reversal(c, s.stack, n)
    ensures Distinct(Flatten(s.output + [c]))
  {
    PoppedComponent(g, s, active, n, c);
    hide Reaches;
    hide Mutual;
    hide ClosedSet;
    var all := s.output + [c];
    assert all[..|all| - 1] == s.output;
    FlattenMembers(s.output);
    hide Listed;
    ReversalMembers(c, s.stack, n);
    var f := Flatten(s.output);
    assert Flatten(all) == f + c;
    forall i, j | 0 <= i < j < |f + c|
      ensures (f + c)[i] != (f + c)[j]
    {
      if i < |f| <= j {
        assert f[i] in f && c[j - |f|] in c;
        var k :| n <= k < |s.stack| && s.stack[k] == c[j - |f|];
        assert s.OnStack(s.stack[k]);
      }
    }
  }

  /** The popped component extends a good output to a good output. */
  lemma PoppedOutput(g: Graph, s: Snapshot, active: set<Id>, n: nat, c: seq<Id>)
    requires AtRoot(g, s, active, n) && Reversal(c, s.stack, n)
    ensures GoodOutput(g, s.output + [c])
    ensures Listed(s.output + [c]) == Listed(s.output) + Above(s.stack, n)
  {
    RootCloses(g, s, active, n);
    PoppedComponent(g, s, active, n, c);
    PoppedFlat(g, s, active, n, c);
    ReversalMembers(c, s.stack, n);
    ListedAppend(s.output, c);
    hide Reaches;
    hide Listed;
    hide IsComponent;
    hide Flatten;
    hide ClosedSet;
    var all := s.output + [c];
    forall i | 0 <= i <= |all|
      ensures ClosedSet(g, Listed(all[..i]))
    {
      if i <= |s.output| {
        assert all[..i] == s.output[..i];
      } else {
        assert all[..i] == all;
      }
    }
  }

  /** The state after a root has popped its component. */
  ghost predicate Pops(s: Snapshot, s': Snapshot, n: nat, c: seq<Id>) {
    && n <= |s.stack| && s'.stack == s.stack[..n] && s'.output == s.output + [c]
    && s'.index == s.index && s'.order == s.order && |s'.nodes| == |s.nodes|
    && (forall k | 0 <= k < |s.nodes| :: s'.nodes[k].lowlink == s.nodes[k].lowlink)
    && (forall v | v in s.index && s.index[v] < |s.nodes| :: s'.OnStack(v) <==> s.OnStack(v) && v !in Above(s.stack, n))
  }

  lemma PoppedNumbered(s: Snapshot, s': Snapshot, n: nat, c: seq<Id>)
    requires Numbered(s) && Pops(s, s', n, c)
    ensures Numbered(s')
  {
    forall i | 0 <= i < |s'.stack|
      ensures s'.OnStack(s'.stack[i])
    {
      assert forall j | n <= j < |s.stack| :: s.index[s.stack[i]] < s.index[s.stack[j]];
    }
    forall v | s'.OnStack(v)
      ensures v in s'.stack
    {
      var i :| 0 <= i < |s.stack| && s.stack[i] == v;
      assert v == s'.stack[i];
    }
  }

  lemma PoppedAnchored(g: Graph, stack: seq<Id>, active: set<Id>, n: nat)
    requires n < |stack| && AllAnchored(g, stack, active + {stack[n]})
    requires forall i, j | 0 <= i < j < |stack| :: stack[i] != stack[j]
    ensures AllAnchored(g, stack[..n], active)
  {
    hide Reaches;
    forall i | 0 <= i < n
      ensures Anchored(g, stack[..n], active, i)
    {
      assert Anchored(g, stack, active + {stack[n]}, i);
      var k :| 0 <= k <= i && stack[k] in active + {stack[n]} && Reaches(g, stack[i], stack[k]);
      assert stack[..n][k] in active && stack[..n][i] == stack[i];
    }
  }

  lemma PoppedVisited(g: Graph, s: Snapshot, s': Snapshot, active: set<Id>, n: nat, c: seq<Id>)
    requires n < |s.stack| && Numbered(s) && Visited(g, s, active + {s.stack[n]}) && Pops(s, s', n, c)
    requires forall v | Edge(g, s.stack[n], v) :: v in s.index
    requires Listed(s.output + [c]) == Listed(s.output) + Above(s.stack, n)
    ensures Visited(g, s', active)
  {
    hide Listed;
    forall v | v in Above(s.stack, n)
      ensures v in s.index && s.OnStack(v)
    {
    }
    forall u, v | u in s'.index && u !in active && Edge(g, u, v)
      ensures v in s'.index
    {
    }
  }

  /** Popping a root's component re-establishes the invariant for the callers. */
  lemma Popped(g: Graph, s: Snapshot, s': Snapshot, active: set<Id>, n: nat, c: seq<Id>)
    requires AtRoot(g, s, active, n) && Reversal(c, s.stack, n) && Pops(s, s', n, c)
    ensures Inv(g, s', active)
  {
    PoppedOutput(g, s, active, n, c);
    hide GoodOutput;
    hide Listed;
    hide Reaches;
    hide AllAnchored;
    PoppedNumbered(s, s', n, c);
    PoppedVisited(g, s, s', active, n, c);
    StackDistinct(s);
    PoppedAnchored(g, s.stack, active, n);
    hide Numbered;
    hide Visited;
    assert Chained(g, s.stack[..n]);
  }
  /** strongConnect's loop over the successors of `id`, whose low-link so far is `low`. */
  ghost predicate Scanning(g: Graph, s: Snapshot, active: set<Id>, n: nat, id: Id, low: nat) {
    && n < |s.stack| && s.stack[n] == id
    && Inv(g, s, active + {id})
    && low <= s.index[id]
    && Witnessed(g, s, low, n + 1, id)
    && BoundsEdges(g, s, low, n + 1, n + 1)
  }

  /** The first `k` successors have numbers, and those on the stack are at or above `low`. */
  ghost predicate Scanned(s: Snapshot, succids: seq<Id>, k: nat, low: nat) {
    k <= |succids| &&
    forall j | 0 <= j < k :: succids[j] in s.index && (s.OnStack(succids[j]) ==> low <= s.index[succids[j]])
  }

  lemma OffStackForGood(g: Graph, s: Snapshot, s': Snapshot, active: set<Id>)
    requires Visited(g, s, active) && Visited(g, s', active) && Extends(s, s')
    ensures forall v | v in s.index && s'.OnStack(v) :: s.OnStack(v)
  {
    forall v | v in Listed(s.output)
      ensures v in Listed(s'.output)
    {
      var c :| c in s.output && v in c;
      assert c in s'.output;
    }
  }

  /** What a finished call reports about its successor `succ`. */
  ghost predicate Reported(g: Graph, s: Snapshot, s': Snapshot, succ: Id, succLow: nat) {
    && Extends(s, s')
    && succ in s'.index && |s.order| == s'.index[succ]
    && succLow <= s'.index[succ]
    && BoundsEdges(g, s', succLow, |s.stack|, |s.stack|)
    && (s'.OnStack(succ) ==> Witnessed(g, s', succLow, |s.stack|, succ))
    && (!s'.OnStack(succ) ==> succLow == s'.index[succ])
  }

  function Min(a: nat, b: nat): nat {
    if b < a then b else a
  }

  lemma AfterCallLow(g: Graph, s: Snapshot, s': Snapshot, n: nat, id: Id, low: nat, succ: Id, succLow: nat)
    requires Numbered(s') && n < |s.stack| && s.stack[n] == id && id in s.index && low <= s.index[id] < |s.order|
    requires Witnessed(g, s, low, n + 1, id) && BoundsEdges(g, s, low, n + 1, n + 1)
    requires Edge(g, id, succ) && Reported(g, s, s', succ, succLow)
    ensures Witnessed(g, s', Min(low, succLow), n + 1, id)
    ensures BoundsEdges(g, s', Min(low, succLow), n + 1, n + 1)
  {
    AfterCallBounds(g, s, s', n + 1, low, succLow, Min(low, succLow));
    WitnessKept(g, s, s', n + 1, low, id);
    hide Numbered;
    if succLow < low {
      WitnessFromCall(g, s, s', n + 1, succLow, id, succ);
    }
  }

  lemma AfterCallScanned(g: Graph, s: Snapshot, s': Snapshot, active: set<Id>, low: nat,
                         succids: seq<Id>, k: nat, succLow: nat)
    requires Visited(g, s, active) && Visited(g, s', active) && Scanned(s, succids, k, low) && k < |succids|
    requires Reported(g, s, s', succids[k], succLow)
    ensures Scanned(s', succids, k + 1, Min(low, succLow))
  {
    OffStackForGood(g, s, s', active);
  }

  /** One round of the loop, after the call for `succids[k]` has returned `succLow`. */
  lemma AfterCall(g: Graph, s: Snapshot, s': Snapshot, active: set<Id>, n: nat, id: Id, low: nat,
                  succids: seq<Id>, k: nat, succLow: nat)
    requires Scanning(g, s, active, n, id, low) && Scanned(s, succids, k, low) && k < |succids|
    requires Edge(g, id, succids[k]) && Inv(g, s', active + {id}) && Reported(g, s, s', succids[k], succLow)
    ensures Scanning(g, s', active, n, id, Min(low, succLow))
    ensures Scanned(s', succids, k + 1, Min(low, succLow))
  {
    hide Witnessed;
    hide BoundsEdges;
    hide Visited;
    hide Scanned;
    hide GoodOutput;
    hide Chained;
    hide AllAnchored;
    AfterCallLow(g, s, s', n, id, low, succids[k], succLow);
    AfterCallScanned(g, s, s', active + {id}, low, succids, k, succLow);
  }

  /** A successor that is on the stack already bounds the low-link by its own number. */
  lemma AfterStacked(g: Graph, s: Snapshot, active: set<Id>, n: nat, id: Id, low: nat, succids: seq<Id>, k: nat)
    requires Scanning(g, s, active, n, id, low) && Scanned(s, succids, k, low) && k < |succids|
    requires Edge(g, id, succids[k]) && s.OnStack(succids[k])
    ensures Scanning(g, s, active, n, id, Min(low, s.index[succids[k]]))
    ensures Scanned(s, succids, k + 1, Min(low, s.index[succids[k]]))
  {
    hide Reaches;
    hide GoodOutput;
    hide Chained;
    hide AllAnchored;
    hide Visited;
    var m := s.index[succids[k]];
    if m < low {
      var j :| 0 <= j < |s.stack| && s.stack[j] == succids[k];
      ReachesEdge(g, id, succids[k]);
    }
  }

  /** Nothing depends on the low-links of the nodes. */
  lemma LowlinkFree(g: Graph, s: Snapshot, s': Snapshot, active: set<Id>, n: nat, id: Id, low: nat, succids: seq<Id>, k: nat)
    requires Scanning(g, s, active, n, id, low) && Scanned(s, succids, k, low)
    requires s' == s.(nodes := s'.nodes) && |s'.nodes| == |s.nodes|
    requires forall i | 0 <= i < |s.nodes| :: s'.nodes[i].stacked == s.nodes[i].stacked
    ensures Scanning(g, s', active, n, id, low) && Scanned(s', succids, k, low)
  {
    hide Reaches;
    hide GoodOutput;
    hide Listed;
    assert forall v :: s'.OnStack(v) <==> s.OnStack(v);
    assert Numbered(s');
  }

  /** After the last successor, every edge from `id` or above is bounded. */
  lemma AllScanned(g: Graph, s: Snapshot, active: set<Id>, n: nat, id: Id, low: nat, succids: seq<Id>)
    requires Scanning(g, s, active, n, id, low) && Scanned(s, succids, |succids|, low)
    requires id in g && forall v | v in g[id] :: v in succids
    ensures BoundsEdges(g, s, low, n, n)
    ensures forall v | Edge(g, id, v) :: v in s.index
  {
    hide Reaches;
    hide GoodOutput;
    hide Chained;
    hide AllAnchored;
    hide Visited;
    hide Witnessed;
  }

  /** The call's own root has its whole component above it. */
  lemma Rooted(g: Graph, s: Snapshot, active: set<Id>, n: nat, id: Id, low: nat, succids: seq<Id>)
    requires Scanning(g, s, active, n, id, low) && Scanned(s, succids, |succids|, low)
    requires id in g && forall v | v in g[id] :: v in succids
    requires low == s.index[id]
    requires forall x | x in active :: x in s.stack[..n] && Reaches(g, x, id)
    ensures AtRoot(g, s, active, n)
  {
    AllScanned(g, s, active, n, id, low, succids);
    hide Reaches;
    hide Inv;
    hide Scanned;
    hide BoundsEdges;
    hide Witnessed;
  }
  lemma EnterScanning(g: Graph, s: Snapshot, active: set<Id>, id: Id)
    requires Inv(g, s, active) && id in g && id !in s.index
    requires forall x | x in active :: Reaches(g, x, id)
    ensures Scanning(g, Enter(s, id), active, |s.stack|, id, |s.nodes|)
    ensures Extends(s, Enter(s, id)) && |s.order| == |s.nodes|
  {
    Entered(g, s, active, id);
    ReachesSelf(g, id);
    hide Reaches;
    hide Visited;
    hide GoodOutput;
    hide Chained;
    hide AllAnchored;
  }

  /** All active nodes reach the successor that is about to be visited. */
  lemma CallReady(g: Graph, s: Snapshot, active: set<Id>, n: nat, id: Id, succ: Id)
    requires n < |s.stack| && s.stack[n] == id && Edge(g, id, succ)
    requires forall x | x in active :: x in s.stack[..n] && Reaches(g, x, id)
    ensures forall x | x in active + {id} :: x in s.stack && Reaches(g, x, succ)
  {
    ReachesEdge(g, id, succ);
    hide Reaches;
    forall x | x in active + {id}
      ensures x in s.stack && Reaches(g, x, succ)
    {
      if x != id {
        ReachesTransitive(g, x, id, succ);
      }
    }
  }

  lemma ScanningFacts(g: Graph, s: Snapshot, active: set<Id>, n: nat, id: Id, low: nat)
    requires Scanning(g, s, active, n, id, low)
    ensures Inv(g, s, active + {id})
    ensures id in s.index && low <= s.index[id] && Witnessed(g, s, low, n + 1, id)
    ensures forall v | v in s.index :: s.index[v] < |s.nodes|
  {
    hide Reaches;
  }

  /** Clearing the flag of `stack[i]` takes just that node off the stack. */
  lemma FlagCleared(s: Snapshot, nodes: seq<Node>, i: nat)
    requires Numbered(s) && i < |s.stack| && |nodes| == |s.nodes|
    requires forall v | v in s.index :: (nodes[s.index[v]].stacked <==> s.OnStack(v) && v !in Above(s.stack, i + 1))
    ensures var k := s.index[s.stack[i]];
      var nodes' := nodes[k := nodes[k].(stacked := false)];
      forall v | v in s.index :: nodes'[s.index[v]].stacked <==> s.OnStack(v) && v !in Above(s.stack, i)
  {
    assert Above(s.stack, i) == Above(s.stack, i + 1) + {s.stack[i]};
  }

  lemma RootPosition(g: Graph, s: Snapshot, active: set<Id>, n: nat)
    requires AtRoot(g, s, active, n)
    ensures Numbered(s) && n < |s.stack|
    ensures Above(s.stack, |s.stack|) == {}
    ensures forall i | n <= i < |s.stack| && s.index[s.stack[i]] == s.index[s.stack[n]] :: i == n
  {
    hide Reaches;
    hide BoundsEdges;
  }

  lemma ExtendsTransitive(g: Graph, before: Snapshot, now: Snapshot, s: Snapshot, id: Id, succ: Id, succLow: nat)
    requires Extends(before, now) && Reported(g, now, s, succ, succLow)
    requires id in now.index && |before.nodes| <= now.index[id] < |now.nodes| && succ !in now.index
    ensures Extends(before, s)
    ensures s.index.Keys > now.index.Keys && s.index[id] == now.index[id] && now.stack <= s.stack
    ensures |now.nodes| <= |s.nodes| && s.nodes[now.index[id]].lowlink == now.nodes[now.index[id]].lowlink
  {
    hide Reaches;
    assert succ in s.index.Keys && succ !in now.index.Keys;
  }

  lemma ExtendsOwnLowlink(before: Snapshot, s: Snapshot, ix: nat, low: nat)
    requires Extends(before, s) && |before.nodes| <= ix < |s.nodes|
    ensures Extends(before, s.(nodes := s.nodes[ix := s.nodes[ix].(lowlink := low)]))
  {
  }

  lemma ReportRoot(g: Graph, before: Snapshot, s: Snapshot, s': Snapshot, active: set<Id>, n: nat, c: seq<Id>)
    requires AtRoot(g, s, active, n) && Pops(s, s', n, c) && Extends(before, s)
    requires |before.stack| == n && s.index[s.stack[n]] == |before.order|
    ensures Reported(g, before, s', s.stack[n], s.index[s.stack[n]])
  {
    hide Reaches;
    hide GoodOutput;
    hide Visited;
    assert s.stack[n] in Above(s.stack, n);
  }

  lemma ReportInner(g: Graph, before: Snapshot, s: Snapshot, active: set<Id>, n: nat, low: nat)
    requires n < |s.stack| && Inv(g, s, active) && Extends(before, s)
    requires |before.stack| == n && s.index[s.stack[n]] == |before.order| && low < |before.order|
    requires BoundsEdges(g, s, low, n, n) && Witnessed(g, s, low, n, s.stack[n])
    ensures Reported(g, before, s, s.stack[n], low)
  {
    hide Reaches;
    hide GoodOutput;
    hide Visited;
    hide BoundsEdges;
    hide Witnessed;
  }

  // ---- the sort as a function of the graph

  function Lowered(s: Snapshot, ix: nat, low: nat): (r: Snapshot) {
    if ix < |s.nodes| && low < s.nodes[ix].lowlink then s.(nodes := s.nodes[ix := s.nodes[ix].(lowlink := low)]) else s
  }

  function LowOf(s: Snapshot, v: Id): (r: nat) {
    if v in s.index && s.index[v] < |s.nodes| then s.nodes[s.index[v]].lowlink else 0
  }

  function Backwards(ids: seq<Id>): (r: seq<Id>) {
    if ids == [] then [] else [ids[|ids| - 1]] + Backwards(ids[..|ids| - 1])
  }

  /** What is above position `n` of the stack becomes a component, from the top down. */
  function Cut(s: Snapshot, n: nat): (r: Snapshot) {
    if n > |s.stack| || |s.order| != |s.nodes| then s
    else
      s.(stack := s.stack[..n], output := s.output + [Backwards(s.stack[n..])],
         nodes := seq(|s.nodes|, i requires 0 <= i < |s.nodes| == |s.order| =>
           if s.order[i] in s.stack[n..] then s.nodes[i].(stacked := false) else s.nodes[i]))
  }

  function Left(s: Snapshot, ix: nat, n: nat): (r: Snapshot) {
    if ix < |s.nodes| && s.nodes[ix].lowlink == ix then Cut(s, n) else s
  }

  /** A node not yet numbered is numbered, its successors are scanned in increasing order, and a root is cut off. */
  function Visit(g: Graph, s: Snapshot, id: Id): (r: Snapshot)
    ensures s.index.Keys <= r.index.Keys
    decreases g.Keys - s.index.Keys, 0, 0
  {
    if id !in g || id in s.index then s
    else
      assert id in g.Keys - s.index.Keys && id !in g.Keys - Enter(s, id).index.Keys;
      Left(Scan(g, Enter(s, id), |s.nodes|, Sorted(g[id])), |s.nodes|, |s.stack|)
  }

  function Scan(g: Graph, s: Snapshot, ix: nat, ids: seq<Id>): (r: Snapshot)
    ensures s.index.Keys <= r.index.Keys
    decreases g.Keys - s.index.Keys, 1, |ids|
  {
    if ids == [] then s
    else if ids[0] !in s.index then
      var t := Lowered(Visit(g, s, ids[0]), ix, LowOf(Visit(g, s, ids[0]), ids[0]));
      assert g.Keys - t.index.Keys <= g.Keys - s.index.Keys;
      Scan(g, t, ix, ids[1..])
    else Scan(g, if s.OnStack(ids[0]) then Lowered(s, ix, s.index[ids[0]]) else s, ix, ids[1..])
  }

  function VisitAll(g: Graph, s: Snapshot, ids: seq<Id>): (r: Snapshot)
    decreases |ids|
  {
    if ids == [] then s else VisitAll(g, if ids[0] in s.index then s else Visit(g, s, ids[0]), ids[1..])
  }

  const NOTHING := Snapshot(map[], [], [], [], [])

  ghost predicate Lists(s: seq<Id>, ids: set<Id>) {
    multiset(s) == multiset(ids) && Increasing(s)
  }

  ghost function Ascending(ids: set<Id>): (r: seq<Id>)
    ensures Lists(r, ids)
  {
    HasAscending(ids);
    var s :| Lists(s, ids);
    s
  }

  lemma {:induction false} HasAscending(ids: set<Id>)
    ensures exists s :: Lists(s, ids)
  {
    if ids == {} {
      assert Lists([], ids);
    } else {
      var x :| x in ids;
      HasAscending(ids - {x});
      var s :| Lists(s, ids - {x});
      OneListed(ids, x, s);
    }
  }

  lemma OneListed(ids: set<Id>, x: Id, s: seq<Id>)
    requires x in ids && Lists(s, ids - {x})
    ensures Lists(InsertSorted(x, s), ids)
  {
    InsertSortedMembers(x, s);
    InsertSortedIncreasing(x, s);
    hide Increasing, InsertSorted;
    assert ids == {x} + (ids - {x});
  }

  /** The components of a graph in the order of the output. */
  ghost function Components(g: Graph): (r: seq<seq<Id>>) {
    VisitAll(g, NOTHING, Ascending(g.Keys)).output
  }

  /** The same graph, with successors listed in another order. */
  ghost predicate Alike(g: Graph, g': Graph) {
    g.Keys == g'.Keys && forall u | u in g :: multiset(g[u]) == multiset(g'[u])
  }

  lemma {:induction false} VisitAlike(g: Graph, g': Graph, s: Snapshot, id: Id)
    requires Alike(g, g')
    ensures Visit(g, s, id) == Visit(g', s, id)
    decreases g.Keys - s.index.Keys, 0, 0
  {
    hide Scan, Left, Sorted;
    if id in g && id !in s.index {
      assert id in g.Keys - s.index.Keys && id !in g.Keys - Enter(s, id).index.Keys;
      SortedAlike(g[id], g'[id]);
      ScanAlike(g, g', Enter(s, id), |s.nodes|, Sorted(g[id]));
    }
  }

  lemma {:induction false} ScanAlike(g: Graph, g': Graph, s: Snapshot, ix: nat, ids: seq<Id>)
    requires Alike(g, g')
    ensures Scan(g, s, ix, ids) == Scan(g', s, ix, ids)
    decreases g.Keys - s.index.Keys, 1, |ids|
  {
    hide Visit, Lowered, LowOf, Snapshot.OnStack, Alike;
    if ids != [] {
      if ids[0] !in s.index {
        VisitAlike(g, g', s, ids[0]);
        var t := Visit(g, s, ids[0]);
        LoweredIndex(t, ix, LowOf(t, ids[0]));
        assert g.Keys - Lowered(t, ix, LowOf(t, ids[0])).index.Keys <= g.Keys - s.index.Keys;
        ScanAlike(g, g', Lowered(t, ix, LowOf(t, ids[0])), ix, ids[1..]);
      } else {
        LoweredIndex(s, ix, s.index[ids[0]]);
        ScanAlike(g, g', if s.OnStack(ids[0]) then Lowered(s, ix, s.index[ids[0]]) else s, ix, ids[1..]);
      }
    }
  }

  lemma LoweredIndex(s: Snapshot, ix: nat, low: nat)
    ensures Lowered(s, ix, low).index == s.index
  {
  }

  lemma {:induction false} AllAlike(g: Graph, g': Graph, s: Snapshot, ids: seq<Id>)
    requires Alike(g, g')
    ensures VisitAll(g, s, ids) == VisitAll(g', s, ids)
    decreases |ids|
  {
    hide Visit, Alike;
    if ids != [] {
      VisitAlike(g, g', s, ids[0]);
      AllAlike(g, g', if ids[0] in s.index then s else Visit(g, s, ids[0]), ids[1..]);
    }
  }

  /** The output is stable: it does not depend on the order in which successors are listed. */
  lemma Stable(g: Graph, g': Graph)
    requires Alike(g, g')
    ensures Components(g) == Components(g')
  {
    AllAlike(g, g', NOTHING, Ascending(g.Keys));
  }

  // ---- the methods' steps

  lemma SortedKeys(ids: seq<Id>, all: set<Id>)
    requires multiset(ids) == multiset(all)
    ensures Sorted(ids) == Ascending(all)
  {
    SortedIsSorted(ids);
    OneOrder(Sorted(ids), Ascending(all));
  }

  lemma AllGoesOn(g: Graph, s: Snapshot, ids: seq<Id>, k: nat)
    requires k < |ids|
    ensures VisitAll(g, s, ids[k..]) == VisitAll(g, if ids[k] in s.index then s else Visit(g, s, ids[k]), ids[k + 1..])
  {
    hide Visit;
    assert ids[k..][0] == ids[k] && ids[k..][1..] == ids[k + 1..];
  }

  lemma AllEnds(g: Graph, s: Snapshot, ids: seq<Id>)
    ensures VisitAll(g, s, ids[|ids|..]) == s && ids[0..] == ids
  {
  }

  lemma VisitIs(g: Graph, s: Snapshot, id: Id)
    requires id in g && id !in s.index
    ensures Visit(g, s, id) == Left(Scan(g, Enter(s, id), |s.nodes|, Sorted(g[id])), |s.nodes|, |s.stack|)
  {
  }

  lemma ScanIs(g: Graph, s: Snapshot, ix: nat, ids: seq<Id>, k: nat)
    requires k < |ids|
    ensures ids[k] !in s.index ==>
      Scan(g, s, ix, ids[k..]) == Scan(g, Lowered(Visit(g, s, ids[k]), ix, LowOf(Visit(g, s, ids[k]), ids[k])), ix, ids[k + 1..])
    ensures ids[k] in s.index ==>
      Scan(g, s, ix, ids[k..]) == Scan(g, if s.OnStack(ids[k]) then Lowered(s, ix, s.index[ids[k]]) else s, ix, ids[k + 1..])
  {
    hide Visit, Lowered, LowOf, Snapshot.OnStack;
    assert ids[k..][0] == ids[k] && ids[k..][1..] == ids[k + 1..];
  }

  lemma LeftIs(s: Snapshot, id: Id, n: nat)
    requires id in s.index && s.index[id] < |s.nodes|
    ensures Left(s, s.index[id], n) == if LowOf(s, id) == s.index[id] then Cut(s, n) else s
    ensures LowOf(s, id) == s.nodes[s.index[id]].lowlink
  {
    hide Cut;
  }

  lemma LowStays(s: Snapshot, n: nat, v: Id)
    ensures LowOf(Cut(s, n), v) == LowOf(s, v)
  {
  }

  lemma ScanEnds(g: Graph, s: Snapshot, ix: nat, ids: seq<Id>)
    ensures Scan(g, s, ix, ids[|ids|..]) == s && ids[0..] == ids
  {
  }

  /** The stack from the top down to position `n`. */
  lemma {:induction false} ReversalIs(c: seq<Id>, stack: seq<Id>, n: nat)
    requires Reversal(c, stack, n)
    ensures c == Backwards(stack[n..])
    decreases |c|
  {
    if c != [] {
      ReversalIs(c[1..], stack[..|stack| - 1], n);
      assert stack[n..][..|stack| - n - 1] == stack[..|stack| - 1][n..];
    }
  }

  /** Popping a component leaves nothing open. */
  lemma CutIs(s: Snapshot, s': Snapshot, n: nat, c: seq<Id>)
    requires Numbered(s) && Pops(s, s', n, c) && Reversal(c, s.stack, n)
    ensures s' == Cut(s, n)
  {
    hide Backwards;
    PoppedNumbered(s, s', n, c);
    ReversalIs(c, s.stack, n);
    var r := Cut(s, n);
    forall i | 0 <= i < |s.nodes| ensures s'.nodes[i] == r.nodes[i] {
      var v := s.order[i];
      assert s.index[v] == i;
      assert v in Above(s.stack, n) <==> v in s.stack[n..];
      assert s'.OnStack(v) <==> s.OnStack(v) && v !in Above(s.stack, n);
    }
    assert s'.nodes == r.nodes;
  }

  /** The running algorithm. */
  class TarjanData {
    const successors: Graph
    var output: seq<seq<Id>>
    var nodes: seq<Node>
    var stack: seq<Id>
    var index: map<Id, nat>
    ghost var order: seq<Id>

    constructor (successors: Graph)
      ensures this.successors == successors
      ensures Snap() == Snapshot(map[], [], [], [], [])
    {
      this.successors := successors;
      output, nodes, stack, index, order := [], [], [], map[], [];
    }

    ghost function Snap(): Snapshot
      reads this
    {
      Snapshot(index, order, nodes, stack, output)
    }

    /** Visits `id` and everything it reaches that has no number yet. */
    method StrongConnect(id: Id, ghost active: set<Id>) returns (lowlink: nat)
      requires Closed(successors)
      requires id in successors && id !in index
      requires Inv(successors, Snap(), active)
      requires forall x | x in active :: x in stack && Reaches(successors, x, id)
      modifies this
      ensures Inv(successors, Snap(), active)
      ensures Reported(successors, old(Snap()), Snap(), id, lowlink)
      ensures Snap() == Visit(successors, old(Snap()), id) && lowlink == LowOf(Snap(), id)
      decreases successors.Keys - index.Keys
    {
      hide Inv, BoundsEdges, Witnessed, Reaches, Scanning, Extends, Reported, AtRoot, Sorted, Reversal, Visit, Scan, Cut, Pops, LowOf, Left;
      ghost var before := Snap();
      var ix := |nodes|;
      ghost var n := |stack|;
      index := index[id := ix];
      stack := stack + [id];
      nodes := nodes + [Node(ix, true)];
      order := order + [id];
      EnterScanning(successors, before, active, id);
      var succids := Sorted(successors[id]);
      SortedMembers(successors[id]);
      VisitIs(successors, before, id);
      ghost var whole := Scan(successors, Snap(), ix, succids);
      ScanEnds(successors, Snap(), ix, succids);
      for k := 0 to |succids|
        invariant id in index && index[id] == ix < |nodes|
        invariant n < |stack| && stack[n] == id && before.stack <= stack
        invariant Scanning(successors, Snap(), active, n, id, nodes[ix].lowlink)
        invariant Scanned(Snap(), succids, k, nodes[ix].lowlink)
        invariant Extends(before, Snap())
        invariant Scan(successors, Snap(), ix, succids[k..]) == whole
        invariant successors.Keys - index.Keys < old(successors.Keys - index.Keys)
      {
        var succid := succids[k];
        assert Edge(successors, id, succid);
        ghost var now := Snap();
        ghost var low := nodes[ix].lowlink;
        ScanIs(successors, now, ix, succids, k);
        ScanningFacts(successors, now, active, n, id, low);
        if succid !in index {
          CallReady(successors, now, active, n, id, succid);
          var succlow := StrongConnect(succid, active + {id});
          AfterCall(successors, now, Snap(), active, n, id, low, succids, k, succlow);
          ExtendsTransitive(successors, before, now, Snap(), id, succid, succlow);
          ghost var mid := Snap();
          if succlow < nodes[ix].lowlink {
            ExtendsOwnLowlink(before, Snap(), ix, succlow);
            nodes := nodes[ix := nodes[ix].(lowlink := succlow)];
          }
          LowlinkFree(successors, mid, Snap(), active, n, id, Min(low, succlow), succids, k + 1);
        } else if nodes[index[succid]].stacked {
          AfterStacked(successors, now, active, n, id, low, succids, k);
          if index[succid] < nodes[ix].lowlink {
            ExtendsOwnLowlink(before, Snap(), ix, index[succid]);
            nodes := nodes[ix := nodes[ix].(lowlink := index[succid])];
          }
          LowlinkFree(successors, now, Snap(), active, n, id, Min(low, index[succid]), succids, k + 1);
        }
      }

      ScanEnds(successors, Snap(), ix, succids);
      LeftIs(Snap(), id, n);
      lowlink := nodes[ix].lowlink;
      ScanningFacts(successors, Snap(), active, n, id, lowlink);
      AllScanned(successors, Snap(), active, n, id, lowlink, succids);
      if nodes[ix].lowlink == ix {
        Rooted(successors, Snap(), active, n, id, lowlink, succids);
        ghost var full := Snap();
        var scc := PopComponent(ix, active, n);
        ReportRoot(successors, before, full, Snap(), active, n, scc);
        LowStays(full, n, id);
      } else {
        Returned(successors, Snap(), active, n, lowlink);
        ReportInner(successors, before, Snap(), active, n, lowlink);
      }
    }

    /** Pops the stack down to the root with number `ix` and outputs what it popped. */
    method PopComponent(ix: nat, ghost active: set<Id>, ghost n: nat) returns (scc: seq<Id>)
      requires AtRoot(successors, Snap(), active, n) && index[stack[n]] == ix
      modifies this`nodes, this`stack, this`output
      ensures Inv(successors, Snap(), active)
      ensures Reversal(scc, old(stack), n) && Pops(old(Snap()), Snap(), n, scc)
      ensures Snap() == Cut(old(Snap()), n)
    {
      hide AtRoot, Cut;
      hide Inv;
      hide Above;
      RootPosition(successors, Snap(), active, n);
      scc := [];
      var i := |stack| - 1;
      while true
        invariant stack == old(stack) && output == old(output)
        invariant n <= i < |stack|
        invariant Reversal(scc, stack, i + 1)
        invariant |nodes| == |old(nodes)|
        invariant forall k | 0 <= k < |nodes| :: nodes[k].lowlink == old(nodes)[k].lowlink
        invariant forall v | v in index ::
          nodes[index[v]].stacked <==> old(Snap()).OnStack(v) && v !in Above(stack, i + 1)
        decreases i
      {
        var stackid := stack[i];
        var stackindex := index[stackid];
        FlagCleared(old(Snap()), nodes, i);
        nodes := nodes[stackindex := nodes[stackindex].(stacked := false)];
        scc := scc + [stackid];
        if stackindex == ix {
          break;
        }
        i := i - 1;
      }
      stack := stack[..i];
      output := output + [scc];
      Popped(successors, old(Snap()), Snap(), active, n, scc);
      CutIs(old(Snap()), Snap(), n, scc);
    }
  }

  /** Every node is in exactly one list, at one position; a list is a strongly
      connected component; and what a node reaches is in its own list or an earlier one. */
  ghost predicate TopologicalComponents(g: Graph, output: seq<seq<Id>>) {
    && Distinct(Flatten(output))
    && (forall x :: x in Flatten(output) <==> x in g)
    && (forall c | c in output :: c != [] && Distinct(c))
    && (forall i, u, v | 0 <= i < |output| && u in output[i] :: v in output[i] <==> Mutual(g, u, v))
    && (forall i, j, u, v | 0 <= i < |output| && 0 <= j < |output| && u in output[i] && v in output[j] && Reaches(g, u, v) ::
          j <= i)
  }

  lemma SecondHalfOnly(a: seq<Id>, b: seq<Id>, x: Id)
    requires Distinct(a + b) && x in b
    ensures x !in a
  {
    var j :| 0 <= j < |b| && b[j] == x;
    forall i | 0 <= i < |a|
      ensures a[i] != x
    {
      assert (a + b)[i] == a[i] && (a + b)[|a| + j] == b[j];
    }
  }

  lemma EarlierListed(output: seq<seq<Id>>, i: nat, j: nat, v: Id)
    requires i < j < |output| && v in output[j] && Distinct(Flatten(output))
    ensures v !in Listed(output[..i + 1])
    decreases |output|
  {
    var init, last := output[..|output| - 1], output[|output| - 1];
    FlattenMembers(init);
    if j == |output| - 1 {
      SecondHalfOnly(Flatten(init), last, v);
      assert forall c | c in output[..i + 1] :: c in init;
    } else {
      assert Distinct(Flatten(init)) by {
        forall a, b | 0 <= a < b < |Flatten(init)|
          ensures Flatten(init)[a] != Flatten(init)[b]
        {
          assert Flatten(output)[a] != Flatten(output)[b];
        }
      }
      assert init[..i + 1] == output[..i + 1];
      EarlierListed(init, i, j, v);
    }
  }

  lemma GoodOutputIsTopological(g: Graph, output: seq<seq<Id>>)
    requires GoodOutput(g, output) && Listed(output) == g.Keys
    ensures TopologicalComponents(g, output)
  {
    FlattenMembers(output);
    forall i, j, u, v | 0 <= i < |output| && 0 <= j < |output| && u in output[i] && v in output[j] && Reaches(g, u, v)
      ensures j <= i
    {
      if i < j {
        EarlierListed(output, i, j, v);
        assert output[i] == output[..i + 1][i];
        ReachesStaysInside(g, Listed(output[..i + 1]), u, v);
      }
    }
  }

  lemma NothingStacked(g: Graph, s: Snapshot)
    requires Inv(g, s, {})
    ensures s.stack == []
    ensures GoodOutput(g, s.output) && Listed(s.output) == s.index.Keys
  {
    hide Reaches, GoodOutput, Listed;
    assert s.stack != [] ==> Anchored(g, s.stack, {}, 0);
  }

  lemma FreshSnapshot(g: Graph)
    ensures Inv(g, Snapshot(map[], [], [], [], []), {})
  {
    hide Reaches;
  }

  lemma IndexKeys(g: Graph, s: Snapshot)
    requires Inv(g, s, {})
    ensures s.index.Keys <= g.Keys
  {
    hide Reaches, GoodOutput, Numbered;
  }

  lemma IndexGrows(g: Graph, s: Snapshot, s': Snapshot, id: Id, low: nat)
    requires Reported(g, s, s', id, low)
    ensures s.index.Keys <= s'.index.Keys && id in s'.index
  {
    hide BoundsEdges, Witnessed;
  }

  /** Tarjan's sort of a closed graph. */
  method TarjanSort(successors: Graph) returns (output: seq<seq<Id>>)
    requires Closed(successors)
    ensures TopologicalComponents(successors, output) && output == Components(successors)
  {
    hide Inv, Reported, Reaches, Sorted, TopologicalComponents, GoodOutput, Visit, VisitAll, LowOf;
    var data := new TarjanData(successors);
    FreshSnapshot(successors);
    var ids := Keys(successors.Keys);
    var all := Sorted(ids);
    SortedMembers(ids);
    SortedKeys(ids, successors.Keys);
    AllEnds(successors, data.Snap(), all);
    for k := 0 to |all|
      invariant data.successors == successors && fresh(data)
      invariant Inv(successors, data.Snap(), {})
      invariant forall j | 0 <= j < k :: all[j] in data.index
      invariant VisitAll(successors, data.Snap(), all[k..]) == VisitAll(successors, NOTHING, all)
    {
      AllGoesOn(successors, data.Snap(), all, k);
      if all[k] !in data.index {
        ghost var s := data.Snap();
        var low := data.StrongConnect(all[k], {});
        IndexGrows(successors, s, data.Snap(), all[k], low);
      }
    }
    AllEnds(successors, data.Snap(), all);
    NothingStacked(successors, data.Snap());
    IndexKeys(successors, data.Snap());
    output := data.output;
    GoodOutputIsTopological(successors, output);
  }

  /** The keys of a map in some order, as ranging over it yields them. */
  method Keys(s: set<Id>) returns (r: seq<Id>)
    ensures forall x :: x in r <==> x in s
    ensures multiset(r) == multiset(s)
  {
    var rest := s;
    r := [];
    while rest != {}
      invariant rest <= s
      invariant forall x :: x in r <==> x in s - rest
      invariant multiset(r) == multiset(s - rest)
    {
      var x :| x in rest;
      r := r + [x];
      rest := rest - {x};
    }
  }
}
