/** How a flusher turns the document queues it has seen into the order in which
    it flushes transactions (flusher.run). */
module FlushOrder {
  import opened Basics
  import opened Graphs
  import opened Tarjan

  type Nonce = string

  // A queue entry: the id of a transaction and the nonce it was prepared with.
  datatype Token = Token(id: Id, nonce: Nonce)

  /** `seen` holds the nonce of each transaction loaded so far; a queue entry
      counts only when it carries that very nonce. */
  predicate IsValid(seen: map<Id, Nonce>, t: Token) {
    t.id in seen && seen[t.id] == t.nonce
  }

  /** Both entries are valid and nothing valid lies between them. */
  ghost predicate NextValid(seen: map<Id, Nonce>, q: seq<Token>, i: int, j: int) {
    && 0 <= i < j < |q|
    && IsValid(seen, q[i]) && IsValid(seen, q[j])
    && forall k | i < k < j :: !IsValid(seen, q[k])
  }

  ghost predicate Adjacent(seen: map<Id, Nonce>, q: seq<Token>, u: Id, v: Id) {
    exists i, j :: NextValid(seen, q, i, j) && q[i].id == u && q[j].id == v
  }

  /** `u` is directly before `v` among the valid entries of some queue. */
  ghost predicate Precedes(seen: map<Id, Nonce>, queues: seq<seq<Token>>, u: Id, v: Id) {
    exists q :: 0 <= q < |queues| && Adjacent(seen, queues[q], u, v)
  }

  ghost predicate Queued(seen: map<Id, Nonce>, queues: seq<seq<Token>>, u: Id) {
    exists q, i :: 0 <= q < |queues| && 0 <= i < |queues[q]| && queues[q][i].id == u && IsValid(seen, queues[q][i])
  }

  /** The adjacent valid entries whose first one is before position `n`. */
  ghost function PairsBelow(seen: map<Id, Nonce>, q: seq<Token>, n: int): (r: set<(Id, Id)>) {
    set i, j | 0 <= i < |q| && 0 <= j < |q| && i < n && NextValid(seen, q, i, j) :: (q[i].id, q[j].id)
  }

  ghost function AllPairs(seen: map<Id, Nonce>, queues: seq<seq<Token>>): (r: set<(Id, Id)>) {
    if queues == [] then {}
    else AllPairs(seen, queues[..|queues| - 1]) + PairsBelow(seen, queues[|queues| - 1], |queues[|queues| - 1]|)
  }

  lemma {:induction false} AllPairsArePrecedes(seen: map<Id, Nonce>, queues: seq<seq<Token>>)
    ensures forall u: Id, v: Id :: (u, v) in AllPairs(seen, queues) <==> Precedes(seen, queues, u, v)
  {
    if queues != [] {
      var init, last := queues[..|queues| - 1], queues[|queues| - 1];
      AllPairsArePrecedes(seen, init);
      forall u: Id, v: Id
        ensures (u, v) in AllPairs(seen, queues) <==> Precedes(seen, queues, u, v)
      {
        assert (u, v) in PairsBelow(seen, last, |last|) <==> Adjacent(seen, last, u, v);
        if Precedes(seen, init, u, v) {
          var q :| 0 <= q < |init| && Adjacent(seen, init[q], u, v);
          assert Adjacent(seen, queues[q], u, v);
        }
        if Adjacent(seen, last, u, v) {
          assert Adjacent(seen, queues[|queues| - 1], u, v);
        }
        if Precedes(seen, queues, u, v) {
          var q :| 0 <= q < |queues| && Adjacent(seen, queues[q], u, v);
          if q < |init| {
            assert Adjacent(seen, init[q], u, v);
          }
        }
      }
    }
  }

  /** Nothing valid at `i`, or nothing valid after it: no new pair. */
  lemma NoPair(seen: map<Id, Nonce>, q: seq<Token>, i: nat)
    requires i < |q|
    requires !IsValid(seen, q[i]) || forall k | i < k < |q| :: !IsValid(seen, q[k])
    ensures PairsBelow(seen, q, i + 1) == PairsBelow(seen, q, i)
  {
  }

  lemma PairAt(seen: map<Id, Nonce>, q: seq<Token>, i: nat, j: nat)
    requires NextValid(seen, q, i, j)
    ensures PairsBelow(seen, q, i + 1) == PairsBelow(seen, q, i) + {(q[i].id, q[j].id)}
  {
    forall u: Id, v: Id | (u, v) in PairsBelow(seen, q, i + 1)
      ensures (u, v) in PairsBelow(seen, q, i) + {(q[i].id, q[j].id)}
    {
      var k, l :| 0 <= k < |q| && 0 <= l < |q| && k < i + 1 && NextValid(seen, q, k, l) && u == q[k].id && v == q[l].id;
      if k == i {
        assert l == j;
      }
    }
  }

  lemma OnePair(seen: map<Id, Nonce>, q: seq<Token>, i: nat, j: nat)
    requires NextValid(seen, q, i, j)
    ensures PairsBelow(seen, q, j) == PairsBelow(seen, q, i) + {(q[i].id, q[j].id)}
  {
    PairAt(seen, q, i, j);
    hide PairsBelow;
    var k := i + 1;
    while k < j
      invariant i < k <= j
      invariant PairsBelow(seen, q, k) == PairsBelow(seen, q, i + 1)
    {
      NoPair(seen, q, k);
      k := k + 1;
    }
  }

  /** The successor lists hold exactly `pairs`, between keys. */
  ghost predicate Tracks(successors: Graph, pairs: set<(Id, Id)>) {
    && (forall u: Id, v: Id :: Edge(successors, u, v) <==> (u, v) in pairs)
    && (forall u: Id, v: Id | (u, v) in pairs :: v in successors)
  }

  /** The keys are queued ids, and cover the first `q` queues and the first `n` entries of the next. */
  ghost predicate Covers(seen: map<Id, Nonce>, queues: seq<seq<Token>>, successors: Graph, q: nat, n: nat) {
    && q <= |queues|
    && (forall u | u in successors :: Queued(seen, queues, u))
    && (forall k, i | 0 <= k < q && 0 <= i < |queues[k]| && IsValid(seen, queues[k][i]) :: queues[k][i].id in successors)
    && (forall i | q < |queues| && 0 <= i < n && i < |queues[q]| && IsValid(seen, queues[q][i]) :: queues[q][i].id in successors)
  }

  lemma KeyAdded(seen: map<Id, Nonce>, queues: seq<seq<Token>>, successors: Graph, pairs: set<(Id, Id)>, q: nat, n: nat, i: nat)
    requires q < |queues| && i < |queues[q]| && IsValid(seen, queues[q][i])
    requires Tracks(successors, pairs) && Covers(seen, queues, successors, q, n)
    requires queues[q][i].id !in successors
    ensures Tracks(successors[queues[q][i].id := []], pairs)
    ensures Covers(seen, queues, successors[queues[q][i].id := []], q, n)
  {
    assert Queued(seen, queues, queues[q][i].id);
    var next := successors[queues[q][i].id := []];
    forall u: Id, v: Id
      ensures Edge(next, u, v) <==> (u, v) in pairs
    {
      assert Edge(next, u, v) <==> Edge(successors, u, v);
    }
  }

  lemma PairAdded(successors: Graph, pairs: set<(Id, Id)>, u: Id, v: Id)
    requires Tracks(successors, pairs) && u in successors && v in successors
    ensures v !in successors[u] ==> Tracks(successors[u := successors[u] + [v]], pairs + {(u, v)})
    ensures v in successors[u] ==> pairs + {(u, v)} == pairs
  {
    if v in successors[u] {
      assert Edge(successors, u, v);
    } else {
      var next := successors[u := successors[u] + [v]];
      forall x: Id, y: Id
        ensures Edge(next, x, y) <==> (x, y) in pairs + {(u, v)}
      {
        assert Edge(successors, x, y) <==> (x, y) in pairs;
      }
    }
  }

  lemma Started(seen: map<Id, Nonce>, queues: seq<seq<Token>>)
    ensures Tracks(map[], AllPairs(seen, queues[..0])) && Covers(seen, queues, map[], 0, 0)
    ensures AllPairs(seen, queues[..0]) == {}
  {
  }

  lemma QueueDone(seen: map<Id, Nonce>, queues: seq<seq<Token>>, q: nat)
    requires q < |queues|
    ensures PairsBelow(seen, queues[q], 0) == {}
    ensures AllPairs(seen, queues[..q + 1]) == AllPairs(seen, queues[..q]) + PairsBelow(seen, queues[q], |queues[q]|)
  {
    assert queues[..q + 1][..q] == queues[..q];
  }

  lemma CoverStep(seen: map<Id, Nonce>, queues: seq<seq<Token>>, successors: Graph, next: Graph, q: nat, i: nat, j: nat)
    requires Covers(seen, queues, successors, q, i) && q < |queues| && i < j <= |queues[q]|
    requires successors.Keys == next.Keys
    requires IsValid(seen, queues[q][i]) ==> queues[q][i].id in successors
    requires forall k | i < k < j :: !IsValid(seen, queues[q][k])
    ensures Covers(seen, queues, next, q, j)
  {
    hide Queued;
    forall u | u in next
      ensures Queued(seen, queues, u)
    {
      assert u in successors.Keys;
    }
    forall k, l | 0 <= k < q && 0 <= l < |queues[k]| && IsValid(seen, queues[k][l])
      ensures queues[k][l].id in next
    {
      assert queues[k][l].id in successors.Keys;
    }
    forall l | 0 <= l < j && IsValid(seen, queues[q][l])
      ensures queues[q][l].id in next
    {
      assert queues[q][l].id in successors.Keys;
    }
  }

  lemma CoverNext(seen: map<Id, Nonce>, queues: seq<seq<Token>>, successors: Graph, q: nat)
    requires q < |queues| && Covers(seen, queues, successors, q, |queues[q]|)
    ensures Covers(seen, queues, successors, q + 1, 0)
  {
    hide Queued;
  }

  lemma Finished(seen: map<Id, Nonce>, queues: seq<seq<Token>>, successors: Graph, pairs: set<(Id, Id)>)
    requires Tracks(successors, pairs) && Covers(seen, queues, successors, |queues|, 0)
    ensures Closed(successors)
    ensures forall u: Id :: u in successors <==> Queued(seen, queues, u)
    ensures forall u: Id, v: Id :: Edge(successors, u, v) <==> (u, v) in pairs
  {
    forall u: Id, v: Id | u in successors && v in successors[u]
      ensures v in successors
    {
      assert Edge(successors, u, v);
    }
  }

  /** No successor is listed twice. */
  ghost predicate Singly(g: Graph) {
    forall u | u in g :: Distinct(g[u])
  }

  lemma NoneTwice(g: Graph, u: Id, v: Id)
    requires Singly(g)
    ensures (v !in g ==> Singly(g[v := []])) && (u !in g ==> Singly(g[u := []]))
    ensures u in g && v !in g[u] ==> Singly(g[u := g[u] + [v]])
  {
  }

  /** The successor lists over all queues, and whether the goal has nothing valid before it. */
  method BuildSuccessors(queues: seq<seq<Token>>, seen: map<Id, Nonce>, goal: Id)
    returns (successors: Graph, ready: bool)
    ensures Closed(successors)
    ensures forall u: Id :: u in successors <==> Queued(seen, queues, u)
    ensures forall u: Id, v: Id :: Edge(successors, u, v) <==> Precedes(seen, queues, u, v)
    ensures ready <==> !exists u: Id :: Precedes(seen, queues, u, goal)
    ensures Singly(successors)
  {
    successors, ready := map[], true;
    Started(seen, queues);
    hide Precedes, Queued, Tracks, Covers, PairsBelow, AllPairs, Distinct;
    for q := 0 to |queues|
      invariant Tracks(successors, AllPairs(seen, queues[..q]))
      invariant Covers(seen, queues, successors, q, 0)
      invariant Singly(successors)
      invariant ready <==> forall u: Id :: (u, goal) !in AllPairs(seen, queues[..q])
    {
      var dqueue := queues[q];
      ghost var base := AllPairs(seen, queues[..q]);
      QueueDone(seen, queues, q);
      assert base + PairsBelow(seen, dqueue, 0) == base;
      var i := 0;
      while i < |dqueue|
        invariant i <= |dqueue|
        invariant Tracks(successors, base + PairsBelow(seen, dqueue, i))
        invariant Covers(seen, queues, successors, q, i)
        invariant Singly(successors)
        invariant ready <==> forall u: Id :: (u, goal) !in base + PairsBelow(seen, dqueue, i)
      {
        ghost var pairs := base + PairsBelow(seen, dqueue, i);
        ghost var at := i;
        var pred := dqueue[i];
        i := i + 1;
        if !IsValid(seen, pred) {
          NoPair(seen, dqueue, at);
          CoverStep(seen, queues, successors, successors, q, at, i);
          continue;
        }
        NoneTwice(successors, pred.id, dqueue[at].id);
        if pred.id !in successors {
          KeyAdded(seen, queues, successors, pairs, q, at, at);
          successors := successors[pred.id := []];
        }
        var predsuccids := successors[pred.id];
        var j := i;
        while j < |dqueue| && !IsValid(seen, dqueue[j])
          invariant i <= j <= |dqueue|
          invariant forall k | i <= k < j :: !IsValid(seen, dqueue[k])
        {
          j := j + 1;
        }
        if j == |dqueue| {
          NoPair(seen, dqueue, at);
          CoverStep(seen, queues, successors, successors, q, at, i);
          continue;
        }
        var succ := dqueue[j];
        NoneTwice(successors, pred.id, succ.id);
        if succ.id !in successors {
          KeyAdded(seen, queues, successors, pairs, q, at, j);
          successors := successors[succ.id := []];
        }
        i := j;
        OnePair(seen, dqueue, at, j);
        PairAdded(successors, pairs, pred.id, succ.id);
        ghost var linked := successors;
        NoneTwice(successors, pred.id, succ.id);
        if succ.id !in predsuccids {
          successors := successors[pred.id := predsuccids + [succ.id]];
          if succ.id == goal {
            ready := false;
          }
        }
        assert base + PairsBelow(seen, dqueue, j) == pairs + {(pred.id, succ.id)};
        CoverStep(seen, queues, linked, successors, q, at, j);
      }
      CoverNext(seen, queues, successors, q);
    }
    assert queues[..|queues|] == queues;
    AllPairsArePrecedes(seen, queues);
    Finished(seen, queues, successors, AllPairs(seen, queues));
  }

  /** Two valid entries of one queue, in queue order, are linked by successor lists. */
  lemma {:induction false} QueueOrderReaches(seen: map<Id, Nonce>, queues: seq<seq<Token>>, successors: Graph, q: nat, i: nat, j: nat)
    requires forall u: Id, v: Id :: Edge(successors, u, v) <==> Precedes(seen, queues, u, v)
    requires q < |queues| && i < j < |queues[q]|
    requires IsValid(seen, queues[q][i]) && IsValid(seen, queues[q][j])
    ensures Reaches(successors, queues[q][i].id, queues[q][j].id)
    decreases j - i
  {
    hide Reaches;
    var dqueue := queues[q];
    var k := i + 1;
    while !IsValid(seen, dqueue[k])
      invariant i < k <= j
      invariant forall l | i < l < k :: !IsValid(seen, dqueue[l])
      decreases j - k
    {
      k := k + 1;
    }
    assert NextValid(seen, dqueue, i, k);
    assert Adjacent(seen, queues[q], dqueue[i].id, dqueue[k].id);
    assert Precedes(seen, queues, dqueue[i].id, dqueue[k].id);
    ReachesEdge(successors, dqueue[i].id, dqueue[k].id);
    if k < j {
      QueueOrderReaches(seen, queues, successors, q, k, j);
      ReachesTransitive(successors, dqueue[i].id, dqueue[k].id, dqueue[j].id);
    }
  }

  // One call of advance: the transaction, and the ids that may be pulled out
  // of the queues along with it (None for the call that passes no pull map).
  datatype Pull = NoPull | PullIds(ids: set<Id>)
  datatype Call = Call(id: Id, pull: Pull)

  function Ids(plan: seq<Call>): (r: seq<Id>)
    ensures |r| == |plan|
  {
    seq(|plan|, i requires 0 <= i < |plan| => plan[i].id)
  }

  /** `u` is flushed before `v`. */
  ghost predicate Before(plan: seq<Call>, u: Id, v: Id) {
    exists i, j :: 0 <= i < j < |plan| && plan[i].id == u && plan[j].id == v
  }

  /** A valid entry of `u` is somewhere ahead of a valid entry of `v` in one queue. */
  ghost predicate Ahead(seen: map<Id, Nonce>, queues: seq<seq<Token>>, u: Id, v: Id) {
    exists q, i, j :: 0 <= q < |queues| && 0 <= i < j < |queues[q]|
      && IsValid(seen, queues[q][i]) && IsValid(seen, queues[q][j])
      && queues[q][i].id == u && queues[q][j].id == v
  }

  /** `p` follows entries that are ahead of each other, in any queues. */
  ghost predicate IsAheadPath(seen: map<Id, Nonce>, queues: seq<seq<Token>>, p: seq<Id>) {
    |p| > 0 && forall i | 0 <= i < |p| - 1 :: Ahead(seen, queues, p[i], p[i + 1])
  }

  /** `u` has to be flushed no later than `v`, going by any number of queues. */
  ghost predicate Leads(seen: map<Id, Nonce>, queues: seq<seq<Token>>, u: Id, v: Id) {
    exists p :: IsAheadPath(seen, queues, p) && p[0] == u && p[|p| - 1] == v
  }

  /** The order in which run flushes the transactions of the queues it has seen. */
  ghost predicate FlushesInOrder(seen: map<Id, Nonce>, queues: seq<seq<Token>>, plan: seq<Call>) {
    // every transaction with a valid entry is flushed, once
    && Distinct(Ids(plan))
    && (forall u: Id :: u in Ids(plan) <==> Queued(seen, queues, u))
    // in queue order, unless the queues go around in a circle
    && (forall u: Id, v: Id | Ahead(seen, queues, u, v) && !Leads(seen, queues, v, u) :: Before(plan, u, v))
    // what may be pulled has been flushed before, or is the transaction itself
    && (forall i | 0 <= i < |plan| :: plan[i].pull.PullIds?)
    && (forall i, u | 0 <= i < |plan| && u in plan[i].pull.ids :: u == plan[i].id || Before(plan, u, plan[i].id))
    // and whatever is ahead of it may be pulled too
    && (forall i, u: Id, v: Id | 0 <= i < |plan| && v in plan[i].pull.ids && Ahead(seen, queues, u, v) :: u in plan[i].pull.ids)
    // but nothing behind the transaction itself
    && (forall i, v: Id | 0 <= i < |plan| && v in plan[i].pull.ids && Ahead(seen, queues, plan[i].id, v) :: v == plan[i].id)
  }

  /** The ids in the components from number `k` on. */
  function Later(output: seq<seq<Id>>, k: nat): (r: set<Id>) {
    set c, x | k <= c < |output| && x in output[c] :: x
  }

  /** What may be pulled while the components from `k + 1` on are done and `k` is being flushed. */
  function PullAt(output: seq<seq<Id>>, k: nat): (r: set<Id>)
    requires k < |output|
  {
    Later(output, k + 1) + (if |output[k]| == 1 then {output[k][0]} else {})
  }

  function CallsAt(output: seq<seq<Id>>, k: nat): (r: seq<Call>)
    requires k < |output|
  {
    seq(|output[k]|, j requires 0 <= j < |output[k]| => Call(output[k][j], PullIds(PullAt(output, k))))
  }

  /** The calls for the components from the last one down to number `k`. */
  function PlanFrom(output: seq<seq<Id>>, k: nat): (r: seq<Call>)
    decreases |output| - k
  {
    if k >= |output| then [] else PlanFrom(output, k + 1) + CallsAt(output, k)
  }

  lemma LaterStep(output: seq<seq<Id>>, k: nat)
    requires k < |output|
    ensures Later(output, k) == Later(output, k + 1) + set x | x in output[k]
  {
  }

  lemma AheadReaches(seen: map<Id, Nonce>, queues: seq<seq<Token>>, successors: Graph, u: Id, v: Id)
    requires forall u: Id, v: Id :: Edge(successors, u, v) <==> Precedes(seen, queues, u, v)
    requires Ahead(seen, queues, u, v)
    ensures Reaches(successors, u, v)
  {
    hide Reaches, Precedes;
    var q, i, j :| 0 <= q < |queues| && 0 <= i < j < |queues[q]|
      && IsValid(seen, queues[q][i]) && IsValid(seen, queues[q][j])
      && queues[q][i].id == u && queues[q][j].id == v;
    QueueOrderReaches(seen, queues, successors, q, i, j);
  }

  lemma PrecedesAhead(seen: map<Id, Nonce>, queues: seq<seq<Token>>, u: Id, v: Id)
    requires Precedes(seen, queues, u, v)
    ensures Ahead(seen, queues, u, v)
  {
    var q :| 0 <= q < |queues| && Adjacent(seen, queues[q], u, v);
    var i, j :| NextValid(seen, queues[q], i, j) && queues[q][i].id == u && queues[q][j].id == v;
  }

  /** Reachability over the successor lists is following entries that are ahead of each other. */
  lemma ReachesIsLeads(seen: map<Id, Nonce>, queues: seq<seq<Token>>, successors: Graph, u: Id, v: Id)
    requires forall u: Id, v: Id :: Edge(successors, u, v) <==> Precedes(seen, queues, u, v)
    requires Reaches(successors, u, v)
    ensures Leads(seen, queues, u, v)
  {
    var p :| IsPath(successors, p) && p[0] == u && p[|p| - 1] == v;
    hide Precedes, Ahead;
    forall i | 0 <= i < |p| - 1
      ensures Ahead(seen, queues, p[i], p[i + 1])
    {
      assert Edge(successors, p[i], p[i + 1]);
      PrecedesAhead(seen, queues, p[i], p[i + 1]);
    }
    assert IsAheadPath(seen, queues, p);
  }

  lemma ComponentsDisjoint(g: Graph, output: seq<seq<Id>>, a: nat, b: nat, u: Id)
    requires TopologicalComponents(g, output) && a < |output| && b < |output| && u in output[a] && u in output[b]
    ensures a == b
  {
    ReachesSelf(g, u);
    hide Reaches, Distinct, Mutual;
  }

  /** Each id of the components from `k` on is planned once, later components first. */
  lemma {:induction false} PlanOrder(g: Graph, output: seq<seq<Id>>, k: nat)
    requires TopologicalComponents(g, output) && k <= |output|
    ensures Distinct(Ids(PlanFrom(output, k)))
    ensures forall u: Id :: u in Ids(PlanFrom(output, k)) <==> u in Later(output, k)
    ensures forall a, b, u, v | k <= b < a < |output| && u in output[a] && v in output[b] :: Before(PlanFrom(output, k), u, v)
    decreases |output| - k
  {
    hide Reaches, Mutual;
    if k < |output| {
      PlanOrder(g, output, k + 1);
      LaterStep(output, k);
      var init, plan := PlanFrom(output, k + 1), PlanFrom(output, k);
      assert Ids(plan) == Ids(init) + output[k];
      forall u | u in output[k]
        ensures u !in Later(output, k + 1)
      {
        forall c | k + 1 <= c < |output|
          ensures u !in output[c]
        {
          if u in output[c] {
            ComponentsDisjoint(g, output, k, c, u);
          }
        }
      }
      assert output[k] in output && Distinct(output[k]);
      DistinctJoin(Ids(init), output[k]);
      forall a, b, u, v | k <= b < a < |output| && u in output[a] && v in output[b]
        ensures Before(plan, u, v)
      {
        if b == k {
          assert u in Later(output, k + 1);
          var i :| 0 <= i < |init| && Ids(init)[i] == u;
          var j :| 0 <= j < |output[k]| && output[k][j] == v;
          assert plan[i].id == u && plan[|init| + j].id == v;
        } else {
          assert Before(init, u, v);
          var i, j :| 0 <= i < j < |init| && init[i].id == u && init[j].id == v;
          assert plan[i].id == u && plan[j].id == v;
        }
      }
    }
  }

  lemma DistinctJoin(a: seq<Id>, b: seq<Id>)
    requires Distinct(a) && Distinct(b) && forall x | x in b :: x !in a
    ensures Distinct(a + b)
  {
    forall i, j | 0 <= i < j < |a + b|
      ensures (a + b)[i] != (a + b)[j]
    {
      if i < |a| <= j {
        assert b[j - |a|] in b && a[i] in a;
      }
    }
  }

  /** Every planned call belongs to some component and carries that component's pull set. */
  lemma {:induction false} PlanPulls(output: seq<seq<Id>>, k: nat, i: nat) returns (c: nat)
    requires k <= |output| && i < |PlanFrom(output, k)|
    ensures k <= c < |output| && PlanFrom(output, k)[i].id in output[c]
    ensures PlanFrom(output, k)[i].pull == PullIds(PullAt(output, c))
    decreases |output| - k
  {
    var init := PlanFrom(output, k + 1);
    if i < |init| {
      c := PlanPulls(output, k + 1, i);
    } else {
      c := k;
      assert PlanFrom(output, k)[i] == CallsAt(output, k)[i - |init|];
    }
  }

  /** The queues' successor lists and the components Tarjan's sort found in them. */
  ghost predicate Sorts(seen: map<Id, Nonce>, queues: seq<seq<Token>>, successors: Graph, output: seq<seq<Id>>) {
    && (forall u: Id :: u in successors <==> Queued(seen, queues, u))
    && (forall u: Id, v: Id :: Edge(successors, u, v) <==> Precedes(seen, queues, u, v))
    && TopologicalComponents(successors, output)
  }

  lemma LaterIsKeys(g: Graph, output: seq<seq<Id>>)
    requires TopologicalComponents(g, output)
    ensures Later(output, 0) == g.Keys
  {
    hide Reaches, Mutual, Distinct;
    FlattenMembers(output);
    forall x | x in g.Keys
      ensures x in Later(output, 0)
    {
      assert x in Flatten(output);
      var c :| c in output && x in c;
    }
    forall x | x in Later(output, 0)
      ensures x in g.Keys
    {
      var c :| 0 <= c < |output| && x in output[c];
      assert output[c] in output;
      assert x in Flatten(output);
    }
  }

  /** An id that may be pulled was planned earlier, and whoever is ahead of it may be pulled too. */
  lemma PullIsClosed(seen: map<Id, Nonce>, queues: seq<seq<Token>>, successors: Graph, output: seq<seq<Id>>,
                     i: nat, u: Id, v: Id)
    requires Sorts(seen, queues, successors, output)
    requires i < |PlanFrom(output, 0)|
    requires PlanFrom(output, 0)[i].pull.PullIds? && v in PlanFrom(output, 0)[i].pull.ids && Ahead(seen, queues, u, v)
    ensures u in PlanFrom(output, 0)[i].pull.ids
  {
    hide Mutual, Distinct, Ahead, Precedes, Queued;
    var c := PlanPulls(output, 0, i);
    AheadReaches(seen, queues, successors, u, v);
    AheadQueued(seen, queues, u, v);
    hide Reaches;
    LaterIsKeys(successors, output);
    var d :| 0 <= d < |output| && u in output[d];
    if v in Later(output, c + 1) {
      var e :| c + 1 <= e < |output| && v in output[e];
      assert e <= d;
    } else {
      assert v == output[c][0];
      assert c <= d;
    }
  }

  lemma AheadQueued(seen: map<Id, Nonce>, queues: seq<seq<Token>>, u: Id, v: Id)
    requires Ahead(seen, queues, u, v)
    ensures Queued(seen, queues, u) && Queued(seen, queues, v)
  {
  }

  lemma PulledBefore(g: Graph, output: seq<seq<Id>>, i: nat, u: Id)
    requires TopologicalComponents(g, output)
    requires i < |PlanFrom(output, 0)|
    requires PlanFrom(output, 0)[i].pull.PullIds? && u in PlanFrom(output, 0)[i].pull.ids
    ensures u == PlanFrom(output, 0)[i].id || Before(PlanFrom(output, 0), u, PlanFrom(output, 0)[i].id)
  {
    PlanOrder(g, output, 0);
    hide Reaches, Mutual, Distinct, TopologicalComponents, Before;
    var c := PlanPulls(output, 0, i);
    if u in Later(output, c + 1) {
      var d :| c + 1 <= d < |output| && u in output[d];
    }
  }

  /** What is behind a transaction in some queue may not be pulled with it. */
  lemma NothingBehind(seen: map<Id, Nonce>, queues: seq<seq<Token>>, successors: Graph, output: seq<seq<Id>>, i: nat, v: Id)
    requires Sorts(seen, queues, successors, output)
    requires i < |PlanFrom(output, 0)|
    requires PlanFrom(output, 0)[i].pull.PullIds? && v in PlanFrom(output, 0)[i].pull.ids
    requires Ahead(seen, queues, PlanFrom(output, 0)[i].id, v)
    ensures v == PlanFrom(output, 0)[i].id
  {
    hide Mutual, Distinct, Ahead, Precedes, Queued;
    var u := PlanFrom(output, 0)[i].id;
    var c := PlanPulls(output, 0, i);
    AheadReaches(seen, queues, successors, u, v);
    hide Reaches;
    assert forall e | 0 <= e < |output| && v in output[e] :: e <= c;
  }

  lemma InQueueOrder(seen: map<Id, Nonce>, queues: seq<seq<Token>>, successors: Graph, output: seq<seq<Id>>, u: Id, v: Id)
    requires Sorts(seen, queues, successors, output)
    requires Ahead(seen, queues, u, v) && !Leads(seen, queues, v, u)
    ensures Before(PlanFrom(output, 0), u, v)
  {
    hide Distinct, Ahead, Precedes, Queued, Before, Leads;
    AheadReaches(seen, queues, successors, u, v);
    AheadQueued(seen, queues, u, v);
    hide Reaches;
    LaterIsKeys(successors, output);
    var a :| 0 <= a < |output| && u in output[a];
    var b :| 0 <= b < |output| && v in output[b];
    assert b <= a;
    if a == b {
      assert Mutual(successors, u, v);
      ReachesIsLeads(seen, queues, successors, v, u);
    }
    PlanOrder(successors, output, 0);
  }

  lemma PlanIsOrdered(seen: map<Id, Nonce>, queues: seq<seq<Token>>, successors: Graph, output: seq<seq<Id>>)
    requires Sorts(seen, queues, successors, output)
    ensures FlushesInOrder(seen, queues, PlanFrom(output, 0))
  {
    hide Reaches, Mutual, Ahead, Precedes, Queued, Before, Leads, PlanFrom;
    PlanOrder(successors, output, 0);
    hide Distinct;
    LaterIsKeys(successors, output);
    var plan := PlanFrom(output, 0);
    forall u: Id, v: Id | Ahead(seen, queues, u, v) && !Leads(seen, queues, v, u)
      ensures Before(plan, u, v)
    {
      InQueueOrder(seen, queues, successors, output, u, v);
    }
    forall i | 0 <= i < |plan|
      ensures plan[i].pull.PullIds?
    {
      var c := PlanPulls(output, 0, i);
    }
    forall i, u | 0 <= i < |plan| && u in plan[i].pull.ids
      ensures u == plan[i].id || Before(plan, u, plan[i].id)
    {
      PulledBefore(successors, output, i, u);
    }
    forall i, u: Id, v: Id | 0 <= i < |plan| && v in plan[i].pull.ids && Ahead(seen, queues, u, v)
      ensures u in plan[i].pull.ids
    {
      PullIsClosed(seen, queues, successors, output, i, u, v);
    }
    forall i, v: Id | 0 <= i < |plan| && v in plan[i].pull.ids && Ahead(seen, queues, plan[i].id, v)
      ensures v == plan[i].id
    {
      NothingBehind(seen, queues, successors, output, i, v);
    }
  }

  /** Two transactions that wait for each other, around some circle of entries. */
  ghost predicate Mates(seen: map<Id, Nonce>, queues: seq<seq<Token>>, u: Id, v: Id) {
    u != v && Leads(seen, queues, u, v) && Leads(seen, queues, v, u)
  }

  /** What may be pulled with a transaction: exactly those flushed before it that do not wait for it in turn, and itself if none
      does. */
  ghost predicate PullsRight(seen: map<Id, Nonce>, queues: seq<seq<Token>>, plan: seq<Call>, i: nat, u: Id)
    requires i < |plan|
  {
    plan[i].pull.PullIds? &&
    (u in plan[i].pull.ids <==>
      if u == plan[i].id then !exists w: Id :: Mates(seen, queues, w, u)
      else Before(plan, u, plan[i].id) && !Mates(seen, queues, u, plan[i].id))
  }

  ghost predicate PullsExactly(seen: map<Id, Nonce>, queues: seq<seq<Token>>, plan: seq<Call>) {
    forall i, u: Id | 0 <= i < |plan| :: PullsRight(seen, queues, plan, i, u)
  }

  lemma {:induction false} PathReaches(seen: map<Id, Nonce>, queues: seq<seq<Token>>, successors: Graph, p: seq<Id>, n: nat)
    requires forall u: Id, v: Id :: Edge(successors, u, v) <==> Precedes(seen, queues, u, v)
    requires IsAheadPath(seen, queues, p) && n < |p|
    ensures Reaches(successors, p[0], p[n])
  {
    hide Reaches, Precedes, Ahead;
    if n == 0 {
      ReachesSelf(successors, p[0]);
    } else {
      PathReaches(seen, queues, successors, p, n - 1);
      assert Ahead(seen, queues, p[n - 1], p[n - 1 + 1]);
      AheadReaches(seen, queues, successors, p[n - 1], p[n]);
      ReachesTransitive(successors, p[0], p[n - 1], p[n]);
    }
  }

  lemma MatesAre(seen: map<Id, Nonce>, queues: seq<seq<Token>>, successors: Graph, u: Id, v: Id)
    requires forall u: Id, v: Id :: Edge(successors, u, v) <==> Precedes(seen, queues, u, v)
    ensures Mates(seen, queues, u, v) <==> u != v && Mutual(successors, u, v)
  {
    hide Reaches, Precedes, Ahead;
    if Mates(seen, queues, u, v) {
      var p :| IsAheadPath(seen, queues, p) && p[0] == u && p[|p| - 1] == v;
      PathReaches(seen, queues, successors, p, |p| - 1);
      var q :| IsAheadPath(seen, queues, q) && q[0] == v && q[|q| - 1] == u;
      PathReaches(seen, queues, successors, q, |q| - 1);
    }
    if Mutual(successors, u, v) {
      ReachesIsLeads(seen, queues, successors, u, v);
      ReachesIsLeads(seen, queues, successors, v, u);
    }
  }

  lemma NotBoth(plan: seq<Call>, u: Id, v: Id)
    requires Distinct(Ids(plan)) && Before(plan, u, v)
    ensures !Before(plan, v, u) && u in Ids(plan) && v in Ids(plan) && u != v
  {
    var i, j :| 0 <= i < j < |plan| && plan[i].id == u && plan[j].id == v;
    assert Ids(plan)[i] == u && Ids(plan)[j] == v;
    assert forall k | 0 <= k < |plan| :: Ids(plan)[k] == plan[k].id;
  }

  lemma OthersPulled(seen: map<Id, Nonce>, queues: seq<seq<Token>>, successors: Graph, output: seq<seq<Id>>, i: nat, u: Id, c: nat)
    requires Sorts(seen, queues, successors, output) && i < |PlanFrom(output, 0)| && c < |output|
    requires PlanFrom(output, 0)[i].id in output[c] && u != PlanFrom(output, 0)[i].id
    ensures u in Later(output, c + 1) <==> Before(PlanFrom(output, 0), u, PlanFrom(output, 0)[i].id) && !Mates(seen, queues, u, PlanFrom(output, 0)[i].id)
  {
    var plan := PlanFrom(output, 0);
    var id := plan[i].id;
    PlanOrder(successors, output, 0);
    MatesAre(seen, queues, successors, u, id);
    hide Distinct, Precedes, Queued, Before, Mates, PlanFrom, Reaches;
    if Before(plan, u, id) {
      NotBoth(plan, u, id);
      var d :| 0 <= d < |output| && u in output[d];
      assert d >= c;
      assert d == c ==> Mutual(successors, u, id);
    }
    if u in Later(output, c + 1) {
      var d :| c + 1 <= d < |output| && u in output[d];
      assert Before(plan, u, id);
      assert d != c;
      OneComponent(successors, output, c, id, u);
      NotLater(successors, output, d, u);
      OtherComponent(successors, output, c, d, u);
    }
  }

  lemma OtherComponent(g: Graph, output: seq<seq<Id>>, c: nat, d: nat, u: Id)
    requires TopologicalComponents(g, output) && c < |output| && d < |output| && c != d && u in output[d]
    ensures u !in output[c]
  {
    hide TopologicalComponents;
    if u in output[c] {
      ComponentsDisjoint(g, output, c, d, u);
    }
  }

  /** Ids that reach each other are in one component. */
  lemma OneComponent(g: Graph, output: seq<seq<Id>>, c: nat, u: Id, v: Id)
    requires TopologicalComponents(g, output) && c < |output| && u in output[c]
    ensures Mutual(g, u, v) <==> v in output[c]
  {
    hide Reaches, Distinct;
  }

  lemma OwnPulled(seen: map<Id, Nonce>, queues: seq<seq<Token>>, successors: Graph, output: seq<seq<Id>>, u: Id, c: nat)
    requires Sorts(seen, queues, successors, output) && c < |output| && u in output[c]
    ensures |output[c]| == 1 <==> !exists w: Id :: Mates(seen, queues, w, u)
  {
    hide Precedes, Queued, Mates, Reaches;
    forall w: Id ensures Mates(seen, queues, w, u) <==> w != u && Mutual(successors, w, u) {
      MatesAre(seen, queues, successors, w, u);
    }
    assert output[c] in output;
    if |output[c]| > 1 {
      assert output[c][0] != output[c][1];
      var w := if output[c][0] == u then output[c][1] else output[c][0];
      assert w in output[c] && Mutual(successors, w, u);
    } else if w: Id :| Mates(seen, queues, w, u) {
      InSomeComponent(successors, output, w, u, c);
    }
  }

  lemma InSomeComponent(g: Graph, output: seq<seq<Id>>, w: Id, u: Id, c: nat)
    requires TopologicalComponents(g, output) && c < |output| && u in output[c] && w != u && Mutual(g, w, u)
    ensures |output[c]| > 1
  {
    assert Mutual(g, u, w);
    hide Reaches, Distinct, Mutual;
    assert w in output[c];
  }

  lemma OneIsExact(seen: map<Id, Nonce>, queues: seq<seq<Token>>, successors: Graph, output: seq<seq<Id>>, i: nat, u: Id)
    requires Sorts(seen, queues, successors, output) && i < |PlanFrom(output, 0)|
    ensures PullsRight(seen, queues, PlanFrom(output, 0), i, u)
  {
    hide Reaches, Mutual, Ahead, Precedes, Queued, Before, Leads, PlanFrom, Mates, Distinct, Later, TopologicalComponents, PullAt;
    var id := PlanFrom(output, 0)[i].id;
    var c := PlanPulls(output, 0, i);
    PullAtIs(output, c, id, u);
    if u == id {
      OwnPulled(seen, queues, successors, output, id, c);
      NotLater(successors, output, c, u);
    } else {
      OthersPulled(seen, queues, successors, output, i, u, c);
    }
  }

  lemma PullIsExact(seen: map<Id, Nonce>, queues: seq<seq<Token>>, successors: Graph, output: seq<seq<Id>>)
    requires Sorts(seen, queues, successors, output)
    ensures PullsExactly(seen, queues, PlanFrom(output, 0))
  {
    hide Sorts, PlanFrom, PullsRight;
    forall i, u: Id | 0 <= i < |PlanFrom(output, 0)| ensures PullsRight(seen, queues, PlanFrom(output, 0), i, u) {
      OneIsExact(seen, queues, successors, output, i, u);
    }
  }

  lemma PullAtIs(output: seq<seq<Id>>, c: nat, id: Id, u: Id)
    requires c < |output| && id in output[c]
    ensures u in PullAt(output, c) <==> u in Later(output, c + 1) || (|output[c]| == 1 && u == id)
  {
    hide Later;
  }

  lemma NotLater(g: Graph, output: seq<seq<Id>>, c: nat, u: Id)
    requires TopologicalComponents(g, output) && c < |output| && u in output[c]
    ensures u !in Later(output, c + 1)
  {
    hide TopologicalComponents;
    if u in Later(output, c + 1) {
      var d :| c + 1 <= d < |output| && u in output[d];
      ComponentsDisjoint(g, output, c, d, u);
    }
  }

  /** Something valid is ahead of the goal in some queue. */
  ghost predicate HasPrerequisites(seen: map<Id, Nonce>, queues: seq<seq<Token>>, goal: Id) {
    exists u: Id :: Ahead(seen, queues, u, goal)
  }

  lemma PrerequisiteIsPreceding(seen: map<Id, Nonce>, queues: seq<seq<Token>>, goal: Id)
    ensures HasPrerequisites(seen, queues, goal) <==> exists u: Id :: Precedes(seen, queues, u, goal)
  {
    if HasPrerequisites(seen, queues, goal) {
      var u: Id :| Ahead(seen, queues, u, goal);
      var q, i, j :| 0 <= q < |queues| && 0 <= i < j < |queues[q]|
        && IsValid(seen, queues[q][i]) && IsValid(seen, queues[q][j])
        && queues[q][i].id == u && queues[q][j].id == goal;
      var k := j - 1;
      while !IsValid(seen, queues[q][k])
        invariant i <= k < j
        invariant forall l | k < l < j :: !IsValid(seen, queues[q][l])
        decreases k
      {
        k := k - 1;
      }
      assert NextValid(seen, queues[q], k, j);
      assert Adjacent(seen, queues[q], queues[q][k].id, goal);
      assert Precedes(seen, queues, queues[q][k].id, goal);
    }
    hide Ahead, Precedes;
    forall u: Id | Precedes(seen, queues, u, goal)
      ensures Ahead(seen, queues, u, goal)
    {
      PrecedesAhead(seen, queues, u, goal);
    }
  }

  // ---- one plan, whatever the order in which the queues are gone through

  /** The graph of the queues. */
  ghost predicate Orders(seen: map<Id, Nonce>, queues: seq<seq<Token>>, g: Graph) {
    && (forall u: Id :: u in g <==> Queued(seen, queues, u))
    && (forall u: Id, v: Id :: Edge(g, u, v) <==> Precedes(seen, queues, u, v))
    && Singly(g)
  }

  ghost predicate IsPlan(seen: map<Id, Nonce>, queues: seq<seq<Token>>, goal: Id, plan: seq<Call>) {
    exists g :: Orders(seen, queues, g) &&
      plan == if HasPrerequisites(seen, queues, goal) then PlanFrom(Components(g), 0) else [Call(goal, NoPull)]
  }

  /** The same queues, in another order. */
  ghost predicate SameQueues(queues: seq<seq<Token>>, queues': seq<seq<Token>>) {
    forall q :: q in queues <==> q in queues'
  }

  lemma SameQueued(seen: map<Id, Nonce>, queues: seq<seq<Token>>, queues': seq<seq<Token>>, u: Id)
    requires SameQueues(queues, queues') && Queued(seen, queues, u)
    ensures Queued(seen, queues', u)
  {
    var q, i :| 0 <= q < |queues| && 0 <= i < |queues[q]| && queues[q][i].id == u && IsValid(seen, queues[q][i]);
    assert queues[q] in queues';
    var r :| 0 <= r < |queues'| && queues'[r] == queues[q];
    assert queues'[r][i].id == u;
  }

  lemma SamePrecedes(seen: map<Id, Nonce>, queues: seq<seq<Token>>, queues': seq<seq<Token>>, u: Id, v: Id)
    requires SameQueues(queues, queues') && Precedes(seen, queues, u, v)
    ensures Precedes(seen, queues', u, v)
  {
    hide Adjacent;
    var q :| 0 <= q < |queues| && Adjacent(seen, queues[q], u, v);
    assert queues[q] in queues';
    var r :| 0 <= r < |queues'| && queues'[r] == queues[q];
  }

  lemma SameSuccessors(a: seq<Id>, b: seq<Id>)
    requires Distinct(a) && Distinct(b) && forall x :: x in a <==> x in b
    ensures multiset(a) == multiset(b)
  {
    forall x ensures multiset(a)[x] == multiset(b)[x] {
      OnceOnly(a, x);
      OnceOnly(b, x);
    }
  }

  lemma {:induction false} OnceOnly(a: seq<Id>, x: Id)
    requires Distinct(a)
    ensures multiset(a)[x] == if x in a then 1 else 0
  {
    if a != [] {
      var init, last := a[..|a| - 1], a[|a| - 1];
      assert a == init + [last];
      OnceOnly(init, x);
      if x in init {
        var i :| 0 <= i < |init| && init[i] == x;
        assert a[i] == x;
      }
    }
  }

  lemma GraphsAlike(seen: map<Id, Nonce>, queues: seq<seq<Token>>, queues': seq<seq<Token>>, g: Graph, g': Graph)
    requires SameQueues(queues, queues') && Orders(seen, queues, g) && Orders(seen, queues', g')
    ensures Alike(g, g')
  {
    hide Queued, Precedes, SameQueues, Distinct;
    forall u: Id ensures u in g <==> u in g' {
      SameRelations(seen, queues, queues', u, u);
    }
    forall u | u in g ensures multiset(g[u]) == multiset(g'[u]) {
      forall v ensures v in g[u] <==> v in g'[u] {
        SameRelations(seen, queues, queues', u, v);
        assert Edge(g, u, v) <==> Edge(g', u, v);
      }
      SameSuccessors(g[u], g'[u]);
    }
  }

  lemma SameRelations(seen: map<Id, Nonce>, queues: seq<seq<Token>>, queues': seq<seq<Token>>, u: Id, v: Id)
    requires SameQueues(queues, queues')
    ensures Queued(seen, queues, u) <==> Queued(seen, queues', u)
    ensures Precedes(seen, queues, u, v) <==> Precedes(seen, queues', u, v)
  {
    hide Queued, Precedes;
    assert SameQueues(queues', queues);
    if Queued(seen, queues, u) {
      SameQueued(seen, queues, queues', u);
    }
    if Queued(seen, queues', u) {
      SameQueued(seen, queues', queues, u);
    }
    if Precedes(seen, queues, u, v) {
      SamePrecedes(seen, queues, queues', u, v);
    }
    if Precedes(seen, queues', u, v) {
      SamePrecedes(seen, queues', queues, u, v);
    }
  }

  /** The plan is the same for the same queues. */
  lemma PlanIsStable(seen: map<Id, Nonce>, queues: seq<seq<Token>>, queues': seq<seq<Token>>, goal: Id, plan: seq<Call>, plan': seq<Call>)
    requires SameQueues(queues, queues') && IsPlan(seen, queues, goal, plan) && IsPlan(seen, queues', goal, plan')
    ensures plan == plan'
  {
    SamePrerequisites(seen, queues, queues', goal);
    hide HasPrerequisites, Orders, Components, Alike, PlanFrom, SameQueues;
    var g :| Orders(seen, queues, g) &&
      plan == if HasPrerequisites(seen, queues, goal) then PlanFrom(Components(g), 0) else [Call(goal, NoPull)];
    var g' :| Orders(seen, queues', g') &&
      plan' == if HasPrerequisites(seen, queues', goal) then PlanFrom(Components(g'), 0) else [Call(goal, NoPull)];
    GraphsAlike(seen, queues, queues', g, g');
    Stable(g, g');
  }

  lemma SamePrerequisites(seen: map<Id, Nonce>, queues: seq<seq<Token>>, queues': seq<seq<Token>>, goal: Id)
    requires SameQueues(queues, queues')
    ensures HasPrerequisites(seen, queues, goal) <==> HasPrerequisites(seen, queues', goal)
  {
    PrerequisiteIsPreceding(seen, queues, goal);
    PrerequisiteIsPreceding(seen, queues', goal);
    hide HasPrerequisites, Precedes, SameQueues;
    forall u: Id ensures Precedes(seen, queues, u, goal) <==> Precedes(seen, queues', u, goal) {
      SameRelations(seen, queues, queues', u, goal);
    }
  }

  /** The part of run after recurse: the calls to advance, in the order in which they are made. */
  method Run(queues: seq<seq<Token>>, seen: map<Id, Nonce>, goal: Id) returns (plan: seq<Call>)
    ensures IsPlan(seen, queues, goal, plan)
    ensures !HasPrerequisites(seen, queues, goal) ==> plan == [Call(goal, NoPull)]
    ensures HasPrerequisites(seen, queues, goal) ==> FlushesInOrder(seen, queues, plan) && PullsExactly(seen, queues, plan)
  {
    hide HasPrerequisites, FlushesInOrder, Precedes, Queued, TopologicalComponents, Singly, Components;
    var successors, ready := BuildSuccessors(queues, seen, goal);
    assert Orders(seen, queues, successors);
    PrerequisiteIsPreceding(seen, queues, goal);
    if ready {
      return [Call(goal, NoPull)];
    }
    var sorted := TarjanSort(successors);
    var pull: set<Id> := {};
    plan := [];
    var i := |sorted| - 1;
    while i >= 0
      invariant -1 <= i < |sorted|
      invariant plan == PlanFrom(sorted, i + 1)
      invariant pull == Later(sorted, i + 1)
    {
      var scc := sorted[i];
      LaterStep(sorted, i);
      if |scc| == 1 {
        pull := pull + {scc[0]};
      }
      assert pull == PullAt(sorted, i);
      ghost var before := plan;
      for k := 0 to |scc|
        invariant plan == before + CallsAt(sorted, i)[..k]
      {
        plan := plan + [Call(scc[k], PullIds(pull))];
        assert CallsAt(sorted, i)[..k + 1] == CallsAt(sorted, i)[..k] + [Call(scc[k], PullIds(pull))];
      }
      if |scc| > 1 {
        pull := pull + set x | x in scc;
      }
      i := i - 1;
    }
    PlanIsOrdered(seen, queues, successors, sorted);
    PullIsExact(seen, queues, successors, sorted);
  }
}
