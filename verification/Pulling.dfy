/** Which queue entries are taken out of a document's queue when transactions
    are done (flusher.tokensToPull), and why that is safe in run's order. */
module Pulling {
  import opened Basics
  import opened Graphs
  import opened FlushOrder
  import opened Tarjan

  /** `pull` maps the transactions that are done to their nonces. */
  predicate Done(pull: map<Id, Nonce>, t: Token) {
    t.id in pull && pull[t.id] == t.nonce
  }

  /** A left-over entry of a done transaction, from a nonce it was not prepared with. */
  predicate Stale(pull: map<Id, Nonce>, t: Token) {
    t.id in pull && pull[t.id] != t.nonce
  }

  /** No entry of `q` from position `k` on is the current one of a done transaction. */
  ghost predicate NoneDone(pull: map<Id, Nonce>, q: seq<Token>, k: nat) {
    forall i | k <= i < |q| :: !Done(pull, q[i])
  }


  /** The entries to take out, scanning the queue from its end. */
  function Pulled(pull: map<Id, Nonce>, q: seq<Token>, dontPull: Option<Token>): (r: seq<Token>) {
    if q == [] then []
    else
      var last, init := q[|q| - 1], q[..|q| - 1];
      if Done(pull, last) then (if Some(last) == dontPull then init else q)
      else if Stale(pull, last) then [last] + Pulled(pull, init, dontPull)
      else Pulled(pull, init, dontPull)
  }

  method TokensToPull(dqueue: seq<Token>, pull: map<Id, Nonce>, dontPull: Option<Token>) returns (result: seq<Token>)
    ensures result == Pulled(pull, dqueue, dontPull)
  {
    hide Pulled;
    result := [];
    var j := |dqueue| - 1;
    AllOrNone(pull, dqueue, dontPull);
    while j >= 0
      invariant -1 <= j < |dqueue|
      invariant Pulled(pull, dqueue, dontPull) == result + Pulled(pull, dqueue[..j + 1], dontPull)
    {
      var dtt := dqueue[j];
      OneMore(pull, dqueue, dontPull, j, result);
      if dtt.id in pull {
        if pull[dtt.id] == dtt.nonce {
          if Some(dtt) == dontPull {
            j := j - 1;
          }
          result := result + dqueue[..j + 1];
          return;
        }
        result := result + [dtt];
      }
      j := j - 1;
    }
  }

  lemma AllOrNone(pull: map<Id, Nonce>, q: seq<Token>, dontPull: Option<Token>)
    ensures Pulled(pull, q[..|q|], dontPull) == Pulled(pull, q, dontPull)
    ensures Pulled(pull, q[..0], dontPull) == []
  {
    assert q[..|q|] == q;
  }

  /** The entry at `j`, in front of what has been taken already. */
  lemma OneMore(pull: map<Id, Nonce>, q: seq<Token>, dontPull: Option<Token>, j: nat, taken: seq<Token>)
    requires j < |q|
    ensures var t, all := q[j], taken + Pulled(pull, q[..j + 1], dontPull);
      if Done(pull, t) then all == taken + (if Some(t) == dontPull then q[..j] else q[..j + 1])
      else if Stale(pull, t) then all == taken + [t] + Pulled(pull, q[..j], dontPull)
      else all == taken + Pulled(pull, q[..j], dontPull)
  {
    assert q[..j + 1][..j] == q[..j];
    assert taken + ([q[j]] + Pulled(pull, q[..j], dontPull)) == taken + [q[j]] + Pulled(pull, q[..j], dontPull);
  }

  /** With `k` the last current entry of a done transaction, exactly the entries up to `k` go
      (up to but not including `k` if that one must stay), and the stale ones behind it. */
  lemma {:induction false} PulledUpTo(pull: map<Id, Nonce>, q: seq<Token>, dontPull: Option<Token>, k: nat)
    requires k < |q| && Done(pull, q[k]) && NoneDone(pull, q, k + 1)
    ensures forall t :: t in Pulled(pull, q, dontPull) <==>
      (t in q[..k] || (t == q[k] && Some(t) != dontPull) || (t in q[k + 1..] && Stale(pull, t)))
    decreases |q|
  {
    var last, init := q[|q| - 1], q[..|q| - 1];
    if k < |q| - 1 {
      assert q[k + 1..][|q| - 1 - (k + 1)] == last;
      assert q[k + 1..] == init[k + 1..] + [last];
      PulledUpTo(pull, init, dontPull, k);
      assert init[..k] == q[..k];
    } else {
      assert q == q[..k] + [last];
    }
  }

  /** With no current entry of a done transaction, exactly the stale entries go. */
  lemma {:induction false} PulledStale(pull: map<Id, Nonce>, q: seq<Token>, dontPull: Option<Token>)
    requires NoneDone(pull, q, 0)
    ensures forall t :: t in Pulled(pull, q, dontPull) <==> t in q && Stale(pull, t)
  {
    if q != [] {
      var last, init := q[|q| - 1], q[..|q| - 1];
      assert q == init + [last];
      assert NoneDone(pull, init, 0);
      PulledStale(pull, init, dontPull);
    }
  }

  /** The entry at `k` goes: one that is done comes behind it, or it is stale, or it is done itself and need not stay. */
  ghost predicate TakenAt(pull: map<Id, Nonce>, q: seq<Token>, keep: Option<Token>, k: nat)
    requires k < |q|
  {
    || (exists m :: k < m < |q| && q[m].id in pull && pull[q[m].id] == q[m].nonce)
    || (q[k].id in pull && pull[q[k].id] != q[k].nonce)
    || (q[k].id in pull && pull[q[k].id] == q[k].nonce && keep != Some(q[k]))
  }

  /** With `l` the last entry that is done. */
  lemma GoesIs(pull: map<Id, Nonce>, q: seq<Token>, keep: Option<Token>, l: nat, k: nat)
    requires l < |q| && Done(pull, q[l]) && NoneDone(pull, q, l + 1) && k < |q|
    ensures TakenAt(pull, q, keep, k) <==> k < l || Stale(pull, q[k]) || (k == l && keep != Some(q[k]))
  {
    if k < l {
      assert Done(pull, q[l]);
    }
  }

  /** Something in a part of `q` is at its place in `q`. */
  lemma InPart(q: seq<Token>, l: nat, t: Token)
    requires l < |q|
    ensures t in q[..l] <==> exists k :: 0 <= k < l && q[k] == t
    ensures t in q[l + 1..] <==> exists k :: l < k < |q| && q[k] == t
  {
    if t in q[l + 1..] {
      var k :| 0 <= k < |q| - l - 1 && q[l + 1..][k] == t;
      assert q[l + 1 + k] == t;
    }
    if k :| l < k < |q| && q[k] == t {
      assert q[l + 1..][k - l - 1] == t;
    }
  }

  /** Exactly these entries are taken out. */
  lemma PulledGoes(pull: map<Id, Nonce>, q: seq<Token>, keep: Option<Token>)
    ensures forall t :: t in Pulled(pull, q, keep) <==> exists k :: 0 <= k < |q| && q[k] == t && TakenAt(pull, q, keep, k)
  {
    hide Pulled, TakenAt, Stale, Done, NoneDone;
    if NoneDone(pull, q, 0) {
      PulledStale(pull, q, keep);
      forall k | 0 <= k < |q| ensures TakenAt(pull, q, keep, k) <==> Stale(pull, q[k]) {
        StaleGoes(pull, q, keep, k);
      }
    } else {
      var j := SomeDone(pull, q);
      var l := LastDone(pull, q, j);
      PulledUpTo(pull, q, keep, l);
      forall k | 0 <= k < |q| ensures TakenAt(pull, q, keep, k) <==> k < l || Stale(pull, q[k]) || (k == l && keep != Some(q[k])) {
        GoesIs(pull, q, keep, l, k);
      }
      assert !Stale(pull, q[l]) by { DoneIsNotStale(pull, q[l]); }
      forall t ensures t in Pulled(pull, q, keep) <==> exists k :: 0 <= k < |q| && q[k] == t && TakenAt(pull, q, keep, k) {
        InPart(q, l, t);
        assert t == q[l] && keep != Some(t) ==> TakenAt(pull, q, keep, l);
      }
    }
  }

  lemma DoneIsNotStale(pull: map<Id, Nonce>, t: Token)
    requires Done(pull, t)
    ensures !Stale(pull, t)
  {
  }

  lemma StaleGoes(pull: map<Id, Nonce>, q: seq<Token>, keep: Option<Token>, k: nat)
    requires NoneDone(pull, q, 0) && k < |q|
    ensures TakenAt(pull, q, keep, k) <==> Stale(pull, q[k])
  {
    assert forall m | 0 <= m < |q| :: !Done(pull, q[m]);
  }

  lemma SomeDone(pull: map<Id, Nonce>, q: seq<Token>) returns (j: nat)
    requires !NoneDone(pull, q, 0)
    ensures j < |q| && Done(pull, q[j])
  {
    j :| j < |q| && Done(pull, q[j]);
  }

  /** $pullAll: every occurrence of every listed entry goes, the rest keeps its order. */
  function PullAll(q: seq<Token>, gone: seq<Token>): (r: seq<Token>)
    ensures forall t :: t in r <==> t in q && t !in gone
  {
    if q == [] then []
    else
      assert q == [q[0]] + q[1..];
      (if q[0] in gone then [] else [q[0]]) + PullAll(q[1..], gone)
  }

  /** The pull map run passes along for a set of ids. */
  function PullMap(seen: map<Id, Nonce>, ids: set<Id>): (r: map<Id, Nonce>)
    ensures r.Keys == ids * seen.Keys && forall id | id in r :: r[id] == seen[id]
  {
    map id | id in ids && id in seen :: seen[id]
  }

  /** In run's order, no entry that still counts is taken out of a queue before its own
      transaction has been flushed, or is being flushed. */
  lemma PullsOnlyHandled(seen: map<Id, Nonce>, queues: seq<seq<Token>>, plan: seq<Call>, i: nat, q: nat,
                         dontPull: Option<Token>, t: Token)
    requires FlushesInOrder(seen, queues, plan)
    requires i < |plan| && q < |queues|
    requires plan[i].pull.PullIds?
    requires t in Pulled(PullMap(seen, plan[i].pull.ids), queues[q], dontPull) && IsValid(seen, t)
    ensures t.id == plan[i].id || Before(plan, t.id, plan[i].id)
  {
    hide Before, Leads, Distinct, Queued;
    var pull, dqueue := PullMap(seen, plan[i].pull.ids), queues[q];
    if NoneDone(pull, dqueue, 0) {
      PulledStale(pull, dqueue, dontPull);
    } else {
      var k: nat :| k < |dqueue| && Done(pull, dqueue[k]);
      while !NoneDone(pull, dqueue, k + 1)
        invariant k < |dqueue| && Done(pull, dqueue[k])
        decreases |dqueue| - k
      {
        var l :| k + 1 <= l < |dqueue| && Done(pull, dqueue[l]);
        k := l;
      }
      PulledUpTo(pull, dqueue, dontPull, k);
      if t in dqueue[..k] {
        var l :| 0 <= l < k && dqueue[l] == t;
        assert Ahead(seen, queues, t.id, dqueue[k].id);
      } else {
        assert t.id in plan[i].pull.ids;
      }
    }
  }

  lemma LastDone(pull: map<Id, Nonce>, q: seq<Token>, k: nat) returns (l: nat)
    requires k < |q| && Done(pull, q[k])
    ensures k <= l < |q| && Done(pull, q[l]) && NoneDone(pull, q, l + 1)
    ensures NoneDone(pull, q, k + 1) ==> l == k
    decreases |q| - k
  {
    if NoneDone(pull, q, k + 1) {
      l := k;
    } else {
      var m :| k + 1 <= m < |q| && Done(pull, q[m]);
      l := LastDone(pull, q, m);
    }
  }

  /** An entry that must stay does stay exactly when no done transaction has its current entry behind it. */
  lemma KeepsDontPull(pull: map<Id, Nonce>, q: seq<Token>, k: nat)
    requires k < |q| && Done(pull, q[k])
    requires Distinct(q)
    ensures q[k] !in Pulled(pull, q, Some(q[k])) <==> NoneDone(pull, q, k + 1)
  {
    var l := LastDone(pull, q, k);
    PulledUpTo(pull, q, Some(q[k]), l);
    if l == k {
      forall m | k + 1 <= m < |q|
        ensures q[m] != q[k]
      {
      }
    } else {
      assert q[..l][k] == q[k];
    }
  }

  /** Two transactions that are done, both in a queue: the first one's entry goes, though it was to be kept. */
  lemma DontPullIsPulled(first: Id, second: Id, nonce: Nonce)
    requires first != second
    ensures var t, u := Token(first, nonce), Token(second, nonce);
      Pulled(map[first := nonce, second := nonce], [t, u], Some(t)) == [t, u]
  {
    var t, u, pull := Token(first, nonce), Token(second, nonce), map[first := nonce, second := nonce];
    assert [t, u][..1] == [t] && [t, u][1..] == [u] && [u][1..] == [] && [t][..0] == [] && [t][1..] == [];
  }

  /** But in run's order the entry of the transaction at hand does stay: nothing that may be pulled with it is behind it. */
  lemma OwnEntryStays(seen: map<Id, Nonce>, queues: seq<seq<Token>>, plan: seq<Call>, i: nat, q: nat, k: nat)
    requires FlushesInOrder(seen, queues, plan) && i < |plan| && q < |queues| && k < |queues[q]|
    requires plan[i].pull.PullIds? && queues[q][k].id == plan[i].id && IsValid(seen, queues[q][k])
    requires Distinct(queues[q])
    ensures queues[q][k] !in Pulled(PullMap(seen, plan[i].pull.ids), queues[q], Some(queues[q][k]))
  {
    hide Before, Leads, Queued;
    var pull, dqueue := PullMap(seen, plan[i].pull.ids), queues[q];
    assert forall j | k < j < |dqueue| :: dqueue[k] != dqueue[j];
    assert forall j | k < j < |dqueue| && IsValid(seen, dqueue[j]) :: Ahead(seen, queues, dqueue[k].id, dqueue[j].id);
    assert forall j | k < j < |dqueue| && Done(pull, dqueue[j]) :: IsValid(seen, dqueue[j]) && dqueue[j].id == plan[i].id;
    if Done(pull, dqueue[k]) {
      KeepsDontPull(pull, dqueue, k);
    } else {
      NotDoneStays(pull, dqueue, k);
    }
  }

  /** The last entry of all that are done, or not stale, stays if it is not done. */
  lemma NotDoneStays(pull: map<Id, Nonce>, q: seq<Token>, k: nat)
    requires k < |q| && !Done(pull, q[k]) && !Stale(pull, q[k]) && NoneDone(pull, q, k + 1) && Distinct(q)
    ensures q[k] !in Pulled(pull, q, Some(q[k]))
  {
    if NoneDone(pull, q, 0) {
      PulledStale(pull, q, Some(q[k]));
    } else {
      var j: nat :| j < |q| && Done(pull, q[j]);
      assert j < k;
      var l := LastDone(pull, q, j);
      PulledUpTo(pull, q, Some(q[k]), l);
      assert l < k;
      forall m | 0 <= m < l ensures q[m] != q[k] {
      }
    }
  }
}
