/** Runners: which transactions a flusher takes in hand, one after the other, and with which queues and which pull set.

    A flusher goes through the transactions that its goal waits for, and then through a plan of all that it has seen. Its
    steps are steps of the protocol. They can lose a token: another flusher may finish a transaction of a cycle by itself
    and pull what is ahead of it. */
module Runners {
  import opened Basics
  import opened Graphs
  import opened FlushOrder
  import opened Pulling
  import opened Flusher

  // A transaction whose prerequisites are being looked at: the documents that are left, and the entries left of the last.
  datatype Frame = Frame(id: Id, docs: seq<DocKey>, entries: seq<Token>)

  datatype Phase = Recursing(frames: seq<Frame>) | Flushing(plan: seq<Call>, done: nat)

  // A call of flush: the workers of the transactions that it has seen, the queues that it has read, and the transaction
  // that it has in hand.
  datatype Runner = Runner(goal: Id, seen: map<Id, nat>, queue: map<DocKey, seq<Token>>, phase: Phase, current: Id)

  datatype Machine = Machine(s: System, runners: map<nat, Runner>)

  // ---- what a runner computes

  /** The documents of some operations, each once and in order. */
  function Ordered(ops: seq<Op>): (r: seq<DocKey>) {
    if ops == [] then [] else InsertKey(ops[0].doc, Ordered(ops[1..]))
  }

  function InsertKey(d: DocKey, ds: seq<DocKey>): (r: seq<DocKey>) {
    if ds == [] || d < ds[0] then [d] + ds else if d == ds[0] then ds else [ds[0]] + InsertKey(d, ds[1..])
  }

  function Replaced(frames: seq<Frame>, f: Frame): (r: seq<Frame>)
    requires frames != []
  {
    frames[..|frames| - 1] + [f]
  }

  /** Goes on to the next entry of a transaction not yet seen. */
  function Settle(frames: seq<Frame>, seen: set<Id>, queue: map<DocKey, seq<Token>>): (r: seq<Frame>)
    ensures r != [] ==> r[|r| - 1].entries != [] && r[|r| - 1].entries[0].id !in seen
    decreases |frames|, if frames == [] then 0 else |frames[|frames| - 1].docs|, if frames == [] then 0 else |frames[|frames| - 1].entries|
  {
    if frames == [] then []
    else
      var top := frames[|frames| - 1];
      if top.entries != [] then
        if top.entries[0].id !in seen then frames else Settle(Replaced(frames, top.(entries := top.entries[1..])), seen, queue)
      else if top.docs != [] then Settle(Replaced(frames, top.(docs := top.docs[1..], entries := Cached(queue, top.docs[0]))), seen, queue)
      else Settle(frames[..|frames| - 1], seen, queue)
  }

  // ---- the order in which recurse goes on

  /** The keys of the documents of a transaction are in increasing order and each there once. */
  lemma {:induction false} OrderedIs(ops: seq<Op>)
    ensures forall i, j | 0 <= i < j < |Ordered(ops)| :: Ordered(ops)[i] < Ordered(ops)[j]
    ensures forall d :: d in Ordered(ops) <==> exists i :: 0 <= i < |ops| && ops[i].doc == d
    decreases |ops|
  {
    if ops != [] {
      OrderedIs(ops[1..]);
      InsertedIs(ops[0].doc, Ordered(ops[1..]));
      forall d ensures d in Ordered(ops) <==> exists i :: 0 <= i < |ops| && ops[i].doc == d {
        if i :| 0 <= i < |ops| && ops[i].doc == d {
          assert i > 0 ==> ops[1..][i - 1].doc == d;
        }
        if d in Ordered(ops[1..]) {
          var i :| 0 <= i < |ops[1..]| && ops[1..][i].doc == d;
          assert ops[i + 1].doc == d;
        }
      }
    }
  }

  lemma {:induction false} InsertedIs(d: DocKey, ds: seq<DocKey>)
    requires forall i, j | 0 <= i < j < |ds| :: ds[i] < ds[j]
    ensures forall i, j | 0 <= i < j < |InsertKey(d, ds)| :: InsertKey(d, ds)[i] < InsertKey(d, ds)[j]
    ensures forall e :: e in InsertKey(d, ds) <==> e == d || e in ds
    decreases |ds|
  {
    InsertedAmong(d, ds);
    if ds != [] && d > ds[0] {
      InsertedIs(d, ds[1..]);
      var rest := InsertKey(d, ds[1..]);
      InsertedAmong(d, ds[1..]);
      forall i | 0 <= i < |rest| ensures ds[0] < rest[i] {
        assert rest[i] in rest;
        if rest[i] in ds[1..] {
          var k :| 0 <= k < |ds[1..]| && ds[1..][k] == rest[i];
          assert ds[0] < ds[k + 1];
        }
      }
    }
  }

  lemma {:induction false} InsertedAmong(d: DocKey, ds: seq<DocKey>)
    ensures forall e :: e in InsertKey(d, ds) <==> e == d || e in ds
    decreases |ds|
  {
    if ds != [] {
      assert ds == [ds[0]] + ds[1..];
      InsertedAmong(d, ds[1..]);
    }
  }

  function EntriesOf(queue: map<DocKey, seq<Token>>, docs: seq<DocKey>): (r: seq<Token>) {
    if docs == [] then [] else Cached(queue, docs[0]) + EntriesOf(queue, docs[1..])
  }

  /** All the entries that are left to look at: those of the last document first, then those of the transaction's other
      documents, and then those of the transactions that it was found behind. */
  function StillAhead(frames: seq<Frame>, queue: map<DocKey, seq<Token>>): (r: seq<Token>) {
    if frames == [] then []
    else
      var top := frames[|frames| - 1];
      top.entries + EntriesOf(queue, top.docs) + StillAhead(frames[..|frames| - 1], queue)
  }

  /** One step of settling: past a seen entry, on to the next document, or back to the transaction below. */
  function Settling(frames: seq<Frame>, queue: map<DocKey, seq<Token>>): (r: seq<Frame>)
    requires frames != []
  {
    var top := frames[|frames| - 1];
    if top.entries != [] then Replaced(frames, top.(entries := top.entries[1..]))
    else if top.docs != [] then Replaced(frames, top.(docs := top.docs[1..], entries := Cached(queue, top.docs[0])))
    else frames[..|frames| - 1]
  }

  lemma SettlingIs(frames: seq<Frame>, queue: map<DocKey, seq<Token>>)
    requires frames != []
    ensures var top, all, next := frames[|frames| - 1], StillAhead(frames, queue), StillAhead(Settling(frames, queue), queue);
      if top.entries != [] then all == [top.entries[0]] + next else all == next
  {
    hide Cached;
    var top, next := frames[|frames| - 1], Settling(frames, queue);
    var below := StillAhead(frames[..|frames| - 1], queue);
    if top.entries != [] {
      assert next[..|next| - 1] == frames[..|frames| - 1];
      assert top.entries == [top.entries[0]] + top.entries[1..];
    } else if top.docs != [] {
      assert next[..|next| - 1] == frames[..|frames| - 1];
      assert [] + EntriesOf(queue, top.docs) == Cached(queue, top.docs[0]) + EntriesOf(queue, top.docs[1..]);
    } else {
      assert [] + [] + below == below;
    }
  }

  /** Of the entries `all` those from the first one on that is of a transaction not seen yet. */
  ghost predicate FromFirst(left: seq<Token>, all: seq<Token>, seen: set<Id>) {
    && |left| <= |all| && left == all[|all| - |left|..]
    && (forall k | 0 <= k < |all| - |left| :: all[k].id in seen)
    && (left != [] ==> left[0].id !in seen)
  }

  lemma SeenBefore(left: seq<Token>, all: seq<Token>, e: Token, seen: set<Id>)
    requires FromFirst(left, all, seen) && e.id in seen
    ensures FromFirst(left, [e] + all, seen)
  {
  }

  lemma SettleOn(frames: seq<Frame>, seen: set<Id>, queue: map<DocKey, seq<Token>>)
    requires frames != []
    ensures var top := frames[|frames| - 1];
      Settle(frames, seen, queue) ==
        if top.entries == [] || top.entries[0].id in seen then Settle(Settling(frames, queue), seen, queue) else frames
  {
  }

  lemma FirstOfThem(frames: seq<Frame>, queue: map<DocKey, seq<Token>>)
    ensures StillAhead([], queue) == []
    ensures frames != [] && frames[|frames| - 1].entries != [] ==>
      StillAhead(frames, queue) != [] && StillAhead(frames, queue)[0] == frames[|frames| - 1].entries[0]
  {
  }

  /** recurse goes on with the first entry ahead that is of a transaction not seen yet, and is through if there is none. */
  lemma {:induction false} SettleIs(frames: seq<Frame>, seen: set<Id>, queue: map<DocKey, seq<Token>>)
    ensures FromFirst(StillAhead(Settle(frames, seen, queue), queue), StillAhead(frames, queue), seen)
    ensures Settle(frames, seen, queue) == [] <==> StillAhead(Settle(frames, seen, queue), queue) == []
    decreases |frames|, if frames == [] then 0 else |frames[|frames| - 1].docs|, if frames == [] then 0 else |frames[|frames| - 1].entries|
  {
    hide Settle, StillAhead;
    FirstOfThem(Settle(frames, seen, queue), queue);
    FirstOfThem(frames, queue);
    if frames == [] {
      NothingLeft(seen, queue);
    } else {
      var top, next := frames[|frames| - 1], Settling(frames, queue);
      SettlingIs(frames, queue);
      SettleOn(frames, seen, queue);
      if top.entries == [] || top.entries[0].id in seen {
        SettleIs(next, seen, queue);
        hide FromFirst;
        if top.entries != [] {
          SeenBefore(StillAhead(Settle(next, seen, queue), queue), StillAhead(next, queue), top.entries[0], seen);
        }
      }
    }
  }

  lemma NothingLeft(seen: set<Id>, queue: map<DocKey, seq<Token>>)
    ensures Settle([], seen, queue) == []
  {
  }

  /** The nonces of what has been seen. */
  ghost function Nonces(s: System, seen: map<Id, nat>): (r: map<Id, Nonce>) {
    map id | id in seen && seen[id] in s.workers && s.workers[seen[id]].t.nonce.Some? :: s.workers[seen[id]].t.nonce.value
  }

  ghost predicate ListsQueues(queue: map<DocKey, seq<Token>>, queues: seq<seq<Token>>) {
    (forall q | q in queues :: exists d :: d in queue && queue[d] == q) && (forall d | d in queue :: queue[d] in queues)
  }

  /** The calls that run makes once recurse is through. */
  ghost predicate Planned(seen: map<Id, Nonce>, queue: map<DocKey, seq<Token>>, goal: Id, plan: seq<Call>) {
    exists queues: seq<seq<Token>> :: ListsQueues(queue, queues)
      && if HasPrerequisites(seen, queues, goal) then FlushesInOrder(seen, queues, plan) else plan == [Call(goal, NoPull)]
  }

  ghost function PullOf(s: System, seen: map<Id, nat>, pull: Pull): (r: Option<map<Id, Nonce>>) {
    match pull case NoPull => None case PullIds(ids) => Some(PullMap(Nonces(s, seen), ids))
  }

  // ---- its steps

  /** The runner `f` has this worker in hand. */
  predicate InHand(m: Machine, f: nat) {
    f in m.runners && m.runners[f].current in m.runners[f].seen && m.runners[f].seen[m.runners[f].current] in m.s.workers
  }

  function WorkerOf(m: Machine, f: nat): (w: Worker)
    requires InHand(m, f)
  {
    m.s.workers[m.runners[f].seen[m.runners[f].current]]
  }

  /** Nobody's worker so far. */
  predicate Unused(m: Machine, r: nat) {
    r !in m.s.workers && forall f | f in m.runners :: r !in m.runners[f].seen.Values
  }

  /** Takes a transaction in hand for the first time: without a pull set and without force. */
  function Loaded(m: Machine, f: nat, n: Runner, r: nat): (m': Machine)
    requires n.current in m.s.db.txns
  {
    var w := Worker(n.current, m.s.db.txns[n.current], false, None, n.queue, Advance);
    Machine(m.s.(workers := m.s.workers[r := w]), m.runners[f := n.(seen := n.seen[n.current := r])])
  }

  /** flush is called. */
  ghost predicate Begin(m: Machine, m': Machine, f: nat, goal: Id, r: nat) {
    && f !in m.runners && goal in m.s.db.txns && Unused(m, r)
    && m' == Loaded(m, f, Runner(goal, map[], map[], Recursing([]), goal), r)
  }

  /** One step of advance. */
  ghost predicate Move(m: Machine, m': Machine, f: nat, w: Worker) {
    && InHand(m, f) && Act(m.s, m'.s, m.runners[f].seen[m.runners[f].current], w)
    && m'.runners == m.runners[f := m.runners[f].(queue := w.queue)]
  }

  /** What is left to look at when advance has returned in recurse. */
  function Left(m: Machine, f: nat): (r: seq<Frame>)
    requires InHand(m, f) && m.runners[f].phase.Recursing?
  {
    var n, w := m.runners[f], WorkerOf(m, f);
    Settle(if w.pc == Returned(PreReqs) then n.phase.frames + [Frame(n.current, Ordered(w.t.ops), [])] else n.phase.frames,
           n.seen.Keys, n.queue)
  }

  /** advance has returned in recurse, and the next transaction is taken in hand. */
  ghost predicate Recurse(m: Machine, m': Machine, f: nat, r: nat) {
    && InHand(m, f) && m.runners[f].phase.Recursing?
    && (WorkerOf(m, f).pc == Returned(PreReqs) || WorkerOf(m, f).pc == Returned(Ok))
    && Left(m, f) != [] && Unused(m, r)
    && var top := Left(m, f)[|Left(m, f)| - 1];
    && top.entries[0].id in m.s.db.txns
    && m' == Loaded(m, f, m.runners[f].(phase := Recursing(Replaced(Left(m, f), top.(entries := top.entries[1..]))),
                                        current := top.entries[0].id), r)
  }

  /** The next call of the plan. */
  ghost predicate Calls(m: Machine, m': Machine, f: nat, plan: seq<Call>, i: nat)
    requires f in m.runners
  {
    var n := m.runners[f];
    && i < |plan| && plan[i].id in n.seen && n.seen[plan[i].id] in m.s.workers
    && var r, w := n.seen[plan[i].id], m.s.workers[n.seen[plan[i].id]];
    && w.pc.Returned? && w.id == plan[i].id
    && m' == Machine(m.s.(workers := m.s.workers[r := w.(force := true, pull := PullOf(m.s, n.seen, plan[i].pull), queue := n.queue, pc := Advance)]),
                     m.runners[f := n.(phase := Flushing(plan, i + 1), current := plan[i].id)])
  }

  /** recurse is through, and the goal is not. */
  ghost predicate Plan(m: Machine, m': Machine, f: nat, plan: seq<Call>) {
    && InHand(m, f) && m.runners[f].phase.Recursing?
    && (WorkerOf(m, f).pc == Returned(PreReqs) || WorkerOf(m, f).pc == Returned(Ok))
    && Left(m, f) == []
    && var n := m.runners[f];
    && n.goal in n.seen && n.seen[n.goal] in m.s.workers
    && m.s.workers[n.seen[n.goal]].t.state != Applied && m.s.workers[n.seen[n.goal]].t.state != Aborted
    && Planned(Nonces(m.s, n.seen), n.queue, n.goal, plan)
    && Calls(m, m', f, plan, 0)
  }

  /** advance has returned, and the plan goes on. */
  ghost predicate Flush(m: Machine, m': Machine, f: nat) {
    && InHand(m, f) && m.runners[f].phase.Flushing? && WorkerOf(m, f).pc == Returned(Ok)
    && Calls(m, m', f, m.runners[f].phase.plan, m.runners[f].phase.done)
  }

  /** A new record. */
  ghost predicate Add(m: Machine, m': Machine, id: Id, ops: seq<Op>) {
    Insert(m.s, m'.s, id, ops) && m'.runners == m.runners
  }

  ghost predicate Goes(m: Machine, m': Machine) {
    || (exists id, ops :: Add(m, m', id, ops))
    || (exists f, goal, r :: Begin(m, m', f, goal, r))
    || (exists f, w :: Move(m, m', f, w))
    || (exists f, r :: Recurse(m, m', f, r))
    || (exists f, plan :: Plan(m, m', f, plan))
    || (exists f :: Flush(m, m', f))
  }

  ghost predicate IsCourse(run: seq<Machine>) {
    && run != [] && Init(run[0].s) && run[0].runners == map[]
    && forall i | 0 <= i < |run| - 1 :: Goes(run[i], run[i + 1])
  }

  function Systems(run: seq<Machine>): (r: seq<System>) {
    seq(|run|, i requires 0 <= i < |run| => run[i].s)
  }

  /** What runners do is a run of the protocol; so what holds in all of these holds here. */
  lemma GoesIsNext(m: Machine, m': Machine)
    requires Goes(m, m')
    ensures Next(m.s, m'.s)
  {
    hide WorkerStep, Left, Planned, PullOf, Ordered;
    if id, ops :| Add(m, m', id, ops) {
    } else if f, goal, r :| Begin(m, m', f, goal, r) {
      assert Load(m.s, m'.s, r, m'.s.workers[r]);
    } else if f, w :| Move(m, m', f, w) {
    } else if f, r :| Recurse(m, m', f, r) {
      assert Load(m.s, m'.s, r, m'.s.workers[r]);
    } else if f, plan :| Plan(m, m', f, plan) {
      CallsIsNext(m, m', f, plan, 0);
    } else {
      var f :| Flush(m, m', f);
      CallsIsNext(m, m', f, m.runners[f].phase.plan, m.runners[f].phase.done);
    }
  }

  lemma CallsIsNext(m: Machine, m': Machine, f: nat, plan: seq<Call>, i: nat)
    requires f in m.runners && Calls(m, m', f, plan, i)
    ensures Next(m.s, m'.s)
  {
    hide PullOf;
    var r := m.runners[f].seen[plan[i].id];
    assert Revisit(m.s, m'.s, r, m'.s.workers[r]);
  }

  lemma CourseIsRun(run: seq<Machine>)
    requires IsCourse(run)
    ensures IsRun(Systems(run))
  {
    hide Goes, Next;
    forall i | 0 <= i < |run| - 1 ensures Next(Systems(run)[i], Systems(run)[i + 1]) {
      GoesIsNext(run[i], run[i + 1]);
    }
  }
}
