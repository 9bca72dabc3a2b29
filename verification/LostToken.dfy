/** A course of runners in which a token is lost: rescan panics over a document that misses a transaction in its queue.

    Two transactions on two documents have been queued in opposite orders, so they wait for each other. A flusher begins to
    apply the one that its plan has first. Another flusher comes to that transaction in recurse, finds it being applied, and
    applies it by itself, with itself as the pull set: what is ahead of it in the queue goes with it. That is the token of
    the other transaction, which has not been applied. */
module LostToken {
  import opened Basics
  import opened Graphs
  import opened FlushOrder
  import opened Pulling
  import opened Flusher
  import opened Runners

  // ---- machines with a few workers and runners

  function Numbered<T>(xs: seq<T>): (r: map<nat, T>) {
    map i: nat | i < |xs| :: xs[i]
  }

  function Make(db: Db, ws: seq<Worker>, rs: seq<Runner>): (m: Machine) {
    Machine(System(db, Numbered(ws)), Numbered(rs))
  }

  ghost predicate Reached(m: Machine) {
    exists run :: IsCourse(run) && run[|run| - 1] == m
  }

  lemma ReachedNext(m: Machine, m': Machine)
    requires Reached(m) && Goes(m, m')
    ensures Reached(m')
  {
    hide Goes, Init;
    var run :| IsCourse(run) && run[|run| - 1] == m;
    var more := run + [m'];
    assert forall i | 0 <= i < |run| - 1 :: Goes(more[i], more[i + 1]);
    assert IsCourse(more) && more[|more| - 1] == m';
  }

  /** The worker that the runner has in hand. */
  predicate Holds(ws: seq<Worker>, rs: seq<Runner>, f: nat, r: nat) {
    f < |rs| && r < |ws| && rs[f].current in rs[f].seen && rs[f].seen[rs[f].current] == r
  }

  predicate Small(ws: seq<Worker>, rs: seq<Runner>) {
    forall f, r | 0 <= f < |rs| && r in rs[f].seen.Values :: r < |ws|
  }

  lemma Moved(db: Db, ws: seq<Worker>, rs: seq<Runner>, f: nat, r: nat, db': Db, w: Worker)
    requires Reached(Make(db, ws, rs)) && Holds(ws, rs, f, r) && ws[r].id in db.txns && WorkerStep(db, ws[r], db', w)
    ensures Reached(Make(db', ws[r := w], rs[f := rs[f].(queue := w.queue)]))
  {
    hide WorkerStep, Reached;
    var m, m' := Make(db, ws, rs), Make(db', ws[r := w], rs[f := rs[f].(queue := w.queue)]);
    assert m'.s.workers == m.s.workers[r := w];
    assert m'.runners == m.runners[f := m.runners[f].(queue := w.queue)];
    assert Move(m, m', f, w);
    ReachedNext(m, m');
  }

  function First(db: Db, id: Id, queue: map<DocKey, seq<Token>>): (w: Worker)
    requires id in db.txns
  {
    Worker(id, db.txns[id], false, None, queue, Advance)
  }

  lemma Began(db: Db, ws: seq<Worker>, rs: seq<Runner>, goal: Id)
    requires Reached(Make(db, ws, rs)) && goal in db.txns && Small(ws, rs)
    ensures Reached(Make(db, ws + [First(db, goal, map[])], rs + [Runner(goal, map[goal := |ws|], map[], Recursing([]), goal)]))
  {
    hide Reached;
    var m := Make(db, ws, rs);
    var m' := Make(db, ws + [First(db, goal, map[])], rs + [Runner(goal, map[goal := |ws|], map[], Recursing([]), goal)]);
    var n := Runner(goal, map[], map[], Recursing([]), goal);
    assert m'.s.workers == m.s.workers[|ws| := First(db, goal, map[])];
    assert m'.runners == m.runners[|rs| := n.(seen := n.seen[goal := |ws|])];
    assert Begin(m, m', |rs|, goal, |ws|);
    ReachedNext(m, m');
  }

  /** recurse goes on to the transaction `id`. */
  lemma Recursed(db: Db, ws: seq<Worker>, rs: seq<Runner>, f: nat, r: nat, left: seq<Frame>, id: Id)
    requires Reached(Make(db, ws, rs)) && Holds(ws, rs, f, r) && Small(ws, rs) && rs[f].phase.Recursing? && ws[r].pc == Returned(PreReqs)
    requires Settle(rs[f].phase.frames + [Frame(rs[f].current, Ordered(ws[r].t.ops), [])], rs[f].seen.Keys, rs[f].queue) == left != []
    requires left[|left| - 1].entries != [] && left[|left| - 1].entries[0].id == id && id in db.txns
    ensures var top := left[|left| - 1];
      var n := rs[f].(phase := Recursing(Replaced(left, top.(entries := top.entries[1..]))), current := id, seen := rs[f].seen[id := |ws|]);
      Reached(Make(db, ws + [First(db, id, rs[f].queue)], rs[f := n]))
  {
    hide Reached, Settle, Ordered;
    var m := Make(db, ws, rs);
    var top := left[|left| - 1];
    var n := rs[f].(phase := Recursing(Replaced(left, top.(entries := top.entries[1..]))), current := id);
    var m' := Make(db, ws + [First(db, id, rs[f].queue)], rs[f := n.(seen := n.seen[id := |ws|])]);
    assert InHand(m, f) && WorkerOf(m, f) == ws[r] && Left(m, f) == left;
    assert m'.s.workers == m.s.workers[|ws| := First(db, id, rs[f].queue)];
    assert m'.runners == m.runners[f := n.(seen := n.seen[id := |ws|])];
    assert m' == Loaded(m, f, n, |ws|);
    assert Recurse(m, m', f, |ws|);
    ReachedNext(m, m');
  }

  /** The worker of a planned call. */
  function Called(w: Worker, pull: map<Id, Nonce>, queue: map<DocKey, seq<Token>>): (w': Worker) {
    w.(force := true, pull := Some(pull), queue := queue, pc := Advance)
  }

  lemma CallMade(db: Db, ws: seq<Worker>, rs: seq<Runner>, f: nat, plan: seq<Call>, i: nat, q: nat)
    requires f < |rs| && i < |plan| && plan[i].pull == PullIds({}) && plan[i].id in rs[f].seen && rs[f].seen[plan[i].id] == q < |ws|
    requires ws[q].pc.Returned? && ws[q].id == plan[i].id
    ensures var n := rs[f].(phase := Flushing(plan, i + 1), current := plan[i].id);
      Calls(Make(db, ws, rs), Make(db, ws[q := Called(ws[q], map[], rs[f].queue)], rs[f := n]), f, plan, i)
  {
    var m := Make(db, ws, rs);
    var n := rs[f].(phase := Flushing(plan, i + 1), current := plan[i].id);
    var m' := Make(db, ws[q := Called(ws[q], map[], rs[f].queue)], rs[f := n]);
    assert PullOf(m.s, rs[f].seen, PullIds({})) == Some(map[]);
    assert m'.s.workers == m.s.workers[q := Called(ws[q], map[], rs[f].queue)];
    assert m'.runners == m.runners[f := n];
  }

  lemma PlanMade(db: Db, ws: seq<Worker>, rs: seq<Runner>, f: nat, r: nat, g: nat, plan: seq<Call>, q: nat)
    requires Reached(Make(db, ws, rs)) && Holds(ws, rs, f, r) && rs[f].phase.Recursing? && ws[r].pc == Returned(PreReqs)
    requires Settle(rs[f].phase.frames + [Frame(rs[f].current, Ordered(ws[r].t.ops), [])], rs[f].seen.Keys, rs[f].queue) == []
    requires rs[f].goal in rs[f].seen && rs[f].seen[rs[f].goal] == g < |ws| && ws[g].t.state == Prepared
    requires Planned(Nonces(System(db, Numbered(ws)), rs[f].seen), rs[f].queue, rs[f].goal, plan)
    requires |plan| > 0 && plan[0].pull == PullIds({}) && plan[0].id in rs[f].seen && rs[f].seen[plan[0].id] == q < |ws|
    requires ws[q].pc.Returned? && ws[q].id == plan[0].id
    ensures var n := rs[f].(phase := Flushing(plan, 1), current := plan[0].id);
      Reached(Make(db, ws[q := Called(ws[q], map[], rs[f].queue)], rs[f := n]))
  {
    hide Reached, Settle, Ordered, Planned, Nonces, Calls;
    var m := Make(db, ws, rs);
    var m' := Make(db, ws[q := Called(ws[q], map[], rs[f].queue)], rs[f := rs[f].(phase := Flushing(plan, 1), current := plan[0].id)]);
    CallMade(db, ws, rs, f, plan, 0, q);
    assert InHand(m, f) && WorkerOf(m, f) == ws[r] && Left(m, f) == [];
    assert Plan(m, m', f, plan);
    ReachedNext(m, m');
  }

  lemma FlushGoesOn(db: Db, ws: seq<Worker>, rs: seq<Runner>, f: nat, r: nat, plan: seq<Call>, i: nat, q: nat)
    requires Reached(Make(db, ws, rs)) && Holds(ws, rs, f, r) && rs[f].phase == Flushing(plan, i) && ws[r].pc == Returned(Ok)
    requires i < |plan| && plan[i].pull == PullIds({}) && plan[i].id in rs[f].seen && rs[f].seen[plan[i].id] == q < |ws|
    requires ws[q].pc.Returned? && ws[q].id == plan[i].id
    ensures var n := rs[f].(phase := Flushing(plan, i + 1), current := plan[i].id);
      Reached(Make(db, ws[q := Called(ws[q], map[], rs[f].queue)], rs[f := n]))
  {
    hide Reached, Calls;
    var m := Make(db, ws, rs);
    var m' := Make(db, ws[q := Called(ws[q], map[], rs[f].queue)], rs[f := rs[f].(phase := Flushing(plan, i + 1), current := plan[i].id)]);
    CallMade(db, ws, rs, f, plan, i, q);
    assert InHand(m, f) && WorkerOf(m, f) == ws[r];
    assert Flush(m, m', f);
    ReachedNext(m, m');
  }

  // ---- the transactions

  const D: DocKey := 0
  const E: DocKey := 1
  const A: Id := 1
  const B: Id := 0
  const TA: Token := Token(A, "a")
  const TB: Token := Token(B, "b")

  // Both change both documents.
  const OPS: seq<Op> := [Op(D, NoQuery, true), Op(E, NoQuery, true)]
  const NEW: Txn := Txn(OPS, Preparing, None, None)
  const PA: Txn := Txn(OPS, Prepared, Some("a"), None)
  const PB: Txn := Txn(OPS, Prepared, Some("b"), None)
  const XA: Txn := Txn(OPS, Applying, Some("a"), Some([1, 1]))

  ghost function Store(a: Txn, b: Txn, d: Doc, e: Doc, log: seq<Effect>): (db: Db) {
    Db(map[A := a, B := b], map[D := d, E := e], map[], log, iset{})
  }

  function Hand(id: Id, t: Txn, queue: map<DocKey, seq<Token>>, pc: Pc): (w: Worker) {
    Worker(id, t, false, None, queue, pc)
  }

  function Forced(id: Id, t: Txn, queue: map<DocKey, seq<Token>>, pc: Pc): (w: Worker) {
    Worker(id, t, true, Some(map[]), queue, pc)
  }

  lemma Keys()
    ensures DocKeys(OPS) == {D, E} && {D, E} - {D} == {E} && {E} - {E} == {} && Ordered(OPS) == [D, E]
  {
    assert OPS[0].doc == D && OPS[1].doc == E;
    assert OPS[1..] == [OPS[1]] && OPS[1..][1..] == [];
    assert Ordered([OPS[1]]) == [E] by { assert [OPS[1]][1..] == []; assert Ordered([]) == []; }
  }

  // ---- steps of advance, one by one

  lemma Advances(db: Db, w: Worker, n: Nonce)
    requires w.pc == Advance && w.t == NEW && w.id in db.txns
    ensures WorkerStep(db, w, db, w.(pc := PrepareDocs(Token(w.id, n), {D, E}, map[])))
  {
    Keys();
    assert AdvanceStep(w, w.(pc := PrepareDocs(Token(w.id, n), {D, E}, map[])));
  }

  lemma Prepares(db: Db, w: Worker, d: DocKey, q: seq<Token>, db': Db, w': Worker)
    requires w.pc.PrepareDocs? && d in w.pc.todo && d in db.docs && w.id in db.txns && q == AddToSet(db.docs[d].queue, w.pc.tt)
    requires db' == db.(docs := db'.docs) && db'.docs == db.docs[d := db.docs[d].(queue := q)]
    requires w' == w.(queue := w'.queue, pc := w'.pc) && w'.queue == w.queue[d := q]
    requires w'.pc == PrepareDocs(w.pc.tt, w.pc.todo - {d}, w.pc.revno[d := db.docs[d].revno])
    ensures WorkerStep(db, w, db', w')
  {
  }

  lemma AllPrepared(db: Db, w: Worker)
    requires w.pc.PrepareDocs? && w.pc.todo == {} && w.id in db.txns
    ensures WorkerStep(db, w, db, w.(pc := SaveNonce(w.pc.tt, w.pc.revno)))
  {
  }

  /** The nonce is saved, and something else is queued before the token. */
  lemma Saves(db: Db, w: Worker, d: DocKey, t: Txn, db': Db)
    requires w.pc.SaveNonce? && w.id in db.txns && db.txns[w.id] == NEW && w.t == NEW && !w.force
    requires FoundEverywhere(w.queue, w.pc.tt, {D, E}) && (d == D || d == E) && Blocked(Cached(w.queue, d), w.pc.tt)
    requires t == NEW.(state := Prepared, nonce := Some(w.pc.tt.nonce)) && db' == db.(txns := db'.txns) && db'.txns == db.txns[w.id := t]
    ensures WorkerStep(db, w, db', w.(t := t, pc := Returned(PreReqs)))
  {
    Keys();
    hide FoundEverywhere, Blocked;
  }

  /** A prepared transaction whose queues are not all known, or whose order is forced. */
  lemma Rescans(db: Db, w: Worker, d: DocKey)
    requires w.pc == Advance && w.t.state == Prepared && w.t.nonce.Some? && w.t.ops == OPS && w.id in db.txns
    requires w.force || ((d == D || d == E) && Token(w.id, w.t.nonce.value) !in Cached(w.queue, d))
    ensures WorkerStep(db, w, db, w.(pc := Rescan({D, E}, map[], 0)))
  {
    Keys();
    hide HasPrereqs;
  }

  lemma Reads(db: Db, w: Worker, d: DocKey, w': Worker)
    requires w.pc.Rescan? && d in w.pc.todo && d in db.docs && w.t.state == Prepared && w.t.nonce.Some? && w.id in db.txns
    requires w' == w.(queue := w'.queue, pc := w'.pc) && w'.queue == w.queue[d := db.docs[d].queue]
    requires w'.pc == if Token(w.id, w.t.nonce.value) in db.docs[d].queue then Rescan(w.pc.todo - {d}, w.pc.revno[d := db.docs[d].revno], 0)
                      else RescanMissed
    ensures WorkerStep(db, w, db, w')
  {
  }

  /** All queues are read, and something else is before the token. */
  lemma Waits(db: Db, w: Worker, d: DocKey)
    requires w.pc.Rescan? && w.pc.todo == {} && w.t.state == Prepared && w.t.nonce.Some? && w.t.ops == OPS && w.id in db.txns && !w.force
    requires var tt := Token(w.id, w.t.nonce.value);
      FoundEverywhere(w.queue, tt, {D, E}) && (d == D || d == E) && Blocked(Cached(w.queue, d), tt)
    ensures WorkerStep(db, w, db, w.(pc := Returned(PreReqs)))
  {
    Keys();
    hide FoundEverywhere, Blocked;
  }

  lemma Proceeds(db: Db, w: Worker)
    requires w.pc.Rescan? && w.pc.todo == {} && w.t.state == Prepared && w.t.nonce.Some? && w.t.ops == OPS && w.id in db.txns && w.force
    requires FoundEverywhere(w.queue, Token(w.id, w.t.nonce.value), {D, E}) && w.pc.revno == map[D := 1, E := 1]
    ensures WorkerStep(db, w, db, w.(pc := Assert(0, [1, 1])))
  {
    Keys();
    hide FoundEverywhere, HasPrereqs;
    assert OPS[1..] == [OPS[1]] && OPS[1..][1..] == [];
    var revno := map[D := 1, E := 1];
    assert RescanRevnos(OPS, revno) == [1, 1] by {
      var later := revno[D := 2];
      assert RescanRevnos([], later[E := 2]) == [];
      assert RescanRevnos([OPS[1]], later) == [1] + RescanRevnos([OPS[1]][1..], later[E := 2]);
      assert RescanRevnos(OPS, revno) == [1] + RescanRevnos(OPS[1..], later);
    }
  }

  lemma Asserts(db: Db, w: Worker)
    requires w.pc.Assert? && w.pc.revnos == [1, 1] && w.pc.i <= 2 && w.t.state == Prepared && w.t.ops == OPS && w.id in db.txns
    ensures WorkerStep(db, w, db, w.(pc := if w.pc.i < 2 then Assert(w.pc.i + 1, [1, 1]) else Checkpoint([1, 1])))
  {
  }

  lemma Checkpoints(db: Db, w: Worker, t: Txn, db': Db)
    requires w.pc == Checkpoint([1, 1]) && w.id in db.txns && db.txns[w.id] == w.t && w.t.state == Prepared
    requires t == w.t.(state := Applying, revnos := Some([1, 1])) && db' == db.(txns := db'.txns) && db'.txns == db.txns[w.id := t]
    ensures WorkerStep(db, w, db', w.(t := t, pc := Advance))
  {
  }

  lemma Applies(db: Db, w: Worker)
    requires w.pc == Advance && w.t.state == Applying && w.id in db.txns
    ensures WorkerStep(db, w, db, w.(pc := Apply(0)))
  {
  }

  // ---- the course

  const Q: map<DocKey, seq<Token>> := map[D := [TB, TA], E := [TA, TB]]
  const Q0: map<DocKey, seq<Token>> := map[D := [TB], E := [TA, TB]]
  const Q1: map<DocKey, seq<Token>> := map[D := [TB, TA], E := [TA]]

  function Flushing0(goal: Id, r: nat, queue: map<DocKey, seq<Token>>): (n: Runner) {
    Runner(goal, map[goal := r], queue, Recursing([]), goal)
  }

  /** The two transactions are there, and two flushers have begun, with B and with A as their goals. */
  lemma BothBegin()
    ensures Reached(Make(Store(NEW, NEW, Doc(1, []), Doc(1, []), []), [Hand(B, NEW, map[], Advance), Hand(A, NEW, map[], Advance)],
                         [Flushing0(B, 0, map[]), Flushing0(A, 1, map[])]))
  {
    hide Reached;
    var db0 := Db(map[], map[D := Doc(1, []), E := Doc(1, [])], map[], [], iset{});
    var db1 := db0.(txns := map[B := NEW]);
    var db2 := Store(NEW, NEW, Doc(1, []), Doc(1, []), []);
    var m0, m1, m2 := Make(db0, [], []), Make(db1, [], []), Make(db2, [], []);
    Begins(m0);
    assert Insert(m0.s, m1.s, B, OPS) && Add(m0, m1, B, OPS);
    ReachedNext(m0, m1);
    assert db2.txns == db1.txns[A := NEW];
    assert Insert(m1.s, m2.s, A, OPS) && Add(m1, m2, A, OPS);
    ReachedNext(m1, m2);
    Began(db2, [], [], B);
    assert [] + [First(db2, B, map[])] == [Hand(B, NEW, map[], Advance)];
    assert [] + [Flushing0(B, 0, map[])] == [Flushing0(B, 0, map[])];
    Began(db2, [Hand(B, NEW, map[], Advance)], [Flushing0(B, 0, map[])], A);
    assert [Hand(B, NEW, map[], Advance)] + [First(db2, A, map[])] == [Hand(B, NEW, map[], Advance), Hand(A, NEW, map[], Advance)];
    assert [Flushing0(B, 0, map[])] + [Flushing0(A, 1, map[])] == [Flushing0(B, 0, map[]), Flushing0(A, 1, map[])];
  }

  lemma Begins(m: Machine)
    requires Init(m.s) && m.runners == map[]
    ensures Reached(m)
  {
    assert IsCourse([m]) && [m][|[m]| - 1] == m;
  }

  /** One of two workers moves. */
  lemma MovedOne(db: Db, a: Worker, b: Worker, f: Runner, g: Runner, db': Db, w: Worker)
    requires Reached(Make(db, [a, b], [f, g])) && f.current in f.seen && f.seen[f.current] == 0 && a.id in db.txns && WorkerStep(db, a, db', w)
    ensures Reached(Make(db', [w, b], [f.(queue := w.queue), g]))
  {
    hide Reached, WorkerStep;
    Moved(db, [a, b], [f, g], 0, 0, db', w);
    assert [a, b][0 := w] == [w, b] && [f, g][0 := f.(queue := w.queue)] == [f.(queue := w.queue), g];
  }

  lemma MovedOther(db: Db, a: Worker, b: Worker, f: Runner, g: Runner, db': Db, w: Worker)
    requires Reached(Make(db, [a, b], [f, g])) && g.current in g.seen && g.seen[g.current] == 1 && b.id in db.txns && WorkerStep(db, b, db', w)
    ensures Reached(Make(db', [a, w], [f, g.(queue := w.queue)]))
  {
    hide Reached, WorkerStep;
    Moved(db, [a, b], [f, g], 1, 1, db', w);
    assert [a, b][1 := w] == [a, w] && [f, g][1 := g.(queue := w.queue)] == [f, g.(queue := w.queue)];
  }

  /** B is queued before A on one document, and behind it on the other. */
  lemma BothQueued()
    ensures Reached(Make(Store(NEW, NEW, Doc(1, [TB, TA]), Doc(1, [TA, TB]), []),
                         [Hand(B, NEW, map[D := [TB], E := [TA, TB]], PrepareDocs(TB, {}, map[D := 1, E := 1])),
                          Hand(A, NEW, map[D := [TB, TA], E := [TA]], PrepareDocs(TA, {}, map[D := 1, E := 1]))],
                         [Flushing0(B, 0, map[D := [TB], E := [TA, TB]]), Flushing0(A, 1, map[D := [TB, TA], E := [TA]])]))
  {
    hide Reached, WorkerStep;
    BothBegin();
    Keys();
    var f, g := Flushing0(B, 0, map[]), Flushing0(A, 1, map[]);
    var db := Store(NEW, NEW, Doc(1, []), Doc(1, []), []);
    var a, b := Hand(B, NEW, map[], Advance), Hand(A, NEW, map[], Advance);
    Advances(db, a, "b");
    var a1 := Hand(B, NEW, map[], PrepareDocs(TB, {D, E}, map[]));
    MovedOne(db, a, b, f, g, db, a1);
    var db1 := Store(NEW, NEW, Doc(1, [TB]), Doc(1, []), []);
    var a2 := Hand(B, NEW, map[D := [TB]], PrepareDocs(TB, {E}, map[D := 1]));
    assert [] + [TB] == [TB];
    Prepares(db, a1, D, [TB], db1, a2);
    MovedOne(db, a1, b, f, g, db1, a2);
    var f1 := Flushing0(B, 0, map[D := [TB]]);
    Advances(db1, b, "a");
    var b1 := Hand(A, NEW, map[], PrepareDocs(TA, {D, E}, map[]));
    MovedOther(db1, a2, b, f1, g, db1, b1);
    var db2 := Store(NEW, NEW, Doc(1, [TB, TA]), Doc(1, []), []);
    var b2 := Hand(A, NEW, map[D := [TB, TA]], PrepareDocs(TA, {E}, map[D := 1]));
    assert [TB] + [TA] == [TB, TA];
    Prepares(db1, b1, D, [TB, TA], db2, b2);
    MovedOther(db1, a2, b1, f1, g, db2, b2);
    BothQueuedToo(db2, a2, b2, f1, Flushing0(A, 1, map[D := [TB, TA]]));
  }

  lemma BothQueuedToo(db2: Db, a2: Worker, b2: Worker, f1: Runner, g1: Runner)
    requires db2 == Store(NEW, NEW, Doc(1, [TB, TA]), Doc(1, []), []) && a2 == Hand(B, NEW, map[D := [TB]], PrepareDocs(TB, {E}, map[D := 1]))
    requires b2 == Hand(A, NEW, map[D := [TB, TA]], PrepareDocs(TA, {E}, map[D := 1]))
    requires f1 == Flushing0(B, 0, map[D := [TB]]) && g1 == Flushing0(A, 1, map[D := [TB, TA]]) && Reached(Make(db2, [a2, b2], [f1, g1]))
    ensures Reached(Make(Store(NEW, NEW, Doc(1, [TB, TA]), Doc(1, [TA, TB]), []),
                         [Hand(B, NEW, map[D := [TB], E := [TA, TB]], PrepareDocs(TB, {}, map[D := 1, E := 1])),
                          Hand(A, NEW, map[D := [TB, TA], E := [TA]], PrepareDocs(TA, {}, map[D := 1, E := 1]))],
                         [Flushing0(B, 0, map[D := [TB], E := [TA, TB]]), Flushing0(A, 1, map[D := [TB, TA], E := [TA]])]))
  {
    hide Reached, WorkerStep, DocKeys, Ordered;
    Keys();
    var db3 := Store(NEW, NEW, Doc(1, [TB, TA]), Doc(1, [TA]), []);
    var b3 := Hand(A, NEW, Q1, PrepareDocs(TA, {}, map[D := 1, E := 1]));
    QueuesA(db2, b2, db3, b3);
    MovedOther(db2, a2, b2, f1, g1, db3, b3);
    var db4 := Store(NEW, NEW, Doc(1, [TB, TA]), Doc(1, [TA, TB]), []);
    var a3 := Hand(B, NEW, Q0, PrepareDocs(TB, {}, map[D := 1, E := 1]));
    QueuesB(db3, a2, db4, a3);
    MovedOne(db3, a2, b3, f1, Flushing0(A, 1, Q1), db4, a3);
  }

  lemma QueuesA(db: Db, w: Worker, db': Db, w': Worker)
    requires db == Store(NEW, NEW, Doc(1, [TB, TA]), Doc(1, []), []) && db' == Store(NEW, NEW, Doc(1, [TB, TA]), Doc(1, [TA]), [])
    requires w == Hand(A, NEW, map[D := [TB, TA]], PrepareDocs(TA, {E}, map[D := 1]))
    requires w' == Hand(A, NEW, Q1, PrepareDocs(TA, {}, map[D := 1, E := 1]))
    ensures WorkerStep(db, w, db', w')
  {
    hide WorkerStep, DocKeys, Ordered;
    Keys();
    assert [] + [TA] == [TA];
    Prepares(db, w, E, [TA], db', w');
  }

  lemma QueuesB(db: Db, w: Worker, db': Db, w': Worker)
    requires db == Store(NEW, NEW, Doc(1, [TB, TA]), Doc(1, [TA]), []) && db' == Store(NEW, NEW, Doc(1, [TB, TA]), Doc(1, [TA, TB]), [])
    requires w == Hand(B, NEW, map[D := [TB]], PrepareDocs(TB, {E}, map[D := 1]))
    requires w' == Hand(B, NEW, Q0, PrepareDocs(TB, {}, map[D := 1, E := 1]))
    ensures WorkerStep(db, w, db', w')
  {
    hide WorkerStep, DocKeys, Ordered;
    Keys();
    assert [TA] + [TB] == [TA, TB];
    Prepares(db, w, E, [TA, TB], db', w');
  }




  ghost function Queued1(): (db: Db) {
    Store(PA, PB, Doc(1, [TB, TA]), Doc(1, [TA, TB]), [])
  }

  /** Both are prepared, and each waits for the other. */
  lemma BothPrepared()
    ensures Reached(Make(Queued1(), [Hand(B, PB, Q0, Returned(PreReqs)), Hand(A, PA, Q1, Returned(PreReqs))],
                         [Flushing0(B, 0, Q0), Flushing0(A, 1, Q1)]))
  {
    hide Reached, WorkerStep, FoundEverywhere, Blocked, DocKeys;
    BothQueued();
    Waiting();
    var f, g := Flushing0(B, 0, Q0), Flushing0(A, 1, Q1);
    var revno := map[D := 1, E := 1];
    var db := Store(NEW, NEW, Doc(1, [TB, TA]), Doc(1, [TA, TB]), []);
    var a, b := Hand(B, NEW, Q0, PrepareDocs(TB, {}, revno)), Hand(A, NEW, Q1, PrepareDocs(TA, {}, revno));
    var a1, b1 := Hand(B, NEW, Q0, SaveNonce(TB, revno)), Hand(A, NEW, Q1, SaveNonce(TA, revno));
    var a2, b2 := Hand(B, PB, Q0, Returned(PreReqs)), Hand(A, PA, Q1, Returned(PreReqs));
    var db1 := Store(NEW, PB, Doc(1, [TB, TA]), Doc(1, [TA, TB]), []);
    AllPrepared(db, a);
    MovedOne(db, a, b, f, g, db, a1);
    Saves(db, a1, E, PB, db1);
    MovedOne(db, a1, b, f, g, db1, a2);
    AllPrepared(db1, b);
    MovedOther(db1, a2, b, f, g, db1, b1);
    Saves(db1, b1, D, PA, Queued1());
    MovedOther(db1, a2, b1, f, g, Queued1(), b2);
  }

  /** What is before what in the queues that have been read. */
  lemma Waiting()
    ensures FoundEverywhere(Q0, TB, {D, E}) && FoundEverywhere(Q1, TA, {D, E}) && FoundEverywhere(Q, TA, {D, E}) && FoundEverywhere(Q, TB, {D, E})
    ensures Blocked(Cached(Q0, E), TB) && Blocked(Cached(Q1, D), TA) && Blocked(Cached(Q, E), TB) && Blocked(Cached(Q, D), TA)
    ensures TB !in Cached(Q1, E) && TB !in Cached(map[], D)
  {
  }

  /** The last of the workers moves. */
  lemma MovedLast(db: Db, before: seq<Worker>, w: Worker, rs: seq<Runner>, f: nat, db': Db, w': Worker)
    requires Reached(Make(db, before + [w], rs)) && f < |rs| && rs[f].current in rs[f].seen && rs[f].seen[rs[f].current] == |before|
    requires w.id in db.txns && WorkerStep(db, w, db', w')
    ensures Reached(Make(db', before + [w'], rs[f := rs[f].(queue := w'.queue)]))
  {
    hide Reached, WorkerStep;
    Moved(db, before + [w], rs, f, |before|, db', w');
    assert (before + [w])[|before| := w'] == before + [w'];
  }

  /** A flusher reads both queues for B and finds that it waits. */
  lemma ReadsForB(db: Db, before: seq<Worker>, rs: seq<Runner>, f: nat, queue: map<DocKey, seq<Token>>)
    requires A in db.txns && db.txns == map[A := db.txns[A], B := PB] && db.docs == map[D := Doc(1, [TB, TA]), E := Doc(1, [TA, TB])]
    requires Reached(Make(db, before + [Hand(B, PB, queue, Advance)], rs))
    requires f < |rs| && rs[f].current in rs[f].seen && rs[f].seen[rs[f].current] == |before| && rs[f].queue == queue
    requires queue == Q1 || queue == map[]
    ensures Reached(Make(db, before + [Hand(B, PB, Q, Returned(PreReqs))], rs[f := rs[f].(queue := Q)]))
  {
    hide Reached, WorkerStep, FoundEverywhere, Blocked, DocKeys;
    Waiting();
    Keys();
    var w := Hand(B, PB, queue, Advance);
    var w1 := Hand(B, PB, queue, Rescan({D, E}, map[], 0));
    Rescans(db, w, if queue == Q1 then E else D);
    MovedLast(db, before, w, rs, f, db, w1);
    assert rs[f].(queue := queue) == rs[f] && rs[f := rs[f]] == rs;
    ReadsOn(db, before, rs, f, queue);
  }

  lemma ReadsOn(db: Db, before: seq<Worker>, rs: seq<Runner>, f: nat, queue: map<DocKey, seq<Token>>)
    requires B in db.txns && db.docs == map[D := Doc(1, [TB, TA]), E := Doc(1, [TA, TB])] && (queue == Q1 || queue == map[])
    requires Reached(Make(db, before + [Hand(B, PB, queue, Rescan({D, E}, map[], 0))], rs))
    requires f < |rs| && rs[f].current in rs[f].seen && rs[f].seen[rs[f].current] == |before| && rs[f].queue == queue
    ensures Reached(Make(db, before + [Hand(B, PB, Q, Returned(PreReqs))], rs[f := rs[f].(queue := Q)]))
  {
    hide Reached, WorkerStep, DocKeys, Ordered, Make;
    Keys();
    var w1 := Hand(B, PB, queue, Rescan({D, E}, map[], 0));
    var q2 := queue[D := [TB, TA]];
    var w2, w3 := Hand(B, PB, q2, Rescan({E}, map[D := 1], 0)), Hand(B, PB, Q, Rescan({}, map[D := 1, E := 1], 0));
    Reads(db, w1, D, w2);
    MovedLast(db, before, w1, rs, f, db, w2);
    var rs2, rs3 := rs[f := rs[f].(queue := q2)], rs[f := rs[f].(queue := Q)];
    assert q2[E := [TA, TB]] == Q;
    Reads(db, w2, E, w3);
    MovedLast(db, before, w2, rs2, f, db, w3);
    assert rs2[f := rs2[f].(queue := Q)] == rs3;
    WaitsForA(db, before, rs3, f);
  }

  lemma WaitsForA(db: Db, before: seq<Worker>, rs: seq<Runner>, f: nat)
    requires B in db.txns && Reached(Make(db, before + [Hand(B, PB, Q, Rescan({}, map[D := 1, E := 1], 0))], rs))
    requires f < |rs| && rs[f].current in rs[f].seen && rs[f].seen[rs[f].current] == |before| && rs[f].queue == Q
    ensures Reached(Make(db, before + [Hand(B, PB, Q, Returned(PreReqs))], rs))
  {
    hide Reached, WorkerStep, FoundEverywhere, Blocked, DocKeys;
    Waiting();
    var w, w' := Hand(B, PB, Q, Rescan({}, map[D := 1, E := 1], 0)), Hand(B, PB, Q, Returned(PreReqs));
    Waits(db, w, E);
    MovedLast(db, before, w, rs, f, db, w');
    assert rs[f := rs[f].(queue := Q)] == rs;
  }

  lemma SettledForA()
    ensures Settle([] + [Frame(A, Ordered(OPS), [])], {A}, Q1) == [Frame(A, [E], [TB, TA])]
    ensures Settle([Frame(A, [E], [TA])] + [Frame(B, Ordered(OPS), [])], {A, B}, Q) == []
  {
    Keys();
    var a := Frame(A, [D, E], []);
    assert [] + [a] == [a];
    assert Replaced([a], Frame(A, [E], [TB, TA])) == [Frame(A, [E], [TB, TA])];
    assert [D, E][1..] == [E] && [E][1..] == [] && [TB, TA][1..] == [TA] && [TA, TB][1..] == [TB] && [TA][1..] == [] && [TB][1..] == [];
    SeenAll({A, B});
  }

  lemma SettledForB()
    ensures Settle([] + [Frame(B, Ordered(OPS), [])], {B}, Q) == [Frame(B, [E], [TA])]
  {
    Keys();
    var b, b1, b2 := Frame(B, [D, E], []), Frame(B, [E], [TB, TA]), Frame(B, [E], [TA]);
    assert [] + [b] == [b] && [D, E][1..] == [E] && [TB, TA][1..] == [TA];
    assert Replaced([b], b1) == [b1] && Replaced([b1], b2) == [b2];
    assert Settle([b2], {B}, Q) == [b2];
    assert Settle([b1], {B}, Q) == Settle([b2], {B}, Q);
    assert Settle([b], {B}, Q) == Settle([b1], {B}, Q);
  }

  /** Once both have been seen nothing is left. */
  lemma SeenAll(seen: set<Id>)
    requires seen == {A, B}
    ensures Settle([Frame(A, [E], [TA])] + [Frame(B, [D, E], [])], seen, Q) == []
  {
    SeenRest(seen);
    var a := Frame(A, [E], [TA]);
    assert [D, E][1..] == [E] && [E][1..] == [] && [TB, TA][1..] == [TA] && [TA, TB][1..] == [TB] && [TA][1..] == [] && [TB][1..] == [];
    var b0, b1, b2, b3 := Frame(B, [D, E], []), Frame(B, [E], [TB, TA]), Frame(B, [E], [TA]), Frame(B, [E], []);
    var b4, b5, b6 := Frame(B, [], [TA, TB]), Frame(B, [], [TB]), Frame(B, [], []);
    assert Replaced([a, b0], b1) == [a, b1] && Replaced([a, b1], b2) == [a, b2] && Replaced([a, b2], b3) == [a, b3];
    assert Replaced([a, b3], b4) == [a, b4] && Replaced([a, b4], b5) == [a, b5] && Replaced([a, b5], b6) == [a, b6];
    assert [a, b6][..1] == [a] && [a] + [b0] == [a, b0];
    SettleEntry([a, b5], seen);
    SettleEntry([a, b4], seen);
    SettleEntry([a, b2], seen);
    SettleEntry([a, b1], seen);
    assert Settle([a, b6], seen, Q) == Settle([a], seen, Q);
    assert Settle([a, b3], seen, Q) == Settle([a, b4], seen, Q);
    assert Settle([a, b0], seen, Q) == Settle([a, b1], seen, Q);
  }

  lemma SettleEntry(frames: seq<Frame>, seen: set<Id>)
    requires frames != []
    requires var top := frames[|frames| - 1]; top.entries != [] && top.entries[0].id in seen
    ensures var top := frames[|frames| - 1]; Settle(frames, seen, Q) == Settle(Replaced(frames, top.(entries := top.entries[1..])), seen, Q)
  {
  }

  lemma SeenRest(seen: set<Id>)
    requires seen == {A, B}
    ensures Settle([Frame(A, [E], [TA])], seen, Q) == []
  {
    assert [E][1..] == [] && [TA, TB][1..] == [TB] && [TA][1..] == [] && [TB][1..] == [];
    var a, a1, a2, a3, a4 := Frame(A, [E], [TA]), Frame(A, [E], []), Frame(A, [], [TA, TB]), Frame(A, [], [TB]), Frame(A, [], []);
    assert Replaced([a], a1) == [a1] && Replaced([a1], a2) == [a2] && Replaced([a2], a3) == [a3] && Replaced([a3], a4) == [a4] && [a4][..0] == [];
    assert Settle([a4], seen, Q) == Settle([], seen, Q);
    SettleEntry([a3], seen);
    SettleEntry([a2], seen);
    assert Settle([a1], seen, Q) == Settle([a2], seen, Q);
    SettleEntry([a], seen);
  }

  const PLAN: seq<Call> := [Call(A, PullIds({})), Call(B, PullIds({}))]

  function Second(phase: Phase, current: Id): (n: Runner) {
    Runner(A, map[A := 1, B := 2], Q, phase, current)
  }

  /** The flusher with the goal A has gone on to B. */
  lemma BothSeen()
    ensures Reached(Make(Queued1(), [Hand(B, PB, Q0, Returned(PreReqs)), Hand(A, PA, Q1, Returned(PreReqs)), Hand(B, PB, Q, Returned(PreReqs))],
                         [Flushing0(B, 0, Q0), Second(Recursing([Frame(A, [E], [TA])]), B)]))
  {
    hide Reached, Settle, Ordered;
    BothPrepared();
    SettledForA();
    var ws := [Hand(B, PB, Q0, Returned(PreReqs)), Hand(A, PA, Q1, Returned(PreReqs))];
    var rs := [Flushing0(B, 0, Q0), Flushing0(A, 1, Q1)];
    var left := [Frame(A, [E], [TB, TA])];
    assert map[A := 1].Keys == {A} && rs[1].seen == map[A := 1];
    Recursed(Queued1(), ws, rs, 1, 1, left, B);
    assert [TB, TA][1..] == [TA] && Replaced(left, Frame(A, [E], [TA])) == [Frame(A, [E], [TA])];
    var n := Runner(A, map[A := 1, B := 2], Q1, Recursing([Frame(A, [E], [TA])]), B);
    assert map[A := 1][B := 2] == map[A := 1, B := 2];
    assert rs[1 := n] == [rs[0], n];
    ReadsForB(Queued1(), ws, [rs[0], n], 1, Q1);
    assert ws + [Hand(B, PB, Q, Returned(PreReqs))] == [ws[0], ws[1], Hand(B, PB, Q, Returned(PreReqs))];
    assert [rs[0], n][1 := n.(queue := Q)] == [rs[0], n.(queue := Q)];
  }

  /** The plan that the sorting of the two gives: what Tarjan's algorithm has popped first. */
  lemma PlanIs()
    ensures Planned(map[A := "a", B := "b"], Q, A, PLAN)
  {
    var seen, queues := map[A := "a", B := "b"], [[TB, TA], [TA, TB]];
    assert ListsQueues(Q, queues) by { assert queues[0] == Q[D] && queues[1] == Q[E]; }
    InACircle(seen, queues);
    assert FlushOrder.Leads(seen, queues, A, B) && FlushOrder.Leads(seen, queues, B, A) by {
      assert IsAheadPath(seen, queues, [A, B]) && IsAheadPath(seen, queues, [B, A]);
      assert [A, B][0] == A && [B, A][0] == B;
    }
    assert Ids(PLAN) == [A, B];
    hide IsValid, Ahead, Queued, FlushOrder.Leads, ListsQueues;
    assert Ahead(seen, queues, B, A);
    assert HasPrerequisites(seen, queues, A);
    assert FlushesInOrder(seen, queues, PLAN);
  }

  /** Each is ahead of the other, and there is nothing else. */
  lemma InACircle(seen: map<Id, Nonce>, queues: seq<seq<Token>>)
    requires seen == map[A := "a", B := "b"] && queues == [[TB, TA], [TA, TB]]
    ensures forall u: Id, v: Id :: Ahead(seen, queues, u, v) <==> (u == A && v == B) || (u == B && v == A)
    ensures forall u: Id :: Queued(seen, queues, u) <==> u == A || u == B
  {
    var h, g := queues[0], queues[1];
    assert IsValid(seen, h[0]) && IsValid(seen, h[1]) && IsValid(seen, g[0]) && IsValid(seen, g[1]);
    assert Ahead(seen, queues, B, A) by { assert queues[0][0].id == B && queues[0][1].id == A; }
    assert Ahead(seen, queues, A, B) by { assert queues[1][0].id == A && queues[1][1].id == B; }
    assert Queued(seen, queues, A) && Queued(seen, queues, B);
    hide IsValid;
    forall u: Id, v: Id | Ahead(seen, queues, u, v) ensures (u == A && v == B) || (u == B && v == A) {
      OnlyTwo(seen, u, v);
    }
    hide Ahead;
    assert forall u: Id | Queued(seen, queues, u) :: u == A || u == B;
  }

  lemma OnlyTwo(seen: map<Id, Nonce>, u: Id, v: Id)
    requires Ahead(seen, [[TB, TA], [TA, TB]], u, v)
    ensures (u == A && v == B) || (u == B && v == A)
  {
    hide IsValid;
  }

  /** The flusher with the goal A has planned to flush A, and then B. */
  lemma PlanBegins()
    ensures Reached(Make(Queued1(), [Hand(B, PB, Q0, Returned(PreReqs)), Forced(A, PA, Q, Advance), Hand(B, PB, Q, Returned(PreReqs))],
                         [Flushing0(B, 0, Q0), Second(Flushing(PLAN, 1), A)]))
  {
    hide Reached, Settle, Ordered, Planned;
    BothSeen();
    SettledForA();
    PlanIs();
    var ws := [Hand(B, PB, Q0, Returned(PreReqs)), Hand(A, PA, Q1, Returned(PreReqs)), Hand(B, PB, Q, Returned(PreReqs))];
    var rs := [Flushing0(B, 0, Q0), Second(Recursing([Frame(A, [E], [TA])]), B)];
    assert map[A := 1, B := 2].Keys == {A, B};
    assert Nonces(System(Queued1(), Numbered(ws)), map[A := 1, B := 2]) == map[A := "a", B := "b"];
    PlanMade(Queued1(), ws, rs, 1, 2, 1, PLAN, 1);
    assert ws[1 := Forced(A, PA, Q, Advance)] == [ws[0], Forced(A, PA, Q, Advance), ws[2]];
    assert rs[1 := Second(Flushing(PLAN, 1), A)] == [rs[0], Second(Flushing(PLAN, 1), A)];
  }

  /** The worker between two others moves, without reading a queue anew. */
  lemma MovedMiddle(db: Db, a: Worker, w: Worker, b: Worker, f: Runner, g: Runner, db': Db, w': Worker)
    requires Reached(Make(db, [a, w, b], [f, g])) && g.current in g.seen && g.seen[g.current] == 1 && w.id in db.txns
    requires WorkerStep(db, w, db', w') && g.queue == w'.queue
    ensures Reached(Make(db', [a, w', b], [f, g]))
  {
    hide Reached, WorkerStep;
    Moved(db, [a, w, b], [f, g], 1, 1, db', w');
    assert [a, w, b][1 := w'] == [a, w', b] && [f, g][1 := g.(queue := w'.queue)] == [f, g];
  }

  ghost function Queued2(): (db: Db) {
    Store(XA, PB, Doc(1, [TB, TA]), Doc(1, [TA, TB]), [])
  }

  /** It has begun to apply A. */
  lemma ApplyingA()
    ensures Reached(Make(Queued2(), [Hand(B, PB, Q0, Returned(PreReqs)), Forced(A, XA, Q, Advance), Hand(B, PB, Q, Returned(PreReqs))],
                         [Flushing0(B, 0, Q0), Second(Flushing(PLAN, 1), A)]))
  {
    hide Reached, WorkerStep, FoundEverywhere, Blocked, DocKeys;
    PlanBegins();
    Waiting();
    Keys();
    var a, b := Hand(B, PB, Q0, Returned(PreReqs)), Hand(B, PB, Q, Returned(PreReqs));
    var f, g := Flushing0(B, 0, Q0), Second(Flushing(PLAN, 1), A);
    var db := Queued1();
    var w := Forced(A, PA, Q, Advance);
    var w1 := Forced(A, PA, Q, Rescan({D, E}, map[], 0));
    Rescans(db, w, D);
    MovedMiddle(db, a, w, b, f, g, db, w1);
    var w2 := Forced(A, PA, Q, Rescan({E}, map[D := 1], 0));
    Reads(db, w1, D, w2);
    MovedMiddle(db, a, w1, b, f, g, db, w2);
    var w3 := Forced(A, PA, Q, Rescan({}, map[D := 1, E := 1], 0));
    Reads(db, w2, E, w3);
    MovedMiddle(db, a, w2, b, f, g, db, w3);
    Proceeds(db, w3);
    var w4 := Forced(A, PA, Q, Assert(0, [1, 1]));
    MovedMiddle(db, a, w3, b, f, g, db, w4);
    ApplyingAToo(db, a, w4, b, f, g);
  }

  lemma ApplyingAToo(db: Db, a: Worker, w4: Worker, b: Worker, f: Runner, g: Runner)
    requires db == Queued1() && w4 == Forced(A, PA, Q, Assert(0, [1, 1])) && g == Second(Flushing(PLAN, 1), A)
    requires Reached(Make(db, [a, w4, b], [f, g]))
    ensures Reached(Make(Queued2(), [a, Forced(A, XA, Q, Advance), b], [f, g]))
  {
    hide Reached, WorkerStep;
    var w5, w6 := Forced(A, PA, Q, Assert(1, [1, 1])), Forced(A, PA, Q, Assert(2, [1, 1]));
    var w7, w8 := Forced(A, PA, Q, Checkpoint([1, 1])), Forced(A, XA, Q, Advance);
    Asserts(db, w4);
    MovedMiddle(db, a, w4, b, f, g, db, w5);
    Asserts(db, w5);
    MovedMiddle(db, a, w5, b, f, g, db, w6);
    Asserts(db, w6);
    MovedMiddle(db, a, w6, b, f, g, db, w7);
    Checkpoints(db, w7, XA, Queued2());
    MovedMiddle(db, a, w7, b, f, g, Queued2(), w8);
  }

  function Third(seen: map<Id, nat>, queue: map<DocKey, seq<Token>>, phase: Phase, current: Id): (n: Runner) {
    Runner(B, seen, queue, phase, current)
  }

  ghost function Four(): (ws: seq<Worker>) {
    [Hand(B, PB, Q0, Returned(PreReqs)), Forced(A, XA, Q, Advance), Hand(B, PB, Q, Returned(PreReqs)), Hand(B, PB, Q, Returned(PreReqs))]
  }

  const THIRD: Runner := Third(map[B := 3, A := 4], Q, Recursing([Frame(B, [E], [])]), A)

  /** Another flusher, with the goal B, comes to A and finds it being applied. */
  lemma FoundApplying()
    ensures Reached(Make(Queued2(), Four() + [Hand(A, XA, Q, Advance)], [Flushing0(B, 0, Q0), Second(Flushing(PLAN, 1), A), THIRD]))
  {
    hide Reached, Settle, Ordered;
    ApplyingA();
    SettledForB();
    var db := Queued2();
    var ws := [Hand(B, PB, Q0, Returned(PreReqs)), Forced(A, XA, Q, Advance), Hand(B, PB, Q, Returned(PreReqs))];
    var f, g := Flushing0(B, 0, Q0), Second(Flushing(PLAN, 1), A);
    Began(db, ws, [f, g], B);
    var h := Third(map[B := 3], map[], Recursing([]), B);
    assert [f, g] + [h] == [f, g, h];
    ReadsForB(db, ws, [f, g, h], 2, map[]);
    var h1 := h.(queue := Q);
    assert [f, g, h][2 := h1] == [f, g, h1] && ws + [Hand(B, PB, Q, Returned(PreReqs))] == Four();
    var left := [Frame(B, [E], [TA])];
    assert map[B := 3].Keys == {B};
    Recursed(db, Four(), [f, g, h1], 2, 3, left, A);
    assert [TA][1..] == [] && Replaced(left, Frame(B, [E], [])) == [Frame(B, [E], [])];
    assert map[B := 3][A := 4] == map[B := 3, A := 4];
    assert [f, g, h1][2 := THIRD] == [f, g, THIRD];
  }

  const ON_D: Effect := Effect(A, 0, D, 1)
  const ON_E: Effect := Effect(A, 1, E, 1)

  /** It has applied A on the first document, and pulled what was ahead of it there. */
  ghost function Queued3(): (db: Db) {
    Store(XA, PB, Doc(2, []), Doc(1, [TA, TB]), [ON_D])
  }

  lemma PulledBoth()
    ensures Pulled(map[A := "a"], [TB, TA], None) == [TB, TA] && PullAll([TB, TA], [TB, TA]) == []
    ensures Pulled(map[], [TA, TB], None) == [] && PullAll([TA, TB], []) == [TA, TB]
  {
    assert [TB, TA][1..] == [TA] && [TA][1..] == [] && [TA, TB][1..] == [TB] && [TB][1..] == [];
    assert [TA, TB][..1] == [TA] && [TA][..0] == [];
    assert PullAll([TA], [TB, TA]) == [];
    assert PullAll([], []) == [] && PullAll([TB], []) == [TB] + PullAll([TB][1..], []);
    assert PullAll([TA, TB], []) == [TA] + PullAll([TA, TB][1..], []);
    assert Pulled(map[], [], None) == [] && Pulled(map[], [TA], None) == Pulled(map[], [TA][..0], None);
    assert Pulled(map[], [TA, TB], None) == Pulled(map[], [TA, TB][..1], None);
  }

  lemma TakesD()
    ensures var w := Hand(A, XA, Q, Apply(0));
      IsPullOp(OPS, 0) && TakesEffect(Queued2(), w, 0) && PullOrSelf(w) == map[A := "a"] && Queued2().docs[D := Doc(2, [])] == Queued3().docs
  {
  }

  lemma AppliesD(db: Db, w: Worker)
    requires db == Queued2() && w == Hand(A, XA, Q, Apply(0))
    ensures WorkerStep(db, w, Queued3(), w.(pc := Apply(1)))
  {
    hide Pulled, PullAll, TakesEffect, IsPullOp, PullOrSelf;
    PulledBoth();
    TakesD();
    assert [] + [ON_D] == [ON_D];
    assert ApplyStep(db, w, Queued3(), w.(pc := Apply(1)));
  }

  lemma TokenTaken()
    ensures Reached(Make(Queued3(), Four() + [Hand(A, XA, Q, Apply(1))], RUNNERS))
  {
    hide Reached, WorkerStep;
    FoundApplying();
    var rs := RUNNERS;
    assert rs[2 := rs[2].(queue := Q)] == rs && |Four()| == 4;
    Applies(Queued2(), Hand(A, XA, Q, Advance));
    MovedLast(Queued2(), Four(), Hand(A, XA, Q, Advance), rs, 2, Queued2(), Hand(A, XA, Q, Apply(0)));
    AppliesD(Queued2(), Hand(A, XA, Q, Apply(0)));
    MovedLast(Queued2(), Four(), Hand(A, XA, Q, Apply(0)), rs, 2, Queued3(), Hand(A, XA, Q, Apply(1)));
  }

  /** One of five workers moves, without reading a queue anew. */
  lemma MovedAmong(db: Db, ws: seq<Worker>, rs: seq<Runner>, r: nat, db': Db, w: Worker)
    requires Reached(Make(db, ws, rs)) && |rs| == 3 && rs[1].current in rs[1].seen && rs[1].seen[rs[1].current] == r < |ws|
    requires ws[r].id in db.txns && WorkerStep(db, ws[r], db', w) && w.queue == rs[1].queue
    ensures Reached(Make(db', ws[r := w], rs))
  {
    hide Reached, WorkerStep;
    Moved(db, ws, rs, 1, r, db', w);
    assert rs[1 := rs[1].(queue := w.queue)] == rs;
  }

  ghost function Five(a: Worker, b: Worker): (ws: seq<Worker>) {
    [Hand(B, PB, Q0, Returned(PreReqs)), a, b, Hand(B, PB, Q, Returned(PreReqs)), Hand(A, XA, Q, Apply(1))]
  }

  const DONE: Txn := XA.(state := Applied)

  /** A is applied; B is prepared, and its token is gone from the first document. */
  ghost function Queued4(): (db: Db) {
    Store(DONE, PB, Doc(2, []), Doc(2, [TA, TB]), [ON_D, ON_E])
  }

  lemma MissesD(db: Db, w: Worker)
    requires db == Queued3() && w == Forced(A, XA, Q, Apply(0))
    ensures WorkerStep(db, w, db, w.(pc := Apply(1)))
  {
    assert !TakesEffect(db, w, 0);
    hide TakesEffect;
  }

  ghost function AfterE(): (db: Db) {
    Store(XA, PB, Doc(2, []), Doc(2, [TA, TB]), [ON_D, ON_E])
  }

  lemma TakesE()
    ensures var w := Forced(A, XA, Q, Apply(1));
      IsPullOp(OPS, 1) && TakesEffect(Queued3(), w, 1) && PullOrSelf(w) == map[] && Queued3().docs[E := Doc(2, [TA, TB])] == AfterE().docs
  {
  }

  lemma AppliesE(db: Db, w: Worker)
    requires db == Queued3() && w == Forced(A, XA, Q, Apply(1))
    ensures WorkerStep(db, w, AfterE(), w.(pc := Apply(2)))
  {
    hide Pulled, PullAll, TakesEffect, IsPullOp, PullOrSelf;
    PulledBoth();
    TakesE();
    assert [ON_D] + [ON_E] == [ON_D, ON_E];
    assert ApplyStep(db, w, AfterE(), w.(pc := Apply(2)));
  }

  lemma AppliesAll(db: Db, w: Worker)
    requires w.pc == Apply(2) && w.t == XA && w.id in db.txns
    ensures WorkerStep(db, w, db, w.(t := DONE, pc := SetApplied))
  {
  }

  lemma SetsApplied(db: Db, w: Worker, db': Db)
    requires w.pc == SetApplied && w.id in db.txns && db.txns[w.id] == XA && db' == db.(txns := db'.txns) && db'.txns == db.txns[w.id := DONE]
    ensures WorkerStep(db, w, db', w.(pc := Returned(Ok)))
  {
  }

  const RUNNERS: seq<Runner> := [Flushing0(B, 0, Q0), Second(Flushing(PLAN, 1), A), THIRD]

  /** The flusher with the goal A goes on with A. */
  lemma MovedA(db: Db, w: Worker, b: Worker, db': Db, w': Worker)
    requires Reached(Make(db, Five(w, b), RUNNERS)) && w.id in db.txns && WorkerStep(db, w, db', w') && w'.queue == Q
    ensures Reached(Make(db', Five(w', b), RUNNERS))
  {
    hide Reached, WorkerStep;
    MovedAmong(db, Five(w, b), RUNNERS, 1, db', w');
    assert Five(w, b)[1 := w'] == Five(w', b);
  }

  /** And the same with B. */
  lemma MovedB(db: Db, a: Worker, w: Worker, queue: map<DocKey, seq<Token>>, db': Db, w': Worker)
    requires Reached(Make(db, Five(a, w), Afterwards(queue))) && w.id in db.txns && WorkerStep(db, w, db', w')
    ensures Reached(Make(db', Five(a, w'), Afterwards(w'.queue)))
  {
    hide Reached, WorkerStep;
    Moved(db, Five(a, w), Afterwards(queue), 1, 2, db', w');
    assert Five(a, w)[2 := w'] == Five(a, w') && Afterwards(queue)[1 := Afterwards(queue)[1].(queue := w'.queue)] == Afterwards(w'.queue);
  }

  function Afterwards(queue: map<DocKey, seq<Token>>): (rs: seq<Runner>) {
    [Flushing0(B, 0, Q0), Runner(A, map[A := 1, B := 2], queue, Flushing(PLAN, 2), B), THIRD]
  }

  lemma AppliedA()
    ensures Reached(Make(Queued4(), Five(Forced(A, DONE, Q, Returned(Ok)), Hand(B, PB, Q, Returned(PreReqs))), RUNNERS))
  {
    hide Reached, WorkerStep, Five, Make;
    TokenTaken();
    var b := Hand(B, PB, Q, Returned(PreReqs));
    var w0, w1, w2 := Forced(A, XA, Q, Advance), Forced(A, XA, Q, Apply(0)), Forced(A, XA, Q, Apply(1));
    var w3, w4, w5 := Forced(A, XA, Q, Apply(2)), Forced(A, DONE, Q, SetApplied), Forced(A, DONE, Q, Returned(Ok));
    var db := Queued3();
    FiveIs(w0, b);
    Applies(db, w0);
    MovedA(db, w0, b, db, w1);
    MissesD(db, w1);
    MovedA(db, w1, b, db, w2);
    AppliesE(db, w2);
    MovedA(db, w2, b, AfterE(), w3);
    AppliesAll(AfterE(), w3);
    MovedA(AfterE(), w3, b, AfterE(), w4);
    SetsApplied(AfterE(), w4, Queued4());
    MovedA(AfterE(), w4, b, Queued4(), w5);
  }

  lemma FiveIs(w: Worker, b: Worker)
    requires w == Forced(A, XA, Q, Advance) && b == Hand(B, PB, Q, Returned(PreReqs))
    ensures Four() + [Hand(A, XA, Q, Apply(1))] == Five(w, b)
  {
  }

  lemma Misses(db: Db, w: Worker)
    requires w.pc == RescanMissed && w.id in db.txns && db.txns[w.id].state == Prepared && db.txns[w.id] == w.t
    ensures WorkerStep(db, w, db, w.(pc := Returned(TokenLost)))
  {
  }

  /** The plan goes on with B, which is prepared and misses its token: a course of runners, and so a run of the protocol, in
      which rescan panics. */
  lemma TokenIsLost() returns (run: seq<Machine>, r: nat)
    ensures IsCourse(run) && IsRun(Systems(run))
    ensures var s := run[|run| - 1].s;
      && r in s.workers && s.workers[r].pc == Returned(TokenLost) && s.workers[r].id == B
      && B in s.db.txns && s.db.txns[B] == PB && D in DocKeys(PB.ops) && D in s.db.docs && TB !in s.db.docs[D].queue
  {
    hide Reached, WorkerStep, Five, IsCourse, IsRun;
    AppliedA();
    Keys();
    var db := Queued4();
    var a, b, b0 := Forced(A, DONE, Q, Returned(Ok)), Hand(B, PB, Q, Returned(PreReqs)), Forced(B, PB, Q, Advance);
    GoesOnWithB();
    var b1, b2 := Forced(B, PB, Q, Rescan({D, E}, map[], 0)), Forced(B, PB, map[D := [], E := [TA, TB]], RescanMissed);
    Rescans(db, b0, D);
    MovedB(db, a, b0, Q, db, b1);
    Reads(db, b1, D, b2);
    MovedB(db, a, b1, Q, db, b2);
    var b3 := b2.(pc := Returned(TokenLost));
    Misses(db, b2);
    MovedB(db, a, b2, b2.queue, db, b3);
    r := 2;
    run := TheRun(Make(db, Five(a, b3), Afterwards(b3.queue)));
    CourseIsRun(run);
    FiveAt(a, b3);
  }

  lemma FiveAt(a: Worker, b: Worker)
    ensures |Five(a, b)| == 5 && Five(a, b)[2] == b
  {
  }

  /** Behind A the plan has B. */
  lemma GoesOnWithB()
    ensures Reached(Make(Queued4(), Five(Forced(A, DONE, Q, Returned(Ok)), Forced(B, PB, Q, Advance)), Afterwards(Q)))
  {
    hide Reached;
    AppliedA();
    var a, b, b0 := Forced(A, DONE, Q, Returned(Ok)), Hand(B, PB, Q, Returned(PreReqs)), Forced(B, PB, Q, Advance);
    FlushGoesOn(Queued4(), Five(a, b), RUNNERS, 1, 1, PLAN, 1, 2);
    assert Five(a, b)[2 := b0] == Five(a, b0);
    assert RUNNERS[1 := Runner(A, map[A := 1, B := 2], Q, Flushing(PLAN, 2), B)] == Afterwards(Q);
  }

  lemma TheRun(m: Machine) returns (run: seq<Machine>)
    requires Reached(m)
    ensures IsCourse(run) && run[|run| - 1] == m
  {
    run :| IsCourse(run) && run[|run| - 1] == m;
  }
}
