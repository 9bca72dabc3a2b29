/** What is decided over a transaction, and what it does: on which revisions its operations run, which assertions lead to
    which end, and what an applied transaction has changed. */
module Decisions {
  import opened Basics
  import opened Graphs
  import opened FlushOrder
  import opened Pulling
  import opened Flusher

  // ---- the revisions of operations

  /** No operation on the same document comes before this one. */
  predicate IsFirst(ops: seq<Op>, j: nat)
    requires j < |ops|
  {
    forall h | 0 <= h < j :: ops[h].doc != ops[j].doc
  }

  /** The number of updates on `d` among the first `k` operations. */
  function UpdatesBefore(ops: seq<Op>, d: DocKey, k: nat): (n: nat)
    requires k <= |ops|
  {
    if k == 0 then 0 else UpdatesBefore(ops[1..], d, k - 1) + (if ops[0].doc == d && ops[0].update then 1 else 0)
  }

  /** A document that there is was read at `n`; one that is missing reads as -1. */
  ghost predicate ReadAt(db: Db, d: DocKey, n: int) {
    if d in db.docs then 0 <= n <= db.docs[d].revno else n == -1
  }

  ghost predicate AllRead(db: Db, revno: map<DocKey, int>) {
    forall d | d in revno :: ReadAt(db, d, revno[d])
  }

  /** Each operation runs on the revision that was read of its document, moved on by the updates before it; of a missing
      document some count these and some do not. */
  ghost predicate RevnosRead(db: Db, ops: seq<Op>, revnos: seq<int>)
    requires |revnos| == |ops|
  {
    forall j, k | 0 <= j <= k < |ops| && ops[j].doc == ops[k].doc && IsFirst(ops, j) ::
         && ReadAt(db, ops[k].doc, revnos[j])
         && (|| revnos[k] == revnos[j] + UpdatesBefore(ops, ops[k].doc, k)
             || (ops[k].doc !in db.docs && revnos[k] == -1))
  }

  lemma {:induction false} PreparedAt(ops: seq<Op>, revno: map<DocKey, int>, k: nat)
    requires k < |ops|
    ensures var n := RevnoOf(revno, ops[k].doc);
      PrepareRevnos(ops, revno)[k] == if n >= 0 then n + UpdatesBefore(ops, ops[k].doc, k) else n
  {
    var d, n := ops[0].doc, RevnoOf(revno, ops[0].doc);
    if k > 0 {
      assert ops[1..][k - 1] == ops[k];
      PreparedAt(ops[1..], if ops[0].update && n >= 0 then revno[d := n + 1] else revno, k - 1);
    }
  }

  lemma {:induction false} RescannedAt(ops: seq<Op>, revno: map<DocKey, int>, k: nat)
    requires k < |ops|
    ensures RescanRevnos(ops, revno)[k] == RevnoOf(revno, ops[k].doc) + UpdatesBefore(ops, ops[k].doc, k)
  {
    var d, n := ops[0].doc, RevnoOf(revno, ops[0].doc);
    if k > 0 {
      assert ops[1..][k - 1] == ops[k];
      RescannedAt(ops[1..], if ops[0].update then revno[d := n + 1] else revno, k - 1);
    }
  }

  lemma {:induction false} NoneBeforeFirst(ops: seq<Op>, d: DocKey, k: nat)
    requires k <= |ops| && forall h | 0 <= h < k :: ops[h].doc != d
    ensures UpdatesBefore(ops, d, k) == 0
  {
    if k > 0 {
      assert forall h | 0 <= h < k - 1 :: ops[1..][h] == ops[h + 1];
      NoneBeforeFirst(ops[1..], d, k - 1);
    }
  }

  lemma PreparedRead(db: Db, ops: seq<Op>, revno: map<DocKey, int>)
    requires AllRead(db, revno) && DocKeys(ops) <= revno.Keys
    ensures RevnosRead(db, ops, PrepareRevnos(ops, revno))
  {
    hide UpdatesBefore;
    forall j, k | 0 <= j <= k < |ops| && ops[j].doc == ops[k].doc && IsFirst(ops, j)
      ensures ReadAt(db, ops[k].doc, PrepareRevnos(ops, revno)[j])
      ensures var revnos := PrepareRevnos(ops, revno);
        || revnos[k] == revnos[j] + UpdatesBefore(ops, ops[k].doc, k)
        || (ops[k].doc !in db.docs && revnos[k] == -1)
    {
      NoneBeforeFirst(ops, ops[j].doc, j);
      PreparedAt(ops, revno, j);
      PreparedAt(ops, revno, k);
      assert ops[k].doc in DocKeys(ops);
    }
  }

  lemma RescannedRead(db: Db, ops: seq<Op>, revno: map<DocKey, int>)
    requires AllRead(db, revno) && DocKeys(ops) <= revno.Keys
    ensures RevnosRead(db, ops, RescanRevnos(ops, revno))
  {
    hide UpdatesBefore;
    forall j, k | 0 <= j <= k < |ops| && ops[j].doc == ops[k].doc && IsFirst(ops, j)
      ensures ReadAt(db, ops[k].doc, RescanRevnos(ops, revno)[j])
      ensures RescanRevnos(ops, revno)[k] == RescanRevnos(ops, revno)[j] + UpdatesBefore(ops, ops[k].doc, k)
    {
      NoneBeforeFirst(ops, ops[j].doc, j);
      RescannedAt(ops, revno, j);
      RescannedAt(ops, revno, k);
      assert ops[k].doc in DocKeys(ops);
    }
  }

  // ---- assertions

  /** The document of operation `k` was there at the revision read, and it met the condition then. */
  ghost predicate MetAt(db: Db, ops: seq<Op>, revnos: seq<int>, k: nat, condition: Option<nat>)
    requires k < |ops| == |revnos|
  {
    forall j | 0 <= j <= k && ops[j].doc == ops[k].doc && IsFirst(ops, j) ::
      && ops[k].doc in db.docs && 0 <= revnos[j] <= db.docs[ops[k].doc].revno
      && (condition.Some? ==> Meeting(ops[k].doc, revnos[j], condition.value) in db.content)
  }

  /** The document of operation `k` is missing, or has moved on from the revision read, or did not meet the condition then. */
  ghost predicate UnmetAt(db: Db, ops: seq<Op>, revnos: seq<int>, k: nat, condition: Option<nat>)
    requires k < |ops| == |revnos|
  {
    forall j | 0 <= j <= k && ops[j].doc == ops[k].doc && IsFirst(ops, j) ::
      || ops[k].doc !in db.docs
      || revnos[j] < db.docs[ops[k].doc].revno
      || (condition.Some? && Meeting(ops[k].doc, revnos[j], condition.value) !in db.content)
  }

  /** What the assertion of operation `k` asks for. */
  ghost predicate Satisfied(db: Db, ops: seq<Op>, revnos: seq<int>, k: nat)
    requires k < |ops| == |revnos|
  {
    match ops[k].query
    case NoQuery => true
    case DocMissing => revnos[k] < 0
    case DocExists => MetAt(db, ops, revnos, k, None)
    case Content(c) => MetAt(db, ops, revnos, k, Some(c))
  }

  /** Why it fails. */
  ghost predicate Refuted(db: Db, ops: seq<Op>, revnos: seq<int>, k: nat)
    requires k < |ops| == |revnos|
  {
    match ops[k].query
    case NoQuery => false
    case DocMissing => revnos[k] >= 0
    case DocExists => UnmetAt(db, ops, revnos, k, None)
    case Content(c) => UnmetAt(db, ops, revnos, k, Some(c))
  }

  ghost predicate SatisfiedUpTo(db: Db, ops: seq<Op>, revnos: seq<int>, n: nat) {
    && |revnos| == |ops| && RevnosRead(db, ops, revnos) && n <= |ops|
    && forall k | 0 <= k < n :: Satisfied(db, ops, revnos, k)
  }

  ghost predicate RefutedSomewhere(db: Db, ops: seq<Op>, revnos: seq<int>) {
    && |revnos| == |ops| && RevnosRead(db, ops, revnos)
    && exists k | 0 <= k < |ops| :: Refuted(db, ops, revnos, k)
  }

  // ---- what holds at every moment

  ghost predicate RecordDecided(db: Db, t: Txn) {
    && (t.state == Applying || t.state == Applied ==> t.revnos.Some? && SatisfiedUpTo(db, t.ops, t.revnos.value, |t.ops|))
    && (t.state == Aborting || t.state == Aborted ==> exists revnos :: RefutedSomewhere(db, t.ops, revnos))
  }

  ghost predicate PcDecided(db: Db, w: Worker) {
    match w.pc
    case PrepareDocs(_, _, revno) => AllRead(db, revno)
    case ConfirmStash(_, _, _, revno) => AllRead(db, revno)
    case Unstash(_, _, _, revno) => AllRead(db, revno)
    case SaveNonce(_, revno) => AllRead(db, revno)
    case NonceLost(revno) => AllRead(db, revno)
    case Rescan(_, revno, _) => AllRead(db, revno)
    case RescanGone(_, revno, _) => AllRead(db, revno)
    case Assert(i, revnos) => SatisfiedUpTo(db, w.t.ops, revnos, i)
    case SetAborting(revnos) => RefutedSomewhere(db, w.t.ops, revnos)
    case Checkpoint(revnos) => SatisfiedUpTo(db, w.t.ops, revnos, |w.t.ops|)
    case _ => true
  }

  ghost predicate Decided(s: System) {
    && (forall id | id in s.db.txns :: RecordDecided(s.db, s.db.txns[id]))
    && (forall r | r in s.workers :: PcDecided(s.db, s.workers[r]))
  }

  /** What revisions and documents may do: none goes away, and none goes back. */
  ghost predicate Later(db: Db, db': Db) {
    && db'.docs.Keys == db.docs.Keys && db'.content == db.content
    && forall d | d in db.docs :: db.docs[d].revno <= db'.docs[d].revno
  }

  lemma ProgressIsLater(db: Db, db': Db)
    requires Progress(db, db')
    ensures Later(db, db')
  {
  }

  lemma StaysRead(db: Db, db': Db, ops: seq<Op>, revnos: seq<int>)
    requires Later(db, db') && |revnos| == |ops| && RevnosRead(db, ops, revnos)
    ensures RevnosRead(db', ops, revnos)
  {
    hide UpdatesBefore, IsFirst;
  }

  lemma StaysSatisfied(db: Db, db': Db, ops: seq<Op>, revnos: seq<int>, n: nat)
    requires Later(db, db') && SatisfiedUpTo(db, ops, revnos, n)
    ensures SatisfiedUpTo(db', ops, revnos, n)
  {
    hide IsFirst, RevnosRead;
    StaysRead(db, db', ops, revnos);
    forall k | 0 <= k < n ensures Satisfied(db', ops, revnos, k) {
      assert Satisfied(db, ops, revnos, k);
    }
  }

  lemma StaysRefuted(db: Db, db': Db, ops: seq<Op>, revnos: seq<int>)
    requires Later(db, db') && RefutedSomewhere(db, ops, revnos)
    ensures RefutedSomewhere(db', ops, revnos)
  {
    hide IsFirst, RevnosRead;
    StaysRead(db, db', ops, revnos);
    var k :| 0 <= k < |ops| && Refuted(db, ops, revnos, k);
    assert Refuted(db', ops, revnos, k);
  }

  lemma StaysDecided(db: Db, db': Db, t: Txn)
    requires Later(db, db') && RecordDecided(db, t)
    ensures RecordDecided(db', t)
  {
    hide SatisfiedUpTo, RefutedSomewhere;
    if t.state == Applying || t.state == Applied {
      StaysSatisfied(db, db', t.ops, t.revnos.value, |t.ops|);
    }
    if t.state == Aborting || t.state == Aborted {
      var revnos :| RefutedSomewhere(db, t.ops, revnos);
      StaysRefuted(db, db', t.ops, revnos);
    }
  }

  lemma PcStaysDecided(db: Db, db': Db, w: Worker)
    requires Later(db, db') && PcDecided(db, w)
    ensures PcDecided(db', w)
  {
    hide SatisfiedUpTo, RefutedSomewhere;
    match w.pc {
      case Assert(i, revnos) => StaysSatisfied(db, db', w.t.ops, revnos, i);
      case Checkpoint(revnos) => StaysSatisfied(db, db', w.t.ops, revnos, |w.t.ops|);
      case SetAborting(revnos) => StaysRefuted(db, db', w.t.ops, revnos);
      case _ =>
    }
  }

  // ---- one step

  /** What prepare goes on with. */
  lemma AfterNonceDecided(db: Db, w: Worker, tt: Token, revno: map<DocKey, int>)
    requires AllRead(db, revno) && DocKeys(w.t.ops) <= revno.Keys
    ensures PcDecided(db, w.(pc := AfterNonce(w, tt, revno)))
  {
    hide FoundEverywhere, HasPrereqs, RevnosRead;
    PreparedRead(db, w.t.ops, revno);
  }

  /** The revision that an assertion looks at is the one read of its document. */
  lemma FirstIs(db: Db, ops: seq<Op>, revnos: seq<int>, i: nat)
    requires |revnos| == |ops| && RevnosRead(db, ops, revnos) && i < |ops|
    ensures ReadAt(db, ops[i].doc, revnos[FirstOn(ops, i)]) && IsFirst(ops, FirstOn(ops, i))
    ensures forall j | 0 <= j <= i && ops[j].doc == ops[i].doc && IsFirst(ops, j) :: j == FirstOn(ops, i)
  {
    hide FirstOn, UpdatesBefore;
    var j := FirstOn(ops, i);
    assert IsFirst(ops, j) && ops[j].doc == ops[i].doc && j <= i;
  }

  lemma AssertDecided(db: Db, w: Worker, w': Worker)
    requires WorkerOk(db, w) && w.pc.Assert? && AssertStep(db, w, w') && PcDecided(db, w)
    ensures PcDecided(db, w')
  {
    hide RevnosRead, FirstOn, CopyOk, IsFirst, FirstOn;
    var i, revnos, ops := w.pc.i, w.pc.revnos, w.t.ops;
    if i < |ops| {
      FirstIs(db, ops, revnos, i);
      hide Satisfied, Refuted, MetAt, UnmetAt;
      AssertedOne(db, w, w');
    }
  }

  lemma AssertedOne(db: Db, w: Worker, w': Worker)
    requires WorkerOk(db, w) && w.pc.Assert? && AssertStep(db, w, w') && w.pc.i < |w.t.ops|
    requires ReadAt(db, w.t.ops[w.pc.i].doc, w.pc.revnos[FirstOn(w.t.ops, w.pc.i)])
    requires forall j | 0 <= j <= w.pc.i && w.t.ops[j].doc == w.t.ops[w.pc.i].doc && IsFirst(w.t.ops, j) :: j == FirstOn(w.t.ops, w.pc.i)
    ensures || (w'.pc == Assert(w.pc.i + 1, w.pc.revnos) && Satisfied(db, w.t.ops, w.pc.revnos, w.pc.i))
            || (w'.pc == SetAborting(w.pc.revnos) && Refuted(db, w.t.ops, w.pc.revnos, w.pc.i))
    ensures w'.t == w.t
  {
    hide FirstOn, CopyOk, IsFirst;
  }

  lemma PreparingDecided(db: Db, w: Worker, db': Db, w': Worker)
    requires WorkerOk(db, w) && PcDecided(db, w) && WorkerStep(db, w, db', w') && Later(db, db')
    requires w.pc.PrepareDocs? || w.pc.ConfirmStash? || w.pc.Unstash?
    ensures PcDecided(db', w')
  {
    hide CopyOk, AddToSet, PullAll, Collected;
  }

  lemma RescanDecided(db: Db, w: Worker, db': Db, w': Worker)
    requires WorkerOk(db, w) && PcDecided(db, w) && WorkerStep(db, w, db', w') && Later(db, db')
    requires w.pc.Rescan? || w.pc.RescanGone?
    ensures PcDecided(db', w')
  {
    hide CopyOk, HasPrereqs, FoundEverywhere, RevnosRead, RescanRevnos;
    if w.pc.Rescan? && w.pc.todo == {} {
      RescannedRead(db, w.t.ops, w.pc.revno);
    }
  }

  lemma NonceDecided(db: Db, w: Worker, db': Db, w': Worker)
    requires DbOk(db) && WorkerOk(db, w) && PcDecided(db, w) && WorkerStep(db, w, db', w') && Later(db, db')
    requires w.pc.SaveNonce? || w.pc.NonceLost?
    ensures PcDecided(db', w')
  {
    hide CopyOk, HasPrereqs, FoundEverywhere, RevnosRead, DbOk, AfterNonce;
    var ops := w.t.ops;
    if w.pc.SaveNonce? {
      var w1 := w.(t := w.t.(state := Prepared, nonce := Some(w.pc.tt.nonce)));
      AfterNonceDecided(db', w1, w.pc.tt, w.pc.revno);
    } else {
      var w1 := Reload(db, w);
      if w1.t.nonce.Some? {
        AfterNonceDecided(db', w1, Token(w.id, w1.t.nonce.value), w.pc.revno);
      }
    }
  }

  lemma AdvanceDecided(db: Db, w: Worker, db': Db, w': Worker)
    requires WorkerOk(db, w) && WorkerStep(db, w, db', w') && w.pc.Advance?
    ensures PcDecided(db', w')
  {
    hide CopyOk, HasPrereqs, FoundEverywhere;
  }

  /** Behind the decision there is nothing more to decide. */
  lemma OthersDecided(db: Db, w: Worker, db': Db, w': Worker)
    requires WorkerOk(db, w) && WorkerStep(db, w, db', w')
    requires match w.pc
      case Advance => false
      case PrepareDocs(_, _, _) => false
      case ConfirmStash(_, _, _, _) => false
      case Unstash(_, _, _, _) => false
      case Rescan(_, _, _) => false
      case RescanGone(_, _, _) => false
      case SaveNonce(_, _) => false
      case NonceLost(_) => false
      case Assert(_, _) => false
      case _ => true
    ensures PcDecided(db', w')
  {
    hide CopyOk, TakesEffect, Pulled, PullAll, IsPullOp, FirstOn, TxnOk;
  }

  lemma StepPcDecided(db: Db, w: Worker, db': Db, w': Worker)
    requires DbOk(db) && WorkerOk(db, w) && PcDecided(db, w) && WorkerStep(db, w, db', w') && Later(db, db')
    ensures PcDecided(db', w')
  {
    hide *;
    match w.pc {
      case Advance => AdvanceDecided(db, w, db', w');
      case PrepareDocs(_, _, _) => PreparingDecided(db, w, db', w');
      case ConfirmStash(_, _, _, _) => PreparingDecided(db, w, db', w');
      case Unstash(_, _, _, _) => PreparingDecided(db, w, db', w');
      case Rescan(_, _, _) => RescanDecided(db, w, db', w');
      case RescanGone(_, _, _) => RescanDecided(db, w, db', w');
      case SaveNonce(_, _) => NonceDecided(db, w, db', w');
      case NonceLost(_) => NonceDecided(db, w, db', w');
      case Assert(_, _) => Known(db, w); AssertStays(db, w, db', w'); AssertDecided(db, w, w');
      case _ => OthersDecided(db, w, db', w');
    }
  }

  lemma AssertStays(db: Db, w: Worker, db': Db, w': Worker)
    requires w.id in db.txns && w.pc.Assert? && WorkerStep(db, w, db', w')
    ensures db' == db && AssertStep(db, w, w')
  {
  }

  /** A step changes no record but that of its own transaction. */
  lemma StepRecord(db: Db, w: Worker, db': Db, w': Worker)
    requires WorkerOk(db, w) && PcDecided(db, w) && WorkerStep(db, w, db', w')
    requires Later(db, db') && forall id | id in db.txns :: RecordDecided(db, db.txns[id])
    ensures forall id | id in db'.txns :: RecordDecided(db', db'.txns[id])
  {
    Known(db, w);
    StepTouches(db, w, db', w');
    hide WorkerStep, Moves, WorkerOk, PcDecided, RecordDecided, Later;
    forall id | id in db'.txns ensures RecordDecided(db', db'.txns[id]) {
      if id != w.id {
        StaysDecided(db, db', db.txns[id]);
      } else {
        OwnRecord(db, w, db');
      }
    }
  }

  lemma Known(db: Db, w: Worker)
    requires WorkerOk(db, w)
    ensures w.id in db.txns && w.t.ops == db.txns[w.id].ops
  {
  }

  /** How a step may change the record of its transaction. */
  ghost predicate Moves(rec: Txn, pc: Pc, rec': Txn) {
    || rec' == rec
    || (pc.SaveNonce? && rec'.state == Prepared)
    || (pc.SetAborting? && rec' == rec.(state := Aborting))
    || (pc == SetAborted && rec' == rec.(state := Aborted))
    || (pc.Checkpoint? && rec' == rec.(state := Applying, revnos := Some(pc.revnos)))
    || (pc == SetApplied && rec.state == Applying && rec' == rec.(state := Applied))
  }

  /** A step changes no record but that of its own transaction, and that in few ways. */
  ghost predicate Touches(db: Db, w: Worker, db': Db) {
    && w.id in db.txns && db'.txns.Keys == db.txns.Keys
    && (forall id | id in db.txns && id != w.id :: db'.txns[id] == db.txns[id])
    && Moves(db.txns[w.id], w.pc, db'.txns[w.id])
  }

  lemma StepTouches(db: Db, w: Worker, db': Db, w': Worker)
    requires w.id in db.txns && WorkerStep(db, w, db', w')
    ensures Touches(db, w, db')
  {
    hide Touches, WorkerStep;
    match w.pc {
      case SaveNonce(_, _) => SavingTouches(db, w, db', w');
      case SetAborting(_) => SavingTouches(db, w, db', w');
      case SetAborted => SavingTouches(db, w, db', w');
      case Checkpoint(_) => SavingTouches(db, w, db', w');
      case SetApplied => SavingTouches(db, w, db', w');
      case _ => OthersTouch(db, w, db', w');
    }
  }

  lemma SavingTouches(db: Db, w: Worker, db': Db, w': Worker)
    requires w.id in db.txns && WorkerStep(db, w, db', w')
    requires w.pc.SaveNonce? || w.pc.SetAborting? || w.pc == SetAborted || w.pc.Checkpoint? || w.pc == SetApplied
    ensures Touches(db, w, db')
  {
    hide AfterNonce;
  }

  lemma OthersTouch(db: Db, w: Worker, db': Db, w': Worker)
    requires w.id in db.txns && WorkerStep(db, w, db', w')
    requires !w.pc.SaveNonce? && !w.pc.SetAborting? && w.pc != SetAborted && !w.pc.Checkpoint? && w.pc != SetApplied
    ensures Touches(db, w, db')
  {
    hide IsPullOp, Pulled, PullAll, TakesEffect, AddToSet, AdvanceStep, ConfirmStep, NonceLostStep, RescanStep, AssertStep, FirstOn, PullOrSelf;
  }

  lemma OwnRecord(db: Db, w: Worker, db': Db)
    requires WorkerOk(db, w) && PcDecided(db, w) && w.id in db'.txns && Moves(db.txns[w.id], w.pc, db'.txns[w.id])
    requires Later(db, db') && RecordDecided(db, db.txns[w.id])
    ensures RecordDecided(db', db'.txns[w.id])
  {
    StaysDecided(db, db', db.txns[w.id]);
    hide SatisfiedUpTo, RefutedSomewhere, Later, Collected;
    match w.pc {
      case Checkpoint(revnos) => StaysSatisfied(db, db', w.t.ops, revnos, |w.t.ops|);
      case SetAborting(revnos) => StaysRefuted(db, db', w.t.ops, revnos);
      case _ =>
    }
  }

  // ---- whole runs

  lemma ActorDecided(s: System, s': System, r: nat)
    requires Inv(s) && Decided(s) && r in s.workers && s.workers[r].id in s.db.txns && Progress(s.db, s'.db)
    requires exists w :: WorkerStep(s.db, s.workers[r], s'.db, w)
    ensures forall id | id in s'.db.txns :: RecordDecided(s'.db, s'.db.txns[id])
  {
    hide WorkerStep, WorkerOk, PcDecided, RecordDecided, Progress, DbOk;
    var w :| WorkerStep(s.db, s.workers[r], s'.db, w);
    ProgressIsLater(s.db, s'.db);
    StepRecord(s.db, s.workers[r], s'.db, w);
  }

  lemma OthersStay(s: System, s': System, r: nat)
    requires Decided(s) && Progress(s.db, s'.db) && r in s'.workers && s'.workers == s.workers[r := s'.workers[r]]
    requires forall id | id in s'.db.txns :: RecordDecided(s'.db, s'.db.txns[id])
    requires PcDecided(s'.db, s'.workers[r])
    ensures Decided(s')
  {
    hide PcDecided, RecordDecided, Progress, Later;
    ProgressIsLater(s.db, s'.db);
    forall q | q in s'.workers ensures PcDecided(s'.db, s'.workers[q]) {
      if q != r {
        PcStaysDecided(s.db, s'.db, s.workers[q]);
      }
    }
  }

  lemma NextDecided(s: System, s': System)
    requires Inv(s) && Decided(s) && Next(s, s')
    ensures Decided(s')
  {
    NextKeeps(s, s');
    hide WorkerStep, WorkerOk, PcDecided, RecordDecided, Progress, DbOk;
    if id, ops :| Insert(s, s', id, ops) {
      InsertDecided(s, s', id, ops);
    } else if r, w :| Load(s, s', r, w) {
      Idle(s'.db, w);
      OthersStay(s, s', r);
    } else if r, w :| Revisit(s, s', r, w) {
      Idle(s'.db, w);
      OthersStay(s, s', r);
    } else if r, w :| Act(s, s', r, w) {
      ActorDecided(s, s', r);
      ProgressIsLater(s.db, s'.db);
      StepPcDecided(s.db, s.workers[r], s'.db, w);
      OthersStay(s, s', r);
    } else {
      var r, w :| Fail(s, s', r, w);
      if s'.db != s.db {
        ActorDecided(s, s', r);
      }
      Idle(s'.db, w);
      OthersStay(s, s', r);
    }
  }

  lemma Idle(db: Db, w: Worker)
    requires w.pc == Advance || w.pc.Returned?
    ensures PcDecided(db, w)
  {
  }

  lemma InsertDecided(s: System, s': System, id: Id, ops: seq<Op>)
    requires Decided(s) && Insert(s, s', id, ops) && Progress(s.db, s'.db)
    ensures Decided(s')
  {
    ProgressIsLater(s.db, s'.db);
    assert RecordDecided(s'.db, s'.db.txns[id]);
    hide PcDecided, RecordDecided, Progress, Later;
    forall i | i in s'.db.txns ensures RecordDecided(s'.db, s'.db.txns[i]) {
      if i != id {
        StaysDecided(s.db, s'.db, s.db.txns[i]);
      }
    }
    forall r | r in s'.workers ensures PcDecided(s'.db, s'.workers[r]) {
      PcStaysDecided(s.db, s'.db, s.workers[r]);
    }
  }

  lemma {:induction false} RunDecided(run: seq<System>, i: nat)
    requires IsRun(run) && i < |run|
    ensures Decided(run[i])
  {
    hide Inv, Next, PcDecided, RecordDecided;
    if i > 0 {
      RunDecided(run, i - 1);
      RunInv(run, i - 1);
      assert Next(run[i - 1], run[i - 1 + 1]);
      NextDecided(run[i - 1], run[i]);
    }
  }

  /** A transaction that is or has been applied has met all its assertions: none that its document be missing is on a
      document that there is, and every other one held for its document at the revision that the transaction runs on. */
  lemma AppliedAsAsserted(run: seq<System>, i: nat, id: Id)
    requires IsRun(run) && i < |run| && id in run[i].db.txns
    requires run[i].db.txns[id].state == Applying || run[i].db.txns[id].state == Applied
    ensures var t := run[i].db.txns[id];
      t.revnos.Some? && |t.revnos.value| == |t.ops| && RevnosRead(run[i].db, t.ops, t.revnos.value) &&
      forall k | 0 <= k < |t.ops| :: Satisfied(run[i].db, t.ops, t.revnos.value, k)
  {
    hide Next, RevnosRead, Satisfied;
    RunDecided(run, i);
    assert RecordDecided(run[i].db, run[i].db.txns[id]);
  }

  /** A transaction is aborted for no other reason than that one of its assertions does not hold. */
  lemma AbortedForAReason(run: seq<System>, i: nat, id: Id) returns (revnos: seq<int>, k: nat)
    requires IsRun(run) && i < |run| && id in run[i].db.txns
    requires run[i].db.txns[id].state == Aborting || run[i].db.txns[id].state == Aborted
    ensures var t := run[i].db.txns[id];
      k < |t.ops| == |revnos| && RevnosRead(run[i].db, t.ops, revnos) && Refuted(run[i].db, t.ops, revnos, k)
  {
    hide Next, RevnosRead, Refuted;
    RunDecided(run, i);
    var t := run[i].db.txns[id];
    assert RecordDecided(run[i].db, t);
    revnos :| RefutedSomewhere(run[i].db, t.ops, revnos);
    k :| 0 <= k < |t.ops| && Refuted(run[i].db, t.ops, revnos, k);
  }

  /** One that asserts nothing is not aborted at all. */
  lemma NothingAsserted(run: seq<System>, i: nat, id: Id)
    requires IsRun(run) && i < |run| && id in run[i].db.txns
    requires forall op | op in run[i].db.txns[id].ops :: op.query == NoQuery
    ensures run[i].db.txns[id].state != Aborting && run[i].db.txns[id].state != Aborted
  {
    hide Next, IsRun, RevnosRead;
    var t := run[i].db.txns[id];
    assert forall k | 0 <= k < |t.ops| :: t.ops[k] in t.ops;
    if t.state == Aborting || t.state == Aborted {
      var revnos, k := AbortedForAReason(run, i, id);
    }
  }

  /** One that asks for missing documents alone is aborted only if one of them is there, or was to be changed before. */
  lemma MissingAsserted(run: seq<System>, i: nat, id: Id) returns (k: nat)
    requires IsRun(run) && i < |run| && id in run[i].db.txns
    requires run[i].db.txns[id].state == Aborting || run[i].db.txns[id].state == Aborted
    requires forall op | op in run[i].db.txns[id].ops :: op.query == NoQuery || op.query == DocMissing
    ensures var ops := run[i].db.txns[id].ops;
      && k < |ops| && ops[k].query == DocMissing
      && (ops[k].doc in run[i].db.docs || UpdatesBefore(ops, ops[k].doc, k) > 0)
  {
    hide Next, IsRun, UpdatesBefore;
    var ops := run[i].db.txns[id].ops;
    assert forall h | 0 <= h < |ops| :: ops[h] in ops;
    var revnos;
    revnos, k := AbortedForAReason(run, i, id);
    FirstIs(run[i].db, ops, revnos, k);
  }

  /** And one that asks so for a document that is there is never applied. */
  lemma PresentIsNotMissing(run: seq<System>, i: nat, id: Id, k: nat)
    requires IsRun(run) && i < |run| && id in run[i].db.txns && k < |run[i].db.txns[id].ops|
    requires var op := run[i].db.txns[id].ops[k]; op.query == DocMissing && op.doc in run[i].db.docs
    ensures run[i].db.txns[id].state != Applying && run[i].db.txns[id].state != Applied
  {
    hide Next, IsRun, UpdatesBefore;
    var t := run[i].db.txns[id];
    if t.state == Applying || t.state == Applied {
      AppliedAsAsserted(run, i, id);
      assert Satisfied(run[i].db, t.ops, t.revnos.value, k);
      FirstIs(run[i].db, t.ops, t.revnos.value, k);
    }
  }

  /** A transaction changes its documents as it has found them: its first update on a document takes effect on the very
      revision at which each assertion on this document held, and each further one on the revision behind the one before. */
  lemma ChangedAsAsserted(run: seq<System>, i: nat, a: nat, j: nat, k: nat)
    requires IsRun(run) && i < |run| && a < |run[i].db.log|
    ensures var db, e := run[i].db, run[i].db.log[a];
      && e.txn in db.txns
      && var t := db.txns[e.txn];
      && t.revnos.Some? && e.op < |t.ops| == |t.revnos.value|
      && (j <= e.op && t.ops[j].doc == e.doc && IsFirst(t.ops, j) ==>
            && e.revno == t.revnos.value[j] + UpdatesBefore(t.ops, e.doc, e.op)
            && (j <= k < |t.ops| && t.ops[k].doc == e.doc ==>
                  && t.ops[k].query != DocMissing
                  && (t.ops[k].query.Content? ==> Meeting(e.doc, t.revnos.value[j], t.ops[k].query.condition) in db.content)))
  {
    hide Next, IsRun, UpdatesBefore;
    AtMostOnce(run, i);
    RunInv(run, i);
    var db, e := run[i].db, run[i].db.log[a];
    assert EffectOk(db, e);
    var t := db.txns[e.txn];
    assert TxnOk(t);
    hide Inv, DbOk;
    AppliedAsAsserted(run, i, e.txn);
    if j <= e.op && t.ops[j].doc == e.doc && IsFirst(t.ops, j) && j <= k < |t.ops| && t.ops[k].doc == e.doc {
      assert Satisfied(db, t.ops, t.revnos.value, k);
      if t.ops[k].query == DocMissing {
        PresentIsNotMissing(run, i, e.txn, k);
      }
    }
  }

  // ---- what an applied transaction has changed

  ghost predicate InLog(db: Db, id: Id, k: nat) {
    exists a | 0 <= a < |db.log| :: db.log[a].txn == id && db.log[a].op == k
  }

  /** There is nothing operation `k` could change: its document is missing or at another revision, or misses the token. */
  ghost predicate OutOfReach(db: Db, w: Worker, k: nat) {
    k < |w.t.ops| && w.t.revnos.Some? && |w.t.revnos.value| == |w.t.ops| && w.t.nonce.Some? &&
    var d := w.t.ops[k].doc;
    d !in db.docs || db.docs[d].revno != w.t.revnos.value[k] || Token(w.id, w.t.nonce.value) !in db.docs[d].queue
  }

  /** A runner passes over operation `k` of the transaction, as it finds it so. */
  ghost predicate PassesOver(s: System, s': System, id: Id, k: nat) {
    exists r | r in s.workers && r in s'.workers ::
      && s.workers[r].id == id && s.workers[r].pc == Apply(k) && s'.workers[r].pc == Apply(k + 1)
      && OutOfReach(s.db, s.workers[r], k)
  }

  ghost function PassedOver(run: seq<System>, i: nat): (r: iset<(Id, nat)>)
    requires i < |run|
  {
    iset id: Id, k: nat | exists j | 0 <= j < i :: PassesOver(run[j], run[j + 1], id, k) :: (id, k)
  }

  /** The first `n` operations are done with. */
  ghost predicate Through(db: Db, passed: iset<(Id, nat)>, id: Id, t: Txn, n: nat) {
    t.revnos.Some? && |t.revnos.value| == |t.ops| ==>
      forall k | 0 <= k < n && k < |t.ops| && t.ops[k].update && t.revnos.value[k] >= 0 :: InLog(db, id, k) || (id, k) in passed
  }

  ghost predicate WorkerThrough(db: Db, passed: iset<(Id, nat)>, w: Worker) {
    && (w.pc.Apply? ==> Through(db, passed, w.id, w.t, w.pc.i))
    && (w.t.state == Applied ==> Through(db, passed, w.id, w.t, |w.t.ops|))
  }

  ghost predicate RecordThrough(db: Db, passed: iset<(Id, nat)>, id: Id) {
    id in db.txns && (db.txns[id].state == Applied ==> Through(db, passed, id, db.txns[id], |db.txns[id].ops|))
  }

  ghost predicate AllThrough(s: System, passed: iset<(Id, nat)>) {
    && (forall id | id in s.db.txns :: RecordThrough(s.db, passed, id))
    && (forall r | r in s.workers :: WorkerThrough(s.db, passed, s.workers[r]))
  }

  lemma StaysThrough(db: Db, db': Db, passed: iset<(Id, nat)>, passed': iset<(Id, nat)>, id: Id, t: Txn, n: nat)
    requires Through(db, passed, id, t, n) && db.log <= db'.log && passed <= passed'
    ensures Through(db', passed', id, t, n)
  {
    assert forall k | InLog(db, id, k) :: InLog(db', id, k);
    hide InLog;
  }

  lemma WorkerStaysThrough(db: Db, db': Db, passed: iset<(Id, nat)>, passed': iset<(Id, nat)>, w: Worker)
    requires WorkerThrough(db, passed, w) && db.log <= db'.log && passed <= passed'
    ensures WorkerThrough(db', passed', w)
  {
    hide Through;
    if w.pc.Apply? {
      StaysThrough(db, db', passed, passed', w.id, w.t, w.pc.i);
    }
    if w.t.state == Applied {
      StaysThrough(db, db', passed, passed', w.id, w.t, |w.t.ops|);
    }
  }

  lemma ApplyThrough(db: Db, w: Worker, db': Db, w': Worker, passed: iset<(Id, nat)>)
    requires WorkerOk(db, w) && w.pc.Apply? && ApplyStep(db, w, db', w') && WorkerThrough(db, passed, w) && db.log <= db'.log
    requires w'.pc == Apply(w.pc.i + 1) && OutOfReach(db, w, w.pc.i) ==> (w.id, w.pc.i) in passed
    ensures WorkerThrough(db', passed, w')
  {
    hide Pulled, PullAll, IsPullOp, PullOrSelf;
    var i, n := w.pc.i, |w.t.ops|;
    assert TxnOk(w.t);
    StaysThrough(db, db', passed, passed, w.id, w.t, i);
    if i < n && TakesEffect(db, w, i) {
      assert db'.log[|db.log|] == Effect(w.id, i, w.t.ops[i].doc, w.t.revnos.value[i]);
      assert InLog(db', w.id, i);
    }
    hide InLog;
  }

  /** Elsewhere a copy becomes applied only by being read so. */
  lemma CopyThrough(db: Db, w: Worker, db': Db, w': Worker, passed: iset<(Id, nat)>)
    requires WorkerOk(db, w) && !w.pc.Apply? && WorkerStep(db, w, db', w') && WorkerThrough(db, passed, w) && db.log <= db'.log
    requires RecordThrough(db, passed, w.id)
    ensures WorkerThrough(db', passed, w')
  {
    hide Through;
    CopyMoves(db, w, db', w');
    if w'.t.state == Applied {
      if w'.t == w.t {
        StaysThrough(db, db', passed, passed, w.id, w.t, |w.t.ops|);
      } else {
        StaysThrough(db, db', passed, passed, w.id, db.txns[w.id], |w.t.ops|);
      }
    }
    if w'.pc.Apply? {
      assert Through(db', passed, w'.id, w'.t, 0) by { ThroughNone(db', passed, w'.id, w'.t); }
    }
  }

  lemma ThroughNone(db: Db, passed: iset<(Id, nat)>, id: Id, t: Txn)
    ensures Through(db, passed, id, t, 0)
  {
  }

  lemma CopyMoves(db: Db, w: Worker, db': Db, w': Worker)
    requires WorkerOk(db, w) && !w.pc.Apply? && WorkerStep(db, w, db', w')
    ensures w'.id == w.id
    ensures w'.t.state == Applied ==> w'.t == w.t || w'.t == db.txns[w.id]
    ensures w'.pc.Apply? ==> w'.pc.i == 0
  {
    hide WorkerOk, WorkerStep;
    Known(db, w);
    match w.pc {
      case Advance => CopyUnread(db, w, db', w');
      case PrepareDocs(_, _, _) => CopyUnread(db, w, db', w');
      case ConfirmStash(_, _, _, _) => CopyUnread(db, w, db', w');
      case Unstash(_, _, _, _) => CopyUnread(db, w, db', w');
      case Rescan(_, _, _) => CopyUnread(db, w, db', w');
      case Assert(_, _) => CopyUnread(db, w, db', w');
      case Pull(_, _) => CopyUnread(db, w, db', w');
      case _ => CopyReread(db, w, db', w');
    }
  }

  lemma CopyUnread(db: Db, w: Worker, db': Db, w': Worker)
    requires w.id in db.txns && WorkerStep(db, w, db', w')
    requires match w.pc
      case Advance => true
      case PrepareDocs(_, _, _) => true
      case ConfirmStash(_, _, _, _) => true
      case Unstash(_, _, _, _) => true
      case Rescan(_, _, _) => true
      case Assert(_, _) => true
      case Pull(_, _) => true
      case _ => false
    ensures w'.id == w.id && w'.t == w.t && (w'.pc.Apply? ==> w'.pc.i == 0)
  {
    hide FoundEverywhere, HasPrereqs, Pulled, PullAll, RescanRevnos, AddToSet, FirstOn, PullOrSelf;
  }

  lemma CopyReread(db: Db, w: Worker, db': Db, w': Worker)
    requires w.id in db.txns && w.t.ops == db.txns[w.id].ops && WorkerStep(db, w, db', w')
    requires match w.pc
      case Advance => false
      case PrepareDocs(_, _, _) => false
      case ConfirmStash(_, _, _, _) => false
      case Unstash(_, _, _, _) => false
      case Rescan(_, _, _) => false
      case Assert(_, _) => false
      case Pull(_, _) => false
      case Apply(_) => false
      case _ => true
    ensures w'.id == w.id && !w'.pc.Apply?
    ensures w'.t.state == Applied ==> w'.t == w.t || w'.t == db.txns[w.id]
  {
    hide FoundEverywhere, HasPrereqs, PrepareRevnos;
  }

  lemma RecordsThrough(db: Db, w: Worker, db': Db, w': Worker, passed: iset<(Id, nat)>)
    requires WorkerOk(db, w) && WorkerStep(db, w, db', w') && WorkerThrough(db, passed, w) && db.log <= db'.log
    requires forall id | id in db.txns :: RecordThrough(db, passed, id)
    ensures forall id | id in db'.txns :: RecordThrough(db', passed, id)
  {
    Known(db, w);
    StepTouches(db, w, db', w');
    forall id | id in db'.txns ensures RecordThrough(db', passed, id) {
      hide Through, WorkerStep, Collected;
      assert RecordThrough(db, passed, id);
      if db.txns[id].state == Applied {
        StaysThrough(db, db', passed, passed, id, db.txns[id], |db.txns[id].ops|);
      }
      if id == w.id && db'.txns[id] != db.txns[id] && db'.txns[id].state == Applied {
        StaysThrough(db, db', passed, passed, id, w.t, |w.t.ops|);
        SameOperations(db', passed, id, w.t, db'.txns[id]);
      }
    }
  }

  lemma SameOperations(db: Db, passed: iset<(Id, nat)>, id: Id, t: Txn, t': Txn)
    requires Through(db, passed, id, t, |t.ops|) && t'.ops == t.ops && t'.revnos == t.revnos
    ensures Through(db, passed, id, t', |t'.ops|)
  {
  }

  lemma NextThrough(s: System, s': System, passed: iset<(Id, nat)>, passed': iset<(Id, nat)>)
    requires Inv(s) && AllThrough(s, passed) && Next(s, s') && passed <= passed'
    requires forall id: Id, k: nat | PassesOver(s, s', id, k) :: (id, k) in passed'
    ensures AllThrough(s', passed')
  {
    hide *;
    NextKeeps(s, s');
    LogOnlyGrows(s.db, s'.db);
    Widened(s, passed, passed');
    NextIs(s, s');
    if id, ops :| Insert(s, s', id, ops) {
      InsertThrough(s, s', id, ops, passed');
    } else if r, w :| Load(s, s', r, w) {
      LoadedThrough(s, s', r, w, passed');
    } else if r, w :| Revisit(s, s', r, w) {
      RevisitedThrough(s, s', r, w, passed');
    } else if r, w :| Act(s, s', r, w) {
      ActedThrough(s, s', r, w, passed');
    } else {
      var r, w :| Fail(s, s', r, w);
      FailedThrough(s, s', r, w, passed');
    }
  }

  lemma NextIs(s: System, s': System)
    requires Next(s, s')
    ensures (exists id, ops :: Insert(s, s', id, ops)) || (exists r, w :: Load(s, s', r, w)) || (exists r, w :: Revisit(s, s', r, w))
      || (exists r, w :: Act(s, s', r, w)) || (exists r, w :: Fail(s, s', r, w))
  {
    hide Insert, Load, Revisit, Act, Fail;
  }

  lemma LogOnlyGrows(db: Db, db': Db)
    requires Progress(db, db')
    ensures db.log <= db'.log
  {
  }

  lemma LoadedThrough(s: System, s': System, r: nat, w: Worker, passed: iset<(Id, nat)>)
    requires AllThrough(s, passed) && Load(s, s', r, w)
    ensures AllThrough(s', passed)
  {
    hide WorkerThrough, RecordThrough;
    LoadThrough(s.db, w, passed);
    Bystanders(s, s', r, passed);
  }

  lemma RevisitedThrough(s: System, s': System, r: nat, w: Worker, passed: iset<(Id, nat)>)
    requires AllThrough(s, passed) && Revisit(s, s', r, w)
    ensures AllThrough(s', passed)
  {
    hide WorkerThrough, RecordThrough;
    StopThrough(s.db, s.workers[r], w, passed);
    Bystanders(s, s', r, passed);
  }

  lemma ActedThrough(s: System, s': System, r: nat, w: Worker, passed: iset<(Id, nat)>)
    requires Inv(s) && AllThrough(s, passed) && Act(s, s', r, w) && s.db.log <= s'.db.log
    requires forall id: Id, k: nat | PassesOver(s, s', id, k) :: (id, k) in passed
    ensures AllThrough(s', passed)
  {
    StepThrough(s, s', r, w, passed);
    hide DbOk, WorkerOk, WorkerStep, WorkerThrough, RecordThrough, PassesOver;
    RecordsThrough(s.db, s.workers[r], s'.db, w, passed);
    Bystanders(s, s', r, passed);
  }

  lemma FailedThrough(s: System, s': System, r: nat, w: Worker, passed: iset<(Id, nat)>)
    requires Inv(s) && AllThrough(s, passed) && Fail(s, s', r, w) && s.db.log <= s'.db.log
    ensures AllThrough(s', passed)
  {
    hide DbOk, WorkerOk, WorkerStep, WorkerThrough, RecordThrough;
    if w1 :| WorkerStep(s.db, s.workers[r], s'.db, w1) {
      RecordsThrough(s.db, s.workers[r], s'.db, w1, passed);
    }
    StopThrough(s.db, s.workers[r], w, passed);
    WorkerStaysThrough(s.db, s'.db, passed, passed, w);
    Bystanders(s, s', r, passed);
  }

  lemma Widened(s: System, passed: iset<(Id, nat)>, passed': iset<(Id, nat)>)
    requires AllThrough(s, passed) && passed <= passed'
    ensures AllThrough(s, passed')
  {
    hide Through, WorkerThrough;
    forall id | id in s.db.txns ensures RecordThrough(s.db, passed', id) {
      assert RecordThrough(s.db, passed, id);
      if s.db.txns[id].state == Applied {
        StaysThrough(s.db, s.db, passed, passed', id, s.db.txns[id], |s.db.txns[id].ops|);
      }
    }
    forall r | r in s.workers ensures WorkerThrough(s.db, passed', s.workers[r]) {
      WorkerStaysThrough(s.db, s.db, passed, passed', s.workers[r]);
    }
  }

  lemma InsertThrough(s: System, s': System, id: Id, ops: seq<Op>, passed: iset<(Id, nat)>)
    requires AllThrough(s, passed) && Insert(s, s', id, ops)
    ensures AllThrough(s', passed)
  {
    hide InLog;
    forall i | i in s'.db.txns ensures RecordThrough(s'.db, passed, i) {
      if i != id {
        assert RecordThrough(s.db, passed, i);
        if s.db.txns[i].state == Applied {
          StaysThrough(s.db, s'.db, passed, passed, i, s.db.txns[i], |s.db.txns[i].ops|);
        }
      }
    }
    forall r | r in s'.workers ensures WorkerThrough(s'.db, passed, s'.workers[r]) {
      WorkerStaysThrough(s.db, s'.db, passed, passed, s.workers[r]);
    }
  }

  lemma LoadThrough(db: Db, w: Worker, passed: iset<(Id, nat)>)
    requires w.id in db.txns && w.t == db.txns[w.id] && w.pc == Advance && RecordThrough(db, passed, w.id)
    ensures WorkerThrough(db, passed, w)
  {
  }

  lemma StopThrough(db: Db, w: Worker, w': Worker, passed: iset<(Id, nat)>)
    requires WorkerThrough(db, passed, w) && w'.id == w.id && w'.t == w.t && (w'.pc.Returned? || w'.pc == Advance)
    ensures WorkerThrough(db, passed, w')
  {
  }

  lemma StepThrough(s: System, s': System, r: nat, w: Worker, passed: iset<(Id, nat)>)
    requires Inv(s) && AllThrough(s, passed) && Act(s, s', r, w) && s.db.log <= s'.db.log
    requires forall id: Id, k: nat | PassesOver(s, s', id, k) :: (id, k) in passed
    ensures WorkerThrough(s'.db, passed, w)
  {
    hide DbOk, WorkerOk, WorkerThrough, RecordThrough, WorkerStep;
    var was := s.workers[r];
    if was.pc.Apply? {
      if w.pc == Apply(was.pc.i + 1) && OutOfReach(s.db, was, was.pc.i) {
        assert PassesOver(s, s', was.id, was.pc.i);
      }
      Applies(s.db, was, s'.db, w);
      ApplyThrough(s.db, was, s'.db, w, passed);
    } else {
      CopyThrough(s.db, was, s'.db, w, passed);
    }
  }

  lemma Applies(db: Db, w: Worker, db': Db, w': Worker)
    requires w.id in db.txns && w.pc.Apply? && WorkerStep(db, w, db', w')
    ensures ApplyStep(db, w, db', w')
  {
  }

  lemma Bystanders(s: System, s': System, r: nat, passed: iset<(Id, nat)>)
    requires AllThrough(s, passed) && s.db.log <= s'.db.log && r in s'.workers && s'.workers == s.workers[r := s'.workers[r]]
    requires forall id | id in s'.db.txns :: RecordThrough(s'.db, passed, id)
    requires WorkerThrough(s'.db, passed, s'.workers[r])
    ensures AllThrough(s', passed)
  {
    hide WorkerThrough, RecordThrough;
    forall q | q in s'.workers ensures WorkerThrough(s'.db, passed, s'.workers[q]) {
      if q != r {
        WorkerStaysThrough(s.db, s'.db, passed, passed, s.workers[q]);
      }
    }
  }

  lemma {:induction false} RunThrough(run: seq<System>, i: nat)
    requires IsRun(run) && i < |run|
    ensures AllThrough(run[i], PassedOver(run, i))
  {
    hide Inv, Next, WorkerThrough, RecordThrough, PassesOver;
    if i > 0 {
      RunThrough(run, i - 1);
      RunInv(run, i - 1);
      assert Next(run[i - 1], run[i - 1 + 1]);
      forall id: Id, k: nat | PassesOver(run[i - 1], run[i], id, k) ensures (id, k) in PassedOver(run, i) {
        assert PassesOver(run[i - 1], run[i - 1 + 1], id, k);
      }
      NextThrough(run[i - 1], run[i], PassedOver(run, i - 1), PassedOver(run, i));
    }
  }

  /** Each update of an applied transaction, on a document that there was, has taken effect, unless a runner found the
      document at another revision or without the token when its turn came. */
  lemma AppliedTookEffect(run: seq<System>, i: nat, id: Id, k: nat)
    requires IsRun(run) && i < |run| && id in run[i].db.txns && run[i].db.txns[id].state == Applied
    ensures var t := run[i].db.txns[id];
      && t.revnos.Some? && |t.revnos.value| == |t.ops|
      && (k < |t.ops| && t.ops[k].update && t.revnos.value[k] >= 0 ==>
            InLog(run[i].db, id, k) || exists j | 0 <= j < i :: PassesOver(run[j], run[j + 1], id, k))
  {
    hide Next, PassesOver, InLog;
    RunThrough(run, i);
    RunInv(run, i);
    assert TxnOk(run[i].db.txns[id]);
    assert RecordThrough(run[i].db, PassedOver(run, i), id);
    assert Through(run[i].db, PassedOver(run, i), id, run[i].db.txns[id], |run[i].db.txns[id].ops|);
  }
}
