/** What leaves the queues, and what a flusher waits for: single steps, and what holds of a flusher throughout a run. */
module Dequeued {
  import opened Basics
  import opened Graphs
  import opened FlushOrder
  import opened Pulling
  import opened Flusher

  // ---- what leaves a queue

  /** The entries that may go: those the caller names, or of the transaction alone. */
  ghost predicate MayPull(w: Worker, pull: map<Id, Nonce>) {
    match w.pull
    case Some(p) => pull == p
    case None => w.t.nonce.Some? && pull == map[w.id := w.t.nonce.value]
  }

  /** An entry that goes according to the queue as the flusher has read it. */
  ghost predicate Leaves(w: Worker, pull: map<Id, Nonce>, d: DocKey, keep: Option<Token>, t: Token) {
    d in w.queue && exists k :: 0 <= k < |w.queue[d]| && w.queue[d][k] == t && TakenAt(pull, w.queue[d], keep, k)
  }

  /** The queue of one document has lost the entries that leave, and no others. */
  ghost predicate Shortened(q: seq<Token>, q': seq<Token>, w: Worker, pull: map<Id, Nonce>, d: DocKey, keep: Option<Token>) {
    forall t :: t in q' <==> t in q && !Leaves(w, pull, d, keep, t)
  }

  /** No update on the document comes behind operation `i`. */
  predicate IsLastUpdate(ops: seq<Op>, i: nat)
    requires i < |ops|
  {
    ops[i].update && forall j | i < j < |ops| :: !(ops[j].update && ops[j].doc == ops[i].doc)
  }

  lemma PulledLeaves(w: Worker, pull: map<Id, Nonce>, d: DocKey, keep: Option<Token>)
    ensures forall t :: t in Pulled(pull, Cached(w.queue, d), keep) <==> Leaves(w, pull, d, keep, t)
  {
    PulledGoes(pull, Cached(w.queue, d), keep);
    hide Pulled, TakenAt;
  }

  /** What applying one operation does, when its turn comes: an update on a document that is there, at the revision that it
      is to run on and with the transaction's entry, moves the revision on, and takes out of the queue what may go; the
      transaction's own entry is to stay until its last update. Otherwise nothing changes. */
  lemma ApplyDoes(db: Db, w: Worker, db': Db, w': Worker, pull: map<Id, Nonce>)
    requires WorkerOk(db, w) && w.pc.Apply? && w.pc.i < |w.t.ops| && WorkerStep(db, w, db', w') && MayPull(w, pull)
    requires w.t.revnos.Some? && |w.t.revnos.value| == |w.t.ops| && w.t.nonce.Some?
    ensures var i := w.pc.i;
      var op, revno, own := w.t.ops[i], w.t.revnos.value[i], Token(w.id, w.t.nonce.value);
      var keep := if IsLastUpdate(w.t.ops, i) then None else Some(own);
      && w' == w.(pc := Apply(i + 1))
      && if op.update && op.doc in db.docs && db.docs[op.doc].revno == revno && own in db.docs[op.doc].queue then
           && db'.docs.Keys == db.docs.Keys && (forall d | d in db.docs && d != op.doc :: db'.docs[d] == db.docs[d])
           && db'.docs[op.doc].revno == revno + 1
           && Shortened(db.docs[op.doc].queue, db'.docs[op.doc].queue, w, pull, op.doc, keep)
           && db'.txns == db.txns && db'.stash == db.stash && db'.log == db.log + [Effect(w.id, i, op.doc, revno)]
         else db' == db
  {
    hide CopyOk, Pulled, PullAll, Leaves;
    var i := w.pc.i;
    var own := Token(w.id, w.t.nonce.value);
    PulledLeaves(w, pull, w.t.ops[i].doc, None);
    PulledLeaves(w, pull, w.t.ops[i].doc, Some(own));
    assert PullOrSelf(w) == pull;
  }

  /** What pulling does on the way to the abort: at the first operation on a document, what may go is taken out of its queue,
      which is in the stash if the document was missing. */
  lemma PullDoes(db: Db, w: Worker, db': Db, w': Worker, pull: map<Id, Nonce>)
    requires WorkerOk(db, w) && w.pc.Pull? && w.pc.i < |w.t.ops| && WorkerStep(db, w, db', w') && MayPull(w, pull)
    ensures var i, d := w.pc.i, w.t.ops[w.pc.i].doc;
      && w' == w.(pc := Pull(i + 1, w.pc.revnos))
      && db'.txns == db.txns && db'.log == db.log
      && db'.docs.Keys == db.docs.Keys && db'.stash.Keys == db.stash.Keys
      && (forall e | e in db.docs :: if e == d && First(w.t.ops, i) && w.pc.revnos[i] >= 0
            then db'.docs[e].revno == db.docs[e].revno && Shortened(db.docs[e].queue, db'.docs[e].queue, w, pull, d, None)
            else db'.docs[e] == db.docs[e])
      && (forall e | e in db.stash :: if e == d && First(w.t.ops, i) && w.pc.revnos[i] < 0
            then Shortened(db.stash[e], db'.stash[e], w, pull, d, None)
            else db'.stash[e] == db.stash[e])
  {
    hide CopyOk, Pulled, PullAll, Leaves, Collected;
    PulledLeaves(w, pull, w.t.ops[w.pc.i].doc, None);
    assert PullOrSelf(w) == pull;
  }

  predicate First(ops: seq<Op>, i: nat)
    requires i < |ops|
  {
    forall h | 0 <= h < i :: ops[h].doc != ops[i].doc
  }

  /** The stash entry of a document that has come up meanwhile can be cleared of the token again. */
  lemma UnstashDoes(db: Db, w: Worker) returns (db': Db, w': Worker)
    requires w.id in db.txns && w.pc.Unstash? && w.pc.doc in db.stash
    ensures WorkerStep(db, w, db', w') && w' == w.(pc := PrepareDocs(w.pc.tt, w.pc.todo, w.pc.revno))
    ensures w.pc.doc in db'.stash && forall t :: t in db'.stash[w.pc.doc] <==> t in db.stash[w.pc.doc] && t != w.pc.tt
    ensures forall d | d in db.stash && d != w.pc.doc :: d in db'.stash && db'.stash[d] == db.stash[d]
    ensures db'.docs == db.docs && db'.txns == db.txns
  {
    var d := w.pc.doc;
    w' := w.(pc := PrepareDocs(w.pc.tt, w.pc.todo, w.pc.revno));
    db' := db.(stash := db.stash[d := PullAll(db.stash[d], [w.pc.tt])]);
  }

  // ---- what is waited for

  /** Another transaction has an entry in front of `tt`. */
  ghost predicate Behind(q: seq<Token>, tt: Token) {
    exists i :: 0 <= i < |q| && q[i].id != tt.id && tt !in q[..i]
  }

  lemma {:induction false} BlockedIsBehind(q: seq<Token>, tt: Token)
    ensures Blocked(q, tt) <==> Behind(q, tt)
  {
    if q != [] && q[0] != tt {
      BlockedIsBehind(q[1..], tt);
      if Behind(q[1..], tt) {
        var i :| 0 <= i < |q| - 1 && q[1..][i].id != tt.id && tt !in q[1..][..i];
        assert q[..i + 1] == [q[0]] + q[1..][..i];
        assert q[i + 1].id != tt.id && tt !in q[..i + 1];
      }
      if Behind(q, tt) && q[0].id == tt.id {
        var i :| 0 <= i < |q| && q[i].id != tt.id && tt !in q[..i];
        assert q[..i] == [q[0]] + q[1..][..i - 1];
        assert q[1..][i - 1] == q[i];
      }
      if q[0].id != tt.id {
        assert tt !in q[..0];
      }
    } else if q != [] {
      assert forall i | 0 < i <= |q| :: q[..i][0] == tt;
    }
  }

  /** A document of the transaction is waited for, as far as the flusher has read the queues. */
  ghost predicate Waits(w: Worker) {
    w.t.nonce.Some? && exists op :: op in w.t.ops && op.doc in w.queue && Behind(w.queue[op.doc], Token(w.id, w.t.nonce.value))
  }

  ghost predicate Entered(w: Worker) {
    w.t.nonce.Some? && forall op | op in w.t.ops :: op.doc in w.queue && Token(w.id, w.t.nonce.value) in w.queue[op.doc]
  }

  lemma WaitsIs(w: Worker)
    requires w.t.nonce.Some?
    ensures HasPrereqs(w.queue, Token(w.id, w.t.nonce.value), DocKeys(w.t.ops)) <==> Waits(w)
    ensures FoundEverywhere(w.queue, Token(w.id, w.t.nonce.value), DocKeys(w.t.ops)) <==> Entered(w)
  {
    var tt := Token(w.id, w.t.nonce.value);
    forall d ensures Blocked(Cached(w.queue, d), tt) <==> d in w.queue && Behind(w.queue[d], tt) {
      BlockedIsBehind(Cached(w.queue, d), tt);
    }
    hide Blocked, Behind;
    assert forall op | op in w.t.ops :: op.doc in DocKeys(w.t.ops);
  }

  /** A flusher reports prerequisites only if it is not forced and there are some; it goes on to the assertions only if its
      transaction is in all the queues, and it is forced or there are none; it reads the queues again only if it does not know
      better; and it looks for a document that is gone three times. */
  ghost predicate PcWaits(w: Worker) {
    match w.pc
    case Returned(outcome) => outcome == PreReqs ==> !w.force && w.t.state == Prepared && Waits(w)
    case Assert(_, _) => Entered(w) && (w.force || !Waits(w))
    case SetAborting(_) => Entered(w) && (w.force || !Waits(w))
    case Checkpoint(_) => Entered(w) && (w.force || !Waits(w))
    case Rescan(_, revno, retry) => retry <= 2 && (revno == map[] && w.t.nonce.Some? ==> w.force || !Entered(w) || !Waits(w))
    case RescanGone(_, revno, retry) => retry <= 2 && (revno == map[] && w.t.nonce.Some? ==> w.force || !Entered(w) || !Waits(w))
    case _ => true
  }

  lemma AfterNonceWaits(w: Worker, revno: map<DocKey, int>)
    requires w.t.nonce.Some? && w.t.state == Prepared
    ensures PcWaits(w.(pc := AfterNonce(w, Token(w.id, w.t.nonce.value), revno)))
  {
    var w' := w.(pc := AfterNonce(w, Token(w.id, w.t.nonce.value), revno));
    WaitsIs(w);
    hide HasPrereqs, FoundEverywhere, Behind, PrepareRevnos;
    assert Waits(w') <==> Waits(w);
    assert Entered(w') <==> Entered(w);
  }

  lemma SavedWaits(db: Db, w: Worker, db': Db, w': Worker)
    requires WorkerOk(db, w) && WorkerStep(db, w, db', w') && (w.pc.SaveNonce? || w.pc.NonceLost?)
    ensures PcWaits(w')
  {
    hide PcWaits, AfterNonce, Collected;
    IdleWaits(w');
    if w.pc.SaveNonce? {
      AfterNonceWaits(w.(t := w.t.(state := Prepared, nonce := Some(w.pc.tt.nonce))), w.pc.revno);
    } else if Reload(db, w).t.nonce.Some? && Reload(db, w).t.state == Prepared {
      AfterNonceWaits(Reload(db, w), w.pc.revno);
    }
  }

  lemma IdleWaits(w: Worker)
    ensures w.pc == Advance || w.pc.NonceLost? || w.pc == Panicked ==> PcWaits(w)
  {
  }

  lemma AdvanceWaits(db: Db, w: Worker, db': Db, w': Worker)
    requires WorkerOk(db, w) && WorkerStep(db, w, db', w') && w.pc.Advance?
    ensures PcWaits(w')
  {
    hide Behind, HasPrereqs, FoundEverywhere, Waits, Entered;
    if w.t.nonce.Some? {
      WaitsIs(w);
    }
    SameWaits(w, w');
  }

  lemma RescanWaits(db: Db, w: Worker, db': Db, w': Worker)
    requires WorkerOk(db, w) && PcWaits(w) && WorkerStep(db, w, db', w') && w.pc.Rescan?
    ensures PcWaits(w')
  {
    hide Collected, CopyOk, Behind, HasPrereqs, FoundEverywhere, RescanRevnos, Waits, Entered;
    if w.pc.todo == {} {
      WaitsIs(w);
      SameWaits(w, w');
    } else if w'.pc.RescanGone? {
      SameWaits(w, w');
    } else {
      ReadsOne(db, w, db', w');
    }
  }

  /** With a document read something has been read. */
  lemma ReadsOne(db: Db, w: Worker, db': Db, w': Worker)
    requires WorkerOk(db, w) && WorkerStep(db, w, db', w') && w.pc.Rescan? && w.pc.todo != {}
    ensures w'.pc.Rescan? || w'.pc == RescanMissed || w'.pc.RescanGone? || w'.pc == Panicked
    ensures w'.pc.Rescan? ==> w'.pc.revno != map[] && w'.pc.retry == 0
  {
    hide Collected, CopyOk;
    if w'.pc.Rescan? {
      var d :| d in w.pc.todo && d in w'.pc.revno;
    }
  }

  lemma GoneWaits(db: Db, w: Worker, db': Db, w': Worker)
    requires WorkerOk(db, w) && PcWaits(w) && WorkerStep(db, w, db', w') && w.pc.RescanGone?
    ensures PcWaits(w')
  {
    hide Collected, Waits, Entered;
    if w'.t.nonce == w.t.nonce {
      SameWaits(w, w');
    }
  }

  lemma SameWaits(w: Worker, w': Worker)
    requires w'.id == w.id && w'.queue == w.queue && w'.t.nonce == w.t.nonce && w'.t.ops == w.t.ops
    ensures Waits(w') <==> Waits(w)
    ensures Entered(w') <==> Entered(w)
  {
    hide Behind;
  }

  lemma OthersWait(db: Db, w: Worker, db': Db, w': Worker)
    requires WorkerOk(db, w) && PcWaits(w) && WorkerStep(db, w, db', w')
    requires match w.pc
      case SaveNonce(_, _) => false
      case NonceLost(_) => false
      case Rescan(_, _, _) => false
      case RescanGone(_, _, _) => false
      case Advance => false
      case _ => true
    ensures PcWaits(w')
  {
    hide Waits, Entered, Collected, CopyOk, TakesEffect, Pulled, PullAll, IsPullOp, FirstOn, PullOrSelf;
    if w.pc.Assert? {
      KeepsWaiting(db, w, db', w');
    }
  }

  lemma KeepsWaiting(db: Db, w: Worker, db': Db, w': Worker)
    requires WorkerOk(db, w) && WorkerStep(db, w, db', w') && w.pc.Assert?
    ensures w'.id == w.id && w'.t == w.t && w'.queue == w.queue && w'.force == w.force
    ensures Waits(w') <==> Waits(w)
    ensures Entered(w') <==> Entered(w)
  {
    hide Collected, CopyOk, FirstOn, Waits, Entered;
    SameWaits(w, w');
  }

  lemma StepWaits(db: Db, w: Worker, db': Db, w': Worker)
    requires WorkerOk(db, w) && PcWaits(w) && WorkerStep(db, w, db', w')
    ensures PcWaits(w')
  {
    hide *;
    match w.pc {
      case SaveNonce(_, _) => SavedWaits(db, w, db', w');
      case NonceLost(_) => SavedWaits(db, w, db', w');
      case Rescan(_, _, _) => RescanWaits(db, w, db', w');
      case RescanGone(_, _, _) => GoneWaits(db, w, db', w');
      case Advance => AdvanceWaits(db, w, db', w');
      case _ => OthersWait(db, w, db', w');
    }
  }

  lemma NextWaits(s: System, s': System)
    requires Inv(s) && Next(s, s') && forall r | r in s.workers :: PcWaits(s.workers[r])
    ensures forall r | r in s'.workers :: PcWaits(s'.workers[r])
  {
    hide DbOk, WorkerOk, WorkerStep, PcWaits;
    forall r | r in s'.workers ensures PcWaits(s'.workers[r]) {
      var w' := s'.workers[r];
      FreshWaits(w');
      if r in s.workers && w' != s.workers[r] && Act(s, s', r, w') {
        StepWaits(s.db, s.workers[r], s'.db, w');
      }
    }
  }

  lemma FreshWaits(w: Worker)
    ensures w.pc == Advance || w.pc == Returned(Failed) ==> PcWaits(w)
  {
  }

  /** So it is throughout every run. */
  lemma {:induction false} RunWaits(run: seq<System>, i: nat)
    requires IsRun(run) && i < |run|
    ensures forall r | r in run[i].workers :: PcWaits(run[i].workers[r])
  {
    hide Inv, Next, PcWaits;
    if i > 0 {
      RunWaits(run, i - 1);
      RunInv(run, i - 1);
      assert Next(run[i - 1], run[i - 1 + 1]);
      NextWaits(run[i - 1], run[i]);
    } else {
      StartsEmpty(run[0]);
    }
  }

  lemma StartsEmpty(s: System)
    requires Init(s)
    ensures s.workers == map[]
  {
  }

  /** After the third look it gives up, and not before. */
  lemma GivesUp(db: Db, w: Worker, db': Db, w': Worker)
    requires PcWaits(w) && w.pc.RescanGone? && w.id in db.txns && WorkerStep(db, w, db', w') && db.txns[w.id].state == Prepared
    ensures if w.pc.retry == 2 then w'.pc == Returned(Failed) else w'.pc == Rescan(w.pc.todo, w.pc.revno, w.pc.retry + 1)
  {
  }
}
