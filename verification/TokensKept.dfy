/** When rescan misses no token: as long as new tokens are new, and what is taken out of a queue is settled, the token of
    a transaction that is prepared stays in the queues of all its documents. LostToken has a run in which it does not. */
module TokensKept {
  import opened Basics
  import opened Graphs
  import opened FlushOrder
  import opened Pulling
  import opened Flusher

  // ---- what is asked of a run

  /** The token a flusher is preparing with. */
  function InHand(w: Worker): (r: Option<Token>) {
    match w.pc
    case PrepareDocs(tt, _, _) => Some(tt)
    case ConfirmStash(tt, _, _, _) => Some(tt)
    case Unstash(tt, _, _, _) => Some(tt)
    case SaveNonce(tt, _) => Some(tt)
    case _ => None
  }

  /** Its transaction needs this entry no more: it is on its way to its end, or was prepared with another token. */
  ghost predicate Settled(db: Db, u: Token) {
    u.id in db.txns ==>
      var rec := db.txns[u.id];
      rec.state != Preparing && (rec.state == Prepared ==> rec.nonce != Some(u.nonce))
  }

  /** Whatever the flusher could take out of a queue now is settled. */
  ghost predicate PullsSettled(db: Db, w: Worker) {
    forall d, keep, u | u in Pulled(PullOrSelf(w), Cached(w.queue, d), keep) :: Settled(db, u)
  }

  ghost predicate AllPullsSettled(s: System) {
    forall r | r in s.workers && (s.workers[r].pc.Pull? || s.workers[r].pc.Apply?) :: PullsSettled(s.db, s.workers[r])
  }

  /** A token that a flusher begins to prepare with is nobody else's, and not the one that is stored. */
  ghost predicate NewTokens(s: System, s': System) {
    forall r | r in s.workers && r in s'.workers && InHand(s.workers[r]) == None && InHand(s'.workers[r]).Some? ::
      var tt := InHand(s'.workers[r]).value;
      && (forall q | q in s.workers :: InHand(s.workers[q]) != Some(tt))
      && (tt.id in s.db.txns ==> s.db.txns[tt.id].nonce != Some(tt.nonce))
  }

  ghost predicate IsOrderlyRun(run: seq<System>) {
    && IsRun(run)
    && (forall i | 0 <= i < |run| :: AllPullsSettled(run[i]))
    && forall i | 0 <= i < |run| - 1 :: NewTokens(run[i], run[i + 1])
  }

  // ---- what holds at every moment

  /** A document's queue: its own, or that of the entry that stands in for it. */
  function QueueOf(db: Db, d: DocKey): (q: seq<Token>) {
    if d in db.docs then db.docs[d].queue else Cached(db.stash, d)
  }

  /** The documents that a flusher's token has been entered for. */
  function Entered(w: Worker): (r: set<DocKey>) {
    match w.pc
    case PrepareDocs(_, todo, _) => DocKeys(w.t.ops) - todo
    case ConfirmStash(_, _, todo, _) => DocKeys(w.t.ops) - todo
    case Unstash(_, d, todo, _) => DocKeys(w.t.ops) - todo - {d}
    case SaveNonce(_, _) => DocKeys(w.t.ops)
    case _ => {}
  }

  /** The tokens of transactions that are prepared are where they belong. */
  ghost predicate StoredKept(db: Db) {
    forall id, d | id in db.txns && db.txns[id].state == Prepared && db.txns[id].nonce.Some? && d in DocKeys(db.txns[id].ops) ::
      Token(id, db.txns[id].nonce.value) in QueueOf(db, d)
  }

  /** So are those that a flusher is preparing with, as long as the transaction may still get them. */
  ghost predicate EnteredKept(db: Db, w: Worker) {
    InHand(w).Some? && w.id in db.txns && db.txns[w.id].state == Preparing ==>
      forall d | d in Entered(w) :: InHand(w).value in QueueOf(db, d)
  }

  /** The token is not the stored one; a flusher that has missed its token is not needed any more, or has been answered. */
  ghost predicate WorkerKept(db: Db, w: Worker) {
    && EnteredKept(db, w)
    && (InHand(w).Some? && w.id in db.txns ==> db.txns[w.id].nonce != Some(InHand(w).value.nonce))
    && (w.pc.Unstash? ==> w.pc.doc in w.pc.todo)
    && (w.pc.RescanMissed? && w.id in db.txns ==> db.txns[w.id].state != Preparing && db.txns[w.id].state != Prepared)
    && w.pc != Returned(TokenLost)
  }

  ghost predicate Kept(s: System) {
    && StoredKept(s.db)
    && (forall r | r in s.workers :: WorkerKept(s.db, s.workers[r]))
    && (forall r, q | r in s.workers && q in s.workers && r != q && InHand(s.workers[r]).Some? ::
          InHand(s.workers[r]) != InHand(s.workers[q]))
  }

  // ---- what a step leaves in the queues

  /** `u` stays wherever it is. */
  ghost predicate Stays(db: Db, db': Db, u: Token) {
    forall d | u in QueueOf(db, d) :: u in QueueOf(db', d)
  }

  /** A step takes no entry away that is not settled, but the one that the flusher is preparing with. */
  lemma StepLeaves(db: Db, w: Worker, db': Db, w': Worker, u: Token)
    requires w.id in db.txns && WorkerStep(db, w, db', w')
    requires (w.pc.Pull? || w.pc.Apply?) ==> PullsSettled(db, w)
    requires !Settled(db, u) && (w.pc.Unstash? ==> u != w.pc.tt)
    ensures Stays(db, db', u)
  {
    hide Settled, Pulled, PullOrSelf, IsPullOp, FirstOn, TakesEffect;
    match w.pc {
      case PrepareDocs(_, _, _) => PrepareLeaves(db, w, db', w', u);
      case Unstash(_, _, _, _) => UnstashLeaves(db, w, db', w', u);
      case Pull(_, _) => PullLeaves(db, w, db', w', u);
      case Apply(_) => ApplyLeaves(db, w, db', w', u);
      case _ => assert db'.docs == db.docs && db'.stash == db.stash;
    }
  }

  lemma PrepareLeaves(db: Db, w: Worker, db': Db, w': Worker, u: Token)
    requires w.pc.PrepareDocs? && PrepareStep(db, w, db', w')
    ensures Stays(db, db', u)
  {
  }

  lemma UnstashLeaves(db: Db, w: Worker, db': Db, w': Worker, u: Token)
    requires w.pc.Unstash? && UnstashStep(db, w, db', w') && u != w.pc.tt
    ensures Stays(db, db', u)
  {
    hide PullAll;
  }

  lemma PullLeaves(db: Db, w: Worker, db': Db, w': Worker, u: Token)
    requires w.pc.Pull? && PullStep(db, w, db', w') && PullsSettled(db, w) && !Settled(db, u)
    ensures Stays(db, db', u)
  {
    hide PullAll, Pulled, PullOrSelf, Settled;
  }

  lemma ApplyLeaves(db: Db, w: Worker, db': Db, w': Worker, u: Token)
    requires w.pc.Apply? && ApplyStep(db, w, db', w') && PullsSettled(db, w) && !Settled(db, u)
    ensures Stays(db, db', u)
  {
    hide PullAll, Pulled, PullOrSelf, Settled, IsPullOp;
  }

  /** The tokens of transactions that stay prepared are not taken away. */
  ghost predicate StoredSpared(db: Db, db': Db) {
    forall id, d |
      && id in db.txns && id in db'.txns && db'.txns[id] == db.txns[id] && db.txns[id].state == Prepared && db.txns[id].nonce.Some?
      && d in DocKeys(db.txns[id].ops) && Token(id, db.txns[id].nonce.value) in QueueOf(db, d) ::
        Token(id, db.txns[id].nonce.value) in QueueOf(db', d)
  }

  /** The token that a flusher is preparing with is not taken away. */
  ghost predicate HandSpared(db: Db, db': Db, v: Worker) {
    InHand(v).Some? && v.id in db'.txns && db'.txns[v.id].state == Preparing ==>
      forall d | d in Entered(v) && InHand(v).value in QueueOf(db, d) :: InHand(v).value in QueueOf(db', d)
  }

  ghost predicate Spared(s: System, s': System, r: nat) {
    StoredSpared(s.db, s'.db) && forall q | q in s.workers && q != r :: HandSpared(s.db, s'.db, s.workers[q])
  }

  /** Some queue has to have this token. */
  ghost predicate Needed(s: System, d: DocKey, u: Token) {
    || (&& u.id in s.db.txns && s.db.txns[u.id].state == Prepared && s.db.txns[u.id].nonce == Some(u.nonce) && d in DocKeys(s.db.txns[u.id].ops))
    || (exists r :: r in s.workers && NeededBy(s.db, s.workers[r], d, u))
  }

  /** A flusher is preparing with this token, has entered it, and the transaction may still get it. */
  ghost predicate NeededBy(db: Db, w: Worker, d: DocKey, u: Token) {
    InHand(w) == Some(u) && w.id in db.txns && db.txns[w.id].state == Preparing && d in Entered(w)
  }

  /** A step takes a token out of a queue that has to have it. */
  ghost predicate TakesNeeded(s: System, s': System) {
    exists d, u :: u in QueueOf(s.db, d) && u !in QueueOf(s'.db, d) && Needed(s', d, u)
  }

  /** If nothing that is needed is taken away, what other flushers need is spared. */
  lemma NotTaken(s: System, s': System, r: nat)
    requires !TakesNeeded(s, s') && r in s'.workers && s'.workers == s.workers[r := s'.workers[r]]
    ensures Spared(s, s', r)
  {
    hide QueueOf, Entered, DocKeys;
    forall id, d |
      && id in s.db.txns && id in s'.db.txns && s'.db.txns[id] == s.db.txns[id] && s.db.txns[id].state == Prepared && s.db.txns[id].nonce.Some?
      && d in DocKeys(s.db.txns[id].ops) && Token(id, s.db.txns[id].nonce.value) in QueueOf(s.db, d)
      ensures Token(id, s.db.txns[id].nonce.value) in QueueOf(s'.db, d)
    {
      assert Needed(s', d, Token(id, s.db.txns[id].nonce.value));
    }
    forall q | q in s.workers && q != r ensures HandSpared(s.db, s'.db, s.workers[q]) {
      var v := s.workers[q];
      assert s'.workers[q] == v;
      if InHand(v).Some? && v.id in s'.db.txns && s'.db.txns[v.id].state == Preparing {
        forall d | d in Entered(v) && InHand(v).value in QueueOf(s.db, d) ensures InHand(v).value in QueueOf(s'.db, d) {
          assert NeededBy(s'.db, s'.workers[q], d, InHand(v).value);
        }
      }
    }
  }

  /** If what is pulled is settled, what other flushers need is spared. */
  lemma SettledSpares(s: System, s': System, r: nat, w1: Worker)
    requires Inv(s) && Kept(s) && AllPullsSettled(s)
    requires r in s.workers && s.workers[r].id in s.db.txns && WorkerStep(s.db, s.workers[r], s'.db, w1)
    ensures Spared(s, s', r)
  {
    hide DbOk, WorkerOk, WorkerStep, StoredKept, PullsSettled, QueueOf, Entered, EnteredKept;
    var db, w, db' := s.db, s.workers[r], s'.db;
    assert DbOk(db) && WorkerOk(db, w) && WorkerKept(db, w);
    TokenIs(db, w);
    WorkerStepKeeps(db, w, db', w1);
    forall id, d |
      && id in db.txns && id in db'.txns && db'.txns[id] == db.txns[id] && db.txns[id].state == Prepared && db.txns[id].nonce.Some?
      && d in DocKeys(db.txns[id].ops) && Token(id, db.txns[id].nonce.value) in QueueOf(db, d)
      ensures Token(id, db.txns[id].nonce.value) in QueueOf(db', d)
    {
      StepLeaves(db, w, db', w1, Token(id, db.txns[id].nonce.value));
    }
    forall q | q in s.workers && q != r ensures HandSpared(db, db', s.workers[q]) {
      var v := s.workers[q];
      assert WorkerOk(db, v) && WorkerKept(db, v);
      TokenIs(db, v);
      if InHand(v).Some? && v.id in db'.txns && db'.txns[v.id].state == Preparing {
        StepLeaves(db, w, db', w1, InHand(v).value);
      }
    }
  }

  /** A record that is prepared has been so before, or gets its token from the flusher at hand. */
  lemma PreparedBefore(db: Db, w: Worker, db': Db, w': Worker, id: Id)
    requires DbOk(db) && WorkerOk(db, w) && WorkerStep(db, w, db', w') && id in db'.txns && db'.txns[id].state == Prepared
    ensures id in db.txns && db'.txns[id].ops == db.txns[id].ops
    ensures || db'.txns[id] == db.txns[id]
            || (id == w.id && db.txns[id].state == Preparing && w.pc.SaveNonce? && db'.docs == db.docs && db'.stash == db.stash
                && db'.txns[id].nonce == Some(w.pc.tt.nonce))
  {
    hide TxnOk, EffectOk, CopyOk, Collected, HasPrereqs, FoundEverywhere, Pulled, PullOrSelf, PullAll, TakesEffect, IsPullOp, FirstOn;
  }

  lemma TokenIs(db: Db, w: Worker)
    requires WorkerOk(db, w)
    ensures w.id in db.txns && w.t.ops == db.txns[w.id].ops
    ensures InHand(w).Some? ==> InHand(w).value.id == w.id
  {
    hide Collected, TxnOk;
  }

  lemma StoredStay(db: Db, w: Worker, db': Db, w': Worker)
    requires DbOk(db) && WorkerOk(db, w) && WorkerStep(db, w, db', w') && StoredKept(db) && WorkerKept(db, w)
    requires StoredSpared(db, db')
    ensures StoredKept(db')
  {
    hide DbOk, WorkerOk, WorkerStep;
    TokenIs(db, w);
    forall id, d | id in db'.txns && db'.txns[id].state == Prepared && db'.txns[id].nonce.Some? && d in DocKeys(db'.txns[id].ops)
      ensures Token(id, db'.txns[id].nonce.value) in QueueOf(db', d)
    {
      PreparedBefore(db, w, db', w', id);
      var u := Token(id, db'.txns[id].nonce.value);
      if db'.txns[id] == db.txns[id] {
        assert u in QueueOf(db, d);
      } else {
        assert u == w.pc.tt && d in Entered(w);
        assert u in QueueOf(db, d) && QueueOf(db', d) == QueueOf(db, d);
      }
    }
  }

  lemma PrepareEnters(db: Db, w: Worker, db': Db, w': Worker)
    requires w.pc.PrepareDocs? && PrepareStep(db, w, db', w') && EnteredKept(db, w)
    ensures EnteredKept(db', w') && !w'.pc.Unstash? && !w'.pc.RescanMissed? && !w'.pc.Returned?
    ensures InHand(w') == InHand(w)
  {
    PrepareLeaves(db, w, db', w', w.pc.tt);
  }

  lemma ConfirmEnters(db: Db, w: Worker, w': Worker)
    requires w.pc.ConfirmStash? && ConfirmStep(db, w, w') && EnteredKept(db, w) && w.pc.doc in w.pc.todo
    ensures EnteredKept(db, w') && (w'.pc.Unstash? ==> w'.pc.doc in w'.pc.todo) && !w'.pc.RescanMissed? && !w'.pc.Returned?
    ensures InHand(w') == InHand(w)
  {
  }

  lemma UnstashEnters(db: Db, w: Worker, db': Db, w': Worker)
    requires w.pc.Unstash? && UnstashStep(db, w, db', w') && EnteredKept(db, w) && w.pc.doc in w.pc.todo
    ensures EnteredKept(db', w') && !w'.pc.Unstash? && !w'.pc.RescanMissed? && !w'.pc.Returned?
    ensures InHand(w') == InHand(w)
  {
    hide PullAll;
    assert forall e | e in Entered(w') :: e != w.pc.doc && e in Entered(w) && QueueOf(db', e) == QueueOf(db, e);
  }

  /** Rescan misses its token only if the transaction is no more just prepared. */
  lemma RescanMisses(db: Db, w: Worker, w': Worker)
    requires DbOk(db) && WorkerOk(db, w) && w.pc.Rescan? && RescanStep(db, w, w') && StoredKept(db)
    ensures w'.pc.RescanMissed? ==> db.txns[w.id].state != Preparing && db.txns[w.id].state != Prepared
    ensures InHand(w') == None && w'.pc != Returned(TokenLost) && !w'.pc.Unstash?
  {
    hide HasPrereqs, FoundEverywhere, EffectOk;
    var rec := db.txns[w.id];
    assert rec.nonce == w.t.nonce && rec.ops == w.t.ops && rec.state != Preparing;
    if rec.state == Prepared {
      assert forall d | d in w.pc.todo :: d in DocKeys(rec.ops) && Token(w.id, rec.nonce.value) in QueueOf(db, d);
    }
  }

  lemma MissedIsNotLost(db: Db, w: Worker, w': Worker)
    requires w.id in db.txns && w.pc.RescanMissed? && RescanMissedStep(db, w, w') && WorkerKept(db, w)
    ensures w'.pc == Advance
  {
  }

  /** The steps behind which no token is in hand. */
  lemma OtherSteps(db: Db, w: Worker, db': Db, w': Worker)
    requires w.id in db.txns && WorkerStep(db, w, db', w')
    requires !w.pc.Advance? && !w.pc.PrepareDocs? && !w.pc.ConfirmStash? && !w.pc.Unstash? && !w.pc.Rescan? && !w.pc.RescanMissed?
    ensures InHand(w') == None && !w'.pc.Unstash? && !w'.pc.RescanMissed? && w'.pc != Returned(TokenLost)
  {
    hide HasPrereqs, FoundEverywhere, Pulled, PullOrSelf, PullAll, TakesEffect, IsPullOp, FirstOn;
  }

  lemma AdvanceEnters(db: Db, w: Worker, w': Worker)
    requires w.pc.Advance? && AdvanceStep(w, w')
    ensures EnteredKept(db, w') && !w'.pc.Unstash? && !w'.pc.RescanMissed? && w'.pc != Returned(TokenLost)
  {
    hide HasPrereqs, FoundEverywhere;
  }

  /** What the flusher at hand is preparing with is where it has entered it, and its token is not lost. */
  lemma ActorKept(db: Db, w: Worker, db': Db, w': Worker)
    requires DbOk(db) && WorkerOk(db, w) && WorkerStep(db, w, db', w') && StoredKept(db) && WorkerKept(db, w)
    requires InHand(w) == None && InHand(w').Some? ==> db.txns[w.id].nonce != Some(InHand(w').value.nonce)
    ensures WorkerKept(db', w')
  {
    TokenIs(db, w);
    hide DbOk, WorkerOk, StoredKept, EnteredKept, HasPrereqs, FoundEverywhere, Pulled, PullOrSelf, PullAll, TakesEffect;
    match w.pc {
      case Advance => AdvanceEnters(db, w, w');
      case PrepareDocs(_, _, _) => PrepareEnters(db, w, db', w');
      case ConfirmStash(_, _, _, _) => ConfirmEnters(db, w, w');
      case Unstash(_, _, _, _) => UnstashEnters(db, w, db', w');
      case Rescan(_, _, _) => RescanMisses(db, w, w'); NoneInHand(db', w');
      case RescanMissed => MissedIsNotLost(db, w, w'); NoneInHand(db', w');
      case _ => OtherSteps(db, w, db', w'); NoneInHand(db', w');
    }
  }

  lemma NoneInHand(db: Db, w: Worker)
    ensures InHand(w) == None ==> EnteredKept(db, w)
  {
  }

  /** A flusher that does not move keeps its token's places. */
  lemma BystanderKept(db: Db, w: Worker, db': Db, w': Worker, v: Worker)
    requires DbOk(db) && WorkerOk(db, w) && WorkerStep(db, w, db', w') && Progress(db, db')
    requires WorkerOk(db, v) && WorkerKept(db, v) && (InHand(v).Some? ==> InHand(v) != InHand(w)) && HandSpared(db, db', v)
    ensures WorkerKept(db', v)
  {
    TokenIs(db, w);
    TokenIs(db, v);
    hide DbOk, WorkerOk, WorkerStep, Entered;
    if InHand(v).Some? {
      NonceFrom(db, w, db', w', v.id);
    }
  }

  /** A record's nonce is what it was, or that of the flusher at hand. */
  lemma NonceFrom(db: Db, w: Worker, db': Db, w': Worker, id: Id)
    requires DbOk(db) && WorkerOk(db, w) && WorkerStep(db, w, db', w') && id in db.txns
    ensures id in db'.txns
    ensures db'.txns[id].nonce == db.txns[id].nonce || (id == w.id && w.pc.SaveNonce? && db'.txns[id].nonce == Some(w.pc.tt.nonce))
  {
    hide TxnOk, EffectOk, CopyOk, Collected, HasPrereqs, FoundEverywhere, Pulled, PullOrSelf, PullAll, TakesEffect, IsPullOp, FirstOn;
  }

  // ---- whole runs

  /** A flusher has moved, or it has moved and then stopped. */
  lemma StepKept(s: System, s': System, r: nat, w1: Worker)
    requires Inv(s) && Kept(s) && Spared(s, s', r)
    requires r in s.workers && WorkerStep(s.db, s.workers[r], s'.db, w1)
    requires r in s'.workers && s'.workers == s.workers[r := s'.workers[r]]
    requires s'.workers[r] == w1 || s'.workers[r].pc == Advance || s'.workers[r].pc == Returned(Failed)
    requires NewTokens(s, s')
    ensures Kept(s')
  {
    hide DbOk, WorkerOk, WorkerStep, StoredKept, WorkerKept, Progress, InHand, StoredSpared, HandSpared;
    var w, w' := s.workers[r], s'.workers[r];
    assert DbOk(s.db) && WorkerOk(s.db, w) && WorkerKept(s.db, w);
    WorkerStepKeeps(s.db, w, s'.db, w1);
    StoredStay(s.db, w, s'.db, w1);
    TokenIs(s.db, w);
    HandIs(s.db, w, s'.db, w1);
    if w' == w1 {
      ActorKept(s.db, w, s'.db, w1);
    } else {
      StoppedKept(s'.db, w');
    }
    forall q | q in s'.workers
      ensures WorkerKept(s'.db, s'.workers[q])
    {
      if q != r {
        BystanderKept(s.db, w, s'.db, w1, s.workers[q]);
      }
    }
    assert InHand(w').Some? ==> forall q | q in s.workers && q != r :: InHand(s.workers[q]) != InHand(w');
  }

  lemma StoppedKept(db: Db, w: Worker)
    requires w.pc == Advance || w.pc == Returned(Failed)
    ensures WorkerKept(db, w) && InHand(w) == None
  {
  }

  /** A token in hand stays the same, and a new one is of the transaction at hand. */
  lemma HandIs(db: Db, w: Worker, db': Db, w': Worker)
    requires w.id in db.txns && WorkerStep(db, w, db', w')
    ensures InHand(w).Some? && InHand(w').Some? ==> InHand(w') == InHand(w)
    ensures InHand(w).None? && InHand(w').Some? ==> InHand(w').value.id == w.id
  {
    hide AdvanceStep, PrepareStep, ConfirmStep, UnstashStep, RescanStep, RescanMissedStep, SaveNonceStep;
    match w.pc {
      case Advance => AdvanceHand(w, w');
      case PrepareDocs(_, _, _) => PrepareHand(db, w, db', w');
      case ConfirmStash(_, _, _, _) => ConfirmHand(db, w, w');
      case Unstash(_, _, _, _) => UnstashHand(db, w, db', w');
      case Rescan(_, _, _) => RescanHand(db, w, w');
      case RescanMissed => RescanMissedHand(db, w, w');
      case _ => OtherSteps(db, w, db', w');
    }
  }

  lemma AdvanceHand(w: Worker, w': Worker)
    requires w.pc.Advance? && AdvanceStep(w, w')
    ensures InHand(w').Some? ==> InHand(w').value.id == w.id
  {
    hide HasPrereqs, FoundEverywhere;
  }

  lemma PrepareHand(db: Db, w: Worker, db': Db, w': Worker)
    requires w.pc.PrepareDocs? && PrepareStep(db, w, db', w')
    ensures InHand(w') == InHand(w)
  {
  }

  lemma ConfirmHand(db: Db, w: Worker, w': Worker)
    requires w.pc.ConfirmStash? && ConfirmStep(db, w, w')
    ensures InHand(w') == InHand(w)
  {
  }

  lemma UnstashHand(db: Db, w: Worker, db': Db, w': Worker)
    requires w.pc.Unstash? && UnstashStep(db, w, db', w')
    ensures InHand(w') == InHand(w)
  {
  }

  lemma RescanHand(db: Db, w: Worker, w': Worker)
    requires w.pc.Rescan? && RescanStep(db, w, w')
    ensures InHand(w') == None
  {
    hide HasPrereqs, FoundEverywhere;
  }

  lemma RescanMissedHand(db: Db, w: Worker, w': Worker)
    requires w.id in db.txns && w.pc.RescanMissed? && RescanMissedStep(db, w, w')
    ensures InHand(w') == None
  {
  }

  /** A flusher that begins, or begins again. */
  lemma BegunKept(s: System, s': System, r: nat)
    requires Kept(s) && s'.db == s.db && r in s'.workers && s'.workers == s.workers[r := s'.workers[r]]
    requires s'.workers[r].pc == Advance
    ensures Kept(s')
  {
    hide StoredKept;
    StoppedKept(s'.db, s'.workers[r]);
    hide WorkerKept;
  }

  lemma SameRecordKept(db: Db, db': Db, w: Worker)
    requires WorkerOk(db, w) && WorkerKept(db, w)
    requires w.id in db'.txns && db'.txns[w.id] == db.txns[w.id] && db'.docs == db.docs && db'.stash == db.stash
    ensures WorkerKept(db', w)
  {
    TokenIs(db, w);
    hide Entered;
  }

  lemma InsertedKept(db: Db, id: Id, ops: seq<Op>)
    requires StoredKept(db) && id !in db.txns
    ensures StoredKept(db.(txns := db.txns[id := Txn(ops, Preparing, None, None)]))
  {
    var db' := db.(txns := db.txns[id := Txn(ops, Preparing, None, None)]);
    forall x, d | x in db'.txns && db'.txns[x].state == Prepared && db'.txns[x].nonce.Some? && d in DocKeys(db'.txns[x].ops)
      ensures Token(x, db'.txns[x].nonce.value) in QueueOf(db', d)
    {
      assert x != id && db'.txns[x] == db.txns[x] && QueueOf(db', d) == QueueOf(db, d);
    }
  }

  lemma InsertKept(s: System, s': System, id: Id, ops: seq<Op>)
    requires Inv(s) && Kept(s) && Insert(s, s', id, ops)
    ensures Kept(s')
  {
    hide DbOk, WorkerOk, WorkerKept;
    forall r | r in s'.workers
      ensures WorkerKept(s'.db, s'.workers[r])
    {
      assert WorkerOk(s.db, s.workers[r]) && WorkerKept(s.db, s.workers[r]);
      TokenIs(s.db, s.workers[r]);
      SameRecordKept(s.db, s'.db, s.workers[r]);
    }
    assert StoredKept(s'.db) by { InsertedKept(s.db, id, ops); }
  }

  lemma NextKept(s: System, s': System)
    requires Inv(s) && Kept(s) && Next(s, s') && NewTokens(s, s')
    requires AllPullsSettled(s) || !TakesNeeded(s, s')
    ensures Kept(s')
  {
    hide Inv, Kept, WorkerStep, AllPullsSettled, NewTokens, Spared, TakesNeeded;
    if id, ops :| Insert(s, s', id, ops) {
      InsertKept(s, s', id, ops);
    } else if r, w :| Load(s, s', r, w) {
      BegunKept(s, s', r);
    } else if r, w :| Revisit(s, s', r, w) {
      BegunKept(s, s', r);
    } else if r, w :| Act(s, s', r, w) {
      Spares(s, s', r, w);
      StepKept(s, s', r, w);
    } else {
      var r, w :| Fail(s, s', r, w);
      if w1 :| WorkerStep(s.db, s.workers[r], s'.db, w1) {
        Spares(s, s', r, w1);
        StepKept(s, s', r, w1);
      } else {
        StopKept(s, s', r);
      }
    }
  }

  lemma Spares(s: System, s': System, r: nat, w1: Worker)
    requires Inv(s) && Kept(s) && (AllPullsSettled(s) || !TakesNeeded(s, s'))
    requires r in s.workers && s.workers[r].id in s.db.txns && WorkerStep(s.db, s.workers[r], s'.db, w1)
    requires r in s'.workers && s'.workers == s.workers[r := s'.workers[r]]
    ensures Spared(s, s', r)
  {
    hide *;
    if !TakesNeeded(s, s') {
      NotTaken(s, s', r);
    } else {
      SettledSpares(s, s', r, w1);
    }
  }

  lemma StopKept(s: System, s': System, r: nat)
    requires Kept(s) && s'.db == s.db && r in s'.workers && s'.workers == s.workers[r := s'.workers[r]]
    requires s'.workers[r].pc == Advance || s'.workers[r].pc == Returned(Failed)
    ensures Kept(s')
  {
    hide StoredKept;
    StoppedKept(s'.db, s'.workers[r]);
    hide WorkerKept;
  }

  /** At every moment either the pulls are settled or the next step takes nothing away that is needed. */
  lemma {:induction false} RunKept(run: seq<System>, i: nat)
    requires IsRun(run) && i < |run| && forall j | 0 <= j < |run| - 1 :: NewTokens(run[j], run[j + 1])
    requires forall j | 0 <= j < i :: AllPullsSettled(run[j]) || !TakesNeeded(run[j], run[j + 1])
    ensures Kept(run[i])
  {
    hide Inv, Next, AllPullsSettled, NewTokens, WorkerKept, TakesNeeded;
    if i > 0 {
      RunKept(run, i - 1);
      RunInv(run, i - 1);
      assert Next(run[i - 1], run[i - 1 + 1]) && NewTokens(run[i - 1], run[i - 1 + 1]);
      NextKept(run[i - 1], run[i]);
    }
  }

  lemma NeededIsThere(s: System, d: DocKey, u: Token)
    requires Kept(s) && Needed(s, d, u)
    ensures u in QueueOf(s.db, d)
  {
    hide QueueOf, Entered, DocKeys;
    if r :| r in s.workers && NeededBy(s.db, s.workers[r], d, u) {
      assert WorkerKept(s.db, s.workers[r]);
    } else {
      assert Token(u.id, s.db.txns[u.id].nonce.value) == u;
    }
  }

  /** A token that has been taken from where it is needed is missing there. */
  lemma TakenIsMissing(s: System, s': System)
    requires TakesNeeded(s, s')
    ensures !Kept(s')
  {
    hide QueueOf, Kept, Needed;
    forall d, u | Kept(s') && Needed(s', d, u) ensures u in QueueOf(s'.db, d) {
      NeededIsThere(s', d, u);
    }
  }

  /** Exactly when all tokens are where they are needed, throughout a run in which new tokens are new: if and only if no step
      takes one away from there. And then no flusher panics over a lost token. */
  lemma KeptExactly(run: seq<System>)
    requires IsRun(run) && forall j | 0 <= j < |run| - 1 :: NewTokens(run[j], run[j + 1])
    ensures (forall i | 0 <= i < |run| :: Kept(run[i])) <==> (forall j | 0 <= j < |run| - 1 :: !TakesNeeded(run[j], run[j + 1]))
    ensures (forall i | 0 <= i < |run| :: Kept(run[i])) ==>
      forall i, r | 0 <= i < |run| && r in run[i].workers :: run[i].workers[r].pc != Returned(TokenLost)
  {
    hide IsRun, NewTokens, TakesNeeded, StoredKept, EnteredKept;
    if forall j | 0 <= j < |run| - 1 :: !TakesNeeded(run[j], run[j + 1]) {
      forall i | 0 <= i < |run| ensures Kept(run[i]) {
        RunKept(run, i);
      }
    } else {
      var j :| 0 <= j < |run| - 1 && TakesNeeded(run[j], run[j + 1]);
      TakenIsMissing(run[j], run[j + 1]);
    }
    forall i, r | 0 <= i < |run| && r in run[i].workers && Kept(run[i]) ensures run[i].workers[r].pc != Returned(TokenLost) {
      assert WorkerKept(run[i].db, run[i].workers[r]);
    }
  }

  /** In an orderly run the panic over a lost token is not reached: a prepared transaction's token is in the queues of all
      its documents at every moment. */
  lemma NoTokenLost(run: seq<System>, i: nat)
    requires IsOrderlyRun(run) && i < |run|
    ensures forall r | r in run[i].workers :: run[i].workers[r].pc != Returned(TokenLost)
    ensures forall id, d | id in run[i].db.txns && run[i].db.txns[id].state == Prepared && d in DocKeys(run[i].db.txns[id].ops) ::
      run[i].db.txns[id].nonce.Some? && Token(id, run[i].db.txns[id].nonce.value) in QueueOf(run[i].db, d)
  {
    RunKept(run, i);
    RunInv(run, i);
    hide IsOrderlyRun, EffectOk, WorkerOk;
    assert forall id | id in run[i].db.txns :: TxnOk(run[i].db.txns[id]);
    assert forall r | r in run[i].workers :: WorkerKept(run[i].db, run[i].workers[r]);
  }

  // ---- what run pulls is settled

  /** What has been seen of the transactions is what is stored. */
  ghost predicate SeenAsStored(db: Db, seen: map<Id, Nonce>) {
    forall id | id in seen :: id in db.txns && db.txns[id].nonce == Some(seen[id]) && db.txns[id].state != Preparing
  }

  ghost predicate OnItsWay(db: Db, id: Id) {
    id in db.txns && db.txns[id].state != Preparing && db.txns[id].state != Prepared
  }

  /** In run's order, with those flushed so far on their way to their end, what the pull set of a flush takes out of a queue
      that has been seen is settled. */
  lemma PlanPullsSettled(db: Db, seen: map<Id, Nonce>, queues: seq<seq<Token>>, plan: seq<Call>, i: nat, q: nat, keep: Option<Token>, t: Token)
    requires FlushesInOrder(seen, queues, plan) && i < |plan| && q < |queues| && plan[i].pull.PullIds?
    requires SeenAsStored(db, seen) && t.id in seen
    requires forall id: Id | id in seen && (id == plan[i].id || Before(plan, id, plan[i].id)) :: OnItsWay(db, id)
    requires t in Pulled(PullMap(seen, plan[i].pull.ids), queues[q], keep)
    ensures Settled(db, t)
  {
    hide FlushesInOrder, Pulled, PullMap;
    if IsValid(seen, t) {
      PullsOnlyHandled(seen, queues, plan, i, q, keep, t);
    }
  }

  lemma NothingAhead(seen: map<Id, Nonce>, queues: seq<seq<Token>>, goal: Id, q: nat, k: nat)
    requires !HasPrerequisites(seen, queues, goal) && q < |queues| && k < |queues[q]|
    requires IsValid(seen, queues[q][k]) && queues[q][k].id == goal
    ensures forall l | 0 <= l < k :: !IsValid(seen, queues[q][l])
  {
    forall l | 0 <= l < k
      ensures IsValid(seen, queues[q][l]) ==> Ahead(seen, queues, queues[q][l].id, goal)
    {
    }
  }

  /** The same for a goal without prerequisites, which is flushed by itself. */
  lemma GoalPullsSettled(db: Db, seen: map<Id, Nonce>, queues: seq<seq<Token>>, goal: Id, q: nat, keep: Option<Token>, t: Token)
    requires !HasPrerequisites(seen, queues, goal) && q < |queues| && goal in seen
    requires SeenAsStored(db, seen) && t.id in seen && OnItsWay(db, goal)
    requires t in Pulled(map[goal := seen[goal]], queues[q], keep)
    ensures Settled(db, t)
  {
    hide Pulled;
    var pull, dqueue := map[goal := seen[goal]], queues[q];
    if NoneDone(pull, dqueue, 0) {
      PulledStale(pull, dqueue, keep);
    } else {
      var j: nat :| j < |dqueue| && Done(pull, dqueue[j]);
      var k := LastDone(pull, dqueue, j);
      PulledUpTo(pull, dqueue, keep, k);
      NothingAhead(seen, queues, goal, q, k);
      assert t in dqueue[..k] ==> !IsValid(seen, t);
    }
  }

  lemma {:induction false} NotBlocked(q: seq<Token>, tt: Token, k: nat)
    requires !Blocked(q, tt) && k < |q| && tt !in q[..k + 1]
    ensures q[k].id == tt.id
    decreases k
  {
    assert q[..k + 1][0] == q[0];
    if k > 0 {
      assert q[1..][..k] == q[1..k + 1];
      NotBlocked(q[1..], tt, k - 1);
    }
  }

  /** And for a transaction that waits for nothing: it takes out entries of its own alone. */
  lemma OwnPullsSettled(db: Db, q: seq<Token>, tt: Token, keep: Option<Token>, t: Token)
    requires !Blocked(q, tt) && Distinct(q) && OnItsWay(db, tt.id)
    requires t in Pulled(map[tt.id := tt.nonce], q, keep)
    ensures t.id == tt.id && Settled(db, t)
  {
    hide Pulled, Blocked;
    var pull := map[tt.id := tt.nonce];
    if NoneDone(pull, q, 0) {
      PulledStale(pull, q, keep);
    } else {
      var j: nat :| j < |q| && Done(pull, q[j]);
      var k := LastDone(pull, q, j);
      PulledUpTo(pull, q, keep, k);
      if t in q[..k] {
        var l :| 0 <= l < k && q[l] == t;
        assert forall m | 0 <= m <= l :: q[m] != q[k];
        NotBlocked(q, tt, l);
      }
    }
  }
}
