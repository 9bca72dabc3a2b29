/** The protocol by which any number of flushers, each of which may stop at any
    moment, take transactions of Assert and Update operations to their end.

    They share nothing but the database: the transaction records, the documents
    with their txn-queue and txn-revno fields, and the stash entries that stand
    in for missing documents. A step is one access to the database together
    with what the flusher computes from it. */
module Flusher {
  import opened Basics
  import opened Graphs
  import opened FlushOrder
  import opened Pulling

  type DocKey = int

  // Op.Assert: nothing, txn.DocExists, txn.DocMissing, or a query on the content.
  datatype Query = NoQuery | DocExists | DocMissing | Content(condition: nat)

  datatype Op = Op(doc: DocKey, query: Query, update: bool)

  datatype TState = Preparing | Prepared | Aborting | Applying | Aborted | Applied

  // A transaction record, and a flusher's copy of one.
  datatype Txn = Txn(ops: seq<Op>, state: TState, nonce: Option<Nonce>, revnos: Option<seq<int>>)

  // revno 0 is a document without a txn-revno field.
  datatype Doc = Doc(revno: nat, queue: seq<Token>)

  // An update that has taken effect: operation `op` of `txn`, on `doc` when it was at `revno`.
  datatype Effect = Effect(txn: Id, op: nat, doc: DocKey, revno: nat)

  // The content of `doc` at `revno` meets the condition. Only updates change it, and they move the revision on, so that
  // over a run this is one set.
  datatype Meeting = Meeting(doc: DocKey, revno: int, condition: nat)

  datatype Db = Db(
    txns: map<Id, Txn>, docs: map<DocKey, Doc>, stash: map<DocKey, seq<Token>>, ghost log: seq<Effect>, ghost content: iset<Meeting>)

  // How a call of advance ends: nil, errPreReqs, some other error, or the panic
  // of a rescan that misses its token.
  datatype Outcome = Ok | PreReqs | Failed | TokenLost

  // Where in advance, prepare, rescan, assert, abortOrReload, checkpoint and apply a flusher is.
  datatype Pc =
    | Advance
    | PrepareDocs(tt: Token, todo: set<DocKey>, revno: map<DocKey, int>)
    | ConfirmStash(tt: Token, doc: DocKey, todo: set<DocKey>, revno: map<DocKey, int>)
    | Unstash(tt: Token, doc: DocKey, todo: set<DocKey>, revno: map<DocKey, int>)
    | SaveNonce(tt: Token, revno: map<DocKey, int>)
    | NonceLost(revno: map<DocKey, int>)
    | Rescan(todo: set<DocKey>, revno: map<DocKey, int>, retry: nat)
    | RescanMissed
    | RescanGone(todo: set<DocKey>, revno: map<DocKey, int>, retry: nat)
    | Assert(i: nat, revnos: seq<int>)
    | SetAborting(revnos: seq<int>)
    | AbortLost(revnos: seq<int>)
    | Pull(i: nat, revnos: seq<int>)
    | SetAborted
    | Checkpoint(revnos: seq<int>)
    | CheckpointLost
    | Apply(i: nat)
    | SetApplied
    | Returned(outcome: Outcome)
    | Panicked

  // One transaction in the hands of one flusher.
  datatype Worker = Worker(
    id: Id, t: Txn, force: bool, pull: Option<map<Id, Nonce>>, queue: map<DocKey, seq<Token>>, pc: Pc)

  datatype System = System(db: Db, workers: map<nat, Worker>)

  // ---- what a flusher computes between accesses

  function DocKeys(ops: seq<Op>): (r: set<DocKey>) {
    set op | op in ops :: op.doc
  }

  function Cached(queue: map<DocKey, seq<Token>>, d: DocKey): (r: seq<Token>) {
    if d in queue then queue[d] else []
  }

  function AddToSet(q: seq<Token>, tt: Token): (r: seq<Token>) {
    if tt in q then q else q + [tt]
  }

  /** An entry of another transaction comes before `tt`, or anywhere if `tt` is not there. */
  predicate Blocked(q: seq<Token>, tt: Token) {
    q != [] && q[0] != tt && (q[0].id != tt.id || Blocked(q[1..], tt))
  }

  predicate HasPrereqs(queue: map<DocKey, seq<Token>>, tt: Token, dkeys: set<DocKey>) {
    exists d | d in dkeys :: Blocked(Cached(queue, d), tt)
  }

  predicate FoundEverywhere(queue: map<DocKey, seq<Token>>, tt: Token, dkeys: set<DocKey>) {
    forall d | d in dkeys :: tt in Cached(queue, d)
  }

  // A missing key of a Go map reads as zero.
  function RevnoOf(revno: map<DocKey, int>, d: DocKey): int {
    if d in revno then revno[d] else 0
  }

  /** The revision each operation runs on, as prepare computes it. */
  function PrepareRevnos(ops: seq<Op>, revno: map<DocKey, int>): (r: seq<int>)
    ensures |r| == |ops|
  {
    if ops == [] then []
    else
      var n := RevnoOf(revno, ops[0].doc);
      [n] + PrepareRevnos(ops[1..], if ops[0].update && n >= 0 then revno[ops[0].doc := n + 1] else revno)
  }

  /** The same as rescan computes it: every change counts, even one on a missing document. */
  function RescanRevnos(ops: seq<Op>, revno: map<DocKey, int>): (r: seq<int>)
    ensures |r| == |ops|
  {
    if ops == [] then []
    else
      var n := RevnoOf(revno, ops[0].doc);
      [n] + RescanRevnos(ops[1..], if ops[0].update then revno[ops[0].doc := n + 1] else revno)
  }

  /** The position of the first operation on the document of operation `i`. */
  function FirstOn(ops: seq<Op>, i: nat): (j: nat)
    requires i < |ops|
    ensures j <= i && ops[j].doc == ops[i].doc
    ensures forall h | 0 <= h < j :: ops[h].doc != ops[i].doc
  {
    FirstFrom(ops, ops[i].doc, 0, i)
  }

  function FirstFrom(ops: seq<Op>, d: DocKey, from: nat, i: nat): (j: nat)
    requires from <= i < |ops| && ops[i].doc == d
    ensures from <= j <= i && ops[j].doc == d
    ensures forall h | from <= h < j :: ops[h].doc != d
    decreases i - from
  {
    if ops[from].doc == d then from else FirstFrom(ops, d, from + 1, i)
  }

  /** The operation with which a document's entry is pulled: its last change, or its first assertion. */
  predicate IsPullOp(ops: seq<Op>, i: nat)
    requires i < |ops|
  {
    if ops[i].update then forall j | i < j < |ops| && ops[j].doc == ops[i].doc :: !ops[j].update
    else forall j | 0 <= j < |ops| && ops[j].doc == ops[i].doc :: !ops[j].update && i <= j
  }

  /** The pull map in use: the one passed along, or just the transaction itself. */
  function PullOrSelf(w: Worker): (r: map<Id, Nonce>) {
    match w.pull
    case Some(p) => p
    case None => match w.t.nonce case Some(n) => map[w.id := n] case None => map[]
  }

  /** What prepare does once the record's nonce is `tt`'s. */
  function AfterNonce(w: Worker, tt: Token, revno: map<DocKey, int>): (r: Pc) {
    if !FoundEverywhere(w.queue, tt, DocKeys(w.t.ops)) then Rescan(DocKeys(w.t.ops), map[], 0)
    else if HasPrereqs(w.queue, tt, DocKeys(w.t.ops)) && !w.force then Returned(PreReqs)
    else Assert(0, PrepareRevnos(w.t.ops, revno))
  }

  // ---- one step of a flusher, by its position

  ghost predicate AdvanceStep(w: Worker, w': Worker) {
    match w.t.state
    case Preparing =>
      exists n: Nonce :: (w.t.nonce.Some? ==> n == w.t.nonce.value) &&
        w' == w.(pc := PrepareDocs(Token(w.id, n), DocKeys(w.t.ops), map[]))
    case Prepared =>
      if w.t.nonce.None? then w' == w.(pc := Panicked)
      else
        var tt := Token(w.id, w.t.nonce.value);
        if !w.force && FoundEverywhere(w.queue, tt, DocKeys(w.t.ops)) && HasPrereqs(w.queue, tt, DocKeys(w.t.ops))
        then w' == w.(pc := Returned(PreReqs))
        else w' == w.(pc := Rescan(DocKeys(w.t.ops), map[], 0))
    case Applying => w' == w.(pc := Apply(0))
    case Aborting => w' == w.(pc := SetAborted)
    case Applied => w' == w.(pc := Returned(Ok))
    case Aborted => w' == w.(pc := Returned(Ok))
  }

  ghost predicate PrepareStep(db: Db, w: Worker, db': Db, w': Worker)
    requires w.pc.PrepareDocs?
  {
    var tt, todo, revno := w.pc.tt, w.pc.todo, w.pc.revno;
    if todo == {} then db' == db && w' == w.(pc := SaveNonce(tt, revno))
    else exists d | d in todo ::
      if d in db.docs then
        var q := AddToSet(db.docs[d].queue, tt);
        && db' == db.(docs := db.docs[d := db.docs[d].(queue := q)])
        && w' == w.(queue := w.queue[d := q], pc := PrepareDocs(tt, todo - {d}, revno[d := db.docs[d].revno]))
      else
        && db' == db.(stash := db.stash[d := AddToSet(Cached(db.stash, d), tt)])
        && w' == w.(pc := ConfirmStash(tt, d, todo, revno))
  }

  ghost predicate ConfirmStep(db: Db, w: Worker, w': Worker)
    requires w.pc.ConfirmStash?
  {
    var tt, d, todo, revno := w.pc.tt, w.pc.doc, w.pc.todo, w.pc.revno;
    if d in db.docs && tt in db.docs[d].queue then
      w' == w.(queue := w.queue[d := db.docs[d].queue], pc := PrepareDocs(tt, todo - {d}, revno[d := db.docs[d].revno]))
    else if d !in db.docs && d in db.stash && tt in db.stash[d] then
      w' == w.(queue := w.queue[d := db.stash[d]], pc := PrepareDocs(tt, todo - {d}, revno[d := -1]))
    else w' == w.(pc := Unstash(tt, d, todo, revno))
  }

  /** Takes `tt` back out of the stash entry, and removes the entry or not if that empties it. */
  ghost predicate UnstashStep(db: Db, w: Worker, db': Db, w': Worker)
    requires w.pc.Unstash?
  {
    var d := w.pc.doc;
    var rest := PullAll(Cached(db.stash, d), [w.pc.tt]);
    && w' == w.(pc := PrepareDocs(w.pc.tt, w.pc.todo, w.pc.revno))
    && (|| db' == db
        || (d in db.stash && db' == db.(stash := db.stash[d := rest]))
        || (d in db.stash && rest == [] && db' == db.(stash := db.stash - {d})))
  }

  ghost predicate SaveNonceStep(db: Db, w: Worker, db': Db, w': Worker)
    requires w.pc.SaveNonce? && w.id in db.txns
  {
    var rec := db.txns[w.id];
    if rec.state == Preparing then
      var w1 := w.(t := w.t.(state := Prepared, nonce := Some(w.pc.tt.nonce)));
      && db' == db.(txns := db.txns[w.id := rec.(state := Prepared, nonce := Some(w.pc.tt.nonce))])
      && w' == w1.(pc := AfterNonce(w1, w.pc.tt, w.pc.revno))
    else db' == db && w' == w.(pc := NonceLost(w.pc.revno))
  }

  /** reload: the record's state, nonce and revnos replace the copy's. */
  function Reload(db: Db, w: Worker): Worker
    requires w.id in db.txns
  {
    var rec := db.txns[w.id];
    w.(t := w.t.(state := rec.state, nonce := rec.nonce, revnos := rec.revnos))
  }

  ghost predicate NonceLostStep(db: Db, w: Worker, w': Worker)
    requires w.pc.NonceLost? && w.id in db.txns
  {
    var w1 := Reload(db, w);
    if w1.t.state == Preparing then w' == w1.(pc := Panicked)
    else if w1.t.state != Prepared then w' == w1.(pc := Advance)
    else if w1.t.nonce.None? then w' == w1.(pc := Panicked)
    else w' == w1.(pc := AfterNonce(w1, Token(w.id, w1.t.nonce.value), w.pc.revno))
  }

  ghost predicate RescanStep(db: Db, w: Worker, w': Worker)
    requires w.pc.Rescan?
  {
    var todo, revno := w.pc.todo, w.pc.revno;
    if w.t.state != Prepared || w.t.nonce.None? then w' == w.(pc := Panicked)
    else
      var tt := Token(w.id, w.t.nonce.value);
      if todo == {} then
        if !FoundEverywhere(w.queue, tt, DocKeys(w.t.ops)) then w' == w.(pc := Panicked)
        else if HasPrereqs(w.queue, tt, DocKeys(w.t.ops)) && !w.force then w' == w.(pc := Returned(PreReqs))
        else w' == w.(pc := Assert(0, RescanRevnos(w.t.ops, revno)))
      else exists d | d in todo ::
        if d !in db.docs && d !in db.stash then w' == w.(pc := RescanGone(todo, revno, w.pc.retry))
        else
          var q := if d in db.docs then db.docs[d].queue else db.stash[d];
          var n := if d in db.docs then db.docs[d].revno else -1;
          w' == w.(queue := w.queue[d := q],
                   pc := if tt in q then Rescan(todo - {d}, revno[d := n], 0) else RescanMissed)
  }

  ghost predicate RescanMissedStep(db: Db, w: Worker, w': Worker)
    requires w.id in db.txns
  {
    var w1 := Reload(db, w);
    w' == w1.(pc := if w1.t.state == Preparing || w1.t.state == Prepared then Returned(TokenLost) else Advance)
  }

  ghost predicate RescanGoneStep(db: Db, w: Worker, w': Worker)
    requires w.pc.RescanGone? && w.id in db.txns
  {
    var w1 := Reload(db, w);
    w' == w1.(pc := if w1.t.state != Prepared then Advance
                    else if w.pc.retry + 1 < 3 then Rescan(w.pc.todo, w.pc.revno, w.pc.retry + 1)
                    else Returned(Failed))
  }

  ghost predicate AssertStep(db: Db, w: Worker, w': Worker)
    requires w.pc.Assert?
  {
    var i, revnos := w.pc.i, w.pc.revnos;
    if w.t.state != Prepared || |revnos| != |w.t.ops| || i > |revnos| then w' == w.(pc := Panicked)
    else if i == |w.t.ops| then w' == w.(pc := Checkpoint(revnos))
    else
      var op := w.t.ops[i];
      var passed, failed := w.(pc := Assert(i + 1, revnos)), w.(pc := SetAborting(revnos));
      var hit := op.doc in db.docs && db.docs[op.doc].revno == revnos[FirstOn(w.t.ops, i)];
      match op.query
      case NoQuery => w' == passed
      case DocMissing => w' == if revnos[i] >= 0 then failed else passed
      case DocExists => w' == if hit then passed else failed
      case Content(c) => w' == if hit && Meeting(op.doc, db.docs[op.doc].revno, c) in db.content then passed else failed
  }

  ghost predicate SetAbortingStep(db: Db, w: Worker, db': Db, w': Worker)
    requires w.pc.SetAborting? && w.id in db.txns
  {
    var rec := db.txns[w.id];
    if w.t.state != Prepared then db' == db && w' == w.(pc := Panicked)
    else if rec.state == Prepared then
      && db' == db.(txns := db.txns[w.id := rec.(state := Aborting)])
      && w' == w.(t := w.t.(state := Aborting), pc := Pull(0, w.pc.revnos))
    else db' == db && w' == w.(pc := AbortLost(w.pc.revnos))
  }

  ghost predicate AbortLostStep(db: Db, w: Worker, w': Worker)
    requires w.pc.AbortLost? && w.id in db.txns
  {
    var w1 := Reload(db, w);
    w' == w1.(pc := if w1.t.state != Aborting then Advance else Pull(0, w.pc.revnos))
  }

  ghost predicate PullStep(db: Db, w: Worker, db': Db, w': Worker)
    requires w.pc.Pull?
  {
    var i, revnos := w.pc.i, w.pc.revnos;
    if i >= |w.t.ops| || i >= |revnos| then db' == db && w' == w.(pc := SetAborted)
    else
      var d := w.t.ops[i].doc;
      var gone := Pulled(PullOrSelf(w), Cached(w.queue, d), None);
      && w' == w.(pc := Pull(i + 1, revnos))
      && if FirstOn(w.t.ops, i) != i || gone == [] then db' == db
         else if revnos[i] < 0 then
           db' == if d in db.stash then db.(stash := db.stash[d := PullAll(db.stash[d], gone)]) else db
         else
           db' == if d in db.docs then db.(docs := db.docs[d := db.docs[d].(queue := PullAll(db.docs[d].queue, gone))]) else db
  }

  /** The record becomes aborted, whatever it was. */
  ghost predicate SetAbortedStep(db: Db, w: Worker, db': Db, w': Worker)
    requires w.id in db.txns
  {
    && db' == db.(txns := db.txns[w.id := db.txns[w.id].(state := Aborted)])
    && w' == w.(t := w.t.(state := Aborted), pc := Advance)
  }

  ghost predicate CheckpointStep(db: Db, w: Worker, db': Db, w': Worker)
    requires w.pc.Checkpoint? && w.id in db.txns
  {
    var rec := db.txns[w.id];
    if rec.state == Prepared then
      && db' == db.(txns := db.txns[w.id := rec.(state := Applying, revnos := Some(w.pc.revnos))])
      && w' == w.(t := w.t.(state := Applying, revnos := Some(w.pc.revnos)), pc := Advance)
    else db' == db && w' == w.(pc := CheckpointLost)
  }

  /** Operation `i` changes its document now. */
  predicate TakesEffect(db: Db, w: Worker, i: nat)
    requires i < |w.t.ops| && w.t.revnos.Some? && |w.t.revnos.value| == |w.t.ops| && w.t.nonce.Some?
  {
    var op, revno := w.t.ops[i], w.t.revnos.value[i];
    && op.update && revno >= 0
    && op.doc in db.docs && db.docs[op.doc].revno == revno
    && Token(w.id, w.t.nonce.value) in db.docs[op.doc].queue
  }

  ghost predicate ApplyStep(db: Db, w: Worker, db': Db, w': Worker)
    requires w.pc.Apply?
  {
    var i := w.pc.i;
    if w.t.state != Applying || w.t.nonce.None? || w.t.revnos.None? || |w.t.revnos.value| != |w.t.ops| || i > |w.t.ops| then
      db' == db && w' == w.(pc := Panicked)
    else if i == |w.t.ops| then
      db' == db && w' == w.(t := w.t.(state := Applied), pc := SetApplied)
    else
      && w' == w.(pc := Apply(i + 1))
      && if TakesEffect(db, w, i) then
           var d, revno, tt := w.t.ops[i].doc, w.t.revnos.value[i], Token(w.id, w.t.nonce.value);
           var gone := Pulled(PullOrSelf(w), Cached(w.queue, d), if IsPullOp(w.t.ops, i) then None else Some(tt));
           db' == db.(docs := db.docs[d := Doc(revno + 1, PullAll(db.docs[d].queue, gone))],
                      log := db.log + [Effect(w.id, i, d, revno)])
         else db' == db
  }

  ghost predicate SetAppliedStep(db: Db, w: Worker, db': Db, w': Worker)
    requires w.id in db.txns
  {
    && w' == w.(pc := Returned(Ok))
    && db' == if db.txns[w.id].state == Applying then db.(txns := db.txns[w.id := db.txns[w.id].(state := Applied)]) else db
  }

  ghost predicate WorkerStep(db: Db, w: Worker, db': Db, w': Worker)
    requires w.id in db.txns
  {
    match w.pc
    case Advance => db' == db && AdvanceStep(w, w')
    case PrepareDocs(_, _, _) => PrepareStep(db, w, db', w')
    case ConfirmStash(_, _, _, _) => db' == db && ConfirmStep(db, w, w')
    case Unstash(_, _, _, _) => UnstashStep(db, w, db', w')
    case SaveNonce(_, _) => SaveNonceStep(db, w, db', w')
    case NonceLost(_) => db' == db && NonceLostStep(db, w, w')
    case Rescan(_, _, _) => db' == db && RescanStep(db, w, w')
    case RescanMissed => db' == db && RescanMissedStep(db, w, w')
    case RescanGone(_, _, _) => db' == db && RescanGoneStep(db, w, w')
    case Assert(_, _) => db' == db && AssertStep(db, w, w')
    case SetAborting(_) => SetAbortingStep(db, w, db', w')
    case AbortLost(_) => db' == db && AbortLostStep(db, w, w')
    case Pull(_, _) => PullStep(db, w, db', w')
    case SetAborted => SetAbortedStep(db, w, db', w')
    case Checkpoint(_) => CheckpointStep(db, w, db', w')
    case CheckpointLost => db' == db && w' == Reload(db, w).(pc := Advance)
    case Apply(_) => ApplyStep(db, w, db', w')
    case SetApplied => SetAppliedStep(db, w, db', w')
    case Returned(_) => false
    case Panicked => false
  }

  /** Runner.Run inserts a new record. */
  ghost predicate Insert(s: System, s': System, id: Id, ops: seq<Op>) {
    && id !in s.db.txns
    && s' == s.(db := s.db.(txns := s.db.txns[id := Txn(ops, Preparing, None, None)]))
  }

  /** A flusher loads a record, with whatever queues and pull map it has by then. */
  ghost predicate Load(s: System, s': System, r: nat, w: Worker) {
    && r !in s.workers && w.id in s.db.txns
    && w.t == s.db.txns[w.id] && w.pc == Advance
    && s' == s.(workers := s.workers[r := w])
  }

  /** A flusher comes back to a copy it has put aside. */
  ghost predicate Revisit(s: System, s': System, r: nat, w: Worker) {
    && r in s.workers && s.workers[r].pc.Returned?
    && w.id == s.workers[r].id && w.t == s.workers[r].t && w.pc == Advance
    && s' == s.(workers := s.workers[r := w])
  }

  /** A flusher goes on. */
  ghost predicate Act(s: System, s': System, r: nat, w: Worker) {
    && r in s.workers && s.workers[r].id in s.db.txns
    && WorkerStep(s.db, s.workers[r], s'.db, w)
    && s'.workers == s.workers[r := w]
  }

  /** A flusher stops with an error, whether or not its last access went through. A failed
      checkpoint is not reported: advance just goes around again. */
  ghost predicate Fail(s: System, s': System, r: nat, w: Worker) {
    && r in s.workers && s.workers[r].id in s.db.txns
    && (s'.db == s.db || exists w1 :: WorkerStep(s.db, s.workers[r], s'.db, w1))
    && (|| w == s.workers[r].(pc := Returned(Failed))
        || (s.workers[r].pc.Checkpoint? && w == s.workers[r].(pc := Advance)))
    && s'.workers == s.workers[r := w]
  }

  ghost predicate Next(s: System, s': System) {
    || (exists id, ops :: Insert(s, s', id, ops))
    || (exists r, w :: Load(s, s', r, w))
    || (exists r, w :: Revisit(s, s', r, w))
    || (exists r, w :: Act(s, s', r, w))
    || (exists r, w :: Fail(s, s', r, w))
  }

  /** No transactions yet, and documents in any state. */
  ghost predicate Init(s: System) {
    s.db.txns == map[] && s.workers == map[] && s.db.log == []
  }

  ghost predicate IsRun(run: seq<System>) {
    && run != [] && Init(run[0])
    && forall i | 0 <= i < |run| - 1 :: Next(run[i], run[i + 1])
  }

  // ---- what holds at every moment

  ghost predicate TxnOk(t: Txn) {
    && (t.nonce.Some? <==> t.state != Preparing)
    && (t.revnos.Some? <==> t.state == Applying || t.state == Applied)
    && (t.revnos.Some? ==> |t.revnos.value| == |t.ops|)
  }

  /** The only ways a transaction's state moves: preparing, prepared, then either
      applying and applied, or aborting and aborted. */
  ghost predicate StateLeads(a: TState, b: TState) {
    || a == b
    || a == Preparing
    || (a == Prepared && b != Preparing)
    || (a == Applying && b == Applied)
    || (a == Aborting && b == Aborted)
  }

  /** `t'` is the record `t` or a later version of it. */
  ghost predicate Leads(t: Txn, t': Txn) {
    && t'.ops == t.ops
    && StateLeads(t.state, t'.state)
    && (t.nonce.Some? ==> t'.nonce == t.nonce)
    && (t.revnos.Some? ==> t'.revnos == t.revnos)
  }

  /** A flusher's copy is an earlier version of the record, except that it may call
      applied what the record still calls applying. */
  ghost predicate CopyOk(copy: Txn, rec: Txn) {
    && TxnOk(copy)
    && Leads(if copy.state == Applied then copy.(state := Applying) else copy, rec)
  }

  /** The documents in `todo` are still to be read, the others are read and list `tt`. */
  ghost predicate Collected(w: Worker, tt: Token, todo: set<DocKey>, revno: map<DocKey, int>) {
    && DocKeys(w.t.ops) <= todo + revno.Keys
    && todo <= DocKeys(w.t.ops)
    && forall d | d in revno :: tt in Cached(w.queue, d)
  }

  /** Each position goes with its state of the copy; Panicked goes with none. */
  ghost predicate PcOk(w: Worker, rec: Txn) {
    match w.pc
    case Advance => true
    case PrepareDocs(tt, todo, revno) => w.t.state == Preparing && tt.id == w.id && Collected(w, tt, todo, revno)
    case ConfirmStash(tt, d, todo, revno) =>
      w.t.state == Preparing && tt.id == w.id && d in todo && Collected(w, tt, todo, revno)
    case Unstash(tt, d, todo, revno) => w.t.state == Preparing && tt.id == w.id && Collected(w, tt, todo, revno)
    case SaveNonce(tt, revno) => w.t.state == Preparing && tt.id == w.id && Collected(w, tt, {}, revno)
    case NonceLost(revno) => w.t.state == Preparing && rec.state != Preparing && DocKeys(w.t.ops) <= revno.Keys
    case Rescan(todo, revno, _) =>
      w.t.state == Prepared && w.t.nonce.Some? && Collected(w, Token(w.id, w.t.nonce.value), todo, revno)
    case RescanMissed => w.t.state == Prepared
    case RescanGone(todo, revno, _) =>
      w.t.state == Prepared && w.t.nonce.Some? && Collected(w, Token(w.id, w.t.nonce.value), todo, revno)
    case Assert(i, revnos) => w.t.state == Prepared && |revnos| == |w.t.ops| && i <= |revnos|
    case SetAborting(revnos) => w.t.state == Prepared && |revnos| == |w.t.ops|
    case AbortLost(revnos) => w.t.state == Prepared && |revnos| == |w.t.ops|
    case Pull(i, revnos) => w.t.state == Aborting && |revnos| == |w.t.ops|
    case SetAborted => w.t.state == Aborting
    case Checkpoint(revnos) => w.t.state == Prepared && |revnos| == |w.t.ops|
    case CheckpointLost => w.t.state == Prepared
    case Apply(i) => w.t.state == Applying && i <= |w.t.ops|
    case SetApplied => w.t.state == Applied
    case Returned(outcome) => outcome == Ok ==> w.t.state == Applied || w.t.state == Aborted
    case Panicked => false
  }

  ghost predicate WorkerOk(db: Db, w: Worker) {
    && w.id in db.txns
    && CopyOk(w.t, db.txns[w.id])
    && PcOk(w, db.txns[w.id])
  }

  /** Every effect belongs to an operation of a transaction that is being or has been applied,
      happened on the revision saved for that operation, and left its document at a later one. */
  ghost predicate EffectOk(db: Db, e: Effect) {
    && e.txn in db.txns
    && var t := db.txns[e.txn];
    && t.revnos.Some? && e.op < |t.ops| && |t.revnos.value| == |t.ops|
    && t.ops[e.op].update && t.ops[e.op].doc == e.doc && t.revnos.value[e.op] == e.revno
    && e.doc in db.docs && e.revno < db.docs[e.doc].revno
  }

  ghost predicate DbOk(db: Db) {
    && (forall id | id in db.txns :: TxnOk(db.txns[id]))
    && (forall e | e in db.log :: EffectOk(db, e))
    // an operation takes effect at most once
    && (forall i, j | 0 <= i < j < |db.log| :: db.log[i].txn != db.log[j].txn || db.log[i].op != db.log[j].op)
    // the effects on a document are in the order of its revisions
    && (forall i, j | 0 <= i < j < |db.log| && db.log[i].doc == db.log[j].doc :: db.log[i].revno < db.log[j].revno)
  }

  ghost predicate Inv(s: System) {
    DbOk(s.db) && forall r | r in s.workers :: WorkerOk(s.db, s.workers[r])
  }

  /** What one step may do to the database: records move on, no record or document goes away,
      and revisions count the effects. */
  ghost predicate Progress(db: Db, db': Db) {
    && (forall id | id in db.txns :: id in db'.txns && Leads(db.txns[id], db'.txns[id]))
    && db'.docs.Keys == db.docs.Keys && db'.content == db.content
    && db.log <= db'.log && |db'.log| <= |db.log| + 1
    && (|db'.log| == |db.log| ==> forall d | d in db.docs :: db'.docs[d].revno == db.docs[d].revno)
    && (|db'.log| > |db.log| ==>
          var e := db'.log[|db.log|];
          && e.doc in db.docs && e.revno == db.docs[e.doc].revno
          && (forall d | d in db.docs :: db'.docs[d].revno == db.docs[d].revno + (if d == e.doc then 1 else 0)))
  }

  lemma LeadsTransitive(a: Txn, b: Txn, c: Txn)
    requires Leads(a, b) && Leads(b, c)
    ensures Leads(a, c)
  {
  }

  lemma CopyStaysOk(copy: Txn, rec: Txn, rec': Txn)
    requires CopyOk(copy, rec) && Leads(rec, rec')
    ensures CopyOk(copy, rec')
  {
    LeadsTransitive(if copy.state == Applied then copy.(state := Applying) else copy, rec, rec');
  }

  /** A flusher that does not move stays consistent with whatever the others do. */
  lemma BystanderOk(db: Db, db': Db, w: Worker)
    requires WorkerOk(db, w) && Progress(db, db')
    ensures WorkerOk(db', w)
  {
    CopyStaysOk(w.t, db.txns[w.id], db'.txns[w.id]);
    hide CopyOk, TxnOk, Collected;
  }

  /** Neither the records nor the revisions of the documents changed. */
  ghost predicate SameRevisions(db: Db, db': Db) {
    && db'.txns == db.txns && db'.log == db.log && db'.content == db.content
    && db'.docs.Keys == db.docs.Keys
    && (forall d | d in db.docs :: db'.docs[d].revno == db.docs[d].revno)
  }

  lemma QueueChange(db: Db, db': Db)
    requires DbOk(db) && SameRevisions(db, db')
    ensures DbOk(db') && Progress(db, db')
  {
    hide TxnOk;
    forall e | e in db'.log
      ensures EffectOk(db', e)
    {
      assert EffectOk(db, e);
    }
  }

  /** One record moved on. */
  lemma RecordChange(db: Db, id: Id, rec: Txn)
    requires DbOk(db) && id in db.txns && TxnOk(rec) && Leads(db.txns[id], rec)
    ensures DbOk(db.(txns := db.txns[id := rec])) && Progress(db, db.(txns := db.txns[id := rec]))
  {
    var db' := db.(txns := db.txns[id := rec]);
    forall e | e in db'.log
      ensures EffectOk(db', e)
    {
      assert EffectOk(db, e);
    }
  }

  /** An update took effect. */
  lemma EffectChange(db: Db, e: Effect, queue: seq<Token>)
    requires DbOk(db) && e.txn in db.txns && e.doc in db.docs && db.docs[e.doc].revno == e.revno
    requires db.txns[e.txn].revnos.Some? && e.op < |db.txns[e.txn].ops| == |db.txns[e.txn].revnos.value|
    requires db.txns[e.txn].ops[e.op].update && db.txns[e.txn].ops[e.op].doc == e.doc
    requires db.txns[e.txn].revnos.value[e.op] == e.revno
    ensures var db' := db.(docs := db.docs[e.doc := Doc(e.revno + 1, queue)], log := db.log + [e]);
      DbOk(db') && Progress(db, db')
  {
    hide TxnOk;
    var db' := db.(docs := db.docs[e.doc := Doc(e.revno + 1, queue)], log := db.log + [e]);
    forall f | f in db'.log
      ensures EffectOk(db', f)
    {
      if f in db.log {
        assert EffectOk(db, f);
      }
    }
    forall i | 0 <= i < |db.log|
      ensures db.log[i].doc == e.doc ==> db.log[i].revno < e.revno
      ensures db.log[i].txn != e.txn || db.log[i].op != e.op
    {
      assert EffectOk(db, db.log[i]);
    }
  }

  /** The steps that only read, up to the point where the transaction is prepared. */
  lemma AdvanceKeeps(db: Db, w: Worker, w': Worker)
    requires WorkerOk(db, w) && w.pc.Advance? && AdvanceStep(w, w')
    ensures WorkerOk(db, w')
  {
    hide StateLeads;
  }

  lemma PrepareKeeps(db: Db, w: Worker, db': Db, w': Worker)
    requires WorkerOk(db, w) && w.pc.PrepareDocs? && PrepareStep(db, w, db', w')
    ensures WorkerOk(db, w') && SameRevisions(db, db')
  {
    hide CopyOk, Blocked;
  }

  lemma ConfirmKeeps(db: Db, w: Worker, w': Worker)
    requires WorkerOk(db, w) && w.pc.ConfirmStash? && ConfirmStep(db, w, w')
    ensures WorkerOk(db, w')
  {
    hide CopyOk, Blocked;
  }

  lemma UnstashKeeps(db: Db, w: Worker, db': Db, w': Worker)
    requires WorkerOk(db, w) && w.pc.Unstash? && UnstashStep(db, w, db', w')
    ensures WorkerOk(db, w') && SameRevisions(db, db')
  {
    hide CopyOk, Blocked, PullAll;
  }

  lemma AfterNonceOk(w: Worker, rec: Txn, revno: map<DocKey, int>)
    requires w.t.state == Prepared && w.t.nonce.Some?
    requires DocKeys(w.t.ops) <= revno.Keys
    ensures PcOk(w.(pc := AfterNonce(w, Token(w.id, w.t.nonce.value), revno)), rec)
  {
    hide HasPrereqs, Blocked;
  }

  lemma SaveNonceKeeps(db: Db, w: Worker, db': Db, w': Worker)
    requires DbOk(db) && WorkerOk(db, w) && w.pc.SaveNonce? && SaveNonceStep(db, w, db', w')
    ensures DbOk(db') && Progress(db, db') && WorkerOk(db', w')
  {
    var rec := db.txns[w.id];
    hide EffectOk, HasPrereqs;
    if rec.state == Preparing {
      var rec' := rec.(state := Prepared, nonce := Some(w.pc.tt.nonce));
      RecordChange(db, w.id, rec');
      var w1 := w.(t := w.t.(state := Prepared, nonce := Some(w.pc.tt.nonce)));
      assert w.pc.tt == Token(w.id, w1.t.nonce.value);
      AfterNonceOk(w1, rec', w.pc.revno);
    } else {
      QueueChange(db, db');
    }
  }

  lemma ReloadOk(db: Db, w: Worker)
    requires DbOk(db) && w.id in db.txns && w.t.ops == db.txns[w.id].ops
    ensures Reload(db, w).t == db.txns[w.id] && CopyOk(Reload(db, w).t, db.txns[w.id])
  {
    assert TxnOk(db.txns[w.id]);
  }

  lemma NonceLostKeeps(db: Db, w: Worker, w': Worker)
    requires DbOk(db) && WorkerOk(db, w) && w.pc.NonceLost? && NonceLostStep(db, w, w')
    ensures WorkerOk(db, w')
  {
    ReloadOk(db, w);
    var w1 := Reload(db, w);
    assert TxnOk(w1.t);
    hide EffectOk, HasPrereqs, FoundEverywhere;
    if w1.t.state == Prepared {
      AfterNonceOk(w1, db.txns[w.id], w.pc.revno);
    }
  }

  lemma RescanKeeps(db: Db, w: Worker, w': Worker)
    requires WorkerOk(db, w) && w.pc.Rescan? && RescanStep(db, w, w')
    ensures WorkerOk(db, w')
  {
    hide CopyOk, Blocked, HasPrereqs;
  }

  lemma ReloadingKeeps(db: Db, w: Worker, w': Worker)
    requires DbOk(db) && WorkerOk(db, w)
    requires || (w.pc.RescanMissed? && RescanMissedStep(db, w, w'))
             || (w.pc.RescanGone? && RescanGoneStep(db, w, w'))
             || (w.pc.AbortLost? && AbortLostStep(db, w, w'))
             || (w.pc.CheckpointLost? && w' == Reload(db, w).(pc := Advance))
    ensures WorkerOk(db, w')
  {
    ReloadOk(db, w);
    var w1 := Reload(db, w);
    hide EffectOk, Blocked;
    if w.pc.RescanGone? && w1.t.state == Prepared {
      assert w1.t.nonce == w.t.nonce;
      hide CopyOk, TxnOk;
    }
  }

  lemma AssertKeeps(db: Db, w: Worker, w': Worker)
    requires WorkerOk(db, w) && w.pc.Assert? && AssertStep(db, w, w')
    ensures WorkerOk(db, w')
  {
    hide CopyOk, FirstOn;
  }

  lemma SetAbortingKeeps(db: Db, w: Worker, db': Db, w': Worker)
    requires DbOk(db) && WorkerOk(db, w) && w.pc.SetAborting? && SetAbortingStep(db, w, db', w')
    ensures DbOk(db') && Progress(db, db') && WorkerOk(db', w')
  {
    hide EffectOk;
    var rec := db.txns[w.id];
    assert TxnOk(rec);
    if rec.state == Prepared {
      RecordChange(db, w.id, rec.(state := Aborting));
    } else {
      QueueChange(db, db');
    }
  }

  lemma SetAbortedKeeps(db: Db, w: Worker, db': Db, w': Worker)
    requires DbOk(db) && WorkerOk(db, w) && w.pc.SetAborted? && SetAbortedStep(db, w, db', w')
    ensures DbOk(db') && Progress(db, db') && WorkerOk(db', w')
  {
    hide EffectOk;
    assert TxnOk(db.txns[w.id]);
    RecordChange(db, w.id, db.txns[w.id].(state := Aborted));
  }

  lemma PullKeeps(db: Db, w: Worker, db': Db, w': Worker)
    requires WorkerOk(db, w) && w.pc.Pull? && PullStep(db, w, db', w')
    ensures WorkerOk(db, w') && SameRevisions(db, db')
  {
    hide CopyOk, FirstOn, Pulled, PullAll;
  }

  lemma CheckpointKeeps(db: Db, w: Worker, db': Db, w': Worker)
    requires DbOk(db) && WorkerOk(db, w) && w.pc.Checkpoint? && CheckpointStep(db, w, db', w')
    ensures DbOk(db') && Progress(db, db') && WorkerOk(db', w')
  {
    hide EffectOk;
    var rec := db.txns[w.id];
    assert TxnOk(rec);
    if rec.state == Prepared {
      RecordChange(db, w.id, rec.(state := Applying, revnos := Some(w.pc.revnos)));
    } else {
      QueueChange(db, db');
    }
  }

  lemma ApplyKeeps(db: Db, w: Worker, db': Db, w': Worker)
    requires DbOk(db) && WorkerOk(db, w) && w.pc.Apply? && ApplyStep(db, w, db', w')
    ensures DbOk(db') && Progress(db, db') && WorkerOk(db', w')
  {
    hide EffectOk, IsPullOp, Pulled, PullAll, PullOrSelf;
    var i := w.pc.i;
    if i < |w.t.ops| && TakesEffect(db, w, i) {
      var e := Effect(w.id, i, w.t.ops[i].doc, w.t.revnos.value[i]);
      assert db.txns[w.id].revnos == w.t.revnos;
      EffectChange(db, e, db'.docs[e.doc].queue);
      hide DbOk;
      CopyStaysOk(w.t, db.txns[w.id], db'.txns[w.id]);
    } else {
      QueueChange(db, db');
    }
  }

  lemma SetAppliedKeeps(db: Db, w: Worker, db': Db, w': Worker)
    requires DbOk(db) && WorkerOk(db, w) && w.pc.SetApplied? && SetAppliedStep(db, w, db', w')
    ensures DbOk(db') && Progress(db, db') && WorkerOk(db', w')
  {
    hide EffectOk;
    var rec := db.txns[w.id];
    assert TxnOk(rec);
    if rec.state == Applying {
      RecordChange(db, w.id, rec.(state := Applied));
    } else {
      QueueChange(db, db');
    }
  }

  /** Every step of a flusher keeps the database and itself in order. */
  lemma WorkerStepKeeps(db: Db, w: Worker, db': Db, w': Worker)
    requires DbOk(db) && WorkerOk(db, w) && WorkerStep(db, w, db', w')
    ensures DbOk(db') && Progress(db, db') && WorkerOk(db', w')
  {
    hide DbOk, Progress, WorkerOk;
    match w.pc {
      case PrepareDocs(_, _, _) => PrepareKeeps(db, w, db', w'); Quiet(db, db', w');
      case Unstash(_, _, _, _) => UnstashKeeps(db, w, db', w'); Quiet(db, db', w');
      case Pull(_, _) => PullKeeps(db, w, db', w'); Quiet(db, db', w');
      case SaveNonce(_, _) => SaveNonceKeeps(db, w, db', w');
      case SetAborting(_) => SetAbortingKeeps(db, w, db', w');
      case SetAborted => SetAbortedKeeps(db, w, db', w');
      case Checkpoint(_) => CheckpointKeeps(db, w, db', w');
      case Apply(_) => ApplyKeeps(db, w, db', w');
      case SetApplied => SetAppliedKeeps(db, w, db', w');
      case Advance => AdvanceKeeps(db, w, w'); Quiet(db, db', w');
      case ConfirmStash(_, _, _, _) => ConfirmKeeps(db, w, w'); Quiet(db, db', w');
      case NonceLost(_) => NonceLostKeeps(db, w, w'); Quiet(db, db', w');
      case Rescan(_, _, _) => RescanKeeps(db, w, w'); Quiet(db, db', w');
      case Assert(_, _) => AssertKeeps(db, w, w'); Quiet(db, db', w');
      case RescanMissed => ReloadingKeeps(db, w, w'); Quiet(db, db', w');
      case RescanGone(_, _, _) => ReloadingKeeps(db, w, w'); Quiet(db, db', w');
      case AbortLost(_) => ReloadingKeeps(db, w, w'); Quiet(db, db', w');
      case CheckpointLost => ReloadingKeeps(db, w, w'); Quiet(db, db', w');
    }
  }

  lemma Quiet(db: Db, db': Db, w': Worker)
    requires DbOk(db) && WorkerOk(db, w') && SameRevisions(db, db')
    ensures DbOk(db') && Progress(db, db') && WorkerOk(db', w')
  {
    QueueChange(db, db');
  }

  // ---- whole runs

  lemma InitInv(s: System)
    requires Init(s)
    ensures Inv(s)
  {
  }

  lemma InsertKeeps(s: System, s': System, id: Id, ops: seq<Op>)
    requires Inv(s) && Insert(s, s', id, ops)
    ensures Inv(s') && Progress(s.db, s'.db)
  {
    assert TxnOk(s'.db.txns[id]);
    hide TxnOk;
    forall e | e in s'.db.log
      ensures EffectOk(s'.db, e)
    {
      assert EffectOk(s.db, e);
    }
    forall r | r in s'.workers
      ensures WorkerOk(s'.db, s'.workers[r])
    {
      BystanderOk(s.db, s'.db, s.workers[r]);
    }
  }

  lemma WorkerKeeps(s: System, s': System, r: nat)
    requires Inv(s) && DbOk(s'.db) && Progress(s.db, s'.db)
    requires r in s'.workers && WorkerOk(s'.db, s'.workers[r]) && s'.workers == s.workers[r := s'.workers[r]]
    ensures Inv(s')
  {
    hide DbOk, Progress, WorkerOk;
    forall q | q in s'.workers
      ensures WorkerOk(s'.db, s'.workers[q])
    {
      if q != r {
        BystanderOk(s.db, s'.db, s.workers[q]);
      }
    }
  }

  lemma NoChange(db: Db)
    ensures Progress(db, db)
  {
  }

  lemma FreshCopyOk(db: Db, w: Worker)
    requires DbOk(db) && w.id in db.txns && w.t == db.txns[w.id] && w.pc == Advance
    ensures WorkerOk(db, w)
  {
    assert TxnOk(db.txns[w.id]);
  }

  lemma StoppedOk(db: Db, w: Worker, w': Worker)
    requires WorkerOk(db, w) && (w' == w.(pc := Returned(Failed)) || w' == w.(pc := Advance))
    ensures WorkerOk(db, w')
  {
  }

  lemma CopyBackOk(db: Db, w: Worker, w': Worker)
    requires WorkerOk(db, w) && w'.id == w.id && w'.t == w.t && w'.pc == Advance
    ensures WorkerOk(db, w')
  {
  }

  /** The invariant survives every step of every flusher, and each step only makes progress. */
  lemma NextKeeps(s: System, s': System)
    requires Inv(s) && Next(s, s')
    ensures Inv(s') && Progress(s.db, s'.db)
  {
    hide DbOk, Progress, WorkerOk, WorkerStep;
    NoChange(s.db);
    if id, ops :| Insert(s, s', id, ops) {
      InsertKeeps(s, s', id, ops);
    } else if r, w :| Load(s, s', r, w) {
      FreshCopyOk(s.db, w);
      WorkerKeeps(s, s', r);
    } else if r, w :| Revisit(s, s', r, w) {
      CopyBackOk(s.db, s.workers[r], w);
      WorkerKeeps(s, s', r);
    } else if r, w :| Act(s, s', r, w) {
      WorkerStepKeeps(s.db, s.workers[r], s'.db, w);
      WorkerKeeps(s, s', r);
    } else {
      var r, w :| Fail(s, s', r, w);
      if w1 :| WorkerStep(s.db, s.workers[r], s'.db, w1) {
        WorkerStepKeeps(s.db, s.workers[r], s'.db, w1);
        BystanderOk(s.db, s'.db, s.workers[r]);
      }
      StoppedOk(s'.db, s.workers[r], w);
      WorkerKeeps(s, s', r);
    }
  }

  /** The invariant holds at every moment of every run. */
  lemma {:induction false} RunInv(run: seq<System>, i: nat)
    requires IsRun(run) && i < |run|
    ensures Inv(run[i])
  {
    hide Inv, Next;
    if i == 0 {
      InitInv(run[0]);
    } else {
      RunInv(run, i - 1);
      assert Next(run[i - 1], run[i - 1 + 1]);
      NextKeeps(run[i - 1], run[i]);
    }
  }

  /** A record of a run stays, and only moves on: preparing, prepared, then applying and applied
      or aborting and aborted, with nonce and saved revisions fixed once they are set. */
  lemma {:induction false} RecordsMoveOn(run: seq<System>, i: nat, j: nat, id: Id)
    requires IsRun(run) && i <= j < |run| && id in run[i].db.txns
    ensures id in run[j].db.txns && Leads(run[i].db.txns[id], run[j].db.txns[id])
    decreases j - i
  {
    hide Inv, Next;
    if i < j {
      RecordsMoveOn(run, i, j - 1, id);
      RunInv(run, j - 1);
      assert Next(run[j - 1], run[j - 1 + 1]);
      NextKeeps(run[j - 1], run[j]);
      LeadsTransitive(run[i].db.txns[id], run[j - 1].db.txns[id], run[j].db.txns[id]);
    }
  }

  /** No transaction is applied at one moment and aborted at another, in either order. */
  lemma NeverAppliedAndAborted(run: seq<System>, i: nat, j: nat, id: Id)
    requires IsRun(run) && i < |run| && j < |run| && id in run[i].db.txns && id in run[j].db.txns
    requires run[i].db.txns[id].state == Applying || run[i].db.txns[id].state == Applied
    ensures run[j].db.txns[id].state != Aborting && run[j].db.txns[id].state != Aborted
  {
    hide Next;
    if i <= j {
      RecordsMoveOn(run, i, j, id);
    } else {
      RecordsMoveOn(run, j, i, id);
    }
  }

  /** At every moment of every run, each update has taken effect at most once, on the revision
      saved in its transaction, which is being or has been applied. */
  lemma AtMostOnce(run: seq<System>, i: nat)
    requires IsRun(run) && i < |run|
    ensures var db := run[i].db;
      && (forall a, b | 0 <= a < b < |db.log| :: db.log[a].txn != db.log[b].txn || db.log[a].op != db.log[b].op)
      && (forall a | 0 <= a < |db.log| :: EffectOk(db, db.log[a]))
  {
    RunInv(run, i);
    hide IsRun, EffectOk, TxnOk;
  }

  /** The effects so far never go away. */
  lemma {:induction false} LogGrows(run: seq<System>, i: nat, j: nat)
    requires IsRun(run) && i <= j < |run|
    ensures run[i].db.log <= run[j].db.log
    decreases j - i
  {
    hide Inv, Next;
    if i < j {
      LogGrows(run, i, j - 1);
      RunInv(run, j - 1);
      assert Next(run[j - 1], run[j - 1 + 1]);
      NextKeeps(run[j - 1], run[j]);
    }
  }

  /** A transaction that is aborted at any moment of a run never takes effect in it, before or after. */
  lemma AbortedHasNoEffect(run: seq<System>, i: nat, j: nat, id: Id, a: nat)
    requires IsRun(run) && i < |run| && j < |run| && id in run[i].db.txns
    requires run[i].db.txns[id].state == Aborting || run[i].db.txns[id].state == Aborted
    requires a < |run[j].db.log|
    ensures run[j].db.log[a].txn != id
  {
    AtMostOnce(run, j);
    hide Next;
    assert EffectOk(run[j].db, run[j].db.log[a]);
    RunInv(run, j);
    var t := run[j].db.log[a].txn;
    assert TxnOk(run[j].db.txns[t]);
    if t == id {
      NeverAppliedAndAborted(run, j, i, id);
    }
  }

  function EffectsOn(log: seq<Effect>, d: DocKey): (n: nat) {
    if log == [] then 0
    else EffectsOn(log[..|log| - 1], d) + (if log[|log| - 1].doc == d then 1 else 0)
  }

  /** A document's revision counts the updates that took effect on it, and nothing else. */
  lemma {:induction false} RevisionCountsEffects(run: seq<System>, i: nat, d: DocKey)
    requires IsRun(run) && i < |run| && d in run[0].db.docs
    ensures d in run[i].db.docs
    ensures run[i].db.docs[d].revno == run[0].db.docs[d].revno + EffectsOn(run[i].db.log, d)
  {
    hide Inv, Next;
    if i > 0 {
      RevisionCountsEffects(run, i - 1, d);
      RunInv(run, i - 1);
      assert Next(run[i - 1], run[i - 1 + 1]);
      NextKeeps(run[i - 1], run[i]);
      var log, log' := run[i - 1].db.log, run[i].db.log;
      if |log'| > |log| {
        assert log'[..|log'| - 1] == log;
      } else {
        assert log' == log;
      }
    }
  }

  /** A call of advance that returns nil leaves its copy applied or aborted; then the record is
      applying or applied, or it is aborted and nothing of it ever takes effect. */
  lemma ReturnedTruth(run: seq<System>, i: nat, r: nat)
    requires IsRun(run) && i < |run| && r in run[i].workers && run[i].workers[r].pc == Returned(Ok)
    ensures var w := run[i].workers[r];
      && (w.t.state == Applied || w.t.state == Aborted)
      && w.id in run[i].db.txns
      && (w.t.state == Applied ==> run[i].db.txns[w.id].state == Applying || run[i].db.txns[w.id].state == Applied)
      && (w.t.state == Aborted ==> run[i].db.txns[w.id].state == Aborted)
      && (w.t.state == Aborted ==> forall a | 0 <= a < |run[i].db.log| :: run[i].db.log[a].txn != w.id)
  {
    RunInv(run, i);
    hide Next;
    var w := run[i].workers[r];
    assert WorkerOk(run[i].db, w);
    hide DbOk, IsRun;
    if w.t.state == Aborted {
      forall a | 0 <= a < |run[i].db.log|
        ensures run[i].db.log[a].txn != w.id
      {
        AbortedHasNoEffect(run, i, i, w.id, a);
      }
    }
  }

  /** None of the panics for a transaction in an impossible state is reachable. */
  lemma NoPanic(run: seq<System>, i: nat, r: nat)
    requires IsRun(run) && i < |run| && r in run[i].workers
    ensures run[i].workers[r].pc != Panicked
  {
    RunInv(run, i);
    hide Next, DbOk;
    assert WorkerOk(run[i].db, run[i].workers[r]);
  }

  // ---- the loops between accesses

  /** hasPreReqs, over the document keys in order. */
  method HasPreReqs(queue: map<DocKey, seq<Token>>, tt: Token, dkeys: seq<DocKey>) returns (prereqs: bool, found: bool)
    ensures found == FoundEverywhere(queue, tt, set d | d in dkeys)
    ensures prereqs == HasPrereqs(queue, tt, set d | d in dkeys)
  {
    prereqs, found := false, true;
    for k := 0 to |dkeys|
      invariant found == FoundEverywhere(queue, tt, set d | d in dkeys[..k])
      invariant prereqs == HasPrereqs(queue, tt, set d | d in dkeys[..k])
    {
      var q := Cached(queue, dkeys[k]);
      var here := false;
      var i := 0;
      ghost var before := prereqs;
      while i < |q| && !here
        invariant i <= |q|
        invariant here == (tt in q[..i])
        invariant !here ==> (prereqs || Blocked(q[i..], tt)) == (before || Blocked(q, tt))
        invariant here ==> prereqs == (before || Blocked(q, tt))
      {
        assert q[i..][1..] == q[i + 1..];
        if q[i] == tt {
          here := true;
        } else if q[i].id != tt.id {
          prereqs := true;
        }
        i := i + 1;
      }
      if !here {
        found := false;
      }
      assert forall d :: d in dkeys[..k + 1] <==> d in dkeys[..k] || d == dkeys[k];
    }
    assert dkeys[..|dkeys|] == dkeys;
  }

  /** Some missing document is updated and then touched again. */
  ghost predicate RepeatsMissing(ops: seq<Op>, revno: map<DocKey, int>) {
    exists i, j :: 0 <= i < j < |ops| && ops[i].update && ops[j].doc == ops[i].doc && RevnoOf(revno, ops[i].doc) < 0
  }

  lemma {:induction false} PrepareOnMissing(ops: seq<Op>, revno: map<DocKey, int>, j: nat)
    requires j < |ops| && RevnoOf(revno, ops[j].doc) < 0
    ensures PrepareRevnos(ops, revno)[j] == RevnoOf(revno, ops[j].doc)
  {
    var d, n := ops[0].doc, RevnoOf(revno, ops[0].doc);
    if j > 0 {
      assert ops[1..][j - 1] == ops[j];
      PrepareOnMissing(ops[1..], if ops[0].update && n >= 0 then revno[d := n + 1] else revno, j - 1);
    }
  }

  lemma {:induction false} RescanAtLeast(ops: seq<Op>, revno: map<DocKey, int>, j: nat)
    requires j < |ops|
    ensures RescanRevnos(ops, revno)[j] >= RevnoOf(revno, ops[j].doc)
  {
    var d, n := ops[0].doc, RevnoOf(revno, ops[0].doc);
    if j > 0 {
      assert ops[1..][j - 1] == ops[j];
      RescanAtLeast(ops[1..], if ops[0].update then revno[d := n + 1] else revno, j - 1);
    }
  }

  lemma {:induction false} RescanIgnores(ops: seq<Op>, a: map<DocKey, int>, b: map<DocKey, int>)
    requires forall op | op in ops :: RevnoOf(a, op.doc) == RevnoOf(b, op.doc)
    ensures RescanRevnos(ops, a) == RescanRevnos(ops, b)
  {
    if ops != [] {
      var d, n := ops[0].doc, RevnoOf(a, ops[0].doc);
      if ops[0].update {
        RescanIgnores(ops[1..], a[d := n + 1], b[d := n + 1]);
      } else {
        RescanIgnores(ops[1..], a, b);
      }
    }
  }

  lemma RepeatsLater(ops: seq<Op>, revno: map<DocKey, int>, revno': map<DocKey, int>)
    requires ops != []
    requires forall op | op in ops[1..] :: RevnoOf(revno, op.doc) < 0 <==> RevnoOf(revno', op.doc) < 0
    requires forall j | 1 <= j < |ops| && ops[j].doc == ops[0].doc :: !ops[0].update || RevnoOf(revno, ops[0].doc) >= 0
    ensures RepeatsMissing(ops, revno) <==> RepeatsMissing(ops[1..], revno')
  {
    var rest := ops[1..];
    if RepeatsMissing(ops, revno) {
      var i, j :| 0 <= i < j < |ops| && ops[i].update && ops[j].doc == ops[i].doc && RevnoOf(revno, ops[i].doc) < 0;
      assert rest[i - 1] == ops[i] && rest[j - 1] == ops[j];
      assert rest[i - 1] in rest;
    }
    if RepeatsMissing(rest, revno') {
      var i, j :| 0 <= i < j < |rest| && rest[i].update && rest[j].doc == rest[i].doc && RevnoOf(revno', rest[i].doc) < 0;
      assert rest[i] == ops[i + 1] && rest[j] == ops[j + 1];
      assert rest[i] in rest;
    }
  }

  /** Prepare and rescan compute the same revisions exactly when no missing document is
      updated and then touched again: rescan counts an update that prepare knows to miss. */
  lemma {:induction false} RevnosAgree(ops: seq<Op>, revno: map<DocKey, int>)
    ensures PrepareRevnos(ops, revno) == RescanRevnos(ops, revno) <==> !RepeatsMissing(ops, revno)
  {
    if ops != [] {
      var op, rest, d, n := ops[0], ops[1..], ops[0].doc, RevnoOf(revno, ops[0].doc);
      if !op.update || n >= 0 {
        var revno' := if op.update then revno[d := n + 1] else revno;
        RevnosAgree(rest, revno');
        RepeatsLater(ops, revno, revno');
        assert PrepareRevnos(ops, revno)[1..] == PrepareRevnos(rest, revno');
        assert RescanRevnos(ops, revno)[1..] == RescanRevnos(rest, revno');
      } else if j :| 1 <= j < |ops| && ops[j].doc == d {
        assert rest[j - 1] == ops[j];
        PrepareOnMissing(rest, revno, j - 1);
        RescanAtLeast(rest, revno[d := n + 1], j - 1);
        assert PrepareRevnos(ops, revno)[j] != RescanRevnos(ops, revno)[j];
      } else {
        RescanIgnores(rest, revno, revno[d := n + 1]);
        RevnosAgree(rest, revno);
        RepeatsLater(ops, revno, revno);
        assert PrepareRevnos(ops, revno)[1..] == PrepareRevnos(rest, revno);
        assert RescanRevnos(ops, revno)[1..] == RescanRevnos(rest, revno);
      }
    }
  }

  /** Two updates on one document that is missing: prepare keeps its revision, rescan counts both. */
  lemma RevnosDiffer(d: DocKey, op: Op)
    requires op.update && op.doc == d
    ensures PrepareRevnos([op, op], map[d := -1]) == [-1, -1]
    ensures RescanRevnos([op, op], map[d := -1]) == [-1, 0]
  {
    var ops := [op, op];
    assert ops[1..] == [op] && ops[1..][1..] == [];
  }
}
