/** gridas: a listener that accepts petitions, a pool of consumers that relay them, and a recoverer
    that queues again what an earlier run has left, sharing a store and a channel across crashes. */
module Relay {
  import opened Basics

  type Pid = nat

  type Tid = nat

  type Rid = nat

  // A consumer's goroutine.
  datatype Worker =
    | Waiting
    | Got(p: Pid)        // taken from the channel
    | Sent(p: Pid, tries: nat, good: bool)   // sent to its target so often; `good`: the last time neither an error nor a 503
    | Replied(p: Pid)    // its reply has been inserted, or could not be
    | Exited

  // A petition sent to its target by a consumer.
  datatype Try = Try(p: Pid, t: Tid, good: bool)

  // A request being served by the listener.
  datatype Request =
    | Inserted(p: Pid)   // its petition is stored
    | Enqueued(p: Pid)   // and in the channel, to be answered with success
    | Refused(p: Pid)    // answered "server is busy", its petition to be removed again

  // `done`: what the cursor has delivered; `hand`: the petition that waits for room in the channel.
  datatype Phase = Recovering(done: set<Pid>, hand: Option<Pid>) | Listening

  datatype State = State(
    // durable
    petitions: set<Pid>,
    replies: set<Pid>,
    // of the present run
    channel: seq<Pid>,
    workers: map<Tid, Worker>,
    requests: map<Rid, Request>,
    phase: Phase,
    stopping: bool,
    signalled: bool,
    // of the configuration
    retries: nat,
    // what has happened: petitions ever made, answered with success, removed by a consumer; how often the
    // insertion of a reply has been tried, and how often it has failed
    made: set<Pid>,
    accepted: set<Pid>,
    removed: set<Pid>,
    tried: multiset<Pid>,
    failed: multiset<Pid>,
    // and in the present run: taken by a consumer, sent, refused but not removed
    taken: set<Pid>,
    sends: seq<Try>,
    left: set<Pid>)

  datatype Action =
    // newPetition makes a new id, and the insertion succeeds; the listener may have been stopped meanwhile
    | Receive(r: Rid, p: Pid)
    | Enqueue(r: Rid)
    | HandOver(r: Rid, t: Tid)     // to a consumer that waits, as a channel does
    | Answer(r: Rid)
    | Withdraw(r: Rid, ok: bool)
    | Take(t: Tid)
    | Discard(t: Tid)              // the request cannot be restored
    | Send(t: Tid, good: bool)
    | Retry(t: Tid, good: bool)    // after an error or a 503
    | StoreReply(t: Tid, ok: bool)
    | Remove(t: Tid, ok: bool)
    | Exit(t: Tid)
    | Signal
    | Fetch(p: Pid)
    | Requeue
    | HandBack(t: Tid)             // the same from the recoverer to a consumer that waits
    | FinishRecovery
    | Stop
    | Crash(n: nat)                // and a new start, with `n` consumers

  function WorkerOf(s: State, t: Tid): (r: Worker) {
    if t in s.workers then s.workers[t] else Exited
  }

  predicate Enabled(s: State, capacity: nat, a: Action) {
    match a
    case Receive(r, p) => s.phase.Listening? && r !in s.requests && p !in s.made
    case Enqueue(r) => r in s.requests && s.requests[r].Inserted?
    case HandOver(r, t) => r in s.requests && s.requests[r].Inserted? && s.channel == [] && WorkerOf(s, t).Waiting?
    case Answer(r) => r in s.requests && s.requests[r].Enqueued?
    case Withdraw(r, _) => r in s.requests && s.requests[r].Refused?
    case Take(t) => WorkerOf(s, t).Waiting? && s.channel != []
    case Discard(t) => WorkerOf(s, t).Got?
    case Send(t, _) => WorkerOf(s, t).Got?
    case Retry(t, _) => WorkerOf(s, t).Sent? && !WorkerOf(s, t).good && WorkerOf(s, t).tries <= s.retries
    case StoreReply(t, _) => WorkerOf(s, t).Sent? && (WorkerOf(s, t).good || WorkerOf(s, t).tries == s.retries + 1)
    case Remove(t, _) => WorkerOf(s, t).Replied?
    case Exit(t) => WorkerOf(s, t).Waiting? && s.stopping
    case Signal => !s.signalled && forall t | t in s.workers :: s.workers[t].Exited?
    case Fetch(p) => s.phase.Recovering? && s.phase.hand.None? && p in s.petitions && p !in s.phase.done
    case Requeue => s.phase.Recovering? && s.phase.hand.Some? && |s.channel| < capacity
    case HandBack(t) => s.phase.Recovering? && s.phase.hand.Some? && s.channel == [] && WorkerOf(s, t).Waiting?
    case FinishRecovery => s.phase.Recovering? && s.phase.hand.None? && s.petitions <= s.phase.done
    case Stop => true
    case Crash(_) => true
  }

  function Queued(s: State, r: Rid): (s': State)
    requires r in s.requests
  {
    s.(channel := s.channel + [s.requests[r].p], requests := s.requests[r := Enqueued(s.requests[r].p)])
  }

  function Requeued(s: State): (s': State)
    requires s.phase.Recovering? && s.phase.hand.Some?
  {
    s.(channel := s.channel + [s.phase.hand.value], phase := Recovering(s.phase.done, None))
  }

  function Taken(s: State, t: Tid): (s': State)
    requires s.channel != []
  {
    s.(channel := s.channel[1..], workers := s.workers[t := Got(s.channel[0])], taken := s.taken + {s.channel[0]})
  }

  function Do(s: State, capacity: nat, a: Action): (r: State)
    requires Enabled(s, capacity, a)
  {
    match a
    case Receive(r, p) =>
      s.(petitions := s.petitions + {p}, made := s.made + {p}, requests := s.requests[r := Inserted(p)])
    case Enqueue(r) =>
      if |s.channel| < capacity then Queued(s, r) else s.(requests := s.requests[r := Refused(s.requests[r].p)])
    case HandOver(r, t) => Taken(Queued(s, r), t)
    case Answer(r) => s.(accepted := s.accepted + {s.requests[r].p}, requests := s.requests - {r})
    case Withdraw(r, ok) =>
      var p := s.requests[r].p;
      if ok then s.(petitions := s.petitions - {p}, requests := s.requests - {r})
      else s.(left := s.left + {p}, requests := s.requests - {r})
    case Take(t) => Taken(s, t)
    case Discard(t) => s.(workers := s.workers[t := Waiting])
    case Send(t, good) =>
      var p := WorkerOf(s, t).p;
      s.(workers := s.workers[t := Sent(p, 1, good)], sends := s.sends + [Try(p, t, good)])
    case Retry(t, good) =>
      var w := WorkerOf(s, t);
      s.(workers := s.workers[t := Sent(w.p, w.tries + 1, good)], sends := s.sends + [Try(w.p, t, good)])
    case StoreReply(t, ok) =>
      var p := WorkerOf(s, t).p;
      var after := s.(workers := s.workers[t := Replied(p)], tried := s.tried + multiset{p});
      if ok then after.(replies := s.replies + {p}) else after.(failed := s.failed + multiset{p})
    case Remove(t, ok) =>
      var p := WorkerOf(s, t).p;
      var after := s.(workers := s.workers[t := Waiting]);
      if ok then after.(petitions := s.petitions - {p}, removed := s.removed + {p}) else after
    case Exit(t) => s.(workers := s.workers[t := Exited])
    case Signal => s.(signalled := true)
    case Fetch(p) => s.(phase := Recovering(s.phase.done + {p}, Some(p)))
    case Requeue => Requeued(s)
    case HandBack(t) => Taken(Requeued(s), t)
    case FinishRecovery => s.(phase := Listening)
    case Stop => s.(stopping := true)
    case Crash(n) => Restarted(s, n)
  }

  function Waiters(n: nat): (r: map<Tid, Worker>)
    ensures forall t | t in r :: r[t].Waiting?
  {
    if n == 0 then map[] else Waiters(n - 1)[n - 1 := Waiting]
  }

  /** Only the store, and what has happened, is left. */
  function Restarted(s: State, n: nat): (r: State) {
    State(s.petitions, s.replies, [], Waiters(n), map[], Recovering({}, None), false, false, s.retries,
          s.made, s.accepted, s.removed, s.tried, s.failed, {}, [], {})
  }

  function Empty(retries: nat): (s: State) {
    State({}, {}, [], map[], map[], Recovering({}, None), false, false, retries, {}, {}, {}, multiset{}, multiset{}, {}, [], {})
  }

  ghost predicate Next(s: State, capacity: nat, s': State) {
    exists a :: Enabled(s, capacity, a) && s' == Do(s, capacity, a)
  }

  ghost predicate IsRun(run: seq<State>, capacity: nat) {
    && run != [] && (exists n, retries :: run[0] == Restarted(Empty(retries), n))
    && forall i | 0 <= i < |run| - 1 :: Next(run[i], capacity, run[i + 1])
  }

  // ---- what every step keeps

  /** The consumer works on a petition. */
  predicate Busy(w: Worker) {
    !w.Waiting? && !w.Exited?
  }

  function InHand(phase: Phase): (r: set<Pid>) {
    if phase.Recovering? && phase.hand.Some? then {phase.hand.value} else {}
  }

  ghost predicate ChannelOk(s: State) {
    && Distinct(s.channel)
    && (forall p | p in s.channel :: p in s.petitions && p !in s.taken && p !in s.left)
  }

  /** How often `p` has been sent. */
  function Sends(sends: seq<Try>, p: Pid): (n: nat) {
    if sends == [] then 0 else Sends(sends[..|sends| - 1], p) + if sends[|sends| - 1].p == p then 1 else 0
  }

  /** All that has been sent of `p` has been sent by `t`, and none of it well unless the last was. */
  ghost predicate SentBy(sends: seq<Try>, p: Pid, t: Tid, good: bool) {
    forall i | 0 <= i < |sends| && sends[i].p == p :: sends[i].t == t && (sends[i].good ==> good)
  }

  /** What is sent again has been sent by the same consumer, and has met an error or a 503. */
  ghost predicate SentAgain(sends: seq<Try>) {
    forall i, j | 0 <= i < j < |sends| && sends[i].p == sends[j].p :: sends[i].t == sends[j].t && !sends[i].good
  }

  ghost predicate WorkerSound(s: State, t: Tid, w: Worker) {
    && (Busy(w) ==> w.p in s.petitions && w.p in s.taken)
    && (w.Got? ==> Sends(s.sends, w.p) == 0)
    && (w.Sent? ==> Sends(s.sends, w.p) == w.tries <= s.retries + 1 && SentBy(s.sends, w.p, t, w.good))
    && (w.Replied? ==> s.tried[w.p] > 0)
  }

  ghost predicate WorkersOk(s: State) {
    && (forall t | t in s.workers :: WorkerSound(s, t, s.workers[t]))
    && (forall t, u | t in s.workers && u in s.workers && t != u && Busy(s.workers[t]) && Busy(s.workers[u]) ::
          s.workers[t].p != s.workers[u].p)
    && (forall p: Pid :: Sends(s.sends, p) <= s.retries + 1 && (Sends(s.sends, p) > 0 ==> p in s.taken))
    && SentAgain(s.sends)
    && (s.signalled ==> forall t | t in s.workers :: s.workers[t].Exited?)
  }

  ghost predicate RequestsOk(s: State) {
    && (forall r | r in s.requests && !s.requests[r].Enqueued? ::
          var p := s.requests[r].p;
          p in s.petitions && p !in s.channel && p !in s.taken && p !in s.left && p !in s.accepted)
    && (forall r, q | r in s.requests && q in s.requests && r != q :: s.requests[r].p != s.requests[q].p)
    && (forall r | r in s.requests && s.requests[r].Enqueued? :: Kept(s, s.requests[r].p) && s.requests[r].p !in s.left)
  }

  /** Still stored, or removed behind its reply. */
  predicate Kept(s: State, p: Pid) {
    p in s.petitions || p in s.removed
  }

  /** A reply is stored if and only if one of its insertions has not failed. */
  ghost predicate RepliesOk(s: State) {
    && (forall p: Pid :: s.failed[p] <= s.tried[p] && (p in s.replies <==> s.failed[p] < s.tried[p]))
    && (forall p | p in s.removed :: p in s.made && p !in s.petitions && s.tried[p] > 0)
  }

  ghost predicate PhaseOk(s: State) {
    && (forall p | p in InHand(s.phase) :: p in s.petitions && p !in s.channel && p !in s.taken && p in s.phase.done)
    && (s.phase.Recovering? ==> s.requests == map[] && s.left == {})
    && (s.phase.Recovering? ==> forall p :: p in s.channel || p in s.taken ==> p in s.phase.done)
    && (s.phase.Recovering? ==> forall p | p in s.petitions && p in s.phase.done :: p in s.channel || p in s.taken || p in InHand(s.phase))
    && (s.phase.Listening? ==> forall p | p in s.petitions ::
          p in s.channel || p in s.taken || p in s.left || exists r | r in s.requests :: !s.requests[r].Enqueued? && s.requests[r].p == p)
  }

  ghost predicate HistoryOk(s: State) {
    && s.petitions <= s.made && s.accepted <= s.made && s.taken <= s.made && s.left <= s.made
    && (forall p | p in s.channel :: p in s.made)
    && (forall r | r in s.requests :: s.requests[r].p in s.made)
    && (forall p | p in s.accepted :: Kept(s, p))
    && (forall p | p in s.left :: p !in s.accepted)
  }

  ghost predicate Inv(s: State) {
    ChannelOk(s) && WorkersOk(s) && RequestsOk(s) && PhaseOk(s) && HistoryOk(s) && RepliesOk(s)
  }

  lemma DistinctMore(ks: seq<Pid>, k: Pid)
    requires Distinct(ks) && k !in ks
    ensures Distinct(ks + [k]) && forall j :: j in ks + [k] <==> j in ks || j == k
  {
  }

  lemma DistinctTail(ks: seq<Pid>)
    requires Distinct(ks) && ks != []
    ensures Distinct(ks[1..]) && forall j :: j in ks[1..] <==> j in ks && j != ks[0]
  {
    assert ks == [ks[0]] + ks[1..];
  }

  lemma ChannelKeeps(s: State, capacity: nat, a: Action)
    requires ChannelOk(s) && WorkersOk(s) && RequestsOk(s) && PhaseOk(s) && Enabled(s, capacity, a) && !a.HandOver? && !a.HandBack?
    ensures ChannelOk(Do(s, capacity, a))
  {
    hide Distinct, WorkersOk, RequestsOk, PhaseOk;
    NoneDistinct();
    match a {
      case Enqueue(r) =>
        ReservedIs(s, r);
        DistinctMore(s.channel, s.requests[r].p);
      case Withdraw(r, ok) => ReservedIs(s, r);
      case Take(t) => DistinctTail(s.channel);
      case Remove(t, ok) => BusyIs(s, t);
      case Requeue =>
        HandIs(s);
        DistinctMore(s.channel, s.phase.hand.value);
      case _ =>
    }
  }

  lemma NoneDistinct()
    ensures Distinct<Pid>([])
  {
  }

  lemma BusyIs(s: State, t: Tid)
    requires WorkersOk(s) && Busy(WorkerOf(s, t))
    ensures WorkerOf(s, t).p in s.petitions && WorkerOf(s, t).p in s.taken
    ensures WorkerOf(s, t).Replied? ==> s.tried[WorkerOf(s, t).p] > 0
  {
  }

  lemma HandIs(s: State)
    requires PhaseOk(s) && s.phase.Recovering? && s.phase.hand.Some?
    ensures var p := s.phase.hand.value; p in s.petitions && p !in s.channel && p !in s.taken && p in s.phase.done
    ensures s.left == {} && s.requests == map[]
  {
    assert s.phase.hand.value in InHand(s.phase);
  }

  lemma ReservedIs(s: State, r: Rid)
    requires RequestsOk(s) && r in s.requests && !s.requests[r].Enqueued?
    ensures var p := s.requests[r].p;
      p in s.petitions && p !in s.channel && p !in s.taken && p !in s.left && p !in s.accepted
  {
  }

  /** Nothing about the consumers changes. */
  lemma WorkersSame(s: State, s': State)
    requires WorkersOk(s) && s'.workers == s.workers && s'.sends == s.sends && s'.taken == s.taken && s'.retries == s.retries
    requires s'.tried == s.tried
    requires s'.signalled ==> s.signalled || forall t | t in s.workers :: s.workers[t].Exited?
    requires forall p | p in s.petitions && p in s.taken :: p in s'.petitions
    ensures WorkersOk(s')
  {
    hide Sends, SentBy, SentAgain;
    forall t | t in s'.workers ensures WorkerSound(s', t, s'.workers[t]) {
      assert WorkerSound(s, t, s.workers[t]);
    }
  }

  lemma SendsMore(sends: seq<Try>, x: Try)
    ensures forall p: Pid :: Sends(sends + [x], p) == Sends(sends, p) + if p == x.p then 1 else 0
  {
    assert (sends + [x])[..|sends|] == sends;
  }

  lemma {:induction false} SendsIs(sends: seq<Try>, p: Pid)
    ensures Sends(sends, p) == 0 <==> forall i | 0 <= i < |sends| :: sends[i].p != p
    decreases |sends|
  {
    if sends != [] {
      SendsIs(sends[..|sends| - 1], p);
    }
  }

  /** A consumer sends its petition, for the first time or again. */
  lemma WorkerSends(s: State, s': State, t: Tid, good: bool)
    requires WorkersOk(s) && t in s.workers
    requires s.workers[t].Got? || (s.workers[t].Sent? && !s.workers[t].good && s.workers[t].tries <= s.retries)
    requires var w := s.workers[t];
      s' == s.(workers := s.workers[t := Sent(w.p, if w.Got? then 1 else w.tries + 1, good)], sends := s.sends + [Try(w.p, t, good)])
    ensures WorkersOk(s')
  {
    hide Sends, SentAgain;
    var w := s.workers[t];
    assert WorkerSound(s, t, w);
    SendsMore(s.sends, Try(w.p, t, good));
    SendsIs(s.sends, w.p);
    SentOnce(s.sends, w.p, t, good);
    forall u | u in s'.workers ensures WorkerSound(s', u, s'.workers[u]) {
      assert WorkerSound(s, u, s.workers[u]);
      if u != t && Busy(s.workers[u]) {
        assert s.workers[u].p != w.p;
      }
    }
  }

  lemma SentOnce(sends: seq<Try>, p: Pid, t: Tid, good: bool)
    requires SentAgain(sends) && SentBy(sends, p, t, false)
    ensures SentAgain(sends + [Try(p, t, good)]) && SentBy(sends + [Try(p, t, good)], p, t, good)
  {
  }

  /** A consumer goes on with its petition or lets it go. */
  lemma WorkerOn(s: State, s': State, t: Tid, w: Worker)
    requires WorkersOk(s) && t in s.workers && s'.workers == s.workers[t := w]
    requires s'.taken == s.taken && (Busy(w) ==> Busy(s.workers[t]) && w.p == s.workers[t].p) && !s.workers[t].Exited?
    requires s'.sends == s.sends && s'.retries == s.retries && s.tried <= s'.tried && s'.signalled == s.signalled
    requires !w.Got? && !w.Sent? && (w.Replied? ==> s'.tried[w.p] > 0 && w.p in s'.petitions)
    requires forall p | p in s.petitions && !(s.workers[t].Replied? && p == s.workers[t].p) :: p in s'.petitions
    ensures WorkersOk(s')
  {
    hide Sends, SentBy, SentAgain;
    assert WorkerSound(s, t, s.workers[t]);
    forall u | u in s'.workers ensures WorkerSound(s', u, s'.workers[u]) {
      assert WorkerSound(s, u, s.workers[u]);
    }
  }

  lemma WorkerTakes(s: State, s': State, t: Tid, p: Pid)
    requires WorkersOk(s) && t in s.workers && s.workers[t].Waiting? && p in s.petitions && p !in s.taken
    requires s'.workers == s.workers[t := Got(p)] && s'.taken == s.taken + {p} && s'.sends == s.sends && s'.retries == s.retries
    requires s'.tried == s.tried && s'.signalled == s.signalled && s'.petitions == s.petitions
    ensures WorkersOk(s')
  {
    hide Sends, SentBy, SentAgain;
    forall u | u in s'.workers ensures WorkerSound(s', u, s'.workers[u]) {
      assert WorkerSound(s, u, s.workers[u]) || u == t;
    }
    forall u, v | u in s'.workers && v in s'.workers && u != v && Busy(s'.workers[u]) && Busy(s'.workers[v])
      ensures s'.workers[u].p != s'.workers[v].p
    {
      assert u != t ==> WorkerSound(s, u, s.workers[u]);
      assert v != t ==> WorkerSound(s, v, s.workers[v]);
    }
  }

  lemma WorkersKeep(s: State, capacity: nat, a: Action)
    requires ChannelOk(s) && WorkersOk(s) && RequestsOk(s) && Enabled(s, capacity, a) && !a.HandOver? && !a.HandBack?
    ensures WorkersOk(Do(s, capacity, a))
  {
    hide Distinct, WorkersOk, RequestsOk;
    var s' := Do(s, capacity, a);
    match a {
      case Withdraw(r, ok) =>
        ReservedIs(s, r);
        WorkersSame(s, s');
      case Take(t) => WorkerTakes(s, s', t, s.channel[0]);
      case Discard(t) => WorkerOn(s, s', t, Waiting);
      case Send(t, good) => WorkerSends(s, s', t, good);
      case Retry(t, good) => WorkerSends(s, s', t, good);
      case StoreReply(t, ok) =>
        BusyIs(s, t);
        WorkerOn(s, s', t, Replied(WorkerOf(s, t).p));
      case Exit(t) => WorkerOn(s, s', t, Exited);
      case Remove(t, ok) => WorkerOn(s, s', t, Waiting);
      case Crash(n) => RestartedWorkers(s, n);
      case _ => WorkersSame(s, s');
    }
  }

  lemma RestartedWorkers(s: State, n: nat)
    ensures WorkersOk(Restarted(s, n))
  {
  }

  /** Nothing about the requests changes. */
  lemma RequestsSame(s: State, s': State)
    requires RequestsOk(s) && s'.requests == s.requests && s'.left == s.left && s'.accepted == s.accepted
    requires forall p | p in s'.channel :: p in s.channel
    requires forall p | p in s'.taken :: p in s.taken || p in s.channel
    requires forall p | p in s.petitions && p !in s.taken :: p in s'.petitions
    requires forall p | Kept(s, p) :: Kept(s', p)
    ensures RequestsOk(s')
  {
  }

  lemma RequestReceived(s: State, s': State, r: Rid, p: Pid)
    requires RequestsOk(s) && HistoryOk(s) && r !in s.requests && p !in s.made
    requires s' == s.(petitions := s.petitions + {p}, made := s.made + {p}, requests := s.requests[r := Inserted(p)])
    ensures RequestsOk(s')
  {
  }

  lemma RequestMoves(s: State, s': State, r: Rid, x: Request)
    requires RequestsOk(s) && r in s.requests && !s.requests[r].Enqueued? && x.p == s.requests[r].p && !x.Inserted?
    requires s' == s.(requests := s.requests[r := x], channel := s'.channel)
    requires s'.channel == if x.Enqueued? then s.channel + [x.p] else s.channel
    ensures RequestsOk(s')
  {
    assert forall q :: q in s'.channel <==> q in s.channel || (x.Enqueued? && q == x.p);
  }

  lemma RequestEnds(s: State, s': State, r: Rid)
    requires RequestsOk(s) && r in s.requests
    requires s'.requests == s.requests - {r} && s'.channel == s.channel && s'.taken == s.taken
    requires s'.removed == s.removed
    requires var p := s.requests[r].p;
      s'.accepted <= s.accepted + {p} && s'.left <= s.left + {p} && s'.petitions >= s.petitions - {p}
    ensures RequestsOk(s')
  {
    forall q | q in s'.requests ensures s'.requests[q] == s.requests[q] && s.requests[q].p != s.requests[r].p {
    }
  }

  lemma RequestsKeep(s: State, capacity: nat, a: Action)
    requires ChannelOk(s) && WorkersOk(s) && RequestsOk(s) && PhaseOk(s) && HistoryOk(s) && Enabled(s, capacity, a) && !a.HandOver? && !a.HandBack?
    ensures RequestsOk(Do(s, capacity, a))
  {
    hide Distinct, WorkersOk, RequestsOk, HistoryOk, PhaseOk;
    var s' := Do(s, capacity, a);
    match a {
      case Receive(r, p) => RequestReceived(s, s', r, p);
      case Enqueue(r) => RequestMoves(s, s', r, s'.requests[r]);
      case Answer(r) => RequestEnds(s, s', r);
      case Withdraw(r, ok) => RequestEnds(s, s', r);
      case Remove(t, ok) =>
        BusyIs(s, t);
        RequestsSame(s, s');
      case Requeue =>
        HandIs(s);
        NoRequests(s');
      case Crash(n) => NoRequests(s');
      case _ => RequestsSame(s, s');
    }
  }

  lemma NoRequests(s: State)
    requires s.requests == map[]
    ensures RequestsOk(s)
  {
  }

  /** Where a stored petition is once the recovery is over. */
  ghost predicate Accounted(s: State, p: Pid) {
    p in s.channel || p in s.taken || p in s.left || exists r | r in s.requests :: !s.requests[r].Enqueued? && s.requests[r].p == p
  }

  /** While petitions are being recovered, nothing is accounted for that the cursor has not delivered. */
  lemma RecoveringKeeps(s: State, s': State)
    requires PhaseOk(s) && s.phase.Recovering? && s'.phase.Recovering?
    requires s'.requests == s.requests && s'.left == s.left && s.phase.done <= s'.phase.done
    requires forall p | p in s'.channel || p in s'.taken :: p in s'.phase.done
    requires forall p | p in InHand(s'.phase) :: p in s'.petitions && p !in s'.channel && p !in s'.taken && p in s'.phase.done
    requires forall p | p in s'.petitions && p in s'.phase.done :: p in s'.channel || p in s'.taken || p in InHand(s'.phase)
    ensures PhaseOk(s')
  {
  }

  lemma ListeningKeeps(s: State, s': State)
    requires PhaseOk(s) && s.phase.Listening? && s'.phase.Listening?
    requires forall p | p in s'.petitions && Accounted(s, p) :: Accounted(s', p)
    requires forall p | p in s'.petitions && p !in s.petitions :: Accounted(s', p)
    ensures PhaseOk(s')
  {
  }

  /** Requests that go on, or end with their petition in its place. */
  lemma RequestAccounted(s: State, s': State, r: Rid, p: Pid)
    requires Accounted(s, p) && r in s.requests
    requires s'.requests == s.requests - {r} || (r in s'.requests && s'.requests == s.requests[r := s'.requests[r]])
    requires (forall q | q in s.channel :: q in s'.channel) && s.taken <= s'.taken && s.left <= s'.left
    requires !s.requests[r].Enqueued? && s.requests[r].p == p ==>
      p in s'.channel || p in s'.left || (r in s'.requests && !s'.requests[r].Enqueued? && s'.requests[r].p == p)
    ensures Accounted(s', p)
  {
    if x :| x in s.requests && !s.requests[x].Enqueued? && s.requests[x].p == p {
      if x != r {
        assert x in s'.requests && s'.requests[x] == s.requests[x];
      }
    }
  }

  lemma AccountedSame(s: State, s': State)
    requires s'.requests == s.requests && s'.left == s.left
    requires forall p | p in s.channel || p in s.taken :: p in s'.channel || p in s'.taken
    ensures forall p | Accounted(s, p) :: Accounted(s', p)
  {
  }

  lemma PhaseKeeps(s: State, capacity: nat, a: Action)
    requires ChannelOk(s) && WorkersOk(s) && RequestsOk(s) && PhaseOk(s) && Enabled(s, capacity, a) && !a.HandOver? && !a.HandBack?
    ensures PhaseOk(Do(s, capacity, a))
  {
    hide Distinct, WorkersOk, RequestsOk, PhaseOk, Accounted, ChannelOk;
    var s' := Do(s, capacity, a);
    match a {
      case Receive(r, p) => ReceivedPhase(s, s', r, p);
      case Enqueue(r) =>
        Appended(s.channel, s.requests[r].p);
        RequestPhase(s, s', r);
      case Answer(r) => RequestPhase(s, s', r);
      case Withdraw(r, ok) => RequestPhase(s, s', r);
      case Take(t) => TakenPhase(s, s');
      case Remove(t, ok) =>
        BusyIs(s, t);
        ShrunkPhase(s, s');
      case Fetch(p) => FetchedPhase(s, s', p);
      case Requeue => RequeuedPhase(s, s');
      case FinishRecovery => FinishedPhase(s, s');
      case Crash(n) => RestartedPhase(s, n);
      case _ => ShrunkPhase(s, s');
    }
  }

  lemma Appended(ks: seq<Pid>, k: Pid)
    ensures forall j :: j in ks + [k] <==> j in ks || j == k
  {
  }

  lemma ReceivedPhase(s: State, s': State, r: Rid, p: Pid)
    requires PhaseOk(s) && s.phase.Listening? && r !in s.requests
    requires s' == s.(petitions := s.petitions + {p}, made := s'.made, requests := s.requests[r := Inserted(p)])
    ensures PhaseOk(s')
  {
    hide PhaseOk;
    forall q | Accounted(s, q) || q == p ensures Accounted(s', q) {
      if q == p {
        assert s'.requests[r].p == p;
      } else if x :| x in s.requests && !s.requests[x].Enqueued? && s.requests[x].p == q {
        assert s'.requests[x] == s.requests[x];
      }
    }
    ListeningKeeps(s, s');
  }

  lemma RequestPhase(s: State, s': State, r: Rid)
    requires PhaseOk(s) && r in s.requests && s'.phase == s.phase && s'.petitions <= s.petitions
    requires s'.requests == s.requests - {r} || (r in s'.requests && s'.requests == s.requests[r := s'.requests[r]])
    requires (forall q | q in s.channel :: q in s'.channel) && s.taken <= s'.taken && s.left <= s'.left
    requires var p := s.requests[r].p;
      !s.requests[r].Enqueued? && p in s'.petitions ==>
        p in s'.channel || p in s'.left || (r in s'.requests && !s'.requests[r].Enqueued? && s'.requests[r].p == p)
    ensures PhaseOk(s')
  {
    assert s.phase.Listening?;
    hide PhaseOk;
    forall q | q in s'.petitions && Accounted(s, q) ensures Accounted(s', q) {
      RequestAccounted(s, s', r, q);
    }
    ListeningKeeps(s, s');
  }

  lemma TakenPhase(s: State, s': State)
    requires PhaseOk(s) && ChannelOk(s) && s.channel != [] && s'.petitions == s.petitions && s'.phase == s.phase
    requires s'.channel == s.channel[1..] && s'.taken == s.taken + {s.channel[0]} && s'.requests == s.requests && s'.left == s.left
    ensures PhaseOk(s')
  {
    DistinctTail(s.channel);
    if s.phase.Listening? {
      AccountedSame(s, s');
      hide PhaseOk, Accounted;
      ListeningKeeps(s, s');
    } else {
      RecoveringKeeps(s, s');
    }
  }

  /** Taken petitions may be removed from the store. */
  lemma ShrunkPhase(s: State, s': State)
    requires PhaseOk(s) && s'.petitions <= s.petitions && s'.phase == s.phase
    requires forall p | p in s.petitions && p !in s.taken :: p in s'.petitions
    requires s'.channel == s.channel && s'.taken == s.taken && s'.requests == s.requests && s'.left == s.left
    ensures PhaseOk(s')
  {
    if s.phase.Listening? {
      AccountedSame(s, s');
      hide PhaseOk, Accounted;
      ListeningKeeps(s, s');
    } else {
      RecoveringKeeps(s, s');
    }
  }

  lemma FetchedPhase(s: State, s': State, p: Pid)
    requires PhaseOk(s) && s.phase.Recovering? && s.phase.hand.None? && p in s.petitions && p !in s.phase.done
    requires s' == s.(phase := Recovering(s.phase.done + {p}, Some(p)))
    ensures PhaseOk(s')
  {
  }

  lemma RequeuedPhase(s: State, s': State)
    requires PhaseOk(s) && s.phase.Recovering? && s.phase.hand.Some?
    requires s' == s.(channel := s.channel + [s.phase.hand.value], phase := Recovering(s.phase.done, None))
    ensures PhaseOk(s')
  {
    assert s.phase.hand.value in InHand(s.phase);
    Appended(s.channel, s.phase.hand.value);
  }

  lemma FinishedPhase(s: State, s': State)
    requires PhaseOk(s) && s.phase.Recovering? && s.phase.hand.None? && s.petitions <= s.phase.done
    requires s' == s.(phase := Listening)
    ensures PhaseOk(s')
  {
  }

  lemma RestartedPhase(s: State, n: nat)
    ensures PhaseOk(Restarted(s, n))
  {
  }

  /** What has been accepted is kept. */
  lemma HistoryGoesOn(s: State, s': State)
    requires HistoryOk(s) && s.made <= s'.made && s'.petitions <= s'.made && s'.left <= s'.made
    requires forall p | p in s'.accepted && p !in s.accepted :: p in s.made && Kept(s, p) && p !in s.left
    requires forall p | p in s'.taken :: p in s.taken || p in s.channel
    requires forall p | p in s'.channel :: p in s.channel || p in s.made
    requires forall r | r in s'.requests :: s'.requests[r].p in s'.made
    requires forall p | Kept(s, p) :: Kept(s', p) || p !in s'.accepted
    requires forall p | p in s'.left && p !in s.left :: p !in s'.accepted
    requires s'.left == s.left || s'.left == {} || s'.accepted == s.accepted
    ensures HistoryOk(s')
  {
  }

  lemma MadeIs(s: State)
    requires HistoryOk(s)
    ensures s.petitions <= s.made && s.left <= s.made && s.taken <= s.made && forall r | r in s.requests :: s.requests[r].p in s.made
  {
  }

  /** A step that leaves alone what the history is about. */
  lemma HistoryStays(s: State, s': State)
    requires HistoryOk(s) && s'.petitions == s.petitions && s'.removed == s.removed && s'.made == s.made && s'.accepted == s.accepted
    requires s'.taken == s.taken && s'.left == s.left && s'.channel == s.channel && s'.requests == s.requests
    ensures HistoryOk(s')
  {
  }

  lemma RequestHistory(s: State, capacity: nat, a: Action)
    requires RequestsOk(s) && HistoryOk(s) && Enabled(s, capacity, a)
    requires a.Receive? || a.Enqueue? || a.Answer? || a.Withdraw?
    ensures HistoryOk(Do(s, capacity, a))
  {
    hide RequestsOk, HistoryOk;
    MadeIs(s);
    var s' := Do(s, capacity, a);
    match a {
      case Receive(r, p) => HistoryGoesOn(s, s');
      case Enqueue(r) =>
        Appended(s.channel, s.requests[r].p);
        HistoryGoesOn(s, s');
      case Answer(r) =>
        EnqueuedIs(s, r);
        HistoryGoesOn(s, s');
      case Withdraw(r, ok) =>
        ReservedIs(s, r);
        HistoryGoesOn(s, s');
    }
  }

  lemma HistoryKeeps(s: State, capacity: nat, a: Action)
    requires ChannelOk(s) && WorkersOk(s) && RequestsOk(s) && PhaseOk(s) && HistoryOk(s) && Enabled(s, capacity, a) && !a.HandOver? && !a.HandBack?
    ensures HistoryOk(Do(s, capacity, a))
  {
    hide Distinct, WorkersOk, RequestsOk, PhaseOk, ChannelOk, HistoryOk;
    if a.Receive? || a.Enqueue? || a.Answer? || a.Withdraw? {
      RequestHistory(s, capacity, a);
    } else if a.Take? || a.Remove? || a.Requeue? || a.Crash? {
      MadeIs(s);
      var s' := Do(s, capacity, a);
      match a {
        case Take(t) => HistoryGoesOn(s, s');
        case Remove(t, ok) =>
          BusyIs(s, t);
          HistoryGoesOn(s, s');
        case Requeue =>
          HandIs(s);
          Appended(s.channel, s.phase.hand.value);
          HistoryGoesOn(s, s');
        case Crash(n) => HistoryGoesOn(s, s');
      }
    } else {
      HistoryStays(s, Do(s, capacity, a));
    }
  }

  lemma EnqueuedIs(s: State, r: Rid)
    requires RequestsOk(s) && r in s.requests && s.requests[r].Enqueued?
    ensures Kept(s, s.requests[r].p) && s.requests[r].p !in s.left
  {
  }

  /** Nothing is removed, and no reply inserted. */
  lemma RepliesSame(s: State, s': State)
    requires RepliesOk(s) && s'.tried == s.tried && s'.failed == s.failed && s'.replies == s.replies && s'.removed == s.removed
    requires s.made <= s'.made && forall p | p in s'.petitions :: p in s.petitions || p !in s.made
    ensures RepliesOk(s')
  {
  }

  lemma ReplyInserted(s: State, s': State, p: Pid, ok: bool)
    requires RepliesOk(s) && s'.tried == s.tried + multiset{p} && s'.failed == s.failed + (if ok then multiset{} else multiset{p})
    requires s'.replies == s.replies + (if ok then {p} else {})
    requires s'.removed == s.removed && s'.petitions == s.petitions && s'.made == s.made
    ensures RepliesOk(s')
  {
  }

  lemma PetitionRemoved(s: State, s': State, p: Pid)
    requires RepliesOk(s) && s'.tried == s.tried && s'.failed == s.failed && s'.replies == s.replies && s'.made == s.made
    requires s'.petitions == s.petitions - {p} && s'.removed == s.removed + {p} && p in s.made && s.tried[p] > 0
    ensures RepliesOk(s')
  {
  }

  lemma RepliesKeep(s: State, capacity: nat, a: Action)
    requires RepliesOk(s) && WorkersOk(s) && RequestsOk(s) && HistoryOk(s) && Enabled(s, capacity, a) && !a.HandOver? && !a.HandBack?
    ensures RepliesOk(Do(s, capacity, a))
  {
    hide WorkersOk, RequestsOk, HistoryOk, RepliesOk;
    var s' := Do(s, capacity, a);
    match a {
      case Remove(t, ok) =>
        MadeIs(s);
        BusyIs(s, t);
        if ok {
          PetitionRemoved(s, s', WorkerOf(s, t).p);
        } else {
          RepliesSame(s, s');
        }
      case StoreReply(t, ok) => ReplyInserted(s, s', WorkerOf(s, t).p, ok);
      case _ => RepliesSame(s, s');
    }
  }

  lemma SimpleKeeps(s: State, capacity: nat, a: Action)
    requires Inv(s) && Enabled(s, capacity, a) && !a.HandOver? && !a.HandBack?
    ensures Inv(Do(s, capacity, a))
  {
    hide Distinct, WorkersOk, RequestsOk, PhaseOk, ChannelOk, HistoryOk, RepliesOk, Do;
    ChannelKeeps(s, capacity, a);
    WorkersKeep(s, capacity, a);
    RequestsKeep(s, capacity, a);
    PhaseKeeps(s, capacity, a);
    HistoryKeeps(s, capacity, a);
    RepliesKeep(s, capacity, a);
  }

  /** Handing over is queueing with room for one more, and taking at once. */
  lemma DoKeeps(s: State, capacity: nat, a: Action)
    requires Inv(s) && Enabled(s, capacity, a)
    ensures Inv(Do(s, capacity, a))
  {
    hide Inv;
    match a {
      case HandOver(r, t) =>
        SimpleKeeps(s, 1, Enqueue(r));
        SimpleKeeps(Queued(s, r), 1, Take(t));
      case HandBack(t) =>
        SimpleKeeps(s, 1, Requeue);
        SimpleKeeps(Requeued(s), 1, Take(t));
      case _ => SimpleKeeps(s, capacity, a);
    }
  }

  // ---- over every run, across crashes

  lemma FirstInv(n: nat, retries: nat)
    ensures Inv(Restarted(Empty(retries), n))
  {
  }

  lemma {:induction false} RunInv(run: seq<State>, capacity: nat, i: nat)
    requires IsRun(run, capacity) && i < |run|
    ensures Inv(run[i])
  {
    hide Inv, Do;
    if i == 0 {
      var n, retries :| run[0] == Restarted(Empty(retries), n);
      FirstInv(n, retries);
    } else {
      RunInv(run, capacity, i - 1);
      assert Next(run[i - 1], capacity, run[i]);
      var a :| Enabled(run[i - 1], capacity, a) && run[i] == Do(run[i - 1], capacity, a);
      DoKeeps(run[i - 1], capacity, a);
    }
  }

  /** A petition answered with success is neither stored nor has its reply stored exactly if a consumer has removed
      it and every insertion of its reply has failed. */
  lemma AcceptedIsKept(run: seq<State>, capacity: nat, i: nat, p: Pid)
    requires IsRun(run, capacity) && i < |run| && p in run[i].accepted
    ensures p !in run[i].petitions && p !in run[i].replies <==> p in run[i].removed && run[i].failed[p] == run[i].tried[p]
    ensures run[i].failed[p] == 0 ==> p in run[i].petitions || p in run[i].replies
  {
    RunInv(run, capacity, i);
    AcceptedIs(run[i], p);
  }

  lemma AcceptedIs(s: State, p: Pid)
    requires Inv(s) && p in s.accepted
    ensures Kept(s, p) && (p in s.removed ==> p !in s.petitions && s.tried[p] > 0)
    ensures s.failed[p] <= s.tried[p] && (p in s.replies <==> s.failed[p] < s.tried[p])
  {
    hide WorkersOk, RequestsOk, PhaseOk, ChannelOk;
  }

  /** What is queued is stored, once, and has not been taken before. */
  lemma QueuedIsStored(run: seq<State>, capacity: nat, i: nat, k: nat)
    requires IsRun(run, capacity) && i < |run| && k < |run[i].channel|
    ensures run[i].channel[k] in run[i].petitions && run[i].channel[k] !in run[i].taken
    ensures forall j | 0 <= j < |run[i].channel| && run[i].channel[j] == run[i].channel[k] :: j == k
  {
    RunInv(run, capacity, i);
  }

  /** Between two starts, all that is sent of a petition is sent by one consumer; each further time follows an error or
      a 503, and there are no more than the retries allowed. */
  lemma RelayedByOne(run: seq<State>, capacity: nat, i: nat, p: Pid)
    requires IsRun(run, capacity) && i < |run|
    ensures Sends(run[i].sends, p) <= run[i].retries + 1
    ensures forall j, k | 0 <= j < k < |run[i].sends| && run[i].sends[j].p == run[i].sends[k].p ::
      run[i].sends[j].t == run[i].sends[k].t && !run[i].sends[j].good
  {
    RunInv(run, capacity, i);
  }

  /** The end is signalled only when no consumer has a petition in its hands. */
  lemma SignalledAtTheEnd(run: seq<State>, capacity: nat, i: nat, t: Tid)
    requires IsRun(run, capacity) && i < |run| && run[i].signalled
    ensures !Busy(WorkerOf(run[i], t))
  {
    RunInv(run, capacity, i);
  }

  /** When the listener serves, every stored petition has been or will be taken, is about to be
      queued or refused, or has been refused: none that was left by an earlier run is forgotten. */
  lemma NothingForgotten(run: seq<State>, capacity: nat, i: nat, p: Pid)
    requires IsRun(run, capacity) && i < |run| && run[i].phase.Listening? && p in run[i].petitions
    ensures p in run[i].accepted ==> p in run[i].channel || p in run[i].taken
    ensures Accounted(run[i], p)
  {
    RunInv(run, capacity, i);
    NotReserved(run[i], p);
  }

  lemma NotReserved(s: State, p: Pid)
    requires Inv(s)
    ensures p in s.accepted ==> p !in s.left && forall r | r in s.requests :: s.requests[r].Enqueued? || s.requests[r].p != p
  {
  }

  lemma Step(s: State, capacity: nat, a: Action, s': State)
    requires Enabled(s, capacity, a) && s' == Do(s, capacity, a)
    ensures Next(s, capacity, s')
  {
  }

  /** A petition on its way to being queued. */
  lemma QueuedRun() returns (run: seq<State>)
    ensures run != [] && IsRun(run, 1) && run[|run| - 1] == AfterQueueing()
  {
    hide IsRun, Next;
    var s0 := Restarted(Empty(0), 1);
    assert s0.workers == map[0 := Waiting] by { assert Waiters(1) == Waiters(0)[0 := Waiting]; }
    var s1 := s0.(phase := Listening);
    Step(s0, 1, FinishRecovery, s1);
    var s2 := s1.(petitions := {0}, made := {0}, requests := map[0 := Inserted(0)]);
    Step(s1, 1, Receive(0, 0), s2);
    var s3 := AfterQueueing();
    Step(s2, 1, Enqueue(0), s3);
    FirstRun(0, 1);
    OneMore([s0], 1, s1);
    OneMore([s0] + [s1], 1, s2);
    OneMore([s0] + [s1] + [s2], 1, s3);
    run := [s0] + [s1] + [s2] + [s3];
  }

  function AfterQueueing(): (s: State) {
    State({0}, {}, [0], map[0 := Waiting], map[0 := Enqueued(0)], Listening, false, false, 0,
          {0}, {}, {}, multiset{}, multiset{}, {}, [], {})
  }

  lemma FirstRun(retries: nat, n: nat)
    ensures IsRun([Restarted(Empty(retries), n)], 1)
  {
  }

  /** And accepted and taken. */
  lemma TakenRun() returns (run: seq<State>)
    ensures run != [] && IsRun(run, 1)
    ensures var s := run[|run| - 1];
      && WorkerOf(s, 0) == Got(0) && s.accepted == {0} && s.petitions == {0} && s.replies == {} && s.retries == 0
  {
    hide IsRun, Next;
    run := QueuedRun();
    var s3 := AfterQueueing();
    var s4 := s3.(accepted := {0}, requests := map[]);
    Step(s3, 1, Answer(0), s4);
    var s5 := s4.(channel := [], workers := map[0 := Got(0)], taken := {0});
    Step(s4, 1, Take(0), s5);
    OneMore(run, 1, s4);
    OneMore(run + [s4], 1, s5);
    run := run + [s4] + [s5];
  }

  lemma OneMore(run: seq<State>, capacity: nat, s: State)
    requires run != [] && IsRun(run, capacity) && Next(run[|run| - 1], capacity, s)
    ensures IsRun(run + [s], capacity)
  {
    hide Next;
  }

  /** A reply that cannot be inserted loses its petition: it is removed all the same. */
  lemma LostWithoutReply() returns (run: seq<State>)
    ensures run != [] && IsRun(run, 1)
    ensures var s := run[|run| - 1]; 0 in s.accepted && 0 !in s.petitions && 0 !in s.replies
  {
    hide IsRun, Next;
    run := TakenRun();
    var s5 := run[|run| - 1];
    var s6 := Do(s5, 1, Send(0, true));
    Step(s5, 1, Send(0, true), s6);
    OneMore(run, 1, s6);
    var s7 := Do(s6, 1, StoreReply(0, false));
    Step(s6, 1, StoreReply(0, false), s7);
    OneMore(run + [s6], 1, s7);
    var s8 := Do(s7, 1, Remove(0, true));
    Step(s7, 1, Remove(0, true), s8);
    OneMore(run + [s6] + [s7], 1, s8);
    run := run + [s6] + [s7] + [s8];
  }

  // ---- what else holds in every run

  predicate Answered(s: State, p: Pid) {
    (exists i :: 0 <= i < |s.sends| && s.sends[i].p == p && s.sends[i].good) || Sends(s.sends, p) == s.retries + 1
  }

  /** The channel keeps its capacity; a consumer ends only when the listener has been stopped; and a reply is stored only
      behind a request that is answered, or all of them. */
  ghost predicate Orderly(s: State, capacity: nat) {
    && |s.channel| <= capacity
    && (forall t | t in s.workers && s.workers[t].Exited? :: s.stopping)
    && (forall t | t in s.workers && s.workers[t].Sent? && s.workers[t].good :: Answered(s, s.workers[t].p))
    && (forall t | t in s.workers && s.workers[t].Replied? :: Answered(s, s.workers[t].p))
  }

  lemma AnsweredStays(s: State, s': State, p: Pid)
    requires Answered(s, p) && s.sends <= s'.sends && Sends(s'.sends, p) == Sends(s.sends, p) && s'.retries == s.retries
    ensures Answered(s', p)
  {
  }

  lemma OneSent(s: State, s': State, x: Try)
    requires s'.sends == s.sends + [x] && s'.retries == s.retries
    ensures forall p | Answered(s, p) && p != x.p :: Answered(s', p)
    ensures x.good ==> Answered(s', x.p)
  {
    assert s'.sends[|s.sends|] == x;
    forall p | Answered(s, p) && p != x.p ensures Answered(s', p) {
      SendsMore(s.sends, x);
      AnsweredStays(s, s', p);
    }
  }

  lemma SendsOrderly(s: State, capacity: nat, a: Action)
    requires Inv(s) && Orderly(s, capacity) && Enabled(s, capacity, a) && (a.Send? || a.Retry?)
    ensures Orderly(Do(s, capacity, a), capacity)
  {
    hide Inv, Answered, Sends;
    OthersDiffer(s, a.t);
    OneSent(s, Do(s, capacity, a), Try(WorkerOf(s, a.t).p, a.t, a.good));
  }

  lemma RepliesOrderly(s: State, capacity: nat, a: Action)
    requires Inv(s) && Orderly(s, capacity) && Enabled(s, capacity, a) && a.StoreReply?
    ensures Orderly(Do(s, capacity, a), capacity)
  {
    hide Inv, Answered, Sends;
    if !WorkerOf(s, a.t).good {
      LastTry(s, a.t);
    }
    SameAnswers(s, Do(s, capacity, a));
  }

  lemma OthersOrderly(s: State, capacity: nat, a: Action)
    requires Orderly(s, capacity) && Enabled(s, capacity, a) && !a.Send? && !a.Retry? && !a.StoreReply?
    ensures Orderly(Do(s, capacity, a), capacity)
  {
    hide Answered, Sends;
    if !a.Crash? {
      SameAnswers(s, Do(s, capacity, a));
    }
  }

  lemma OrderlyKeeps(s: State, capacity: nat, a: Action)
    requires Inv(s) && Orderly(s, capacity) && Enabled(s, capacity, a)
    ensures Orderly(Do(s, capacity, a), capacity)
  {
    hide *;
    match a {
      case Send(t, good) => SendsOrderly(s, capacity, a);
      case Retry(t, good) => SendsOrderly(s, capacity, a);
      case StoreReply(t, ok) => RepliesOrderly(s, capacity, a);
      case _ => OthersOrderly(s, capacity, a);
    }
  }

  lemma SameAnswers(s: State, s': State)
    requires s'.sends == s.sends && s'.retries == s.retries
    ensures forall p | Answered(s, p) :: Answered(s', p)
  {
  }

  lemma OthersDiffer(s: State, t: Tid)
    requires Inv(s) && Busy(WorkerOf(s, t))
    ensures t in s.workers && forall u | u in s.workers && u != t && Busy(s.workers[u]) :: s.workers[u].p != s.workers[t].p
  {
    hide ChannelOk, RequestsOk, PhaseOk, HistoryOk, RepliesOk;
  }

  lemma LastTry(s: State, t: Tid)
    requires Inv(s) && WorkerOf(s, t).Sent? && WorkerOf(s, t).tries == s.retries + 1
    ensures Answered(s, WorkerOf(s, t).p)
  {
    hide ChannelOk, RequestsOk, PhaseOk, HistoryOk, RepliesOk;
  }

  lemma {:induction false} RunOrderly(run: seq<State>, capacity: nat, i: nat)
    requires IsRun(run, capacity) && i < |run|
    ensures Orderly(run[i], capacity)
  {
    hide Inv, Enabled, Do, Restarted;
    if i == 0 {
      var n, retries :| run[0] == Restarted(Empty(retries), n);
      FirstOrderly(n, retries, capacity);
    } else {
      RunOrderly(run, capacity, i - 1);
      RunInv(run, capacity, i - 1);
      assert Next(run[i - 1], capacity, run[i - 1 + 1]);
      var a :| Enabled(run[i - 1], capacity, a) && run[i] == Do(run[i - 1], capacity, a);
      OrderlyKeeps(run[i - 1], capacity, a);
    }
  }

  lemma FirstOrderly(n: nat, retries: nat, capacity: nat)
    ensures Orderly(Restarted(Empty(retries), n), capacity)
  {
  }

  // ---- it can always be brought to an end

  lemma Goes(run: seq<State>, capacity: nat, a: Action) returns (more: seq<State>)
    requires IsRun(run, capacity) && Enabled(run[|run| - 1], capacity, a)
    ensures IsRun(more, capacity) && run <= more && more[|more| - 1] == Do(run[|run| - 1], capacity, a)
  {
    hide Enabled, Do, Restarted;
    var s := Do(run[|run| - 1], capacity, a);
    assert Next(run[|run| - 1], capacity, s);
    more := run + [s];
    forall i | 0 <= i < |more| - 1 ensures Next(more[i], capacity, more[i + 1]) {
      if i < |run| - 1 {
        assert more[i] == run[i] && more[i + 1] == run[i + 1];
      }
    }
  }

  /** A consumer has gone on to `w`, and nothing else has happened that matters for the end. */
  ghost predicate Onward(run: seq<State>, more: seq<State>, t: Tid, w: Worker) {
    run != [] && run <= more &&
    var s, s' := run[|run| - 1], more[|more| - 1];
    s'.workers == s.workers[t := w] && s'.stopping == s.stopping && s'.signalled == s.signalled && s'.retries == s.retries
  }

  lemma GoesOn(run: seq<State>, capacity: nat, t: Tid, a: Action, w: Worker) returns (more: seq<State>)
    requires IsRun(run, capacity) && Enabled(run[|run| - 1], capacity, a)
    requires var s, s' := run[|run| - 1], Do(run[|run| - 1], capacity, a);
      s'.workers == s.workers[t := w] && s'.stopping == s.stopping && s'.signalled == s.signalled && s'.retries == s.retries
    ensures IsRun(more, capacity) && Onward(run, more, t, w)
  {
    hide Do, Enabled, Restarted;
    more := Goes(run, capacity, a);
  }

  /** A consumer finishes what it has in hand. */
  lemma Finishes(run: seq<State>, capacity: nat, t: Tid) returns (more: seq<State>)
    requires IsRun(run, capacity) && t in run[|run| - 1].workers && !run[|run| - 1].workers[t].Exited?
    ensures IsRun(more, capacity) && Onward(run, more, t, Waiting)
  {
    hide IsRun;
    HasState(run, capacity);
    match run[|run| - 1].workers[t] {
      case Waiting => more := run;
      case Got(p) => more := GoesOn(run, capacity, t, Discard(t), Waiting);
      case Sent(p, tries, good) =>
        TriesAre(run, capacity, t);
        if !good && tries <= run[|run| - 1].retries {
          more := GoesOn(run, capacity, t, Retry(t, true), Sent(p, tries + 1, true));
          more := Replies(run, more, capacity, t);
        } else {
          more := Replies(run, run, capacity, t);
        }
      case Replied(p) => more := GoesOn(run, capacity, t, Remove(t, true), Waiting);
    }
  }

  lemma Replies(first: seq<State>, run: seq<State>, capacity: nat, t: Tid) returns (more: seq<State>)
    requires IsRun(run, capacity) && t in run[|run| - 1].workers && run[|run| - 1].workers[t].Sent?
    requires run[|run| - 1].workers[t].good || run[|run| - 1].workers[t].tries == run[|run| - 1].retries + 1
    requires Onward(first, run, t, run[|run| - 1].workers[t])
    ensures IsRun(more, capacity) && Onward(first, more, t, Waiting)
  {
    hide IsRun;
    more := GoesOn(run, capacity, t, StoreReply(t, true), Replied(run[|run| - 1].workers[t].p));
    more := GoesOn(more, capacity, t, Remove(t, true), Waiting);
  }

  lemma TriesAre(run: seq<State>, capacity: nat, t: Tid)
    requires IsRun(run, capacity) && t in run[|run| - 1].workers && run[|run| - 1].workers[t].Sent?
    ensures run[|run| - 1].workers[t].tries <= run[|run| - 1].retries + 1
  {
    RunInv(run, capacity, |run| - 1);
    hide ChannelOk, RequestsOk, PhaseOk, HistoryOk, RepliesOk, IsRun;
  }

  lemma HasState(run: seq<State>, capacity: nat)
    requires IsRun(run, capacity)
    ensures run != []
  {
  }

  function Unended(s: State): (r: set<Tid>) {
    set t | t in s.workers && !s.workers[t].Exited?
  }

  lemma Stops(run: seq<State>, capacity: nat) returns (more: seq<State>)
    requires IsRun(run, capacity)
    ensures IsRun(more, capacity) && run <= more
    ensures more[|more| - 1].stopping && more[|more| - 1].workers == run[|run| - 1].workers
  {
    more := Goes(run, capacity, Stop);
  }

  lemma Ends(run: seq<State>, capacity: nat, t: Tid) returns (more: seq<State>)
    requires IsRun(run, capacity) && run[|run| - 1].stopping && t in Unended(run[|run| - 1])
    ensures IsRun(more, capacity) && run <= more && more[|more| - 1].stopping
    ensures Unended(more[|more| - 1]) == Unended(run[|run| - 1]) - {t}
  {
    hide IsRun;
    more := Finishes(run, capacity, t);
    more := GoesOn(more, capacity, t, Exit(t), Exited);
  }

  lemma Signals(run: seq<State>, capacity: nat) returns (more: seq<State>)
    requires IsRun(run, capacity) && run[|run| - 1].stopping && Unended(run[|run| - 1]) == {}
    ensures IsRun(more, capacity) && run <= more && more[|more| - 1].stopping && more[|more| - 1].signalled
  {
    var s := run[|run| - 1];
    if s.signalled {
      more := run;
    } else {
      assert forall t | t in s.workers :: t !in Unended(s) ==> s.workers[t].Exited?;
      more := Goes(run, capacity, Signal);
    }
  }

  /** From whatever state, once it is stopped, all consumers can end, and the end be signalled. */
  lemma {:induction false} CanEnd(run: seq<State>, capacity: nat) returns (more: seq<State>)
    requires IsRun(run, capacity)
    ensures IsRun(more, capacity) && run <= more && more[|more| - 1].stopping && more[|more| - 1].signalled
    decreases |Unended(run[|run| - 1])|
  {
    hide IsRun, Unended;
    HasState(run, capacity);
    more := Stops(run, capacity);
    SameUnended(run[|run| - 1], more[|more| - 1]);
    if Unended(more[|more| - 1]) == {} {
      more := Signals(more, capacity);
    } else {
      var t :| t in Unended(more[|more| - 1]);
      more := Ends(more, capacity, t);
      more := CanEnd(more, capacity);
    }
  }

  lemma SameUnended(s: State, s': State)
    requires s'.workers == s.workers
    ensures Unended(s') == Unended(s)
  {
  }
}
