/** The limit on the sockets of a server that are in use: what its check in AcquireSocket sees, and when it is kept. */
module SocketLimit {
  import opened Basics
  import opened SocketPool

  // ---- runs in which every call of AcquireSocket has the same limit

  ghost predicate LimitedNext(s: State, s': State, limit: nat) {
    exists t, a, unseen :: Enabled(s, t, a) && unseen !in s.sockets && s' == Do(s, t, a, unseen) && (a.Acquire? ==> a.limit == limit)
  }

  ghost predicate IsLimitedRun(run: seq<State>, limit: nat) {
    run != [] && run[0] == START && forall i | 0 <= i < |run| - 1 :: LimitedNext(run[i], run[i + 1], limit)
  }

  lemma LimitedIsRun(run: seq<State>, limit: nat)
    requires IsLimitedRun(run, limit)
    ensures IsRun(run)
  {
    forall i | 0 <= i < |run| - 1 ensures Next(run[i], run[i + 1]) {
      assert LimitedNext(run[i], run[i + 1], limit);
    }
  }

  // ---- what is counted

  /** The live sockets that call sites hold. */
  function InUse(s: State): (r: set<Sid>) {
    set k | k in s.live && HeldOf(s, k) > 0
  }

  /** The live sockets that nobody holds and that are not in the pool: on their way in or out, or dead. */
  function Resting(s: State): (r: set<Sid>) {
    set k | k in s.live && HeldOf(s, k) == 0 && k !in s.unused
  }

  /** The sockets of the pool that are not live any more. */
  function Strays(s: State): (r: set<Sid>) {
    set k | k in s.unused && k !in s.live
  }

  /** Behind the check, with a connection to come or one that is not among the live sockets yet. */
  predicate OnTheWay(pc: Pc) {
    pc.Dialing? || pc.Connected?
  }

  function Dialers(s: State): (r: set<Tid>) {
    set t | t in s.pcs && OnTheWay(s.pcs[t])
  }

  /** The check of AcquireSocket. */
  predicate Passes(s: State, limit: nat) {
    limit == 0 || |s.live| - |s.unused| < limit
  }

  // ---- live sockets are there once

  ghost predicate LiveOk(s: State) {
    && Distinct(s.live)
    && (forall t | PcOf(s, t).Connected? :: PcOf(s, t).sid !in s.live)
    && (s.closed ==> s.unused == [])
    && (forall t | PcOf(s, t).Turned? || PcOf(s, t).TurnedRecycling? || PcOf(s, t).TurnedClosing? || PcOf(s, t).Closing? :: s.closed)
  }

  lemma {:induction false} WithoutDistinct(ks: seq<Sid>, k: Sid)
    requires Distinct(ks)
    ensures Distinct(Without(ks, k)) && (forall j | j in Without(ks, k) :: j in ks) && |Without(ks, k)| <= |ks|
  {
    if ks != [] {
      assert forall i, j | 0 <= i < j < |ks[1..]| :: ks[1..][i] == ks[i + 1] && ks[1..][j] == ks[j + 1];
      if ks[0] != k {
        WithoutDistinct(ks[1..], k);
        assert ks[0] !in ks[1..];
      }
    }
  }

  /** A goroutine moves on, to nothing new but what is said. */
  lemma LiveMoves(s: State, s': State, t: Tid)
    requires LiveOk(s) && s'.live == s.live && s'.closed == s.closed && (s.closed ==> s'.unused == [])
    requires s'.pcs == s.pcs || (t in s'.pcs && s'.pcs == s.pcs[t := s'.pcs[t]])
    requires PcOf(s', t).Connected? ==> PcOf(s', t).sid !in s.live
    requires PcOf(s', t).Turned? || PcOf(s', t).TurnedRecycling? || PcOf(s', t).TurnedClosing? || PcOf(s', t).Closing? ==> s.closed
    ensures LiveOk(s')
  {
    assert forall u | u != t :: PcOf(s', u) == PcOf(s, u);
  }

  lemma RegisterLive(s: State, t: Tid, unseen: Sid)
    requires Inv(s) && LiveOk(s) && Enabled(s, t, Register)
    ensures LiveOk(Do(s, t, Register, unseen))
  {
    var k := PcOf(s, t).sid;
    CarriedIs(s, t, k);
    hide Inv;
    var s' := Do(s, t, Register, unseen);
    assert forall u | u != t :: PcOf(s', u) == PcOf(s, u) && (PcOf(s, u).Connected? ==> PcOf(s, u).sid in Carried(PcOf(s, u)));
  }

  lemma AbendLive(s: State, t: Tid, unseen: Sid)
    requires LiveOk(s) && Enabled(s, t, Abend)
    ensures LiveOk(Do(s, t, Abend, unseen))
  {
    WithoutDistinct(s.live, PcOf(s, t).sid);
    var s' := Do(s, t, Abend, unseen);
    assert forall u | u != t :: PcOf(s', u) == PcOf(s, u);
  }

  lemma CloseLive(s: State, t: Tid, unseen: Sid)
    requires LiveOk(s) && Enabled(s, t, CloseServer)
    ensures LiveOk(Do(s, t, CloseServer, unseen))
  {
  }

  lemma DoLive(s: State, t: Tid, a: Action, unseen: Sid)
    requires Inv(s) && LiveOk(s) && Enabled(s, t, a) && unseen !in s.sockets
    ensures LiveOk(Do(s, t, a, unseen))
  {
    var s' := Do(s, t, a, unseen);
    match a {
      case Register => RegisterLive(s, t, unseen);
      case Abend => AbendLive(s, t, unseen);
      case CloseServer => CloseLive(s, t, unseen);
      case Connect(fails) =>
        UnseenIs(s, unseen);
        hide Inv, LiveOk;
        LiveMoves(s, s', t);
      case Recycle =>
        hide Inv;
        RecycleLive(s, t, unseen);
      case _ =>
        hide Inv;
        OtherLive(s, t, a, unseen);
    }
  }

  lemma RecycleLive(s: State, t: Tid, unseen: Sid)
    requires LiveOk(s) && Enabled(s, t, Recycle)
    ensures LiveOk(Do(s, t, Recycle, unseen))
  {
    var s' := Do(s, t, Recycle, unseen);
    assert PcOf(s, t).TurnedRecycling? ==> s.closed;
    LiveMoves(s, s', t);
  }

  lemma OtherLive(s: State, t: Tid, a: Action, unseen: Sid)
    requires LiveOk(s) && Enabled(s, t, a)
    requires !a.Register? && !a.Abend? && !a.CloseServer? && !a.Connect? && !a.Recycle?
    ensures LiveOk(Do(s, t, a, unseen))
  {
    assert PcOf(s, t).Turned? || PcOf(s, t).TurnedClosing? || PcOf(s, t).Closing? ==> s.closed;
    assert s.closed ==> s.unused == [];
    hide LiveOk, Released, Killed;
    var pc := PcOf(s, t);
    match a {
      case Release(k) => ReleasedMoves(s, t, k, Recycling(k), Idle, Idle);
      case TurnedRelease => ReleasedMoves(s, t, pc.sid, TurnedRecycling(pc.sid), TurnedClosing(pc.sid), TurnedClosing(pc.sid));
      case Kill(k) => KilledMoves(s, t, k, true, Idle);
      case CloseNext =>
        if pc.TurnedClosing? {
          KilledMoves(s, t, pc.sid, false, Idle);
        } else if pc.todo != [] {
          KilledMoves(s, t, pc.todo[0], false, Closing(pc.todo[1..]));
        }
      case _ =>
    }
    LiveMoves(s, Do(s, t, a, unseen), t);
  }

  lemma {:induction false} RunLive(run: seq<State>, i: nat)
    requires IsRun(run) && i < |run|
    ensures LiveOk(run[i])
  {
    hide Inv, LiveOk, Do, Enabled;
    if i == 0 {
      StartLive();
    } else {
      RunLive(run, i - 1);
      RunInv(run, i - 1);
      assert Next(run[i - 1], run[i - 1 + 1]);
      var t, a, unseen :| Enabled(run[i - 1], t, a) && unseen !in run[i - 1].sockets && run[i] == Do(run[i - 1], t, a, unseen);
      DoLive(run[i - 1], t, a, unseen);
    }
  }

  lemma StartLive()
    ensures LiveOk(START)
  {
  }

  // ---- what the check sees

  function Members(ks: seq<Sid>): (r: set<Sid>) {
    set k | k in ks
  }

  lemma {:induction false} SetSize(ks: seq<Sid>)
    requires Distinct(ks)
    ensures |Members(ks)| == |ks|
    decreases |ks|
  {
    if ks != [] {
      var init, last := ks[..|ks| - 1], ks[|ks| - 1];
      assert forall i | 0 <= i < |init| :: init[i] == ks[i];
      SetSize(init);
      assert last !in init;
      assert ks == init + [last];
      assert Members(ks) == Members(init) + {last};
    }
  }

  lemma Disjoint(a: set<Sid>, b: set<Sid>)
    requires a !! b
    ensures |a + b| == |a| + |b|
  {
  }

  lemma Counted(live: set<Sid>, unused: set<Sid>, inUse: set<Sid>, resting: set<Sid>, both: set<Sid>, strays: set<Sid>)
    requires live == (inUse + resting) + both && unused == both + strays
    requires inUse !! resting && (inUse + resting) !! both && both !! strays
    ensures |live| + |strays| == |inUse| + |resting| + |unused|
  {
    Disjoint(both, strays);
    Disjoint(inUse, resting);
    Disjoint(inUse + resting, both);
  }

  lemma PoolIs(s: State)
    requires Inv(s)
    ensures Distinct(s.unused) && forall k | k in s.unused :: k in s.sockets && HeldOf(s, k) == 0
  {
  }

  lemma LiveIs(s: State)
    requires LiveOk(s)
    ensures Distinct(s.live)
  {
  }

  /** The live sockets and the strays are those in use, those that rest, and those of the pool. */
  lemma Accounted(s: State)
    requires Inv(s) && LiveOk(s)
    ensures |s.live| + |Strays(s)| == |InUse(s)| + |Resting(s)| + |s.unused|
  {
    hide Inv, LiveOk, HeldOf, Distinct;
    PoolIs(s);
    LiveIs(s);
    SetSize(s.live);
    SetSize(s.unused);
    PoolSets(s);
    LiveSets(s);
    hide InUse, Resting, Strays, Members;
    var live, unused := Members(s.live), Members(s.unused);
    Counted(live, unused, InUse(s), Resting(s), live * unused, Strays(s));
  }

  lemma PoolSets(s: State)
    ensures Members(s.unused) == Members(s.live) * Members(s.unused) + Strays(s)
    ensures (Members(s.live) * Members(s.unused)) !! Strays(s)
  {
  }

  lemma LiveSets(s: State)
    requires forall k | k in s.unused :: HeldOf(s, k) == 0
    ensures Members(s.live) == (InUse(s) + Resting(s)) + Members(s.live) * Members(s.unused)
    ensures InUse(s) !! Resting(s) && (InUse(s) + Resting(s)) !! (Members(s.live) * Members(s.unused))
  {
    hide HeldOf;
  }

  /** What is in the pool is on no goroutine's way in. */
  lemma PooledNotDoomed(s: State, k: Sid)
    requires Inv(s) && LiveOk(s) && k in s.unused
    ensures forall t :: k !in Doomed(PcOf(s, t))
  {
    assert forall t | PcOf(s, t).Connected? :: PcOf(s, t).sid in Carried(PcOf(s, t));
  }

  /** A stray is dead. */
  lemma StraysAreDead(s: State, k: Sid)
    requires Inv(s) && LiveOk(s) && Watched(s) && k in Strays(s)
    ensures k in s.sockets && s.sockets[k].dead
  {
    PoolIs(s);
    PooledNotDoomed(s, k);
    hide Inv, LiveOk, Doomed;
    assert Alive(s, k) ==> k in s.live || exists t :: k in Doomed(PcOf(s, t));
  }

  /** The check passes exactly if the sockets in use and those that rest are fewer than the limit and the strays. */
  lemma CheckSees(run: seq<State>, i: nat, limit: nat)
    requires IsRun(run) && i < |run| && limit > 0
    ensures Passes(run[i], limit) <==> |InUse(run[i])| + |Resting(run[i])| < limit + |Strays(run[i])|
    ensures forall k | k in Strays(run[i]) :: k in run[i].sockets && run[i].sockets[k].dead
  {
    RunInv(run, i);
    RunLive(run, i);
    RunWatched(run, i);
    Accounted(run[i]);
    hide Inv, LiveOk, Watched, Strays;
    forall k | k in Strays(run[i]) ensures k in run[i].sockets && run[i].sockets[k].dead {
      StraysAreDead(run[i], k);
    }
  }

  // ---- how many there can be

  /** A goroutine begins to dial. */
  ghost predicate Dials(s: State, s': State) {
    exists t :: PcOf(s, t).Idle? && PcOf(s', t).Dialing?
  }

  /** The live sockets and those to come are no more than the limit and what has been dialed at once with others. */
  predicate Bounded(s: State, bound: nat) {
    |s.live| + |Dialers(s)| <= bound
  }

  lemma Changed(a: set<Tid>, b: set<Tid>, t: Tid)
    requires forall u | u != t :: u in a <==> u in b
    ensures |b| == |a| + (if t in b && t !in a then 1 else if t in a && t !in b then -1 else 0)
  {
    if t in b {
      assert b == a + {t};
    } else {
      assert b == a - {t};
    }
  }

  lemma DialerIs(s: State, t: Tid)
    ensures t in Dialers(s) <==> OnTheWay(PcOf(s, t))
  {
  }

  lemma DialersAre(s: State, s': State, t: Tid)
    requires s'.pcs == s.pcs || (t in s'.pcs && s'.pcs == s.pcs[t := s'.pcs[t]])
    ensures var before, after := OnTheWay(PcOf(s, t)), OnTheWay(PcOf(s', t));
      |Dialers(s')| == |Dialers(s)| + (if after && !before then 1 else if before && !after then -1 else 0)
  {
    hide Dialers, OnTheWay;
    forall u ensures (u in Dialers(s) <==> OnTheWay(PcOf(s, u))) && (u in Dialers(s') <==> OnTheWay(PcOf(s', u))) {
      DialerIs(s, u);
      DialerIs(s', u);
    }
    assert forall u | u != t :: PcOf(s', u) == PcOf(s, u);
    Changed(Dialers(s), Dialers(s'), t);
  }

  /** What a step does to the goroutines. */
  lemma DoMoves(s: State, t: Tid, a: Action, unseen: Sid)
    requires Enabled(s, t, a)
    ensures var s' := Do(s, t, a, unseen);
      && (s'.pcs == s.pcs || (t in s'.pcs && s'.pcs == s.pcs[t := s'.pcs[t]]))
      && (OnTheWay(PcOf(s', t)) && !OnTheWay(PcOf(s, t)) ==> a.Acquire? && PcOf(s', t).Dialing? && PcOf(s, t).Idle?)
      && (a.Register? ==> OnTheWay(PcOf(s, t)) && !OnTheWay(PcOf(s', t)))
  {
    hide Without, Released, Killed;
    var pc := PcOf(s, t);
    match a {
      case Release(k) => ReleasedMoves(s, t, k, Recycling(k), Idle, Idle);
      case TurnedRelease => ReleasedMoves(s, t, pc.sid, TurnedRecycling(pc.sid), TurnedClosing(pc.sid), TurnedClosing(pc.sid));
      case Kill(k) => KilledMoves(s, t, k, true, Idle);
      case CloseNext =>
        if pc.TurnedClosing? {
          KilledMoves(s, t, pc.sid, false, Idle);
        } else if pc.todo != [] {
          KilledMoves(s, t, pc.todo[0], false, Closing(pc.todo[1..]));
        }
      case _ =>
    }
  }

  lemma ReleasedMoves(s: State, t: Tid, k: Sid, last: Pc, gone: Pc, more: Pc)
    requires k in s.sockets
    ensures var s' := Released(s, t, k, last, gone, more);
      t in s'.pcs && s'.pcs == s.pcs[t := s'.pcs[t]]
      && (s'.pcs[t] == Panicked || s'.pcs[t] == last || s'.pcs[t] == gone || s'.pcs[t] == more)
      && s'.live == s.live && s'.unused == s.unused && s'.closed == s.closed
  {
  }

  lemma AtMoves(s: State, t: Tid, pc: Pc)
    ensures var s' := At(s, t, pc);
      && t in s'.pcs && s'.pcs[t] == pc && s'.pcs == s.pcs[t := pc]
      && s'.live == s.live && s'.unused == s.unused && s'.closed == s.closed
  {
  }

  lemma KilledMoves(s: State, t: Tid, k: Sid, abend: bool, next: Pc)
    requires k in s.sockets
    ensures var s' := Killed(s, t, k, abend, next);
      t in s'.pcs && s'.pcs == s.pcs[t := s'.pcs[t]] && (s'.pcs[t] == Panicked || s'.pcs[t] == Abending(k) || s'.pcs[t] == next)
      && s'.live == s.live && s'.unused == s.unused && s'.closed == s.closed
  {
    hide At;
    var x := s.sockets[k];
    var s' := WithSocket(s, k, x.(dead := true, attached := false));
    AtMoves(s, t, next);
    AtMoves(s', t, next);
    AtMoves(s', t, Abending(k));
    AtMoves(s', t, Panicked);
  }

  /** And to the number of live sockets. */
  lemma DoLives(s: State, t: Tid, a: Action, unseen: Sid)
    requires LiveOk(s) && Enabled(s, t, a)
    ensures |Do(s, t, a, unseen).live| <= |s.live| + (if a.Register? then 1 else 0)
  {
    if a.Abend? {
      WithoutDistinct(s.live, PcOf(s, t).sid);
    }
    hide LiveOk, Without;
  }

  lemma AcquireDials(s: State, t: Tid, limit: nat, unseen: Sid)
    requires PcOf(s, t).Idle? && limit > 0
    ensures var s' := Do(s, t, Acquire(limit), unseen);
      s'.live == s.live && (PcOf(s', t).Dialing? ==> s.unused == [] && |s.live| < limit && Dials(s, s'))
  {
  }

  lemma DoBounded(s: State, t: Tid, a: Action, unseen: Sid, limit: nat, x: nat)
    requires LiveOk(s) && Enabled(s, t, a) && (a.Acquire? ==> a.limit == limit) && limit > 0
    requires Bounded(s, limit + x) && (Dials(s, Do(s, t, a, unseen)) ==> |Dialers(s)| <= x)
    ensures Bounded(Do(s, t, a, unseen), limit + x)
  {
    DoMoves(s, t, a, unseen);
    DoLives(s, t, a, unseen);
    if a.Acquire? {
      AcquireDials(s, t, limit, unseen);
    }
    hide LiveOk, Dialers, Do, Dials, OnTheWay;
    DialersAre(s, Do(s, t, a, unseen), t);
  }

  /** If no goroutine begins to dial while more than `x` others are on their way with a new socket, no more than `x` sockets
      are in use above the limit; with none, the limit is kept. */
  lemma {:induction false} WithinLimit(run: seq<State>, i: nat, limit: nat, x: nat)
    requires IsLimitedRun(run, limit) && i < |run| && limit > 0
    requires forall j | 0 <= j < |run| - 1 && Dials(run[j], run[j + 1]) :: |Dialers(run[j])| <= x
    ensures |InUse(run[i])| <= |run[i].live| <= limit + x && Bounded(run[i], limit + x)
  {
    hide Do, Enabled, Dials, LiveOk, Bounded, InUse;
    if i == 0 {
      StartBounded(limit + x);
    } else {
      WithinLimit(run, i - 1, limit, x);
      LimitedIsRun(run, limit);
      RunLive(run, i - 1);
      assert LimitedNext(run[i - 1], run[i - 1 + 1], limit);
      var t, a, unseen :| Enabled(run[i - 1], t, a) && unseen !in run[i - 1].sockets && run[i] == Do(run[i - 1], t, a, unseen)
        && (a.Acquire? ==> a.limit == limit);
      DoBounded(run[i - 1], t, a, unseen, limit, x);
    }
    LimitedIsRun(run, limit);
    RunLive(run, i);
    UseIsLive(run[i], limit + x);
  }

  lemma StartBounded(bound: nat)
    ensures Bounded(START, bound)
  {
  }

  lemma UseIsLive(s: State, bound: nat)
    requires LiveOk(s) && Bounded(s, bound)
    ensures |InUse(s)| <= |s.live| <= bound
  {
    SetSize(s.live);
    hide LiveOk;
    Smaller(InUse(s), Members(s.live));
  }

  lemma Smaller(a: set<Sid>, b: set<Sid>)
    requires a <= b
    ensures |a| <= |b|
  {
    Disjoint(a, b - a);
    assert b == a + (b - a);
  }

  // ---- when the limit is passed

  /** A step by which one more socket comes into use: a new one is registered, or one of the pool that is live and not
      dead is acquired. */
  ghost predicate Takes(s: State, s': State) {
    exists t :: PcOf(s', t).Idle? && (
      || (PcOf(s, t).Connected? && !s.closed)
      || (PcOf(s, t).Popped? && Alive(s, PcOf(s, t).sid) && PcOf(s, t).sid in s.live))
  }

  /** Which steps these are. */
  lemma TakesIs(s: State, t: Tid, a: Action, unseen: Sid)
    requires Inv(s) && Enabled(s, t, a)
    ensures Takes(s, Do(s, t, a, unseen)) <==>
      (a.Register? && !s.closed) || (a.InitialAcquire? && Alive(s, PcOf(s, t).sid) && PcOf(s, t).sid in s.live)
  {
    var s' := Do(s, t, a, unseen);
    if a.Register? || a.InitialAcquire? {
      CarriedIs(s, t, PcOf(s, t).sid);
    }
    OthersStand(s, t, a, unseen);
    hide Inv, Takes;
    if a.Register? {
      TakesHere(s, s', t);
    } else if a.InitialAcquire? {
      TakesHere(s, s', t);
    } else {
      assert !PcOf(s, t).Connected? && !PcOf(s, t).Popped?;
      TakesHere(s, s', t);
    }
  }

  lemma OthersStand(s: State, t: Tid, a: Action, unseen: Sid)
    requires Enabled(s, t, a)
    ensures forall u | u != t :: PcOf(Do(s, t, a, unseen), u) == PcOf(s, u)
  {
    DoMoves(s, t, a, unseen);
    hide Do, Enabled;
  }

  lemma TakesHere(s: State, s': State, t: Tid)
    requires forall u | u != t :: PcOf(s', u) == PcOf(s, u)
    ensures Takes(s, s') <==> (
      && PcOf(s', t).Idle?
      && ((PcOf(s, t).Connected? && !s.closed) || (PcOf(s, t).Popped? && Alive(s, PcOf(s, t).sid) && PcOf(s, t).sid in s.live)))
  {
  }

  lemma FewerInUse(s: State, s': State)
    requires InUse(s') <= InUse(s)
    ensures |InUse(s')| <= |InUse(s)|
  {
    hide InUse;
    Smaller(InUse(s'), InUse(s));
  }

  /** One more is in use behind such a step, and behind no other. */
  lemma DoTakes(s: State, t: Tid, a: Action, unseen: Sid)
    requires Inv(s) && LiveOk(s) && Enabled(s, t, a) && unseen !in s.sockets
    ensures var s' := Do(s, t, a, unseen);
      if Takes(s, s') then |InUse(s')| == |InUse(s)| + 1 else |InUse(s')| <= |InUse(s)|
  {
    TakesIs(s, t, a, unseen);
    hide Takes;
    if a.Register? || a.InitialAcquire? {
      CarriedIs(s, t, PcOf(s, t).sid);
      hide Inv;
      AcquiredInUse(s, t, a, unseen);
    } else {
      hide Inv;
      OthersLeaveUse(s, t, a, unseen);
      FewerInUse(s, Do(s, t, a, unseen));
    }
  }

  lemma AcquiredInUse(s: State, t: Tid, a: Action, unseen: Sid)
    requires Enabled(s, t, a) && (a.Register? || a.InitialAcquire?)
    requires var k := PcOf(s, t).sid; k in s.sockets && HeldOf(s, k) == 0 && s.sockets[k].references == Reserved(PcOf(s, t))
    ensures var s' := Do(s, t, a, unseen);
      if (a.Register? && !s.closed) || (a.InitialAcquire? && Alive(s, PcOf(s, t).sid) && PcOf(s, t).sid in s.live)
      then |InUse(s')| == |InUse(s)| + 1 else |InUse(s')| <= |InUse(s)|
  {
    hide InUse;
    var s' := Do(s, t, a, unseen);
    var k := PcOf(s, t).sid;
    if a.Register? {
      if s.closed {
        SameUse(s, s');
      } else {
        OneMoreInUse(s, s', k);
      }
    } else if Alive(s, k) {
      OneMoreInUse(s, s', k);
    } else {
      SameUse(s, s');
    }
  }

  lemma SameUse(s: State, s': State)
    requires s'.live == s.live && s'.held == s.held
    ensures |InUse(s')| <= |InUse(s)|
  {
    FewerInUse(s, s');
  }

  /** A socket that nobody holds is handed out. */
  lemma OneMoreInUse(s: State, s': State, k: Sid)
    requires HeldOf(s, k) == 0 && s'.held == s.held[k := 1] && (s'.live == s.live || s'.live == s.live + [k])
    ensures |InUse(s')| == |InUse(s)| + (if k in s'.live then 1 else 0)
  {
    assert k !in InUse(s);
    assert InUse(s') == if k in s'.live then InUse(s) + {k} else InUse(s);
  }

  lemma OthersLeaveUse(s: State, t: Tid, a: Action, unseen: Sid)
    requires LiveOk(s) && Enabled(s, t, a) && !a.Register? && !a.InitialAcquire?
    ensures InUse(Do(s, t, a, unseen)) <= InUse(s)
  {
    var s' := Do(s, t, a, unseen);
    if a.Abend? {
      WithoutDistinct(s.live, PcOf(s, t).sid);
    }
    hide LiveOk;
    assert forall k | k in s'.live :: k in s.live;
    assert forall k | HeldOf(s', k) > 0 :: HeldOf(s, k) > 0;
  }

  lemma StepTakes(s: State, s': State, limit: nat)
    requires Inv(s) && LiveOk(s) && LimitedNext(s, s', limit)
    ensures if Takes(s, s') then |InUse(s')| == |InUse(s)| + 1 else |InUse(s')| <= |InUse(s)|
  {
    hide Inv, LiveOk, Do, Enabled, Takes, InUse;
    var t, a, unseen :| Enabled(s, t, a) && unseen !in s.sockets && s' == Do(s, t, a, unseen) && (a.Acquire? ==> a.limit == limit);
    DoTakes(s, t, a, unseen);
  }

  /** More sockets than the limit come into use in a run exactly if such a step is taken while as many as the limit are. */
  lemma OvertakenExactly(run: seq<State>, limit: nat)
    requires IsLimitedRun(run, limit)
    ensures (exists i | 0 <= i < |run| :: |InUse(run[i])| > limit)
      <==> exists i | 0 <= i < |run| - 1 :: |InUse(run[i])| == limit && Takes(run[i], run[i + 1])
  {
    hide Takes, InUse, Inv, LiveOk, LimitedNext;
    LimitedIsRun(run, limit);
    forall i | 0 <= i < |run| - 1
      ensures if Takes(run[i], run[i + 1]) then |InUse(run[i + 1])| == |InUse(run[i])| + 1 else |InUse(run[i + 1])| <= |InUse(run[i])|
    {
      RunInv(run, i);
      RunLive(run, i);
      StepTakes(run[i], run[i + 1], limit);
    }
    if i :| 0 <= i < |run| && |InUse(run[i])| > limit {
      NoneAtFirst();
      FirstOver(run, limit, i);
    }
  }

  lemma NoneAtFirst()
    ensures InUse(START) == {}
  {
  }

  lemma {:induction false} FirstOver(run: seq<State>, limit: nat, i: nat)
    requires i < |run| && |InUse(run[i])| > limit && |InUse(run[0])| <= limit
    requires forall j | 0 <= j < |run| - 1 ::
      if Takes(run[j], run[j + 1]) then |InUse(run[j + 1])| == |InUse(run[j])| + 1 else |InUse(run[j + 1])| <= |InUse(run[j])|
    ensures exists j | 0 <= j < |run| - 1 :: |InUse(run[j])| == limit && Takes(run[j], run[j + 1])
  {
    hide Takes, InUse;
    var b := run[i - 1];
    assert run[i - 1 + 1] == run[i];
    if |InUse(b)| > limit {
      FirstOver(run, limit, i - 1);
    } else {
      assert |InUse(run[i - 1])| == limit && Takes(run[i - 1], run[i - 1 + 1]);
    }
  }

  // ---- runs that pass the limit

  lemma Longer(run: seq<State>, limit: nat, t: Tid, a: Action, unseen: Sid) returns (longer: seq<State>)
    requires IsLimitedRun(run, limit) && (a.Acquire? ==> a.limit == limit)
    requires Enabled(run[|run| - 1], t, a) && unseen !in run[|run| - 1].sockets
    ensures IsLimitedRun(longer, limit) && longer == run + [Do(run[|run| - 1], t, a, unseen)]
  {
    hide Do, Enabled;
    longer := run + [Do(run[|run| - 1], t, a, unseen)];
    forall i | 0 <= i < |longer| - 1 ensures LimitedNext(longer[i], longer[i + 1], limit) {
      if i < |run| - 1 {
        assert LimitedNext(run[i], run[i + 1], limit);
      }
    }
  }

  lemma Shortest(limit: nat)
    ensures IsLimitedRun([START], limit)
  {
  }

  /** A goroutine with a connection to come gets it and registers the socket. */
  lemma Registers(run: seq<State>, limit: nat, t: Tid, k: Sid, other: Sid) returns (longer: seq<State>)
    requires IsLimitedRun(run, limit) && run != []
    requires var s := run[|run| - 1]; !s.closed && PcOf(s, t).Dialing? && k !in s.sockets && other !in s.sockets && other != k && HeldOf(s, k) == 0
    ensures IsLimitedRun(longer, limit) && |longer| == |run| + 2 && longer[..|run|] == run
    ensures var s := run[|run| - 1];
      longer[|longer| - 1] == s.(live := s.live + [k], sockets := s.sockets[k := Socket(1, false, true)], pcs := s.pcs[t := Idle], held := s.held[k := 1])
  {
    hide IsLimitedRun;
    var s := run[|run| - 1];
    var a := Longer(run, limit, t, Connect(false), k);
    longer := Longer(a, limit, t, Register, other);
    assert s.pcs[t := Connected(k)][t := Idle] == s.pcs[t := Idle];
  }

  /** And releases it, so that it goes to the pool. */
  lemma GoesAround(run: seq<State>, limit: nat, t: Tid, k: Sid, other: Sid) returns (longer: seq<State>)
    requires IsLimitedRun(run, limit) && run != []
    requires var s := run[|run| - 1]; !s.closed && PcOf(s, t).Dialing? && k !in s.sockets && other !in s.sockets && other != k && HeldOf(s, k) == 0
    ensures IsLimitedRun(longer, limit) && |longer| == |run| + 4 && longer[..|run|] == run
    ensures var s := run[|run| - 1];
      longer[|longer| - 1] == s.(unused := s.unused + [k], live := s.live + [k], sockets := s.sockets[k := Socket(0, false, true)],
         pcs := s.pcs[t := Idle], held := s.held[k := 0])
  {
    hide IsLimitedRun;
    var s := run[|run| - 1];
    var a := Registers(run, limit, t, k, other);
    var b := Longer(a, limit, t, Release(k), other);
    longer := Longer(b, limit, t, Recycle, other);
    assert s.pcs[t := Idle][t := Recycling(k)][t := Idle] == s.pcs[t := Idle];
    assert s.sockets[k := Socket(1, false, true)][k := Socket(0, false, true)] == s.sockets[k := Socket(0, false, true)];
    assert s.held[k := 1][k := 0] == s.held[k := 0];
  }

  /** The same, but that the socket is killed, and taken off the live ones, before it is in the pool. */
  lemma GoesAstray(run: seq<State>, limit: nat, t: Tid, u: Tid, k: Sid, other: Sid) returns (longer: seq<State>)
    requires IsLimitedRun(run, limit) && run != [] && t != u
    requires var s := run[|run| - 1];
      && !s.closed && PcOf(s, t).Dialing? && PcOf(s, u).Idle? && s.live == [] && s.unused == []
      && k !in s.sockets && other !in s.sockets && other != k && HeldOf(s, k) == 0
    ensures IsLimitedRun(longer, limit) && |longer| == |run| + 6 && longer[..|run|] == run
    ensures var s := run[|run| - 1];
      longer[|longer| - 1] == s.(unused := [k], abended := true, sockets := s.sockets[k := Socket(0, true, false)],
         pcs := s.pcs[t := Idle][u := Idle], held := s.held[k := 0])
  {
    hide IsLimitedRun;
    var s := run[|run| - 1];
    var a := KilledUnderway(run, limit, t, u, k, other);
    var b := Longer(a, limit, u, Abend, other);
    longer := Longer(b, limit, t, Recycle, other);
    assert s.pcs[t := Recycling(k)][u := Abending(k)][u := Idle][t := Idle] == s.pcs[t := Idle][u := Idle];
  }

  lemma KilledUnderway(run: seq<State>, limit: nat, t: Tid, u: Tid, k: Sid, other: Sid) returns (longer: seq<State>)
    requires IsLimitedRun(run, limit) && run != [] && t != u
    requires var s := run[|run| - 1];
      && !s.closed && PcOf(s, t).Dialing? && PcOf(s, u).Idle? && s.live == [] && s.unused == []
      && k !in s.sockets && other !in s.sockets && other != k && HeldOf(s, k) == 0
    ensures IsLimitedRun(longer, limit) && |longer| == |run| + 4 && longer[..|run|] == run
    ensures var s := run[|run| - 1];
      longer[|longer| - 1] == s.(live := [k], sockets := s.sockets[k := Socket(0, true, false)],
         pcs := s.pcs[t := Recycling(k)][u := Abending(k)], held := s.held[k := 0])
  {
    hide IsLimitedRun;
    var s := run[|run| - 1];
    var a := Registers(run, limit, t, k, other);
    var b := Longer(a, limit, t, Release(k), other);
    longer := Longer(b, limit, u, Kill(k), other);
    assert s.pcs[t := Idle][t := Recycling(k)][u := Abending(k)] == s.pcs[t := Recycling(k)][u := Abending(k)];
    assert s.sockets[k := Socket(1, false, true)][k := Socket(0, false, true)][k := Socket(0, true, false)] == s.sockets[k := Socket(0, true, false)];
    assert s.held[k := 1][k := 0] == s.held[k := 0];
  }

  /** A goroutine takes the last socket of the pool. */
  lemma TakesLast(run: seq<State>, limit: nat, t: Tid, other: Sid) returns (longer: seq<State>)
    requires IsLimitedRun(run, limit) && run != []
    requires var s := run[|run| - 1]; !s.closed && PcOf(s, t).Idle? && s.unused != [] && Passes(s, limit) && other !in s.sockets
    requires var s := run[|run| - 1]; var k := s.unused[|s.unused| - 1]; k in s.sockets && s.sockets[k] == Socket(0, false, true) && HeldOf(s, k) == 0
    ensures IsLimitedRun(longer, limit) && |longer| == |run| + 2 && longer[..|run|] == run
    ensures longer[|run|].pcs == run[|run| - 1].pcs[t := Popped(run[|run| - 1].unused[|run[|run| - 1].unused| - 1])]
    ensures var s := run[|run| - 1];
      var k := s.unused[|s.unused| - 1];
      longer[|longer| - 1] == s.(unused := s.unused[..|s.unused| - 1], sockets := s.sockets[k := Socket(1, false, true)], pcs := s.pcs[t := Idle], held := s.held[k := 1])
  {
    hide IsLimitedRun;
    var s := run[|run| - 1];
    var k := s.unused[|s.unused| - 1];
    var a := Longer(run, limit, t, Acquire(limit), other);
    longer := Longer(a, limit, t, InitialAcquire, other);
    assert s.pcs[t := Popped(k)][t := Idle] == s.pcs[t := Idle];
  }

  /** Three goroutines find neither a socket in use nor one in the pool. */
  lemma AllDial() returns (run: seq<State>)
    ensures run != [] && IsLimitedRun(run, 1) && run[|run| - 1] == START.(pcs := map[0 := Dialing, 1 := Dialing, 2 := Dialing])
  {
    hide IsLimitedRun;
    Shortest(1);
    var a := Longer([START], 1, 0, Acquire(1), 0);
    var b := Longer(a, 1, 1, Acquire(1), 0);
    run := Longer(b, 1, 2, Acquire(1), 0);
  }

  /** With limit 1: two goroutines pass the check before either of them has registered its socket, and two are in use. */
  lemma DialedTogether() returns (run: seq<State>)
    ensures IsLimitedRun(run, 1) && |InUse(run[|run| - 1])| == 2
  {
    hide IsLimitedRun, InUse;
    var a := AllDial();
    var b := Registers(a, 1, 0, 0, 5);
    run := Registers(b, 1, 1, 1, 5);
    var s := run[|run| - 1];
    assert InUse(s) == {0, 1} by { TwoInUse(s); }
  }

  lemma TwoInUse(s: State)
    requires s.live == [0, 1] && s.held == map[0 := 1, 1 := 1]
    ensures InUse(s) == {0, 1}
  {
    assert 0 in s.live && 1 in s.live by { assert s.live[0] == 0 && s.live[1] == 1; }
  }

  lemma PoolWithStray() returns (run: seq<State>)
    ensures run != [] && IsLimitedRun(run, 1)
    ensures var s := run[|run| - 1];
      && s.unused == [0, 1, 2] && s.live == [1, 2] && !s.closed && 5 !in s.sockets
      && 1 in s.sockets && 2 in s.sockets && s.sockets[1] == s.sockets[2] == Socket(0, false, true)
      && s.pcs == map[0 := Idle, 1 := Idle, 2 := Idle, 3 := Idle] && s.held == map[0 := 0, 1 := 0, 2 := 0]
  {
    hide IsLimitedRun;
    var a := AllDial();
    var b := GoesAstray(a, 1, 0, 3, 0, 5);
    var c := GoesAround(b, 1, 1, 1, 5);
    run := GoesAround(c, 1, 2, 2, 5);
  }

  /** With limit 1: a stray makes the check count one too few, and two sockets come into use one after the other while no
      goroutine dials. */
  lemma StrayMiscounts() returns (run: seq<State>, i: nat)
    ensures IsLimitedRun(run, 1) && i < |run| && InUse(run[i]) == {} && Strays(run[i]) == {0}
    ensures forall j | i <= j < |run| :: Dialers(run[j]) == {}
    ensures |InUse(run[|run| - 1])| == 2
  {
    hide IsLimitedRun, InUse, Strays, Dialers;
    var d := PoolWithStray();
    i := |d| - 1;
    var s := d[i];
    var e := TakesLast(d, 1, 0, 5);
    run := TakesLast(e, 1, 0, 5);
    MiscountedIs(s, run[|run| - 1]);
    assert run[..|e|] == e && e[..|d|] == d;
    assert run[i] == e[i] == s && run[i + 1] == e[i + 1] && run[i + 2] == e[i + 2];
    forall j | i <= j < |run| ensures Dialers(run[j]) == {} {
      IdleDialers(run[j]);
    }
  }

  lemma MiscountedIs(s: State, last: State)
    requires s.live == last.live == [1, 2] && s.unused == [0, 1, 2]
    requires s.held == map[0 := 0, 1 := 0, 2 := 0] && last.held == map[0 := 0, 1 := 1, 2 := 1]
    ensures InUse(s) == {} && Strays(s) == {0} && |InUse(last)| == 2
  {
    assert s.live[0] == 1 && s.live[1] == 2 && s.unused[0] == 0;
    assert InUse(last) == {1, 2};
  }

  lemma IdleDialers(s: State)
    requires forall t | t in s.pcs :: s.pcs[t].Idle? || s.pcs[t].Popped?
    ensures Dialers(s) == {}
  {
  }

  // ---- the limit reached with no socket in use

  /** The live sockets are dead ones, and no goroutine will take them away. */
  ghost predicate Stuck(s: State) {
    && !s.closed && s.unused == [] && s.live != []
    && (forall t :: PcOf(s, t).Idle?) && (forall k :: HeldOf(s, k) == 0)
    && (forall k | k in s.sockets :: s.sockets[k].dead)
  }

  /** Until the server is closed it stays so: with limit 1 every call of AcquireSocket is refused, and none is in use. */
  lemma {:induction false} StuckStays(run: seq<State>, i: nat, j: nat)
    requires IsLimitedRun(run, 1) && i <= j < |run| && Stuck(run[i])
    ensures Stuck(run[j]) || run[j].closed
    ensures Stuck(run[j]) ==> InUse(run[j]) == {} && !Passes(run[j], 1)
    decreases j - i
  {
    hide Stuck, InUse, Do, Enabled;
    if i < j {
      StuckStays(run, i, j - 1);
      assert LimitedNext(run[j - 1], run[j - 1 + 1], 1);
      var t, a, unseen :| Enabled(run[j - 1], t, a) && unseen !in run[j - 1].sockets && run[j] == Do(run[j - 1], t, a, unseen)
        && (a.Acquire? ==> a.limit == 1);
      if run[j - 1].closed {
        ClosedStays(run[j - 1], t, a, unseen);
      } else {
        StuckStep(run[j - 1], t, a, unseen);
      }
    }
    NothingInUse(run[j]);
  }

  lemma ClosedStays(s: State, t: Tid, a: Action, unseen: Sid)
    requires s.closed && Enabled(s, t, a)
    ensures Do(s, t, a, unseen).closed
  {
  }

  lemma StuckStep(s: State, t: Tid, a: Action, unseen: Sid)
    requires Stuck(s) && Enabled(s, t, a) && (a.Acquire? ==> a.limit == 1)
    ensures var s' := Do(s, t, a, unseen); Stuck(s') || s'.closed
  {
    assert PcOf(s, t).Idle? && forall k :: HeldOf(s, k) == 0;
    var s' := Do(s, t, a, unseen);
    match a {
      case Acquire(_) => assert s' == s;
      case Kill(k) => 
        assert s' == At(s, t, Idle) && (forall u :: PcOf(s', u) == PcOf(s, u)) && forall j :: HeldOf(s', j) == HeldOf(s, j);
      case CloseServer =>
      case _ =>
    }
  }

  lemma NothingInUse(s: State)
    ensures Stuck(s) ==> InUse(s) == {} && !Passes(s, 1)
  {
  }

  /** A new socket is killed and reported before it is registered. */
  lemma KilledConnected() returns (run: seq<State>)
    ensures run != [] && IsLimitedRun(run, 1)
    ensures run[|run| - 1] ==
      State([], [], false, true, map[0 := Socket(1, true, false)], map[0 := Connected(0), 1 := Idle], map[])
  {
    hide IsLimitedRun;
    Shortest(1);
    var a := Longer([START], 1, 0, Acquire(1), 0);
    var b := Longer(a, 1, 0, Connect(false), 0);
    var c := Longer(b, 1, 1, Kill(0), 1);
    run := Longer(c, 1, 1, Abend, 1);
  }

  /** A socket that is killed before it is registered gets there: nothing takes it off the live sockets again. */
  lemma KilledTooEarly() returns (run: seq<State>)
    ensures run != [] && IsLimitedRun(run, 1) && Stuck(run[|run| - 1])
  {
    hide IsLimitedRun;
    var d := KilledConnected();
    var e := Longer(d, 1, 0, Register, 1);
    run := Longer(e, 1, 0, Release(0), 1);
    var s := run[|run| - 1];
    assert s.live == [0] && s.sockets == map[0 := Socket(0, true, false)] && s.held == map[0 := 0];
  }
}
