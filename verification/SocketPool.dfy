/** The socket pool of one server: goroutines that acquire, share, release and kill sockets while
    the server may be closed. Each step is one critical section, under the lock of the server or
    of a socket; between its sections a goroutine is at a place in the code. */
module SocketPool {
  import opened Basics

  type Sid = nat

  type Tid = nat

  // `attached`: the socket's server field is set.
  datatype Socket = Socket(references: nat, dead: bool, attached: bool)

  datatype Pc =
    | Idle
    | Popped(sid: Sid)                       // taken from the unused sockets, not yet acquired
    | Dialing
    | Connected(sid: Sid)                    // new, not yet among the live sockets
    | Turned(sid: Sid)                       // new, but the server is closed: to be released
    | TurnedRecycling(sid: Sid)              // and recycled
    | TurnedClosing(sid: Sid)                // and closed
    | Recycling(sid: Sid)                    // released for the last time, to be recycled
    | Abending(sid: Sid)                     // killed, to be reported to the server
    | Closing(todo: seq<Sid>)                // the server is closed, sockets to be killed
    | Panicked

  datatype State = State(
    unused: seq<Sid>, live: seq<Sid>, closed: bool, abended: bool,
    sockets: map<Sid, Socket>,
    pcs: map<Tid, Pc>,
    // the references handed out to call sites and not yet released
    held: map<Sid, nat>)

  datatype Action =
    | Acquire(limit: nat)          // AcquireSocket, its first section
    | InitialAcquire               // of the socket popped
    | Connect(fails: bool)         // Connect and newSocket, for a socket of a number not yet used
    | Register                     // the last section of AcquireSocket
    | ExtraAcquire(sid: Sid)       // by a call site that holds a reference
    | Release(sid: Sid)            // by a call site that holds a reference
    | TurnedRelease
    | Recycle
    | Kill(sid: Sid)               // with abend, by the read loop or a failing write
    | Abend
    | CloseServer
    | CloseNext

  function PcOf(s: State, t: Tid): (r: Pc) {
    if t in s.pcs then s.pcs[t] else Idle
  }

  function HeldOf(s: State, k: Sid): (r: nat) {
    if k in s.held then s.held[k] else 0
  }

  function At(s: State, t: Tid, pc: Pc): (r: State) {
    s.(pcs := s.pcs[t := pc])
  }

  function WithSocket(s: State, k: Sid, x: Socket): (r: State) {
    s.(sockets := s.sockets[k := x])
  }

  /** The first occurrence is removed. */
  function Without(ks: seq<Sid>, k: Sid): (r: seq<Sid>) {
    if ks == [] then [] else if ks[0] == k then ks[1..] else [ks[0]] + Without(ks[1..], k)
  }

  // ---- the steps

  predicate Enabled(s: State, t: Tid, a: Action) {
    match a
    case Acquire(_) => PcOf(s, t).Idle?
    case InitialAcquire => PcOf(s, t).Popped? && PcOf(s, t).sid in s.sockets
    case Connect(_) => PcOf(s, t).Dialing?
    case Register => PcOf(s, t).Connected?
    case ExtraAcquire(k) => PcOf(s, t).Idle? && k in s.sockets && HeldOf(s, k) > 0
    case Release(k) => PcOf(s, t).Idle? && k in s.sockets && HeldOf(s, k) > 0
    case TurnedRelease => PcOf(s, t).Turned? && PcOf(s, t).sid in s.sockets
    case Recycle => PcOf(s, t).Recycling? || PcOf(s, t).TurnedRecycling?
    case Kill(k) => PcOf(s, t).Idle? && k in s.sockets
    case Abend => PcOf(s, t).Abending?
    case CloseServer => PcOf(s, t).Idle?
    case CloseNext =>
      || (PcOf(s, t).Closing? && (PcOf(s, t).todo != [] ==> PcOf(s, t).todo[0] in s.sockets))
      || (PcOf(s, t).TurnedClosing? && PcOf(s, t).sid in s.sockets)
  }

  /** One less reference; the last one leads to `last`, or to `gone` if the server field is nil. */
  function Released(s: State, t: Tid, k: Sid, last: Pc, gone: Pc, more: Pc): (r: State)
    requires k in s.sockets
  {
    var x := s.sockets[k];
    if x.references == 0 then At(s, t, Panicked)
    else
      var s' := WithSocket(s, k, x.(references := x.references - 1));
      At(s', t, if x.references > 1 then more else if x.attached then last else gone)
  }

  /** Killed, if it is not dead already; with abend, the goroutine goes on to `abend`. */
  function Killed(s: State, t: Tid, k: Sid, abend: bool, next: Pc): (r: State)
    requires k in s.sockets
  {
    var x := s.sockets[k];
    if x.dead then At(s, t, next)
    else
      var s' := WithSocket(s, k, x.(dead := true, attached := false));
      if !abend then At(s', t, next) else if x.attached then At(s', t, Abending(k)) else At(s', t, Panicked)
  }

  function Do(s: State, t: Tid, a: Action, unseen: Sid): (r: State)
    requires Enabled(s, t, a)
  {
    var pc := PcOf(s, t);
    match a
    case Acquire(limit) =>
      if s.closed then s
      else if limit > 0 && |s.live| - |s.unused| >= limit then s
      else if s.unused != [] then
        At(s.(unused := s.unused[..|s.unused| - 1]), t, Popped(s.unused[|s.unused| - 1]))
      else At(s, t, Dialing)
    case InitialAcquire =>
      var k := pc.sid;
      var x := s.sockets[k];
      if x.references > 0 then At(s, t, Panicked)
      else if x.dead then At(s, t, Idle)   // and AcquireSocket again
      else At(WithSocket(s, k, x.(references := 1)).(held := s.held[k := HeldOf(s, k) + 1]), t, Idle)
    case Connect(fails) =>
      if fails then At(s, t, Idle)
      else At(WithSocket(s, unseen, Socket(1, false, true)), t, Connected(unseen))
    case Register =>
      if s.closed then At(s, t, Turned(pc.sid))
      else At(s.(live := s.live + [pc.sid], held := s.held[pc.sid := HeldOf(s, pc.sid) + 1]), t, Idle)
    case ExtraAcquire(k) =>
      var x := s.sockets[k];
      if x.references == 0 then At(s, t, Panicked)
      else WithSocket(s, k, x.(references := x.references + 1)).(held := s.held[k := HeldOf(s, k) + 1])
    case Release(k) => Released(s, t, k, Recycling(k), Idle, Idle).(held := s.held[k := HeldOf(s, k) - 1])
    case TurnedRelease => Released(s, t, pc.sid, TurnedRecycling(pc.sid), TurnedClosing(pc.sid), TurnedClosing(pc.sid))
    case Recycle =>
      var s' := if s.closed then s else s.(unused := s.unused + [pc.sid]);
      At(s', t, if pc.Recycling? then Idle else TurnedClosing(pc.sid))
    case Kill(k) => Killed(s, t, k, true, Idle)
    case Abend =>
      var s' := if s.closed then s else s.(live := Without(s.live, pc.sid), unused := Without(s.unused, pc.sid));
      At(s'.(abended := true), t, Idle)
    case CloseServer => At(s.(closed := true, live := [], unused := []), t, Closing(s.live))
    case CloseNext =>
      if pc.TurnedClosing? then Killed(s, t, pc.sid, false, Idle)
      else if pc.todo == [] then At(s, t, Idle)
      else Killed(s, t, pc.todo[0], false, Closing(pc.todo[1..]))
  }

  ghost predicate Next(s: State, s': State) {
    exists t, a, unseen :: Enabled(s, t, a) && unseen !in s.sockets && s' == Do(s, t, a, unseen)
  }

  const START := State([], [], false, false, map[], map[], map[])

  ghost predicate IsRun(run: seq<State>) {
    run != [] && run[0] == START && forall i | 0 <= i < |run| - 1 :: Next(run[i], run[i + 1])
  }

  // ---- what every step keeps

  /** The socket that a goroutine is between two sections with, on its way into or out of the pool. */
  function Carried(pc: Pc): (r: set<Sid>) {
    match pc
    case Popped(k) => {k}
    case Connected(k) => {k}
    case Turned(k) => {k}
    case TurnedRecycling(k) => {k}
    case Recycling(k) => {k}
    case _ => {}
  }

  /** The reference that a new socket has before it is handed out. */
  function Reserved(pc: Pc): (r: nat) {
    if pc.Connected? || pc.Turned? then 1 else 0
  }

  function Mentioned(pc: Pc): (r: set<Sid>) {
    match pc
    case TurnedClosing(k) => {k}
    case Abending(k) => {k}
    case Closing(todo) => set k | k in todo
    case _ => Carried(pc)
  }

  ghost predicate UnusedOk(s: State) {
    && Distinct(s.unused)
    && (forall k | k in s.unused :: k in s.sockets && s.sockets[k].references == 0 && HeldOf(s, k) == 0)
    && (forall k | k in s.live :: k in s.sockets)
  }

  ghost predicate CarriedOk(s: State) {
    && (forall t, k | k in Carried(PcOf(s, t)) ::
          k in s.sockets && k !in s.unused && HeldOf(s, k) == 0 && s.sockets[k].references == Reserved(PcOf(s, t)))
    && (forall t, u, k | k in Carried(PcOf(s, t)) && k in Carried(PcOf(s, u)) :: t == u)
  }

  ghost predicate CountsOk(s: State) {
    && (forall k | k in s.sockets :: s.sockets[k].references == HeldOf(s, k) || exists t :: k in Carried(PcOf(s, t)))
    && (forall k | k in s.sockets :: s.sockets[k].attached <==> !s.sockets[k].dead)
    && (forall k | k in s.held :: k in s.sockets)
  }

  ghost predicate ThreadsOk(s: State) {
    && (forall t :: !PcOf(s, t).Panicked?)
    && (forall t, k | k in Mentioned(PcOf(s, t)) :: k in s.sockets)
  }

  ghost predicate Inv(s: State) {
    UnusedOk(s) && CarriedOk(s) && CountsOk(s) && ThreadsOk(s)
  }

  /** A goroutine moves on without carrying anything new. */
  lemma MoveKeeps(s: State, t: Tid, pc: Pc)
    requires Inv(s) && Carried(PcOf(s, t)) == {} && Carried(pc) == {} && !pc.Panicked?
    requires forall k | k in Mentioned(pc) :: k in s.sockets
    ensures Inv(At(s, t, pc))
  {
    var s' := At(s, t, pc);
    assert forall u :: PcOf(s', u) == if u == t then pc else PcOf(s, u);
    forall k | k in s'.sockets ensures s'.sockets[k].references == HeldOf(s', k) || exists u :: k in Carried(PcOf(s', u)) {
      if u :| k in Carried(PcOf(s, u)) {
        assert k in Carried(PcOf(s', u));
      }
    }
  }

  /** A goroutine moves on, and one socket changes that no other goroutine carries: what is to be shown. */
  lemma ChangeKeeps(s: State, s': State, t: Tid, pc: Pc, k: Sid)
    requires Inv(s) && s'.pcs == s.pcs[t := pc] && !pc.Panicked?
    requires Carried(PcOf(s, t)) <= {k} && Carried(pc) <= {k} && forall u | u != t :: k !in Carried(PcOf(s, u))
    requires k in s'.sockets && forall j | j != k :: (j in s'.sockets <==> j in s.sockets) && HeldOf(s', j) == HeldOf(s, j)
    requires forall j | j != k && j in s.sockets :: s'.sockets[j] == s.sockets[j]
    requires (forall j | j in s'.held :: j in s'.sockets) && (forall j | j in s'.live :: j in s'.sockets)
    requires s'.sockets[k].attached <==> !s'.sockets[k].dead
    requires s'.sockets[k].references == HeldOf(s', k) + (if k in Carried(pc) then Reserved(pc) else 0)
    requires k in Carried(pc) ==> HeldOf(s', k) == 0 && k !in s'.unused
    requires k in s'.unused ==> s'.sockets[k].references == 0
    requires Distinct(s'.unused)
    requires forall j | j in s'.unused && j != k :: j in s.unused
    requires forall j | j in Mentioned(pc) :: j in s'.sockets
    ensures Inv(s')
  {
    assert forall u :: PcOf(s', u) == if u == t then pc else PcOf(s, u);
    forall j | j in s'.sockets ensures s'.sockets[j].references == HeldOf(s', j) || exists u :: j in Carried(PcOf(s', u)) {
      if j == k {
        assert k in Carried(pc) ==> k in Carried(PcOf(s', t));
      } else if u :| j in Carried(PcOf(s, u)) {
        assert j in Carried(PcOf(s', u));
      }
    }
  }

  lemma InvIs(s: State, k: Sid)
    requires Inv(s) && k in s.sockets
    ensures s.sockets[k].attached <==> !s.sockets[k].dead
    ensures (forall j | j in s.held :: j in s.sockets) && (forall j | j in s.live :: j in s.sockets)
    ensures Distinct(s.unused)
  {
  }

  /** The socket that a goroutine carries is nowhere else. */
  lemma CarriedIs(s: State, t: Tid, k: Sid)
    requires Inv(s) && Carried(PcOf(s, t)) == {k}
    ensures k in s.sockets && k !in s.unused && HeldOf(s, k) == 0 && s.sockets[k].references == Reserved(PcOf(s, t))
    ensures forall u | u != t :: k !in Carried(PcOf(s, u))
  {
    assert k in Carried(PcOf(s, t));
  }

  lemma PopKeeps(s: State, t: Tid)
    requires Inv(s) && PcOf(s, t).Idle? && s.unused != []
    ensures Inv(At(s.(unused := s.unused[..|s.unused| - 1]), t, Popped(s.unused[|s.unused| - 1])))
  {
    var k := s.unused[|s.unused| - 1];
    UnusedIs(s, k);
    InvIs(s, k);
    hide Inv;
    var s' := At(s.(unused := s.unused[..|s.unused| - 1]), t, Popped(k));
    ChangeKeeps(s, s', t, Popped(k), k);
  }

  lemma UnusedIs(s: State, k: Sid)
    requires Inv(s) && k in s.unused
    ensures k in s.sockets && s.sockets[k].references == 0 && HeldOf(s, k) == 0 && forall u :: k !in Carried(PcOf(s, u))
  {
  }

  lemma InitialAcquireKeeps(s: State, t: Tid)
    requires Inv(s) && Enabled(s, t, InitialAcquire)
    ensures Inv(Do(s, t, InitialAcquire, 0))
  {
    hide Inv;
    var k := PcOf(s, t).sid;
    CarriedIs(s, t, k);
    InvIs(s, k);
    ChangeKeeps(s, Do(s, t, InitialAcquire, 0), t, Idle, k);
  }

  lemma ConnectKeeps(s: State, t: Tid, unseen: Sid)
    requires Inv(s) && PcOf(s, t).Dialing? && unseen !in s.sockets
    ensures Inv(Do(s, t, Connect(false), unseen))
  {
    UnseenIs(s, unseen);
    hide Inv;
    ChangeKeeps(s, Do(s, t, Connect(false), unseen), t, Connected(unseen), unseen);
  }

  lemma UnseenIs(s: State, k: Sid)
    requires Inv(s) && k !in s.sockets
    ensures HeldOf(s, k) == 0 && k !in s.unused && forall u :: k !in Carried(PcOf(s, u))
    ensures (forall j | j in s.held :: j in s.sockets) && (forall j | j in s.live :: j in s.sockets)
    ensures Distinct(s.unused)
  {
  }

  lemma RegisterKeeps(s: State, t: Tid)
    requires Inv(s) && PcOf(s, t).Connected?
    ensures Inv(Do(s, t, Register, 0))
  {
    hide Inv;
    var k := PcOf(s, t).sid;
    CarriedIs(s, t, k);
    InvIs(s, k);
    ChangeKeeps(s, Do(s, t, Register, 0), t, if s.closed then Turned(k) else Idle, k);
  }

  /** A socket whose references are held is nowhere between two sections, and its count is right. */
  lemma HeldIs(s: State, k: Sid)
    requires Inv(s) && k in s.sockets && HeldOf(s, k) > 0
    ensures s.sockets[k].references == HeldOf(s, k) && k !in s.unused
    ensures forall t :: k !in Carried(PcOf(s, t))
  {
  }

  lemma ExtraAcquireKeeps(s: State, t: Tid, k: Sid)
    requires Inv(s) && Enabled(s, t, ExtraAcquire(k))
    ensures Inv(Do(s, t, ExtraAcquire(k), 0))
  {
    hide Inv;
    HeldIs(s, k);
    InvIs(s, k);
    var s' := Do(s, t, ExtraAcquire(k), 0);
    ChangeKeeps(s, At(s', t, Idle), t, Idle, k);
    SamePcs(At(s', t, Idle), s');
  }

  /** An idle goroutine that is not in the map is one that is. */
  lemma SamePcs(s: State, s': State)
    requires Inv(s) && s == s'.(pcs := s.pcs) && forall u :: PcOf(s', u) == PcOf(s, u)
    ensures Inv(s')
  {
    forall j | j in s'.sockets ensures s'.sockets[j].references == HeldOf(s', j) || exists u :: j in Carried(PcOf(s', u)) {
      if u :| j in Carried(PcOf(s, u)) {
        assert j in Carried(PcOf(s', u));
      }
    }
  }

  lemma ReleaseKeeps(s: State, t: Tid, k: Sid)
    requires Inv(s) && Enabled(s, t, Release(k))
    ensures Inv(Do(s, t, Release(k), 0))
  {
    hide Inv;
    HeldIs(s, k);
    InvIs(s, k);
    var pc := if s.sockets[k].references == 1 && s.sockets[k].attached then Recycling(k) else Idle;
    ChangeKeeps(s, Do(s, t, Release(k), 0), t, pc, k);
  }

  lemma TurnedReleaseKeeps(s: State, t: Tid)
    requires Inv(s) && Enabled(s, t, TurnedRelease)
    ensures Inv(Do(s, t, TurnedRelease, 0))
  {
    hide Inv;
    var k := PcOf(s, t).sid;
    CarriedIs(s, t, k);
    InvIs(s, k);
    var pc := if s.sockets[k].attached then TurnedRecycling(k) else TurnedClosing(k);
    ChangeKeeps(s, Do(s, t, TurnedRelease, 0), t, pc, k);
  }

  lemma RecycleKeeps(s: State, t: Tid)
    requires Inv(s) && Enabled(s, t, Recycle)
    ensures Inv(Do(s, t, Recycle, 0))
  {
    hide Inv;
    var k := PcOf(s, t).sid;
    CarriedIs(s, t, k);
    InvIs(s, k);
    Appended(s.unused, k);
    ChangeKeeps(s, Do(s, t, Recycle, 0), t, if PcOf(s, t).Recycling? then Idle else TurnedClosing(k), k);
  }

  lemma Appended(ks: seq<Sid>, k: Sid)
    requires k !in ks && Distinct(ks)
    ensures Distinct(ks + [k])
    ensures forall j :: j in ks + [k] <==> j in ks || j == k
  {
  }

  /** Killing changes nothing about references. */
  lemma DeadKeeps(s: State, k: Sid)
    requires Inv(s) && k in s.sockets
    ensures Inv(WithSocket(s, k, s.sockets[k].(dead := true, attached := false)))
  {
    var s' := WithSocket(s, k, s.sockets[k].(dead := true, attached := false));
    assert forall u :: PcOf(s', u) == PcOf(s, u);
    forall j | j in s'.sockets ensures s'.sockets[j].references == HeldOf(s', j) || exists u :: j in Carried(PcOf(s', u)) {
      if u :| j in Carried(PcOf(s, u)) {
        assert j in Carried(PcOf(s', u));
      }
    }
  }

  lemma KilledKeeps(s: State, t: Tid, k: Sid, abend: bool, next: Pc)
    requires Inv(s) && k in s.sockets && Carried(PcOf(s, t)) == {} && Carried(next) == {} && !next.Panicked?
    requires forall j | j in Mentioned(next) :: j in s.sockets
    ensures Inv(Killed(s, t, k, abend, next))
  {
    var x := s.sockets[k];
    if x.dead {
      MoveKeeps(s, t, next);
    } else {
      DeadKeeps(s, k);
      assert x.attached;
      var s' := WithSocket(s, k, x.(dead := true, attached := false));
      hide Inv;
      MoveKeeps(s', t, if abend then Abending(k) else next);
    }
  }

  lemma {:induction false} WithoutIs(ks: seq<Sid>, k: Sid)
    requires Distinct(ks)
    ensures Distinct(Without(ks, k)) && forall j :: j in Without(ks, k) <==> j in ks && j != k
  {
    if ks != [] {
      hide Distinct;
      DistinctTail(ks);
      if ks[0] != k {
        WithoutIs(ks[1..], k);
        DistinctCons(ks[0], Without(ks[1..], k));
      }
    }
  }

  lemma DistinctTail(ks: seq<Sid>)
    requires Distinct(ks) && ks != []
    ensures Distinct(ks[1..]) && ks[0] !in ks[1..] && forall j :: j in ks <==> j == ks[0] || j in ks[1..]
  {
    assert ks == [ks[0]] + ks[1..];
  }

  lemma DistinctCons(k: Sid, ks: seq<Sid>)
    requires Distinct(ks) && k !in ks
    ensures Distinct([k] + ks) && forall j :: j in [k] + ks <==> j == k || j in ks
  {
  }

  lemma WithoutLess(ks: seq<Sid>, k: Sid)
    ensures forall j | j in Without(ks, k) :: j in ks
  {
  }

  lemma AbendKeeps(s: State, t: Tid)
    requires Inv(s) && Enabled(s, t, Abend)
    ensures Inv(Do(s, t, Abend, 0))
  {
    var k := PcOf(s, t).sid;
    WithoutIs(s.unused, k);
    WithoutLess(s.live, k);
    LessKeeps(s, Without(s.unused, k), Without(s.live, k), s.closed, true);
    LessKeeps(s, s.unused, s.live, s.closed, true);
    var s' := if s.closed then s else s.(live := Without(s.live, k), unused := Without(s.unused, k));
    hide Inv;
    MoveKeeps(s'.(abended := true), t, Idle);
  }

  /** Sockets may leave the lists. */
  lemma LessKeeps(s: State, unused: seq<Sid>, live: seq<Sid>, closed: bool, abended: bool)
    requires Inv(s)
    requires Distinct(unused)
    requires (forall k | k in unused :: k in s.unused) && (forall k | k in live :: k in s.live)
    ensures Inv(s.(unused := unused, live := live, closed := closed, abended := abended))
  {
    var s' := s.(unused := unused, live := live, closed := closed, abended := abended);
    assert forall u :: PcOf(s', u) == PcOf(s, u);
    forall j | j in s'.sockets ensures s'.sockets[j].references == HeldOf(s', j) || exists u :: j in Carried(PcOf(s', u)) {
      if u :| j in Carried(PcOf(s, u)) {
        assert j in Carried(PcOf(s', u));
      }
    }
  }

  lemma CloseKeeps(s: State, t: Tid)
    requires Inv(s) && PcOf(s, t).Idle?
    ensures Inv(Do(s, t, CloseServer, 0))
  {
    LessKeeps(s, [], [], true, s.abended);
    MoveKeeps(s.(unused := [], live := [], closed := true), t, Closing(s.live));
  }

  lemma CloseNextKeeps(s: State, t: Tid)
    requires Inv(s) && Enabled(s, t, CloseNext)
    ensures Inv(Do(s, t, CloseNext, 0))
  {
    var pc := PcOf(s, t);
    if pc.TurnedClosing? {
      KilledKeeps(s, t, pc.sid, false, Idle);
    } else if pc.todo == [] {
      MoveKeeps(s, t, Idle);
    } else {
      assert forall j | j in pc.todo[1..] :: j in Mentioned(pc);
      KilledKeeps(s, t, pc.todo[0], false, Closing(pc.todo[1..]));
    }
  }

  lemma DoKeeps(s: State, t: Tid, a: Action, unseen: Sid)
    requires Inv(s) && Enabled(s, t, a) && unseen !in s.sockets
    ensures Inv(Do(s, t, a, unseen))
  {
    hide Inv, Distinct;
    match a {
      case Acquire(limit) =>
        if s.unused != [] {
          PopKeeps(s, t);
        } else {
          MoveKeeps(s, t, Dialing);
        }
      case InitialAcquire => InitialAcquireKeeps(s, t);
      case Connect(fails) =>
        if fails {
          MoveKeeps(s, t, Idle);
        } else {
          ConnectKeeps(s, t, unseen);
        }
      case Register => RegisterKeeps(s, t);
      case ExtraAcquire(k) => ExtraAcquireKeeps(s, t, k);
      case Release(k) => ReleaseKeeps(s, t, k);
      case TurnedRelease => TurnedReleaseKeeps(s, t);
      case Recycle => RecycleKeeps(s, t);
      case Kill(k) => KilledKeeps(s, t, k, true, Idle);
      case Abend => AbendKeeps(s, t);
      case CloseServer => CloseKeeps(s, t);
      case CloseNext => CloseNextKeeps(s, t);
    }
  }

  // ---- over every run

  lemma {:induction false} RunInv(run: seq<State>, i: nat)
    requires IsRun(run) && i < |run|
    ensures Inv(run[i])
  {
    hide Inv;
    if i == 0 {
      StartInv();
    } else {
      RunInv(run, i - 1);
      assert Next(run[i - 1], run[i]);
      var t, a, unseen :| Enabled(run[i - 1], t, a) && unseen !in run[i - 1].sockets && run[i] == Do(run[i - 1], t, a, unseen);
      DoKeeps(run[i - 1], t, a, unseen);
    }
  }

  lemma StartInv()
    ensures Inv(START)
  {
  }

  /** A socket in the pool is there once, without references, held by nobody and on nobody's way. */
  lemma PooledOnce(run: seq<State>, i: nat, p: nat)
    requires IsRun(run) && i < |run| && p < |run[i].unused|
    ensures var s := run[i];
      var k := s.unused[p];
      && k in s.sockets && s.sockets[k].references == 0 && HeldOf(s, k) == 0
      && (forall q | 0 <= q < |s.unused| && s.unused[q] == k :: q == p)
      && (forall t :: k !in Carried(PcOf(s, t)))
  {
    RunInv(run, i);
  }

  /** No two goroutines take the same socket out of the pool, and nobody else holds it. */
  lemma OneInitialOwner(run: seq<State>, i: nat, t: Tid, u: Tid)
    requires IsRun(run) && i < |run| && PcOf(run[i], t).Popped?
    requires t != u
    ensures PcOf(run[i], u).Popped? ==> PcOf(run[i], u).sid != PcOf(run[i], t).sid
    ensures HeldOf(run[i], PcOf(run[i], t).sid) == 0
  {
    RunInv(run, i);
    var k := PcOf(run[i], t).sid;
    assert k in Carried(PcOf(run[i], t));
    assert PcOf(run[i], u).Popped? ==> PcOf(run[i], u).sid in Carried(PcOf(run[i], u));
  }

  /** None of the panics about references is reached, and no nil server is used. */
  lemma NoPanic(run: seq<State>, i: nat, t: Tid)
    requires IsRun(run) && i < |run|
    ensures !PcOf(run[i], t).Panicked?
  {
    RunInv(run, i);
  }

  /** A socket that call sites hold has exactly the references they hold. */
  lemma ReferencesAreHeld(run: seq<State>, i: nat, k: Sid)
    requires IsRun(run) && i < |run| && HeldOf(run[i], k) > 0
    ensures k in run[i].sockets && run[i].sockets[k].references == HeldOf(run[i], k)
  {
    RunInv(run, i);
    HeldIs(run[i], k);
  }

  // ---- closing the server

  /** The sockets that a goroutine is going to put among the live ones, or to close. */
  function Doomed(pc: Pc): (r: set<Sid>) {
    match pc
    case Connected(k) => {k}
    case Turned(k) => {k}
    case TurnedRecycling(k) => {k}
    case TurnedClosing(k) => {k}
    case Closing(todo) => set k | k in todo
    case _ => {}
  }

  predicate Alive(s: State, k: Sid) {
    k in s.sockets && !s.sockets[k].dead
  }

  /** Every socket that is not dead is live, or a goroutine will see to it; of a closed server none is live. */
  ghost predicate Watched(s: State) {
    && (forall k | Alive(s, k) :: k in s.live || exists t :: k in Doomed(PcOf(s, t)))
    && (forall t | PcOf(s, t).Abending? :: !Alive(s, PcOf(s, t).sid))
    && (s.closed ==> s.live == [])
  }

  /** What is to be shown of a step of goroutine `t`. */
  lemma WatchedOn(s: State, s': State, t: Tid, pc: Pc)
    requires Watched(s) && s'.pcs == s.pcs[t := pc]
    requires forall k | Alive(s', k) :: Alive(s, k) || k in Doomed(pc)
    requires forall k | Alive(s', k) && k in s.live :: k in s'.live || k in Doomed(pc)
    requires forall k | Alive(s', k) && k in Doomed(PcOf(s, t)) :: k in s'.live || k in Doomed(pc)
    requires forall u | u != t && PcOf(s, u).Abending? :: !Alive(s', PcOf(s, u).sid)
    requires (pc.Abending? ==> !Alive(s', pc.sid)) && (s'.closed ==> s'.live == [])
    ensures Watched(s')
  {
    hide Doomed, Alive;
    assert forall u :: PcOf(s', u) == if u == t then pc else PcOf(s, u);
    forall k | Alive(s', k) ensures k in s'.live || exists u :: k in Doomed(PcOf(s', u)) {
      if k in Doomed(pc) {
        assert k in Doomed(PcOf(s', t));
      } else if k !in s'.live {
        assert Alive(s, k) && k !in s.live;
        var u :| k in Doomed(PcOf(s, u));
        assert k in Doomed(PcOf(s', u));
      }
    }
  }

  lemma KilledWatched(s: State, t: Tid, k: Sid, abend: bool, next: Pc)
    requires Inv(s) && Watched(s) && k in s.sockets && !next.Abending?
    requires forall j | j in Doomed(PcOf(s, t)) :: (j in Doomed(next) && !abend) || j == k
    ensures Watched(Killed(s, t, k, abend, next))
  {
    hide Inv, Doomed, Watched;
    InvIs(s, k);
    var x := s.sockets[k];
    if x.dead {
      DeadWatched(s, At(s, t, next), t, k, next);
    } else {
      DeadWatched(s, Killed(s, t, k, abend, next), t, k, if abend then Abending(k) else next);
    }
  }

  /** One socket is dead, and nothing else changes. */
  lemma DeadWatched(s: State, s': State, t: Tid, k: Sid, pc: Pc)
    requires Watched(s) && k in s.sockets && s'.pcs == s.pcs[t := pc] && s'.live == s.live && s'.closed == s.closed
    requires k in s'.sockets && s'.sockets == s.sockets[k := s'.sockets[k]] && s'.sockets[k].dead
    requires pc.Abending? ==> pc.sid == k
    requires forall j | j in Doomed(PcOf(s, t)) :: j in Doomed(pc) || j == k
    ensures Watched(s')
  {
    hide Doomed;
    WatchedOn(s, s', t, pc);
  }

  lemma DoWatches(s: State, t: Tid, a: Action, unseen: Sid)
    requires Inv(s) && Watched(s) && Enabled(s, t, a) && unseen !in s.sockets
    ensures Watched(Do(s, t, a, unseen))
  {
    hide Inv, Watched, Do, Enabled;
    match a {
      case Acquire(limit) => AcquireWatched(s, t, limit, unseen);
      case InitialAcquire => InitialAcquireWatched(s, t, unseen);
      case Connect(fails) => ConnectWatched(s, t, fails, unseen);
      case Register => RegisterWatched(s, t, unseen);
      case ExtraAcquire(k) => ExtraAcquireWatched(s, t, k, unseen);
      case Release(k) => ReleaseWatched(s, t, k, unseen);
      case TurnedRelease => TurnedWatched(s, t, unseen);
      case Recycle => RecycleWatched(s, t, unseen);
      case Kill(k) => KillWatched(s, t, k, unseen);
      case Abend => AbendWatched(s, t, unseen);
      case CloseServer => CloseWatched(s, t, unseen);
      case CloseNext => CloseNextWatched(s, t, unseen);
    }
  }

  lemma KillWatched(s: State, t: Tid, k: Sid, unseen: Sid)
    requires Inv(s) && Watched(s) && Enabled(s, t, Kill(k)) && unseen !in s.sockets
    ensures Watched(Do(s, t, Kill(k), unseen))
  {
    KilledWatched(s, t, k, true, Idle);
  }

  lemma CloseNextWatched(s: State, t: Tid, unseen: Sid)
    requires Inv(s) && Watched(s) && Enabled(s, t, CloseNext) && unseen !in s.sockets
    ensures Watched(Do(s, t, CloseNext, unseen))
  {
    hide Inv, Watched;
    var pc := PcOf(s, t);
    if pc.TurnedClosing? {
      KilledWatched(s, t, pc.sid, false, Idle);
    } else if pc.todo != [] {
      KilledWatched(s, t, pc.todo[0], false, Closing(pc.todo[1..]));
    } else {
      SameAlive(s, At(s, t, Idle), t);
    }
  }

  lemma ExtraAcquireWatched(s: State, t: Tid, k: Sid, unseen: Sid)
    requires Watched(s) && Enabled(s, t, ExtraAcquire(k)) && unseen !in s.sockets
    ensures Watched(Do(s, t, ExtraAcquire(k), unseen))
  {
    var s' := Do(s, t, ExtraAcquire(k), unseen);
    IdleMoves(s, s', t, PcOf(s', t));
  }

  lemma AcquireWatched(s: State, t: Tid, limit: nat, unseen: Sid)
    requires Watched(s) && Enabled(s, t, Acquire(limit)) && unseen !in s.sockets
    ensures Watched(Do(s, t, Acquire(limit), unseen))
  {
    var s' := Do(s, t, Acquire(limit), unseen);
    IdleMoves(s, s', t, PcOf(s', t));
  }

  lemma InitialAcquireWatched(s: State, t: Tid, unseen: Sid)
    requires Watched(s) && Enabled(s, t, InitialAcquire) && unseen !in s.sockets
    ensures Watched(Do(s, t, InitialAcquire, unseen))
  {
    hide Watched;
    SameAlive(s, Do(s, t, InitialAcquire, unseen), t);
  }

  lemma ReleaseWatched(s: State, t: Tid, k: Sid, unseen: Sid)
    requires Watched(s) && Enabled(s, t, Release(k)) && unseen !in s.sockets
    ensures Watched(Do(s, t, Release(k), unseen))
  {
    hide Watched;
    SameAlive(s, Do(s, t, Release(k), unseen), t);
  }

  lemma RecycleWatched(s: State, t: Tid, unseen: Sid)
    requires Watched(s) && Enabled(s, t, Recycle) && unseen !in s.sockets
    ensures Watched(Do(s, t, Recycle, unseen))
  {
    hide Watched;
    SameAlive(s, Do(s, t, Recycle, unseen), t);
  }

  lemma CloseWatched(s: State, t: Tid, unseen: Sid)
    requires Watched(s) && Enabled(s, t, CloseServer) && unseen !in s.sockets
    ensures Watched(Do(s, t, CloseServer, unseen))
  {
    WatchedOn(s, Do(s, t, CloseServer, unseen), t, Closing(s.live));
  }

  /** The same sockets are alive and live, and the goroutine lets none of its own go. */
  lemma SameAlive(s: State, s': State, t: Tid)
    requires Watched(s) && s'.live == s.live && s'.closed == s.closed && t in s'.pcs && s'.pcs == s.pcs[t := s'.pcs[t]]
    requires forall k :: Alive(s', k) <==> Alive(s, k)
    requires Doomed(PcOf(s, t)) <= Doomed(s'.pcs[t]) && !s'.pcs[t].Abending?
    ensures Watched(s')
  {
    hide Doomed, Alive;
    WatchedOn(s, s', t, s'.pcs[t]);
  }

  lemma RegisterWatched(s: State, t: Tid, unseen: Sid)
    requires Watched(s) && Enabled(s, t, Register) && unseen !in s.sockets
    ensures Watched(Do(s, t, Register, unseen))
  {
    var s' := Do(s, t, Register, unseen);
    WatchedOn(s, s', t, PcOf(s', t));
  }

  lemma TurnedWatched(s: State, t: Tid, unseen: Sid)
    requires Inv(s) && Watched(s) && Enabled(s, t, TurnedRelease) && unseen !in s.sockets
    ensures Watched(Do(s, t, TurnedRelease, unseen))
  {
    var k := PcOf(s, t).sid;
    TurnedIs(s, t, k);
    hide Inv;
    SameAlive(s, Do(s, t, TurnedRelease, unseen), t);
  }

  lemma TurnedIs(s: State, t: Tid, k: Sid)
    requires Inv(s) && PcOf(s, t) == Turned(k)
    ensures k in s.sockets && s.sockets[k].references == 1
  {
    assert k in Carried(PcOf(s, t));
  }

  lemma IdleMoves(s: State, s': State, t: Tid, pc: Pc)
    requires Watched(s) && PcOf(s, t).Idle? && s'.live == s.live && s'.closed == s.closed
    requires forall k :: Alive(s', k) <==> Alive(s, k)
    requires s'.pcs == s.pcs || (s'.pcs == s.pcs[t := pc] && !pc.Abending?)
    ensures Watched(s')
  {
    hide Watched;
    if s'.pcs == s.pcs {
      Untouched(s, s');
    } else {
      WatchedAgain(s, s', t, pc);
    }
  }

  lemma WatchedAgain(s: State, s': State, t: Tid, pc: Pc)
    requires Watched(s) && PcOf(s, t).Idle? && s'.live == s.live && s'.closed == s.closed
    requires forall k :: Alive(s', k) <==> Alive(s, k)
    requires s'.pcs == s.pcs[t := pc] && !pc.Abending?
    ensures Watched(s')
  {
    WatchedOn(s, s', t, pc);
  }

  lemma Untouched(s: State, s': State)
    requires Watched(s) && s'.pcs == s.pcs && s'.live == s.live && s'.closed == s.closed
    requires forall k :: Alive(s', k) <==> Alive(s, k)
    ensures Watched(s')
  {
    hide Alive, Doomed;
    assert forall u :: PcOf(s', u) == PcOf(s, u);
    forall k | Alive(s', k) ensures k in s'.live || exists u :: k in Doomed(PcOf(s', u)) {
      if u :| k in Doomed(PcOf(s, u)) {
        assert k in Doomed(PcOf(s', u));
      }
    }
  }

  lemma ConnectWatched(s: State, t: Tid, fails: bool, unseen: Sid)
    requires Inv(s) && Watched(s) && Enabled(s, t, Connect(fails)) && unseen !in s.sockets
    ensures Watched(Do(s, t, Connect(fails), unseen))
  {
    var s' := Do(s, t, Connect(fails), unseen);
    forall u | PcOf(s, u).Abending? ensures PcOf(s, u).sid in s.sockets {
      assert PcOf(s, u).sid in Mentioned(PcOf(s, u));
    }
    hide Inv;
    WatchedOn(s, s', t, PcOf(s', t));
  }

  lemma {:induction false} WithoutKeeps(ks: seq<Sid>, k: Sid)
    ensures forall j | j in ks && j != k :: j in Without(ks, k)
  {
    if ks != [] && ks[0] != k {
      WithoutKeeps(ks[1..], k);
    }
  }

  lemma AbendWatched(s: State, t: Tid, unseen: Sid)
    requires Watched(s) && Enabled(s, t, Abend) && unseen !in s.sockets
    ensures Watched(Do(s, t, Abend, unseen))
  {
    WithoutKeeps(s.live, PcOf(s, t).sid);
    WatchedOn(s, Do(s, t, Abend, unseen), t, Idle);
  }

  lemma {:induction false} RunWatched(run: seq<State>, i: nat)
    requires IsRun(run) && i < |run|
    ensures Watched(run[i])
  {
    hide Inv, Watched;
    if i == 0 {
      StartWatched();
    } else {
      RunWatched(run, i - 1);
      RunInv(run, i - 1);
      assert Next(run[i - 1], run[i]);
      var t, a, unseen :| Enabled(run[i - 1], t, a) && unseen !in run[i - 1].sockets && run[i] == Do(run[i - 1], t, a, unseen);
      DoWatches(run[i - 1], t, a, unseen);
    }
  }

  lemma StartWatched()
    ensures Watched(START)
  {
  }

  ghost predicate NothingDoomed(s: State) {
    forall t, k :: k !in Doomed(PcOf(s, t))
  }

  /** Once the server is closed, and no goroutine is on its way with a new socket or with sockets to close, every socket
      there has ever been is dead. */
  lemma ClosedIsClosed(run: seq<State>, i: nat, k: Sid)
    requires IsRun(run) && i < |run| && run[i].closed && NothingDoomed(run[i]) && k in run[i].sockets
    ensures run[i].sockets[k].dead
  {
    RunWatched(run, i);
    AllDead(run[i], k);
  }

  lemma AllDead(s: State, k: Sid)
    requires Watched(s) && s.closed && NothingDoomed(s) && k in s.sockets
    ensures s.sockets[k].dead
  {
    assert Alive(s, k) ==> k in s.live || exists t :: k in Doomed(PcOf(s, t));
  }

  /** On a server that is closed nobody begins to dial, or takes a socket from the pool, and it stays closed. */
  lemma NothingBegins(s: State, s': State)
    requires Inv(s) && Next(s, s') && s.closed
    ensures s'.closed
    ensures forall t :: PcOf(s', t).Dialing? || PcOf(s', t).Popped? ==> PcOf(s', t) == PcOf(s, t)
    ensures forall k :: k in s'.live ==> k in s.live
  {
    hide Inv;
    var t, a, unseen :| Enabled(s, t, a) && unseen !in s.sockets && s' == Do(s, t, a, unseen);
    ClosedStep(s, t, a, unseen);
  }

  /** Only `t` has gone on, and neither to dial nor to take a socket. */
  ghost predicate Subdued(s: State, s': State, t: Tid) {
    && s'.closed && (forall k :: k in s'.live ==> k in s.live)
    && (PcOf(s', t).Dialing? || PcOf(s', t).Popped? ==> PcOf(s', t) == PcOf(s, t))
    && forall u | u != t :: PcOf(s', u) == PcOf(s, u)
  }

  lemma ReleasedSubdued(s: State, t: Tid, k: Sid, last: Pc, gone: Pc, more: Pc)
    requires k in s.sockets && s.closed
    requires forall pc | pc in {last, gone, more} :: !pc.Dialing? && !pc.Popped?
    ensures Subdued(s, Released(s, t, k, last, gone, more), t)
  {
  }

  lemma KilledSubdued(s: State, t: Tid, k: Sid, abend: bool, next: Pc)
    requires k in s.sockets && s.closed && !next.Dialing? && !next.Popped?
    ensures Subdued(s, Killed(s, t, k, abend, next), t)
  {
  }

  lemma ClosedStep(s: State, t: Tid, a: Action, unseen: Sid)
    requires Enabled(s, t, a) && s.closed
    ensures Subdued(s, Do(s, t, a, unseen), t)
  {
    hide Released, Killed, Subdued, Without;
    var pc := PcOf(s, t);
    match a {
      case Release(k) =>
        ReleasedSubdued(s, t, k, Recycling(k), Idle, Idle);
        HeldSubdued(s, Released(s, t, k, Recycling(k), Idle, Idle), Do(s, t, a, unseen), t);
      case TurnedRelease => ReleasedSubdued(s, t, pc.sid, TurnedRecycling(pc.sid), TurnedClosing(pc.sid), TurnedClosing(pc.sid));
      case Kill(k) => KilledSubdued(s, t, k, true, Idle);
      case CloseNext =>
        if pc.TurnedClosing? {
          KilledSubdued(s, t, pc.sid, false, Idle);
        } else if pc.todo == [] {
          PlainSubdued(s, t, a, unseen);
        } else {
          KilledSubdued(s, t, pc.todo[0], false, Closing(pc.todo[1..]));
        }
      case _ => PlainSubdued(s, t, a, unseen);
    }
  }

  lemma HeldSubdued(s: State, s': State, s'': State, t: Tid)
    requires Subdued(s, s', t) && s'' == s'.(held := s''.held)
    ensures Subdued(s, s'', t)
  {
  }

  lemma PlainSubdued(s: State, t: Tid, a: Action, unseen: Sid)
    requires Enabled(s, t, a) && s.closed && !a.Release? && !a.TurnedRelease? && !a.Kill?
    requires a.CloseNext? ==> PcOf(s, t).Closing? && PcOf(s, t).todo == []
    ensures Subdued(s, Do(s, t, a, unseen), t)
  {
    hide Released, Killed, Without;
  }
}
