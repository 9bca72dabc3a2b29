/** One round of cluster discovery: goroutines that resolve and probe addresses, and spawn others for the
    hosts that a server names. Each step is one critical section, or one call between two of them. */
module Cluster {
  import opened Basics

  type Address = nat

  // A resolved address.
  type Res = nat

  // The identity of a server object.
  type Obj = nat

  // What a probed server tells of itself.
  datatype Info = Info(master: bool, hosts: seq<Address>)

  // What the network answers in this round.
  datatype World = World(resolve: Address -> Option<Res>, probe: Res -> Option<Info>, direct: bool)

  datatype Pc =
    | Spawned(addr: Address, byMaster: bool)
    | Looking(res: Res)                // seen for the first time, the server is looked up
    | Probing(res: Res, obj: Obj)
    | Failing(res: Res, obj: Obj)      // to be removed
    | Probed(res: Res, obj: Obj)
    | Adding(res: Res, obj: Obj, own: bool)   // to be added, by its own goroutine or by one that a master has spawned
    | Spawning(res: Res, next: nat)    // goroutines for its hosts from `next` on
    | Done
    | Panicked

  datatype State = State(
    tasks: seq<Pc>,
    seen: set<Res>,
    addIfFound: set<Res>,
    notYetAdded: map<Res, Obj>,
    complete: bool,
    servers: map<Res, Obj>,
    masters: set<Res>,
    // what has happened in this round
    probes: multiset<Res>,
    adds: multiset<Res>,
    found: set<Res>,            // probed with success, and decided on
    named: set<Res>,            // named by a master that has been probed
    chosen: map<Res, Obj>,      // the server object of each address
    gone: set<Res>,             // removed by a session since it was added
    moves: nat)                 // steps of the round's goroutines

  function Hosts(w: World, r: Res): (hs: seq<Address>) {
    if w.direct || w.probe(r).None? then [] else w.probe(r).value.hosts
  }

  function IsMaster(w: World, r: Res): bool {
    w.probe(r).Some? && w.probe(r).value.master
  }

  function Go(s: State, i: nat, pc: Pc): (r: State)
    requires i < |s.tasks|
  {
    s.(tasks := s.tasks[i := pc])
  }

  /** The critical section in which a goroutine is let through, or not, with what it has resolved. */
  function Enter(s: State, i: nat, r: Res, byMaster: bool): (s': State)
    requires i < |s.tasks|
  {
    if byMaster && r in s.notYetAdded then
      Go(s.(notYetAdded := s.notYetAdded - {r}, named := s.named + {r}), i, Adding(r, s.notYetAdded[r], false))
    else
      var s1 := if byMaster then s.(addIfFound := s.addIfFound + {r}, named := s.named + {r}) else s;
      if r in s1.seen then Go(s1, i, Done)
      else Go(s1.(seen := s1.seen + {r}), i, Looking(r))
  }

  /** addServer, with completeSync. */
  function Added(w: World, s: State, i: nat, r: Res, o: Obj, next: Pc): (s': State)
    requires i < |s.tasks|
  {
    if r in s.servers && s.servers[r] != o then Go(s, i, Panicked)
    else Go(s.(servers := s.servers[r := o], masters := if IsMaster(w, r) then s.masters + {r} else s.masters - {r},
               adds := s.adds + multiset{r}), i, next)
  }

  predicate Enabled(s: State, i: nat) {
    i < |s.tasks| && !s.tasks[i].Done? && !s.tasks[i].Panicked?
  }

  /** The next step of goroutine `i`; `unused` is a number for a server object if one is made. */
  function Do(w: World, s: State, i: nat, unused: Obj): (s': State)
    requires Enabled(s, i)
  {
    match s.tasks[i]
    case Spawned(addr, byMaster) =>
      (match w.resolve(addr)
       case None => Go(s, i, Done)
       case Some(r) => Enter(s, i, r, byMaster))
    case Looking(r) =>
      var o := if r in s.servers then s.servers[r] else unused;
      Go(s.(chosen := s.chosen[r := o]), i, Probing(r, o))
    case Probing(r, o) =>
      Go(s.(probes := s.probes + multiset{r}), i, if w.probe(r).Some? then Probed(r, o) else Failing(r, o))
    case Failing(r, o) => Go(s.(servers := s.servers - {r}, masters := s.masters - {r}), i, Done)
    case Probed(r, o) =>
      var s1 := s.(found := s.found + {r});
      if w.direct || IsMaster(w, r) || r in s.addIfFound then Go(s1.(complete := true), i, Adding(r, o, true))
      else Go(s1.(notYetAdded := s.notYetAdded[r := o]), i, Spawning(r, 0))
    case Adding(r, o, own) => Added(w, s, i, r, o, if own then Spawning(r, 0) else Done)
    case Spawning(r, next) =>
      if next < |Hosts(w, r)| then
        Go(s, i, Spawning(r, next + 1)).(tasks := s.tasks[i := Spawning(r, next + 1)] + [Spawned(Hosts(w, r)[next], IsMaster(w, r))])
      else Go(s, i, Done)
    case Done => s
    case Panicked => s
  }

  /** A round begins with the known addresses. */
  function Begin(known: seq<Address>, servers: map<Res, Obj>, masters: set<Res>): (s: State) {
    State(seq(|known|, i requires 0 <= i < |known| => Spawned(known[i], false)),
          {}, {}, map[], false, servers, masters, multiset{}, multiset{}, {}, {}, map[], {}, 0)
  }

  /** A session that cannot get a socket of a server removes it, at any time. */
  function Dropped(s: State, r: Res): (s': State) {
    s.(servers := s.servers - {r}, masters := s.masters - {r}, gone := if s.adds[r] > 0 then s.gone + {r} else s.gone)
  }

  ghost predicate Moved(w: World, s: State, s': State) {
    exists i, unused :: Enabled(s, i) && s' == Do(w, s, i, unused).(moves := s.moves + 1)
  }

  ghost predicate Next(w: World, s: State, s': State) {
    Moved(w, s, s') || exists r :: s' == Dropped(s, r)
  }

  ghost predicate IsRun(w: World, run: seq<State>) {
    && run != [] && (exists known, servers, masters :: run[0] == Begin(known, servers, masters))
    && forall i | 0 <= i < |run| - 1 :: Next(w, run[i], run[i + 1])
  }

  // ---- what every step keeps

  /** What there is about one address. */
  datatype About = About(seen: bool, ifFound: bool, pending: Option<Obj>, server: Option<Obj>,
                         probes: nat, adds: nat, found: bool, named: bool, chosen: Option<Obj>, master: bool, gone: bool)

  function AboutOf(s: State, r: Res): (a: About) {
    About(r in s.seen, r in s.addIfFound, if r in s.notYetAdded then Some(s.notYetAdded[r]) else None,
          if r in s.servers then Some(s.servers[r]) else None,
          s.probes[r], s.adds[r], r in s.found, r in s.named, if r in s.chosen then Some(s.chosen[r]) else None, r in s.masters, r in s.gone)
  }

  /** The address that a goroutine has in its hands. */
  function Key(pc: Pc): (r: Option<Res>) {
    match pc
    case Looking(r) => Some(r)
    case Probing(r, _) => Some(r)
    case Failing(r, _) => Some(r)
    case Probed(r, _) => Some(r)
    case Adding(r, _, _) => Some(r)
    case _ => None
  }

  /** What holds of the address that a goroutine has in its hands. */
  predicate KeyOk(w: World, pc: Pc, a: About) {
    match pc
    case Looking(_) => a.seen && a.probes == 0 && !a.found && a.adds == 0 && a.pending.None? && a.chosen.None?
    case Probing(_, o) => a.seen && a.probes == 0 && !a.found && a.adds == 0 && a.pending.None? && a.chosen == Some(o)
    case Failing(r, o) => a.seen && a.probes == 1 && !a.found && a.adds == 0 && a.pending.None? && w.probe(r).None? && a.chosen == Some(o)
    case Probed(r, o) => a.seen && a.probes == 1 && !a.found && a.adds == 0 && a.pending.None? && w.probe(r).Some? && a.chosen == Some(o)
    case Adding(r, o, _) => a.seen && a.probes == 1 && a.found && a.adds == 0 && a.pending.None? && a.chosen == Some(o)
    case Panicked => false
    case _ => true
  }

  /** What holds of every address. */
  predicate AboutOk(w: World, r: Res, a: About) {
    && a.probes <= 1 && a.adds <= 1
    && (!a.seen ==> a.probes == 0 && a.adds == 0 && !a.found && a.pending.None? && a.chosen.None?)
    && (a.adds == 1 ==> a.found && a.pending.None? && (a.gone <==> a.server.None?))
    && (a.adds == 1 && !a.gone ==> a.server == a.chosen && (a.master <==> IsMaster(w, r)))
    && (a.gone ==> a.adds == 1)
    && (a.found ==> a.seen && a.probes == 1 && w.probe(r).Some?)
    && (a.pending.Some? ==> a.found && a.adds == 0 && !a.named && !IsMaster(w, r) && !w.direct && a.chosen == a.pending)
    && (a.named && !a.found ==> a.ifFound)
    && (a.chosen.Some? && a.server.Some? ==> a.server == a.chosen)
  }

  /** What is left to be done about an address: to probe it, to decide about it, or to add it. */
  predicate Loose(w: World, r: Res, a: About) {
    || (a.seen && !a.found && !(a.probes == 1 && w.probe(r).None?))
    || (a.found && a.pending.None? && a.adds != 1)
  }

  /** What is left to be done is in the hands of a goroutine. */
  ghost predicate Settled(w: World, s: State, r: Res) {
    Loose(w, r, AboutOf(s, r)) ==> exists i | 0 <= i < |s.tasks| :: Key(s.tasks[i]) == Some(r)
  }

  ghost predicate AboutsOk(w: World, s: State) {
    forall r :: AboutOk(w, r, AboutOf(s, r))
  }

  ghost predicate AllSettled(w: World, s: State) {
    forall r :: Settled(w, s, r)
  }

  ghost predicate KeysOk(w: World, s: State) {
    forall i | 0 <= i < |s.tasks| ::
      !s.tasks[i].Panicked? && (Key(s.tasks[i]).Some? ==> KeyOk(w, s.tasks[i], AboutOf(s, Key(s.tasks[i]).value)))
  }

  ghost predicate KeysDistinct(s: State) {
    forall i, j | 0 <= i < |s.tasks| && 0 <= j < |s.tasks| && i != j && Key(s.tasks[i]).Some? :: Key(s.tasks[i]) != Key(s.tasks[j])
  }

  ghost predicate Inv(w: World, s: State) {
    AboutsOk(w, s) && AllSettled(w, s) && KeysOk(w, s) && KeysDistinct(s)
  }

  /** Another goroutine has the address in its hands. */
  predicate Elsewhere(s: State, i: nat, j: nat, r: Res) {
    j < |s.tasks| && j != i && Key(s.tasks[j]) == Some(r)
  }

  /** Goroutine `i` moves on to `pc`, others are spawned, and nothing about other addresses than `r` changes. */
  ghost predicate Changed(s: State, s': State, i: nat, pc: Pc, more: seq<Pc>, r: Res) {
    && i < |s.tasks| && s'.tasks == s.tasks[i := pc] + more && !pc.Panicked?
    && (forall k | 0 <= k < |more| :: more[k].Spawned?)
    && (Key(s.tasks[i]).Some? ==> Key(s.tasks[i]) == Some(r))
    && (Key(pc).Some? ==> Key(pc) == Some(r) && forall j: nat :: !Elsewhere(s, i, j, r))
    && (forall q | q != r :: AboutOf(s', q) == AboutOf(s, q))
  }

  lemma ChangeTasks(s: State, s': State, i: nat, pc: Pc, more: seq<Pc>, r: Res)
    requires Changed(s, s', i, pc, more, r)
    ensures |s'.tasks| == |s.tasks| + |more| && s'.tasks[i] == pc
    ensures forall j | 0 <= j < |s.tasks| && j != i :: s'.tasks[j] == s.tasks[j]
    ensures forall j | |s.tasks| <= j < |s'.tasks| :: s'.tasks[j].Spawned?
  {
  }

  lemma ChangeSettled(w: World, s: State, s': State, i: nat, pc: Pc, more: seq<Pc>, r: Res)
    requires Changed(s, s', i, pc, more, r) && AllSettled(w, s)
    requires Loose(w, r, AboutOf(s', r)) ==> Key(pc) == Some(r) || exists j: nat :: Elsewhere(s, i, j, r)
    ensures AllSettled(w, s')
  {
    ChangeTasks(s, s', i, pc, more, r);
    hide AboutOf, Loose;
    forall q ensures Settled(w, s', q) {
      if q == r {
        if j: nat :| Elsewhere(s, i, j, r) {
          assert Key(s'.tasks[j]) == Some(r);
        } else if Key(pc) == Some(r) {
          assert Key(s'.tasks[i]) == Some(r);
        }
      } else {
        assert Settled(w, s, q);
        if j :| 0 <= j < |s.tasks| && Key(s.tasks[j]) == Some(q) {
          assert Key(s'.tasks[j]) == Some(q);
        }
      }
    }
  }

  lemma ChangeKeys(w: World, s: State, s': State, i: nat, pc: Pc, more: seq<Pc>, r: Res)
    requires Changed(s, s', i, pc, more, r) && KeysOk(w, s)
    requires Key(pc).Some? ==> KeyOk(w, pc, AboutOf(s', r))
    requires forall j: nat | Elsewhere(s, i, j, r) :: KeyOk(w, s.tasks[j], AboutOf(s', r))
    ensures KeysOk(w, s')
  {
    ChangeTasks(s, s', i, pc, more, r);
    hide AboutOf, KeyOk;
    forall j | 0 <= j < |s'.tasks|
      ensures !s'.tasks[j].Panicked? && (Key(s'.tasks[j]).Some? ==> KeyOk(w, s'.tasks[j], AboutOf(s', Key(s'.tasks[j]).value)))
    {
      if j != i && j < |s.tasks| && Key(s.tasks[j]) == Some(r) {
        assert Elsewhere(s, i, j, r);
      }
    }
  }

  lemma ChangeDistinct(s: State, s': State, i: nat, pc: Pc, more: seq<Pc>, r: Res)
    requires Changed(s, s', i, pc, more, r) && KeysDistinct(s)
    ensures KeysDistinct(s')
  {
    ChangeTasks(s, s', i, pc, more, r);
    forall j: nat, k: nat | j < |s'.tasks| && k < |s'.tasks| && j != k && Key(s'.tasks[j]).Some?
      ensures Key(s'.tasks[j]) != Key(s'.tasks[k])
    {
      assert !(Key(pc).Some? && Elsewhere(s, i, k, r)) && !(Key(pc).Some? && Elsewhere(s, i, j, r));
    }
  }

  /** What is to be shown of a step. */
  lemma ChangeKeeps(w: World, s: State, s': State, i: nat, pc: Pc, more: seq<Pc>, r: Res)
    requires Inv(w, s) && Changed(s, s', i, pc, more, r)
    requires AboutOk(w, r, AboutOf(s', r))
    requires Loose(w, r, AboutOf(s', r)) ==> Key(pc) == Some(r) || exists j: nat :: Elsewhere(s, i, j, r)
    requires Key(pc).Some? ==> KeyOk(w, pc, AboutOf(s', r))
    requires forall j: nat | Elsewhere(s, i, j, r) :: KeyOk(w, s.tasks[j], AboutOf(s', r))
    ensures Inv(w, s')
  {
    ChangeSettled(w, s, s', i, pc, more, r);
    ChangeKeys(w, s, s', i, pc, more, r);
    ChangeDistinct(s, s', i, pc, more, r);
    assert AboutsOk(w, s') by {
      hide AboutOf, AboutOk, AllSettled, KeysOk, KeysDistinct;
    }
  }

  /** A goroutine with an address in its hands: nobody else has it. */
  lemma KeyIs(w: World, s: State, i: nat, r: Res)
    requires Inv(w, s) && i < |s.tasks| && Key(s.tasks[i]) == Some(r)
    ensures KeyOk(w, s.tasks[i], AboutOf(s, r)) && AboutOk(w, r, AboutOf(s, r)) && forall j: nat :: !Elsewhere(s, i, j, r)
  {
    hide AboutOf, KeyOk, AboutOk, AllSettled;
  }

  /** A goroutine without one: others may have it. */
  lemma NoKeyIs(w: World, s: State, i: nat, r: Res)
    requires Inv(w, s) && i < |s.tasks| && Key(s.tasks[i]).None?
    ensures AboutOk(w, r, AboutOf(s, r))
    ensures forall j: nat | Elsewhere(s, i, j, r) :: KeyOk(w, s.tasks[j], AboutOf(s, r))
    ensures Loose(w, r, AboutOf(s, r)) ==> exists j: nat :: Elsewhere(s, i, j, r)
  {
    hide AboutOf, KeyOk, AboutOk, Loose;
    assert Settled(w, s, r);
    if j :| 0 <= j < |s.tasks| && Key(s.tasks[j]) == Some(r) {
      assert Elsewhere(s, i, j, r);
    }
  }

  /** A master names what has been found and was not to be added. */
  lemma RescueKeeps(w: World, s: State, i: nat, r: Res)
    requires Inv(w, s) && i < |s.tasks| && s.tasks[i].Spawned? && r in s.notYetAdded
    ensures Inv(w, Enter(s, i, r, true))
  {
    hide Inv;
    NoKeyIs(w, s, i, r);
    ChangeKeeps(w, s, Enter(s, i, r, true), i, Adding(r, s.notYetAdded[r], false), [], r);
  }

  function NamedBy(s: State, r: Res, byMaster: bool): (s': State) {
    if byMaster then s.(addIfFound := s.addIfFound + {r}, named := s.named + {r}) else s
  }

  lemma SeenKeeps(w: World, s: State, i: nat, r: Res, byMaster: bool)
    requires Inv(w, s) && i < |s.tasks| && s.tasks[i].Spawned? && (byMaster ==> r !in s.notYetAdded) && r in s.seen
    ensures Inv(w, Go(NamedBy(s, r, byMaster), i, Done))
  {
    hide Inv;
    NoKeyIs(w, s, i, r);
    ChangeKeeps(w, s, Go(NamedBy(s, r, byMaster), i, Done), i, Done, [], r);
  }

  lemma UnseenKeeps(w: World, s: State, i: nat, r: Res, byMaster: bool)
    requires Inv(w, s) && i < |s.tasks| && s.tasks[i].Spawned? && r !in s.seen
    ensures Inv(w, Go(NamedBy(s, r, byMaster).(seen := s.seen + {r}), i, Looking(r)))
  {
    hide Inv;
    NoKeyIs(w, s, i, r);
    ChangeKeeps(w, s, Go(NamedBy(s, r, byMaster).(seen := s.seen + {r}), i, Looking(r)), i, Looking(r), [], r);
  }

  lemma EnterKeeps(w: World, s: State, i: nat, r: Res, byMaster: bool)
    requires Inv(w, s) && i < |s.tasks| && s.tasks[i].Spawned?
    ensures Inv(w, Enter(s, i, r, byMaster))
  {
    hide Inv;
    if byMaster && r in s.notYetAdded {
      RescueKeeps(w, s, i, r);
    } else if r in s.seen {
      SeenKeeps(w, s, i, r, byMaster);
    } else {
      UnseenKeeps(w, s, i, r, byMaster);
    }
  }

  lemma LookingKeeps(w: World, s: State, i: nat, unused: Obj)
    requires Inv(w, s) && i < |s.tasks| && s.tasks[i].Looking?
    ensures Inv(w, Do(w, s, i, unused))
  {
    hide Inv;
    var r := s.tasks[i].res;
    KeyIs(w, s, i, r);
    var s' := Do(w, s, i, unused);
    ChangeKeeps(w, s, s', i, s'.tasks[i], [], r);
  }

  lemma ProbingKeeps(w: World, s: State, i: nat)
    requires Inv(w, s) && i < |s.tasks| && s.tasks[i].Probing?
    ensures Inv(w, Do(w, s, i, 0))
  {
    hide Inv;
    var r := s.tasks[i].res;
    KeyIs(w, s, i, r);
    var s' := Do(w, s, i, 0);
    ChangeKeeps(w, s, s', i, s'.tasks[i], [], r);
  }

  lemma FailingKeeps(w: World, s: State, i: nat)
    requires Inv(w, s) && i < |s.tasks| && s.tasks[i].Failing?
    ensures Inv(w, Do(w, s, i, 0))
  {
    hide Inv;
    var r := s.tasks[i].res;
    KeyIs(w, s, i, r);
    ChangeKeeps(w, s, Do(w, s, i, 0), i, Done, [], r);
  }

  lemma ProbedKeeps(w: World, s: State, i: nat)
    requires Inv(w, s) && i < |s.tasks| && s.tasks[i].Probed?
    ensures Inv(w, Do(w, s, i, 0))
  {
    hide Inv;
    var r := s.tasks[i].res;
    KeyIs(w, s, i, r);
    var s' := Do(w, s, i, 0);
    ChangeKeeps(w, s, s', i, s'.tasks[i], [], r);
  }

  lemma AddingKeeps(w: World, s: State, i: nat)
    requires Inv(w, s) && i < |s.tasks| && s.tasks[i].Adding?
    ensures Inv(w, Do(w, s, i, 0))
  {
    hide Inv;
    var r := s.tasks[i].res;
    KeyIs(w, s, i, r);
    ChangeKeeps(w, s, Do(w, s, i, 0), i, if s.tasks[i].own then Spawning(r, 0) else Done, [], r);
  }

  lemma SpawningKeeps(w: World, s: State, i: nat)
    requires Inv(w, s) && i < |s.tasks| && s.tasks[i].Spawning?
    ensures Inv(w, Do(w, s, i, 0))
  {
    hide Inv, Hosts;
    var r, next := s.tasks[i].res, s.tasks[i].next;
    NoKeyIs(w, s, i, r);
    var s' := Do(w, s, i, 0);
    if next < |Hosts(w, r)| {
      ChangeKeeps(w, s, s', i, Spawning(r, next + 1), [Spawned(Hosts(w, r)[next], IsMaster(w, r))], r);
    } else {
      ChangeKeeps(w, s, s', i, Done, [], r);
    }
  }

  lemma DoKeeps(w: World, s: State, i: nat, unused: Obj)
    requires Inv(w, s) && Enabled(s, i)
    ensures Inv(w, Do(w, s, i, unused))
  {
    hide Inv, Enter;
    match s.tasks[i] {
      case Spawned(addr, byMaster) =>
        if w.resolve(addr).Some? {
          EnterKeeps(w, s, i, w.resolve(addr).value, byMaster);
        } else {
          DoneKeeps(w, s, i);
        }
      case Looking(_) => LookingKeeps(w, s, i, unused);
      case Probing(_, _) => ProbingKeeps(w, s, i);
      case Failing(_, _) => FailingKeeps(w, s, i);
      case Probed(_, _) => ProbedKeeps(w, s, i);
      case Adding(_, _, _) => AddingKeeps(w, s, i);
      case Spawning(_, _) => SpawningKeeps(w, s, i);
    }
  }

  lemma DoneKeeps(w: World, s: State, i: nat)
    requires Inv(w, s) && i < |s.tasks| && s.tasks[i].Spawned?
    ensures Inv(w, Go(s, i, Done))
  {
    hide Inv;
    NoKeyIs(w, s, i, 0);
    ChangeKeeps(w, s, Go(s, i, Done), i, Done, [], 0);
  }

  // ---- the hosts that a master names

  /** A goroutine that will see to it that host `j` of `r` is named. */
  predicate Covers(w: World, pc: Pc, r: Res, j: nat) {
    match pc
    case Spawned(addr, byMaster) => byMaster && j < |Hosts(w, r)| && addr == Hosts(w, r)[j]
    case Adding(q, _, own) => own && q == r
    case Spawning(q, next) => q == r && next <= j
    case _ => false
  }

  ghost predicate HostNamed(w: World, s: State, r: Res, j: nat)
    requires j < |Hosts(w, r)|
  {
    match w.resolve(Hosts(w, r)[j])
    case None => true
    case Some(q) => q in s.named
  }

  ghost predicate HostOk(w: World, s: State, r: Res, j: nat) {
    r in s.found && IsMaster(w, r) && j < |Hosts(w, r)| ==>
      HostNamed(w, s, r, j) || exists i | 0 <= i < |s.tasks| :: Covers(w, s.tasks[i], r, j)
  }

  ghost predicate HostsOk(w: World, s: State) {
    forall r, j :: HostOk(w, s, r, j)
  }

  lemma NamedMore(w: World, s: State, i: nat, unused: Obj)
    requires Enabled(s, i)
    ensures s.named <= Do(w, s, i, unused).named
    ensures forall r | r in Do(w, s, i, unused).found && r !in s.found :: s.tasks[i].Probed? && s.tasks[i].res == r
  {
    match s.tasks[i] {
      case Probed(_, _) =>
      case _ =>
    }
  }

  /** A goroutine's step is its own. */
  lemma EnterStep(w: World, s: State, i: nat, unused: Obj)
    requires Enabled(s, i) && s.tasks[i].Spawned?
    ensures |Do(w, s, i, unused).tasks| == |s.tasks|
    ensures Do(w, s, i, unused).tasks == s.tasks[i := Do(w, s, i, unused).tasks[i]]
  {
  }

  ghost predicate Quiet(w: World, s: State, s': State, i: nat) {
    i < |s.tasks| && |s'.tasks| == |s.tasks| && s'.tasks == s.tasks[i := s'.tasks[i]] && s'.seen == s.seen
    && Steps(w, s'.tasks[i]) < Steps(w, s.tasks[i])
  }

  lemma LookingStep(w: World, s: State, i: nat, unused: Obj)
    requires i < |s.tasks| && s.tasks[i].Looking?
    ensures Quiet(w, s, Do(w, s, i, unused), i)
  {
    hide Hosts;
  }

  lemma ProbingStep(w: World, s: State, i: nat, unused: Obj)
    requires i < |s.tasks| && s.tasks[i].Probing?
    ensures Quiet(w, s, Do(w, s, i, unused), i)
  {
    hide Hosts;
  }

  lemma FailingStep(w: World, s: State, i: nat, unused: Obj)
    requires i < |s.tasks| && s.tasks[i].Failing?
    ensures Quiet(w, s, Do(w, s, i, unused), i)
  {
    hide Hosts;
  }

  lemma ProbedStep(w: World, s: State, i: nat, unused: Obj)
    requires i < |s.tasks| && s.tasks[i].Probed?
    ensures Quiet(w, s, Do(w, s, i, unused), i)
  {
    hide Hosts;
  }

  lemma AddingStep(w: World, s: State, i: nat, unused: Obj)
    requires i < |s.tasks| && s.tasks[i].Adding?
    ensures Quiet(w, s, Do(w, s, i, unused), i)
  {
    hide Hosts;
    var r, o, next := s.tasks[i].res, s.tasks[i].obj, if s.tasks[i].own then Spawning(s.tasks[i].res, 0) else Done;
    assert Do(w, s, i, unused) == Added(w, s, i, r, o, next);
  }

  lemma QuietStep(w: World, s: State, i: nat, unused: Obj)
    requires Enabled(s, i) && !s.tasks[i].Spawned? && !s.tasks[i].Spawning?
    ensures Quiet(w, s, Do(w, s, i, unused), i)
  {
    hide Do, Quiet;
    match s.tasks[i] {
      case Looking(_) => LookingStep(w, s, i, unused);
      case Probing(_, _) => ProbingStep(w, s, i, unused);
      case Failing(_, _) => FailingStep(w, s, i, unused);
      case Probed(_, _) => ProbedStep(w, s, i, unused);
      case Adding(_, _, _) => AddingStep(w, s, i, unused);
    }
  }

  lemma SpawningStep(w: World, s: State, i: nat, unused: Obj)
    requires i < |s.tasks| && s.tasks[i].Spawning?
    ensures |s.tasks| <= |Do(w, s, i, unused).tasks|
    ensures forall k | 0 <= k < |s.tasks| && k != i :: Do(w, s, i, unused).tasks[k] == s.tasks[k]
  {
    hide Hosts;
  }

  lemma OthersStay(w: World, s: State, i: nat, unused: Obj)
    requires Enabled(s, i)
    ensures |s.tasks| <= |Do(w, s, i, unused).tasks|
    ensures forall k | 0 <= k < |s.tasks| && k != i :: Do(w, s, i, unused).tasks[k] == s.tasks[k]
  {
    hide Hosts, Do;
    if s.tasks[i].Spawned? {
      EnterStep(w, s, i, unused);
    } else if s.tasks[i].Spawning? {
      SpawningStep(w, s, i, unused);
    } else {
      QuietStep(w, s, i, unused);
    }
  }

  /** A goroutine that covers a host hands it on. */
  lemma CoverMoves(w: World, s: State, i: nat, unused: Obj, r: Res, j: nat)
    requires Inv(w, s) && Enabled(s, i) && IsMaster(w, r) && j < |Hosts(w, r)|
    requires Covers(w, s.tasks[i], r, j) || (s.tasks[i].Probed? && s.tasks[i].res == r)
    ensures HostNamed(w, Do(w, s, i, unused), r, j)
      || exists k | 0 <= k < |Do(w, s, i, unused).tasks| :: Covers(w, Do(w, s, i, unused).tasks[k], r, j)
  {
    var s' := Do(w, s, i, unused);
    match s.tasks[i] {
      case Spawned(_, _) =>
      case Adding(q, o, own) =>
        KeyIs(w, s, i, q);
        hide Inv, Hosts;
        assert Covers(w, s'.tasks[i], r, j);
      case Spawning(q, next) =>
        hide Inv;
        if next == j {
          assert Covers(w, s'.tasks[|s.tasks|], r, j);
        } else {
          assert Covers(w, s'.tasks[i], r, j);
        }
      case Probed(q, o) =>
        hide Inv;
        assert Covers(w, s'.tasks[i], r, j);
    }
  }

  lemma NamedStays(w: World, s: State, s': State, r: Res, j: nat)
    requires j < |Hosts(w, r)| && s.named <= s'.named
    ensures HostNamed(w, s, r, j) ==> HostNamed(w, s', r, j)
  {
  }

  lemma HostsKeep(w: World, s: State, i: nat, unused: Obj)
    requires Inv(w, s) && HostsOk(w, s) && Enabled(s, i)
    ensures HostsOk(w, Do(w, s, i, unused))
  {
    var s' := Do(w, s, i, unused);
    hide Do, Inv, Covers, Hosts, HostNamed;
    NamedMore(w, s, i, unused);
    OthersStay(w, s, i, unused);
    forall r: Res, j: nat ensures HostOk(w, s', r, j) {
      if r in s'.found && IsMaster(w, r) && j < |Hosts(w, r)| {
        NamedStays(w, s, s', r, j);
        assert HostOk(w, s, r, j);
        if r !in s.found {
          CoverMoves(w, s, i, unused, r, j);
        } else if k :| 0 <= k < |s.tasks| && Covers(w, s.tasks[k], r, j) {
          if k == i {
            CoverMoves(w, s, i, unused, r, j);
          } else {
            assert Covers(w, s'.tasks[k], r, j);
          }
        }
      }
    }
  }

  // ---- a session removes a server

  lemma DropAbout(w: World, s: State, r: Res, q: Res)
    requires AboutOk(w, q, AboutOf(s, q))
    ensures var a, b := AboutOf(s, q), AboutOf(Dropped(s, r), q);
      AboutOk(w, q, b) && b == a.(server := b.server, master := b.master, gone := b.gone)
  {
  }

  lemma DropKeeps(w: World, s: State, r: Res)
    requires Inv(w, s) && HostsOk(w, s)
    ensures Inv(w, Dropped(s, r)) && HostsOk(w, Dropped(s, r))
  {
    var s' := Dropped(s, r);
    hide AboutOk, Dropped, AboutOf, Hosts, Covers;
    DroppedTasks(s, r);
    forall q: Res ensures AboutOk(w, q, AboutOf(s', q)) && AboutOf(s', q) == AboutOf(s, q).(server := AboutOf(s', q).server, master := AboutOf(s', q).master, gone := AboutOf(s', q).gone) {
      assert AboutOk(w, q, AboutOf(s, q));
      DropAbout(w, s, r, q);
    }
    forall q: Res ensures Settled(w, s', q) {
      assert Settled(w, s, q);
    }
    forall q: Res, j: nat ensures HostOk(w, s', q, j) {
      assert HostOk(w, s, q, j);
    }
  }

  lemma DroppedTasks(s: State, r: Res)
    ensures Dropped(s, r).tasks == s.tasks && Dropped(s, r).named == s.named && Dropped(s, r).found == s.found
  {
  }

  lemma SameBut(w: World, s: State, s': State)
    requires Inv(w, s) && HostsOk(w, s) && s' == s.(moves := s'.moves)
    ensures Inv(w, s') && HostsOk(w, s')
  {
    hide AboutOk, AboutOf, Hosts, Covers;
    SameAbouts(s, s');
    forall q: Res ensures AboutOk(w, q, AboutOf(s', q)) && Settled(w, s', q) {
      assert AboutOk(w, q, AboutOf(s, q)) && Settled(w, s, q);
    }
    forall q: Res, j: nat ensures HostOk(w, s', q, j) {
      assert HostOk(w, s, q, j);
    }
  }

  lemma SameAbouts(s: State, s': State)
    requires s' == s.(moves := s'.moves)
    ensures forall q: Res :: AboutOf(s', q) == AboutOf(s, q)
  {
  }

  // ---- over every run of a round

  lemma BeginInv(w: World, known: seq<Address>, servers: map<Res, Obj>, masters: set<Res>)
    ensures Inv(w, Begin(known, servers, masters)) && HostsOk(w, Begin(known, servers, masters))
  {
  }

  lemma {:induction false} RunInv(w: World, run: seq<State>, n: nat)
    requires IsRun(w, run) && n < |run|
    ensures Inv(w, run[n]) && HostsOk(w, run[n])
  {
    hide Inv, HostsOk, Do;
    if n == 0 {
      var known, servers, masters :| run[0] == Begin(known, servers, masters);
      BeginInv(w, known, servers, masters);
    } else {
      RunInv(w, run, n - 1);
      assert Next(w, run[n - 1], run[n]);
      if Moved(w, run[n - 1], run[n]) {
        var i, unused :| Enabled(run[n - 1], i) && run[n] == Do(w, run[n - 1], i, unused).(moves := run[n - 1].moves + 1);
        DoKeeps(w, run[n - 1], i, unused);
        HostsKeep(w, run[n - 1], i, unused);
        SameBut(w, Do(w, run[n - 1], i, unused), run[n]);
      } else {
        var r :| run[n] == Dropped(run[n - 1], r);
        DropKeeps(w, run[n - 1], r);
      }
    }
  }

  /** No address is probed twice, no server added twice, and no server object is exchanged for another one. */
  lemma AtMostOnce(w: World, run: seq<State>, n: nat, r: Res)
    requires IsRun(w, run) && n < |run|
    ensures run[n].probes[r] <= 1 && run[n].adds[r] <= 1
    ensures forall i | 0 <= i < |run[n].tasks| :: !run[n].tasks[i].Panicked?
  {
    RunInv(w, run, n);
    hide HostsOk, AllSettled, KeysDistinct;
    assert AboutOk(w, r, AboutOf(run[n], r));
  }

  ghost predicate AllDone(s: State) {
    forall i | 0 <= i < |s.tasks| :: s.tasks[i].Done?
  }

  /** A probed master names `r`. */
  ghost predicate NamedByMaster(w: World, s: State, r: Res) {
    exists m, j: nat :: m in s.found && IsMaster(w, m) && j < |Hosts(w, m)| && w.resolve(Hosts(w, m)[j]) == Some(r)
  }

  /** When all goroutines are done, every address they have come to has been probed, and every server probed
      with success that is a master, or that a probed master names, has been added once, as what it is; and it is
      still there unless a session has removed it since. */
  lemma MastersAndNamedAreAdded(w: World, run: seq<State>, n: nat, r: Res)
    requires IsRun(w, run) && n < |run| && AllDone(run[n]) && r in run[n].seen
    ensures run[n].probes[r] == 1
    ensures w.probe(r).Some? <==> r in run[n].found
    ensures r in run[n].found && (w.direct || IsMaster(w, r) || NamedByMaster(w, run[n], r)) ==>
      && run[n].adds[r] == 1 && r !in run[n].notYetAdded && (r in run[n].servers <==> r !in run[n].gone)
      && (r !in run[n].gone ==> (r in run[n].masters <==> IsMaster(w, r)))
  {
    var s := run[n];
    RunInv(w, run, n);
    DoneIsDone(w, s, r);
    if m, j: nat :| m in s.found && IsMaster(w, m) && j < |Hosts(w, m)| && w.resolve(Hosts(w, m)[j]) == Some(r) {
      HostIsNamed(w, s, m, j);
    }
  }

  lemma DoneIsDone(w: World, s: State, r: Res)
    requires Inv(w, s) && AllDone(s)
    ensures AboutOk(w, r, AboutOf(s, r)) && !Loose(w, r, AboutOf(s, r))
  {
    hide AboutOf, AboutOk, Loose, KeysOk, KeysDistinct;
    assert Settled(w, s, r);
  }

  lemma HostIsNamed(w: World, s: State, m: Res, j: nat)
    requires HostsOk(w, s) && AllDone(s) && m in s.found && IsMaster(w, m) && j < |Hosts(w, m)|
    ensures HostNamed(w, s, m, j)
  {
    assert HostOk(w, s, m, j);
  }

  /** The end of a round: what is not added yet is removed after a complete round, and after a
      partial one it stays if it has been there before. */
  function Finished(s: State): (s': State) {
    if s.complete then s.(servers := s.servers - s.notYetAdded.Keys, masters := s.masters - s.notYetAdded.Keys)
    else s.(masters := s.masters - (s.notYetAdded.Keys * s.servers.Keys))
  }

  /** What has been added is there at the end, unless a session has removed it since. */
  lemma AddedStays(w: World, run: seq<State>, n: nat, r: Res)
    requires IsRun(w, run) && n < |run| && run[n].adds[r] == 1
    ensures r in Finished(run[n]).servers <==> r !in run[n].gone
    ensures r !in run[n].gone ==> r in run[n].chosen && Finished(run[n]).servers[r] == run[n].chosen[r]
    ensures r !in run[n].gone ==> (r in Finished(run[n]).masters <==> IsMaster(w, r))
  {
    RunInv(w, run, n);
    hide HostsOk, AllSettled, KeysDistinct, KeysOk;
    assert AboutOk(w, r, AboutOf(run[n], r));
  }

  // ---- a round ends

  /** How many more steps a goroutine and those it spawns can make, without the addresses nobody has come to yet. */
  function Steps(w: World, pc: Pc): (n: nat) {
    match pc
    case Spawned(_, _) => 2
    case Looking(r) => 5 + 3 * |Hosts(w, r)|
    case Probing(r, _) => 4 + 3 * |Hosts(w, r)|
    case Probed(r, _) => 3 + 3 * |Hosts(w, r)|
    case Failing(_, _) => 1
    case Adding(r, _, own) => if own then 2 + 3 * |Hosts(w, r)| else 1
    case Spawning(r, next) => 1 + 3 * (if next <= |Hosts(w, r)| then |Hosts(w, r)| - next else 0)
    case Done => 0
    case Panicked => 0
  }

  function AllSteps(w: World, tasks: seq<Pc>): (n: nat) {
    if tasks == [] then 0 else AllSteps(w, tasks[..|tasks| - 1]) + Steps(w, tasks[|tasks| - 1])
  }

  /** What the addresses of `all` cost that nobody has come to yet. */
  function Ahead(w: World, all: seq<Res>, seen: set<Res>): (n: nat) {
    if all == [] then 0
    else Ahead(w, all[..|all| - 1], seen) + if all[|all| - 1] in seen then 0 else 6 + 3 * |Hosts(w, all[|all| - 1])|
  }

  function Rank(w: World, all: seq<Res>, s: State): (n: nat) {
    AllSteps(w, s.tasks) + Ahead(w, all, s.seen)
  }

  lemma {:induction false} StepsChange(w: World, tasks: seq<Pc>, i: nat, pc: Pc)
    requires i < |tasks|
    ensures AllSteps(w, tasks[i := pc]) == AllSteps(w, tasks) - Steps(w, tasks[i]) + Steps(w, pc)
    decreases |tasks|
  {
    var last := |tasks| - 1;
    hide Steps;
    if i == last {
      assert tasks[i := pc][..last] == tasks[..last];
    } else {
      assert tasks[i := pc][..last] == tasks[..last][i := pc];
      StepsChange(w, tasks[..last], i, pc);
    }
  }

  lemma StepsMore(w: World, tasks: seq<Pc>, pc: Pc)
    ensures AllSteps(w, tasks + [pc]) == AllSteps(w, tasks) + Steps(w, pc)
  {
    assert (tasks + [pc])[..|tasks|] == tasks;
  }

  lemma {:induction false} AheadSame(w: World, all: seq<Res>, seen: set<Res>, r: Res)
    requires r !in all
    ensures Ahead(w, all, seen + {r}) == Ahead(w, all, seen)
  {
    if all != [] {
      AheadSame(w, all[..|all| - 1], seen, r);
    }
  }

  lemma {:induction false} AheadLess(w: World, all: seq<Res>, seen: set<Res>, r: Res)
    requires Distinct(all) && r in all && r !in seen
    ensures Ahead(w, all, seen + {r}) == Ahead(w, all, seen) - (6 + 3 * |Hosts(w, r)|)
  {
    var init, last := all[..|all| - 1], all[|all| - 1];
    if last == r {
      AheadSame(w, init, seen, r);
    } else {
      AheadLess(w, init, seen, r);
    }
  }

  lemma EnterRank(w: World, all: seq<Res>, s: State, i: nat, r: Res, byMaster: bool)
    requires i < |s.tasks| && s.tasks[i].Spawned? && Distinct(all) && r in all
    ensures Rank(w, all, Enter(s, i, r, byMaster)) < Rank(w, all, s)
  {
    hide AllSteps, Ahead, Hosts, Distinct;
    StepsChange(w, s.tasks, i, Enter(s, i, r, byMaster).tasks[i]);
    if r !in s.seen && !(byMaster && r in s.notYetAdded) {
      AheadLess(w, all, s.seen, r);
    }
  }

  /** Every step brings the end of the round nearer, if there are finitely many addresses to resolve to. */
  lemma StepRank(w: World, all: seq<Res>, s: State, i: nat, unused: Obj)
    requires Enabled(s, i) && Distinct(all)
    requires forall a :: w.resolve(a).Some? ==> w.resolve(a).value in all
    ensures Rank(w, all, Do(w, s, i, unused)) < Rank(w, all, s)
  {
    hide AllSteps, Ahead, Hosts, Distinct, Enter;
    match s.tasks[i] {
      case Spawned(addr, byMaster) =>
        if w.resolve(addr).Some? {
          EnterRank(w, all, s, i, w.resolve(addr).value, byMaster);
        } else {
          StepsChange(w, s.tasks, i, Done);
        }
      case Spawning(r, next) =>
        if next < |Hosts(w, r)| {
          StepsChange(w, s.tasks, i, Spawning(r, next + 1));
          StepsMore(w, s.tasks[i := Spawning(r, next + 1)], Spawned(Hosts(w, r)[next], IsMaster(w, r)));
        } else {
          StepsChange(w, s.tasks, i, Done);
        }
      case _ => QuietRank(w, all, s, i, unused);
    }
  }

  lemma QuietRank(w: World, all: seq<Res>, s: State, i: nat, unused: Obj)
    requires Enabled(s, i) && !s.tasks[i].Spawned? && !s.tasks[i].Spawning?
    ensures Rank(w, all, Do(w, s, i, unused)) < Rank(w, all, s)
  {
    hide AllSteps, Ahead, Hosts, Do, Steps;
    QuietStep(w, s, i, unused);
    StepsChange(w, s.tasks, i, Do(w, s, i, unused).tasks[i]);
  }

  /** A round ends: whatever sessions do meanwhile, its goroutines take a bounded number of steps. */
  lemma {:induction false} RoundEnds(w: World, all: seq<Res>, run: seq<State>)
    requires IsRun(w, run) && Distinct(all)
    requires forall a :: w.resolve(a).Some? ==> w.resolve(a).value in all
    ensures run[|run| - 1].moves + Rank(w, all, run[|run| - 1]) <= Rank(w, all, run[0])
    decreases |run|
  {
    hide Rank, Do, Distinct, Dropped;
    if |run| > 1 {
      var shorter := run[..|run| - 1];
      forall i | 0 <= i < |shorter| - 1 ensures Next(w, shorter[i], shorter[i + 1]) {
        assert Next(w, run[i], run[i + 1]);
      }
      assert IsRun(w, shorter);
      RoundEnds(w, all, shorter);
      var s, s' := run[|run| - 2], run[|run| - 1];
      assert Next(w, s, s');
      if Moved(w, s, s') {
        var i, unused :| Enabled(s, i) && s' == Do(w, s, i, unused).(moves := s.moves + 1);
        StepRank(w, all, s, i, unused);
        SameRank(w, all, Do(w, s, i, unused), s');
      } else {
        var r :| s' == Dropped(s, r);
        DropRank(w, all, s, r);
      }
    } else {
      BeginMoves(w, run);
    }
  }

  lemma SameRank(w: World, all: seq<Res>, s: State, s': State)
    requires s'.tasks == s.tasks && s'.seen == s.seen
    ensures Rank(w, all, s') == Rank(w, all, s)
  {
  }

  lemma DropRank(w: World, all: seq<Res>, s: State, r: Res)
    ensures Rank(w, all, Dropped(s, r)) == Rank(w, all, s) && Dropped(s, r).moves == s.moves
  {
  }

  lemma BeginMoves(w: World, run: seq<State>)
    requires IsRun(w, run)
    ensures run[0].moves == 0
  {
  }

  // ---- who is asked, and who is there at the end

  /** An address the round has reason to come to: one known before it, or one that a server probed with success names, unless
      the connection is a direct one. */
  ghost predicate Origin(w: World, known: seq<Address>, s: State, a: Address) {
    a in known || (!w.direct && exists m :: m in s.found && w.probe(m).Some? && a in w.probe(m).value.hosts)
  }

  ghost predicate From(w: World, known: seq<Address>, s: State, r: Res) {
    exists a :: Origin(w, known, s, a) && w.resolve(a) == Some(r)
  }

  /** Masters spawn for others, and servers are added, only once it is settled that the round is complete. */
  ghost predicate TaskFrom(w: World, known: seq<Address>, s: State, pc: Pc) {
    match pc
    case Spawned(a, byMaster) => Origin(w, known, s, a) && (byMaster ==> s.complete)
    case Spawning(r, _) => r in s.found && (IsMaster(w, r) ==> s.complete)
    case Adding(r, _, _) => r in s.found && s.complete
    case _ => true
  }

  predicate IsFailing(pc: Pc, r: Res) {
    pc.Failing? && pc.res == r
  }

  /** A server whose probe has failed is not there, or about to be removed. */
  ghost predicate FailedOk(w: World, s: State, r: Res) {
    s.probes[r] > 0 && w.probe(r).None? ==> (r !in s.servers && r !in s.masters) || exists i :: 0 <= i < |s.tasks| && IsFailing(s.tasks[i], r)
  }

  ghost predicate Sources(w: World, known: seq<Address>, s: State) {
    && (forall i | 0 <= i < |s.tasks| :: TaskFrom(w, known, s, s.tasks[i]))
    && (forall r | r in s.seen :: From(w, known, s, r))
    && (forall r | r in s.addIfFound :: s.complete)
    && (forall r | s.adds[r] > 0 :: s.complete)
    && (s.complete ==> exists r :: r in s.found && r !in s.notYetAdded)
  }

  ghost predicate AllFailedOk(w: World, s: State) {
    forall r :: FailedOk(w, s, r)
  }

  /** What a step may do to all this. */
  ghost predicate MoreKnown(s: State, s': State) {
    s.found <= s'.found && (s.complete ==> s'.complete)
  }

  lemma TaskStays(w: World, known: seq<Address>, s: State, s': State, pc: Pc)
    requires MoreKnown(s, s') && TaskFrom(w, known, s, pc)
    ensures TaskFrom(w, known, s', pc)
  {
  }

  lemma FromStays(w: World, known: seq<Address>, s: State, s': State, r: Res)
    requires MoreKnown(s, s') && From(w, known, s, r)
    ensures From(w, known, s', r)
  {
    var a :| Origin(w, known, s, a) && w.resolve(a) == Some(r);
    assert Origin(w, known, s', a);
  }

  /** One task goes on, maybe with one more. */
  lemma TasksFrom(w: World, known: seq<Address>, s: State, s': State, i: nat, pc: Pc, more: seq<Pc>)
    requires Sources(w, known, s) && MoreKnown(s, s') && i < |s.tasks| && s'.tasks == s.tasks[i := pc] + more
    requires TaskFrom(w, known, s', pc) && forall k | 0 <= k < |more| :: TaskFrom(w, known, s', more[k])
    ensures forall k | 0 <= k < |s'.tasks| :: TaskFrom(w, known, s', s'.tasks[k])
    ensures forall r | r in s.seen :: From(w, known, s', r)
  {
    hide TaskFrom, MoreKnown, From;
    forall k | 0 <= k < |s'.tasks| ensures TaskFrom(w, known, s', s'.tasks[k]) {
      if k < |s.tasks| && k != i {
        TaskStays(w, known, s, s', s.tasks[k]);
      } else if k >= |s.tasks| {
        assert s'.tasks[k] == more[k - |s.tasks|];
      }
    }
    forall r | r in s.seen ensures From(w, known, s', r) {
      FromStays(w, known, s, s', r);
    }
  }

  lemma EnterSources(w: World, known: seq<Address>, s: State, i: nat, a: Address, byMaster: bool, r: Res)
    requires AboutOk(w, r, AboutOf(s, r)) && Sources(w, known, s) && i < |s.tasks| && s.tasks[i] == Spawned(a, byMaster) && w.resolve(a) == Some(r)
    ensures Sources(w, known, Enter(s, i, r, byMaster))
  {
    var s' := Enter(s, i, r, byMaster);
    assert TaskFrom(w, known, s, s.tasks[i]);
    assert s'.tasks == s.tasks[i := s'.tasks[i]] + [];
    assert Origin(w, known, s', a);
    hide IsMaster, Hosts, Origin;
    TasksFrom(w, known, s, s', i, s'.tasks[i], []);
    assert From(w, known, s', r);
    hide TaskFrom, From;
    if s.complete {
      var q :| q in s.found && q !in s.notYetAdded;
      assert q in s'.found && q !in s'.notYetAdded;
    }
  }

  lemma ProbedSources(w: World, known: seq<Address>, s: State, i: nat, unused: Obj)
    requires AboutsOk(w, s) && KeysOk(w, s) && Sources(w, known, s) && Enabled(s, i) && s.tasks[i].Probed?
    ensures Sources(w, known, Do(w, s, i, unused))
  {
    var s' := Do(w, s, i, unused);
    var r := s.tasks[i].res;
    assert KeyOk(w, s.tasks[i], AboutOf(s, r)) && AboutOk(w, r, AboutOf(s, r));
    hide AboutsOk, KeysOk, AboutOk, Origin, Hosts;
    assert s'.tasks == s.tasks[i := s'.tasks[i]] + [];
    TasksFrom(w, known, s, s', i, s'.tasks[i], []);
    hide TaskFrom, From, IsMaster;
    assert r !in s.found && r !in s.notYetAdded;
    if s.complete {
      var q :| q in s.found && q !in s.notYetAdded;
      assert q in s'.found && q !in s'.notYetAdded;
    }
    if s'.complete && !s.complete {
      assert r in s'.found && r !in s'.notYetAdded;
    }
  }

  lemma SpawningSources(w: World, known: seq<Address>, s: State, i: nat, unused: Obj)
    requires AboutsOk(w, s) && Sources(w, known, s) && Enabled(s, i) && s.tasks[i].Spawning?
    ensures Sources(w, known, Do(w, s, i, unused))
  {
    var s' := Do(w, s, i, unused);
    var r, next := s.tasks[i].res, s.tasks[i].next;
    assert TaskFrom(w, known, s, s.tasks[i]);
    assert AboutOk(w, r, AboutOf(s, r));
    hide AboutsOk, AboutOk, AboutOf;
    if next < |Hosts(w, r)| {
      assert w.probe(r).value.hosts[next] in w.probe(r).value.hosts;
      TasksFrom(w, known, s, s', i, Spawning(r, next + 1), [Spawned(Hosts(w, r)[next], IsMaster(w, r))]);
    } else {
      assert s'.tasks == s.tasks[i := s'.tasks[i]] + [];
      TasksFrom(w, known, s, s', i, s'.tasks[i], []);
    }
  }

  lemma OtherSources(w: World, known: seq<Address>, s: State, i: nat, unused: Obj)
    requires Inv(w, s) && Sources(w, known, s) && Enabled(s, i) && !s.tasks[i].Spawned? && !s.tasks[i].Spawning? && !s.tasks[i].Probed?
    ensures Sources(w, known, Do(w, s, i, unused))
  {
    var s' := Do(w, s, i, unused);
    assert TaskFrom(w, known, s, s.tasks[i]);
    hide Inv, Origin, From, Hosts;
    assert s'.tasks == s.tasks[i := s'.tasks[i]] + [];
    TasksFrom(w, known, s, s', i, s'.tasks[i], []);
  }

  lemma SourcesKeep(w: World, known: seq<Address>, s: State, i: nat, unused: Obj)
    requires Inv(w, s) && Sources(w, known, s) && Enabled(s, i)
    ensures Sources(w, known, Do(w, s, i, unused))
  {
    hide Sources, Enter, Added, AboutOk, AllSettled, KeysOk, KeysDistinct, AboutOf;
    match s.tasks[i] {
      case Spawned(a, byMaster) =>
        if w.resolve(a).Some? {
          EnterSources(w, known, s, i, a, byMaster, w.resolve(a).value);
        } else {
          EndsSources(w, known, s, i);
        }
      case Spawning(r, next) => SpawningSources(w, known, s, i, unused);
      case Probed(r, o) => ProbedSources(w, known, s, i, unused);
      case _ => OtherSources(w, known, s, i, unused);
    }
  }

  lemma EndsSources(w: World, known: seq<Address>, s: State, i: nat)
    requires Sources(w, known, s) && i < |s.tasks|
    ensures Sources(w, known, Go(s, i, Done))
  {
    hide Origin, From, Hosts;
    assert Go(s, i, Done).tasks == s.tasks[i := Done] + [];
    TasksFrom(w, known, s, Go(s, i, Done), i, Done, []);
  }

  ghost predicate GoesOn(s: State, s': State, i: nat) {
    && |s'.tasks| >= |s.tasks| && (forall j | 0 <= j < |s.tasks| && j != i :: s'.tasks[j] == s.tasks[j])
    && (i < |s.tasks| && !s.tasks[i].Probing? && !s.tasks[i].Failing? && !s.tasks[i].Adding? ==>
          s'.servers == s.servers && s'.masters == s.masters && s'.probes == s.probes)
  }

  lemma OthersGoOn(w: World, s: State, i: nat, unused: Obj)
    requires Enabled(s, i)
    ensures GoesOn(s, Do(w, s, i, unused), i)
  {
    hide IsMaster, Hosts, GoesOn, Enter;
    match s.tasks[i] {
      case Spawned(a, byMaster) => SpawnedGoesOn(w, s, i, unused);
      case Spawning(r, next) => SpawningGoesOn(w, s, i, unused);
      case _ => ServedGoesOn(w, s, i, unused);
    }
  }

  lemma SpawnedGoesOn(w: World, s: State, i: nat, unused: Obj)
    requires Enabled(s, i) && s.tasks[i].Spawned?
    ensures GoesOn(s, Do(w, s, i, unused), i)
  {
  }

  lemma SpawningGoesOn(w: World, s: State, i: nat, unused: Obj)
    requires Enabled(s, i) && s.tasks[i].Spawning?
    ensures GoesOn(s, Do(w, s, i, unused), i)
  {
    hide IsMaster, Hosts;
    var s', r, next := Do(w, s, i, unused), s.tasks[i].res, s.tasks[i].next;
    if next < |Hosts(w, r)| {
      assert s'.tasks == s.tasks[i := Spawning(r, next + 1)] + [Spawned(Hosts(w, r)[next], IsMaster(w, r))];
    }
  }

  lemma ServedGoesOn(w: World, s: State, i: nat, unused: Obj)
    requires Enabled(s, i) && !s.tasks[i].Spawned? && !s.tasks[i].Spawning?
    ensures GoesOn(s, Do(w, s, i, unused), i)
  {
    hide IsMaster, Hosts;
  }

  lemma FailedKeeps(w: World, s: State, i: nat, unused: Obj)
    requires Inv(w, s) && AllFailedOk(w, s) && Enabled(s, i)
    ensures AllFailedOk(w, Do(w, s, i, unused))
  {
    var s' := Do(w, s, i, unused);
    forall r ensures FailedOk(w, s', r) {
      hide Inv, Do;
      assert FailedOk(w, s, r);
      OthersGoOn(w, s, i, unused);
      if s.tasks[i].Probing? || s.tasks[i].Failing? || s.tasks[i].Adding? {
        FailedStep(w, s, i, unused, r);
      } else {
        FailedElsewhere(w, s, s', i, r);
      }
    }
  }

  lemma FailedElsewhere(w: World, s: State, s': State, i: nat, r: Res)
    requires FailedOk(w, s, r) && i < |s.tasks| <= |s'.tasks| && !s.tasks[i].Failing?
    requires forall j | 0 <= j < |s.tasks| && j != i :: s'.tasks[j] == s.tasks[j]
    requires s'.probes[r] == s.probes[r] && (r in s'.servers ==> r in s.servers) && (r in s'.masters ==> r in s.masters)
    ensures FailedOk(w, s', r)
  {
    if j :| 0 <= j < |s.tasks| && IsFailing(s.tasks[j], r) {
      assert IsFailing(s'.tasks[j], r);
    }
  }

  lemma FailedStep(w: World, s: State, i: nat, unused: Obj, r: Res)
    requires Inv(w, s) && FailedOk(w, s, r) && Enabled(s, i) && (s.tasks[i].Probing? || s.tasks[i].Failing? || s.tasks[i].Adding?)
    ensures FailedOk(w, Do(w, s, i, unused), r)
  {
    hide Hosts, KeyOk, AboutOk, AboutOf;
    var s', q := Do(w, s, i, unused), s.tasks[i].res;
    OthersGoOn(w, s, i, unused);
    if s.tasks[i].Adding? {
      NotPanicking(w, s, i);
    }
    if q == r {
      if s.tasks[i].Probing? && w.probe(r).None? {
        assert IsFailing(s'.tasks[i], r);
      }
    } else if s.probes[r] > 0 && w.probe(r).None? && !(r !in s.servers && r !in s.masters) {
      var j :| 0 <= j < |s.tasks| && IsFailing(s.tasks[j], r);
      assert IsFailing(s'.tasks[j], r);
    }
  }

  lemma NotPanicking(w: World, s: State, i: nat)
    requires Inv(w, s) && i < |s.tasks| && s.tasks[i].Adding?
    ensures var r, o := s.tasks[i].res, s.tasks[i].obj; w.probe(r).Some? && (r in s.servers ==> s.servers[r] == o)
  {
    hide AllSettled, KeysDistinct;
    var r := s.tasks[i].res;
    assert AboutOk(w, r, AboutOf(s, r)) && KeyOk(w, s.tasks[i], AboutOf(s, r));
  }

  lemma DroppedSources(w: World, known: seq<Address>, s: State, r: Res)
    requires Sources(w, known, s) && AllFailedOk(w, s)
    ensures Sources(w, known, Dropped(s, r)) && AllFailedOk(w, Dropped(s, r))
  {
    var s' := Dropped(s, r);
    forall q | q in s.seen ensures From(w, known, s', q) {
      FromStays(w, known, s, s', q);
    }
    forall q ensures FailedOk(w, s', q) {
      assert FailedOk(w, s, q);
    }
    assert forall i | 0 <= i < |s.tasks| :: TaskFrom(w, known, s, s.tasks[i]);
  }

  lemma {:induction false} RunSources(w: World, run: seq<State>, n: nat, known: seq<Address>, servers: map<Res, Obj>, masters: set<Res>)
    requires IsRun(w, run) && n < |run| && run[0] == Begin(known, servers, masters)
    ensures Sources(w, known, run[n]) && AllFailedOk(w, run[n])
  {
    hide Inv, HostsOk, Do, Sources, AllFailedOk;
    if n == 0 {
      BeginSources(w, known, servers, masters);
    } else {
      RunSources(w, run, n - 1, known, servers, masters);
      RunInv(w, run, n - 1);
      assert Next(w, run[n - 1], run[n]);
      if Moved(w, run[n - 1], run[n]) {
        var i, unused :| Enabled(run[n - 1], i) && run[n] == Do(w, run[n - 1], i, unused).(moves := run[n - 1].moves + 1);
        SourcesKeep(w, known, run[n - 1], i, unused);
        FailedKeeps(w, run[n - 1], i, unused);
        SameSources(w, known, Do(w, run[n - 1], i, unused), run[n]);
      } else {
        var r :| run[n] == Dropped(run[n - 1], r);
        DroppedSources(w, known, run[n - 1], r);
      }
    }
  }

  lemma BeginSources(w: World, known: seq<Address>, servers: map<Res, Obj>, masters: set<Res>)
    ensures Sources(w, known, Begin(known, servers, masters)) && AllFailedOk(w, Begin(known, servers, masters))
  {
  }

  lemma SameSources(w: World, known: seq<Address>, s: State, s': State)
    requires Sources(w, known, s) && AllFailedOk(w, s) && s' == s.(moves := s'.moves)
    ensures Sources(w, known, s') && AllFailedOk(w, s')
  {
    forall q | q in s.seen ensures From(w, known, s', q) {
      FromStays(w, known, s, s', q);
    }
    forall q ensures FailedOk(w, s', q) {
      assert FailedOk(w, s, q);
    }
    assert forall i | 0 <= i < |s.tasks| :: TaskFrom(w, known, s, s.tasks[i]);
  }

  /** No server is asked without a reason. */
  lemma OnlyNamedAreAsked(w: World, run: seq<State>, n: nat, r: Res, known: seq<Address>, servers: map<Res, Obj>, masters: set<Res>)
    requires IsRun(w, run) && n < |run| && run[0] == Begin(known, servers, masters) && r in run[n].seen
    ensures exists a :: w.resolve(a) == Some(r) && (a in known || (!w.direct && exists m :: m in run[n].found && w.probe(m).Some? && a in w.probe(m).value.hosts))
  {
    RunSources(w, run, n, known, servers, masters);
    hide IsRun;
    var a :| Origin(w, known, run[n], a) && w.resolve(a) == Some(r);
  }

  /** Who is there after a round: of those it has come to, the ones added, as long as no session removes them; after a partial
      round, in which nobody was added, also the ones that could be reached and were there before, none of them as a master; and
      none that could not be reached. */
  lemma ThereAtTheEnd(w: World, run: seq<State>, n: nat, r: Res)
    requires IsRun(w, run) && n < |run| && AllDone(run[n]) && r in run[n].seen
    ensures var s, f := run[n], Finished(run[n]);
      && (w.probe(r).None? ==> r !in f.servers && r !in f.masters)
      && (s.adds[r] == 1 ==> (r in f.servers <==> r !in s.gone))
      && (w.probe(r).Some? && s.adds[r] == 0 ==>
            if exists q :: s.adds[q] > 0 then r !in f.servers && r !in f.masters
            else (r in f.servers <==> r in s.servers) && (r in f.servers ==> r !in f.masters))
  {
    var known, servers, masters :| run[0] == Begin(known, servers, masters);
    RunInv(w, run, n);
    RunSources(w, run, n, known, servers, masters);
    hide IsRun, HostsOk;
    DoneIsDone(w, run[n], r);
    CompleteIs(w, known, run[n]);
    assert FailedOk(w, run[n], r);
    NoneFails(run[n], r);
    hide Inv, Sources, AllFailedOk, FailedOk;
  }

  lemma NoneFails(s: State, r: Res)
    requires AllDone(s)
    ensures forall i | 0 <= i < |s.tasks| :: !IsFailing(s.tasks[i], r)
  {
  }

  /** A round is complete exactly if somebody has been added. */
  lemma CompleteIs(w: World, known: seq<Address>, s: State)
    requires Inv(w, s) && Sources(w, known, s) && AllDone(s)
    ensures s.complete <==> exists q :: s.adds[q] > 0
  {
    hide AllSettled, KeysOk, KeysDistinct, AboutsOk, TaskFrom, From;
    if s.complete {
      var q :| q in s.found && q !in s.notYetAdded;
      DoneIsDone(w, s, q);
      assert s.adds[q] > 0;
    }
  }
}
