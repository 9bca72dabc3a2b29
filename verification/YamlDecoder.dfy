/** The decoder: turns a node tree into a value, following aliases to the nodes they refer to.

    The target is an empty interface, so mappings become maps from any value to
    any value, and a merge key copies entries into such a map. */
module YamlDecoder {
  import opened Basics
  import opened YamlEvents
  import opened YamlComposer

  // A resolved scalar is a tag and the text that its value is written as.
  datatype Value = Nil | Atom(tag: string, text: string) | List(items: seq<Value>) | Dict(entries: map<Value, Value>)

  // What resolve() makes of a tag and a text; it panics on a text that does not fit its tag.
  datatype Resolved = Mismatch | Null | Resolved(tag: string, text: string)

  type Resolver = (string, string) -> Resolved

  type Anchors = map<string, Node>

  const STR_TAG := "tag:yaml.org,2002:str"
  const MERGE_TAG := "tag:yaml.org,2002:merge"

  // ---- the meaning of a node, without anchors: its aliases are unfolded

  // A tree in which each alias holds the tree of the node it refers to.
  datatype Unfolded =
    | Leaf(tag: string, value: string, implicit: bool)
    | Ref(name: string, target: Unfolded)
    | Items(items: seq<Unfolded>)
    | Pairs(children: seq<Unfolded>)

  /** `u` is the finite tree that `n` unfolds to. */
  ghost predicate Unfolds(anchors: Anchors, n: Node, u: Unfolded)
    decreases u
  {
    match n
    case ScalarNode(_, tag, value, implicit) => u == Leaf(tag, value, implicit)
    case AliasNode(_, name) => u.Ref? && u.name == name && name in anchors && Unfolds(anchors, anchors[name], u.target)
    case SequenceNode(_, children) =>
      u.Items? && |u.items| == |children| && forall i | 0 <= i < |children| :: Unfolds(anchors, children[i], u.items[i])
    case MappingNode(_, children) =>
      u.Pairs? && |u.children| == |children| && forall i | 0 <= i < |children| :: Unfolds(anchors, children[i], u.children[i])
  }

  function ScalarMeaning(resolve: Resolver, tag: string, value: string, implicit: bool): (r: Outcome<Value>) {
    if tag == "" && !implicit then Composed(Atom(STR_TAG, value))
    else match resolve(tag, value)
      case Mismatch => Failed
      case Null => Composed(Nil)
      case Resolved(t, text) => Composed(Atom(t, text))
  }

  function Meaning(resolve: Resolver, u: Unfolded): (r: Outcome<Value>)
    ensures !r.Unexpected?
    decreases u, 1
  {
    match u
    case Leaf(tag, value, implicit) => ScalarMeaning(resolve, tag, value, implicit)
    case Ref(_, target) => Meaning(resolve, target)
    case Items(items) =>
      var r := MeaningAll(resolve, items);
      if r.Composed? then Composed(List(r.value)) else Failed
    case Pairs(children) =>
      var r := Entries(resolve, children, map[]);
      if r.Composed? then Composed(Dict(r.value)) else Failed
  }

  function MeaningAll(resolve: Resolver, us: seq<Unfolded>): (r: Outcome<seq<Value>>)
    ensures !r.Unexpected?
    decreases us, 0
  {
    if us == [] then Composed([])
    else
      var init := MeaningAll(resolve, us[..|us| - 1]);
      var last := Meaning(resolve, us[|us| - 1]);
      if init.Composed? && last.Composed? then Composed(init.value + [last.value]) else Failed
  }

  predicate MergeKey(u: Unfolded) {
    u.Leaf? && u.value == "<<" && (u.implicit || u.tag == MERGE_TAG)
  }

  /** The entries of a mapping, in order, on top of `m`. */
  function Entries(resolve: Resolver, us: seq<Unfolded>, m: map<Value, Value>): (r: Outcome<map<Value, Value>>)
    ensures !r.Unexpected?
    decreases us, 0
  {
    if |us| < 2 then Composed(m)
    else
      var before := Entries(resolve, us[..|us| - 2], m);
      if !before.Composed? then Failed
      else if MergeKey(us[|us| - 2]) then Merged(resolve, us[|us| - 1], before.value)
      else
        var key := Meaning(resolve, us[|us| - 2]);
        if !key.Composed? || key.value.List? || key.value.Dict? then Failed
        else
          var value := Meaning(resolve, us[|us| - 1]);
          if value.Composed? then Composed(before.value[key.value := value.value]) else Failed
  }

  /** The entries of `u`, itself a mapping or a reference to one, on top of `m`. */
  function MergedOne(resolve: Resolver, u: Unfolded, m: map<Value, Value>): (r: Outcome<map<Value, Value>>)
    ensures !r.Unexpected?
    decreases u, 1
  {
    match u
    case Pairs(children) => Entries(resolve, children, m)
    case Ref(_, target) => if target.Pairs? then Entries(resolve, target.children, m) else Failed
    case _ => Failed
  }

  /** The value of a merge key on top of `m`. */
  function Merged(resolve: Resolver, u: Unfolded, m: map<Value, Value>): (r: Outcome<map<Value, Value>>)
    ensures !r.Unexpected?
    decreases u, 2
  {
    if u.Items? then MergedAll(resolve, u.items, m) else MergedOne(resolve, u, m)
  }

  /** Backwards, so that earlier mappings win. */
  function MergedAll(resolve: Resolver, us: seq<Unfolded>, m: map<Value, Value>): (r: Outcome<map<Value, Value>>)
    ensures !r.Unexpected?
    decreases us, 0
  {
    if us == [] then Composed(m)
    else
      var last := MergedOne(resolve, us[|us| - 1], m);
      if last.Composed? then MergedAll(resolve, us[..|us| - 1], last.value) else Failed
  }

  /** What decoding gives with the target `out`: a fresh one, or a map being merged into. */
  function Decoded(resolve: Resolver, u: Unfolded, out: Option<map<Value, Value>>): (r: Outcome<Value>) {
    if out.None? then Meaning(resolve, u)
    else
      var r := MergedOne(resolve, u, out.value);
      if r.Composed? then Composed(Dict(r.value)) else Failed
  }

  // ---- finite unfoldings

  function Size(u: Unfolded): (r: nat)
    ensures r > 0
    decreases u, 1
  {
    match u
    case Leaf(_, _, _) => 1
    case Ref(_, target) => 1 + Size(target)
    case Items(items) => 1 + SizeAll(items)
    case Pairs(children) => 1 + SizeAll(children)
  }

  function SizeAll(us: seq<Unfolded>): (r: nat)
    decreases us, 0
  {
    if us == [] then 0 else SizeAll(us[..|us| - 1]) + Size(us[|us| - 1])
  }

  lemma {:induction false} SizeOfOne(us: seq<Unfolded>, i: nat)
    requires i < |us|
    ensures Size(us[i]) <= SizeAll(us)
    decreases |us|
  {
    if i < |us| - 1 {
      SizeOfOne(us[..|us| - 1], i);
    }
  }

  /** A node unfolds to one tree only. */
  lemma {:induction false} UnfoldsToOne(anchors: Anchors, n: Node, u: Unfolded, v: Unfolded)
    requires Unfolds(anchors, n, u) && Unfolds(anchors, n, v)
    ensures u == v
    decreases u
  {
    match n {
      case ScalarNode(_, _, _, _) =>
      case AliasNode(_, name) => UnfoldsToOne(anchors, anchors[name], u.target, v.target);
      case SequenceNode(_, children) =>
        forall i | 0 <= i < |children| ensures u.items[i] == v.items[i] {
          UnfoldsToOne(anchors, children[i], u.items[i], v.items[i]);
        }
      case MappingNode(_, children) =>
        forall i | 0 <= i < |children| ensures u.children[i] == v.children[i] {
          UnfoldsToOne(anchors, children[i], u.children[i], v.children[i]);
        }
    }
  }

  /** Each anchor being resolved unfolds to a tree that is larger than `size`. */
  ghost predicate Enclosed(anchors: Anchors, busy: set<string>, size: nat) {
    forall b | b in busy :: b in anchors && exists u :: Unfolds(anchors, anchors[b], u) && Size(u) >= size
  }

  /** An anchor being resolved is not met again where there is a finite unfolding. */
  lemma NotBusy(anchors: Anchors, busy: set<string>, name: string, u: Unfolded)
    requires name in anchors && Unfolds(anchors, anchors[name], u) && Enclosed(anchors, busy, 1 + Size(u))
    ensures name !in busy
    ensures Enclosed(anchors, busy + {name}, Size(u))
  {
    if name in busy {
      var v :| Unfolds(anchors, anchors[name], v) && Size(v) >= 1 + Size(u);
      UnfoldsToOne(anchors, anchors[name], u, v);
    }
    forall b | b in busy + {name} ensures b in anchors && exists v :: Unfolds(anchors, anchors[b], v) && Size(v) >= Size(u) {
      if b in busy {
        var v :| Unfolds(anchors, anchors[b], v) && Size(v) >= 1 + Size(u);
        assert Size(v) >= Size(u);
      }
    }
  }

  lemma EnclosedSmaller(anchors: Anchors, busy: set<string>, size: nat, smaller: nat)
    requires Enclosed(anchors, busy, size) && smaller <= size
    ensures Enclosed(anchors, busy, smaller)
  {
    forall b | b in busy ensures b in anchors && exists u :: Unfolds(anchors, anchors[b], u) && Size(u) >= smaller {
      var u :| Unfolds(anchors, anchors[b], u) && Size(u) >= size;
      assert Size(u) >= smaller;
    }
  }

  /** A tree inside of itself is not finite: an anchor whose value contains an alias to it does not unfold. */
  ghost predicate RefersTo(u: Unfolded, name: string)
    decreases u
  {
    match u
    case Leaf(_, _, _) => false
    case Ref(n, target) => n == name || RefersTo(target, name)
    case Items(items) => exists i | 0 <= i < |items| :: RefersTo(items[i], name)
    case Pairs(children) => exists i | 0 <= i < |children| :: RefersTo(children[i], name)
  }

  lemma {:induction false} ReferenceIsInside(anchors: Anchors, n: Node, u: Unfolded, name: string)
    requires Unfolds(anchors, n, u) && RefersTo(u, name)
    ensures name in anchors && exists v :: Unfolds(anchors, anchors[name], v) && Size(v) < Size(u)
    decreases u
  {
    match n {
      case ScalarNode(_, _, _, _) =>
      case AliasNode(_, a) =>
        if a != name {
          ReferenceIsInside(anchors, anchors[a], u.target, name);
          var v :| Unfolds(anchors, anchors[name], v) && Size(v) < Size(u.target);
          assert Size(v) < Size(u);
        } else {
          assert Size(u.target) < Size(u);
        }
      case SequenceNode(_, children) =>
        var i :| 0 <= i < |children| && RefersTo(u.items[i], name);
        ReferenceIsInside(anchors, children[i], u.items[i], name);
        SizeOfOne(u.items, i);
        var v :| Unfolds(anchors, anchors[name], v) && Size(v) < Size(u.items[i]);
        assert Size(v) < Size(u);
      case MappingNode(_, children) =>
        var i :| 0 <= i < |children| && RefersTo(u.children[i], name);
        ReferenceIsInside(anchors, children[i], u.children[i], name);
        SizeOfOne(u.children, i);
        var v :| Unfolds(anchors, anchors[name], v) && Size(v) < Size(u.children[i]);
        assert Size(v) < Size(u);
    }
  }

  /** An anchor's own value never refers to it. */
  lemma NoSelfReference(anchors: Anchors, name: string, u: Unfolded)
    requires name in anchors && Unfolds(anchors, anchors[name], u)
    ensures !RefersTo(u, name)
  {
    if RefersTo(u, name) {
      ReferenceIsInside(anchors, anchors[name], u, name);
      var v :| Unfolds(anchors, anchors[name], v) && Size(v) < Size(u);
      UnfoldsToOne(anchors, anchors[name], u, v);
    }
  }

  // ---- exactly when there is a finite unfolding

  /** An alias for `name` is in the tree of `n`. */
  ghost predicate Mentions(n: Node, name: string) {
    match n
    case ScalarNode(_, _, _, _) => false
    case AliasNode(_, a) => a == name
    case SequenceNode(_, children) => exists i | 0 <= i < |children| :: Mentions(children[i], name)
    case MappingNode(_, children) => exists i | 0 <= i < |children| :: Mentions(children[i], name)
  }

  /** Names met one behind the other when following aliases from `n`. */
  ghost predicate IsTrail(anchors: Anchors, n: Node, trail: seq<string>) {
    && trail != [] && Mentions(n, trail[0])
    && forall i | 0 <= i < |trail| - 1 :: trail[i] in anchors && Mentions(anchors[trail[i]], trail[i + 1])
  }

  /** No alias reached from `n` has an unknown anchor or an anchor whose value contains itself. */
  ghost predicate Resolvable(anchors: Anchors, n: Node) {
    forall trail | IsTrail(anchors, n, trail) ::
      trail[|trail| - 1] in anchors && trail[|trail| - 1] !in trail[..|trail| - 1]
  }

  lemma {:induction false} MentionUnfolds(anchors: Anchors, n: Node, u: Unfolded, name: string)
    requires Unfolds(anchors, n, u) && Mentions(n, name)
    ensures RefersTo(u, name)
    decreases u
  {
    match n {
      case ScalarNode(_, _, _, _) =>
      case AliasNode(_, _) =>
      case SequenceNode(_, children) =>
        var i :| 0 <= i < |children| && Mentions(children[i], name);
        MentionUnfolds(anchors, children[i], u.items[i], name);
      case MappingNode(_, children) =>
        var i :| 0 <= i < |children| && Mentions(children[i], name);
        MentionUnfolds(anchors, children[i], u.children[i], name);
    }
  }

  /** The trees along a trail get smaller. */
  lemma {:induction false} TrailUnfolds(anchors: Anchors, n: Node, u: Unfolded, trail: seq<string>) returns (vs: seq<Unfolded>)
    requires Unfolds(anchors, n, u) && IsTrail(anchors, n, trail)
    ensures |vs| == |trail|
    ensures forall i | 0 <= i < |trail| :: trail[i] in anchors && Unfolds(anchors, anchors[trail[i]], vs[i]) && Size(vs[i]) < Size(u)
    ensures forall i, j | 0 <= i < j < |trail| :: Size(vs[j]) < Size(vs[i])
    decreases |trail|
  {
    MentionUnfolds(anchors, n, u, trail[0]);
    ReferenceIsInside(anchors, n, u, trail[0]);
    var v :| Unfolds(anchors, anchors[trail[0]], v) && Size(v) < Size(u);
    if |trail| == 1 {
      vs := [v];
    } else {
      var rest := TrailUnfolds(anchors, anchors[trail[0]], v, trail[1..]);
      vs := [v] + rest;
      forall i | 0 <= i < |trail|
        ensures trail[i] in anchors && Unfolds(anchors, anchors[trail[i]], vs[i]) && Size(vs[i]) < Size(u)
      {
        if i > 0 {
          assert trail[i] == trail[1..][i - 1] && vs[i] == rest[i - 1];
        }
      }
    }
  }

  lemma UnfoldingResolves(anchors: Anchors, n: Node, u: Unfolded)
    requires Unfolds(anchors, n, u)
    ensures Resolvable(anchors, n)
  {
    forall trail | IsTrail(anchors, n, trail)
      ensures trail[|trail| - 1] in anchors && trail[|trail| - 1] !in trail[..|trail| - 1]
    {
      var vs := TrailUnfolds(anchors, n, u, trail);
      var last := |trail| - 1;
      if trail[last] in trail[..last] {
        var i :| 0 <= i < last && trail[i] == trail[last];
        UnfoldsToOne(anchors, anchors[trail[i]], vs[i], vs[last]);
      }
    }
  }

  /** No trail from `n` ends in `busy`. */
  ghost predicate Apart(anchors: Anchors, n: Node, busy: set<string>) {
    forall trail | IsTrail(anchors, n, trail) :: trail[|trail| - 1] !in busy
  }

  lemma ResolvableChild(anchors: Anchors, n: Node, children: seq<Node>, i: nat, busy: set<string>)
    requires Resolvable(anchors, n) && Apart(anchors, n, busy) && i < |children|
    requires n == SequenceNode(n.number, children) || n == MappingNode(n.number, children)
    ensures Resolvable(anchors, children[i]) && Apart(anchors, children[i], busy)
  {
    forall trail | IsTrail(anchors, children[i], trail)
      ensures trail[|trail| - 1] in anchors && trail[|trail| - 1] !in trail[..|trail| - 1] && trail[|trail| - 1] !in busy
    {
      assert IsTrail(anchors, n, trail);
    }
  }

  lemma ResolvableTarget(anchors: Anchors, n: Node, busy: set<string>)
    requires Resolvable(anchors, n) && Apart(anchors, n, busy) && n.AliasNode?
    ensures n.name in anchors && n.name !in busy
    ensures Resolvable(anchors, anchors[n.name]) && Apart(anchors, anchors[n.name], busy + {n.name})
  {
    assert IsTrail(anchors, n, [n.name]);
    forall trail | IsTrail(anchors, anchors[n.name], trail)
      ensures trail[|trail| - 1] in anchors && trail[|trail| - 1] !in trail[..|trail| - 1]
      ensures trail[|trail| - 1] !in busy + {n.name}
    {
      var longer := [n.name] + trail;
      assert IsTrail(anchors, n, longer);
      assert longer[|longer| - 1] == trail[|trail| - 1] && longer[0] == n.name;
      forall i | 0 <= i < |trail| - 1 ensures trail[i] in longer[..|longer| - 1] {
        assert longer[i + 1] == trail[i];
      }
    }
  }

  lemma OneLess(all: set<string>, busy: set<string>, name: string)
    requires name in all && name !in busy
    ensures |all - (busy + {name})| < |all - busy|
  {
    assert all - (busy + {name}) == (all - busy) - {name};
  }

  lemma Unfold(anchors: Anchors, n: Node, busy: set<string>) returns (u: Unfolded)
    requires Resolvable(anchors, n) && Apart(anchors, n, busy)
    ensures Unfolds(anchors, n, u)
    decreases |anchors.Keys - busy|, n
  {
    match n {
      case ScalarNode(_, tag, value, implicit) => u := Leaf(tag, value, implicit);
      case AliasNode(_, name) =>
        ResolvableTarget(anchors, n, busy);
        OneLess(anchors.Keys, busy, name);
        var target := Unfold(anchors, anchors[name], busy + {name});
        u := Ref(name, target);
      case SequenceNode(_, children) =>
        var us := UnfoldAll(anchors, n, children, busy);
        u := Items(us);
      case MappingNode(_, children) =>
        var us := UnfoldAll(anchors, n, children, busy);
        u := Pairs(us);
    }
  }

  lemma UnfoldAll(anchors: Anchors, n: Node, children: seq<Node>, busy: set<string>) returns (us: seq<Unfolded>)
    requires Resolvable(anchors, n) && Apart(anchors, n, busy)
    requires n == SequenceNode(n.number, children) || n == MappingNode(n.number, children)
    ensures |us| == |children| && forall i | 0 <= i < |us| :: Unfolds(anchors, children[i], us[i])
    decreases |anchors.Keys - busy|, children
  {
    us := [];
    while |us| < |children|
      invariant |us| <= |children| && forall i | 0 <= i < |us| :: Unfolds(anchors, children[i], us[i])
    {
      ResolvableChild(anchors, n, children, |us|, busy);
      var u := Unfold(anchors, children[|us|], busy);
      us := us + [u];
    }
  }

  ghost predicate Finite(anchors: Anchors, n: Node) {
    exists u :: Unfolds(anchors, n, u)
  }

  /** A node has a finite unfolding exactly when no alias reached from it is unknown or contains itself. */
  lemma UnfoldsWhenResolvable(anchors: Anchors, n: Node)
    ensures Finite(anchors, n) <==> Resolvable(anchors, n)
  {
    if Resolvable(anchors, n) {
      var u := Unfold(anchors, n, {});
    }
    forall u | Unfolds(anchors, n, u) ensures Resolvable(anchors, n) {
      UnfoldingResolves(anchors, n, u);
    }
  }

  // ---- merging

  /** Merging writes over what is there, and does not depend on it. */
  lemma {:induction false} MergingOverrides(resolve: Resolver, us: seq<Unfolded>, m: map<Value, Value>)
    ensures var own := Entries(resolve, us, map[]);
      Entries(resolve, us, m) == if own.Composed? then Composed(m + own.value) else Failed
    decreases us, 0
  {
    if |us| < 2 {
      assert m + map[] == m;
    } else {
      var k, v := us[|us| - 2], us[|us| - 1];
      MergingOverrides(resolve, us[..|us| - 2], m);
      var own := Entries(resolve, us[..|us| - 2], map[]);
      if own.Composed? && MergeKey(k) {
        ValueOverrides(resolve, v, m + own.value);
        ValueOverrides(resolve, v, own.value);
        hide Merged;
        var w := Merged(resolve, v, map[]);
        if w.Composed? {
          assert (m + own.value) + w.value == m + (own.value + w.value);
        }
      } else if own.Composed? {
        var key, value := Meaning(resolve, k), Meaning(resolve, v);
        hide Meaning, Merged;
        if key.Composed? && value.Composed? {
          assert (m + own.value)[key.value := value.value] == m + own.value[key.value := value.value];
        }
      }
    }
  }

  lemma {:induction false} OneOverrides(resolve: Resolver, u: Unfolded, m: map<Value, Value>)
    ensures var own := MergedOne(resolve, u, map[]);
      MergedOne(resolve, u, m) == if own.Composed? then Composed(m + own.value) else Failed
    decreases u, 1
  {
    match u {
      case Pairs(children) => MergingOverrides(resolve, children, m);
      case Ref(_, target) =>
        if target.Pairs? {
          MergingOverrides(resolve, target.children, m);
        }
      case _ =>
    }
  }

  lemma {:induction false} ValueOverrides(resolve: Resolver, u: Unfolded, m: map<Value, Value>)
    ensures var own := Merged(resolve, u, map[]);
      Merged(resolve, u, m) == if own.Composed? then Composed(m + own.value) else Failed
    decreases u, 2
  {
    if u.Items? {
      AllOverride(resolve, u.items, m);
    } else {
      OneOverrides(resolve, u, m);
    }
  }

  lemma {:induction false} AllOverride(resolve: Resolver, us: seq<Unfolded>, m: map<Value, Value>)
    ensures var own := MergedAll(resolve, us, map[]);
      MergedAll(resolve, us, m) == if own.Composed? then Composed(m + own.value) else Failed
    decreases us, 0
  {
    if us == [] {
      assert m + map[] == m;
    } else {
      var init, last := us[..|us| - 1], us[|us| - 1];
      OneOverrides(resolve, last, m);
      var w := MergedOne(resolve, last, map[]);
      if w.Composed? {
        AllOverride(resolve, init, m + w.value);
        AllOverride(resolve, init, w.value);
        var x := MergedAll(resolve, init, map[]);
        if x.Composed? {
          assert (m + w.value) + x.value == m + (w.value + x.value);
        }
      }
    }
  }

  /** Of a list of mappings being merged, the earliest one that has a key provides its value. */
  lemma {:induction false} EarliestWins(resolve: Resolver, us: seq<Unfolded>, i: nat, key: Value)
    requires MergedAll(resolve, us, map[]).Composed? && i < |us|
    requires MergedOne(resolve, us[i], map[]).Composed? && key in MergedOne(resolve, us[i], map[]).value
    requires forall j | 0 <= j < i :: MergedOne(resolve, us[j], map[]).Composed? ==> key !in MergedOne(resolve, us[j], map[]).value
    ensures key in MergedAll(resolve, us, map[]).value
    ensures MergedAll(resolve, us, map[]).value[key] == MergedOne(resolve, us[i], map[]).value[key]
    decreases |us|
  {
    var init, last := us[..|us| - 1], us[|us| - 1];
    var w := MergedOne(resolve, last, map[]);
    AllOverride(resolve, init, w.value);
    if i < |init| {
      EarliestWins(resolve, init, i, key);
    } else {
      hide MergedOne;
      NoneHas(resolve, init, key);
    }
  }

  lemma {:induction false} NoneHas(resolve: Resolver, us: seq<Unfolded>, key: Value)
    requires MergedAll(resolve, us, map[]).Composed?
    requires forall j | 0 <= j < |us| :: MergedOne(resolve, us[j], map[]).Composed? ==> key !in MergedOne(resolve, us[j], map[]).value
    ensures key !in MergedAll(resolve, us, map[]).value
    decreases |us|
  {
    if us != [] {
      var init, last := us[..|us| - 1], us[|us| - 1];
      var w := MergedOne(resolve, last, map[]);
      AllOverride(resolve, init, w.value);
      NoneHas(resolve, init, key);
    }
  }

  // ---- the decoder

  /** Mappings have a value for each key. */
  ghost predicate Paired(n: Node) {
    match n
    case ScalarNode(_, _, _, _) => true
    case AliasNode(_, _) => true
    case SequenceNode(_, children) => forall i | 0 <= i < |children| :: Paired(children[i])
    case MappingNode(_, children) => |children| % 2 == 0 && forall i | 0 <= i < |children| :: Paired(children[i])
  }

  /** A mapping, or an alias that stands for one if it is known. */
  predicate IntoMap(anchors: Anchors, n: Node) {
    n.MappingNode? || (n.AliasNode? && (n.name in anchors ==> anchors[n.name].MappingNode?))
  }

  /** What is known of the unfolding of `n` beforehand. */
  ghost predicate Known(anchors: Anchors, aliases: set<string>, n: Node, g: Option<Unfolded>) {
    g.Some? ==> Unfolds(anchors, n, g.value) && Enclosed(anchors, aliases, Size(g.value))
  }

  lemma KnownTarget(anchors: Anchors, aliases: set<string>, n: Node, g: Option<Unfolded>)
    requires Known(anchors, aliases, n, g) && n.AliasNode? && g.Some?
    ensures n.name in anchors && n.name !in aliases
    ensures Known(anchors, aliases + {n.name}, anchors[n.name], Some(g.value.target))
  {
    NotBusy(anchors, aliases, n.name, g.value.target);
  }

  /** What is known of the children of `n`. */
  ghost predicate KnownAll(anchors: Anchors, aliases: set<string>, children: seq<Node>, g: Option<seq<Unfolded>>) {
    g.Some? ==>
      (|g.value| == |children| && forall i | 0 <= i < |children| :: Known(anchors, aliases, children[i], Some(g.value[i])))
  }

  function ChildrenOf(g: Option<Unfolded>): Option<seq<Unfolded>> {
    if g.Some? && g.value.Items? then Some(g.value.items) else if g.Some? && g.value.Pairs? then Some(g.value.children) else None
  }

  lemma KnownChildren(anchors: Anchors, aliases: set<string>, n: Node, g: Option<Unfolded>)
    requires Known(anchors, aliases, n, g) && (n.SequenceNode? || n.MappingNode?)
    ensures KnownAll(anchors, aliases, n.children, ChildrenOf(g)) && (ChildrenOf(g).Some? <==> g.Some?)
    ensures g.Some? ==> g.value == if n.SequenceNode? then Items(ChildrenOf(g).value) else Pairs(ChildrenOf(g).value)
  {
    if g.Some? {
      var us := ChildrenOf(g).value;
      forall i | 0 <= i < |us| ensures Known(anchors, aliases, n.children[i], Some(us[i])) {
        SizeOfOne(us, i);
        EnclosedSmaller(anchors, aliases, Size(g.value), Size(us[i]));
      }
    }
  }

  function ChildAt(g: Option<seq<Unfolded>>, i: nat): Option<Unfolded> {
    if g.Some? && i < |g.value| then Some(g.value[i]) else None
  }

  /** A child, and what is known of it. */
  lemma KnownChild(anchors: Anchors, aliases: set<string>, n: Node, gs: Option<seq<Unfolded>>, i: nat)
    requires (n.SequenceNode? || n.MappingNode?) && Paired(n) && KnownAll(anchors, aliases, n.children, gs) && i < |n.children|
    ensures Paired(n.children[i]) && Known(anchors, aliases, n.children[i], ChildAt(gs, i))
    ensures n.MappingNode? ==> |n.children| % 2 == 0
  {
  }

  /** `us` are the trees of the first children. */
  ghost predicate Front(anchors: Anchors, children: seq<Node>, g: Option<seq<Unfolded>>, us: seq<Unfolded>) {
    && |us| <= |children|
    && (forall i | 0 <= i < |us| :: Unfolds(anchors, children[i], us[i]))
    && (g.Some? ==> |us| <= |g.value| && us == g.value[..|us|])
  }

  lemma FrontGrows(anchors: Anchors, aliases: set<string>, children: seq<Node>, g: Option<seq<Unfolded>>, us: seq<Unfolded>, u: Unfolded)
    requires Front(anchors, children, g, us) && KnownAll(anchors, aliases, children, g)
    requires |us| < |children| && Unfolds(anchors, children[|us|], u)
    ensures Front(anchors, children, g, us + [u])
    ensures g.Some? ==> g.value[|us|] == u
  {
    if g.Some? {
      assert Known(anchors, aliases, children[|us|], Some(g.value[|us|]));
      UnfoldsToOne(anchors, children[|us|], u, g.value[|us|]);
    }
  }

  lemma FrontComplete(anchors: Anchors, children: seq<Node>, g: Option<seq<Unfolded>>, us: seq<Unfolded>)
    requires Front(anchors, children, g, us) && |us| == |children|
    requires g.Some? ==> |g.value| == |children|
    ensures g.Some? ==> g.value == us
  {
  }

  lemma FrontEmpty(anchors: Anchors, aliases: set<string>, n: Node, g: Option<seq<Unfolded>>)
    requires n.MappingNode? && Paired(n) && KnownAll(anchors, aliases, n.children, g)
    ensures Front(anchors, n.children, g, []) && |n.children| % 2 == 0
    ensures g.Some? ==> |g.value| == |n.children|
  {
  }

  lemma FrontDone(anchors: Anchors, n: Node, g: Option<seq<Unfolded>>, us: seq<Unfolded>)
    requires n.MappingNode? && Front(anchors, n.children, g, us) && |us| == |n.children|
    requires g.Some? ==> |g.value| == |n.children|
    ensures Unfolds(anchors, n, Pairs(us)) && (g.Some? ==> g.value == us)
  {
  }

  lemma DecodedMapping(resolve: Resolver, us: seq<Unfolded>, out: Option<map<Value, Value>>)
    ensures var r := Entries(resolve, us, if out.Some? then out.value else map[]);
      Decoded(resolve, Pairs(us), out) == if r.Composed? then Composed(Dict(r.value)) else Failed
  {
  }

  lemma EntriesFailed(anchors: Anchors, resolve: Resolver, n: Node, g: Option<seq<Unfolded>>,
                      us: seq<Unfolded>, m0: map<Value, Value>, m: map<Value, Value>)
    requires n.MappingNode? && |n.children| % 2 == 0 && (g.Some? ==> |g.value| == |n.children|)
    requires Front(anchors, n.children, g, us) && |us| % 2 == 0 && |us| + 1 < |n.children|
    requires Entries(resolve, us, m0) == Composed(m)
    requires ChildAt(g, |us|).Some? && ChildAt(g, |us| + 1).Some? ==>
               EntryOf(resolve, ChildAt(g, |us|).value, ChildAt(g, |us| + 1).value, m) == Failed
    ensures g.Some? ==> Entries(resolve, g.value, m0) == Failed
  {
    hide Known, Unfolds, Entries, EntryOf;
    if g.Some? {
      EntryFails(resolve, g.value, |us|, m0, m);
    }
  }

  lemma {:induction false} MeaningFails(resolve: Resolver, us: seq<Unfolded>, i: nat)
    requires i < |us| && Meaning(resolve, us[i]) == Failed
    ensures MeaningAll(resolve, us) == Failed
    decreases |us|
  {
    if i < |us| - 1 {
      MeaningFails(resolve, us[..|us| - 1], i);
    }
  }

  lemma {:induction false} EntriesFail(resolve: Resolver, us: seq<Unfolded>, i: nat, m: map<Value, Value>)
    requires i % 2 == 0 && |us| % 2 == 0 && i <= |us| && Entries(resolve, us[..i], m) == Failed
    ensures Entries(resolve, us, m) == Failed
    decreases |us|
  {
    if i == |us| {
      assert us[..i] == us;
    } else {
      assert us[..|us| - 2][..i] == us[..i];
      EntriesFail(resolve, us[..|us| - 2], i, m);
    }
  }

  lemma MeaningStep(resolve: Resolver, us: seq<Unfolded>, u: Unfolded)
    ensures var init, last := MeaningAll(resolve, us), Meaning(resolve, u);
      MeaningAll(resolve, us + [u]) == if init.Composed? && last.Composed? then Composed(init.value + [last.value]) else Failed
  {
    assert (us + [u])[..|us|] == us;
    hide Meaning;
  }

  /** One key and its value on top of `m`. */
  function EntryOf(resolve: Resolver, k: Unfolded, v: Unfolded, m: map<Value, Value>): (r: Outcome<map<Value, Value>>) {
    if MergeKey(k) then Merged(resolve, v, m)
    else
      var key, value := Meaning(resolve, k), Meaning(resolve, v);
      if !key.Composed? || key.value.List? || key.value.Dict? || !value.Composed? then Failed
      else Composed(m[key.value := value.value])
  }

  lemma EntriesStep(resolve: Resolver, us: seq<Unfolded>, k: Unfolded, v: Unfolded, m0: map<Value, Value>, m: map<Value, Value>)
    requires Entries(resolve, us, m0) == Composed(m)
    ensures Entries(resolve, us + [k, v], m0) == EntryOf(resolve, k, v, m)
  {
    assert (us + [k, v])[..|us|] == us;
    hide Meaning, Merged;
  }

  lemma EntryFails(resolve: Resolver, all: seq<Unfolded>, i: nat, m0: map<Value, Value>, m: map<Value, Value>)
    requires i % 2 == 0 && |all| % 2 == 0 && i + 1 < |all|
    requires Entries(resolve, all[..i], m0) == Composed(m) && EntryOf(resolve, all[i], all[i + 1], m) == Failed
    ensures Entries(resolve, all, m0) == Failed
  {
    hide EntryOf, Entries;
    EntriesStep(resolve, all[..i], all[i], all[i + 1], m0, m);
    assert all[..i] + [all[i], all[i + 1]] == all[..i + 2];
    EntriesFail(resolve, all, i + 2, m0);
  }

  lemma EntryGrows(anchors: Anchors, resolve: Resolver, aliases: set<string>, children: seq<Node>, g: Option<seq<Unfolded>>,
                   us: seq<Unfolded>, k: Unfolded, v: Unfolded, m0: map<Value, Value>, m: map<Value, Value>) returns (us': seq<Unfolded>)
    requires Front(anchors, children, g, us) && KnownAll(anchors, aliases, children, g) && |us| + 1 < |children|
    requires Unfolds(anchors, children[|us|], k) && Unfolds(anchors, children[|us| + 1], v)
    requires Entries(resolve, us, m0) == Composed(m)
    ensures Front(anchors, children, g, us') && |us'| == |us| + 2
    ensures Entries(resolve, us', m0) == EntryOf(resolve, k, v, m)
  {
    hide Front, KnownAll, Unfolds, Entries, EntryOf;
    FrontGrows(anchors, aliases, children, g, us, k);
    FrontGrows(anchors, aliases, children, g, us + [k], v);
    EntriesStep(resolve, us, k, v, m0, m);
    us' := us + [k, v];
    assert us + [k] + [v] == us';
  }

  lemma {:induction false} MergedConcat(resolve: Resolver, xs: seq<Unfolded>, ys: seq<Unfolded>, m: map<Value, Value>)
    ensures var r := MergedAll(resolve, ys, m);
      MergedAll(resolve, xs + ys, m) == if r.Composed? then MergedAll(resolve, xs, r.value) else Failed
    decreases |ys|
  {
    if ys == [] {
      assert xs + ys == xs;
    } else {
      assert (xs + ys)[..|xs + ys| - 1] == xs + ys[..|ys| - 1];
      var w := MergedOne(resolve, ys[|ys| - 1], m);
      hide MergedOne;
      if w.Composed? {
        MergedConcat(resolve, xs, ys[..|ys| - 1], w.value);
      }
    }
  }

  lemma MergedStep(resolve: Resolver, u: Unfolded, us: seq<Unfolded>, m0: map<Value, Value>, m: map<Value, Value>)
    requires MergedAll(resolve, us, m0) == Composed(m)
    ensures MergedAll(resolve, [u] + us, m0) == MergedOne(resolve, u, m)
  {
    MergedConcat(resolve, [u], us, m0);
    assert [u][..0] == [];
    hide MergedOne;
  }

  /** The number of anchors that are not being resolved. */
  ghost function Unresolved(anchors: Anchors, aliases: set<string>): (r: nat) {
    |anchors.Keys - aliases|
  }

  lemma UnresolvedLess(anchors: Anchors, aliases: set<string>, name: string)
    requires name in anchors && name !in aliases
    ensures Unresolved(anchors, aliases + {name}) < Unresolved(anchors, aliases)
  {
    OneLess(anchors.Keys, aliases, name);
  }

  class Decoder {
    const anchors: Anchors
    const resolve: Resolver
    // the anchors being resolved
    var aliases: set<string>

    constructor (anchors: Anchors, resolve: Resolver)
      ensures this.anchors == anchors && this.resolve == resolve && aliases == {}
    {
      this.anchors, this.resolve, aliases := anchors, resolve, {};
    }

    ghost predicate Valid()
      reads this
    {
      aliases <= anchors.Keys && forall a | a in anchors :: Paired(anchors[a])
    }

    /** With a target of its own, or into the map `out`. */
    method Unmarshal(n: Node, out: Option<map<Value, Value>>, ghost g: Option<Unfolded>) returns (r: Outcome<Value>, ghost u: Unfolded)
      requires Valid() && Paired(n) && Known(anchors, aliases, n, g)
      requires out.Some? ==> IntoMap(anchors, n)
      modifies this`aliases
      ensures !r.Unexpected?
      ensures r.Composed? ==> aliases == old(aliases)
      ensures r.Composed? ==> Unfolds(anchors, n, u) && r == Decoded(resolve, u, out)
      ensures g.Some? ==> r == Decoded(resolve, g.value, out)
      decreases Unresolved(anchors, aliases), n, 1
    {
      match n {
        case ScalarNode(_, tag, value, implicit) =>
          u := Leaf(tag, value, implicit);
          r := ScalarMeaning(resolve, tag, value, implicit);
        case AliasNode(_, _) => r, u := UnmarshalAlias(n, out, g);
        case SequenceNode(_, _) => r, u := UnmarshalSequence(n, g);
        case MappingNode(_, _) => r, u := UnmarshalMapping(n, out, g);
      }
    }

    method UnmarshalAlias(n: Node, out: Option<map<Value, Value>>, ghost g: Option<Unfolded>) returns (r: Outcome<Value>, ghost u: Unfolded)
      requires Valid() && n.AliasNode? && Known(anchors, aliases, n, g)
      requires out.Some? ==> IntoMap(anchors, n)
      modifies this`aliases
      ensures !r.Unexpected?
      ensures r.Composed? ==> aliases == old(aliases)
      ensures r.Composed? ==> Unfolds(anchors, n, u) && r == Decoded(resolve, u, out)
      ensures g.Some? ==> r == Decoded(resolve, g.value, out)
      decreases Unresolved(anchors, aliases), n, 0
    {
      hide Unresolved;
      u := Leaf("", "", true);
      if g.Some? {
        KnownTarget(anchors, aliases, n, g);
      }
      if n.name !in anchors {
        return Failed, u;
      }
      if n.name in aliases {
        return Failed, u;
      }
      UnresolvedLess(anchors, aliases, n.name);
      aliases := aliases + {n.name};
      ghost var h := if g.Some? then Some(g.value.target) else None;
      var target := anchors[n.name];
      r, u := Unmarshal(target, out, h);
      aliases := aliases - {n.name};
      if r.Composed? {
        TargetDecoded(anchors, resolve, n, u, out, r);
      }
      if g.Some? {
        TargetDecoded(anchors, resolve, n, g.value.target, out, r);
      }
      u := Ref(n.name, u);
    }

    method UnmarshalSequence(n: Node, ghost g: Option<Unfolded>) returns (r: Outcome<Value>, ghost u: Unfolded)
      requires Valid() && n.SequenceNode? && Paired(n) && Known(anchors, aliases, n, g)
      modifies this`aliases
      ensures !r.Unexpected?
      ensures r.Composed? ==> aliases == old(aliases)
      ensures r.Composed? ==> Unfolds(anchors, n, u) && r == Meaning(resolve, u)
      ensures g.Some? ==> r == Meaning(resolve, g.value)
      decreases Unresolved(anchors, aliases), n, 0
    {
      hide Unresolved, Known, Enclosed, MeaningAll;
      u := Leaf("", "", true);
      KnownChildren(anchors, aliases, n, g);
      ghost var gs, us := ChildrenOf(g), [];
      var items: seq<Value> := [];
      EmptyMeaning(resolve);
      for i := 0 to |n.children|
        invariant aliases == old(aliases) && |us| == i
        invariant Front(anchors, n.children, gs, us)
        invariant MeaningAll(resolve, us) == Composed(items)
      {
        var e, v := Unmarshal(n.children[i], None, ChildAt(gs, i));
        if !e.Composed? {
          if gs.Some? {
            MeaningFails(resolve, gs.value, i);
          }
          return Failed, u;
        }
        MeaningStep(resolve, us, v);
        FrontGrows(anchors, aliases, n.children, gs, us, v);
        us, items := us + [v], items + [e.value];
      }
      FrontComplete(anchors, n.children, gs, us);
      u := Items(us);
      r := Composed(List(items));
    }

    method UnmarshalMapping(n: Node, out: Option<map<Value, Value>>, ghost g: Option<Unfolded>) returns (r: Outcome<Value>, ghost u: Unfolded)
      requires Valid() && n.MappingNode? && Paired(n) && Known(anchors, aliases, n, g)
      modifies this`aliases
      ensures !r.Unexpected?
      ensures r.Composed? ==> aliases == old(aliases)
      ensures r.Composed? ==> Unfolds(anchors, n, u) && r == Decoded(resolve, u, out)
      ensures g.Some? ==> r == Decoded(resolve, g.value, out)
      decreases Unresolved(anchors, aliases), n, 0
    {
      hide *;
      KnownChildren(anchors, aliases, n, g);
      ghost var gs, us := ChildrenOf(g), [];
      FrontEmpty(anchors, aliases, n, gs);
      if g.Some? {
        DecodedMapping(resolve, g.value.children, out);
      }
      u := Leaf("", "", true);
      var m := if out.Some? then out.value else map[];
      ghost var m0 := m;
      EmptyEntries(resolve, m);
      var i := 0;
      while i < |n.children|
        invariant i <= |n.children| && i % 2 == 0
        invariant aliases == old(aliases) && |us| == i
        invariant Front(anchors, n.children, gs, us)
        invariant Entries(resolve, us, m0) == Composed(m)
      {
        KnownChild(anchors, aliases, n, gs, i);
        KnownChild(anchors, aliases, n, gs, i + 1);
        var e, k, v := UnmarshalEntry(n, i, m, ChildAt(gs, i), ChildAt(gs, i + 1));
        if !e.Composed? {
          EntriesFailed(anchors, resolve, n, gs, us, m0, m);
          return Failed, u;
        }
        us := EntryGrows(anchors, resolve, aliases, n.children, gs, us, k, v, m0, m);
        m := e.value;
        i := i + 2;
      }
      FrontDone(anchors, n, gs, us);
      DecodedMapping(resolve, us, out);
      u := Pairs(us);
      r := Composed(Dict(m));
    }

    /** One round of the loop over the keys and values of a mapping. */
    method UnmarshalEntry(n: Node, i: nat, m: map<Value, Value>, ghost gk: Option<Unfolded>, ghost gv: Option<Unfolded>)
      returns (r: Outcome<map<Value, Value>>, ghost k: Unfolded, ghost v: Unfolded)
      requires Valid() && n.MappingNode? && i + 1 < |n.children| && Paired(n.children[i]) && Paired(n.children[i + 1])
      requires Known(anchors, aliases, n.children[i], gk) && Known(anchors, aliases, n.children[i + 1], gv)
      modifies this`aliases
      ensures !r.Unexpected?
      ensures r.Composed? ==> aliases == old(aliases)
      ensures r.Composed? ==> Unfolds(anchors, n.children[i], k) && Unfolds(anchors, n.children[i + 1], v)
      ensures r.Composed? ==> r == EntryOf(resolve, k, v, m)
      ensures gk.Some? && gv.Some? ==> r == EntryOf(resolve, gk.value, gv.value, m)
      decreases Unresolved(anchors, aliases), n, 0, 0
    {
      k, v := Leaf("", "", true), Leaf("", "", true);
      var key, value := n.children[i], n.children[i + 1];
      if gk.Some? {
        MergeKeyUnfolds(anchors, key, gk.value);
      }
      hide Unresolved, Enclosed, Meaning, Merged;
      if IsMerge(key) {
        k := Leaf(key.tag, key.value, key.implicit);
        r, v := Merge(value, m, gv);
        return;
      }
      hide Known, Unfolds;
      var a, b;
      a, k := Unmarshal(key, None, gk);
      if !a.Composed? {
        return Failed, k, v;
      }
      MergeKeyUnfolds(anchors, key, k);
      if a.value.List? || a.value.Dict? {
        return Failed, k, v;
      }
      b, v := Unmarshal(value, None, gv);
      r := if b.Composed? then Composed(m[a.value := b.value]) else Failed;
    }

    /** The value of a merge key. */
    method Merge(n: Node, m: map<Value, Value>, ghost g: Option<Unfolded>) returns (r: Outcome<map<Value, Value>>, ghost u: Unfolded)
      requires Valid() && Paired(n) && Known(anchors, aliases, n, g)
      modifies this`aliases
      ensures !r.Unexpected?
      ensures r.Composed? ==> aliases == old(aliases)
      ensures r.Composed? ==> Unfolds(anchors, n, u) && r == Merged(resolve, u, m)
      ensures g.Some? ==> r == Merged(resolve, g.value, m)
      decreases Unresolved(anchors, aliases), n, 3
    {
      match n {
        case MappingNode(_, _) => r, u := MergeOne(n, m, g);
        case AliasNode(_, _) => r, u := MergeOne(n, m, g);
        case SequenceNode(_, _) => r, u := MergeSequence(n, m, g);
        case ScalarNode(_, _, _, _) =>
          u := Leaf("", "", true);
          r := Failed;
      }
    }

    method MergeOne(n: Node, m: map<Value, Value>, ghost g: Option<Unfolded>) returns (r: Outcome<map<Value, Value>>, ghost u: Unfolded)
      requires Valid() && Paired(n) && Known(anchors, aliases, n, g)
      modifies this`aliases
      ensures !r.Unexpected?
      ensures r.Composed? ==> aliases == old(aliases)
      ensures r.Composed? ==> Unfolds(anchors, n, u) && r == MergedOne(resolve, u, m)
      ensures g.Some? ==> r == MergedOne(resolve, g.value, m)
      decreases Unresolved(anchors, aliases), n, 2
    {
      u := Leaf("", "", true);
      if n.AliasNode? {
        if n.name in anchors && !anchors[n.name].MappingNode? {
          NotAMapping(anchors, aliases, n, g);
          return Failed, u;
        }
      } else if !n.MappingNode? {
        return Failed, u;
      }
      hide Unresolved, Known, MergedOne;
      var e;
      e, u := Unmarshal(n, Some(m), g);
      r := if e.Composed? then Composed(e.value.entries) else Failed;
    }

    method MergeSequence(n: Node, m: map<Value, Value>, ghost g: Option<Unfolded>) returns (r: Outcome<map<Value, Value>>, ghost u: Unfolded)
      requires Valid() && n.SequenceNode? && Paired(n) && Known(anchors, aliases, n, g)
      modifies this`aliases
      ensures !r.Unexpected?
      ensures r.Composed? ==> aliases == old(aliases)
      ensures r.Composed? ==> Unfolds(anchors, n, u) && r == Merged(resolve, u, m)
      ensures g.Some? ==> r == Merged(resolve, g.value, m)
      decreases Unresolved(anchors, aliases), n, 2
    {
      hide *;
      KnownChildren(anchors, aliases, n, g);
      if g.Some? {
        MergedItems(resolve, g.value.items, m);
      }
      u := Leaf("", "", true);
      ghost var gs, us := ChildrenOf(g), [];
      var out := m;
      EmptyMerged(resolve, m);
      BackEmpty(anchors, n.children, gs);
      for i := |n.children| downto 0
        invariant aliases == old(aliases) && Valid()
        invariant Back(anchors, n.children, gs, us) && |us| == |n.children| - i
        invariant MergedAll(resolve, us, m) == Composed(out)
      {
        KnownChild(anchors, aliases, n, gs, i);
        var e, v := MergeOne(n.children[i], out, ChildAt(gs, i));
        if !e.Composed? {
          MergedFails(anchors, resolve, n.children, gs, us, i, m, out);
          return Failed, u;
        }
        us := BackStep(anchors, resolve, aliases, n.children, gs, us, v, m, out);
        out := e.value;
      }
      BackComplete(anchors, n, gs, us);
      u := Items(us);
      MergedItems(resolve, us, m);
      r := Composed(out);
    }
  }

  predicate IsMerge(n: Node) {
    n.ScalarNode? && n.value == "<<" && (n.implicit || n.tag == MERGE_TAG)
  }

  lemma MergeKeyUnfolds(anchors: Anchors, n: Node, u: Unfolded)
    requires Unfolds(anchors, n, u)
    ensures MergeKey(u) <==> IsMerge(n)
    ensures n.ScalarNode? ==> u == Leaf(n.tag, n.value, n.implicit)
  {
  }

  lemma TargetDecoded(anchors: Anchors, resolve: Resolver, n: Node, u: Unfolded, out: Option<map<Value, Value>>, r: Outcome<Value>)
    requires n.AliasNode? && n.name in anchors && Unfolds(anchors, anchors[n.name], u)
    requires out.Some? ==> IntoMap(anchors, n)
    requires r == Decoded(resolve, u, out)
    ensures Unfolds(anchors, n, Ref(n.name, u)) && r == Decoded(resolve, Ref(n.name, u), out)
  {
  }

  lemma NotAMapping(anchors: Anchors, aliases: set<string>, n: Node, g: Option<Unfolded>)
    requires Known(anchors, aliases, n, g) && n.AliasNode? && n.name in anchors && !anchors[n.name].MappingNode?
    ensures g.Some? ==> g.value.Ref? && !g.value.target.Pairs?
  {
    if g.Some? {
      assert Unfolds(anchors, anchors[n.name], g.value.target);
    }
  }

  lemma EmptyMeaning(resolve: Resolver)
    ensures MeaningAll(resolve, []) == Composed([])
  {
  }

  lemma EmptyEntries(resolve: Resolver, m: map<Value, Value>)
    ensures Entries(resolve, [], m) == Composed(m)
  {
  }

  lemma EmptyMerged(resolve: Resolver, m: map<Value, Value>)
    ensures MergedAll(resolve, [], m) == Composed(m)
  {
  }

  /** `us` are the trees of the last children. */
  ghost predicate Back(anchors: Anchors, children: seq<Node>, g: Option<seq<Unfolded>>, us: seq<Unfolded>) {
    && |us| <= |children|
    && (forall i | |children| - |us| <= i < |children| :: Unfolds(anchors, children[i], us[i - (|children| - |us|)]))
    && (g.Some? ==> |g.value| == |children| && us == g.value[|children| - |us|..])
  }

  lemma MergedItems(resolve: Resolver, us: seq<Unfolded>, m: map<Value, Value>)
    ensures Merged(resolve, Items(us), m) == MergedAll(resolve, us, m)
  {
  }

  lemma BackEmpty(anchors: Anchors, children: seq<Node>, g: Option<seq<Unfolded>>)
    requires g.Some? ==> |g.value| == |children|
    ensures Back(anchors, children, g, [])
  {
  }

  lemma BackGrows(anchors: Anchors, aliases: set<string>, children: seq<Node>, g: Option<seq<Unfolded>>, us: seq<Unfolded>, u: Unfolded)
    requires Back(anchors, children, g, us) && KnownAll(anchors, aliases, children, g)
    requires |us| < |children| && Unfolds(anchors, children[|children| - |us| - 1], u)
    ensures Back(anchors, children, g, [u] + us)
  {
    if g.Some? {
      var i := |children| - |us| - 1;
      assert Known(anchors, aliases, children[i], Some(g.value[i]));
      UnfoldsToOne(anchors, children[i], u, g.value[i]);
    }
    hide Unfolds, Known;
  }

  lemma BackStep(anchors: Anchors, resolve: Resolver, aliases: set<string>, children: seq<Node>, g: Option<seq<Unfolded>>,
                 us: seq<Unfolded>, u: Unfolded, m: map<Value, Value>, out: map<Value, Value>) returns (us': seq<Unfolded>)
    requires Back(anchors, children, g, us) && KnownAll(anchors, aliases, children, g)
    requires |us| < |children| && Unfolds(anchors, children[|children| - |us| - 1], u)
    requires MergedAll(resolve, us, m) == Composed(out)
    ensures Back(anchors, children, g, us') && |us'| == |us| + 1
    ensures MergedAll(resolve, us', m) == MergedOne(resolve, u, out)
  {
    hide Back, KnownAll, Unfolds, MergedAll, MergedOne;
    BackGrows(anchors, aliases, children, g, us, u);
    MergedStep(resolve, u, us, m, out);
    us' := [u] + us;
  }

  lemma BackComplete(anchors: Anchors, n: Node, g: Option<seq<Unfolded>>, us: seq<Unfolded>)
    requires n.SequenceNode? && Back(anchors, n.children, g, us) && |us| == |n.children|
    ensures Unfolds(anchors, n, Items(us))
    ensures g.Some? ==> g.value == us
  {
  }

  lemma MergedFails(anchors: Anchors, resolve: Resolver, children: seq<Node>, gs: Option<seq<Unfolded>>,
                    us: seq<Unfolded>, i: nat, m: map<Value, Value>, out: map<Value, Value>)
    requires Back(anchors, children, gs, us) && i < |children| && |us| == |children| - i - 1
    requires MergedAll(resolve, us, m) == Composed(out)
    requires ChildAt(gs, i).Some? ==> MergedOne(resolve, ChildAt(gs, i).value, out) == Failed
    ensures gs.Some? ==> MergedAll(resolve, gs.value, m) == Failed
  {
    if gs.Some? {
      var all := gs.value;
      assert all == all[..i + 1] + us;
      MergedConcat(resolve, all[..i + 1], us, m);
      hide MergedOne;
    }
  }

  // ---- whole documents

  lemma {:induction false} ComposedIsPaired(t: Tree, n: nat)
    ensures Paired(NodeOf(t, n))
    decreases t, 1
  {
    match t {
      case SequenceTree(_, _, items) => ItemsArePaired(items, n + 1);
      case MappingTree(_, _, pairs) => PairsArePaired(pairs, n + 1);
      case _ =>
    }
  }

  lemma {:induction false} ItemsArePaired(items: seq<Tree>, n: nat)
    ensures forall i | 0 <= i < |ItemNodes(items, n)| :: Paired(ItemNodes(items, n)[i])
    decreases items, 0
  {
    if items != [] {
      ItemsArePaired(items[..|items| - 1], n);
      ComposedIsPaired(items[|items| - 1], n + |ItemEvents(items[..|items| - 1])|);
    }
  }

  lemma {:induction false} PairsArePaired(pairs: seq<Pair>, n: nat)
    ensures |PairNodes(pairs, n)| % 2 == 0
    ensures forall i | 0 <= i < |PairNodes(pairs, n)| :: Paired(PairNodes(pairs, n)[i])
    decreases pairs, 0
  {
    if pairs != [] {
      PairsArePaired(pairs[..|pairs| - 1], n);
      KeyValueIsPaired(pairs[|pairs| - 1], n + |PairEvents(pairs[..|pairs| - 1])|);
    }
  }

  lemma {:induction false} KeyValueIsPaired(p: Pair, n: nat)
    ensures |KeyValueNodes(p, n)| == 2 && Paired(KeyValueNodes(p, n)[0]) && Paired(KeyValueNodes(p, n)[1])
    decreases p, 2
  {
    match p {
      case Pair(key, value) =>
        ComposedIsPaired(key, n);
        ComposedIsPaired(value, n + |NodeEvents(key)|);
    }
  }

  lemma {:induction false} PairedInside(m: Node, root: Node)
    requires Occurs(m, root) && Paired(root)
    ensures Paired(m)
    decreases root, 1
  {
    if m != root {
      PairedAmong(m, root.children);
    }
  }

  lemma {:induction false} PairedAmong(m: Node, nodes: seq<Node>)
    requires OccursIn(m, nodes) && forall i | 0 <= i < |nodes| :: Paired(nodes[i])
    ensures Paired(m)
    decreases nodes, 0
  {
    if OccursIn(m, nodes[..|nodes| - 1]) {
      PairedAmong(m, nodes[..|nodes| - 1]);
    } else {
      PairedInside(m, nodes[|nodes| - 1]);
    }
  }

  /** Each anchor of the document with the node it was given to. */
  ghost predicate Refers(doc: Doc, anchors: Anchors) {
    && anchors.Keys == doc.anchors.Keys
    && forall name | name in anchors :: Occurs(anchors[name], doc.root) && anchors[name].number == doc.anchors[name]
  }

  /** There is always exactly one such map. */
  lemma AnchorsOf(t: Tree, n: nat) returns (anchors: Anchors)
    ensures Refers(Doc(NodeOf(t, n), Anchored(map[], t, n)), anchors)
    ensures forall other: Anchors :: Refers(Doc(NodeOf(t, n), Anchored(map[], t, n)), other) ==> other == anchors
  {
    var doc := Doc(NodeOf(t, n), Anchored(map[], t, n));
    forall name | name in doc.anchors
      ensures exists a :: Occurs(a, doc.root) && a.number == doc.anchors[name]
    {
      var a := AnchorRefers(t, n, name);
    }
    hide Occurs, NodeOf, Anchored;
    anchors := map name | name in doc.anchors :: var a :| Occurs(a, doc.root) && a.number == doc.anchors[name]; a;
    forall other: Anchors | Refers(doc, other) ensures other == anchors {
      forall name | name in anchors ensures other[name] == anchors[name] {
        NumbersDiffer(t, n, other[name], anchors[name]);
      }
    }
  }

  /** Decoding a composed document gives the meaning of its unfolding, and fails if it has none. */
  method Decode(doc: Doc, anchors: Anchors, resolve: Resolver, ghost t: Tree, ghost n: nat) returns (r: Outcome<Value>)
    requires doc == Doc(NodeOf(t, n), Anchored(map[], t, n)) && Refers(doc, anchors)
    ensures Resolvable(anchors, doc.root) ==> exists u :: Unfolds(anchors, doc.root, u) && r == Meaning(resolve, u)
    ensures !Resolvable(anchors, doc.root) ==> r == Failed
  {
    hide Resolvable, Occurs, Meaning, NodeOf, Anchored;
    UnfoldsWhenResolvable(anchors, doc.root);
    ComposedIsPaired(t, n);
    forall a | a in anchors ensures Paired(anchors[a]) {
      PairedInside(anchors[a], doc.root);
    }
    hide Paired;
    var decoder := new Decoder(anchors, resolve);
    ghost var g: Option<Unfolded> := None;
    if u :| Unfolds(anchors, doc.root, u) {
      g := Some(u);
    }
    ghost var v;
    r, v := decoder.Unmarshal(doc.root, None, g);
  }
}
