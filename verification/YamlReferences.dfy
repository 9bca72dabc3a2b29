/** Which node an alias refers to, and which value a key of a mapping with merge keys has: where the decoder does what
    YAML means, exactly, and where it does not. */
module YamlReferences {
  import opened Basics
  import opened YamlEvents
  import opened YamlComposer
  import opened YamlDecoder

  // ---- anchors

  function AnchorOf(e: Event): (r: Option<string>) {
    match e
    case Scalar(props, _, _, _) => props.anchor
    case SequenceStart(props, _) => props.anchor
    case MappingStart(props, _) => props.anchor
    case _ => None
  }

  /** The last node among the events with the anchor `x`. */
  function LastAnchored(es: seq<Event>, x: string): (r: Option<nat>)
    ensures r.Some? ==> r.value < |es| && AnchorOf(es[r.value]) == Some(x)
    ensures forall i | 0 <= i < |es| && AnchorOf(es[i]) == Some(x) :: r.Some? && i <= r.value
  {
    if es == [] then None
    else if AnchorOf(es[|es| - 1]) == Some(x) then Some(|es| - 1)
    else LastAnchored(es[..|es| - 1], x)
  }

  lemma LastOfConcat(a: seq<Event>, b: seq<Event>, x: string)
    ensures LastAnchored(a + b, x) == match LastAnchored(b, x)
      case Some(i) => Some(|a| + i)
      case None => LastAnchored(a, x)
  {
    var r, s, t := LastAnchored(a + b, x), LastAnchored(a, x), LastAnchored(b, x);
    assert forall i | 0 <= i < |b| :: (a + b)[|a| + i] == b[i];
    assert forall i | |a| <= i < |a + b| :: (a + b)[i] == b[i - |a|];
    if s.Some? {
      assert AnchorOf((a + b)[s.value]) == Some(x);
    }
    if t.Some? {
      assert AnchorOf((a + b)[|a| + t.value]) == Some(x);
    }
  }

  /** What entering nodes in the order of their events does to the anchors. */
  ghost predicate EntersLast(m: map<string, nat>, m': map<string, nat>, es: seq<Event>, n: nat, x: string) {
    match LastAnchored(es, x)
    case Some(i) => x in m' && m'[x] == n + i
    case None => (x in m' <==> x in m) && (x in m ==> m'[x] == m[x])
  }

  lemma EntersMore(m: map<string, nat>, m': map<string, nat>, m'': map<string, nat>, a: seq<Event>, b: seq<Event>, n: nat, x: string)
    requires EntersLast(m, m', a, n, x) && EntersLast(m', m'', b, n + |a|, x)
    ensures EntersLast(m, m'', a + b, n, x)
  {
    LastOfConcat(a, b, x);
  }

  lemma EntersOne(m: map<string, nat>, e: Event, props: Props, n: nat, x: string)
    requires AnchorOf(e) == props.anchor
    ensures EntersLast(m, Enter(m, props, n), [e], n, x)
  {
    assert [e][..0] == [];
  }

  lemma EntersNone(m: map<string, nat>, e: Event, n: nat, x: string)
    requires AnchorOf(e) == None
    ensures EntersLast(m, m, [e], n, x)
  {
    assert [e][..0] == [];
  }

  lemma {:induction false} NodeEnters(m: map<string, nat>, t: Tree, n: nat, x: string)
    ensures EntersLast(m, Anchored(m, t, n), NodeEvents(t), n, x)
    decreases t, 1
  {
    hide EntersLast;
    match t {
      case AliasTree(name) => EntersNone(m, Alias(name), n, x);
      case ScalarTree(props, value, quoted, plain) => EntersOne(m, Scalar(props, value, quoted, plain), props, n, x);
      case SequenceTree(props, flow, items) =>
        EntersOne(m, SequenceStart(props, flow), props, n, x);
        ItemsEnter(Enter(m, props, n), items, n + 1, x);
        var m' := ItemsAnchored(Enter(m, props, n), items, n + 1);
        EntersMore(m, Enter(m, props, n), m', [SequenceStart(props, flow)], ItemEvents(items), n, x);
        EntersNone(m', SequenceEnd, n + 1 + |ItemEvents(items)|, x);
        EntersMore(m, m', m', [SequenceStart(props, flow)] + ItemEvents(items), [SequenceEnd], n, x);
      case MappingTree(props, flow, pairs) =>
        EntersOne(m, MappingStart(props, flow), props, n, x);
        PairsEnter(Enter(m, props, n), pairs, n + 1, x);
        var m' := PairsAnchored(Enter(m, props, n), pairs, n + 1);
        EntersMore(m, Enter(m, props, n), m', [MappingStart(props, flow)], PairEvents(pairs), n, x);
        EntersNone(m', MappingEnd, n + 1 + |PairEvents(pairs)|, x);
        EntersMore(m, m', m', [MappingStart(props, flow)] + PairEvents(pairs), [MappingEnd], n, x);
    }
  }

  lemma {:induction false} ItemsEnter(m: map<string, nat>, items: seq<Tree>, n: nat, x: string)
    ensures EntersLast(m, ItemsAnchored(m, items, n), ItemEvents(items), n, x)
    decreases items, 0
  {
    if items != [] {
      hide EntersLast;
      var init, last := items[..|items| - 1], items[|items| - 1];
      ItemsEnter(m, init, n, x);
      NodeEnters(ItemsAnchored(m, init, n), last, n + |ItemEvents(init)|, x);
      EntersMore(m, ItemsAnchored(m, init, n), ItemsAnchored(m, items, n), ItemEvents(init), NodeEvents(last), n, x);
    }
  }

  lemma {:induction false} PairsEnter(m: map<string, nat>, pairs: seq<Pair>, n: nat, x: string)
    ensures EntersLast(m, PairsAnchored(m, pairs, n), PairEvents(pairs), n, x)
    decreases pairs, 0
  {
    if pairs != [] {
      hide EntersLast;
      var init, last := pairs[..|pairs| - 1], pairs[|pairs| - 1];
      PairsEnter(m, init, n, x);
      KeyValueEnters(PairsAnchored(m, init, n), last, n + |PairEvents(init)|, x);
      EntersMore(m, PairsAnchored(m, init, n), PairsAnchored(m, pairs, n), PairEvents(init), KeyValueEvents(last), n, x);
    }
  }

  lemma {:induction false} KeyValueEnters(m: map<string, nat>, p: Pair, n: nat, x: string)
    ensures EntersLast(m, KeyValueAnchored(m, p, n), KeyValueEvents(p), n, x)
    decreases p, 2
  {
    hide EntersLast;
    match p case Pair(key, value) =>
      NodeEnters(m, key, n, x);
      NodeEnters(Anchored(m, key, n), value, n + |NodeEvents(key)|, x);
      EntersMore(m, Anchored(m, key, n), KeyValueAnchored(m, p, n), NodeEvents(key), NodeEvents(value), n, x);
  }

  /** An anchor of a document stands for the last of its nodes that has it: the one with the greatest number. */
  lemma AnchorIsLast(t: Tree, n: nat, x: string)
    ensures var es, anchors := NodeEvents(t), Anchored(map[], t, n);
      && (x in anchors <==> exists i | 0 <= i < |es| :: AnchorOf(es[i]) == Some(x))
      && (x in anchors ==>
            && n <= anchors[x] < n + |es| && AnchorOf(es[anchors[x] - n]) == Some(x)
            && forall i | 0 <= i < |es| && AnchorOf(es[i]) == Some(x) :: n + i <= anchors[x])
  {
    NodeEnters(map[], t, n, x);
  }

  /** The node that an alias at event `j` should stand for: the last one before it with its anchor. */
  function Meant(es: seq<Event>, j: nat, x: string): (r: Option<nat>)
    requires j <= |es|
  {
    LastAnchored(es[..j], x)
  }

  /** The alias at event `j` stands for the node that it should, or for none. */
  predicate AsMeant(es: seq<Event>, anchors: map<string, nat>, n: nat, j: nat)
    requires j < |es| && es[j].Alias?
  {
    var x := es[j].name;
    match Meant(es, j, x)
    case Some(i) => x in anchors && anchors[x] == n + i
    case None => x !in anchors
  }

  /** Every alias does. */
  ghost predicate AliasesAsMeant(t: Tree, n: nat) {
    var es, anchors := NodeEvents(t), Anchored(map[], t, n);
    forall j | 0 <= j < |es| && es[j].Alias? :: AsMeant(es, anchors, n, j)
  }

  /** Behind an alias, its anchor is given once more. */
  predicate AnchoredBehind(es: seq<Event>, j: int, k: int) {
    0 <= j < k < |es| && es[j].Alias? && AnchorOf(es[k]) == Some(es[j].name)
  }

  lemma {:induction false} MeantIsLast(es: seq<Event>, j: nat, x: string)
    requires j < |es| && AnchorOf(es[j]) == None
    ensures Meant(es, j, x) == LastAnchored(es, x) <==> forall k | j < k < |es| :: AnchorOf(es[k]) != Some(x)
  {
    hide LastAnchored;
    var before, all := LastAnchored(es[..j], x), LastAnchored(es, x);
    assert forall i | 0 <= i < j :: es[..j][i] == es[i];
    if before.Some? {
      assert AnchorOf(es[before.value]) == Some(x);
    }
    if all.Some? && all.value < j {
      assert AnchorOf(es[..j][all.value]) == Some(x);
    }
  }

  /** The aliases of a document stand for the nodes they should if and only if no anchor is given behind an alias for it. */
  lemma AliasesAsMeantExactly(t: Tree, n: nat)
    ensures AliasesAsMeant(t, n) <==> !exists j, k :: AnchoredBehind(NodeEvents(t), j, k)
  {
    var es, anchors := NodeEvents(t), Anchored(map[], t, n);
    hide NodeEvents, Anchored, LastAnchored;
    forall j | 0 <= j < |es| && es[j].Alias?
      ensures AsMeant(es, anchors, n, j) <==> !exists k :: AnchoredBehind(es, j, k)
    {
      OneAsMeant(t, n, j);
    }
    hide AsMeant, AnchoredBehind;
    forall j, k | AnchoredBehind(es, j, k) ensures 0 <= j < |es| && es[j].Alias? {
      AnAlias(es, j, k);
    }
  }

  lemma AnAlias(es: seq<Event>, j: int, k: int)
    requires AnchoredBehind(es, j, k)
    ensures 0 <= j < |es| && es[j].Alias?
  {
  }

  lemma OneAsMeant(t: Tree, n: nat, j: nat)
    requires j < |NodeEvents(t)| && NodeEvents(t)[j].Alias?
    ensures AsMeant(NodeEvents(t), Anchored(map[], t, n), n, j) <==> !exists k :: AnchoredBehind(NodeEvents(t), j, k)
  {
    var es, x := NodeEvents(t), NodeEvents(t)[j].name;
    NodeEnters(map[], t, n, x);
    MeantIsLast(es, j, x);
    hide NodeEvents, Anchored, LastAnchored;
    if k: nat :| j < k < |es| && AnchorOf(es[k]) == Some(x) {
      assert AnchoredBehind(es, j, k);
    }
  }

  // ---- documents on which it matters

  const A: string := "a"

  function Text(anchor: Option<string>, value: string): (t: Tree) {
    ScalarTree(Props(anchor, "", true), value, false, true)
  }

  /** What the resolver says of a text without a tag. */
  function Answer(resolve: Resolver, text: string): (r: Outcome<Value>) {
    match resolve("", text)
    case Mismatch => Failed
    case Null => Composed(Nil)
    case Resolved(tag, s) => Composed(Atom(tag, s))
  }

  lemma PlainIs(resolve: Resolver)
    ensures forall text :: ScalarMeaning(resolve, "", text, true) == Answer(resolve, text)
  {
  }

  function Listing(items: seq<Tree>): (t: Tree) {
    SequenceTree(Props(None, "", true), true, items)
  }

  /** One more item. */
  lemma More(items: seq<Tree>, t: Tree, m: map<string, nat>, n: nat)
    ensures ItemEvents(items + [t]) == ItemEvents(items) + NodeEvents(t)
    ensures ItemNodes(items + [t], n) == ItemNodes(items, n) + [NodeOf(t, n + |ItemEvents(items)|)]
    ensures ItemsAnchored(m, items + [t], n) == Anchored(ItemsAnchored(m, items, n), t, n + |ItemEvents(items)|)
  {
    NodesGrow(items, t, m, n);
  }

  lemma None0(m: map<string, nat>, n: nat)
    ensures ItemEvents([]) == [] && ItemNodes([], n) == [] && ItemsAnchored(m, [], n) == m
  {
  }

  /** The decoder, on a node that unfolds to `u`. */
  method Decoding(doc: Doc, anchors: Anchors, resolve: Resolver, ghost t: Tree, ghost n: nat, ghost u: Unfolded) returns (r: Outcome<Value>)
    requires doc == Doc(NodeOf(t, n), Anchored(map[], t, n)) && Refers(doc, anchors) && Unfolds(anchors, doc.root, u)
    ensures r == Meaning(resolve, u)
  {
    hide Unfolds, Meaning, NodeOf, Anchored, Refers, Resolvable;
    UnfoldingResolves(anchors, doc.root, u);
    r := Decode(doc, anchors, resolve, t, n);
    ghost var v :| Unfolds(anchors, doc.root, v) && r == Meaning(resolve, v);
    UnfoldsToOne(anchors, doc.root, u, v);
  }

  const AHEAD: Tree := Listing([AliasTree(A), Text(Some(A), "x")])

  lemma AheadIs()
    ensures NodeEvents(AHEAD) ==
      [SequenceStart(Props(None, "", true), true), Alias(A), Scalar(Props(Some(A), "", true), "x", false, true), SequenceEnd]
    ensures NodeOf(AHEAD, 2) == SequenceNode(2, [AliasNode(3, A), ScalarNode(4, "", "x", true)])
    ensures Anchored(map[], AHEAD, 2) == map[A := 4]
  {
    hide NodeEvents, NodeOf, Anchored, ItemEvents, ItemNodes, ItemsAnchored;
    var a, b := AliasTree(A), Text(Some(A), "x");
    SequenceIs(Props(None, "", true), true, [a, b], 2, map[]);
    AliasIs(map[], 3);
    TextIs("x", map[], 4);
    None0(map[], 3);
    More([], a, map[], 3);
    More([a], b, map[], 3);
    assert [] + [a] == [a] && [a] + [b] == [a, b];
  }

  /** [*a, &a x]: the alias stands for a node behind it. */
  method AliasAhead(resolve: Resolver) returns (r: Outcome<Value>)
    ensures !AliasesAsMeant(AHEAD, 2)
    ensures var x := Answer(resolve, "x"); r == if x.Composed? then Composed(List([x.value, x.value])) else Failed
  {
    AheadIs();
    AliasesAsMeantExactly(AHEAD, 2);
    assert AnchoredBehind(NodeEvents(AHEAD), 1, 2);
    var x := ScalarNode(4, "", "x", true);
    var root := SequenceNode(2, [AliasNode(3, A), x]);
    OccursInTwo(x, AliasNode(3, A), x);
    ghost var u, v := Ref(A, Leaf("", "x", true)), Leaf("", "x", true);
    TwoMeant(resolve, u, v);
    r := Decoding(Doc(root, map[A := 4]), map[A := x], resolve, AHEAD, 2, Items([u, v]));
  }

  /** The meanings of a list's items, one by one. */
  lemma OneMoreMeant(resolve: Resolver, us: seq<Unfolded>, u: Unfolded)
    ensures var init, last := MeaningAll(resolve, us), Meaning(resolve, u);
      MeaningAll(resolve, us + [u]) == if init.Composed? && last.Composed? then Composed(init.value + [last.value]) else Failed
  {
    hide Meaning;
    assert (us + [u])[..|us|] == us;
  }

  lemma TwoMeant(resolve: Resolver, u: Unfolded, v: Unfolded)
    ensures var a, b := Meaning(resolve, u), Meaning(resolve, v);
      MeaningAll(resolve, [u, v]) == if a.Composed? && b.Composed? then Composed([a.value, b.value]) else Failed
  {
    EmptyMeaning(resolve);
    hide Meaning, MeaningAll;
    OneMoreMeant(resolve, [], u);
    OneMoreMeant(resolve, [u], v);
    assert [] + [u] == [u] && [u] + [v] == [u, v];
    var a, b := Meaning(resolve, u), Meaning(resolve, v);
    if a.Composed? && b.Composed? {
      assert [] + [a.value] + [b.value] == [a.value, b.value];
    }
  }

  const AGAIN: Tree := Listing([Text(Some(A), "x"), AliasTree(A), Text(Some(A), "y")])

  lemma AgainIs()
    ensures NodeEvents(AGAIN) ==
      [SequenceStart(Props(None, "", true), true), Scalar(Props(Some(A), "", true), "x", false, true), Alias(A),
       Scalar(Props(Some(A), "", true), "y", false, true), SequenceEnd]
    ensures NodeOf(AGAIN, 2) == SequenceNode(2, [ScalarNode(3, "", "x", true), AliasNode(4, A), ScalarNode(5, "", "y", true)])
    ensures Anchored(map[], AGAIN, 2) == map[A := 5]
  {
    hide NodeEvents, NodeOf, Anchored, ItemEvents, ItemNodes, ItemsAnchored;
    var a, b, c := Text(Some(A), "x"), AliasTree(A), Text(Some(A), "y");
    SequenceIs(Props(None, "", true), true, [a, b, c], 2, map[]);
    TextIs("x", map[], 3);
    AliasIs(map[A := 3], 4);
    TextIs("y", map[A := 3], 5);
    None0(map[], 3);
    More([], a, map[], 3);
    More([a], b, map[], 3);
    More([a, b], c, map[], 3);
    assert [] + [a] == [a] && [a] + [b] == [a, b] && [a, b] + [c] == [a, b, c];
  }

  lemma TextIs(value: string, m: map<string, nat>, n: nat)
    ensures var t := Text(Some(A), value);
      && NodeEvents(t) == [Scalar(Props(Some(A), "", true), value, false, true)]
      && NodeOf(t, n) == ScalarNode(n, "", value, true) && Anchored(m, t, n) == m[A := n]
  {
  }

  lemma AliasIs(m: map<string, nat>, n: nat)
    ensures NodeEvents(AliasTree(A)) == [Alias(A)] && NodeOf(AliasTree(A), n) == AliasNode(n, A) && Anchored(m, AliasTree(A), n) == m
  {
  }

  /** [&a x, *a, &a y]: the alias does not stand for the node before it. */
  method AnchorAgain(resolve: Resolver) returns (r: Outcome<Value>)
    ensures !AliasesAsMeant(AGAIN, 2) && Meant(NodeEvents(AGAIN), 2, A) == Some(1)
    ensures var x, y := Answer(resolve, "x"), Answer(resolve, "y");
      r == if x.Composed? && y.Composed? then Composed(List([x.value, y.value, y.value])) else Failed
  {
    hide Refers, Unfolds, Meaning;
    AgainIs();
    AliasesAsMeantExactly(AGAIN, 2);
    assert AnchoredBehind(NodeEvents(AGAIN), 2, 3);
    LastOfConcat(NodeEvents(AGAIN)[..1], [NodeEvents(AGAIN)[1]], A);
    var x, y := ScalarNode(3, "", "x", true), ScalarNode(5, "", "y", true);
    AgainUnfolds();
    AgainMeans(resolve);
    r := Decoding(Doc(SequenceNode(2, [x, AliasNode(4, A), y]), map[A := 5]), map[A := y], resolve, AGAIN, 2, AGAIN_UNFOLDED);
  }

  const AGAIN_UNFOLDED: Unfolded := Items([Leaf("", "x", true), Ref(A, Leaf("", "y", true)), Leaf("", "y", true)])

  lemma AgainUnfolds()
    ensures var x, y := ScalarNode(3, "", "x", true), ScalarNode(5, "", "y", true);
      var root := SequenceNode(2, [x, AliasNode(4, A), y]);
      Refers(Doc(root, map[A := 5]), map[A := y]) && Unfolds(map[A := y], root, AGAIN_UNFOLDED)
  {
    var x, y := ScalarNode(3, "", "x", true), ScalarNode(5, "", "y", true);
    OccursInTwo(y, AliasNode(4, A), y);
    OccursInEither(y, [x], [AliasNode(4, A), y]);
    assert [x] + [AliasNode(4, A), y] == [x, AliasNode(4, A), y];
  }

  lemma AgainMeans(resolve: Resolver)
    ensures var x, y := Answer(resolve, "x"), Answer(resolve, "y");
      Meaning(resolve, AGAIN_UNFOLDED) == if x.Composed? && y.Composed? then Composed(List([x.value, y.value, y.value])) else Failed
  {
    hide ScalarMeaning, Answer;
    PlainIs(resolve);
    var u, v, w := Leaf("", "x", true), Ref(A, Leaf("", "y", true)), Leaf("", "y", true);
    TwoMeant(resolve, u, v);
    OneMoreMeant(resolve, [u, v], w);
    assert [u, v] + [w] == [u, v, w];
    var x, y := Answer(resolve, "x"), Answer(resolve, "y");
    if x.Composed? && y.Composed? {
      assert [x.value, y.value] + [y.value] == [x.value, y.value, y.value];
    }
  }

  // ---- merge keys

  /** The explicit entry number `i` has the key `k`. */
  ghost predicate KeyAt(resolve: Resolver, us: seq<Unfolded>, i: nat, k: Value) {
    2 * i + 1 < |us| && !MergeKey(us[2 * i]) && Meaning(resolve, us[2 * i]) == Composed(k)
  }

  function ValueAt(resolve: Resolver, us: seq<Unfolded>, i: nat): (r: Outcome<Value>)
    requires 2 * i + 1 < |us|
  {
    Meaning(resolve, us[2 * i + 1])
  }

  /** The entry number `i` is a merge that brings the key `k`. */
  ghost predicate BringsAt(resolve: Resolver, us: seq<Unfolded>, i: nat, k: Value) {
    && 2 * i + 1 < |us| && MergeKey(us[2 * i])
    && Merged(resolve, us[2 * i + 1], map[]).Composed? && k in Merged(resolve, us[2 * i + 1], map[]).value
  }

  function BroughtAt(resolve: Resolver, us: seq<Unfolded>, i: nat, k: Value): (r: Value)
    requires BringsAt(resolve, us, i, k)
  {
    Merged(resolve, us[2 * i + 1], map[]).value[k]
  }

  /** The entry number `i` is the last one that has or brings `k`. */
  ghost predicate LastAt(resolve: Resolver, us: seq<Unfolded>, i: nat, k: Value) {
    && (KeyAt(resolve, us, i, k) || BringsAt(resolve, us, i, k))
    && forall j | i < j && 2 * j + 1 < |us| :: !KeyAt(resolve, us, j, k) && !BringsAt(resolve, us, j, k)
  }

  /** The last entry that has or brings a key gives its value. */
  lemma {:induction false} LastGives(resolve: Resolver, us: seq<Unfolded>, m: map<Value, Value>, i: nat, k: Value)
    requires |us| % 2 == 0 && Entries(resolve, us, map[]) == Composed(m) && LastAt(resolve, us, i, k)
    ensures k in m
    ensures if MergeKey(us[2 * i]) then m[k] == BroughtAt(resolve, us, i, k) else Composed(m[k]) == ValueAt(resolve, us, i)
    decreases |us|
  {
    var n := |us| / 2 - 1;
    assert 2 * n + 1 < |us| && 2 * n == |us| - 2;
    var init := us[..|us| - 2];
    var before := Entries(resolve, init, map[]).value;
    EntriesGrow(resolve, us, map[]);
    if MergeKey(us[2 * n]) {
      ValueOverrides(resolve, us[2 * n + 1], before);
    }
    hide Meaning, Merged, Entries, MergeKey;
    if i < n {
      assert !KeyAt(resolve, us, n, k) && !BringsAt(resolve, us, n, k);
      LastOfInit(resolve, us, i, k);
      LastGives(resolve, init, before, i, k);
    }
  }

  lemma EntriesGrow(resolve: Resolver, us: seq<Unfolded>, m: map<Value, Value>)
    requires |us| >= 2 && Entries(resolve, us, m).Composed?
    ensures var k, v, before := us[|us| - 2], us[|us| - 1], Entries(resolve, us[..|us| - 2], m);
      && before.Composed?
      && if MergeKey(k) then Entries(resolve, us, m) == Merged(resolve, v, before.value)
         else
           && Meaning(resolve, k).Composed? && Meaning(resolve, v).Composed?
           && Entries(resolve, us, m).value == before.value[Meaning(resolve, k).value := Meaning(resolve, v).value]
  {
  }

  lemma LastOfInit(resolve: Resolver, us: seq<Unfolded>, i: nat, k: Value)
    requires |us| % 2 == 0 && 2 * i + 3 < |us| && LastAt(resolve, us, i, k)
    ensures LastAt(resolve, us[..|us| - 2], i, k)
    ensures ValueAt(resolve, us[..|us| - 2], i) == ValueAt(resolve, us, i)
    ensures BringsAt(resolve, us, i, k) ==> BroughtAt(resolve, us[..|us| - 2], i, k) == BroughtAt(resolve, us, i, k)
    ensures us[..|us| - 2][2 * i] == us[2 * i]
  {
    hide Meaning, Merged, MergeKey;
    var init := us[..|us| - 2];
    forall j: nat | 2 * j + 1 < |init|
      ensures KeyAt(resolve, init, j, k) <==> KeyAt(resolve, us, j, k)
      ensures BringsAt(resolve, init, j, k) <==> BringsAt(resolve, us, j, k)
    {
      assert init[2 * j] == us[2 * j] && init[2 * j + 1] == us[2 * j + 1];
    }
  }

  /** The explicit entry number `i`, the last one for its key, has its value in the map. */
  ghost predicate Kept(resolve: Resolver, us: seq<Unfolded>, m: map<Value, Value>, i: nat, k: Value)
    requires 2 * i + 1 < |us|
  {
    k in m && Composed(m[k]) == ValueAt(resolve, us, i)
  }

  ghost predicate LastExplicit(resolve: Resolver, us: seq<Unfolded>, i: nat, k: Value) {
    KeyAt(resolve, us, i, k) && forall j | i < j :: !KeyAt(resolve, us, j, k)
  }

  /** The merge number `j` is the last one that brings `k`. */
  ghost predicate LastMerge(resolve: Resolver, us: seq<Unfolded>, j: nat, k: Value) {
    BringsAt(resolve, us, j, k) && forall i | j < i :: !BringsAt(resolve, us, i, k)
  }

  /** Some merge key behind the explicit entry number `i` brings its key with another value, and no merge behind that
      one brings the key again. */
  ghost predicate OverriddenAt(resolve: Resolver, us: seq<Unfolded>, i: nat, k: Value) {
    && 2 * i + 1 < |us|
    && exists j | i < j :: LastMerge(resolve, us, j, k) && Composed(BroughtAt(resolve, us, j, k)) != ValueAt(resolve, us, i)
  }

  /** A mapping keeps its own entries if and only if no merge key behind one of them brings another value for its key. */
  lemma ExplicitKeptExactly(resolve: Resolver, us: seq<Unfolded>, m: map<Value, Value>)
    requires |us| % 2 == 0 && Entries(resolve, us, map[]) == Composed(m)
    ensures (forall i, k | LastExplicit(resolve, us, i, k) :: Kept(resolve, us, m, i, k)) <==>
      !exists i, k :: LastExplicit(resolve, us, i, k) && OverriddenAt(resolve, us, i, k)
  {
    hide Meaning, Merged, MergeKey, Entries;
    forall i: nat, k | LastExplicit(resolve, us, i, k)
      ensures Kept(resolve, us, m, i, k) <==> !OverriddenAt(resolve, us, i, k)
    {
      EntryKept(resolve, us, m, i, k);
    }
    hide Kept, LastExplicit, OverriddenAt;
  }

  lemma EntryKept(resolve: Resolver, us: seq<Unfolded>, m: map<Value, Value>, i: nat, k: Value)
    requires |us| % 2 == 0 && Entries(resolve, us, map[]) == Composed(m) && LastExplicit(resolve, us, i, k)
    ensures Kept(resolve, us, m, i, k) <==> !OverriddenAt(resolve, us, i, k)
  {
    hide Meaning, Merged, Entries;
    if j: nat :| i < j && BringsAt(resolve, us, j, k) {
      var l := LatestMerge(resolve, us, j, k);
      LastGives(resolve, us, m, l, k);
    } else {
      LastGives(resolve, us, m, i, k);
    }
  }

  lemma {:induction false} LatestMerge(resolve: Resolver, us: seq<Unfolded>, j: nat, k: Value) returns (l: nat)
    requires BringsAt(resolve, us, j, k)
    ensures j <= l && LastMerge(resolve, us, l, k)
    decreases |us| - j
  {
    l := j;
    if i: nat :| j < i && BringsAt(resolve, us, i, k) {
      l := LatestMerge(resolve, us, i, k);
    }
  }

  // ---- which mappings can be decoded

  /** What can be merged: a mapping or a reference to one. */
  predicate Mergeable(resolve: Resolver, u: Unfolded) {
    match u
    case Pairs(_) => Meaning(resolve, u).Composed?
    case Ref(_, target) => target.Pairs? && Meaning(resolve, target).Composed?
    case _ => false
  }

  /** An entry is a merge if its key is a plain "<<" or is tagged as one. A quoted "<<" is a key like any other, and a key
      is no collection. */
  predicate EntryDecodes(resolve: Resolver, k: Unfolded, v: Unfolded) {
    if k.Leaf? && k.value == "<<" && (k.implicit || k.tag == "tag:yaml.org,2002:merge") then
      match v
      case Items(items) => forall u | u in items :: Mergeable(resolve, u)
      case _ => Mergeable(resolve, v)
    else
      && Meaning(resolve, v).Composed?
      && match Meaning(resolve, k)
         case Composed(key) => key.Nil? || key.Atom?
         case _ => false
  }

  lemma OneMerges(resolve: Resolver, u: Unfolded, m: map<Value, Value>)
    ensures MergedOne(resolve, u, m).Composed? <==> Mergeable(resolve, u)
  {
    match u {
      case Pairs(children) => MergingOverrides(resolve, children, m);
      case Ref(_, target) =>
        if target.Pairs? {
          MergingOverrides(resolve, target.children, m);
        }
      case _ =>
    }
    hide Entries;
  }

  lemma {:induction false} AllMerge(resolve: Resolver, us: seq<Unfolded>, m: map<Value, Value>)
    ensures MergedAll(resolve, us, m).Composed? <==> forall u | u in us :: Mergeable(resolve, u)
    decreases |us|
  {
    hide MergedOne, Mergeable;
    if us != [] {
      var init, last := us[..|us| - 1], us[|us| - 1];
      assert us == init + [last];
      OneMerges(resolve, last, m);
      var r := MergedOne(resolve, last, m);
      if r.Composed? {
        AllMerge(resolve, init, r.value);
      }
    }
  }

  /** A mapping is decoded if and only if all of its entries are. */
  lemma {:induction false} MappingDecodes(resolve: Resolver, us: seq<Unfolded>, m: map<Value, Value>)
    requires |us| % 2 == 0
    ensures Entries(resolve, us, m).Composed? <==>
      forall i | 0 <= i < |us| && i % 2 == 0 :: EntryDecodes(resolve, us[i], us[i + 1])
    decreases |us|
  {
    if us != [] {
      var init, k, v := us[..|us| - 2], us[|us| - 2], us[|us| - 1];
      MappingDecodes(resolve, init, m);
      var before := Entries(resolve, init, m);
      EntryGoesOn(resolve, us, m);
      hide Entries, EntryDecodes, MergeKey;
      assert forall i | 0 <= i < |init| && i % 2 == 0 :: init[i] == us[i] && init[i + 1] == us[i + 1];
    }
  }

  lemma EntryGoesOn(resolve: Resolver, us: seq<Unfolded>, m: map<Value, Value>)
    requires |us| >= 2
    ensures Entries(resolve, us, m).Composed? <==>
      Entries(resolve, us[..|us| - 2], m).Composed? && EntryDecodes(resolve, us[|us| - 2], us[|us| - 1])
  {
    var k, v, before := us[|us| - 2], us[|us| - 1], Entries(resolve, us[..|us| - 2], m);
    hide Mergeable;
    if before.Composed? && MergeKey(k) {
      if v.Items? {
        AllMerge(resolve, v.items, before.value);
      } else {
        OneMerges(resolve, v, before.value);
      }
    }
    hide Meaning, MergedOne, MergedAll;
  }

  function Mapping(pairs: seq<Pair>): (t: Tree) {
    MappingTree(Props(None, "", true), true, pairs)
  }

  // {a: 1, <<: {a: 2}}
  const BEHIND: Tree := Mapping([Pair(Text(None, "a"), Text(None, "1")), Pair(Text(None, "<<"), Mapping([Pair(Text(None, "a"), Text(None, "2"))]))])

  function Plain(number: nat, value: string): (n: Node) {
    ScalarNode(number, "", value, true)
  }

  lemma NoPairs(m: map<string, nat>, n: nat)
    ensures PairEvents([]) == [] && PairNodes([], n) == [] && PairsAnchored(m, [], n) == m
  {
  }

  lemma OnePair(p: Pair, m: map<string, nat>, n: nat)
    ensures PairEvents([p]) == KeyValueEvents(p) && PairNodes([p], n) == KeyValueNodes(p, n)
    ensures PairsAnchored(m, [p], n) == KeyValueAnchored(m, p, n)
  {
    NoPairs(m, n);
    PairNodesGrow([], p, m, n);
    assert [] + [p] == [p];
  }

  lemma TextPair(key: string, value: string, m: map<string, nat>, n: nat)
    ensures var p := Pair(Text(None, key), Text(None, value));
      |KeyValueEvents(p)| == 2 && KeyValueNodes(p, n) == [Plain(n, key), Plain(n + 1, value)] && KeyValueAnchored(m, p, n) == m
  {
  }

  lemma BehindIs()
    ensures NodeOf(BEHIND, 2) == MappingNode(2, [Plain(3, "a"), Plain(4, "1"), Plain(5, "<<"), MappingNode(6, [Plain(7, "a"), Plain(8, "2")])])
    ensures Anchored(map[], BEHIND, 2) == map[]
  {
    var p, q, inner := BEHIND.pairs[0], BEHIND.pairs[1], BEHIND.pairs[1].value.pairs[0];
    TextPair("a", "1", map[], 3);
    TextPair("a", "2", map[], 7);
    OnePair(p, map[], 3);
    OnePair(inner, map[], 7);
    PairNodesGrow([p], q, map[], 3);
    assert [p] + [q] == [p, q];
  }

  const A_KEY := Atom("tag:yaml.org,2002:str", "a")
  const ONE := Atom("tag:yaml.org,2002:int", "1")
  const TWO := Atom("tag:yaml.org,2002:int", "2")

  const BEHIND_UNFOLDED: Unfolded :=
    Pairs([Leaf("", "a", true), Leaf("", "1", true), Leaf("", "<<", true), Pairs([Leaf("", "a", true), Leaf("", "2", true)])])

  lemma OneEntry(resolve: Resolver, us: seq<Unfolded>, k: Unfolded, v: Unfolded, m: map<Value, Value>)
    requires k.Leaf?
    ensures var before, key, value := Entries(resolve, us, m), Meaning(resolve, k), Meaning(resolve, v);
      Entries(resolve, us + [k, v], m) ==
        if !before.Composed? then Failed
        else if MergeKey(k) then Merged(resolve, v, before.value)
        else if key.Composed? && value.Composed? then Composed(before.value[key.value := value.value])
        else Failed
  {
    hide Merged;
    assert (us + [k, v])[..|us|] == us;
  }

  lemma TextMeans(resolve: Resolver, text: string)
    ensures Meaning(resolve, Leaf("", text, true)) == Answer(resolve, text)
  {
  }

  lemma PairsMean(resolve: Resolver, us: seq<Unfolded>, m: map<Value, Value>)
    ensures Merged(resolve, Pairs(us), m) == Entries(resolve, us, m)
    ensures var r := Entries(resolve, us, map[]); Meaning(resolve, Pairs(us)) == if r.Composed? then Composed(Dict(r.value)) else Failed
  {
    hide Entries;
  }

  /** The key is 1 from the entry and 2 from the merge key behind it. */
  lemma BehindMeans(resolve: Resolver)
    requires Answer(resolve, "a") == Composed(A_KEY)
    requires Answer(resolve, "1") == Composed(ONE)
    requires Answer(resolve, "2") == Composed(TWO)
    ensures Meaning(resolve, BEHIND_UNFOLDED) == Composed(Dict(map[A_KEY := TWO]))
  {
    hide Meaning, Merged, Entries, Answer;
    TextMeans(resolve, "a");
    TextMeans(resolve, "1");
    TextMeans(resolve, "2");
    PairsMean(resolve, BEHIND_UNFOLDED.children, map[]);
    var a, one, two, merge := Leaf("", "a", true), Leaf("", "1", true), Leaf("", "2", true), Leaf("", "<<", true);
    var own := map[A_KEY := ONE];
    EmptyEntries(resolve, map[]);
    EmptyEntries(resolve, own);
    OneEntry(resolve, [], a, one, map[]);
    OneEntry(resolve, [], a, two, own);
    OneEntry(resolve, [a, one], merge, Pairs([a, two]), map[]);
    assert [] + [a, one] == [a, one] && [] + [a, two] == [a, two];
    assert [a, one] + [merge, Pairs([a, two])] == BEHIND_UNFOLDED.children;
    assert Entries(resolve, [a, one], map[]) == Composed(own);
    PairsMean(resolve, [a, two], own);
    assert own[A_KEY := TWO] == map[A_KEY := TWO];
  }

  /** {a: 1, <<: {a: 2}}: the mapping's own entry loses to the merge key behind it. */
  method MergeBehind(resolve: Resolver) returns (r: Outcome<Value>)
    requires Answer(resolve, "a") == Composed(A_KEY)
    requires Answer(resolve, "1") == Composed(ONE)
    requires Answer(resolve, "2") == Composed(TWO)
    ensures LastExplicit(resolve, BEHIND_UNFOLDED.children, 0, A_KEY)
    ensures OverriddenAt(resolve, BEHIND_UNFOLDED.children, 0, A_KEY)
    ensures r == Composed(Dict(map[A_KEY := TWO]))
  {
    BehindOverrides(resolve);
    hide Refers, Unfolds, Meaning, Entries, ScalarMeaning, Answer, LastExplicit, OverriddenAt;
    BehindIs();
    BehindMeans(resolve);
    BehindUnfolds();
    var inner := MappingNode(6, [Plain(7, "a"), Plain(8, "2")]);
    r := Decoding(Doc(MappingNode(2, [Plain(3, "a"), Plain(4, "1"), Plain(5, "<<"), inner]), map[]), map[], resolve, BEHIND, 2, BEHIND_UNFOLDED);
  }

  lemma BehindUnfolds()
    ensures var root := MappingNode(2, [Plain(3, "a"), Plain(4, "1"), Plain(5, "<<"), MappingNode(6, [Plain(7, "a"), Plain(8, "2")])]);
      Refers(Doc(root, map[]), map[]) && Unfolds(map[], root, BEHIND_UNFOLDED)
  {
  }

  lemma BehindOverrides(resolve: Resolver)
    requires Answer(resolve, "a") == Composed(A_KEY)
    requires Answer(resolve, "1") == Composed(ONE)
    requires Answer(resolve, "2") == Composed(TWO)
    ensures LastExplicit(resolve, BEHIND_UNFOLDED.children, 0, A_KEY)
    ensures OverriddenAt(resolve, BEHIND_UNFOLDED.children, 0, A_KEY)
  {
    hide ScalarMeaning, Answer;
    PlainIs(resolve);
    var us, a := BEHIND_UNFOLDED.children, A_KEY;
    var k, two := Leaf("", "a", true), Leaf("", "2", true);
    EmptyEntries(resolve, map[]);
    OneEntry(resolve, [], k, two, map[]);
    assert [] + [k, two] == [k, two];
    assert Merged(resolve, us[3], map[]) == Composed(map[a := TWO]);
    hide Entries, Merged;
    assert LastMerge(resolve, us, 1, a);
    assert ValueAt(resolve, us, 0) == Composed(ONE);
  }
}
