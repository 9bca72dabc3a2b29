/** What the emitter prints, as a derivation of the parser's grammar: it is allowed, and it stands for the same documents. */
module YamlForms {
  import opened Basics
  import opened YamlEvents
  import opened YamlTokens
  import opened YamlParser
  import opened YamlGrammar
  import opened YamlAccepted
  import opened YamlLayout

  // ---- contents that can be read

  /** Properties that say what the event holds; nothing empty is written for an anchor or a tag. */
  predicate PropsKept(directives: seq<TagDirective>, props: Props, w: Written) {
    && w.anchor == props.anchor && w.anchor != Some("")
    && TagOf(directives, w) == Some(props.tag) && (w.tag.Some? ==> props.tag != "")
  }

  predicate ScalarKept(directives: seq<TagDirective>, props: Props, value: string, w: Writing, inFlow: bool, simple: bool) {
    && PropsKept(directives, props, w.written)
    && match w.text
      case None => !inFlow && !simple && value == ""
      case Some(word) => word.value == value && (inFlow || simple ==> !word.style.Block?)
  }

  /** Every content is written so that it says what its event holds. */
  predicate Legible(how: Settings, directives: seq<TagDirective>, t: Tree, inFlow: bool, simple: bool)
    decreases t, 1
  {
    match t
    case AliasTree(_) => true
    case ScalarTree(props, value, _, _) => ScalarKept(directives, props, value, how.content(Head(t), inFlow, simple), inFlow, simple)
    case SequenceTree(props, flow, items) =>
      && PropsKept(directives, props, how.content(Head(t), inFlow, simple).written)
      && ItemsLegible(how, directives, items, InFlow(how, inFlow, flow, items == []))
    case MappingTree(props, flow, pairs) =>
      && PropsKept(directives, props, how.content(Head(t), inFlow, simple).written)
      && PairsLegible(how, directives, pairs, InFlow(how, inFlow, flow, pairs == []))
  }

  predicate ItemsLegible(how: Settings, directives: seq<TagDirective>, items: seq<Tree>, inFlow: bool)
    decreases items, 0
  {
    items == [] || (
      && ItemsLegible(how, directives, items[..|items| - 1], inFlow)
      && Legible(how, directives, items[|items| - 1], inFlow, false))
  }

  predicate PairsLegible(how: Settings, directives: seq<TagDirective>, pairs: seq<Pair>, inFlow: bool)
    decreases pairs, 0
  {
    pairs == [] || (
      && PairsLegible(how, directives, pairs[..|pairs| - 1], inFlow)
      && PairLegible(how, directives, pairs[|pairs| - 1], inFlow))
  }

  predicate PairLegible(how: Settings, directives: seq<TagDirective>, p: Pair, inFlow: bool)
    decreases p, 2
  {
    match p case Pair(key, value) =>
      && Legible(how, directives, key, inFlow, Unmarked(how, key, inFlow))
      && Legible(how, directives, value, inFlow, false)
  }

  // ---- what is printed, as a derivation of the parser's grammar

  function SmallForm(e: Event, w: Writing): (r: Form) {
    match e
    case Alias(name) => Aliased(name)
    case _ =>
      if w.text.Some? then Text(w.written, w.text.value.value, w.text.value.style.Plain?)
      else if WrittenTokens(w.written) == [] then Nothing
      else Bare(w.written)
  }

  function NodeForm(how: Settings, t: Tree, inFlow: bool, tie: Tie, simple: bool): (r: Form)
    decreases t, 1
  {
    var w := how.content(Head(t), inFlow, simple);
    match t
    case AliasTree(name) => Aliased(name)
    case ScalarTree(_, _, _, _) => SmallForm(Head(t), w)
    case SequenceTree(props, flow, items) =>
      if InFlow(how, inFlow, flow, items == []) then
        FlowList(w.written, FlowItemForms(how, items), how.canonical && items != [])
      else if Loose(how, Head(t), tie) then IndentlessList(w.written, BlockItemForms(how, items))
      else BlockList(w.written, BlockItemForms(how, items))
    case MappingTree(props, flow, pairs) =>
      if InFlow(how, inFlow, flow, pairs == []) then
        FlowMap(w.written, PairForms(how, pairs, true), how.canonical && pairs != [])
      else BlockMap(w.written, PairForms(how, pairs, false))
  }

  function FlowItemForms(how: Settings, items: seq<Tree>): (r: seq<Entry>)
    ensures |r| == |items|
    decreases items, 0
  {
    if items == [] then []
    else FlowItemForms(how, items[..|items| - 1]) + [Single(NodeForm(how, items[|items| - 1], true, Apart, false))]
  }

  function BlockItemForms(how: Settings, items: seq<Tree>): (r: seq<Form>)
    ensures |r| == |items|
    decreases items, 0
  {
    if items == [] then []
    else BlockItemForms(how, items[..|items| - 1]) + [NodeForm(how, items[|items| - 1], false, Apart, false)]
  }

  function PairForms(how: Settings, pairs: seq<Pair>, inFlow: bool): (r: seq<Entry>)
    ensures |r| == |pairs|
    decreases pairs, 0
  {
    if pairs == [] then []
    else PairForms(how, pairs[..|pairs| - 1], inFlow) + [PairForm(how, pairs[|pairs| - 1], inFlow)]
  }

  function PairForm(how: Settings, p: Pair, inFlow: bool): (r: Entry)
    decreases p, 2
  {
    match p case Pair(key, value) =>
      Keyed(NodeForm(how, key, inFlow, Dense, Unmarked(how, key, inFlow)), true,
            NodeForm(how, value, inFlow, ValueTie(how, key, inFlow), false))
  }

  // ---- the derivation is allowed, and it means the same

  /** The same node, apart from flags and style. */
  predicate Same(a: Tree, b: Tree)
    decreases a, 1
  {
    match a
    case AliasTree(name) => b == AliasTree(name)
    case ScalarTree(props, value, _, _) =>
      b.ScalarTree? && props.anchor == b.props.anchor && props.tag == b.props.tag && value == b.value
    case SequenceTree(props, _, items) =>
      b.SequenceTree? && props.anchor == b.props.anchor && props.tag == b.props.tag && SameItems(items, b.items)
    case MappingTree(props, _, pairs) =>
      b.MappingTree? && props.anchor == b.props.anchor && props.tag == b.props.tag && SamePairs(pairs, b.pairs)
  }

  predicate SameItems(a: seq<Tree>, b: seq<Tree>)
    decreases a, 0
  {
    |a| == |b| && (a == [] || (SameItems(a[..|a| - 1], b[..|b| - 1]) && Same(a[|a| - 1], b[|b| - 1])))
  }

  predicate SamePairs(a: seq<Pair>, b: seq<Pair>)
    decreases a, 0
  {
    |a| == |b| && (a == [] || (SamePairs(a[..|a| - 1], b[..|b| - 1]) && SamePair(a[|a| - 1], b[|b| - 1])))
  }

  predicate SamePair(a: Pair, b: Pair)
    decreases a, 2
  {
    match a case Pair(key, value) => Same(key, b.key) && Same(value, b.value)
  }

  /** A node of a block mapping. */
  predicate InMap(inFlow: bool, tie: Tie) {
    !inFlow && !tie.Apart?
  }

  /** A legible node is printed so that it is parsed, and it is parsed to itself. */
  lemma {:induction false} NodeReread(how: Settings, directives: seq<TagDirective>, t: Tree, inFlow: bool, tie: Tie, simple: bool)
    requires Legible(how, directives, t, inFlow, simple)
    ensures var f := NodeForm(how, t, inFlow, tie, simple);
      Optional(directives, f, !inFlow, InMap(inFlow, tie)) && (inFlow || simple ==> !f.Nothing?) && Same(t, TreeOf(directives, f))
    decreases t, 1
  {
    match t {
      case AliasTree(name) =>
      case ScalarTree(props, value, quoted, plain) => ScalarReread(how, directives, t, inFlow, tie, simple);
      case SequenceTree(props, flow, items) => SequenceReread(how, directives, t, inFlow, tie, simple);
      case MappingTree(props, flow, pairs) => MappingReread(how, directives, t, inFlow, tie, simple);
    }
  }

  lemma ScalarReread(how: Settings, directives: seq<TagDirective>, t: Tree, inFlow: bool, tie: Tie, simple: bool)
    requires t.ScalarTree? && Legible(how, directives, t, inFlow, simple)
    ensures var f := NodeForm(how, t, inFlow, tie, simple);
      Optional(directives, f, !inFlow, InMap(inFlow, tie)) && (inFlow || simple ==> !f.Nothing?) && Same(t, TreeOf(directives, f))
  {
    hide WrittenTokens, Resolve;
    WrittenStarts(how.content(Head(t), inFlow, simple).written);
  }

  lemma {:induction false} SequenceReread(how: Settings, directives: seq<TagDirective>, t: Tree, inFlow: bool, tie: Tie, simple: bool)
    requires t.SequenceTree? && Legible(how, directives, t, inFlow, simple)
    ensures var f := NodeForm(how, t, inFlow, tie, simple);
      Optional(directives, f, !inFlow, InMap(inFlow, tie)) && !f.Nothing? && Same(t, TreeOf(directives, f))
    decreases t, 0
  {
    hide TagOf, FlowItemForms, BlockItemForms, ItemTrees, EntryTrees, SameItems, ItemsLegible, ListEntryAllowed;
    if InFlow(how, inFlow, t.flow, t.items == []) {
      FlowItemsReread(how, directives, t.items);
    } else {
      BlockItemsReread(how, directives, t.items);
    }
  }

  lemma {:induction false} MappingReread(how: Settings, directives: seq<TagDirective>, t: Tree, inFlow: bool, tie: Tie, simple: bool)
    requires t.MappingTree? && Legible(how, directives, t, inFlow, simple)
    ensures var f := NodeForm(how, t, inFlow, tie, simple);
      Optional(directives, f, !inFlow, InMap(inFlow, tie)) && !f.Nothing? && Same(t, TreeOf(directives, f))
    decreases t, 0
  {
    hide TagOf, PairForms, Pairs, SamePairs, PairsLegible, MapEntryAllowed, BlockEntryAllowed;
    var flow := InFlow(how, inFlow, t.flow, t.pairs == []);
    PairsReread(how, directives, t.pairs, flow);
    assert forall i | 0 <= i < |t.pairs| :: EntryAllowed(directives, PairForms(how, t.pairs, flow)[i], flow);
  }

  lemma {:induction false} FlowItemsReread(how: Settings, directives: seq<TagDirective>, items: seq<Tree>)
    requires ItemsLegible(how, directives, items, true)
    ensures var es := FlowItemForms(how, items);
      && (forall i | 0 <= i < |es| :: ListEntryAllowed(directives, es[i]))
      && SameItems(items, EntryTrees(directives, es))
    decreases items, 0
  {
    hide NodeForm, TreeOf, Same, Legible, Allowed;
    if items != [] {
      var init, t := items[..|items| - 1], items[|items| - 1];
      FlowItemsReread(how, directives, init);
      NodeReread(how, directives, t, true, Apart, false);
      var e := Single(NodeForm(how, t, true, Apart, false));
      EntryTreesGrow(directives, FlowItemForms(how, init), e);
    }
  }

  lemma EntryTreesGrow(directives: seq<TagDirective>, es: seq<Entry>, e: Entry)
    ensures EntryTrees(directives, es + [e]) == EntryTrees(directives, es) + [EntryTree(directives, e)]
    ensures Pairs(directives, es + [e]) == Pairs(directives, es) + [PairOf(directives, e)]
  {
    assert (es + [e])[..|es|] == es;
  }

  lemma ItemTreesGrow(directives: seq<TagDirective>, fs: seq<Form>, f: Form)
    ensures ItemTrees(directives, fs + [f]) == ItemTrees(directives, fs) + [TreeOf(directives, f)]
  {
    assert (fs + [f])[..|fs|] == fs;
  }

  lemma {:induction false} BlockItemsReread(how: Settings, directives: seq<TagDirective>, items: seq<Tree>)
    requires ItemsLegible(how, directives, items, false)
    ensures var fs := BlockItemForms(how, items);
      && (forall i | 0 <= i < |fs| :: Optional(directives, fs[i], true, false))
      && SameItems(items, ItemTrees(directives, fs))
    decreases items, 0
  {
    hide NodeForm, TreeOf, Same, Legible, Allowed;
    if items != [] {
      var init, t := items[..|items| - 1], items[|items| - 1];
      BlockItemsReread(how, directives, init);
      NodeReread(how, directives, t, false, Apart, false);
      ItemTreesGrow(directives, BlockItemForms(how, init), NodeForm(how, t, false, Apart, false));
    }
  }

  predicate EntryAllowed(directives: seq<TagDirective>, e: Entry, inFlow: bool) {
    if inFlow then MapEntryAllowed(directives, e) else BlockEntryAllowed(directives, e)
  }

  lemma {:induction false} PairsReread(how: Settings, directives: seq<TagDirective>, pairs: seq<Pair>, inFlow: bool)
    requires PairsLegible(how, directives, pairs, inFlow)
    ensures var es := PairForms(how, pairs, inFlow);
      (forall i | 0 <= i < |es| :: EntryAllowed(directives, es[i], inFlow)) && SamePairs(pairs, Pairs(directives, es))
    decreases pairs, 0
  {
    hide PairForm, PairOf, SamePair, PairLegible, EntryAllowed;
    if pairs != [] {
      var init, p := pairs[..|pairs| - 1], pairs[|pairs| - 1];
      PairsReread(how, directives, init, inFlow);
      PairReread(how, directives, p, inFlow);
      EntryTreesGrow(directives, PairForms(how, init, inFlow), PairForm(how, p, inFlow));
    }
  }

  lemma {:induction false} PairReread(how: Settings, directives: seq<TagDirective>, p: Pair, inFlow: bool)
    requires PairLegible(how, directives, p, inFlow)
    ensures var e := PairForm(how, p, inFlow); EntryAllowed(directives, e, inFlow) && SamePair(p, PairOf(directives, e))
    decreases p, 2
  {
    hide NodeForm, TreeOf, Same, Legible, Allowed;
    match p case Pair(key, value) =>
      NodeReread(how, directives, key, inFlow, Dense, Unmarked(how, key, inFlow));
      NodeReread(how, directives, value, inFlow, ValueTie(how, key, inFlow), false);
      var e := PairForm(how, p, inFlow);
      assert if inFlow then MapEntryAllowed(directives, e) else BlockEntryAllowed(directives, e);
  }

  // ---- whole streams

  function ScriptOf(how: Settings, d: Document, first: bool): (r: Script) {
    Script([], !Bareheaded(how, d.start, first), NodeForm(how, d.root, false, Apart, false), if d.end then 0 else 1)
  }

  function ScriptsOf(how: Settings, docs: seq<Document>): (r: seq<Script>)
    ensures |r| == |docs|
  {
    if docs == [] then []
    else ScriptsOf(how, docs[..|docs| - 1]) + [ScriptOf(how, docs[|docs| - 1], |docs| == 1)]
  }

  predicate DocumentsLegible(how: Settings, docs: seq<Document>) {
    forall d | d in docs :: Legible(how, DirectivesOf([]), d.root, false, false)
  }

  /** The first document goes without its mark, and nothing is printed for its root. */
  predicate Vanishes(how: Settings, docs: seq<Document>) {
    docs != [] && Bareheaded(how, docs[0].start, true) && NodeForm(how, docs[0].root, false, Apart, false).Nothing?
  }

  /** Documents with the same roots and ends. */
  predicate SameDocuments(a: seq<Document>, b: seq<Document>) {
    |a| == |b| && forall i | 0 <= i < |a| :: Same(a[i].root, b[i].root) && a[i].end == b[i].end
  }

  lemma {:induction false} ScriptsAre(how: Settings, docs: seq<Document>)
    ensures forall i | 0 <= i < |docs| :: ScriptsOf(how, docs)[i] == ScriptOf(how, docs[i], i == 0)
    ensures |DocumentsOf(ScriptsOf(how, docs))| == |docs|
    ensures forall i | 0 <= i < |docs| :: DocumentsOf(ScriptsOf(how, docs))[i] == DocumentOf(ScriptOf(how, docs[i], i == 0))
    decreases |docs|
  {
    hide ScriptOf, DocumentOf;
    if docs != [] {
      var init, d := docs[..|docs| - 1], docs[|docs| - 1];
      ScriptsAre(how, init);
      var scripts := ScriptsOf(how, init);
      var s := ScriptOf(how, d, |docs| == 1);
      assert ScriptsOf(how, docs) == scripts + [s];
      assert (scripts + [s])[..|scripts|] == scripts;
      assert DocumentsOf(scripts + [s]) == DocumentsOf(scripts) + [DocumentOf(s)];
    }
  }

  /** A legible stream is printed in the parser's grammar if and only if its first document is not lost, and it means the
      same documents. */
  lemma StreamReread(how: Settings, docs: seq<Document>)
    requires DocumentsLegible(how, docs)
    ensures StreamAllowed(ScriptsOf(how, docs)) <==> !Vanishes(how, docs)
    ensures SameDocuments(docs, DocumentsOf(ScriptsOf(how, docs)))
  {
    hide NodeForm, TreeOf, Same, Legible, Allowed, DirectivesOf, DocumentsOf, ScriptsOf;
    ScriptsAre(how, docs);
    forall i | 0 <= i < |docs|
      ensures ScriptAllowed(ScriptOf(how, docs[i], i == 0), i == 0) <==> !(i == 0 && Vanishes(how, docs))
      ensures Same(docs[i].root, DocumentOf(ScriptOf(how, docs[i], i == 0)).root)
    {
      assert docs[i] in docs;
      NodeReread(how, DirectivesOf([]), docs[i].root, false, Apart, false);
      NotNothing(DirectivesOf([]), true, false);
    }
    assert forall i | 0 <= i < |docs| :: ScriptsOf(how, docs)[i] == ScriptOf(how, docs[i], i == 0);
    if Vanishes(how, docs) {
      assert !ScriptAllowed(ScriptsOf(how, docs)[0], true);
    }
  }
}
