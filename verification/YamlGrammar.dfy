/** What the parser accepts: the grammar of token sequences, by its derivations.

    YamlComment compares it with the grammar of the comment at the head of parserc.go, from which it departs in four
    places. */
module YamlGrammar {
  import opened Basics
  import opened YamlEvents
  import opened YamlTokens
  import opened YamlParser

  // ---- derivations

  datatype TagName = TagName(handle: string, suffix: string)

  // The properties of a node as they are written.
  datatype Written = Written(anchor: Option<string>, tag: Option<TagName>, tagFirst: bool)

  // A node as it is written. `Nothing` is a node left out, and `Bare` one of properties alone.
  datatype Form =
    | Nothing
    | Aliased(name: string)
    | Bare(written: Written)
    | Text(written: Written, value: string, plain: bool)
    | FlowList(written: Written, entries: seq<Entry>, comma: bool)
    | FlowMap(written: Written, entries: seq<Entry>, comma: bool)
    | BlockList(written: Written, items: seq<Form>)
    | IndentlessList(written: Written, items: seq<Form>)
    | BlockMap(written: Written, entries: seq<Entry>)

  // An entry of a flow collection or of a block mapping; `colon` tells whether there is a VALUE token. One that is `Valued`
  // has no KEY token; the comment has it and the parser has not.
  datatype Entry =
    | Single(form: Form)
    | Keyed(key: Form, colon: bool, value: Form)
    | Swallowing(indicator: TokenType, colon: bool, value: Form)
    | Valued(value: Form)

  // A document as it is written: the directives in front of its mark, its root, and the number of DOCUMENT-ENDs behind
  // it. One that is not `marked` has neither directives nor a mark.
  datatype Script = Script(directives: seq<Token>, marked: bool, root: Form, ends: nat)

  // ---- their tokens

  function Sign(typ: TokenType): (t: Token) {
    Token(typ, "", "", "", false, 0, 0)
  }

  function AnchorTokens(w: Written): (r: seq<Token>) {
    if w.anchor.Some? then [Token(ANCHOR, w.anchor.value, "", "", false, 0, 0)] else []
  }

  function TagTokens(w: Written): (r: seq<Token>) {
    if w.tag.Some? then [Token(TAG, w.tag.value.handle, w.tag.value.suffix, "", false, 0, 0)] else []
  }

  function WrittenTokens(w: Written): (r: seq<Token>) {
    if w.tagFirst then TagTokens(w) + AnchorTokens(w) else AnchorTokens(w) + TagTokens(w)
  }

  function Comma(comma: bool): (r: seq<Token>) {
    if comma then [Sign(FLOW_ENTRY)] else []
  }

  function ColonTokens(colon: bool): (r: seq<Token>) {
    if colon then [Sign(VALUE)] else []
  }

  function FormTokens(f: Form): (r: seq<Token>)
    decreases f, 1
  {
    match f
    case Nothing => []
    case Aliased(name) => [Token(ALIAS, name, "", "", false, 0, 0)]
    case Bare(w) => WrittenTokens(w)
    case Text(w, value, plain) => WrittenTokens(w) + [Token(SCALAR, value, "", "", plain, 0, 0)]
    case FlowList(w, entries, comma) =>
      WrittenTokens(w) + [Sign(FLOW_SEQUENCE_START)] + (FlowTokens(entries) + Comma(comma)) + [Sign(FLOW_SEQUENCE_END)]
    case FlowMap(w, entries, comma) =>
      WrittenTokens(w) + [Sign(FLOW_MAPPING_START)] + (FlowTokens(entries) + Comma(comma)) + [Sign(FLOW_MAPPING_END)]
    case BlockList(w, items) => WrittenTokens(w) + [Sign(BLOCK_SEQUENCE_START)] + ItemTokens(items) + [Sign(BLOCK_END)]
    case IndentlessList(w, items) => WrittenTokens(w) + ItemTokens(items)
    case BlockMap(w, entries) => WrittenTokens(w) + [Sign(BLOCK_MAPPING_START)] + BlockTokens(entries) + [Sign(BLOCK_END)]
  }

  function ItemTokens(items: seq<Form>): (r: seq<Token>)
    decreases items, 0
  {
    if items == [] then []
    else ItemTokens(items[..|items| - 1]) + ([Sign(BLOCK_ENTRY)] + FormTokens(items[|items| - 1]))
  }

  function FlowTokens(entries: seq<Entry>): (r: seq<Token>)
    decreases entries, 0
  {
    if entries == [] then []
    else FlowTokens(entries[..|entries| - 1]) + (Comma(|entries| > 1) + EntryTokens(entries[|entries| - 1]))
  }

  function BlockTokens(entries: seq<Entry>): (r: seq<Token>)
    decreases entries, 0
  {
    if entries == [] then [] else BlockTokens(entries[..|entries| - 1]) + EntryTokens(entries[|entries| - 1])
  }

  function EntryTokens(e: Entry): (r: seq<Token>)
    decreases e, 2
  {
    match e
    case Single(form) => FormTokens(form)
    case Keyed(key, colon, value) => [Sign(KEY)] + FormTokens(key) + (ColonTokens(colon) + FormTokens(value))
    case Swallowing(indicator, colon, value) => [Sign(KEY), Sign(indicator)] + (ColonTokens(colon) + FormTokens(value))
    case Valued(value) => [Sign(VALUE)] + FormTokens(value)
  }

  function EndTokens(n: nat): (r: seq<Token>) {
    seq(n, _ => Sign(DOCUMENT_END))
  }

  function MarkTokens(marked: bool): (r: seq<Token>) {
    if marked then [Sign(DOCUMENT_START)] else []
  }

  function ScriptTokens(d: Script): (r: seq<Token>) {
    d.directives + MarkTokens(d.marked) + FormTokens(d.root) + EndTokens(d.ends)
  }

  function ScriptsTokens(ds: seq<Script>): (r: seq<Token>) {
    if ds == [] then [] else ScriptsTokens(ds[..|ds| - 1]) + ScriptTokens(ds[|ds| - 1])
  }

  function StreamTokens(ds: seq<Script>): (r: seq<Token>) {
    [Sign(STREAM_START)] + ScriptsTokens(ds) + [Sign(STREAM_END)]
  }

  // ---- which derivations are allowed

  function TagOf(directives: seq<TagDirective>, w: Written): (r: Option<string>) {
    match w.tag case None => Some("") case Some(t) => Resolve(directives, t.handle, t.suffix)
  }

  /** Something that makes up for a missing content. */
  predicate Says(directives: seq<TagDirective>, w: Written) {
    (w.anchor.Some? && w.anchor.value != "") || TagOf(directives, w) != Some("")
  }

  /** A node that is there. Block collections are for block nodes, and indentless ones for the nodes of block mappings. */
  predicate Allowed(directives: seq<TagDirective>, f: Form, block: bool, indentless: bool)
    decreases f, 1
  {
    match f
    case Nothing => false
    case Aliased(_) => true
    case Bare(w) => TagOf(directives, w).Some? && Says(directives, w)
    case Text(w, _, _) => TagOf(directives, w).Some?
    case FlowList(w, entries, comma) =>
      TagOf(directives, w).Some? && (comma ==> entries != [])
      && forall i | 0 <= i < |entries| :: ListEntryAllowed(directives, entries[i])
    case FlowMap(w, entries, comma) =>
      TagOf(directives, w).Some? && (comma ==> entries != [])
      && forall i | 0 <= i < |entries| :: MapEntryAllowed(directives, entries[i])
    case BlockList(w, items) =>
      block && TagOf(directives, w).Some? && forall i | 0 <= i < |items| :: Optional(directives, items[i], true, false)
    case IndentlessList(w, items) =>
      indentless && items != [] && TagOf(directives, w).Some?
      && forall i | 0 <= i < |items| :: Optional(directives, items[i], true, false)
    case BlockMap(w, entries) =>
      block && TagOf(directives, w).Some? && forall i | 0 <= i < |entries| :: BlockEntryAllowed(directives, entries[i])
  }

  /** A node that is there, or none. */
  predicate Optional(directives: seq<TagDirective>, f: Form, block: bool, indentless: bool)
    decreases f, 2
  {
    f.Nothing? || Allowed(directives, f, block, indentless)
  }

  /** A value, only behind a colon. */
  predicate ValueAllowed(directives: seq<TagDirective>, colon: bool, value: Form, block: bool)
    decreases value, 3
  {
    if colon then Optional(directives, value, block, block) else value.Nothing?
  }

  predicate ListEntryAllowed(directives: seq<TagDirective>, e: Entry)
    decreases e, 4
  {
    match e
    case Single(form) => Allowed(directives, form, false, false)
    case Keyed(key, colon, value) => Allowed(directives, key, false, false) && ValueAllowed(directives, colon, value, false)
    case Swallowing(indicator, colon, value) =>
      indicator in {VALUE, FLOW_ENTRY, FLOW_SEQUENCE_END} && ValueAllowed(directives, colon, value, false)
    case Valued(_) => false
  }

  predicate MapEntryAllowed(directives: seq<TagDirective>, e: Entry)
    decreases e, 4
  {
    match e
    case Single(form) => Allowed(directives, form, false, false)
    case Keyed(key, colon, value) => Optional(directives, key, false, false) && ValueAllowed(directives, colon, value, false)
    case _ => false
  }

  predicate BlockEntryAllowed(directives: seq<TagDirective>, e: Entry)
    decreases e, 4
  {
    match e
    case Keyed(key, colon, value) => Optional(directives, key, true, true) && ValueAllowed(directives, colon, value, true)
    case _ => false
  }

  predicate IsDirective(t: Token) {
    t.typ == TAG_DIRECTIVE || t.typ == VERSION_DIRECTIVE
  }

  /** At most one version, which is 1.1, and no handle twice. */
  predicate Proper(ts: seq<Token>) {
    && (forall i | 0 <= i < |ts| :: IsDirective(ts[i]) && (ts[i].typ == VERSION_DIRECTIVE ==> ts[i].major == 1 && ts[i].minor == 1))
    && (forall i, j | 0 <= i < j < |ts| && ts[i].typ == ts[j].typ :: ts[i].typ == TAG_DIRECTIVE && ts[i].value != ts[j].value)
  }

  function TagsOf(ts: seq<Token>): (r: seq<TagDirective>) {
    if ts == [] then []
    else
      var t := ts[|ts| - 1];
      TagsOf(ts[..|ts| - 1]) + (if t.typ == TAG_DIRECTIVE then [TagDirective(t.value, t.prefix)] else [])
  }

  /** The directives of a document: its own, and the default ones for the handles it leaves alone. */
  function DirectivesOf(ts: seq<Token>): (r: seq<TagDirective>) {
    WithDefault(WithDefault(TagsOf(ts), DEFAULT_DIRECTIVES[0]), DEFAULT_DIRECTIVES[1])
  }

  /** Only the first document may go without its mark, and then there has to be something of it. */
  predicate ScriptAllowed(d: Script, first: bool) {
    if d.marked then Proper(d.directives) && Optional(DirectivesOf(d.directives), d.root, true, false)
    else first && d.directives == [] && Allowed(DirectivesOf([]), d.root, true, false)
  }

  predicate StreamAllowed(ds: seq<Script>) {
    forall i | 0 <= i < |ds| :: ScriptAllowed(ds[i], i == 0)
  }

  // ---- what they mean

  function PropsOf(directives: seq<TagDirective>, w: Written): (r: Props) {
    var tag := if TagOf(directives, w).Some? then TagOf(directives, w).value else "";
    Props(w.anchor, tag, tag == "")
  }

  const EMPTY_TREE := ScalarTree(Props(None, "", true), "", false, true)

  function TextTree(props: Props, value: string, plain: bool): (r: Tree) {
    var implicit := (props.tag == "" && plain) || props.tag == "!";
    ScalarTree(props.(implicit := implicit), value, !implicit && props.tag == "", plain)
  }

  /** The node that is written so. */
  function TreeOf(directives: seq<TagDirective>, f: Form): (r: Tree)
    decreases f, 1
  {
    match f
    case Nothing => EMPTY_TREE
    case Aliased(name) => AliasTree(name)
    case Bare(w) => ScalarTree(PropsOf(directives, w), "", false, true)
    case Text(w, value, plain) => TextTree(PropsOf(directives, w), value, plain)
    case FlowList(w, entries, _) => SequenceTree(PropsOf(directives, w), true, EntryTrees(directives, entries))
    case FlowMap(w, entries, _) => MappingTree(PropsOf(directives, w), true, Pairs(directives, entries))
    case BlockList(w, items) => SequenceTree(PropsOf(directives, w), false, ItemTrees(directives, items))
    case IndentlessList(w, items) => SequenceTree(PropsOf(directives, w), false, ItemTrees(directives, items))
    case BlockMap(w, entries) => MappingTree(PropsOf(directives, w), false, Pairs(directives, entries))
  }

  function ItemTrees(directives: seq<TagDirective>, items: seq<Form>): (r: seq<Tree>)
    decreases items, 0
  {
    if items == [] then []
    else ItemTrees(directives, items[..|items| - 1]) + [TreeOf(directives, items[|items| - 1])]
  }

  /** In a flow sequence a pair is a mapping of its own. */
  function EntryTrees(directives: seq<TagDirective>, entries: seq<Entry>): (r: seq<Tree>)
    decreases entries, 0
  {
    if entries == [] then []
    else EntryTrees(directives, entries[..|entries| - 1]) + [EntryTree(directives, entries[|entries| - 1])]
  }

  function EntryTree(directives: seq<TagDirective>, e: Entry): (r: Tree)
    decreases e, 3
  {
    match e
    case Single(form) => TreeOf(directives, form)
    case _ => MappingTree(Props(None, "", true), true, [PairOf(directives, e)])
  }

  function Pairs(directives: seq<TagDirective>, entries: seq<Entry>): (r: seq<Pair>)
    decreases entries, 0
  {
    if entries == [] then []
    else Pairs(directives, entries[..|entries| - 1]) + [PairOf(directives, entries[|entries| - 1])]
  }

  function PairOf(directives: seq<TagDirective>, e: Entry): (r: Pair)
    decreases e, 2
  {
    match e
    case Single(form) => Pair(TreeOf(directives, form), EMPTY_TREE)
    case Keyed(key, _, value) => Pair(TreeOf(directives, key), TreeOf(directives, value))
    case Swallowing(_, _, value) => Pair(EMPTY_TREE, TreeOf(directives, value))
    case Valued(value) => Pair(EMPTY_TREE, TreeOf(directives, value))
  }

  /** The parser never reports the start of a document as implicit; its end is so unless it is marked. */
  function DocumentOf(d: Script): (r: Document) {
    Document(false, TreeOf(DirectivesOf(d.directives), d.root), d.ends == 0)
  }

  function DocumentsOf(ds: seq<Script>): (r: seq<Document>) {
    if ds == [] then [] else DocumentsOf(ds[..|ds| - 1]) + [DocumentOf(ds[|ds| - 1])]
  }

  // ---- tokens at a place

  /** The tokens `part` stand in `tokens` from `i` on. */
  ghost predicate Here(tokens: seq<Token>, i: nat, part: seq<Token>) {
    i + |part| <= |tokens| && tokens[i..i + |part|] == part
  }

  lemma HereConcat(tokens: seq<Token>, i: nat, a: seq<Token>, b: seq<Token>)
    ensures Here(tokens, i, a + b) <==> Here(tokens, i, a) && Here(tokens, i + |a|, b)
  {
    if Here(tokens, i, a + b) {
      assert tokens[i..i + |a + b|][..|a|] == a;
      assert tokens[i..i + |a + b|][|a|..] == b;
    }
    if Here(tokens, i, a) && Here(tokens, i + |a|, b) {
      assert tokens[i..i + |a + b|] == tokens[i..i + |a|] + tokens[i + |a|..i + |a| + |b|];
    }
  }

  lemma HereOne(tokens: seq<Token>, i: nat, t: Token)
    ensures Here(tokens, i, [t]) <==> i < |tokens| && tokens[i] == t
  {
    if i < |tokens| {
      assert tokens[i..i + 1] == [tokens[i]];
    }
  }

  /** A collection: properties, an opening token, what is inside, and a closing token. */
  lemma HereBracketed(tokens: seq<Token>, i: nat, w: seq<Token>, open: Token, inner: seq<Token>, close: Token)
    ensures Here(tokens, i, w + [open] + inner + [close]) <==>
      Here(tokens, i, w) && Here(tokens, i + |w| + 1, inner)
      && i + |w| < |tokens| && tokens[i + |w|] == open
      && i + |w| + 1 + |inner| < |tokens| && tokens[i + |w| + 1 + |inner|] == close
  {
    hide Here;
    HereConcat(tokens, i, w + [open] + inner, [close]);
    HereConcat(tokens, i, w + [open], inner);
    HereConcat(tokens, i, w, [open]);
    HereOne(tokens, i + |w|, open);
    HereOne(tokens, i + |w| + 1 + |inner|, close);
  }

  // ---- runs of the parser

  lemma {:induction false} AfterConcat(tokens: seq<Token>, p: Snap, a: seq<Event>, b: seq<Event>)
    requires After(tokens, p, a).Some?
    ensures After(tokens, p, a + b) == After(tokens, After(tokens, p, a).value, b)
  {
    hide Step;
    if b == [] {
      assert a + b == a;
    } else {
      assert (a + b)[..|a + b| - 1] == a + b[..|b| - 1];
      AfterConcat(tokens, p, a, b[..|b| - 1]);
    }
  }

  lemma AfterOne(tokens: seq<Token>, p: Snap, n: Next)
    requires Step(tokens, p) == Some(n)
    ensures After(tokens, p, [n.event]) == Some(n.after)
  {
    hide Step;
    assert [n.event][..0] == [];
    assert After(tokens, p, []) == Some(p);
  }

  /** One event, what it opens, and the event that closes that. */
  lemma Wrapped(tokens: seq<Token>, c: Snap, first: Event, q: Snap, inner: seq<Event>, r: Snap, last: Event, s: Snap)
    requires Step(tokens, c) == Some(Next(first, q)) && After(tokens, q, inner) == Some(r)
    requires Step(tokens, r) == Some(Next(last, s))
    ensures After(tokens, c, [first] + inner + [last]) == Some(s)
  {
    hide Step, After;
    AfterOne(tokens, c, Next(first, q));
    AfterConcat(tokens, c, [first], inner);
    AfterOne(tokens, r, Next(last, s));
    AfterConcat(tokens, c, [first] + inner, [last]);
  }

  /** A place from which the next step is the same. */
  lemma {:induction false} SameStep(tokens: seq<Token>, p: Snap, q: Snap, es: seq<Event>)
    requires Step(tokens, p) == Step(tokens, q) && es != []
    ensures After(tokens, p, es) == After(tokens, q, es)
  {
    hide Step;
    if |es| == 1 {
      assert es[..0] == [];
      assert After(tokens, p, []) == Some(p) && After(tokens, q, []) == Some(q);
    } else {
      SameStep(tokens, p, q, es[..|es| - 1]);
    }
  }

  lemma PropertiesStateless(tokens: seq<Token>, p: Snap, s: State)
    requires p.head < |tokens|
    ensures PropertiesAt(tokens, p.(state := s)) == match PropertiesAt(tokens, p)
      case None => None
      case Some(q) => Some(q.(after := q.after.(state := s)))
  {
    hide Resolve;
  }

  lemma ContentStateless(tokens: seq<Token>, p: Snap, s: State, block: bool, indentless: bool, anchor: Option<string>, tag: string)
    requires p.head < |tokens|
    ensures Content(tokens, p.(state := s), block, indentless, anchor, tag) == Content(tokens, p, block, indentless, anchor, tag)
  {
  }

  /** The state at hand does not matter to a node. */
  lemma NodeStateless(tokens: seq<Token>, p: Snap, s: State, block: bool, indentless: bool)
    ensures Node(tokens, p.(state := s), block, indentless) == Node(tokens, p, block, indentless)
  {
    hide PropertiesAt, Content;
    if p.head < |tokens| {
      PropertiesStateless(tokens, p, s);
      var o := PropertiesAt(tokens, p);
      if o.Some? {
        ContentStateless(tokens, o.value.after, s, block, indentless, o.value.anchor, o.value.tag);
      }
    }
  }

  /** Behind a node of `n` tokens. */
  function Landed(p: Snap, n: nat): (r: Snap)
    requires p.states != []
  {
    p.(head := p.head + n, state := p.states[|p.states| - 1], states := p.states[..|p.states| - 1])
  }

  // ---- nodes

  // What stands behind a node, whatever the node is inside of.
  const FOLLOWERS: set<TokenType> :=
    {BLOCK_ENTRY, BLOCK_END, KEY, VALUE, FLOW_ENTRY, FLOW_SEQUENCE_END, FLOW_MAPPING_END,
     DOCUMENT_END, DOCUMENT_START, VERSION_DIRECTIVE, TAG_DIRECTIVE, STREAM_END}

  // The same inside of a block mapping.
  const PAIR_FOLLOWERS: set<TokenType> := {KEY, VALUE, BLOCK_END}

  /** What stands at `i` ends a node. */
  predicate Ends(tokens: seq<Token>, i: nat, indentless: bool) {
    i < |tokens| && tokens[i].typ in if indentless then PAIR_FOLLOWERS else FOLLOWERS
  }

  lemma WrittenStarts(w: Written)
    ensures WrittenTokens(w) == [] <==> w.anchor.None? && w.tag.None?
    ensures WrittenTokens(w) != [] ==> WrittenTokens(w)[0].typ in {ANCHOR, TAG}
  {
  }

  /** The first token of a node is none that ends one. */
  lemma Starts(directives: seq<TagDirective>, f: Form, block: bool, indentless: bool)
    requires Allowed(directives, f, block, indentless)
    ensures FormTokens(f) != []
    ensures FormTokens(f)[0].typ !in FOLLOWERS || (indentless && FormTokens(f)[0].typ == BLOCK_ENTRY)
  {
    hide Resolve, WrittenTokens, ItemTokens, FlowTokens, BlockTokens, Optional, ListEntryAllowed, MapEntryAllowed, BlockEntryAllowed;
    match f {
      case Aliased(_) =>
      case Bare(w) => WrittenStarts(w);
      case Text(w, value, plain) => WrittenStarts(w);
      case FlowList(w, entries, comma) => WrittenStarts(w);
      case FlowMap(w, entries, comma) => WrittenStarts(w);
      case BlockList(w, items) => WrittenStarts(w);
      case IndentlessList(w, items) =>
        WrittenStarts(w);
        ItemsStart(items);
      case BlockMap(w, entries) => WrittenStarts(w);
    }
  }

  lemma {:induction false} ItemsStart(items: seq<Form>)
    requires items != []
    ensures ItemTokens(items) != [] && ItemTokens(items)[0] == Sign(BLOCK_ENTRY)
    decreases |items|
  {
    if |items| == 1 {
      assert ItemTokens(items[..0]) == [];
    } else {
      ItemsStart(items[..|items| - 1]);
    }
  }

  lemma PropertiesParsed(tokens: seq<Token>, p: Snap, w: Written)
    requires Here(tokens, p.head, WrittenTokens(w)) && p.head + |WrittenTokens(w)| < |tokens|
    requires tokens[p.head + |WrittenTokens(w)|].typ != ANCHOR && tokens[p.head + |WrittenTokens(w)|].typ != TAG
    requires !p.ended && TagOf(p.directives, w).Some?
    ensures PropertiesAt(tokens, p) ==
      Some(Properties(w.anchor, TagOf(p.directives, w).value, p.(head := p.head + |WrittenTokens(w)|)))
  {
    hide Resolve, Here;
    var a, t := AnchorTokens(w), TagTokens(w);
    HereConcat(tokens, p.head, a, t);
    HereConcat(tokens, p.head, t, a);
    forall i: nat ensures a != [] ==> (Here(tokens, i, a) ==> i < |tokens| && tokens[i] == a[0]) {
      if a != [] {
        HereOne(tokens, i, a[0]);
      }
    }
    forall i: nat ensures t != [] ==> (Here(tokens, i, t) ==> i < |tokens| && tokens[i] == t[0]) {
      if t != [] {
        HereOne(tokens, i, t[0]);
      }
    }
  }

  /** A node whose content is behind the properties `w`. */
  lemma NodeIs(tokens: seq<Token>, p: Snap, w: Written, block: bool, indentless: bool)
    requires Here(tokens, p.head, WrittenTokens(w)) && p.head + |WrittenTokens(w)| < |tokens|
    requires tokens[p.head + |WrittenTokens(w)|].typ !in {ANCHOR, TAG, ALIAS}
    requires !p.ended && TagOf(p.directives, w).Some?
    ensures Node(tokens, p, block, indentless) ==
      Content(tokens, p.(head := p.head + |WrittenTokens(w)|), block, indentless, w.anchor, TagOf(p.directives, w).value)
  {
    hide PropertiesAt, Content, TagOf, WrittenTokens;
    PropertiesParsed(tokens, p, w);
    WrittenStarts(w);
    if WrittenTokens(w) != [] {
      assert tokens[p.head] == tokens[p.head..p.head + |WrittenTokens(w)|][0];
    }
  }

  // ---- what the states do

  predicate InList(s: State) {
    s.BlockSequenceEntry? || s.IndentlessSequenceEntry?
  }

  /** What a missing item of a block sequence stands before. */
  function Stops(s: State): (r: set<TokenType>) {
    if s.BlockSequenceEntry? then {BLOCK_ENTRY, BLOCK_END} else {BLOCK_ENTRY, KEY, VALUE, BLOCK_END}
  }

  lemma ItemStep(tokens: seq<Token>, p: Snap)
    requires p.head < |tokens| && InList(p.state)
    ensures tokens[p.head].typ == BLOCK_ENTRY ==> Step(tokens, p) == NodeOrEmpty(tokens, p, p.state, Stops(p.state), true, false)
  {
    hide NodeOrEmpty;
  }

  lemma ItemsEnd(tokens: seq<Token>, p: Snap)
    requires p.head < |tokens| && p.states != [] && !p.ended
    ensures p.state.BlockSequenceEntry? && tokens[p.head].typ == BLOCK_END && p.marks > 0 ==>
      Step(tokens, p) == Some(Next(SequenceEnd, Landed(p.(marks := p.marks - 1), 1)))
    ensures p.state.IndentlessSequenceEntry? && tokens[p.head].typ != BLOCK_ENTRY ==>
      Step(tokens, p) == Some(Next(SequenceEnd, Landed(p, 0)))
  {
  }

  /** Behind the token that opens a block collection. */
  function BlockEntered(p: Snap, s: State): (r: Snap) {
    p.(head := p.head + 1, marks := p.marks + 1, state := s)
  }

  lemma EndingStateless(tokens: seq<Token>, p: Snap, s: State, event: Event, marked: bool, last: bool)
    ensures Ending(tokens, p.(state := s), event, marked, last) == Ending(tokens, p, event, marked, last)
  {
  }

  lemma PushingStateless(tokens: seq<Token>, p: Snap, s: State, t: State, block: bool, indentless: bool)
    ensures Pushing(tokens, p.(state := s), t, block, indentless) == Pushing(tokens, p, t, block, indentless)
  {
    hide Node;
    NodeStateless(tokens, p.(states := p.states + [t]), s, block, indentless);
  }

  lemma NodeOrEmptyStateless(tokens: seq<Token>, p: Snap, s: State, t: State, stop: set<TokenType>, block: bool, indentless: bool)
    requires p.head < |tokens|
    ensures NodeOrEmpty(tokens, p.(state := s), t, stop, block, indentless) == NodeOrEmpty(tokens, p, t, stop, block, indentless)
  {
    hide Pushing;
    PushingStateless(tokens, Skipped(tokens, p), s, t, block, indentless);
  }

  lemma BlockOpened(tokens: seq<Token>, p: Snap)
    requires p.head + 1 < |tokens| && !p.ended && tokens[p.head].typ != STREAM_END
    ensures p.state.BlockSequenceFirstEntry? ==> Step(tokens, p) == Step(tokens, BlockEntered(p, BlockSequenceEntry))
    ensures p.state.BlockMappingFirstKey? ==> Step(tokens, p) == Step(tokens, BlockEntered(p, BlockMappingKey))
  {
    hide NodeOrEmpty, Ending;
    var q := BlockEntered(p, p.state);
    NodeOrEmptyStateless(tokens, q, BlockSequenceEntry, BlockSequenceEntry, {BLOCK_ENTRY, BLOCK_END}, true, false);
    NodeOrEmptyStateless(tokens, q, BlockMappingKey, BlockMappingValue, {KEY, VALUE, BLOCK_END}, true, true);
    EndingStateless(tokens, q, BlockSequenceEntry, SequenceEnd, true, true);
    EndingStateless(tokens, q, BlockMappingKey, MappingEnd, true, true);
  }

  /** The same as Wrapped, where the collection opened is entered without an event of its own. */
  lemma WrappedOpen(tokens: seq<Token>, c: Snap, first: Event, q: Snap, o: Snap, inner: seq<Event>, r: Snap, last: Event, s: Snap)
    requires Step(tokens, c) == Some(Next(first, q)) && Step(tokens, q) == Step(tokens, o)
    requires After(tokens, o, inner) == Some(r) && Step(tokens, r) == Some(Next(last, s))
    ensures After(tokens, c, [first] + inner + [last]) == Some(s)
  {
    hide Step, After;
    AfterOne(tokens, r, Next(last, s));
    AfterConcat(tokens, o, inner, [last]);
    SameStep(tokens, q, o, inner + [last]);
    AfterOne(tokens, c, Next(first, q));
    AfterConcat(tokens, c, [first], inner + [last]);
    assert [first] + (inner + [last]) == [first] + inner + [last];
  }

  // ---- the parser goes through what is written

  /** A node in its place: the parser delivers its events and comes to the state that it was pushed for. */
  lemma {:induction false} FormParsed(tokens: seq<Token>, c: Snap, p: Snap, f: Form, block: bool, indentless: bool)
    requires Step(tokens, c) == Node(tokens, p, block, indentless)
    requires p.states != [] && !p.ended && Allowed(p.directives, f, block, indentless)
    requires Here(tokens, p.head, FormTokens(f)) && Ends(tokens, p.head + |FormTokens(f)|, indentless)
    ensures After(tokens, c, NodeEvents(TreeOf(p.directives, f))) == Some(Landed(p, |FormTokens(f)|))
    decreases f, 1
  {
    hide *;
    match f {
      case Nothing => NotNothing(p.directives, block, indentless);
      case Aliased(name) => AliasedParsed(tokens, c, p, name, block, indentless);
      case Bare(w) => BareParsed(tokens, c, p, w, block, indentless);
      case Text(w, value, plain) => TextParsed(tokens, c, p, w, value, plain, block, indentless);
      case FlowList(w, entries, comma) => FlowListParsed(tokens, c, p, w, entries, comma, block, indentless);
      case FlowMap(w, entries, comma) => FlowMapParsed(tokens, c, p, w, entries, comma, block, indentless);
      case BlockList(w, items) => BlockListParsed(tokens, c, p, w, items, block, indentless);
      case IndentlessList(w, items) => IndentlessListParsed(tokens, c, p, w, items, block, indentless);
      case BlockMap(w, entries) => BlockMapParsed(tokens, c, p, w, entries, block, indentless);
    }
  }

  lemma NotNothing(directives: seq<TagDirective>, block: bool, indentless: bool)
    ensures !Allowed(directives, Nothing, block, indentless)
  {
  }

  lemma AliasedParsed(tokens: seq<Token>, c: Snap, p: Snap, name: string, block: bool, indentless: bool)
    requires Step(tokens, c) == Node(tokens, p, block, indentless)
    requires p.states != [] && !p.ended && Here(tokens, p.head, FormTokens(Aliased(name)))
    ensures After(tokens, c, NodeEvents(TreeOf(p.directives, Aliased(name)))) == Some(Landed(p, |FormTokens(Aliased(name))|))
  {
    hide Step, After, Here, PropertiesAt, Content;
    HereOne(tokens, p.head, FormTokens(Aliased(name))[0]);
    AfterOne(tokens, c, Next(Alias(name), Landed(p, 1)));
  }

  lemma BareParsed(tokens: seq<Token>, c: Snap, p: Snap, w: Written, block: bool, indentless: bool)
    requires Step(tokens, c) == Node(tokens, p, block, indentless)
    requires p.states != [] && !p.ended && Allowed(p.directives, Bare(w), block, indentless)
    requires Here(tokens, p.head, FormTokens(Bare(w))) && Ends(tokens, p.head + |FormTokens(Bare(w))|, indentless)
    ensures After(tokens, c, NodeEvents(TreeOf(p.directives, Bare(w)))) == Some(Landed(p, |FormTokens(Bare(w))|))
  {
    hide Step, After, Here, WrittenTokens, TagOf, PropertiesAt, Node;
    NodeIs(tokens, p, w, block, indentless);
    AfterOne(tokens, c, Next(Scalar(PropsOf(p.directives, w), "", false, true), Landed(p, |FormTokens(Bare(w))|)));
  }

  lemma TextParsed(tokens: seq<Token>, c: Snap, p: Snap, w: Written, value: string, plain: bool, block: bool, indentless: bool)
    requires Step(tokens, c) == Node(tokens, p, block, indentless)
    requires p.states != [] && !p.ended && Allowed(p.directives, Text(w, value, plain), block, indentless)
    requires Here(tokens, p.head, FormTokens(Text(w, value, plain)))
    ensures After(tokens, c, NodeEvents(TreeOf(p.directives, Text(w, value, plain)))) == Some(Landed(p, |FormTokens(Text(w, value, plain))|))
  {
    hide Step, After, Here, WrittenTokens, TagOf, PropertiesAt, Node;
    var t := Token(SCALAR, value, "", "", plain, 0, 0);
    HereConcat(tokens, p.head, WrittenTokens(w), [t]);
    HereOne(tokens, p.head + |WrittenTokens(w)|, t);
    NodeIs(tokens, p, w, block, indentless);
    var tree := TextTree(PropsOf(p.directives, w), value, plain);
    AfterOne(tokens, c, Next(Scalar(tree.props, value, tree.quotedImplicit, plain), Landed(p, |WrittenTokens(w)| + 1)));
  }

  /** The content of a node that is a collection. */
  lemma CollectionIs(tokens: seq<Token>, p: Snap, w: Written, block: bool, indentless: bool)
    requires Here(tokens, p.head, WrittenTokens(w)) && p.head + |WrittenTokens(w)| < |tokens|
    requires !p.ended && TagOf(p.directives, w).Some?
    ensures var q, typ := p.(head := p.head + |WrittenTokens(w)|), tokens[p.head + |WrittenTokens(w)|].typ;
      var props, o := PropsOf(p.directives, w), Node(tokens, p, block, indentless);
      && (indentless && typ == BLOCK_ENTRY ==> o == Some(Next(SequenceStart(props, false), q.(state := IndentlessSequenceEntry))))
      && (typ == FLOW_SEQUENCE_START ==> o == Some(Next(SequenceStart(props, true), q.(state := FlowSequenceFirstEntry))))
      && (typ == FLOW_MAPPING_START ==> o == Some(Next(MappingStart(props, true), q.(state := FlowMappingFirstKey))))
      && (block && typ == BLOCK_SEQUENCE_START ==> o == Some(Next(SequenceStart(props, false), q.(state := BlockSequenceFirstEntry))))
      && (block && typ == BLOCK_MAPPING_START ==> o == Some(Next(MappingStart(props, false), q.(state := BlockMappingFirstKey))))
  {
    hide Node, PropertiesAt, WrittenTokens, TagOf, Here;
    if tokens[p.head + |WrittenTokens(w)|].typ !in {ANCHOR, TAG, ALIAS} {
      NodeIs(tokens, p, w, block, indentless);
    }
  }

  lemma {:induction false} BlockListParsed(tokens: seq<Token>, c: Snap, p: Snap, w: Written, items: seq<Form>, block: bool, indentless: bool)
    requires Step(tokens, c) == Node(tokens, p, block, indentless)
    requires p.states != [] && !p.ended && Allowed(p.directives, BlockList(w, items), block, indentless)
    requires Here(tokens, p.head, FormTokens(BlockList(w, items)))
    ensures After(tokens, c, NodeEvents(TreeOf(p.directives, BlockList(w, items))))
      == Some(Landed(p, |FormTokens(BlockList(w, items))|))
    decreases items, 3
  {
    hide Step, After, Here, Node, WrittenTokens, TagOf, ItemTokens, ItemEvents, ItemTrees, Optional;
    var n := |WrittenTokens(w)|;
    HereBracketed(tokens, p.head, WrittenTokens(w), Sign(BLOCK_SEQUENCE_START), ItemTokens(items), Sign(BLOCK_END));
    CollectionIs(tokens, p, w, true, indentless);
    var q := p.(head := p.head + n, state := BlockSequenceFirstEntry);
    BlockOpened(tokens, q);
    var o := BlockEntered(q, BlockSequenceEntry);
    ItemsParsed(tokens, o, items);
    var r := o.(head := o.head + |ItemTokens(items)|);
    ItemsEnd(tokens, r);
    WrappedOpen(tokens, c, SequenceStart(PropsOf(p.directives, w), false), q, o, ItemEvents(ItemTrees(p.directives, items)), r,
                SequenceEnd, Landed(r.(marks := r.marks - 1), 1));
  }

  lemma {:induction false} IndentlessListParsed(tokens: seq<Token>, c: Snap, p: Snap, w: Written, items: seq<Form>, block: bool, indentless: bool)
    requires Step(tokens, c) == Node(tokens, p, block, indentless)
    requires p.states != [] && !p.ended && Allowed(p.directives, IndentlessList(w, items), block, indentless)
    requires Here(tokens, p.head, FormTokens(IndentlessList(w, items)))
    requires Ends(tokens, p.head + |FormTokens(IndentlessList(w, items))|, indentless)
    ensures After(tokens, c, NodeEvents(TreeOf(p.directives, IndentlessList(w, items))))
      == Some(Landed(p, |FormTokens(IndentlessList(w, items))|))
    decreases items, 3
  {
    hide Step, After, Here, Node, WrittenTokens, TagOf, ItemTokens, ItemEvents, ItemTrees, Optional;
    var n := |WrittenTokens(w)|;
    HereConcat(tokens, p.head, WrittenTokens(w), ItemTokens(items));
    ItemsStart(items);
    assert tokens[p.head + n] == ItemTokens(items)[0] by { HereAt(tokens, p.head + n, ItemTokens(items), 0); }
    CollectionIs(tokens, p, w, block, true);
    var q := p.(head := p.head + n, state := IndentlessSequenceEntry);
    ItemsParsed(tokens, q, items);
    var r := q.(head := q.head + |ItemTokens(items)|);
    ItemsEnd(tokens, r);
    Wrapped(tokens, c, SequenceStart(PropsOf(p.directives, w), false), q, ItemEvents(ItemTrees(p.directives, items)), r,
            SequenceEnd, Landed(r, 0));
  }

  lemma HereAt(tokens: seq<Token>, i: nat, part: seq<Token>, k: nat)
    requires Here(tokens, i, part) && k < |part|
    ensures i + k < |tokens| && tokens[i + k] == part[k]
  {
    assert tokens[i..i + |part|][k] == tokens[i + k];
  }

  lemma {:induction false} ItemsParsed(tokens: seq<Token>, p: Snap, items: seq<Form>)
    requires InList(p.state) && !p.ended
    requires forall i | 0 <= i < |items| :: Optional(p.directives, items[i], true, false)
    requires Here(tokens, p.head, ItemTokens(items))
    requires p.head + |ItemTokens(items)| < |tokens| && tokens[p.head + |ItemTokens(items)|].typ in Stops(p.state)
    ensures After(tokens, p, ItemEvents(ItemTrees(p.directives, items))) == Some(p.(head := p.head + |ItemTokens(items)|))
    decreases items, 0
  {
    hide Step, Here, TreeOf, NodeEvents, Optional, FormTokens, NodeOrEmpty;
    if items != [] {
      var init, f := items[..|items| - 1], items[|items| - 1];
      HereConcat(tokens, p.head, ItemTokens(init), [Sign(BLOCK_ENTRY)] + FormTokens(f));
      HereConcat(tokens, p.head + |ItemTokens(init)|, [Sign(BLOCK_ENTRY)], FormTokens(f));
      HereOne(tokens, p.head + |ItemTokens(init)|, Sign(BLOCK_ENTRY));
      ItemsParsed(tokens, p, init);
      var q := p.(head := p.head + |ItemTokens(init)|);
      ItemStep(tokens, q);
      OptionalParsed(tokens, q, q, q.state, Stops(q.state), true, false, f);
      hide After;
      AfterConcat(tokens, p, ItemEvents(ItemTrees(p.directives, init)), NodeEvents(TreeOf(p.directives, f)));
    }
  }

  lemma NothingTokens()
    ensures FormTokens(Nothing) == []
  {
  }

  lemma NothingParsed(tokens: seq<Token>, c: Snap, q: Snap)
    requires Step(tokens, c) == Some(Next(EMPTY_SCALAR, q))
    ensures forall ds :: After(tokens, c, NodeEvents(TreeOf(ds, Nothing))) == Some(q)
  {
    hide Step, After;
    AfterOne(tokens, c, Next(EMPTY_SCALAR, q));
  }

  /** Back from a node that `s` was pushed for. */
  lemma LandedBack(p: Snap, s: State, n: nat)
    ensures Landed(p.(states := p.states + [s]), n) == p.(head := p.head + n, state := s)
  {
  }

  /** Behind an indicator: a node or none, before one of `stop`. */
  lemma {:induction false} OptionalParsed(tokens: seq<Token>, c: Snap, p: Snap, s: State, stop: set<TokenType>, block: bool, indentless: bool, f: Form)
    requires p.head < |tokens| && tokens[p.head].typ != STREAM_END && !p.ended
    requires Step(tokens, c) == NodeOrEmpty(tokens, p, s, stop, block, indentless)
    requires Optional(p.directives, f, block, indentless) && Here(tokens, p.head + 1, FormTokens(f))
    requires p.head + 1 + |FormTokens(f)| < |tokens| && tokens[p.head + 1 + |FormTokens(f)|].typ in stop
    requires stop <= if indentless then PAIR_FOLLOWERS else FOLLOWERS
    ensures After(tokens, c, NodeEvents(TreeOf(p.directives, f))) == Some(p.(head := p.head + 1 + |FormTokens(f)|, state := s))
    decreases f, 2
  {
    hide Step, After, Here, Node, Allowed, NodeEvents, TreeOf, FormTokens, Landed;
    var q := Skipped(tokens, p);
    NothingTokens();
    if f.Nothing? {
      NothingParsed(tokens, c, q.(state := s));
    } else {
      LandedBack(q, s, |FormTokens(f)|);
      Starts(p.directives, f, block, indentless);
      HereAt(tokens, q.head, FormTokens(f), 0);
      FormParsed(tokens, c, q.(states := q.states + [s]), f, block, indentless);
    }
  }

  // ---- mappings and flow collections

  /** A value behind its colon, or none. */
  lemma {:induction false} ValueParsed(tokens: seq<Token>, p: Snap, s: State, stop: set<TokenType>, colon: bool, f: Form, block: bool)
    requires p.head < |tokens| && !p.ended && ValueAllowed(p.directives, colon, f, block)
    requires Step(tokens, p) == if tokens[p.head].typ == VALUE then NodeOrEmpty(tokens, p, s, stop, block, block) else Missing(p, s)
    requires Here(tokens, p.head, ColonTokens(colon) + FormTokens(f))
    requires p.head + |ColonTokens(colon) + FormTokens(f)| < |tokens|
    requires tokens[p.head + |ColonTokens(colon) + FormTokens(f)|].typ in stop - {VALUE}
    requires stop <= if block then PAIR_FOLLOWERS else FOLLOWERS
    ensures After(tokens, p, NodeEvents(TreeOf(p.directives, f)))
      == Some(p.(head := p.head + |ColonTokens(colon) + FormTokens(f)|, state := s))
    decreases f, 4
  {
    hide Step, After, Here, NodeOrEmpty, Optional;
    HereConcat(tokens, p.head, ColonTokens(colon), FormTokens(f));
    if colon {
      HereOne(tokens, p.head, Sign(VALUE));
      OptionalParsed(tokens, p, p, s, stop, block, block, f);
    } else {
      AfterOne(tokens, p, Next(EMPTY_SCALAR, p.(state := s)));
    }
  }

  lemma OnePair(key: Tree, value: Tree)
    ensures PairEvents([Pair(key, value)]) == NodeEvents(key) + NodeEvents(value)
  {
    hide NodeEvents;
    assert PairEvents([]) == [];
    assert [Pair(key, value)][..0] == [];
  }

  lemma {:induction false} BlockMapParsed(tokens: seq<Token>, c: Snap, p: Snap, w: Written, entries: seq<Entry>, block: bool, indentless: bool)
    requires Step(tokens, c) == Node(tokens, p, block, indentless)
    requires p.states != [] && !p.ended && Allowed(p.directives, BlockMap(w, entries), block, indentless)
    requires Here(tokens, p.head, FormTokens(BlockMap(w, entries)))
    ensures After(tokens, c, NodeEvents(TreeOf(p.directives, BlockMap(w, entries))))
      == Some(Landed(p, |FormTokens(BlockMap(w, entries))|))
    decreases entries, 6
  {
    hide Step, After, Here, Node, WrittenTokens, TagOf, BlockTokens, PairEvents, Pairs, BlockEntryAllowed;
    var n := |WrittenTokens(w)|;
    HereBracketed(tokens, p.head, WrittenTokens(w), Sign(BLOCK_MAPPING_START), BlockTokens(entries), Sign(BLOCK_END));
    CollectionIs(tokens, p, w, true, indentless);
    var q := p.(head := p.head + n, state := BlockMappingFirstKey);
    BlockOpened(tokens, q);
    var o := BlockEntered(q, BlockMappingKey);
    BlockEntriesParsed(tokens, o, entries);
    var r := o.(head := o.head + |BlockTokens(entries)|);
    KeysEnd(tokens, r);
    WrappedOpen(tokens, c, MappingStart(PropsOf(p.directives, w), false), q, o, PairEvents(Pairs(p.directives, entries)), r,
                MappingEnd, Landed(r.(marks := r.marks - 1), 1));
  }

  lemma KeyStep(tokens: seq<Token>, p: Snap)
    requires p.head < |tokens| && p.state.BlockMappingKey?
    ensures tokens[p.head].typ == KEY ==> Step(tokens, p) == NodeOrEmpty(tokens, p, BlockMappingValue, PAIR_FOLLOWERS, true, true)
  {
    hide NodeOrEmpty, Ending;
  }

  lemma KeysEnd(tokens: seq<Token>, p: Snap)
    requires p.head < |tokens| && !p.ended && p.state.BlockMappingKey? && p.marks > 0 && p.states != []
    ensures tokens[p.head].typ == BLOCK_END ==> Step(tokens, p) == Some(Next(MappingEnd, Landed(p.(marks := p.marks - 1), 1)))
  {
    hide NodeOrEmpty;
  }

  lemma ValueStep(tokens: seq<Token>, p: Snap)
    requires p.head < |tokens| && p.state.BlockMappingValue?
    ensures Step(tokens, p) == (
      if tokens[p.head].typ == VALUE then NodeOrEmpty(tokens, p, BlockMappingKey, PAIR_FOLLOWERS, true, true)
      else Missing(p, BlockMappingKey))
  {
    hide NodeOrEmpty;
  }

  lemma {:induction false} BlockEntriesParsed(tokens: seq<Token>, p: Snap, entries: seq<Entry>)
    requires p.state.BlockMappingKey? && !p.ended
    requires forall i | 0 <= i < |entries| :: BlockEntryAllowed(p.directives, entries[i])
    requires Here(tokens, p.head, BlockTokens(entries))
    requires p.head + |BlockTokens(entries)| < |tokens| && tokens[p.head + |BlockTokens(entries)|].typ in {KEY, BLOCK_END}
    ensures After(tokens, p, PairEvents(Pairs(p.directives, entries))) == Some(p.(head := p.head + |BlockTokens(entries)|))
    decreases entries, 0
  {
    hide Step, Here, PairOf, KeyValueEvents, EntryTokens, BlockEntryAllowed;
    if entries != [] {
      var init, e := entries[..|entries| - 1], entries[|entries| - 1];
      HereConcat(tokens, p.head, BlockTokens(init), EntryTokens(e));
      assert tokens[p.head + |BlockTokens(init)|] == Sign(KEY) by {
        EntryStarts(p.directives, e);
        HereAt(tokens, p.head + |BlockTokens(init)|, EntryTokens(e), 0);
      }
      BlockEntriesParsed(tokens, p, init);
      var q := p.(head := p.head + |BlockTokens(init)|);
      BlockEntryParsed(tokens, q, e);
      hide After;
      AfterConcat(tokens, p, PairEvents(Pairs(p.directives, init)), KeyValueEvents(PairOf(p.directives, e)));
    }
  }

  lemma EntryStarts(directives: seq<TagDirective>, e: Entry)
    requires BlockEntryAllowed(directives, e)
    ensures EntryTokens(e) != [] && EntryTokens(e)[0] == Sign(KEY)
  {
  }

  lemma {:induction false} BlockEntryParsed(tokens: seq<Token>, p: Snap, e: Entry)
    requires p.state.BlockMappingKey? && !p.ended && BlockEntryAllowed(p.directives, e)
    requires Here(tokens, p.head, EntryTokens(e))
    requires p.head + |EntryTokens(e)| < |tokens| && tokens[p.head + |EntryTokens(e)|].typ in {KEY, BLOCK_END}
    ensures After(tokens, p, KeyValueEvents(PairOf(p.directives, e))) == Some(p.(head := p.head + |EntryTokens(e)|))
    decreases e, 5
  {
    hide Step, After, Here, NodeEvents, TreeOf, FormTokens, NodeOrEmpty, Optional;
    match e case Keyed(key, colon, value) =>
      var behind := ColonTokens(colon) + FormTokens(value);
      HereConcat(tokens, p.head, [Sign(KEY)] + FormTokens(key), behind);
      HereConcat(tokens, p.head, [Sign(KEY)], FormTokens(key));
      HereOne(tokens, p.head, Sign(KEY));
      KeyStep(tokens, p);
      BehindKey(tokens, p.head + 1 + |FormTokens(key)|, colon, value);
      OptionalParsed(tokens, p, p, BlockMappingValue, PAIR_FOLLOWERS, true, true, key);
      var q := p.(head := p.head + 1 + |FormTokens(key)|, state := BlockMappingValue);
      ValueStep(tokens, q);
      ValueParsed(tokens, q, BlockMappingKey, PAIR_FOLLOWERS, colon, value, true);
      AfterConcat(tokens, p, NodeEvents(TreeOf(p.directives, key)), NodeEvents(TreeOf(p.directives, value)));
  }

  /** Behind a key there is a colon, or what stands behind the pair. */
  lemma BehindKey(tokens: seq<Token>, i: nat, colon: bool, value: Form)
    requires Here(tokens, i, ColonTokens(colon) + FormTokens(value)) && i + |ColonTokens(colon) + FormTokens(value)| < |tokens|
    requires !colon ==> value.Nothing?
    ensures i < |tokens| && tokens[i].typ == if colon then VALUE else tokens[i + |ColonTokens(colon) + FormTokens(value)|].typ
  {
    if colon {
      HereAt(tokens, i, ColonTokens(colon) + FormTokens(value), 0);
    }
  }

  /** Inside a flow collection, before its first entry or behind some. */
  function Amid(q: Snap, entries: seq<Entry>, s: State): (r: Snap) {
    if entries == [] then q else q.(state := s, marks := q.marks + 1, head := q.head + 1 + |FlowTokens(entries)|)
  }

  /** At the first token of the next entry, or at the end of the collection. */
  lemma EntryAt(tokens: seq<Token>, q: Snap, entries: seq<Entry>, s: State, comma: bool, end: TokenType) returns (e: Snap)
    requires !q.ended && q.head < |tokens| && tokens[q.head].typ != STREAM_END && end != FLOW_ENTRY
    requires entries == [] ==> !comma
    requires Here(tokens, q.head + 1 + |FlowTokens(entries)|, Comma(comma))
    requires q.head + 1 + |FlowTokens(entries)| + |Comma(comma)| < |tokens|
    requires entries != [] && !comma ==> tokens[q.head + 1 + |FlowTokens(entries)|].typ == end
    ensures e.(state := q.state) == q.(marks := q.marks + 1, head := q.head + 1 + |FlowTokens(entries)| + |Comma(comma)|)
    ensures FlowEntryAt(tokens, Amid(q, entries, s), entries == [], end) == Some(e)
  {
    hide Here, FlowTokens;
    NoItems(tokens, q);
    if comma {
      HereOne(tokens, q.head + 1 + |FlowTokens(entries)|, Sign(FLOW_ENTRY));
    }
    e := Amid(q, entries, s).(marks := q.marks + 1, head := q.head + 1 + |FlowTokens(entries)| + |Comma(comma)|);
  }

  /** What is done at the first token of an entry of a flow sequence, or at its end. */
  function ListBody(tokens: seq<Token>, e: Snap): (r: Option<Next>)
    requires e.head < |tokens|
  {
    if tokens[e.head].typ == KEY then Some(Next(FLOW_PAIR, Skipped(tokens, e.(state := FlowSequenceEntryMappingKey))))
    else if tokens[e.head].typ != FLOW_SEQUENCE_END then Pushing(tokens, e, FlowSequenceEntry, false, false)
    else Ending(tokens, e, SequenceEnd, true, true)
  }

  /** The same for a flow mapping. */
  function MapBody(tokens: seq<Token>, e: Snap): (r: Option<Next>)
    requires e.head < |tokens|
  {
    if tokens[e.head].typ == KEY then NodeOrEmpty(tokens, e, FlowMappingValue, {VALUE, FLOW_ENTRY, FLOW_MAPPING_END}, false, false)
    else if tokens[e.head].typ != FLOW_MAPPING_END then Pushing(tokens, e, FlowMappingEmptyValue, false, false)
    else Ending(tokens, e, MappingEnd, true, true)
  }

  lemma ListStep(tokens: seq<Token>, q: Snap, entries: seq<Entry>, e: Snap)
    requires q.state.FlowSequenceFirstEntry?
    requires FlowEntryAt(tokens, Amid(q, entries, FlowSequenceEntry), entries == [], FLOW_SEQUENCE_END) == Some(e)
    ensures e.head < |tokens| && Step(tokens, Amid(q, entries, FlowSequenceEntry)) == ListBody(tokens, e)
  {
    hide FlowEntryAt, Pushing, Ending, FlowTokens, Skipped;
  }

  lemma MapStep(tokens: seq<Token>, q: Snap, entries: seq<Entry>, e: Snap)
    requires q.state.FlowMappingFirstKey?
    requires FlowEntryAt(tokens, Amid(q, entries, FlowMappingKey), entries == [], FLOW_MAPPING_END) == Some(e)
    ensures e.head < |tokens| && Step(tokens, Amid(q, entries, FlowMappingKey)) == MapBody(tokens, e)
  {
    hide FlowEntryAt, Pushing, Ending, NodeOrEmpty, FlowTokens, Skipped;
  }

  /** The end of a flow sequence, and with it of the node that it is. */
  lemma ListEnds(tokens: seq<Token>, q: Snap, entries: seq<Entry>, comma: bool)
    requires q.state.FlowSequenceFirstEntry? && !q.ended && q.head < |tokens| && tokens[q.head].typ != STREAM_END && q.states != [] && (entries == [] ==> !comma)
    requires Here(tokens, q.head + 1 + |FlowTokens(entries)|, Comma(comma))
    requires q.head + 1 + |FlowTokens(entries)| + |Comma(comma)| < |tokens|
    requires tokens[q.head + 1 + |FlowTokens(entries)| + |Comma(comma)|].typ == FLOW_SEQUENCE_END
    ensures Step(tokens, Amid(q, entries, FlowSequenceEntry)) ==
      Some(Next(SequenceEnd, Landed(q, 2 + |FlowTokens(entries)| + |Comma(comma)|)))
  {
    hide Here, FlowEntryAt, Step, FlowTokens, Comma, Amid, NodeOrEmpty, Pushing;
    BeforeEnd(tokens, q.head + 1 + |FlowTokens(entries)|, comma);
    var e := EntryAt(tokens, q, entries, FlowSequenceEntry, comma, FLOW_SEQUENCE_END);
    ListStep(tokens, q, entries, e);
  }

  /** The same for a flow mapping. */
  lemma MapEnds(tokens: seq<Token>, q: Snap, entries: seq<Entry>, comma: bool)
    requires q.state.FlowMappingFirstKey? && !q.ended && q.head < |tokens| && tokens[q.head].typ != STREAM_END && q.states != [] && (entries == [] ==> !comma)
    requires Here(tokens, q.head + 1 + |FlowTokens(entries)|, Comma(comma))
    requires q.head + 1 + |FlowTokens(entries)| + |Comma(comma)| < |tokens|
    requires tokens[q.head + 1 + |FlowTokens(entries)| + |Comma(comma)|].typ == FLOW_MAPPING_END
    ensures Step(tokens, Amid(q, entries, FlowMappingKey)) ==
      Some(Next(MappingEnd, Landed(q, 2 + |FlowTokens(entries)| + |Comma(comma)|)))
  {
    hide Here, FlowEntryAt, Step, FlowTokens, Comma, Amid, NodeOrEmpty, Pushing;
    BeforeEnd(tokens, q.head + 1 + |FlowTokens(entries)|, comma);
    var e := EntryAt(tokens, q, entries, FlowMappingKey, comma, FLOW_MAPPING_END);
    MapStep(tokens, q, entries, e);
  }

  lemma {:induction false} FlowListParsed(tokens: seq<Token>, c: Snap, p: Snap, w: Written, entries: seq<Entry>, comma: bool, block: bool, indentless: bool)
    requires Step(tokens, c) == Node(tokens, p, block, indentless)
    requires p.states != [] && !p.ended && Allowed(p.directives, FlowList(w, entries, comma), block, indentless)
    requires Here(tokens, p.head, FormTokens(FlowList(w, entries, comma)))
    ensures After(tokens, c, NodeEvents(TreeOf(p.directives, FlowList(w, entries, comma))))
      == Some(Landed(p, |FormTokens(FlowList(w, entries, comma))|))
    decreases entries, 6
  {
    hide Step, After, Here, Node, WrittenTokens, TagOf, FlowTokens, ItemEvents, EntryTrees, ListEntryAllowed, Amid, Comma;
    var inner := FlowTokens(entries) + Comma(comma);
    HereBracketed(tokens, p.head, WrittenTokens(w), Sign(FLOW_SEQUENCE_START), inner, Sign(FLOW_SEQUENCE_END));
    CollectionIs(tokens, p, w, block, indentless);
    var q := p.(head := p.head + |WrittenTokens(w)|, state := FlowSequenceFirstEntry);
    HereConcat(tokens, q.head + 1, FlowTokens(entries), Comma(comma));
    BeforeEnd(tokens, q.head + 1 + |FlowTokens(entries)|, comma);
    ListEntriesParsed(tokens, q, entries);
    ListEnds(tokens, q, entries, comma);
    Wrapped(tokens, c, SequenceStart(PropsOf(p.directives, w), true), q, ItemEvents(EntryTrees(p.directives, entries)),
            Amid(q, entries, FlowSequenceEntry), SequenceEnd, Landed(p, |FormTokens(FlowList(w, entries, comma))|));
  }

  lemma BeforeEnd(tokens: seq<Token>, i: nat, comma: bool)
    requires Here(tokens, i, Comma(comma)) && i + |Comma(comma)| < |tokens|
    ensures tokens[i] == if comma then Sign(FLOW_ENTRY) else tokens[i + |Comma(comma)|]
  {
    if comma {
      HereOne(tokens, i, Sign(FLOW_ENTRY));
    }
  }

  lemma NoneAmid(q: Snap, s: State)
    ensures Amid(q, [], s) == q && FlowTokens([]) == []
  {
  }

  /** Behind one more entry. */
  lemma AmidNext(q: Snap, entries: seq<Entry>, s: State, at: Snap)
    requires entries != []
    requires var init := entries[..|entries| - 1];
      at.(state := q.state) == q.(marks := q.marks + 1, head := q.head + 1 + |FlowTokens(init)| + |Comma(init != [])|)
    ensures Amid(q, entries, s) == at.(head := at.head + |EntryTokens(entries[|entries| - 1])|, state := s)
  {
    hide EntryTokens;
  }

  lemma {:induction false} ListEntriesParsed(tokens: seq<Token>, q: Snap, entries: seq<Entry>)
    requires q.state.FlowSequenceFirstEntry? && !q.ended && q.head < |tokens| && tokens[q.head].typ != STREAM_END
    requires forall i | 0 <= i < |entries| :: ListEntryAllowed(q.directives, entries[i])
    requires Here(tokens, q.head + 1, FlowTokens(entries))
    requires q.head + 1 + |FlowTokens(entries)| < |tokens|
    requires tokens[q.head + 1 + |FlowTokens(entries)|].typ in {FLOW_ENTRY, FLOW_SEQUENCE_END}
    ensures After(tokens, q, ItemEvents(EntryTrees(q.directives, entries))) == Some(Amid(q, entries, FlowSequenceEntry))
    decreases entries, 1
  {
    hide Step, After, Here, ItemEvents, EntryTrees, EntryTree, NodeEvents, PairEvents, Pairs, PairOf, KeyValueEvents, ListEntryAllowed, MapEntryAllowed;
    hide EntryTokens, FlowTokens, FlowEntryAt, ListBody, MapBody, Comma, Amid;
    NoItems(tokens, q);
    NoneAmid(q, FlowSequenceEntry);
    if entries != [] {
      MoreEntries(q.directives, entries);
      var init, e := entries[..|entries| - 1], entries[|entries| - 1];
      var i := q.head + 1 + |FlowTokens(init)|;
      HereConcat(tokens, q.head + 1, FlowTokens(init), Comma(init != []) + EntryTokens(e));
      HereConcat(tokens, i, Comma(init != []), EntryTokens(e));
      BeforeEnd(tokens, i, init != []);
      if init != [] {
        ListEntriesParsed(tokens, q, init);
      }
      LastListEntryParsed(tokens, q, entries);
      AfterConcat(tokens, q, ItemEvents(EntryTrees(q.directives, init)), NodeEvents(EntryTree(q.directives, e)));
    }
  }

  lemma {:induction false} LastListEntryParsed(tokens: seq<Token>, q: Snap, entries: seq<Entry>)
    requires q.state.FlowSequenceFirstEntry? && !q.ended && q.head < |tokens| && tokens[q.head].typ != STREAM_END
    requires entries != [] && ListEntryAllowed(q.directives, entries[|entries| - 1])
    requires var init, e := entries[..|entries| - 1], entries[|entries| - 1];
      var i := q.head + 1 + |FlowTokens(init)|;
      && Here(tokens, i, Comma(init != [])) && Here(tokens, i + |Comma(init != [])|, EntryTokens(e))
      && i + |Comma(init != [])| + |EntryTokens(e)| < |tokens|
      && tokens[i + |Comma(init != [])| + |EntryTokens(e)|].typ in {FLOW_ENTRY, FLOW_SEQUENCE_END}
    ensures var init, e := entries[..|entries| - 1], entries[|entries| - 1];
      After(tokens, Amid(q, init, FlowSequenceEntry), NodeEvents(EntryTree(q.directives, e))) == Some(Amid(q, entries, FlowSequenceEntry))
    decreases entries, 0
  {
    hide Step, After, Here, EntryTree, NodeEvents, ListEntryAllowed, EntryTokens, FlowTokens, FlowEntryAt, ListBody, Comma, Amid;
    var init, e := entries[..|entries| - 1], entries[|entries| - 1];
    var at := EntryAt(tokens, q, init, FlowSequenceEntry, init != [], FLOW_SEQUENCE_END);
    ListStep(tokens, q, init, at);
    AmidNext(q, entries, FlowSequenceEntry, at);
    ListEntryParsed(tokens, Amid(q, init, FlowSequenceEntry), at, e);
  }

  lemma NoItems(tokens: seq<Token>, q: Snap)
    ensures FlowTokens([]) == []
    ensures After(tokens, q, ItemEvents(EntryTrees(q.directives, []))) == Some(q)
    ensures After(tokens, q, PairEvents(Pairs(q.directives, []))) == Some(q)
  {
    hide Step;
  }

  lemma MoreEntries(directives: seq<TagDirective>, entries: seq<Entry>)
    requires entries != []
    ensures var init, e := entries[..|entries| - 1], entries[|entries| - 1];
      && FlowTokens(entries) == FlowTokens(init) + (Comma(init != []) + EntryTokens(e))
      && ItemEvents(EntryTrees(directives, entries)) == ItemEvents(EntryTrees(directives, init)) + NodeEvents(EntryTree(directives, e))
      && PairEvents(Pairs(directives, entries)) == PairEvents(Pairs(directives, init)) + KeyValueEvents(PairOf(directives, e))
  {
    hide NodeEvents, KeyValueEvents, EntryTree, PairOf, EntryTokens, Comma;
  }

  /** An entry of a flow sequence: a node, or a single pair. */
  lemma {:induction false} ListEntryParsed(tokens: seq<Token>, c: Snap, p: Snap, e: Entry)
    requires p.head < |tokens| && !p.ended && ListEntryAllowed(p.directives, e)
    requires Step(tokens, c) == ListBody(tokens, p)
    requires Here(tokens, p.head, EntryTokens(e))
    requires p.head + |EntryTokens(e)| < |tokens| && tokens[p.head + |EntryTokens(e)|].typ in {FLOW_ENTRY, FLOW_SEQUENCE_END}
    ensures After(tokens, c, NodeEvents(EntryTree(p.directives, e)))
      == Some(p.(head := p.head + |EntryTokens(e)|, state := FlowSequenceEntry))
    decreases e, 8
  {
    hide Step, After, Here, NodeEvents, TreeOf, FormTokens, Allowed, Node;
    match e {
      case Single(form) =>
        Starts(p.directives, form, false, false);
        HereAt(tokens, p.head, FormTokens(form), 0);
        LandedBack(p, FlowSequenceEntry, |FormTokens(form)|);
        FormParsed(tokens, c, p.(states := p.states + [FlowSequenceEntry]), form, false, false);
      case Keyed(key, colon, value) => PairParsed(tokens, c, p, e);
      case Swallowing(indicator, colon, value) => PairParsed(tokens, c, p, e);
      case Valued(_) =>
    }
  }

  lemma PairStep(tokens: seq<Token>, p: Snap)
    requires p.head < |tokens|
    ensures p.state.FlowSequenceEntryMappingKey? && tokens[p.head].typ !in FOLLOWERS ==>
      Step(tokens, p) == Pushing(tokens, p, FlowSequenceEntryMappingValue, false, false)
    ensures p.state.FlowSequenceEntryMappingKey? && tokens[p.head].typ in {VALUE, FLOW_ENTRY, FLOW_SEQUENCE_END} ==>
      Step(tokens, p) == Missing(Skipped(tokens, p), FlowSequenceEntryMappingValue)
  {
    hide NodeOrEmpty, Pushing;
  }

  lemma {:induction false} PairParsed(tokens: seq<Token>, c: Snap, p: Snap, e: Entry)
    requires p.head < |tokens| && !p.ended && ListEntryAllowed(p.directives, e) && (e.Keyed? || e.Swallowing?)
    requires Step(tokens, c) == ListBody(tokens, p)
    requires Here(tokens, p.head, EntryTokens(e))
    requires p.head + |EntryTokens(e)| < |tokens| && tokens[p.head + |EntryTokens(e)|].typ in {FLOW_ENTRY, FLOW_SEQUENCE_END}
    ensures After(tokens, c, NodeEvents(EntryTree(p.directives, e)))
      == Some(p.(head := p.head + |EntryTokens(e)|, state := FlowSequenceEntry))
    decreases e, 7
  {
    hide Step, After, Here, PairOf, EntryTokens, Pushing, Ending, ListEntryAllowed, PairEvents;
    PairStarts(e);
    HereAt(tokens, p.head, EntryTokens(e), 0);
    var q := p.(head := p.head + 1, state := FlowSequenceEntryMappingKey);
    KeyAndValueParsed(tokens, q, e);
    var r := p.(head := p.head + |EntryTokens(e)|, state := FlowSequenceEntryMappingEnd);
    PairEnd(tokens, r);
    Wrapped(tokens, c, FLOW_PAIR, q, PairEvents([PairOf(p.directives, e)]), r, MappingEnd,
            p.(head := p.head + |EntryTokens(e)|, state := FlowSequenceEntry));
  }

  lemma PairStarts(e: Entry)
    requires e.Keyed? || e.Swallowing?
    ensures EntryTokens(e) != [] && EntryTokens(e)[0] == Sign(KEY)
  {
  }

  lemma PairEnd(tokens: seq<Token>, p: Snap)
    requires p.head < |tokens| && p.state.FlowSequenceEntryMappingEnd?
    ensures Step(tokens, p) == Some(Next(MappingEnd, p.(state := FlowSequenceEntry)))
  {
  }

  /** The inside of a single pair. */
  lemma {:induction false} KeyAndValueParsed(tokens: seq<Token>, q: Snap, e: Entry)
    requires q.state.FlowSequenceEntryMappingKey? && q.head > 0 && !q.ended && !e.Single? && ListEntryAllowed(q.directives, e)
    requires Here(tokens, q.head - 1, EntryTokens(e))
    requires q.head - 1 + |EntryTokens(e)| < |tokens| && tokens[q.head - 1 + |EntryTokens(e)|].typ in {FLOW_ENTRY, FLOW_SEQUENCE_END}
    ensures After(tokens, q, PairEvents([PairOf(q.directives, e)]))
      == Some(q.(head := q.head - 1 + |EntryTokens(e)|, state := FlowSequenceEntryMappingEnd))
    decreases e, 6
  {
    hide Step, After, Here, TreeOf, FormTokens, Allowed, NodeOrEmpty, ColonTokens, Optional, NodeEvents, PairEvents, ValueAllowed;
    var behind := ColonTokens(e.colon) + FormTokens(e.value);
    var before := |EntryTokens(e)| - |behind|;
    assert EntryTokens(e) == EntryTokens(e)[..before] + behind;
    HereConcat(tokens, q.head - 1, EntryTokens(e)[..before], behind);
    ValueMissing(q.directives, e.colon, e.value);
    BehindKey(tokens, q.head - 1 + before, e.colon, e.value);
    KeyParsed(tokens, q, e, before);
    var v := q.(head := q.head - 1 + before, state := FlowSequenceEntryMappingValue);
    PairValueStep(tokens, v);
    ValueParsed(tokens, v, FlowSequenceEntryMappingEnd, {FLOW_ENTRY, FLOW_SEQUENCE_END}, e.colon, e.value, false);
    var pair := PairOf(q.directives, e);
    AfterConcat(tokens, q, NodeEvents(pair.key), NodeEvents(pair.value));
    OnePair(pair.key, pair.value);
  }

  lemma ValueMissing(directives: seq<TagDirective>, colon: bool, value: Form)
    ensures ValueAllowed(directives, colon, value, false) && !colon ==> value.Nothing?
  {
  }

  lemma PairValueStep(tokens: seq<Token>, p: Snap)
    requires p.head < |tokens| && p.state.FlowSequenceEntryMappingValue?
    ensures Step(tokens, p) ==
      if tokens[p.head].typ == VALUE then NodeOrEmpty(tokens, p, FlowSequenceEntryMappingEnd, {FLOW_ENTRY, FLOW_SEQUENCE_END}, false, false)
      else Missing(p, FlowSequenceEntryMappingEnd)
  {
    hide NodeOrEmpty;
  }

  /** The key of a single pair, or the indicator that is swallowed in its place. */
  lemma {:induction false} KeyParsed(tokens: seq<Token>, q: Snap, e: Entry, before: nat)
    requires q.state.FlowSequenceEntryMappingKey? && q.head > 0 && !q.ended && !e.Single? && ListEntryAllowed(q.directives, e)
    requires before == |EntryTokens(e)| - |ColonTokens(e.colon) + FormTokens(e.value)|
    requires Here(tokens, q.head - 1, EntryTokens(e)[..before])
    requires q.head - 1 + before < |tokens| && tokens[q.head - 1 + before].typ in {VALUE, FLOW_ENTRY, FLOW_SEQUENCE_END}
    ensures After(tokens, q, NodeEvents(PairOf(q.directives, e).key))
      == Some(q.(head := q.head - 1 + before, state := FlowSequenceEntryMappingValue))
    decreases e, 5
  {
    hide Step, After, Here, TreeOf, FormTokens, Allowed, Node, NodeEvents;
    match e {
      case Keyed(key, colon, value) =>
        assert EntryTokens(e)[..before] == [Sign(KEY)] + FormTokens(key);
        HereConcat(tokens, q.head - 1, [Sign(KEY)], FormTokens(key));
        Starts(q.directives, key, false, false);
        HereAt(tokens, q.head, FormTokens(key), 0);
        PairStep(tokens, q);
        LandedBack(q, FlowSequenceEntryMappingValue, |FormTokens(key)|);
        FormParsed(tokens, q, q.(states := q.states + [FlowSequenceEntryMappingValue]), key, false, false);
      case Swallowing(indicator, colon, value) =>
        assert EntryTokens(e)[..before] == [Sign(KEY), Sign(indicator)];
        HereAt(tokens, q.head - 1, EntryTokens(e)[..before], 1);
        PairStep(tokens, q);
        EmptyParsed(tokens, q, q.(head := q.head + 1, state := FlowSequenceEntryMappingValue));
    }
  }

  lemma EmptyParsed(tokens: seq<Token>, c: Snap, q: Snap)
    requires Step(tokens, c) == Some(Next(EMPTY_SCALAR, q))
    ensures After(tokens, c, NodeEvents(EMPTY_TREE)) == Some(q)
  {
    hide Step, After;
    AfterOne(tokens, c, Next(EMPTY_SCALAR, q));
  }

  lemma {:induction false} FlowMapParsed(tokens: seq<Token>, c: Snap, p: Snap, w: Written, entries: seq<Entry>, comma: bool, block: bool, indentless: bool)
    requires Step(tokens, c) == Node(tokens, p, block, indentless)
    requires p.states != [] && !p.ended && Allowed(p.directives, FlowMap(w, entries, comma), block, indentless)
    requires Here(tokens, p.head, FormTokens(FlowMap(w, entries, comma)))
    ensures After(tokens, c, NodeEvents(TreeOf(p.directives, FlowMap(w, entries, comma))))
      == Some(Landed(p, |FormTokens(FlowMap(w, entries, comma))|))
    decreases entries, 6
  {
    hide Step, After, Here, Node, WrittenTokens, TagOf, FlowTokens, PairEvents, Pairs, MapEntryAllowed, Amid, Comma;
    var inner := FlowTokens(entries) + Comma(comma);
    HereBracketed(tokens, p.head, WrittenTokens(w), Sign(FLOW_MAPPING_START), inner, Sign(FLOW_MAPPING_END));
    CollectionIs(tokens, p, w, block, indentless);
    var q := p.(head := p.head + |WrittenTokens(w)|, state := FlowMappingFirstKey);
    HereConcat(tokens, q.head + 1, FlowTokens(entries), Comma(comma));
    BeforeEnd(tokens, q.head + 1 + |FlowTokens(entries)|, comma);
    MapEntriesParsed(tokens, q, entries);
    MapEnds(tokens, q, entries, comma);
    Wrapped(tokens, c, MappingStart(PropsOf(p.directives, w), true), q, PairEvents(Pairs(p.directives, entries)),
            Amid(q, entries, FlowMappingKey), MappingEnd, Landed(p, |FormTokens(FlowMap(w, entries, comma))|));
  }

  lemma {:induction false} MapEntriesParsed(tokens: seq<Token>, q: Snap, entries: seq<Entry>)
    requires q.state.FlowMappingFirstKey? && !q.ended && q.head < |tokens| && tokens[q.head].typ != STREAM_END
    requires forall i | 0 <= i < |entries| :: MapEntryAllowed(q.directives, entries[i])
    requires Here(tokens, q.head + 1, FlowTokens(entries))
    requires q.head + 1 + |FlowTokens(entries)| < |tokens|
    requires tokens[q.head + 1 + |FlowTokens(entries)|].typ in {FLOW_ENTRY, FLOW_MAPPING_END}
    ensures After(tokens, q, PairEvents(Pairs(q.directives, entries))) == Some(Amid(q, entries, FlowMappingKey))
    decreases entries, 1
  {
    hide Step, After, Here, ItemEvents, EntryTrees, EntryTree, NodeEvents, PairEvents, Pairs, PairOf, KeyValueEvents, ListEntryAllowed, MapEntryAllowed;
    hide EntryTokens, FlowTokens, FlowEntryAt, ListBody, MapBody, Comma, Amid;
    NoItems(tokens, q);
    NoneAmid(q, FlowMappingKey);
    if entries != [] {
      MoreEntries(q.directives, entries);
      var init, e := entries[..|entries| - 1], entries[|entries| - 1];
      var i := q.head + 1 + |FlowTokens(init)|;
      HereConcat(tokens, q.head + 1, FlowTokens(init), Comma(init != []) + EntryTokens(e));
      HereConcat(tokens, i, Comma(init != []), EntryTokens(e));
      BeforeEnd(tokens, i, init != []);
      if init != [] {
        MapEntriesParsed(tokens, q, init);
      }
      LastMapEntryParsed(tokens, q, entries);
      AfterConcat(tokens, q, PairEvents(Pairs(q.directives, init)), KeyValueEvents(PairOf(q.directives, e)));
    }
  }

  lemma {:induction false} LastMapEntryParsed(tokens: seq<Token>, q: Snap, entries: seq<Entry>)
    requires q.state.FlowMappingFirstKey? && !q.ended && q.head < |tokens| && tokens[q.head].typ != STREAM_END
    requires entries != [] && MapEntryAllowed(q.directives, entries[|entries| - 1])
    requires var init, e := entries[..|entries| - 1], entries[|entries| - 1];
      var i := q.head + 1 + |FlowTokens(init)|;
      && Here(tokens, i, Comma(init != [])) && Here(tokens, i + |Comma(init != [])|, EntryTokens(e))
      && i + |Comma(init != [])| + |EntryTokens(e)| < |tokens|
      && tokens[i + |Comma(init != [])| + |EntryTokens(e)|].typ in {FLOW_ENTRY, FLOW_MAPPING_END}
    ensures var init, e := entries[..|entries| - 1], entries[|entries| - 1];
      After(tokens, Amid(q, init, FlowMappingKey), KeyValueEvents(PairOf(q.directives, e))) == Some(Amid(q, entries, FlowMappingKey))
    decreases entries, 0
  {
    hide Step, After, Here, PairOf, KeyValueEvents, MapEntryAllowed, EntryTokens, FlowTokens, FlowEntryAt, MapBody, Comma, Amid;
    var init, e := entries[..|entries| - 1], entries[|entries| - 1];
    var at := EntryAt(tokens, q, init, FlowMappingKey, init != [], FLOW_MAPPING_END);
    MapStep(tokens, q, init, at);
    AmidNext(q, entries, FlowMappingKey, at);
    MapEntryParsed(tokens, Amid(q, init, FlowMappingKey), at, e);
  }

  lemma MapValueStep(tokens: seq<Token>, p: Snap)
    requires p.head < |tokens|
    ensures p.state.FlowMappingEmptyValue? ==> Step(tokens, p) == Missing(p, FlowMappingKey)
    ensures p.state.FlowMappingValue? ==> (Step(tokens, p) ==
      if tokens[p.head].typ == VALUE then NodeOrEmpty(tokens, p, FlowMappingKey, {FLOW_ENTRY, FLOW_MAPPING_END}, false, false)
      else Missing(p, FlowMappingKey))
  {
    hide NodeOrEmpty;
  }

  /** An entry of a flow mapping: a pair, or a key alone. */
  lemma {:induction false} MapEntryParsed(tokens: seq<Token>, c: Snap, p: Snap, e: Entry)
    requires p.head < |tokens| && !p.ended && MapEntryAllowed(p.directives, e)
    requires Step(tokens, c) == MapBody(tokens, p)
    requires Here(tokens, p.head, EntryTokens(e))
    requires p.head + |EntryTokens(e)| < |tokens| && tokens[p.head + |EntryTokens(e)|].typ in {FLOW_ENTRY, FLOW_MAPPING_END}
    ensures After(tokens, c, KeyValueEvents(PairOf(p.directives, e)))
      == Some(p.(head := p.head + |EntryTokens(e)|, state := FlowMappingKey))
    decreases e, 8
  {
    if e.Single? {
      SingleParsed(tokens, c, p, e);
    } else {
      KeyedParsed(tokens, c, p, e);
    }
  }

  lemma {:induction false} SingleParsed(tokens: seq<Token>, c: Snap, p: Snap, e: Entry)
    requires p.head < |tokens| && !p.ended && e.Single? && MapEntryAllowed(p.directives, e)
    requires Step(tokens, c) == MapBody(tokens, p)
    requires Here(tokens, p.head, EntryTokens(e))
    requires p.head + |EntryTokens(e)| < |tokens| && tokens[p.head + |EntryTokens(e)|].typ in {FLOW_ENTRY, FLOW_MAPPING_END}
    ensures After(tokens, c, KeyValueEvents(PairOf(p.directives, e)))
      == Some(p.(head := p.head + |EntryTokens(e)|, state := FlowMappingKey))
    decreases e, 7
  {
    hide Step, After, Here, NodeEvents, TreeOf, FormTokens, Allowed, Node, NodeOrEmpty, Ending, Landed;
    var form := e.form;
    Starts(p.directives, form, false, false);
    HereAt(tokens, p.head, FormTokens(form), 0);
    LandedBack(p, FlowMappingEmptyValue, |FormTokens(form)|);
    FormParsed(tokens, c, p.(states := p.states + [FlowMappingEmptyValue]), form, false, false);
    var q := p.(head := p.head + |FormTokens(form)|, state := FlowMappingEmptyValue);
    MapValueStep(tokens, q);
    EmptyParsed(tokens, q, q.(state := FlowMappingKey));
    AfterConcat(tokens, c, NodeEvents(TreeOf(p.directives, form)), NodeEvents(EMPTY_TREE));
  }

  lemma {:induction false} KeyedParsed(tokens: seq<Token>, c: Snap, p: Snap, e: Entry)
    requires p.head < |tokens| && !p.ended && !e.Single? && MapEntryAllowed(p.directives, e)
    requires Step(tokens, c) == MapBody(tokens, p)
    requires Here(tokens, p.head, EntryTokens(e))
    requires p.head + |EntryTokens(e)| < |tokens| && tokens[p.head + |EntryTokens(e)|].typ in {FLOW_ENTRY, FLOW_MAPPING_END}
    ensures After(tokens, c, KeyValueEvents(PairOf(p.directives, e)))
      == Some(p.(head := p.head + |EntryTokens(e)|, state := FlowMappingKey))
    decreases e, 7
  {
    hide Step, After, Here, NodeEvents, TreeOf, FormTokens, NodeOrEmpty, Ending, Pushing, Optional, ColonTokens;
    match e case Keyed(key, colon, value) =>
      var behind := ColonTokens(colon) + FormTokens(value);
      HereConcat(tokens, p.head, [Sign(KEY)] + FormTokens(key), behind);
      HereConcat(tokens, p.head, [Sign(KEY)], FormTokens(key));
      HereOne(tokens, p.head, Sign(KEY));
      BehindKey(tokens, p.head + 1 + |FormTokens(key)|, colon, value);
      OptionalParsed(tokens, c, p, FlowMappingValue, {VALUE, FLOW_ENTRY, FLOW_MAPPING_END}, false, false, key);
      var q := p.(head := p.head + 1 + |FormTokens(key)|, state := FlowMappingValue);
      MapValueStep(tokens, q);
      ValueParsed(tokens, q, FlowMappingKey, {FLOW_ENTRY, FLOW_MAPPING_END}, colon, value, false);
      AfterConcat(tokens, c, NodeEvents(TreeOf(p.directives, key)), NodeEvents(TreeOf(p.directives, value)));
  }

  // ---- documents

  predicate Versioned(ts: seq<Token>) {
    exists i | 0 <= i < |ts| :: ts[i].typ == VERSION_DIRECTIVE
  }

  lemma {:induction false} FoundIn(ds: seq<TagDirective>, handle: string)
    ensures Declared(ds, handle) <==> exists i | 0 <= i < |ds| :: ds[i].handle == handle
  {
    if ds != [] && ds[0].handle != handle {
      FoundIn(ds[1..], handle);
      if i :| 0 <= i < |ds| && ds[i].handle == handle {
        assert ds[1..][i - 1].handle == handle;
      }
    }
  }

  lemma {:induction false} TagsAre(ts: seq<Token>, handle: string)
    ensures Declared(TagsOf(ts), handle) <==> exists i | 0 <= i < |ts| :: ts[i].typ == TAG_DIRECTIVE && ts[i].value == handle
  {
    FoundIn(TagsOf(ts), handle);
    if ts != [] {
      var init, t := ts[..|ts| - 1], ts[|ts| - 1];
      TagsAre(init, handle);
      FoundIn(TagsOf(init), handle);
      hide Declared;
      if i :| 0 <= i < |TagsOf(init)| && TagsOf(init)[i].handle == handle {
        assert TagsOf(ts)[i].handle == handle;
        var j :| 0 <= j < |init| && init[j].typ == TAG_DIRECTIVE && init[j].value == handle;
        assert ts[j] == init[j];
      } else if t.typ == TAG_DIRECTIVE && t.value == handle {
        assert TagsOf(ts)[|TagsOf(ts)| - 1].handle == handle;
      }
    }
  }

  /** One more directive. */
  lemma OneDirective(ts: seq<Token>, k: nat)
    requires k < |ts| && Proper(ts[..k]) && IsDirective(ts[k])
    ensures Proper(ts[..k + 1]) <==>
      if ts[k].typ == VERSION_DIRECTIVE then !Versioned(ts[..k]) && ts[k].major == 1 && ts[k].minor == 1
      else !Declared(TagsOf(ts[..k]), ts[k].value)
    ensures Versioned(ts[..k + 1]) <==> Versioned(ts[..k]) || ts[k].typ == VERSION_DIRECTIVE
    ensures TagsOf(ts[..k + 1]) ==
      if ts[k].typ == TAG_DIRECTIVE then TagsOf(ts[..k]) + [TagDirective(ts[k].value, ts[k].prefix)] else TagsOf(ts[..k])
    ensures !Proper(ts[..k + 1]) ==> !Proper(ts)
  {
    hide Declared;
    var a, b := ts[..k], ts[..k + 1];
    assert b[..k] == a && b[k] == ts[k] && forall i | 0 <= i < k :: b[i] == a[i] == ts[i];
    TagsAre(a, ts[k].value);
    hide TagsOf;
  }

  /** The directives at hand are taken if they are proper, and they are an error otherwise. */
  lemma {:induction false} DirectedIs(tokens: seq<Token>, p: Snap, ts: seq<Token>, k: nat)
    requires k <= |ts| && k <= p.head && Here(tokens, p.head - k, ts) && Proper(ts[..k]) && !p.ended
    requires forall i | 0 <= i < |ts| :: IsDirective(ts[i])
    requires p.head - k + |ts| < |tokens| && !IsDirective(tokens[p.head - k + |ts|])
    requires p.directives == TagsOf(ts[..k])
    ensures Directed(tokens, p, Versioned(ts[..k])) ==
      if Proper(ts) then Some(p.(head := p.head - k + |ts|, directives := DirectivesOf(ts))) else None
    decreases |ts| - k
  {
    hide Here, Proper, Versioned, TagsOf, Declared, WithDefault;
    if k == |ts| {
      assert ts[..k] == ts;
    } else {
      HereAt(tokens, p.head - k, ts, k);
      OneDirective(ts, k);
      if Proper(ts[..k + 1]) {
        DirectedIs(tokens, Skipped(tokens, p).(directives := TagsOf(ts[..k + 1])), ts, k + 1);
      }
    }
  }

  lemma {:induction false} PastEndsIs(tokens: seq<Token>, p: Snap, n: nat)
    requires Here(tokens, p.head, EndTokens(n)) && p.head + n < |tokens| && tokens[p.head + n].typ != DOCUMENT_END && !p.ended
    ensures PastEnds(tokens, p) == Some(p.(head := p.head + n))
    decreases n
  {
    if n > 0 {
      HereAt(tokens, p.head, EndTokens(n), 0);
      assert EndTokens(n) == [Sign(DOCUMENT_END)] + EndTokens(n - 1);
      HereConcat(tokens, p.head, [Sign(DOCUMENT_END)], EndTokens(n - 1));
      PastEndsIs(tokens, Skipped(tokens, p), n - 1);
    }
  }

  /** What is done at the first token of a document, or at the end of the stream. */
  function BetweenBody(tokens: seq<Token>, q: Snap, implicit: bool): (r: Option<Next>)
    requires q.head < |tokens|
  {
    if implicit && tokens[q.head].typ !in {VERSION_DIRECTIVE, TAG_DIRECTIVE, DOCUMENT_START, STREAM_END} then ImplicitDocument(tokens, q)
    else if tokens[q.head].typ != STREAM_END then ExplicitDocument(tokens, q)
    else Some(Next(StreamEnd, Skipped(tokens, q.(state := EndState))))
  }

  /** DOCUMENT-ENDs that are left for the next document's start to skip. */
  function Lag(ends: nat): (n: nat) {
    if ends > 1 then ends - 1 else 0
  }

  /** The end of a document. */
  lemma DocumentEnds(tokens: seq<Token>, p: Snap, ends: nat)
    requires p.state.DocumentEndState? && !p.ended && p.head + ends < |tokens| && tokens[p.head + ends].typ != DOCUMENT_END
    requires Here(tokens, p.head, EndTokens(ends))
    ensures Step(tokens, p) ==
      Some(Next(DocumentEnd(ends == 0), p.(state := DocumentStartState, directives := [], head := p.head + ends - Lag(ends))))
    ensures Here(tokens, p.head + ends - Lag(ends), EndTokens(Lag(ends)))
  {
    if ends > 0 {
      HereAt(tokens, p.head, EndTokens(ends), 0);
      assert EndTokens(ends) == [Sign(DOCUMENT_END)] + EndTokens(ends - 1);
      HereConcat(tokens, p.head, [Sign(DOCUMENT_END)], EndTokens(ends - 1));
    }
  }

  lemma RootStep(tokens: seq<Token>, p: Snap)
    requires p.head < |tokens| && p.states == [DocumentEndState]
    ensures p.state.BlockNode? ==> Step(tokens, p) == Node(tokens, p, true, false)
    ensures p.state.DocumentContent? && tokens[p.head].typ !in FOLLOWERS ==> Step(tokens, p) == Node(tokens, p, true, false)
    ensures p.state.DocumentContent? && tokens[p.head].typ in {VERSION_DIRECTIVE, TAG_DIRECTIVE, DOCUMENT_START, DOCUMENT_END, STREAM_END} ==>
      Step(tokens, p) == Some(Next(EMPTY_SCALAR, p.(state := DocumentEndState, states := [])))
  {
    hide Node;
  }

  /** The root of a marked document may be left out. */
  lemma RootParsed(tokens: seq<Token>, p: Snap, f: Form, marked: bool)
    requires p.state == (if marked then DocumentContent else BlockNode) && p.states == [DocumentEndState] && !p.ended
    requires Optional(p.directives, f, true, false) && (!marked ==> !f.Nothing?)
    requires Here(tokens, p.head, FormTokens(f)) && p.head + |FormTokens(f)| < |tokens|
    requires tokens[p.head + |FormTokens(f)|].typ in {VERSION_DIRECTIVE, TAG_DIRECTIVE, DOCUMENT_START, DOCUMENT_END, STREAM_END}
    ensures After(tokens, p, NodeEvents(TreeOf(p.directives, f))) ==
      Some(p.(head := p.head + |FormTokens(f)|, state := DocumentEndState, states := []))
  {
    hide Step, After, Here, NodeEvents, TreeOf, FormTokens, Allowed, Node;
    NothingTokens();
    RootStep(tokens, p);
    if f.Nothing? {
      NothingParsed(tokens, p, p.(state := DocumentEndState, states := []));
    } else {
      Starts(p.directives, f, true, false);
      HereAt(tokens, p.head, FormTokens(f), 0);
      FormParsed(tokens, p, p, f, true, false);
    }
  }

  lemma ProperDirectives(ts: seq<Token>)
    requires Proper(ts)
    ensures forall i | 0 <= i < |ts| :: IsDirective(ts[i])
  {
  }

  /** What stands in front of a document's root. */
  lemma FrontParsed(tokens: seq<Token>, q: Snap, d: Script, first: bool)
    requires ScriptAllowed(d, first) && !q.ended && q.directives == []
    requires Here(tokens, q.head, d.directives + MarkTokens(d.marked) + FormTokens(d.root))
    requires q.head + |d.directives + MarkTokens(d.marked) + FormTokens(d.root)| < |tokens|
    ensures q.head + |d.directives| < |tokens|
    ensures Directed(tokens, q, false) == Some(q.(head := q.head + |d.directives|, directives := DirectivesOf(d.directives)))
    ensures if d.marked then tokens[q.head].typ in BEGINNINGS - {STREAM_END} && tokens[q.head + |d.directives|].typ == DOCUMENT_START
            else tokens[q.head].typ !in FOLLOWERS
    ensures Here(tokens, q.head + |d.directives + MarkTokens(d.marked)|, FormTokens(d.root))
  {
    hide Here, FormTokens, Allowed, Directed, DirectivesOf, Optional, TagsOf, Versioned, Proper;
    var ts := d.directives;
    NoTags();
    ProperDirectives(ts);
    HereConcat(tokens, q.head, ts + MarkTokens(d.marked), FormTokens(d.root));
    HereConcat(tokens, q.head, ts, MarkTokens(d.marked));
    assert ts[..0] == [];
    if d.marked {
      HereOne(tokens, q.head + |ts|, Sign(DOCUMENT_START));
      if ts != [] {
        HereAt(tokens, q.head, ts, 0);
      }
    } else {
      Starts(DirectivesOf([]), d.root, true, false);
      HereAt(tokens, q.head, FormTokens(d.root), 0);
    }
    DirectedIs(tokens, q, ts, 0);
  }

  /** The start of a document. */
  lemma ScriptBegins(tokens: seq<Token>, q: Snap, d: Script, first: bool)
    requires ScriptAllowed(d, first) && !q.ended && q.states == [] && q.directives == []
    requires Here(tokens, q.head, d.directives + MarkTokens(d.marked) + FormTokens(d.root))
    requires q.head + |d.directives + MarkTokens(d.marked) + FormTokens(d.root)| < |tokens|
    ensures q.head < |tokens| && BetweenBody(tokens, q, first) == Some(Next(DocumentStart(false),
      q.(head := q.head + |d.directives + MarkTokens(d.marked)|, directives := DirectivesOf(d.directives),
         state := if d.marked then DocumentContent else BlockNode, states := [DocumentEndState])))
    ensures Here(tokens, q.head + |d.directives + MarkTokens(d.marked)|, FormTokens(d.root))
  {
    hide Here, FormTokens, Allowed, Directed, DirectivesOf, Optional, Proper;
    FrontParsed(tokens, q, d, first);
    assert q.states + [DocumentEndState] == [DocumentEndState];
  }

  lemma NoTags()
    ensures TagsOf([]) == [] && !Versioned([]) && Proper([])
  {
  }

  /** A document in its place. */
  lemma ScriptParsed(tokens: seq<Token>, c: Snap, q: Snap, d: Script, first: bool)
    requires ScriptAllowed(d, first) && !q.ended && q.states == [] && q.directives == []
    requires Here(tokens, q.head, ScriptTokens(d)) && q.head + |ScriptTokens(d)| < |tokens|
    requires tokens[q.head + |ScriptTokens(d)|].typ in {VERSION_DIRECTIVE, TAG_DIRECTIVE, DOCUMENT_START, STREAM_END}
    requires Step(tokens, c) == BetweenBody(tokens, q, first)
    ensures After(tokens, c, DocumentEvents(DocumentOf(d))) ==
      Some(q.(state := DocumentStartState, head := q.head + |ScriptTokens(d)| - Lag(d.ends)))
    ensures Here(tokens, q.head + |ScriptTokens(d)| - Lag(d.ends), EndTokens(Lag(d.ends)))
  {
    hide Step, After, Here, NodeEvents, TreeOf, FormTokens, Allowed, DirectivesOf, EndTokens, BetweenBody;
    var front := d.directives + MarkTokens(d.marked);
    HereConcat(tokens, q.head, front + FormTokens(d.root), EndTokens(d.ends));
    EndsLength(d.ends);
    ScriptBegins(tokens, q, d, first);
    var p := q.(head := q.head + |front|, directives := DirectivesOf(d.directives),
                state := if d.marked then DocumentContent else BlockNode, states := [DocumentEndState]);
    var i := p.head + |FormTokens(d.root)|;
    NotNothing(DirectivesOf([]), true, false);
    EndAt(tokens, i, d.ends);
    RootParsed(tokens, p, d.root, d.marked);
    var r := p.(head := i, state := DocumentEndState, states := []);
    DocumentEnds(tokens, r, d.ends);
    Wrapped(tokens, c, DocumentStart(false), p, NodeEvents(TreeOf(DirectivesOf(d.directives), d.root)), r,
            DocumentEnd(d.ends == 0), q.(state := DocumentStartState, head := q.head + |ScriptTokens(d)| - Lag(d.ends)));
  }

  lemma EndsLength(n: nat)
    ensures |EndTokens(n)| == n
  {
  }

  lemma EndAt(tokens: seq<Token>, i: nat, n: nat)
    requires Here(tokens, i, EndTokens(n)) && i + n < |tokens|
    ensures n > 0 ==> tokens[i].typ == DOCUMENT_END
  {
    if n > 0 {
      HereAt(tokens, i, EndTokens(n), 0);
    }
  }

  /** Between the documents of a stream. */
  function Between(p: Snap, ds: seq<Script>): (r: Snap)
    requires ds != [] ==> Lag(ds[|ds| - 1].ends) <= |ScriptsTokens(ds)|
  {
    if ds == [] then p
    else p.(state := DocumentStartState, head := p.head + |ScriptsTokens(ds)| - Lag(ds[|ds| - 1].ends))
  }

  lemma LagFits(ds: seq<Script>)
    ensures ds != [] ==> Lag(ds[|ds| - 1].ends) <= |ScriptsTokens(ds)|
  {
    if ds != [] {
      EndsLength(ds[|ds| - 1].ends);
    }
  }

  /** What stands between two documents. */
  lemma BetweenStep(tokens: seq<Token>, p: Snap, ds: seq<Script>) returns (q: Snap)
    requires p.state.ImplicitDocumentStart? && !p.ended && p.head + |ScriptsTokens(ds)| < |tokens|
    requires ds != [] ==> Lag(ds[|ds| - 1].ends) <= |ScriptsTokens(ds)|
    requires ds != [] ==> (
      var n := Lag(ds[|ds| - 1].ends);
      Here(tokens, p.head + |ScriptsTokens(ds)| - n, EndTokens(n)) && tokens[p.head + |ScriptsTokens(ds)|].typ != DOCUMENT_END)
    ensures q.(state := p.state) == p.(head := p.head + |ScriptsTokens(ds)|)
    ensures Step(tokens, Between(p, ds)) == BetweenBody(tokens, q, ds == [])
  {
    hide Here, ImplicitDocument, ExplicitDocument, EndTokens;
    q := p.(head := p.head + |ScriptsTokens(ds)|, state := Between(p, ds).state);
    if ds != [] {
      PastEndsIs(tokens, Between(p, ds), Lag(ds[|ds| - 1].ends));
    }
  }

  // What a document may begin with, apart from the first one, or the stream end with.
  const BEGINNINGS: set<TokenType> := {VERSION_DIRECTIVE, TAG_DIRECTIVE, DOCUMENT_START, STREAM_END}

  lemma ScriptStarts(d: Script)
    requires ScriptAllowed(d, false)
    ensures ScriptTokens(d) != [] && ScriptTokens(d)[0].typ in BEGINNINGS
  {
    hide FormTokens, EndTokens, DirectivesOf, Optional, Allowed;
    if d.directives == [] {
      assert ScriptTokens(d)[0] == Sign(DOCUMENT_START);
    } else {
      assert ScriptTokens(d)[0] == d.directives[0];
    }
  }

  lemma ScriptsGrow(ds: seq<Script>)
    requires ds != []
    ensures var init, d := ds[..|ds| - 1], ds[|ds| - 1];
      && ScriptsTokens(ds) == ScriptsTokens(init) + ScriptTokens(d)
      && DocumentsEvents(DocumentsOf(ds)) == DocumentsEvents(DocumentsOf(init)) + DocumentEvents(DocumentOf(d))
  {
    hide ScriptTokens, DocumentOf, DocumentEvents;
  }

  /** The documents of a stream. */
  lemma {:induction false} ScriptsParsed(tokens: seq<Token>, p: Snap, ds: seq<Script>)
    requires p.state.ImplicitDocumentStart? && !p.ended && p.states == [] && p.directives == [] && StreamAllowed(ds)
    requires Here(tokens, p.head, ScriptsTokens(ds))
    requires p.head + |ScriptsTokens(ds)| < |tokens| && tokens[p.head + |ScriptsTokens(ds)|].typ in BEGINNINGS
    ensures ds != [] ==> (
      var n := Lag(ds[|ds| - 1].ends);
      n <= |ScriptsTokens(ds)| && Here(tokens, p.head + |ScriptsTokens(ds)| - n, EndTokens(n)))
    ensures After(tokens, p, DocumentsEvents(DocumentsOf(ds))) == Some(Between(p, ds))
    decreases |ds|
  {
    hide Step, After, Here, ScriptAllowed, DocumentEvents, DocumentOf, DocumentsEvents, DocumentsOf, ScriptTokens, ScriptsTokens, EndTokens, BetweenBody, Lag;
    LagFits(ds);
    if ds == [] {
      NoScripts(tokens, p);
    } else {
      var init, d := ds[..|ds| - 1], ds[|ds| - 1];
      ScriptsGrow(ds);
      HereConcat(tokens, p.head, ScriptsTokens(init), ScriptTokens(d));
      if init == [] {
        NoScripts(tokens, p);
      } else {
        ScriptStarts(d);
        HereAt(tokens, p.head + |ScriptsTokens(init)|, ScriptTokens(d), 0);
        ScriptsParsed(tokens, p, init);
      }
      var q := BetweenStep(tokens, p, init);
      ScriptParsed(tokens, Between(p, init), q, d, init == []);
      AfterConcat(tokens, p, DocumentsEvents(DocumentsOf(init)), DocumentEvents(DocumentOf(d)));
    }
  }

  lemma NoScripts(tokens: seq<Token>, p: Snap)
    ensures ScriptsTokens([]) == [] && After(tokens, p, DocumentsEvents(DocumentsOf([]))) == Some(p)
  {
    hide Step;
  }

  /** From the tokens of an allowed stream the parser delivers the stream's events, and comes to the end. */
  lemma StreamParsed(tokens: seq<Token>, ds: seq<Script>)
    requires StreamAllowed(ds) && StreamTokens(ds) <= tokens
    ensures var o := After(tokens, Initial, StreamEvents(DocumentsOf(ds))); o.Some? && o.value.state == EndState
  {
    hide Step, After, ScriptsTokens, StreamAllowed, Between, BetweenBody, DocumentsEvents, DocumentsOf, EndTokens;
    assert tokens[..|StreamTokens(ds)|] == StreamTokens(ds);
    assert Here(tokens, 0, StreamTokens(ds)) by { assert tokens[0..|StreamTokens(ds)|] == StreamTokens(ds); }
    HereBracketed(tokens, 0, [], Sign(STREAM_START), ScriptsTokens(ds), Sign(STREAM_END));
    hide Here;
    assert [] + [Sign(STREAM_START)] + ScriptsTokens(ds) + [Sign(STREAM_END)] == StreamTokens(ds);
    StartStep(tokens);
    var p := Initial.(state := ImplicitDocumentStart, head := 1);
    ScriptsParsed(tokens, p, ds);
    LagFits(ds);
    var q := BetweenStep(tokens, p, ds);
    EndStep(tokens, q, ds == []);
    Wrapped(tokens, Initial, StreamStart, p, DocumentsEvents(DocumentsOf(ds)), Between(p, ds),
            StreamEnd, Skipped(tokens, q.(state := EndState)));
  }

  lemma StartStep(tokens: seq<Token>)
    requires tokens != [] && tokens[0] == Sign(STREAM_START)
    ensures Step(tokens, Initial) == Some(Next(StreamStart, Initial.(state := ImplicitDocumentStart, head := 1)))
  {
  }

  lemma EndStep(tokens: seq<Token>, q: Snap, implicit: bool)
    requires q.head < |tokens| && tokens[q.head].typ == STREAM_END
    ensures BetweenBody(tokens, q, implicit) == Some(Next(StreamEnd, Skipped(tokens, q.(state := EndState))))
  {
  }
}
