/** The grammar of the comment at the head of parserc.go, and where the parser departs from it.

    Token sequences are derived as in YamlGrammar. What the comment allows and what the parser accepts are the same up to
    four conditions, each of which has an example: values have keys, pairs in flow sequences have keys, properties alone say
    something, and nothing is swallowed. */
module YamlComment {
  import opened Basics
  import opened YamlEvents
  import opened YamlTokens
  import opened YamlParser
  import opened YamlGrammar
  import opened YamlAccepted

  // ---- the grammar of the comment

  /** A node: block collections for block nodes, indentless sequences for the nodes of block mappings. */
  predicate Documented(f: Form, block: bool, indentless: bool)
    decreases f, 1
  {
    match f
    case Nothing => false
    case Aliased(_) => true
    case Bare(w) => WrittenTokens(w) != []
    case Text(_, _, _) => true
    case FlowList(_, entries, comma) => (comma ==> entries != []) && forall i | 0 <= i < |entries| :: FlowEntryDocumented(entries[i])
    case FlowMap(_, entries, comma) => (comma ==> entries != []) && forall i | 0 <= i < |entries| :: FlowEntryDocumented(entries[i])
    case BlockList(_, items) => block && forall i | 0 <= i < |items| :: OptionallyDocumented(items[i], true, false)
    case IndentlessList(_, items) => indentless && items != [] && forall i | 0 <= i < |items| :: OptionallyDocumented(items[i], true, false)
    case BlockMap(_, entries) => block && forall i | 0 <= i < |entries| :: BlockEntryDocumented(entries[i])
  }

  predicate OptionallyDocumented(f: Form, block: bool, indentless: bool)
    decreases f, 2
  {
    f.Nothing? || Documented(f, block, indentless)
  }

  predicate FlowEntryDocumented(e: Entry)
    decreases e, 3
  {
    match e
    case Single(form) => Documented(form, false, false)
    case Keyed(key, colon, value) => OptionallyDocumented(key, false, false) && (if colon then OptionallyDocumented(value, false, false) else value.Nothing?)
    case _ => false
  }

  predicate BlockEntryDocumented(e: Entry)
    decreases e, 3
  {
    match e
    case Keyed(key, colon, value) => OptionallyDocumented(key, true, true) && (if colon then OptionallyDocumented(value, true, true) else value.Nothing?)
    case Valued(value) => OptionallyDocumented(value, true, true)
    case _ => false
  }

  /** A document: the first one may be its root alone; any other one has a mark, and directives before it. */
  predicate ScriptDocumented(d: Script, first: bool) {
    if d.marked then (forall t | t in d.directives :: IsDirective(t)) && OptionallyDocumented(d.root, true, false)
    else first && d.directives == [] && Documented(d.root, true, false)
  }

  predicate StreamDocumented(ds: seq<Script>) {
    forall i | 0 <= i < |ds| :: ScriptDocumented(ds[i], i == 0)
  }

  // ---- what the parser asks for beyond it

  /** Tags have known handles, properties alone say something, values have keys, and pairs in flow sequences have keys. */
  predicate Strict(directives: seq<TagDirective>, f: Form)
    decreases f, 1
  {
    match f
    case Nothing => true
    case Aliased(_) => true
    case Bare(w) => TagOf(directives, w).Some? && Says(directives, w)
    case Text(w, _, _) => TagOf(directives, w).Some?
    case FlowList(w, entries, _) => TagOf(directives, w).Some? && forall i | 0 <= i < |entries| :: EntryStrict(directives, entries[i], true)
    case FlowMap(w, entries, _) => TagOf(directives, w).Some? && forall i | 0 <= i < |entries| :: EntryStrict(directives, entries[i], false)
    case BlockList(w, items) => TagOf(directives, w).Some? && forall i | 0 <= i < |items| :: Strict(directives, items[i])
    case IndentlessList(w, items) => TagOf(directives, w).Some? && forall i | 0 <= i < |items| :: Strict(directives, items[i])
    case BlockMap(w, entries) => TagOf(directives, w).Some? && forall i | 0 <= i < |entries| :: EntryStrict(directives, entries[i], false)
  }

  predicate EntryStrict(directives: seq<TagDirective>, e: Entry, keyed: bool)
    decreases e, 2
  {
    match e
    case Single(form) => Strict(directives, form)
    case Keyed(key, _, value) => Strict(directives, key) && Strict(directives, value) && (keyed ==> !key.Nothing?)
    case _ => false
  }

  predicate ScriptStrict(d: Script) {
    (d.marked ==> Proper(d.directives)) && Strict(DirectivesOf(d.directives), d.root)
  }

  predicate StreamStrict(ds: seq<Script>) {
    forall d | d in ds :: ScriptStrict(d)
  }

  /** No indicator is swallowed in the place of a key. */
  predicate NoneSwallowed(f: Form)
    decreases f, 1
  {
    match f
    case FlowList(_, entries, _) => forall i | 0 <= i < |entries| :: EntrySwallowsNone(entries[i])
    case FlowMap(_, entries, _) => forall i | 0 <= i < |entries| :: EntrySwallowsNone(entries[i])
    case BlockList(_, items) => forall i | 0 <= i < |items| :: NoneSwallowed(items[i])
    case IndentlessList(_, items) => forall i | 0 <= i < |items| :: NoneSwallowed(items[i])
    case BlockMap(_, entries) => forall i | 0 <= i < |entries| :: EntrySwallowsNone(entries[i])
    case _ => true
  }

  predicate EntrySwallowsNone(e: Entry)
    decreases e, 2
  {
    match e
    case Single(form) => NoneSwallowed(form)
    case Keyed(key, _, value) => NoneSwallowed(key) && NoneSwallowed(value)
    case Swallowing(_, _, _) => false
    case Valued(value) => NoneSwallowed(value)
  }

  predicate StreamSwallowsNone(ds: seq<Script>) {
    forall d | d in ds :: NoneSwallowed(d.root)
  }

  // ---- they make up the difference

  lemma WrittenSays(directives: seq<TagDirective>, w: Written)
    requires Says(directives, w)
    ensures WrittenTokens(w) != []
  {
  }

  /** A node is accepted, with nothing swallowed, if and only if the comment allows it and it is strict. */
  lemma {:induction false} AllowedIs(directives: seq<TagDirective>, f: Form, block: bool, indentless: bool)
    ensures Allowed(directives, f, block, indentless) && NoneSwallowed(f) <==> Documented(f, block, indentless) && Strict(directives, f)
    decreases f, 1
  {
    hide TagOf, Says, WrittenTokens;
    match f {
      case Bare(w) =>
        if Says(directives, w) {
          WrittenSays(directives, w);
        }
      case FlowList(w, entries, comma) =>
        forall i | 0 <= i < |entries|
          ensures ListEntryAllowed(directives, entries[i]) && EntrySwallowsNone(entries[i])
            <==> FlowEntryDocumented(entries[i]) && EntryStrict(directives, entries[i], true)
        {
          ListEntryIs(directives, entries[i]);
        }
      case FlowMap(w, entries, comma) =>
        forall i | 0 <= i < |entries|
          ensures MapEntryAllowed(directives, entries[i]) && EntrySwallowsNone(entries[i])
            <==> FlowEntryDocumented(entries[i]) && EntryStrict(directives, entries[i], false)
        {
          MapEntryIs(directives, entries[i]);
        }
      case BlockList(w, items) => ItemsAre(directives, items);
      case IndentlessList(w, items) => ItemsAre(directives, items);
      case BlockMap(w, entries) =>
        forall i | 0 <= i < |entries|
          ensures BlockEntryAllowed(directives, entries[i]) && EntrySwallowsNone(entries[i])
            <==> BlockEntryDocumented(entries[i]) && EntryStrict(directives, entries[i], false)
        {
          BlockEntryIs(directives, entries[i]);
        }
      case _ =>
    }
  }

  lemma {:induction false} OptionalIs(directives: seq<TagDirective>, f: Form, block: bool, indentless: bool)
    ensures Optional(directives, f, block, indentless) && NoneSwallowed(f) <==> OptionallyDocumented(f, block, indentless) && Strict(directives, f)
    decreases f, 2
  {
    AllowedIs(directives, f, block, indentless);
    hide Allowed, Documented;
  }

  lemma {:induction false} ItemsAre(directives: seq<TagDirective>, items: seq<Form>)
    ensures (forall i | 0 <= i < |items| :: Optional(directives, items[i], true, false)) && (forall i | 0 <= i < |items| :: NoneSwallowed(items[i]))
      <==> (forall i | 0 <= i < |items| :: OptionallyDocumented(items[i], true, false)) && (forall i | 0 <= i < |items| :: Strict(directives, items[i]))
    decreases items, 0
  {
    hide Optional, OptionallyDocumented, NoneSwallowed, Strict;
    forall i | 0 <= i < |items|
      ensures Optional(directives, items[i], true, false) && NoneSwallowed(items[i])
        <==> OptionallyDocumented(items[i], true, false) && Strict(directives, items[i])
    {
      OptionalIs(directives, items[i], true, false);
    }
  }

  lemma {:induction false} ListEntryIs(directives: seq<TagDirective>, e: Entry)
    ensures ListEntryAllowed(directives, e) && EntrySwallowsNone(e) <==> FlowEntryDocumented(e) && EntryStrict(directives, e, true)
    decreases e, 3
  {
    hide Allowed, Documented, Strict, NoneSwallowed;
    match e {
      case Single(form) => AllowedIs(directives, form, false, false);
      case Keyed(key, colon, value) =>
        KeyedIs(directives, e, false);
      case _ =>
    }
  }

  lemma {:induction false} MapEntryIs(directives: seq<TagDirective>, e: Entry)
    ensures MapEntryAllowed(directives, e) && EntrySwallowsNone(e) <==> FlowEntryDocumented(e) && EntryStrict(directives, e, false)
    decreases e, 3
  {
    hide Allowed, Documented, Strict, NoneSwallowed;
    match e {
      case Single(form) => AllowedIs(directives, form, false, false);
      case Keyed(key, colon, value) =>
        KeyedIs(directives, e, false);
      case _ =>
    }
  }

  lemma {:induction false} BlockEntryIs(directives: seq<TagDirective>, e: Entry)
    ensures BlockEntryAllowed(directives, e) && EntrySwallowsNone(e) <==> BlockEntryDocumented(e) && EntryStrict(directives, e, false)
    decreases e, 3
  {
    hide Allowed, Documented, Strict, NoneSwallowed;
    match e {
      case Keyed(key, colon, value) =>
        KeyedIs(directives, e, true);
      case _ =>
    }
  }

  /** A key and a value. */
  lemma {:induction false} KeyedIs(directives: seq<TagDirective>, e: Entry, block: bool)
    requires e.Keyed?
    ensures (Optional(directives, e.key, block, block) && ValueAllowed(directives, e.colon, e.value, block) && NoneSwallowed(e.key) && NoneSwallowed(e.value))
      <==> (&& OptionallyDocumented(e.key, block, block) && (if e.colon then OptionallyDocumented(e.value, block, block) else e.value.Nothing?)
            && Strict(directives, e.key) && Strict(directives, e.value))
    ensures Allowed(directives, e.key, block, block) ==> !e.key.Nothing?
    decreases e, 2
  {
    OptionalIs(directives, e.key, block, block);
    OptionalIs(directives, e.value, block, block);
    NothingIs(directives);
    hide Optional, OptionallyDocumented, NoneSwallowed, Strict;
  }

  lemma NothingIs(directives: seq<TagDirective>)
    ensures Strict(directives, Nothing) && NoneSwallowed(Nothing) && !Documented(Nothing, true, true) && !Documented(Nothing, false, false)
    ensures !Allowed(directives, Nothing, true, true) && !Allowed(directives, Nothing, false, false)
  {
  }

  /** The same for streams: so the parser comes to the end of what the comment allows exactly where that is strict, and of
      nothing else unless it swallows an indicator. */
  lemma StreamIs(ds: seq<Script>)
    ensures StreamAllowed(ds) && StreamSwallowsNone(ds) <==> StreamDocumented(ds) && StreamStrict(ds)
  {
    hide Allowed, Documented, Strict, NoneSwallowed, DirectivesOf;
    forall i | 0 <= i < |ds|
      ensures ScriptAllowed(ds[i], i == 0) && NoneSwallowed(ds[i].root) <==> ScriptDocumented(ds[i], i == 0) && ScriptStrict(ds[i])
    {
      ScriptIs(ds[i], i == 0);
    }
    hide ScriptAllowed, ScriptDocumented, ScriptStrict;
    assert forall d | d in ds :: exists i :: 0 <= i < |ds| && ds[i] == d;
  }

  lemma ScriptIs(d: Script, first: bool)
    ensures ScriptAllowed(d, first) && NoneSwallowed(d.root) <==> ScriptDocumented(d, first) && ScriptStrict(d)
  {
    OptionalIs(DirectivesOf(d.directives), d.root, true, false);
    AllowedIs(DirectivesOf(d.directives), d.root, true, false);
    hide Allowed, Documented, Strict, NoneSwallowed, DirectivesOf;
  }

  // ---- examples

  /** The comment allows a value without a key, ": b", and the parser fails. */
  lemma ValueAloneDocumented() returns (ds: seq<Script>)
    ensures StreamDocumented(ds) && StreamTokens(ds) == VALUE_ALONE
    ensures !exists ds' :: StreamAllowed(ds') && StreamTokens(ds') <= VALUE_ALONE
  {
    var e := Valued(Text(Written(None, None, false), "b", true));
    var f := BlockMap(Written(None, None, false), [e]);
    ds := [Script([], false, f, 0)];
    ValueAloneFails();
    hide StreamAllowed, StreamTokens, BlockTokens;
    OneBlockEntry(e);
    assert EntryTokens(e) == [Sign(VALUE), PLAIN];
    assert BlockEntryDocumented(e);
    OneScript(f, [Sign(BLOCK_MAPPING_START), Sign(VALUE), PLAIN, Sign(BLOCK_END)]);
  }

  lemma OneBlockEntry(e: Entry)
    ensures BlockTokens([e]) == EntryTokens(e)
  {
    assert [e][..0] == [];
  }

  lemma OneFlowEntry(e: Entry)
    ensures FlowTokens([e]) == EntryTokens(e)
  {
    assert [e][..0] == [];
  }

  lemma OneScript(f: Form, ts: seq<Token>)
    requires FormTokens(f) == ts
    ensures StreamTokens([Script([], false, f, 0)]) == [Sign(STREAM_START)] + ts + [Sign(STREAM_END)]
  {
    var d := Script([], false, f, 0);
    assert [d][..0] == [];
    assert ScriptTokens(d) == ts;
    assert ScriptsTokens([d]) == ts;
  }

  /** It allows a pair without a key in a flow sequence, "[? : b]", and the parser fails. */
  lemma NoKeyDocumented() returns (ds: seq<Script>)
    ensures StreamDocumented(ds) && StreamTokens(ds) == NO_KEY
    ensures !exists ds' :: StreamAllowed(ds') && StreamTokens(ds') <= NO_KEY
  {
    var e := Keyed(Nothing, true, Text(Written(None, None, false), "b", true));
    var f := FlowList(Written(None, None, false), [e], false);
    ds := [Script([], false, f, 0)];
    OneFlowEntry(e);
    assert FlowEntryDocumented(e);
    OneScript(f, [Sign(FLOW_SEQUENCE_START), Sign(KEY), Sign(VALUE), PLAIN, Sign(FLOW_SEQUENCE_END)]);
    NoKeyFails();
  }

  const EMPTY_TAG: Token := Token(TAG, "", "", "", false, 0, 0)

  // A tag of no characters, alone.
  const NOTHING_SAID: seq<Token> := [Sign(STREAM_START), EMPTY_TAG, Sign(STREAM_END)]

  /** It allows properties that say nothing, and the parser fails. */
  lemma NothingSaidDocumented() returns (ds: seq<Script>)
    ensures StreamDocumented(ds) && StreamTokens(ds) == NOTHING_SAID
    ensures !exists ds' :: StreamAllowed(ds') && StreamTokens(ds') <= NOTHING_SAID
  {
    var f := Bare(Written(None, Some(TagName("", "")), false));
    ds := [Script([], false, f, 0)];
    OneScript(f, [EMPTY_TAG]);
    hide DirectivesOf, StreamAllowed, StreamTokens, Finishes;
    assert AllClean(NOTHING_SAID);
    StuckHere(NOTHING_SAID, ROOT);
    StuckAtRoot(NOTHING_SAID);
    Accepted(NOTHING_SAID);
  }

  // ---- a bracket too many is not in the comment

  function Weight(t: Token): int {
    if t.typ == FLOW_SEQUENCE_START then 1 else if t.typ == FLOW_SEQUENCE_END then -1 else 0
  }

  /** The flow sequences that are open. */
  function Depth(ts: seq<Token>): (r: int) {
    if ts == [] then 0 else Depth(ts[..|ts| - 1]) + Weight(ts[|ts| - 1])
  }

  lemma {:induction false} DepthConcat(a: seq<Token>, b: seq<Token>)
    ensures Depth(a + b) == Depth(a) + Depth(b)
    decreases |b|
  {
    if b == [] {
      assert a + b == a;
    } else {
      assert (a + b)[..|a + b| - 1] == a + b[..|b| - 1];
      DepthConcat(a, b[..|b| - 1]);
    }
  }

  lemma DepthOne(t: Token)
    ensures Depth([t]) == Weight(t) && Depth([]) == 0
  {
    assert [t][..0] == [];
  }

  lemma {:induction false} WeightlessDepth(ts: seq<Token>)
    requires forall t | t in ts :: Weight(t) == 0
    ensures Depth(ts) == 0
    decreases |ts|
  {
    if ts != [] {
      WeightlessDepth(ts[..|ts| - 1]);
    }
  }

  lemma DepthSurrounded(w: seq<Token>, open: Token, inner: seq<Token>, close: Token)
    requires (forall t | t in w :: Weight(t) == 0) && Depth(inner) == 0 && Weight(open) + Weight(close) == 0
    ensures Depth(w + [open] + inner + [close]) == 0
  {
    hide Depth;
    WeightlessDepth(w);
    DepthOne(open);
    DepthOne(close);
    DepthConcat(w, [open]);
    DepthConcat(w + [open], inner);
    DepthConcat(w + [open] + inner, [close]);
  }

  lemma WrittenWeigh(w: Written)
    ensures forall t | t in WrittenTokens(w) :: Weight(t) == 0
  {
  }

  /** What the comment allows closes as many flow sequences as it opens. */
  lemma {:induction false} Balanced(f: Form)
    requires NoneSwallowed(f)
    ensures Depth(FormTokens(f)) == 0
    decreases f, 1
  {
    hide Depth, WrittenTokens, NoneSwallowed;
    NoTokens();
    match f {
      case Nothing =>
      case Aliased(name) => DepthOne(Token(ALIAS, name, "", "", false, 0, 0));
      case Bare(w) => WrittenWeigh(w); WeightlessDepth(WrittenTokens(w));
      case Text(w, value, plain) =>
        WrittenWeigh(w);
        WeightlessDepth(WrittenTokens(w));
        DepthOne(Token(SCALAR, value, "", "", plain, 0, 0));
        DepthConcat(WrittenTokens(w), [Token(SCALAR, value, "", "", plain, 0, 0)]);
      case FlowList(w, entries, comma) =>
        SwallowsInside(f);
        WrittenWeigh(w);
        FlowBalanced(entries, comma);
        DepthSurrounded(WrittenTokens(w), Sign(FLOW_SEQUENCE_START), FlowTokens(entries) + Comma(comma), Sign(FLOW_SEQUENCE_END));
      case FlowMap(w, entries, comma) =>
        SwallowsInside(f);
        WrittenWeigh(w);
        FlowBalanced(entries, comma);
        DepthSurrounded(WrittenTokens(w), Sign(FLOW_MAPPING_START), FlowTokens(entries) + Comma(comma), Sign(FLOW_MAPPING_END));
      case BlockList(w, items) =>
        SwallowsInside(f);
        WrittenWeigh(w);
        ItemsBalanced(items);
        DepthSurrounded(WrittenTokens(w), Sign(BLOCK_SEQUENCE_START), ItemTokens(items), Sign(BLOCK_END));
      case IndentlessList(w, items) =>
        SwallowsInside(f);
        WrittenWeigh(w);
        WeightlessDepth(WrittenTokens(w));
        ItemsBalanced(items);
        DepthConcat(WrittenTokens(w), ItemTokens(items));
      case BlockMap(w, entries) =>
        SwallowsInside(f);
        WrittenWeigh(w);
        BlockBalanced(entries);
        DepthSurrounded(WrittenTokens(w), Sign(BLOCK_MAPPING_START), BlockTokens(entries), Sign(BLOCK_END));
    }
  }

  lemma SwallowsInside(f: Form)
    requires NoneSwallowed(f)
    ensures f.FlowList? || f.FlowMap? || f.BlockMap? ==> forall i | 0 <= i < |f.entries| :: EntrySwallowsNone(f.entries[i])
    ensures f.BlockList? || f.IndentlessList? ==> forall i | 0 <= i < |f.items| :: NoneSwallowed(f.items[i])
  {
  }

  lemma NoTokens()
    ensures Depth([]) == 0
  {
  }

  lemma CommaWeighs(comma: bool)
    ensures Depth(Comma(comma)) == 0
  {
    DepthOne(Sign(FLOW_ENTRY));
  }

  lemma {:induction false} FlowBalanced(entries: seq<Entry>, comma: bool)
    requires forall i | 0 <= i < |entries| :: EntrySwallowsNone(entries[i])
    ensures Depth(FlowTokens(entries)) == 0 && Depth(FlowTokens(entries) + Comma(comma)) == 0
    decreases entries, 0
  {
    hide Depth, EntryTokens, EntrySwallowsNone, Comma;
    NoTokens();
    CommaWeighs(comma);
    if entries != [] {
      var init, e := entries[..|entries| - 1], entries[|entries| - 1];
      FlowBalanced(init, comma);
      EntryBalanced(e);
      CommaWeighs(|entries| > 1);
      DepthConcat(Comma(|entries| > 1), EntryTokens(e));
      DepthConcat(FlowTokens(init), Comma(|entries| > 1) + EntryTokens(e));
    }
    DepthConcat(FlowTokens(entries), Comma(comma));
  }

  lemma {:induction false} BlockBalanced(entries: seq<Entry>)
    requires forall i | 0 <= i < |entries| :: EntrySwallowsNone(entries[i])
    ensures Depth(BlockTokens(entries)) == 0
    decreases entries, 0
  {
    hide Depth, EntryTokens, EntrySwallowsNone;
    NoTokens();
    if entries != [] {
      var init, e := entries[..|entries| - 1], entries[|entries| - 1];
      BlockBalanced(init);
      EntryBalanced(e);
      DepthConcat(BlockTokens(init), EntryTokens(e));
    }
  }

  lemma {:induction false} ItemsBalanced(items: seq<Form>)
    requires forall i | 0 <= i < |items| :: NoneSwallowed(items[i])
    ensures Depth(ItemTokens(items)) == 0
    decreases items, 0
  {
    hide Depth, FormTokens, NoneSwallowed;
    NoTokens();
    if items != [] {
      var init, f := items[..|items| - 1], items[|items| - 1];
      ItemsBalanced(init);
      Balanced(f);
      DepthOne(Sign(BLOCK_ENTRY));
      DepthConcat([Sign(BLOCK_ENTRY)], FormTokens(f));
      DepthConcat(ItemTokens(init), [Sign(BLOCK_ENTRY)] + FormTokens(f));
    }
  }

  lemma {:induction false} EntryBalanced(e: Entry)
    requires EntrySwallowsNone(e)
    ensures Depth(EntryTokens(e)) == 0
    decreases e, 2
  {
    hide Depth, FormTokens, NoneSwallowed;
    NoTokens();
    DepthOne(Sign(KEY));
    DepthOne(Sign(VALUE));
    match e {
      case Single(form) => Balanced(form);
      case Keyed(key, colon, value) =>
        Balanced(key);
        Balanced(value);
        DepthConcat([Sign(KEY)], FormTokens(key));
        DepthConcat(ColonTokens(colon), FormTokens(value));
        DepthConcat([Sign(KEY)] + FormTokens(key), ColonTokens(colon) + FormTokens(value));
      case Swallowing(_, _, _) =>
      case Valued(value) =>
        Balanced(value);
        DepthConcat([Sign(VALUE)], FormTokens(value));
    }
  }

  lemma {:induction false} ScriptsBalanced(ds: seq<Script>)
    requires StreamDocumented(ds) && StreamSwallowsNone(ds)
    ensures Depth(ScriptsTokens(ds)) == 0
    decreases |ds|
  {
    hide Depth, FormTokens, NoneSwallowed, Documented;
    NoTokens();
    if ds != [] {
      var init, d := ds[..|ds| - 1], ds[|ds| - 1];
      ScriptsBalanced(init);
      assert d in ds && ScriptDocumented(d, |ds| - 1 == 0);
      Balanced(d.root);
      WeightlessDepth(d.directives);
      WeightlessDepth(EndTokens(d.ends));
      WeightlessDepth(MarkTokens(d.marked));
      DepthConcat(d.directives, MarkTokens(d.marked));
      DepthConcat(d.directives + MarkTokens(d.marked), FormTokens(d.root));
      DepthConcat(d.directives + MarkTokens(d.marked) + FormTokens(d.root), EndTokens(d.ends));
      DepthConcat(ScriptsTokens(init), ScriptTokens(d));
    }
  }

  /** What the comment allows swallows nothing. */
  lemma {:induction false} DocumentedSwallowsNone(f: Form, block: bool, indentless: bool)
    requires OptionallyDocumented(f, block, indentless)
    ensures NoneSwallowed(f)
    decreases f, 1
  {
    match f {
      case FlowList(_, entries, _) =>
        forall i | 0 <= i < |entries| ensures EntrySwallowsNone(entries[i]) { EntrySwallows(entries[i]); }
      case FlowMap(_, entries, _) =>
        forall i | 0 <= i < |entries| ensures EntrySwallowsNone(entries[i]) { EntrySwallows(entries[i]); }
      case BlockList(_, items) =>
        forall i | 0 <= i < |items| ensures NoneSwallowed(items[i]) { DocumentedSwallowsNone(items[i], true, false); }
      case IndentlessList(_, items) =>
        forall i | 0 <= i < |items| ensures NoneSwallowed(items[i]) { DocumentedSwallowsNone(items[i], true, false); }
      case BlockMap(_, entries) =>
        forall i | 0 <= i < |entries| ensures EntrySwallowsNone(entries[i]) { EntrySwallows(entries[i]); }
      case _ =>
    }
  }

  lemma {:induction false} EntrySwallows(e: Entry)
    requires FlowEntryDocumented(e) || BlockEntryDocumented(e)
    ensures EntrySwallowsNone(e)
    decreases e, 2
  {
    var block := !FlowEntryDocumented(e);
    match e {
      case Single(form) => DocumentedSwallowsNone(form, false, false);
      case Keyed(key, colon, value) =>
        DocumentedSwallowsNone(key, block, block);
        DocumentedSwallowsNone(value, block, block);
      case Valued(value) => DocumentedSwallowsNone(value, true, true);
      case _ =>
    }
  }

  /** A bracket too many in the place of a key, "[?]]": the parser comes to the end, and the comment does not allow it. */
  lemma TwoBracketsNotDocumented()
    ensures !exists ds :: StreamDocumented(ds) && StreamTokens(ds) == TWO_BRACKETS
    ensures exists ds :: StreamAllowed(ds) && StreamTokens(ds) == TWO_BRACKETS
  {
    var accepted := TwoBracketsAccepted();
    hide StreamDocumented, StreamTokens, StreamAllowed;
    forall ds | StreamDocumented(ds) ensures StreamTokens(ds) != TWO_BRACKETS {
      StreamBalanced(ds);
      TwoBracketsWeigh();
    }
  }

  lemma StreamBalanced(ds: seq<Script>)
    requires StreamDocumented(ds)
    ensures Depth(StreamTokens(ds)) == 0
  {
    hide Depth, Documented, NoneSwallowed, ScriptsTokens;
    forall d | d in ds ensures NoneSwallowed(d.root) {
      var i :| 0 <= i < |ds| && ds[i] == d;
      assert ScriptDocumented(ds[i], i == 0);
      DocumentedSwallowsNone(d.root, true, false);
    }
    ScriptsBalanced(ds);
    DepthOne(Sign(STREAM_START));
    DepthOne(Sign(STREAM_END));
    DepthConcat([Sign(STREAM_START)], ScriptsTokens(ds));
    DepthConcat([Sign(STREAM_START)] + ScriptsTokens(ds), [Sign(STREAM_END)]);
  }

  lemma TwoBracketsWeigh()
    ensures Depth(TWO_BRACKETS) == -1
  {
    var a, b := [Sign(STREAM_START), Sign(FLOW_SEQUENCE_START), Sign(KEY)], [Sign(FLOW_SEQUENCE_END), Sign(FLOW_SEQUENCE_END), Sign(STREAM_END)];
    assert TWO_BRACKETS == a + b;
    DepthConcat(a, b);
    DepthThree(a[0], a[1], a[2]);
    DepthThree(b[0], b[1], b[2]);
  }

  lemma DepthThree(a: Token, b: Token, c: Token)
    ensures Depth([a, b, c]) == Weight(a) + Weight(b) + Weight(c)
  {
    assert [a, b, c] == [a] + [b] + [c];
    DepthOne(a);
    DepthOne(b);
    DepthOne(c);
    DepthConcat([a], [b]);
    DepthConcat([a] + [b], [c]);
  }
}
