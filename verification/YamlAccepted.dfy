/** What the parser accepts: exactly the token sequences of the grammar's derivations. Whatever takes the parser to the
    end is read back into a derivation. */
module YamlAccepted {
  import opened Basics
  import opened YamlEvents
  import opened YamlTokens
  import opened YamlParser
  import opened YamlGrammar

  /** A token has no more fields set than its type uses. */
  predicate Clean(t: Token) {
    t == Token(t.typ,
               if t.typ in {ALIAS, ANCHOR, SCALAR, TAG, TAG_DIRECTIVE} then t.value else "",
               if t.typ == TAG then t.suffix else "",
               if t.typ == TAG_DIRECTIVE then t.prefix else "",
               t.typ == SCALAR && t.plain,
               if t.typ == VERSION_DIRECTIVE then t.major else 0,
               if t.typ == VERSION_DIRECTIVE then t.minor else 0)
  }

  predicate AllClean(tokens: seq<Token>) {
    forall i | 0 <= i < |tokens| :: Clean(tokens[i])
  }

  /** From `p` the parser comes to the end in `n` steps. */
  predicate Finishes(tokens: seq<Token>, p: Snap, n: nat)
    decreases n
  {
    if n == 0 then p.state == EndState
    else Step(tokens, p).Some? && Finishes(tokens, Step(tokens, p).value.after, n - 1)
  }

  /** A step that is not the last one. */
  lemma NotLast(tokens: seq<Token>, p: Snap, n: nat)
    requires Finishes(tokens, p, n) && p.state != EndState
    ensures n > 0 && Step(tokens, p).Some? && Finishes(tokens, Step(tokens, p).value.after, n - 1)
  {
    hide Step;
  }

  lemma SignAt(tokens: seq<Token>, i: nat, typ: TokenType)
    requires AllClean(tokens) && i < |tokens| && tokens[i].typ == typ
    requires typ !in {ALIAS, ANCHOR, SCALAR, TAG, TAG_DIRECTIVE, VERSION_DIRECTIVE}
    ensures tokens[i] == Sign(typ) && Here(tokens, i, [Sign(typ)])
  {
    assert Clean(tokens[i]);
    HereOne(tokens, i, Sign(typ));
  }

  lemma AnchorRead(tokens: seq<Token>, i: nat)
    requires AllClean(tokens) && i < |tokens|
    ensures tokens[i].typ == ANCHOR ==> (
      forall w: Written | w.anchor == Some(tokens[i].value) :: Here(tokens, i, AnchorTokens(w)) && |AnchorTokens(w)| == 1)
    ensures forall w: Written | w.anchor == None :: AnchorTokens(w) == []
  {
    CleanAt(tokens, i);
    HereOne(tokens, i, tokens[i]);
  }

  lemma TagRead(tokens: seq<Token>, i: nat)
    requires AllClean(tokens) && i < |tokens|
    ensures tokens[i].typ == TAG ==> (
      forall w: Written | w.tag == Some(TagName(tokens[i].value, tokens[i].suffix)) :: Here(tokens, i, TagTokens(w)) && |TagTokens(w)| == 1)
    ensures forall w: Written | w.tag == None :: TagTokens(w) == []
  {
    CleanAt(tokens, i);
    HereOne(tokens, i, tokens[i]);
  }

  lemma PropertiesRead(tokens: seq<Token>, p: Snap) returns (w: Written)
    requires AllClean(tokens) && p.head < |tokens| && !p.ended && PropertiesAt(tokens, p).Some?
    ensures Here(tokens, p.head, WrittenTokens(w)) && p.head + |WrittenTokens(w)| < |tokens| && TagOf(p.directives, w).Some?
    ensures PropertiesAt(tokens, p).value == Properties(w.anchor, TagOf(p.directives, w).value, p.(head := p.head + |WrittenTokens(w)|))
  {
    hide Resolve, AllClean, Here, AnchorTokens, TagTokens;
    var i := p.head;
    var first := tokens[i];
    AnchorRead(tokens, i);
    TagRead(tokens, i);
    NowhereHere(tokens, i);
    if first.typ != ANCHOR && first.typ != TAG {
      w := Written(None, None, false);
    } else {
      var second := tokens[i + 1];
      AnchorRead(tokens, i + 1);
      TagRead(tokens, i + 1);
      NowhereHere(tokens, i + 1);
      if first.typ == ANCHOR {
        w := Written(Some(first.value), if second.typ == TAG then Some(TagName(second.value, second.suffix)) else None, false);
      } else {
        w := Written(if second.typ == ANCHOR then Some(second.value) else None, Some(TagName(first.value, first.suffix)), true);
      }
    }
    HereConcat(tokens, i, AnchorTokens(w), TagTokens(w));
    HereConcat(tokens, i, TagTokens(w), AnchorTokens(w));
  }

  /** What a node is read from. */
  ghost predicate Reads(tokens: seq<Token>, p: Snap, f: Form, block: bool, indentless: bool, n: nat)
    requires p.states != []
  {
    && Allowed(p.directives, f, block, indentless)
    && Here(tokens, p.head, FormTokens(f))
    && Finishes(tokens, Landed(p, |FormTokens(f)|), n)
  }

  lemma {:induction false} NodeRead(tokens: seq<Token>, p: Snap, block: bool, indentless: bool, n: nat) returns (f: Form, m: nat)
    requires AllClean(tokens) && p.states != [] && !p.ended
    requires Node(tokens, p, block, indentless).Some? && Finishes(tokens, Node(tokens, p, block, indentless).value.after, n)
    ensures m <= n && Reads(tokens, p, f, block, indentless, m)
    decreases n, 3
  {
    hide Step, Finishes, Here, PropertiesAt, Content, Allowed, FormTokens, AllClean, Reads;
    if tokens[p.head].typ == ALIAS {
      f := AliasRead(tokens, p, block, indentless, n);
      m := n;
    } else {
      var w := PropertiesRead(tokens, p);
      hide TagOf, WrittenTokens, FormTokens;
      var i := p.head + |WrittenTokens(w)|;
      if indentless && tokens[i].typ == BLOCK_ENTRY {
        f, m := IndentlessRead(tokens, p, w, block, n);
      } else if tokens[i].typ == FLOW_SEQUENCE_START {
        f, m := FlowListRead(tokens, p, w, block, indentless, n);
      } else if tokens[i].typ == FLOW_MAPPING_START {
        f, m := FlowMapRead(tokens, p, w, block, indentless, n);
      } else if block && tokens[i].typ == BLOCK_SEQUENCE_START {
        f, m := BlockListRead(tokens, p, w, indentless, n);
      } else if block && tokens[i].typ == BLOCK_MAPPING_START {
        f, m := BlockMapRead(tokens, p, w, indentless, n);
      } else {
        f := SmallRead(tokens, p, w, block, indentless, n);
        m := n;
      }
    }
  }

  lemma AliasRead(tokens: seq<Token>, p: Snap, block: bool, indentless: bool, n: nat) returns (f: Form)
    requires AllClean(tokens) && p.states != [] && !p.ended && p.head < |tokens| && tokens[p.head].typ == ALIAS
    requires Node(tokens, p, block, indentless).Some? && Finishes(tokens, Node(tokens, p, block, indentless).value.after, n)
    ensures Reads(tokens, p, f, block, indentless, n)
  {
    hide Finishes;
    f := Aliased(tokens[p.head].value);
    CleanAt(tokens, p.head);
    HereOne(tokens, p.head, Token(ALIAS, tokens[p.head].value, "", "", false, 0, 0));
  }

  /** Where a node's content is, and what it is. */
  ghost predicate ContentAt(tokens: seq<Token>, p: Snap, w: Written, block: bool, indentless: bool) {
    && AllClean(tokens) && p.states != [] && !p.ended
    && Here(tokens, p.head, WrittenTokens(w)) && p.head + |WrittenTokens(w)| < |tokens| && TagOf(p.directives, w).Some?
    && Node(tokens, p, block, indentless) ==
      Content(tokens, p.(head := p.head + |WrittenTokens(w)|), block, indentless, w.anchor, TagOf(p.directives, w).value)
  }

  lemma SmallRead(tokens: seq<Token>, p: Snap, w: Written, block: bool, indentless: bool, n: nat) returns (f: Form)
    requires ContentAt(tokens, p, w, block, indentless)
    requires tokens[p.head + |WrittenTokens(w)|].typ !in {FLOW_SEQUENCE_START, FLOW_MAPPING_START}
    requires !(indentless && tokens[p.head + |WrittenTokens(w)|].typ == BLOCK_ENTRY)
    requires !(block && tokens[p.head + |WrittenTokens(w)|].typ in {BLOCK_SEQUENCE_START, BLOCK_MAPPING_START})
    requires Node(tokens, p, block, indentless).Some? && Finishes(tokens, Node(tokens, p, block, indentless).value.after, n)
    ensures Reads(tokens, p, f, block, indentless, n)
  {
    hide Finishes, Node, TagOf, WrittenTokens, AllClean, Here;
    var t := tokens[p.head + |WrittenTokens(w)|];
    if t.typ == SCALAR {
      f := Text(w, t.value, t.plain);
      assert Clean(t) by { CleanAt(tokens, p.head + |WrittenTokens(w)|); }
      var s := Token(SCALAR, t.value, "", "", t.plain, 0, 0);
      HereOne(tokens, p.head + |WrittenTokens(w)|, s);
      HereConcat(tokens, p.head, WrittenTokens(w), [s]);
    } else {
      f := Bare(w);
    }
  }

  lemma CleanAt(tokens: seq<Token>, i: nat)
    requires AllClean(tokens) && i < |tokens|
    ensures Clean(tokens[i])
  {
  }

  // ---- collections

  lemma BlockListReadIs(tokens: seq<Token>, p: Snap, w: Written, items: seq<Form>, indentless: bool, m: nat)
    requires p.states != [] && Here(tokens, p.head, WrittenTokens(w)) && TagOf(p.directives, w).Some?
    requires p.head + |WrittenTokens(w)| < |tokens| && tokens[p.head + |WrittenTokens(w)|] == Sign(BLOCK_SEQUENCE_START)
    requires forall i | 0 <= i < |items| :: Optional(p.directives, items[i], true, false)
    requires var i := p.head + |WrittenTokens(w)| + 1;
      && Here(tokens, i, ItemTokens(items)) && i + |ItemTokens(items)| < |tokens| && tokens[i + |ItemTokens(items)|] == Sign(BLOCK_END)
    requires Finishes(tokens, Landed(p, |WrittenTokens(w)| + |ItemTokens(items)| + 2), m)
    ensures Reads(tokens, p, BlockList(w, items), true, indentless, m)
  {
    hide Finishes, Here, TagOf, WrittenTokens, ItemTokens, Optional;
    HereBracketed(tokens, p.head, WrittenTokens(w), Sign(BLOCK_SEQUENCE_START), ItemTokens(items), Sign(BLOCK_END));
  }

  lemma {:induction false} BlockListRead(tokens: seq<Token>, p: Snap, w: Written, indentless: bool, n: nat) returns (f: Form, m: nat)
    requires ContentAt(tokens, p, w, true, indentless) && tokens[p.head + |WrittenTokens(w)|].typ == BLOCK_SEQUENCE_START
    requires Node(tokens, p, true, indentless).Some? && Finishes(tokens, Node(tokens, p, true, indentless).value.after, n)
    ensures m <= n && Reads(tokens, p, f, true, indentless, m)
    decreases n, 2
  {
    hide Step, Content, Finishes, Reads, Here, Node, TagOf, WrittenTokens, AllClean, ItemTokens, BlockTokens, FlowTokens, Optional;
    var o := BlockOpens(tokens, p, w, indentless, n);
    NoTokens();
    var items: seq<Form>;
    NowhereHere(tokens, o.head);
    items, m := ItemsRead(tokens, o, [], n);
    f := BlockList(w, items);
    BlockListReadIs(tokens, p, w, items, indentless, m);
  }

  /** Inside of a block collection. */
  lemma BlockOpens(tokens: seq<Token>, p: Snap, w: Written, indentless: bool, n: nat) returns (o: Snap)
    requires ContentAt(tokens, p, w, true, indentless)
    requires tokens[p.head + |WrittenTokens(w)|].typ in {BLOCK_SEQUENCE_START, BLOCK_MAPPING_START}
    requires Node(tokens, p, true, indentless).Some? && Finishes(tokens, Node(tokens, p, true, indentless).value.after, n)
    ensures var i := p.head + |WrittenTokens(w)|;
      && tokens[i] == Sign(tokens[i].typ) && i + 1 < |tokens|
      && o == p.(head := i + 1, marks := p.marks + 1,
                 state := if tokens[i].typ == BLOCK_SEQUENCE_START then BlockSequenceEntry else BlockMappingKey)
    ensures Finishes(tokens, o, n)
  {
    hide Step, Content, Finishes, Here, Node, TagOf, WrittenTokens, AllClean;
    var i := p.head + |WrittenTokens(w)|;
    CollectionIs(tokens, p, w, true, indentless);
    SignAt(tokens, i, tokens[i].typ);
    var list := tokens[i].typ == BLOCK_SEQUENCE_START;
    var q := p.(head := i, state := if list then BlockSequenceFirstEntry else BlockMappingFirstKey);
    FirstRead(tokens, q, n);
    o := BlockEntered(q, if list then BlockSequenceEntry else BlockMappingKey);
  }

  lemma NoTokens()
    ensures ItemTokens([]) == [] && BlockTokens([]) == [] && FlowTokens([]) == []
  {
  }

  /** A block collection is entered. */
  lemma FirstRead(tokens: seq<Token>, q: Snap, n: nat)
    requires q.head < |tokens| && !q.ended && tokens[q.head].typ != STREAM_END && Finishes(tokens, q, n)
    requires q.state.BlockSequenceFirstEntry? || q.state.BlockMappingFirstKey?
    ensures q.head + 1 < |tokens|
    ensures Finishes(tokens, BlockEntered(q, if q.state.BlockSequenceFirstEntry? then BlockSequenceEntry else BlockMappingKey), n)
  {
    NotLast(tokens, q, n);
    assert q.head + 1 < |tokens| by { hide NodeOrEmpty, Ending; }
    BlockOpened(tokens, q);
    hide Step;
  }

  lemma {:induction false} IndentlessRead(tokens: seq<Token>, p: Snap, w: Written, block: bool, n: nat) returns (f: Form, m: nat)
    requires ContentAt(tokens, p, w, block, true) && tokens[p.head + |WrittenTokens(w)|].typ == BLOCK_ENTRY
    requires Node(tokens, p, block, true).Some? && Finishes(tokens, Node(tokens, p, block, true).value.after, n)
    ensures m <= n && Reads(tokens, p, f, block, true, m)
    decreases n, 2
  {
    hide Step, Content, Finishes, Here, Node, TagOf, WrittenTokens, AllClean, ItemTokens, Optional;
    var q := p.(head := p.head + |WrittenTokens(w)|, state := IndentlessSequenceEntry);
    CollectionIs(tokens, p, w, block, true);
    NoTokens();
    var items: seq<Form>;
    NowhereHere(tokens, q.head);
    items, m := ItemsRead(tokens, q, [], n);
    f := IndentlessList(w, items);
    HereConcat(tokens, p.head, WrittenTokens(w), ItemTokens(items));
  }

  /** The items behind those read already, and the end of the sequence. */
  lemma {:induction false} ItemsRead(tokens: seq<Token>, o: Snap, items: seq<Form>, n: nat) returns (all: seq<Form>, m: nat)
    requires AllClean(tokens) && InList(o.state) && !o.ended && o.states != []
    requires forall i | 0 <= i < |items| :: Optional(o.directives, items[i], true, false)
    requires Here(tokens, o.head, ItemTokens(items)) && Finishes(tokens, o.(head := o.head + |ItemTokens(items)|), n)
    ensures m < n && (forall i | 0 <= i < |all| :: Optional(o.directives, all[i], true, false))
    ensures Here(tokens, o.head, ItemTokens(all))
    ensures o.state.BlockSequenceEntry? ==> (
      && o.marks > 0 && o.head + |ItemTokens(all)| < |tokens| && tokens[o.head + |ItemTokens(all)|] == Sign(BLOCK_END)
      && Finishes(tokens, Landed(o.(marks := o.marks - 1), |ItemTokens(all)| + 1), m))
    ensures o.state.IndentlessSequenceEntry? ==> Finishes(tokens, Landed(o, |ItemTokens(all)|), m)
    ensures items != [] || (o.head < |tokens| && tokens[o.head].typ == BLOCK_ENTRY) ==> all != []
    decreases n, 1
  {
    hide Step, Finishes, Here, AllClean, ItemTokens, BlockTokens, FlowTokens, FormTokens, Optional, NodeOrEmpty, Ending;
    var p := o.(head := o.head + |ItemTokens(items)|);
    NoTokens();
    NotLast(tokens, p, n);
    ItemOrEnd(tokens, p);
    if tokens[p.head].typ == BLOCK_ENTRY {
      ItemStep(tokens, p);
      SignAt(tokens, p.head, BLOCK_ENTRY);
      var f, k := OptionalRead(tokens, p, p.state, Stops(p.state), true, false, n - 1);
      MoreItems(items, f);
      HereConcat(tokens, p.head, [Sign(BLOCK_ENTRY)], FormTokens(f));
      HereConcat(tokens, o.head, ItemTokens(items), [Sign(BLOCK_ENTRY)] + FormTokens(f));
      all, m := ItemsRead(tokens, o, items + [f], k);
    } else {
      ItemsEnd(tokens, p);
      if p.state.BlockSequenceEntry? {
        SignAt(tokens, p.head, BLOCK_END);
      }
      all, m := items, n - 1;
    }
  }

  /** A block sequence goes on with an item, or it ends. */
  lemma ItemOrEnd(tokens: seq<Token>, p: Snap)
    requires InList(p.state) && Step(tokens, p).Some?
    ensures p.head < |tokens|
    ensures p.state.BlockSequenceEntry? && tokens[p.head].typ != BLOCK_ENTRY ==> tokens[p.head].typ == BLOCK_END && p.marks > 0
  {
    hide NodeOrEmpty;
  }

  lemma MoreItems(items: seq<Form>, f: Form)
    ensures ItemTokens(items + [f]) == ItemTokens(items) + ([Sign(BLOCK_ENTRY)] + FormTokens(f))
  {
    assert (items + [f])[..|items|] == items;
  }

  /** Behind an indicator: a node or none. */
  lemma {:induction false} OptionalRead(tokens: seq<Token>, p: Snap, s: State, stop: set<TokenType>, block: bool, indentless: bool, n: nat)
    returns (f: Form, m: nat)
    requires AllClean(tokens) && p.head < |tokens| && tokens[p.head].typ != STREAM_END && !p.ended
    requires NodeOrEmpty(tokens, p, s, stop, block, indentless).Some?
    requires Finishes(tokens, NodeOrEmpty(tokens, p, s, stop, block, indentless).value.after, n)
    ensures m <= n && Optional(p.directives, f, block, indentless) && Here(tokens, p.head + 1, FormTokens(f))
    ensures Finishes(tokens, p.(head := p.head + 1 + |FormTokens(f)|, state := s), m)
    decreases n, 4
  {
    hide Step, Finishes, AllClean, Node, Allowed, FormTokens, Landed;
    var q := Skipped(tokens, p);
    if tokens[q.head].typ in stop {
      NothingTokens();
      f, m := Nothing, n;
    } else {
      f, m := NodeRead(tokens, q.(states := q.states + [s]), block, indentless, n);
      LandedBack(q, s, |FormTokens(f)|);
    }
  }

  lemma BlockMapReadIs(tokens: seq<Token>, p: Snap, w: Written, entries: seq<Entry>, indentless: bool, m: nat)
    requires p.states != [] && Here(tokens, p.head, WrittenTokens(w)) && TagOf(p.directives, w).Some?
    requires p.head + |WrittenTokens(w)| < |tokens| && tokens[p.head + |WrittenTokens(w)|] == Sign(BLOCK_MAPPING_START)
    requires forall i | 0 <= i < |entries| :: BlockEntryAllowed(p.directives, entries[i])
    requires var i := p.head + |WrittenTokens(w)| + 1;
      && Here(tokens, i, BlockTokens(entries)) && i + |BlockTokens(entries)| < |tokens| && tokens[i + |BlockTokens(entries)|] == Sign(BLOCK_END)
    requires Finishes(tokens, Landed(p, |WrittenTokens(w)| + |BlockTokens(entries)| + 2), m)
    ensures Reads(tokens, p, BlockMap(w, entries), true, indentless, m)
  {
    hide Finishes, Here, TagOf, WrittenTokens, BlockTokens, BlockEntryAllowed;
    HereBracketed(tokens, p.head, WrittenTokens(w), Sign(BLOCK_MAPPING_START), BlockTokens(entries), Sign(BLOCK_END));
  }

  lemma {:induction false} BlockMapRead(tokens: seq<Token>, p: Snap, w: Written, indentless: bool, n: nat) returns (f: Form, m: nat)
    requires ContentAt(tokens, p, w, true, indentless) && tokens[p.head + |WrittenTokens(w)|].typ == BLOCK_MAPPING_START
    requires Node(tokens, p, true, indentless).Some? && Finishes(tokens, Node(tokens, p, true, indentless).value.after, n)
    ensures m <= n && Reads(tokens, p, f, true, indentless, m)
    decreases n, 2
  {
    hide Step, Content, Finishes, Reads, Here, Node, TagOf, WrittenTokens, AllClean, ItemTokens, BlockTokens, FlowTokens, BlockEntryAllowed;
    var o := BlockOpens(tokens, p, w, indentless, n);
    NoTokens();
    var entries: seq<Entry>;
    NowhereHere(tokens, o.head);
    entries, m := BlockEntriesRead(tokens, o, [], n);
    f := BlockMap(w, entries);
    BlockMapReadIs(tokens, p, w, entries, indentless, m);
  }

  /** The entries behind those read already, and the end of the mapping. */
  lemma {:induction false} BlockEntriesRead(tokens: seq<Token>, o: Snap, entries: seq<Entry>, n: nat) returns (all: seq<Entry>, m: nat)
    requires AllClean(tokens) && o.state.BlockMappingKey? && !o.ended && o.states != []
    requires forall i | 0 <= i < |entries| :: BlockEntryAllowed(o.directives, entries[i])
    requires Here(tokens, o.head, BlockTokens(entries)) && Finishes(tokens, o.(head := o.head + |BlockTokens(entries)|), n)
    ensures m < n && (forall i | 0 <= i < |all| :: BlockEntryAllowed(o.directives, all[i]))
    ensures Here(tokens, o.head, BlockTokens(all)) && o.marks > 0
    ensures o.head + |BlockTokens(all)| < |tokens| && tokens[o.head + |BlockTokens(all)|] == Sign(BLOCK_END)
    ensures Finishes(tokens, Landed(o.(marks := o.marks - 1), |BlockTokens(all)| + 1), m)
    decreases n, 1
  {
    hide Step, Finishes, Here, AllClean, BlockTokens, BlockEntryAllowed, NodeOrEmpty, Ending, EntryTokens;
    var p := o.(head := o.head + |BlockTokens(entries)|);
    NotLast(tokens, p, n);
    KeyOrEnd(tokens, p);
    if tokens[p.head].typ == KEY {
      var e, k := BlockEntryRead(tokens, p, n);
      MoreBlockEntries(entries, e);
      HereConcat(tokens, o.head, BlockTokens(entries), EntryTokens(e));
      all, m := BlockEntriesRead(tokens, o, entries + [e], k);
    } else {
      KeysEnd(tokens, p);
      SignAt(tokens, p.head, BLOCK_END);
      all, m := entries, n - 1;
    }
  }

  lemma MoreBlockEntries(entries: seq<Entry>, e: Entry)
    ensures BlockTokens(entries + [e]) == BlockTokens(entries) + EntryTokens(e)
  {
    assert (entries + [e])[..|entries|] == entries;
  }

  /** A block mapping goes on with a key, or it ends. */
  lemma KeyOrEnd(tokens: seq<Token>, p: Snap)
    requires p.state.BlockMappingKey? && Step(tokens, p).Some?
    ensures p.head < |tokens| && (tokens[p.head].typ == KEY || (tokens[p.head].typ == BLOCK_END && p.marks > 0))
  {
    hide NodeOrEmpty;
  }

  lemma {:induction false} BlockEntryRead(tokens: seq<Token>, p: Snap, n: nat) returns (e: Entry, m: nat)
    requires AllClean(tokens) && p.state.BlockMappingKey? && !p.ended && p.head < |tokens| && tokens[p.head].typ == KEY
    requires Finishes(tokens, p, n)
    ensures m < n && BlockEntryAllowed(p.directives, e) && Here(tokens, p.head, EntryTokens(e))
    ensures Finishes(tokens, p.(head := p.head + |EntryTokens(e)|), m)
    decreases n, 0
  {
    hide Step, Finishes, Here, AllClean, NodeOrEmpty, Optional, FormTokens, ColonTokens;
    NotLast(tokens, p, n);
    KeyStep(tokens, p);
    SignAt(tokens, p.head, KEY);
    var key, k := OptionalRead(tokens, p, BlockMappingValue, PAIR_FOLLOWERS, true, true, n - 1);
    var q := p.(head := p.head + 1 + |FormTokens(key)|, state := BlockMappingValue);
    SomeToken(tokens, q, k);
    ValueStep(tokens, q);
    var colon, value, l := ValueRead(tokens, q, BlockMappingKey, PAIR_FOLLOWERS, true, k);
    e, m := Keyed(key, colon, value), l;
    HereConcat(tokens, p.head, [Sign(KEY)], FormTokens(key));
    HereConcat(tokens, p.head, [Sign(KEY)] + FormTokens(key), ColonTokens(colon) + FormTokens(value));
  }

  /** Before its last step the parser has a token at hand. */
  lemma SomeToken(tokens: seq<Token>, p: Snap, n: nat)
    requires Finishes(tokens, p, n) && p.state != EndState
    ensures p.head < |tokens|
  {
    hide Step, Finishes;
    NotLast(tokens, p, n);
    SomeStep(tokens, p);
  }

  lemma SomeStep(tokens: seq<Token>, p: Snap)
    requires Step(tokens, p).Some?
    ensures p.head < |tokens| && p.state != EndState
  {
    hide NodeOrEmpty, Missing, Pushing, Ending, Complete, ImplicitDocument, ExplicitDocument, PropertiesAt, Content;
  }

  /** A value behind its colon, or none. */
  lemma {:induction false} ValueRead(tokens: seq<Token>, p: Snap, s: State, stop: set<TokenType>, block: bool, n: nat)
    returns (colon: bool, f: Form, m: nat)
    requires AllClean(tokens) && p.head < |tokens| && !p.ended && p.state != EndState && Finishes(tokens, p, n)
    requires Step(tokens, p) == if tokens[p.head].typ == VALUE then NodeOrEmpty(tokens, p, s, stop, block, block) else Missing(p, s)
    ensures m < n && ValueAllowed(p.directives, colon, f, block) && Here(tokens, p.head, ColonTokens(colon) + FormTokens(f))
    ensures Finishes(tokens, p.(head := p.head + |ColonTokens(colon) + FormTokens(f)|, state := s), m)
    decreases n, 0
  {
    hide Step, Finishes, Here, AllClean, NodeOrEmpty, Optional, FormTokens;
    NotLast(tokens, p, n);
    if tokens[p.head].typ == VALUE {
      SignAt(tokens, p.head, VALUE);
      colon := true;
      f, m := OptionalRead(tokens, p, s, stop, block, block, n - 1);
      HereConcat(tokens, p.head, [Sign(VALUE)], FormTokens(f));
    } else {
      NothingTokens();
      NowhereHere(tokens, p.head);
      colon, f, m := false, Nothing, n - 1;
    }
  }

  lemma NowhereHere(tokens: seq<Token>, i: nat)
    requires i <= |tokens|
    ensures Here(tokens, i, []) && Here(tokens, i, [] + [])
  {
  }

  // ---- flow collections

  lemma FlowListReadIs(tokens: seq<Token>, p: Snap, w: Written, entries: seq<Entry>, comma: bool, block: bool, indentless: bool, m: nat)
    requires p.states != [] && Here(tokens, p.head, WrittenTokens(w)) && TagOf(p.directives, w).Some?
    requires p.head + |WrittenTokens(w)| < |tokens| && tokens[p.head + |WrittenTokens(w)|] == Sign(FLOW_SEQUENCE_START)
    requires (forall i | 0 <= i < |entries| :: ListEntryAllowed(p.directives, entries[i])) && (comma ==> entries != [])
    requires var i := p.head + |WrittenTokens(w)| + 1;
      && Here(tokens, i, FlowTokens(entries)) && Here(tokens, i + |FlowTokens(entries)|, Comma(comma))
      && i + |FlowTokens(entries)| + |Comma(comma)| < |tokens|
      && tokens[i + |FlowTokens(entries)| + |Comma(comma)|] == Sign(FLOW_SEQUENCE_END)
    requires Finishes(tokens, Landed(p, |WrittenTokens(w)| + |FlowTokens(entries)| + |Comma(comma)| + 2), m)
    ensures Reads(tokens, p, FlowList(w, entries, comma), block, indentless, m)
  {
    hide Finishes, Here, TagOf, WrittenTokens, FlowTokens, Comma, ListEntryAllowed;
    HereConcat(tokens, p.head + |WrittenTokens(w)| + 1, FlowTokens(entries), Comma(comma));
    HereBracketed(tokens, p.head, WrittenTokens(w), Sign(FLOW_SEQUENCE_START), FlowTokens(entries) + Comma(comma), Sign(FLOW_SEQUENCE_END));
  }

  lemma {:induction false} FlowListRead(tokens: seq<Token>, p: Snap, w: Written, block: bool, indentless: bool, n: nat) returns (f: Form, m: nat)
    requires ContentAt(tokens, p, w, block, indentless) && tokens[p.head + |WrittenTokens(w)|].typ == FLOW_SEQUENCE_START
    requires Node(tokens, p, block, indentless).Some? && Finishes(tokens, Node(tokens, p, block, indentless).value.after, n)
    ensures m <= n && Reads(tokens, p, f, block, indentless, m)
    decreases n, 2
  {
    hide Step, Content, Finishes, Reads, Here, Node, TagOf, WrittenTokens, AllClean, FlowTokens, ListEntryAllowed, Comma;
    var q := p.(head := p.head + |WrittenTokens(w)|, state := FlowSequenceFirstEntry);
    CollectionIs(tokens, p, w, block, indentless);
    SignAt(tokens, q.head, FLOW_SEQUENCE_START);
    NoTokens();
    NowhereHere(tokens, q.head + 1);
    var entries, comma;
    entries, comma, m := ListEntriesRead(tokens, q, [], n);
    f := FlowList(w, entries, comma);
    FlowListReadIs(tokens, p, w, entries, comma, block, indentless, m);
  }

  lemma FlowMapReadIs(tokens: seq<Token>, p: Snap, w: Written, entries: seq<Entry>, comma: bool, block: bool, indentless: bool, m: nat)
    requires p.states != [] && Here(tokens, p.head, WrittenTokens(w)) && TagOf(p.directives, w).Some?
    requires p.head + |WrittenTokens(w)| < |tokens| && tokens[p.head + |WrittenTokens(w)|] == Sign(FLOW_MAPPING_START)
    requires (forall i | 0 <= i < |entries| :: MapEntryAllowed(p.directives, entries[i])) && (comma ==> entries != [])
    requires var i := p.head + |WrittenTokens(w)| + 1;
      && Here(tokens, i, FlowTokens(entries)) && Here(tokens, i + |FlowTokens(entries)|, Comma(comma))
      && i + |FlowTokens(entries)| + |Comma(comma)| < |tokens|
      && tokens[i + |FlowTokens(entries)| + |Comma(comma)|] == Sign(FLOW_MAPPING_END)
    requires Finishes(tokens, Landed(p, |WrittenTokens(w)| + |FlowTokens(entries)| + |Comma(comma)| + 2), m)
    ensures Reads(tokens, p, FlowMap(w, entries, comma), block, indentless, m)
  {
    hide Finishes, Here, TagOf, WrittenTokens, FlowTokens, Comma, MapEntryAllowed;
    HereConcat(tokens, p.head + |WrittenTokens(w)| + 1, FlowTokens(entries), Comma(comma));
    HereBracketed(tokens, p.head, WrittenTokens(w), Sign(FLOW_MAPPING_START), FlowTokens(entries) + Comma(comma), Sign(FLOW_MAPPING_END));
  }

  lemma {:induction false} FlowMapRead(tokens: seq<Token>, p: Snap, w: Written, block: bool, indentless: bool, n: nat) returns (f: Form, m: nat)
    requires ContentAt(tokens, p, w, block, indentless) && tokens[p.head + |WrittenTokens(w)|].typ == FLOW_MAPPING_START
    requires Node(tokens, p, block, indentless).Some? && Finishes(tokens, Node(tokens, p, block, indentless).value.after, n)
    ensures m <= n && Reads(tokens, p, f, block, indentless, m)
    decreases n, 2
  {
    hide Step, Content, Finishes, Reads, Here, Node, TagOf, WrittenTokens, AllClean, FlowTokens, MapEntryAllowed, Comma;
    var q := p.(head := p.head + |WrittenTokens(w)|, state := FlowMappingFirstKey);
    CollectionIs(tokens, p, w, block, indentless);
    SignAt(tokens, q.head, FLOW_MAPPING_START);
    NoTokens();
    NowhereHere(tokens, q.head + 1);
    var entries, comma;
    entries, comma, m := MapEntriesRead(tokens, q, [], n);
    f := FlowMap(w, entries, comma);
    FlowMapReadIs(tokens, p, w, entries, comma, block, indentless, m);
  }

  /** Where the next entry begins, or the collection ends; between the entries there has been a comma. */
  lemma EntryFound(tokens: seq<Token>, q: Snap, entries: seq<Entry>, s: State, end: TokenType, e: Snap) returns (comma: bool)
    requires AllClean(tokens) && !q.ended && q.head < |tokens| && tokens[q.head].typ != STREAM_END && end != FLOW_ENTRY
    requires FlowEntryAt(tokens, Amid(q, entries, s), entries == [], end) == Some(e)
    ensures comma ==> entries != []
    ensures Here(tokens, q.head + 1 + |FlowTokens(entries)|, Comma(comma)) && e.head < |tokens|
    ensures e.(state := q.state) == q.(marks := q.marks + 1, head := q.head + 1 + |FlowTokens(entries)| + |Comma(comma)|)
    ensures entries != [] && tokens[e.head].typ != end ==> comma
  {
    hide AllClean, FlowTokens;
    NoTokens();
    var i := q.head + 1 + |FlowTokens(entries)|;
    comma := entries != [] && tokens[i].typ != end;
    if comma {
      SignAt(tokens, i, FLOW_ENTRY);
    }
  }

  lemma {:induction false} ListEntriesRead(tokens: seq<Token>, q: Snap, entries: seq<Entry>, n: nat) returns (all: seq<Entry>, comma: bool, m: nat)
    requires AllClean(tokens) && q.state.FlowSequenceFirstEntry? && !q.ended && q.states != []
    requires q.head < |tokens| && tokens[q.head].typ != STREAM_END
    requires forall i | 0 <= i < |entries| :: ListEntryAllowed(q.directives, entries[i])
    requires Here(tokens, q.head + 1, FlowTokens(entries)) && Finishes(tokens, Amid(q, entries, FlowSequenceEntry), n)
    ensures m < n && (forall i | 0 <= i < |all| :: ListEntryAllowed(q.directives, all[i])) && (comma ==> all != [])
    ensures Here(tokens, q.head + 1, FlowTokens(all)) && Here(tokens, q.head + 1 + |FlowTokens(all)|, Comma(comma))
    ensures var i := q.head + 1 + |FlowTokens(all)| + |Comma(comma)|; i < |tokens| && tokens[i] == Sign(FLOW_SEQUENCE_END)
    ensures Finishes(tokens, Landed(q, 2 + |FlowTokens(all)| + |Comma(comma)|), m)
    decreases n, 1
  {
    hide Step, Finishes, Here, AllClean, FlowTokens, ListEntryAllowed, EntryTokens, FlowEntryAt, ListBody, Comma;
    NotLast(tokens, Amid(q, entries, FlowSequenceEntry), n);
    var at := ListAt(tokens, q, entries);
    comma := EntryFound(tokens, q, entries, FlowSequenceEntry, FLOW_SEQUENCE_END, at);
    if tokens[at.head].typ == FLOW_SEQUENCE_END {
      ListEnds(tokens, q, entries, comma);
      SignAt(tokens, at.head, FLOW_SEQUENCE_END);
      all, m := entries, n - 1;
    } else {
      var e, k := ListEntryRead(tokens, at, n - 1);
      CommaIs(entries, comma);
      MoreFlowEntries(entries, e);
      HereConcat(tokens, q.head + 1 + |FlowTokens(entries)|, Comma(comma), EntryTokens(e));
      HereConcat(tokens, q.head + 1, FlowTokens(entries), Comma(comma) + EntryTokens(e));
      all, comma, m := ListEntriesRead(tokens, q, entries + [e], k);
    }
  }

  lemma CommaIs(entries: seq<Entry>, comma: bool)
    ensures comma == (entries != []) ==> Comma(comma) == Comma(entries != [])
  {
  }

  lemma MoreFlowEntries(entries: seq<Entry>, e: Entry)
    ensures FlowTokens(entries + [e]) == FlowTokens(entries) + (Comma(entries != []) + EntryTokens(e))
  {
    assert (entries + [e])[..|entries|] == entries;
  }

  lemma ListAt(tokens: seq<Token>, q: Snap, entries: seq<Entry>) returns (e: Snap)
    requires q.state.FlowSequenceFirstEntry? && Step(tokens, Amid(q, entries, FlowSequenceEntry)).Some?
    ensures FlowEntryAt(tokens, Amid(q, entries, FlowSequenceEntry), entries == [], FLOW_SEQUENCE_END) == Some(e)
    ensures e.head < |tokens| && Step(tokens, Amid(q, entries, FlowSequenceEntry)) == ListBody(tokens, e)
  {
    hide FlowEntryAt, Pushing, Ending, FlowTokens, Skipped;
    e := FlowEntryAt(tokens, Amid(q, entries, FlowSequenceEntry), entries == [], FLOW_SEQUENCE_END).value;
  }

  lemma MapAt(tokens: seq<Token>, q: Snap, entries: seq<Entry>) returns (e: Snap)
    requires q.state.FlowMappingFirstKey? && Step(tokens, Amid(q, entries, FlowMappingKey)).Some?
    ensures FlowEntryAt(tokens, Amid(q, entries, FlowMappingKey), entries == [], FLOW_MAPPING_END) == Some(e)
    ensures e.head < |tokens| && Step(tokens, Amid(q, entries, FlowMappingKey)) == MapBody(tokens, e)
  {
    hide FlowEntryAt, Pushing, Ending, NodeOrEmpty, FlowTokens, Skipped;
    e := FlowEntryAt(tokens, Amid(q, entries, FlowMappingKey), entries == [], FLOW_MAPPING_END).value;
  }

  lemma {:induction false} ListEntryRead(tokens: seq<Token>, p: Snap, n: nat) returns (e: Entry, m: nat)
    requires AllClean(tokens) && p.head < |tokens| && !p.ended && tokens[p.head].typ != FLOW_SEQUENCE_END
    requires ListBody(tokens, p).Some? && Finishes(tokens, ListBody(tokens, p).value.after, n)
    ensures m <= n && ListEntryAllowed(p.directives, e) && Here(tokens, p.head, EntryTokens(e))
    ensures Finishes(tokens, p.(head := p.head + |EntryTokens(e)|, state := FlowSequenceEntry), m)
    decreases n, 6
  {
    hide Step, Finishes, Here, AllClean, Node, Allowed, FormTokens, Landed, ColonTokens;
    if tokens[p.head].typ == KEY {
      SignAt(tokens, p.head, KEY);
      e, m := PairRead(tokens, p, p.(head := p.head + 1, state := FlowSequenceEntryMappingKey), n);
    } else {
      var f: Form;
      f, m := NodeRead(tokens, p.(states := p.states + [FlowSequenceEntry]), false, false, n);
      LandedBack(p, FlowSequenceEntry, |FormTokens(f)|);
      e := Single(f);
      assert EntryTokens(e) == FormTokens(f);
    }
  }

  lemma {:induction false} PairRead(tokens: seq<Token>, p: Snap, q: Snap, n: nat) returns (e: Entry, m: nat)
    requires AllClean(tokens) && p.head < |tokens| && !p.ended && tokens[p.head] == Sign(KEY)
    requires q == p.(head := p.head + 1, state := FlowSequenceEntryMappingKey) && Finishes(tokens, q, n)
    ensures m <= n && ListEntryAllowed(p.directives, e) && Here(tokens, p.head, EntryTokens(e))
    ensures Finishes(tokens, p.(head := p.head + |EntryTokens(e)|, state := FlowSequenceEntry), m)
    decreases n, 5
  {
    hide Step, Finishes, Here, AllClean, Node, Allowed, FormTokens, ColonTokens, ValueAllowed;
    var k: nat, before: seq<Token>;
    e, before, k := PairKeyRead(tokens, p, q, n);
    var v := p.(head := p.head + |before|, state := FlowSequenceEntryMappingValue);
    SomeToken(tokens, v, k);
    PairValueStep(tokens, v);
    var colon, value, l := ValueRead(tokens, v, FlowSequenceEntryMappingEnd, {FLOW_ENTRY, FLOW_SEQUENCE_END}, false, k);
    e := e.(colon := colon, value := value);
    var behind := ColonTokens(colon) + FormTokens(value);
    HereConcat(tokens, p.head, before, behind);
    var r := v.(head := v.head + |behind|, state := FlowSequenceEntryMappingEnd);
    SomeToken(tokens, r, l);
    PairEnd(tokens, r);
    NotLast(tokens, r, l);
    m := l - 1;
  }

  /** The key of a single pair, whatever its value is. */
  lemma {:induction false} PairKeyRead(tokens: seq<Token>, p: Snap, q: Snap, n: nat) returns (e: Entry, before: seq<Token>, m: nat)
    requires AllClean(tokens) && p.head < |tokens| && !p.ended && tokens[p.head] == Sign(KEY)
    requires q == p.(head := p.head + 1, state := FlowSequenceEntryMappingKey) && Finishes(tokens, q, n)
    ensures m < n && (e.Keyed? || e.Swallowing?) && (e.Keyed? ==> Allowed(p.directives, e.key, false, false))
    ensures e.Swallowing? ==> e.indicator in {VALUE, FLOW_ENTRY, FLOW_SEQUENCE_END}
    ensures Here(tokens, p.head, before)
    ensures before == if e.Keyed? then [Sign(KEY)] + FormTokens(e.key) else [Sign(KEY), Sign(e.indicator)]
    ensures Finishes(tokens, p.(head := p.head + |before|, state := FlowSequenceEntryMappingValue), m)
    decreases n, 4
  {
    hide Step, Finishes, Here, AllClean, Node, Allowed, FormTokens, Landed;
    HereOne(tokens, p.head, Sign(KEY));
    NotLast(tokens, q, n);
    PairKeyStep(tokens, q);
    if tokens[q.head].typ in {VALUE, FLOW_ENTRY, FLOW_SEQUENCE_END} {
      SignAt(tokens, q.head, tokens[q.head].typ);
      HereConcat(tokens, p.head, [Sign(KEY)], [Sign(tokens[q.head].typ)]);
      m, before, e := n - 1, [Sign(KEY)] + [Sign(tokens[q.head].typ)], Swallowing(tokens[q.head].typ, false, Nothing);
    } else {
      var key: Form;
      key, m := NodeRead(tokens, q.(states := q.states + [FlowSequenceEntryMappingValue]), false, false, n - 1);
      LandedBack(q, FlowSequenceEntryMappingValue, |FormTokens(key)|);
      HereConcat(tokens, p.head, [Sign(KEY)], FormTokens(key));
      before, e := [Sign(KEY)] + FormTokens(key), Keyed(key, false, Nothing);
    }
  }

  lemma PairKeyStep(tokens: seq<Token>, p: Snap)
    requires p.state.FlowSequenceEntryMappingKey? && Step(tokens, p).Some?
    ensures p.head < |tokens| && Step(tokens, p) == (
      if tokens[p.head].typ in {VALUE, FLOW_ENTRY, FLOW_SEQUENCE_END} then Missing(Skipped(tokens, p), FlowSequenceEntryMappingValue)
      else Pushing(tokens, p, FlowSequenceEntryMappingValue, false, false))
  {
    hide Pushing;
  }

  lemma {:induction false} MapEntriesRead(tokens: seq<Token>, q: Snap, entries: seq<Entry>, n: nat) returns (all: seq<Entry>, comma: bool, m: nat)
    requires AllClean(tokens) && q.state.FlowMappingFirstKey? && !q.ended && q.states != []
    requires q.head < |tokens| && tokens[q.head].typ != STREAM_END
    requires forall i | 0 <= i < |entries| :: MapEntryAllowed(q.directives, entries[i])
    requires Here(tokens, q.head + 1, FlowTokens(entries)) && Finishes(tokens, Amid(q, entries, FlowMappingKey), n)
    ensures m < n && (forall i | 0 <= i < |all| :: MapEntryAllowed(q.directives, all[i])) && (comma ==> all != [])
    ensures Here(tokens, q.head + 1, FlowTokens(all)) && Here(tokens, q.head + 1 + |FlowTokens(all)|, Comma(comma))
    ensures var i := q.head + 1 + |FlowTokens(all)| + |Comma(comma)|; i < |tokens| && tokens[i] == Sign(FLOW_MAPPING_END)
    ensures Finishes(tokens, Landed(q, 2 + |FlowTokens(all)| + |Comma(comma)|), m)
    decreases n, 1
  {
    hide Step, Finishes, Here, AllClean, FlowTokens, MapEntryAllowed, EntryTokens, FlowEntryAt, MapBody, Comma;
    NotLast(tokens, Amid(q, entries, FlowMappingKey), n);
    var at := MapAt(tokens, q, entries);
    comma := EntryFound(tokens, q, entries, FlowMappingKey, FLOW_MAPPING_END, at);
    if tokens[at.head].typ == FLOW_MAPPING_END {
      MapEnds(tokens, q, entries, comma);
      SignAt(tokens, at.head, FLOW_MAPPING_END);
      all, m := entries, n - 1;
    } else {
      var e, k := MapEntryRead(tokens, at, n - 1);
      CommaIs(entries, comma);
      MoreFlowEntries(entries, e);
      HereConcat(tokens, q.head + 1 + |FlowTokens(entries)|, Comma(comma), EntryTokens(e));
      HereConcat(tokens, q.head + 1, FlowTokens(entries), Comma(comma) + EntryTokens(e));
      all, comma, m := MapEntriesRead(tokens, q, entries + [e], k);
    }
  }

  lemma {:induction false} MapEntryRead(tokens: seq<Token>, p: Snap, n: nat) returns (e: Entry, m: nat)
    requires AllClean(tokens) && p.head < |tokens| && !p.ended && tokens[p.head].typ != FLOW_MAPPING_END
    requires MapBody(tokens, p).Some? && Finishes(tokens, MapBody(tokens, p).value.after, n)
    ensures m <= n && MapEntryAllowed(p.directives, e) && Here(tokens, p.head, EntryTokens(e))
    ensures Finishes(tokens, p.(head := p.head + |EntryTokens(e)|, state := FlowMappingKey), m)
    decreases n, 5
  {
    hide Step, Finishes, Here, AllClean, Node, Allowed, Optional, FormTokens, Landed, ColonTokens, NodeOrEmpty;
    if tokens[p.head].typ == KEY {
      SignAt(tokens, p.head, KEY);
      var key, k := OptionalRead(tokens, p, FlowMappingValue, {VALUE, FLOW_ENTRY, FLOW_MAPPING_END}, false, false, n);
      var q := p.(head := p.head + 1 + |FormTokens(key)|, state := FlowMappingValue);
      SomeToken(tokens, q, k);
      MapValueStep(tokens, q);
      var colon, value, l := ValueRead(tokens, q, FlowMappingKey, {FLOW_ENTRY, FLOW_MAPPING_END}, false, k);
      e, m := Keyed(key, colon, value), l;
      HereConcat(tokens, p.head, [Sign(KEY)], FormTokens(key));
      HereConcat(tokens, p.head, [Sign(KEY)] + FormTokens(key), ColonTokens(colon) + FormTokens(value));
    } else {
      var f, k := NodeRead(tokens, p.(states := p.states + [FlowMappingEmptyValue]), false, false, n);
      LandedBack(p, FlowMappingEmptyValue, |FormTokens(f)|);
      var q := p.(head := p.head + |FormTokens(f)|, state := FlowMappingEmptyValue);
      SomeToken(tokens, q, k);
      MapValueStep(tokens, q);
      NotLast(tokens, q, k);
      e, m := Single(f), k - 1;
    }
  }

  // ---- documents

  lemma {:induction false} PastEndsRead(tokens: seq<Token>, p: Snap) returns (n: nat)
    requires AllClean(tokens) && !p.ended && PastEnds(tokens, p).Some?
    ensures PastEnds(tokens, p) == Some(p.(head := p.head + n))
    ensures p.head + n < |tokens| && tokens[p.head + n].typ != DOCUMENT_END && Here(tokens, p.head, EndTokens(n))
    decreases |tokens| - p.head
  {
    hide AllClean;
    if tokens[p.head].typ == DOCUMENT_END {
      SignAt(tokens, p.head, DOCUMENT_END);
      n := PastEndsRead(tokens, Skipped(tokens, p));
      HereConcat(tokens, p.head, [Sign(DOCUMENT_END)], EndTokens(n));
      n := n + 1;
      assert EndTokens(n) == [Sign(DOCUMENT_END)] + EndTokens(n - 1);
    } else {
      n := 0;
    }
  }

  /** The directives at hand. */
  lemma {:induction false} DirectivesFound(tokens: seq<Token>, p: Snap, version: bool) returns (n: nat)
    requires !p.ended && Directed(tokens, p, version).Some?
    ensures p.head + n < |tokens| && !IsDirective(tokens[p.head + n])
    ensures forall i | p.head <= i < p.head + n :: IsDirective(tokens[i])
    decreases |tokens| - p.head
  {
    hide Declared, WithDefault;
    var t := tokens[p.head];
    if t.typ == VERSION_DIRECTIVE {
      n := DirectivesFound(tokens, Skipped(tokens, p), true);
      n := n + 1;
    } else if t.typ == TAG_DIRECTIVE {
      n := DirectivesFound(tokens, Skipped(tokens, p).(directives := p.directives + [TagDirective(t.value, t.prefix)]), version);
      n := n + 1;
    } else {
      n := 0;
    }
  }

  lemma DirectivesRead(tokens: seq<Token>, p: Snap) returns (ts: seq<Token>)
    requires !p.ended && p.directives == [] && Directed(tokens, p, false).Some?
    ensures Proper(ts) && Here(tokens, p.head, ts)
    ensures Directed(tokens, p, false) == Some(p.(head := p.head + |ts|, directives := DirectivesOf(ts)))
    ensures p.head < |tokens| && !IsDirective(tokens[p.head]) ==> ts == []
  {
    hide Directed, Proper, TagsOf, Versioned, WithDefault;
    var n := DirectivesFound(tokens, p, false);
    ts := tokens[p.head..p.head + n];
    NoTags();
    assert ts[..0] == [];
    DirectedIs(tokens, p, ts, 0);
  }

  /** The root of a document. */
  lemma RootRead(tokens: seq<Token>, p: Snap, n: nat) returns (f: Form, m: nat)
    requires AllClean(tokens) && (p.state.DocumentContent? || p.state.BlockNode?) && p.states == [DocumentEndState] && !p.ended
    requires Finishes(tokens, p, n)
    ensures m < n && Optional(p.directives, f, true, false) && (p.state.BlockNode? ==> !f.Nothing?)
    ensures Here(tokens, p.head, FormTokens(f))
    ensures Finishes(tokens, p.(head := p.head + |FormTokens(f)|, state := DocumentEndState, states := []), m)
  {
    hide Step, Finishes, Here, AllClean, Node, Allowed, FormTokens;
    NotLast(tokens, p, n);
    SomeToken(tokens, p, n);
    RootStepIs(tokens, p);
    NotNothing(p.directives, true, false);
    if p.state.DocumentContent? && tokens[p.head].typ in {VERSION_DIRECTIVE, TAG_DIRECTIVE, DOCUMENT_START, DOCUMENT_END, STREAM_END} {
      NothingTokens();
      NowhereHere(tokens, p.head);
      f, m := Nothing, n - 1;
    } else {
      f, m := NodeRead(tokens, p, true, false, n - 1);
    }
  }

  lemma RootStepIs(tokens: seq<Token>, p: Snap)
    requires p.head < |tokens| && p.states == [DocumentEndState] && (p.state.DocumentContent? || p.state.BlockNode?)
    ensures Step(tokens, p) ==
      if p.state.DocumentContent? && tokens[p.head].typ in {VERSION_DIRECTIVE, TAG_DIRECTIVE, DOCUMENT_START, DOCUMENT_END, STREAM_END}
      then Some(Next(EMPTY_SCALAR, p.(state := DocumentEndState, states := [])))
      else Node(tokens, p, true, false)
  {
    hide Node;
  }

  /** A step between two documents skips the DOCUMENT-ENDs at hand. */
  lemma PastStep(tokens: seq<Token>, q: Snap)
    requires q.state.DocumentStartState? && Step(tokens, q).Some?
    ensures PastEnds(tokens, q).Some?
  {
    hide ImplicitDocument, ExplicitDocument;
  }

  lemma DocumentEndIs(tokens: seq<Token>, p: Snap)
    requires p.state.DocumentEndState? && p.head < |tokens| && !p.ended
    ensures var q, marked := p.(state := DocumentStartState, directives := []), tokens[p.head].typ == DOCUMENT_END;
      Step(tokens, p) == Some(Next(DocumentEnd(!marked), if marked then q.(head := p.head + 1) else q))
  {
  }

  /** The end of a document, with the DOCUMENT-ENDs that the next step skips. */
  lemma EndRead(tokens: seq<Token>, p: Snap, n: nat) returns (ends: nat)
    requires AllClean(tokens) && p.state.DocumentEndState? && !p.ended && Finishes(tokens, p, n)
    ensures n > 0 && Here(tokens, p.head, EndTokens(ends))
    ensures p.head + ends < |tokens| && tokens[p.head + ends].typ != DOCUMENT_END
    ensures Finishes(tokens, p.(state := DocumentStartState, directives := [], head := p.head + ends - Lag(ends)), n - 1)
  {
    hide Step, Finishes, PastEnds, AllClean, Here, EndTokens;
    NotLast(tokens, p, n);
    SomeToken(tokens, p, n);
    DocumentEndIs(tokens, p);
    var q := Step(tokens, p).value.after;
    NotLast(tokens, q, n - 1);
    PastStep(tokens, q);
    var k := PastEndsRead(tokens, q);
    ends := k;
    if tokens[p.head].typ == DOCUMENT_END {
      SignAt(tokens, p.head, DOCUMENT_END);
      HereConcat(tokens, p.head, [Sign(DOCUMENT_END)], EndTokens(k));
      EndsGrow(k);
      ends := k + 1;
    } else {
      EndAtHand(tokens, p.head, k);
    }
  }

  lemma EndsGrow(n: nat)
    ensures EndTokens(n + 1) == [Sign(DOCUMENT_END)] + EndTokens(n)
  {
  }

  lemma EndAtHand(tokens: seq<Token>, i: nat, n: nat)
    requires Here(tokens, i, EndTokens(n)) && i < |tokens| && tokens[i].typ != DOCUMENT_END
    ensures n == 0
  {
    if n > 0 {
      HereAt(tokens, i, EndTokens(n), 0);
    }
  }

  /** What is in front of a document's root. */
  lemma FrontRead(tokens: seq<Token>, q: Snap, first: bool) returns (ts: seq<Token>, marked: bool, p: Snap)
    requires AllClean(tokens) && !q.ended && q.states == [] && q.directives == [] && q.head < |tokens| && tokens[q.head].typ != STREAM_END
    requires BetweenBody(tokens, q, first).Some?
    ensures (marked ==> Proper(ts)) && (!marked ==> first && ts == [])
    ensures Here(tokens, q.head, ts + MarkTokens(marked))
    ensures p == q.(head := q.head + |ts + MarkTokens(marked)|, directives := DirectivesOf(ts),
                    state := if marked then DocumentContent else BlockNode, states := [DocumentEndState])
    ensures BetweenBody(tokens, q, first).value.after == p
  {
    hide Here, AllClean, Directed, Proper, DirectivesOf;
    marked := !(first && tokens[q.head].typ !in BEGINNINGS);
    ts := DirectivesRead(tokens, q);
    if marked {
      SignAt(tokens, q.head + |ts|, DOCUMENT_START);
    } else {
      NowhereHere(tokens, q.head + |ts|);
    }
    HereConcat(tokens, q.head, ts, MarkTokens(marked));
    p := q.(head := q.head + |ts + MarkTokens(marked)|, directives := DirectivesOf(ts),
            state := if marked then DocumentContent else BlockNode, states := [DocumentEndState]);
    assert q.states + [DocumentEndState] == [DocumentEndState];
  }

  /** A document from its first token on. */
  lemma ScriptRead(tokens: seq<Token>, q: Snap, first: bool, n: nat) returns (d: Script, m: nat)
    requires AllClean(tokens) && !q.ended && q.states == [] && q.directives == [] && q.head < |tokens| && tokens[q.head].typ != STREAM_END
    requires BetweenBody(tokens, q, first).Some? && Finishes(tokens, BetweenBody(tokens, q, first).value.after, n)
    ensures m < n && ScriptAllowed(d, first) && Here(tokens, q.head, ScriptTokens(d))
    ensures Lag(d.ends) <= |ScriptTokens(d)|
    ensures Finishes(tokens, q.(state := DocumentStartState, head := q.head + |ScriptTokens(d)| - Lag(d.ends)), m)
    ensures Here(tokens, q.head + |ScriptTokens(d)| - Lag(d.ends), EndTokens(Lag(d.ends)))
    ensures q.head + |ScriptTokens(d)| < |tokens| && tokens[q.head + |ScriptTokens(d)|].typ != DOCUMENT_END
  {
    hide Step, Finishes, Here, AllClean, BetweenBody, Proper, DirectivesOf, Allowed, FormTokens, EndTokens;
    var ts, marked, p := FrontRead(tokens, q, first);
    var front := ts + MarkTokens(marked);
    var f, k := RootRead(tokens, p, n);
    HereConcat(tokens, q.head, front, FormTokens(f));
    var r := p.(head := p.head + |FormTokens(f)|, state := DocumentEndState, states := []);
    var ends := EndRead(tokens, r, k);
    EndsLength(ends);
    HereConcat(tokens, q.head, front + FormTokens(f), EndTokens(ends));
    EndsBehind(tokens, r.head, ends);
    d, m := Script(ts, marked, f, ends), k - 1;
  }

  lemma EndsBehind(tokens: seq<Token>, i: nat, n: nat)
    requires Here(tokens, i, EndTokens(n))
    ensures Here(tokens, i + n - Lag(n), EndTokens(Lag(n)))
  {
    if n > 0 {
      EndsGrow(n - 1);
      HereConcat(tokens, i, [Sign(DOCUMENT_END)], EndTokens(n - 1));
    }
  }

  /** The documents behind those read already, and the end of the stream. */
  lemma {:induction false} ScriptsRead(tokens: seq<Token>, p: Snap, ds: seq<Script>, n: nat) returns (all: seq<Script>)
    requires AllClean(tokens) && p.state.ImplicitDocumentStart? && !p.ended && p.states == [] && p.directives == [] && StreamAllowed(ds)
    requires Here(tokens, p.head, ScriptsTokens(ds))
    requires ds != [] ==> (
      var k := Lag(ds[|ds| - 1].ends);
      k <= |ScriptsTokens(ds)| && Here(tokens, p.head + |ScriptsTokens(ds)| - k, EndTokens(k))
      && p.head + |ScriptsTokens(ds)| < |tokens| && tokens[p.head + |ScriptsTokens(ds)|].typ != DOCUMENT_END)
    requires Finishes(tokens, Between(p, ds), n)
    ensures StreamAllowed(all) && Here(tokens, p.head, ScriptsTokens(all))
    ensures p.head + |ScriptsTokens(all)| < |tokens| && tokens[p.head + |ScriptsTokens(all)|] == Sign(STREAM_END)
    decreases n
  {
    hide Step, Finishes, Here, AllClean, StreamAllowed, ScriptAllowed, ScriptTokens, ScriptsTokens, EndTokens, BetweenBody, Lag;
    NotLast(tokens, Between(p, ds), n);
    SomeToken(tokens, Between(p, ds), n);
    NoScripts(tokens, p);
    var q := BetweenStep(tokens, p, ds);
    if tokens[q.head].typ == STREAM_END {
      SignAt(tokens, q.head, STREAM_END);
      all := ds;
    } else {
      var d, m := ScriptRead(tokens, q, ds == [], n - 1);
      MoreScripts(ds, d);
      HereConcat(tokens, p.head, ScriptsTokens(ds), ScriptTokens(d));
      LagFits(ds + [d]);
      all := ScriptsRead(tokens, p, ds + [d], m);
    }
  }

  lemma MoreScripts(ds: seq<Script>, d: Script)
    ensures ScriptsTokens(ds + [d]) == ScriptsTokens(ds) + ScriptTokens(d)
    ensures StreamAllowed(ds) && ScriptAllowed(d, ds == []) ==> StreamAllowed(ds + [d])
  {
    hide ScriptTokens, ScriptAllowed;
    assert (ds + [d])[..|ds|] == ds;
  }

  /** A parser that comes to the end has read the tokens of an allowed stream. */
  lemma StreamRead(tokens: seq<Token>, n: nat) returns (ds: seq<Script>)
    requires AllClean(tokens) && Finishes(tokens, Initial, n)
    ensures StreamAllowed(ds) && StreamTokens(ds) <= tokens
  {
    hide Step, Finishes, Here, AllClean, ScriptsTokens;
    NotLast(tokens, Initial, n);
    StreamStarts(tokens);
    NoScripts(tokens, Initial);
    assert StreamAllowed([]);
    NowhereHere(tokens, 1);
    var p := Initial.(state := ImplicitDocumentStart, head := 1);
    ds := ScriptsRead(tokens, p, [], n - 1);
    HereBracketed(tokens, 0, [], Sign(STREAM_START), ScriptsTokens(ds), Sign(STREAM_END));
    NowhereHere(tokens, 0);
    assert [] + [Sign(STREAM_START)] + ScriptsTokens(ds) + [Sign(STREAM_END)] == StreamTokens(ds);
    HereFirst(tokens, StreamTokens(ds));
  }

  lemma HereFirst(tokens: seq<Token>, part: seq<Token>)
    requires Here(tokens, 0, part)
    ensures part <= tokens
  {
  }

  lemma StreamStarts(tokens: seq<Token>)
    requires AllClean(tokens) && Step(tokens, Initial).Some?
    ensures tokens != [] && tokens[0] == Sign(STREAM_START)
    ensures Step(tokens, Initial).value.after == Initial.(state := ImplicitDocumentStart, head := 1)
  {
    assert Clean(tokens[0]);
  }

  // ---- what the parser accepts

  lemma {:induction false} AfterFinishes(tokens: seq<Token>, p: Snap, es: seq<Event>, n: nat)
    requires After(tokens, p, es).Some? && Finishes(tokens, After(tokens, p, es).value, n)
    ensures Finishes(tokens, p, |es| + n)
    decreases |es|
  {
    hide Step;
    if es != [] {
      var q := After(tokens, p, es[..|es| - 1]).value;
      assert Finishes(tokens, q, n + 1);
      AfterFinishes(tokens, p, es[..|es| - 1], n + 1);
    }
  }

  /** The parser comes to the end exactly from the tokens of allowed streams. */
  lemma Accepted(tokens: seq<Token>)
    requires AllClean(tokens)
    ensures (exists n :: Finishes(tokens, Initial, n)) <==> exists ds :: StreamAllowed(ds) && StreamTokens(ds) <= tokens
  {
    hide Finishes, StreamAllowed, StreamTokens, After;
    if n :| Finishes(tokens, Initial, n) {
      var ds := StreamRead(tokens, n);
    }
    if ds :| StreamAllowed(ds) && StreamTokens(ds) <= tokens {
      StreamParsed(tokens, ds);
      Final(tokens, After(tokens, Initial, StreamEvents(DocumentsOf(ds))).value);
      AfterFinishes(tokens, Initial, StreamEvents(DocumentsOf(ds)), 0);
    }
  }

  lemma Final(tokens: seq<Token>, p: Snap)
    requires p.state == EndState
    ensures Finishes(tokens, p, 0)
  {
  }

  /** The events of a list of tokens, which are the whole stream that is written so if the tokens are those of an
      allowed stream, and a prefix of some stream otherwise. */
  method ReadEvents(tokens: seq<Token>) returns (events: seq<Event>, complete: bool)
    requires AllClean(tokens)
    ensures complete <==> exists ds :: StreamAllowed(ds) && StreamTokens(ds) <= tokens
    ensures forall ds | StreamAllowed(ds) && StreamTokens(ds) <= tokens :: events == StreamEvents(DocumentsOf(ds))
    ensures StreamPrefix(events)
  {
    hide Step, Finishes, After, StreamAllowed, StreamTokens, StreamEvents, DocumentsOf, StreamPrefix;
    events, complete := Events(tokens);
    Accepted(tokens);
    ghost var p := After(tokens, Initial, events).value;
    if complete {
      Final(tokens, p);
      AfterFinishes(tokens, Initial, events, 0);
      NoStep(tokens, p);
    }
    forall ds | StreamAllowed(ds) && StreamTokens(ds) <= tokens ensures complete && events == StreamEvents(DocumentsOf(ds)) {
      StreamParsed(tokens, ds);
      NoStep(tokens, After(tokens, Initial, StreamEvents(DocumentsOf(ds))).value);
      OneRun(tokens, Initial, events, StreamEvents(DocumentsOf(ds)));
    }
  }

  /** What is delivered on the way. */
  lemma {:induction false} AfterAt(tokens: seq<Token>, p: Snap, es: seq<Event>, i: nat)
    requires After(tokens, p, es).Some? && i < |es|
    ensures After(tokens, p, es[..i]).Some?
    ensures var o := Step(tokens, After(tokens, p, es[..i]).value); o.Some? && o.value.event == es[i]
    decreases |es|
  {
    hide Step;
    if i < |es| - 1 {
      AfterAt(tokens, p, es[..|es| - 1], i);
      assert es[..|es| - 1][..i] == es[..i];
    }
  }

  lemma {:induction false} SameEvents(tokens: seq<Token>, p: Snap, a: seq<Event>, b: seq<Event>, i: nat)
    requires After(tokens, p, a).Some? && After(tokens, p, b).Some? && i <= |a| && i <= |b|
    ensures a[..i] == b[..i]
    decreases i
  {
    hide Step, After;
    if i > 0 {
      SameEvents(tokens, p, a, b, i - 1);
      AfterAt(tokens, p, a, i - 1);
      AfterAt(tokens, p, b, i - 1);
      assert a[..i] == a[..i - 1] + [a[i - 1]] && b[..i] == b[..i - 1] + [b[i - 1]];
    }
  }

  /** A run that cannot go on is no part of a longer one. */
  lemma NoLonger(tokens: seq<Token>, p: Snap, a: seq<Event>, b: seq<Event>)
    requires After(tokens, p, a).Some? && Step(tokens, After(tokens, p, a).value) == None && After(tokens, p, b).Some?
    ensures |a| >= |b|
  {
    hide Step, After;
    if |a| < |b| {
      SameEvents(tokens, p, a, b, |a|);
      assert a[..|a|] == a;
      AfterAt(tokens, p, b, |a|);
    }
  }

  /** Two runs that cannot go on are the same. */
  lemma OneRun(tokens: seq<Token>, p: Snap, a: seq<Event>, b: seq<Event>)
    requires After(tokens, p, a).Some? && Step(tokens, After(tokens, p, a).value) == None
    requires After(tokens, p, b).Some? && Step(tokens, After(tokens, p, b).value) == None
    ensures a == b
  {
    hide Step, After;
    NoLonger(tokens, p, a, b);
    NoLonger(tokens, p, b, a);
    SameEvents(tokens, p, a, b, |a|);
    assert a[..|a|] == a && b[..|b|] == b;
  }

  lemma NoStep(tokens: seq<Token>, p: Snap)
    requires p.state == EndState
    ensures Step(tokens, p) == None
  {
  }

  // ---- where that is not the grammar of the comment

  const PLAIN: Token := Token(SCALAR, "b", "", "", true, 0, 0)

  // A value without a key: ": b".
  const VALUE_ALONE: seq<Token> := [Sign(STREAM_START), Sign(BLOCK_MAPPING_START), Sign(VALUE), PLAIN, Sign(BLOCK_END), Sign(STREAM_END)]

  // A pair without a key: "[? : b]".
  const NO_KEY: seq<Token> :=
    [Sign(STREAM_START), Sign(FLOW_SEQUENCE_START), Sign(KEY), Sign(VALUE), PLAIN, Sign(FLOW_SEQUENCE_END), Sign(STREAM_END)]

  // A bracket too many, in the place of a key: "[?]]".
  const TWO_BRACKETS: seq<Token> :=
    [Sign(STREAM_START), Sign(FLOW_SEQUENCE_START), Sign(KEY), Sign(FLOW_SEQUENCE_END), Sign(FLOW_SEQUENCE_END), Sign(STREAM_END)]

  /** The parser does not come to the end from `p`. */
  ghost predicate Stuck(tokens: seq<Token>, p: Snap) {
    !exists n :: Finishes(tokens, p, n)
  }

  lemma StuckHere(tokens: seq<Token>, p: Snap)
    requires p.state != EndState && Step(tokens, p) == None
    ensures Stuck(tokens, p)
  {
  }

  lemma StuckLater(tokens: seq<Token>, p: Snap, n: Next)
    requires p.state != EndState && Step(tokens, p) == Some(n) && Stuck(tokens, n.after)
    ensures Stuck(tokens, p)
  {
    hide Step;
    forall k | Finishes(tokens, p, k) ensures false {
      NotLast(tokens, p, k);
    }
  }

  /** Where the root of an unmarked document begins. */
  const ROOT: Snap := Snap(1, BlockNode, [DocumentEndState], 0, DirectivesOf([]), false)

  lemma StuckAtRoot(tokens: seq<Token>)
    requires |tokens| >= 2 && tokens[0] == Sign(STREAM_START) && tokens[1].typ !in BEGINNINGS && Stuck(tokens, ROOT)
    ensures Stuck(tokens, Initial)
  {
    hide WithDefault, Finishes, Stuck;
    var q := Initial.(state := ImplicitDocumentStart, head := 1);
    NoTags();
    assert [] + [DocumentEndState] == [DocumentEndState];
    StuckLater(tokens, q, Next(DocumentStart(false), ROOT));
    StuckLater(tokens, Initial, Next(StreamStart, q));
  }

  /** A block mapping whose first entry has no key is an error. */
  lemma ValueAloneFails()
    ensures !exists ds :: StreamAllowed(ds) && StreamTokens(ds) <= VALUE_ALONE
  {
    hide DirectivesOf, StreamAllowed, StreamTokens, Finishes;
    var ts := VALUE_ALONE;
    assert AllClean(ts);
    StuckHere(ts, ROOT.(state := BlockMappingFirstKey));
    StuckLater(ts, ROOT, Next(MappingStart(Props(None, "", true), false), ROOT.(state := BlockMappingFirstKey)));
    StuckAtRoot(ts);
    Accepted(ts);
  }

  /** So is a single pair that has a value and no key, as its colon is swallowed. */
  lemma NoKeyFails()
    ensures !exists ds :: StreamAllowed(ds) && StreamTokens(ds) <= NO_KEY
  {
    hide DirectivesOf, StreamAllowed, StreamTokens, Finishes;
    assert AllClean(NO_KEY);
    NoKeyStuck(ROOT.(head := 4, marks := 1));
    KeySwallowed(ROOT);
    StuckAtRoot(NO_KEY);
    Accepted(NO_KEY);
  }

  lemma KeySwallowed(p: Snap)
    requires p.head == 1 && p.state == BlockNode && !p.ended
    requires Stuck(NO_KEY, p.(head := 4, marks := p.marks + 1, state := FlowSequenceEntryMappingValue))
    ensures Stuck(NO_KEY, p)
  {
    hide Stuck;
    var v := p.(head := 4, marks := p.marks + 1, state := FlowSequenceEntryMappingValue);
    var k := p.(head := 3, marks := p.marks + 1, state := FlowSequenceEntryMappingKey);
    StuckLater(NO_KEY, k, Next(EMPTY_SCALAR, v));
    StuckLater(NO_KEY, p.(state := FlowSequenceFirstEntry), Next(FLOW_PAIR, k));
    StuckLater(NO_KEY, p, Next(SequenceStart(Props(None, "", true), true), p.(state := FlowSequenceFirstEntry)));
  }

  lemma NoKeyStuck(p: Snap)
    requires p.head == 4 && !p.ended
    ensures Stuck(NO_KEY, p.(state := FlowSequenceEntryMappingValue))
  {
    hide Stuck;
    var e, s := p.(state := FlowSequenceEntryMappingEnd), p.(state := FlowSequenceEntry);
    StuckHere(NO_KEY, s);
    StuckLater(NO_KEY, e, Next(MappingEnd, s));
    StuckLater(NO_KEY, p.(state := FlowSequenceEntryMappingValue), Next(EMPTY_SCALAR, e));
  }

  /** A closing bracket in the place of a key is swallowed, so that another one is needed. */
  lemma TwoBracketsAccepted() returns (ds: seq<Script>)
    ensures StreamAllowed(ds) && StreamTokens(ds) == TWO_BRACKETS
  {
    var e := Swallowing(FLOW_SEQUENCE_END, false, Nothing);
    var f := FlowList(Written(None, None, false), [e], false);
    ds := [Script([], false, f, 0)];
    SwallowingTokens(e, f);
    SwallowingAllowed(e, f);
    hide FormTokens, Allowed, DirectivesOf;
    assert ds[..0] == [];
    assert ScriptTokens(ds[0]) == TWO_BRACKETS[1..5];
    assert ScriptsTokens(ds) == TWO_BRACKETS[1..5];
  }

  lemma SwallowingAllowed(e: Entry, f: Form)
    requires e == Swallowing(FLOW_SEQUENCE_END, false, Nothing) && f == FlowList(Written(None, None, false), [e], false)
    ensures Allowed(DirectivesOf([]), f, true, false)
  {
    hide DirectivesOf, Resolve;
    assert ListEntryAllowed(DirectivesOf([]), e);
  }

  lemma SwallowingEntry(e: Entry)
    requires e == Swallowing(FLOW_SEQUENCE_END, false, Nothing)
    ensures FlowTokens([e]) == [Sign(KEY), Sign(FLOW_SEQUENCE_END)]
  {
    assert [e][..0] == [];
    assert EntryTokens(e) == [Sign(KEY), Sign(FLOW_SEQUENCE_END)];
  }

  lemma SwallowingTokens(e: Entry, f: Form)
    requires e == Swallowing(FLOW_SEQUENCE_END, false, Nothing) && f == FlowList(Written(None, None, false), [e], false)
    ensures FormTokens(f) == TWO_BRACKETS[1..5]
  {
    hide FlowTokens, EntryTokens;
    SwallowingEntry(e);
    assert TWO_BRACKETS[1..5] == [Sign(FLOW_SEQUENCE_START)] + [Sign(KEY), Sign(FLOW_SEQUENCE_END)] + [Sign(FLOW_SEQUENCE_END)];
  }
}
