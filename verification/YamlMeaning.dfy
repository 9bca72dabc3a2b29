/** What is written down and what it stands for: tags by their handles, nodes by their forms, and scalars by their tags. */
module YamlMeaning {
  import opened Basics
  import opened YamlEvents
  import opened YamlTokens
  import opened YamlParser
  import opened YamlGrammar
  import opened YamlAccepted
  import opened YamlComposer
  import opened YamlDecoder

  // ---- tags

  /** The directives `ts` of a document declare `prefix` for the handle. */
  ghost predicate Declares(ts: seq<Token>, handle: string, prefix: string) {
    exists t :: t in ts && t.typ == TAG_DIRECTIVE && t.value == handle && t.prefix == prefix
  }

  predicate Undeclared(ts: seq<Token>, handle: string) {
    forall t | t in ts && t.typ == TAG_DIRECTIVE :: t.value != handle
  }

  /** A tag without a handle is what it says. The prefix of a handle is the declared one; two handles have one anyway. */
  ghost predicate StandsFor(ts: seq<Token>, name: TagName, tag: string) {
    if name.handle == "" then tag == name.suffix
    else
      && tag != ""
      && (|| (exists prefix :: Declares(ts, name.handle, prefix) && tag == prefix + name.suffix)
          || (Undeclared(ts, name.handle) && name.handle == "!" && tag == "!" + name.suffix)
          || (Undeclared(ts, name.handle) && name.handle == "!!" && tag == "tag:yaml.org,2002:" + name.suffix))
  }

  ghost predicate HasTag(ts: seq<Token>, w: Written, tag: string) {
    match w.tag case None => tag == "" case Some(name) => StandsFor(ts, name, tag)
  }

  lemma {:induction false} FoundAt(ds: seq<TagDirective>, handle: string, i: nat)
    requires i < |ds| && ds[i].handle == handle && forall j | 0 <= j < i :: ds[j].handle != handle
    ensures FindDirective(ds, handle) == i
  {
    if i > 0 {
      assert ds[0].handle != handle;
      assert forall j | 0 <= j < i - 1 :: ds[1..][j] == ds[j + 1];
      FoundAt(ds[1..], handle, i - 1);
    }
  }

  lemma {:induction false} FoundNowhere(ds: seq<TagDirective>, handle: string)
    requires forall d | d in ds :: d.handle != handle
    ensures FindDirective(ds, handle) == |ds|
  {
    if ds != [] {
      assert ds[0] in ds;
      FoundNowhere(ds[1..], handle);
    }
  }

  /** Of the directives one is found, if any has the handle; it is the only one in a document. */
  lemma FoundIs(ds: seq<TagDirective>, handle: string) returns (i: nat)
    ensures i == FindDirective(ds, handle) <= |ds|
    ensures i < |ds| ==> ds[i].handle == handle
    ensures i == |ds| ==> forall d | d in ds :: d.handle != handle
  {
    hide FindDirective;
    i := FindDirective(ds, handle);
    if d :| d in ds && d.handle == handle {
      var j := FirstWith(ds, handle);
      FoundAt(ds, handle, j);
    }
  }

  lemma {:induction false} FirstWith(ds: seq<TagDirective>, handle: string) returns (i: nat)
    requires exists d :: d in ds && d.handle == handle
    ensures i < |ds| && ds[i].handle == handle && forall j | 0 <= j < i :: ds[j].handle != handle
  {
    if ds[0].handle == handle {
      i := 0;
    } else {
      var d :| d in ds && d.handle == handle;
      assert ds == [ds[0]] + ds[1..];
      i := FirstWith(ds[1..], handle);
      i := i + 1;
    }
  }

  lemma {:induction false} TagsAreDeclared(ts: seq<Token>, handle: string, prefix: string)
    ensures TagDirective(handle, prefix) in TagsOf(ts) <==> Declares(ts, handle, prefix)
  {
    if ts != [] {
      var init, last := ts[..|ts| - 1], ts[|ts| - 1];
      TagsAreDeclared(init, handle, prefix);
      assert ts == init + [last];
    }
  }

  lemma {:induction false} TagsAreDifferent(ts: seq<Token>)
    requires Proper(ts)
    ensures forall i, j | 0 <= i < j < |TagsOf(ts)| :: TagsOf(ts)[i].handle != TagsOf(ts)[j].handle
  {
    if ts != [] {
      var init, last := ts[..|ts| - 1], ts[|ts| - 1];
      TagsAreDifferent(init);
      if last.typ == TAG_DIRECTIVE {
        forall d | d in TagsOf(init) ensures d.handle != last.value {
          TagsAreDeclared(init, d.handle, d.prefix);
          var t :| t in init && t.typ == TAG_DIRECTIVE && t.value == d.handle && t.prefix == d.prefix;
          var i :| 0 <= i < |init| && init[i] == t;
          assert ts[i] == t && ts[|ts| - 1] == last;
        }
      }
    }
  }

  lemma DefaultIs(ds: seq<TagDirective>, d: TagDirective)
    ensures forall x :: x in WithDefault(ds, d) <==> x in ds || (x == d && forall y | y in ds :: y.handle != d.handle)
  {
    hide FindDirective;
    var i := FoundIs(ds, d.handle);
    if i < |ds| {
      assert ds[i] in ds;
    }
  }

  /** The directives in force: those declared, and the default ones. */
  lemma InForce(ts: seq<Token>, handle: string, prefix: string)
    ensures TagDirective(handle, prefix) in DirectivesOf(ts) <==>
      || Declares(ts, handle, prefix)
      || (Undeclared(ts, handle) && ((handle == "!" && prefix == "!") || (handle == "!!" && prefix == "tag:yaml.org,2002:")))
  {
    hide WithDefault, TagsOf, Declares;
    var ds := TagsOf(ts);
    DefaultIs(ds, TagDirective("!", "!"));
    DefaultIs(WithDefault(ds, TagDirective("!", "!")), TagDirective("!!", "tag:yaml.org,2002:"));
    TagsAreDeclared(ts, handle, prefix);
    NoneDeclared(ts, handle);
    NoneDeclared(ts, "!");
  }

  lemma NoneDeclared(ts: seq<Token>, handle: string)
    ensures Undeclared(ts, handle) <==> forall d | d in TagsOf(ts) :: d.handle != handle
  {
    hide TagsOf;
    if d :| d in TagsOf(ts) && d.handle == handle {
      TagsAreDeclared(ts, d.handle, d.prefix);
    }
    if t :| t in ts && t.typ == TAG_DIRECTIVE && t.value == handle {
      assert Declares(ts, handle, t.prefix);
      TagsAreDeclared(ts, handle, t.prefix);
    }
  }

  /** One prefix for a handle. */
  lemma DeclaredOnce(ts: seq<Token>, handle: string, a: string, b: string)
    requires Proper(ts) && TagDirective(handle, a) in DirectivesOf(ts) && TagDirective(handle, b) in DirectivesOf(ts)
    ensures a == b
  {
    hide DirectivesOf, TagsOf;
    InForce(ts, handle, a);
    InForce(ts, handle, b);
    TagsAreDeclared(ts, handle, a);
    TagsAreDeclared(ts, handle, b);
    TagsAreDifferent(ts);
    if Declares(ts, handle, a) && Declares(ts, handle, b) {
      var i :| 0 <= i < |TagsOf(ts)| && TagsOf(ts)[i] == TagDirective(handle, a);
      var j :| 0 <= j < |TagsOf(ts)| && TagsOf(ts)[j] == TagDirective(handle, b);
    }
  }

  /** The parser gives a node the tag that its handle and suffix stand for, and fails if they stand for none. */
  lemma TagIs(ts: seq<Token>, w: Written)
    requires Proper(ts)
    ensures forall tag :: TagOf(DirectivesOf(ts), w) == Some(tag) <==> HasTag(ts, w, tag)
  {
    if w.tag.Some? && w.tag.value.handle != "" {
      var handle, suffix := w.tag.value.handle, w.tag.value.suffix;
      var ds := DirectivesOf(ts);
      hide DirectivesOf, FindDirective, Proper;
      var i := FoundIs(ds, handle);
      forall prefix ensures TagDirective(handle, prefix) in ds <==> i < |ds| && prefix == ds[i].prefix {
        if i < |ds| {
          assert ds[i] == TagDirective(handle, ds[i].prefix);
          if TagDirective(handle, prefix) in ds {
            DeclaredOnce(ts, handle, prefix, ds[i].prefix);
          }
        }
        InForce(ts, handle, prefix);
      }
      forall tag ensures TagOf(ds, w) == Some(tag) <==> HasTag(ts, w, tag) {
        ByPrefix(ts, w.tag.value, tag);
        hide StandsFor;
        if i < |ds| {
          assert TagDirective(handle, ds[i].prefix) in ds;
        }
      }
    }
  }

  lemma ByPrefix(ts: seq<Token>, name: TagName, tag: string)
    requires name.handle != ""
    ensures StandsFor(ts, name, tag) <==> tag != "" && exists prefix :: TagDirective(name.handle, prefix) in DirectivesOf(ts) && tag == prefix + name.suffix
  {
    hide DirectivesOf, Declares;
    forall prefix
      ensures TagDirective(name.handle, prefix) in DirectivesOf(ts) <==>
        || Declares(ts, name.handle, prefix)
        || (Undeclared(ts, name.handle) && ((name.handle == "!" && prefix == "!") || (name.handle == "!!" && prefix == "tag:yaml.org,2002:")))
    {
      InForce(ts, name.handle, prefix);
    }
    hide Undeclared;
    if StandsFor(ts, name, tag) {
      if name.handle == "!" && Undeclared(ts, name.handle) && tag == "!" + name.suffix {
        assert TagDirective(name.handle, "!") in DirectivesOf(ts);
      }
      if name.handle == "!!" && Undeclared(ts, name.handle) && tag == "tag:yaml.org,2002:" + name.suffix {
        assert TagDirective(name.handle, "tag:yaml.org,2002:") in DirectivesOf(ts);
      }
    }
  }

  // ---- nodes

  ghost predicate HasProps(ts: seq<Token>, w: Written, props: Props) {
    props.anchor == w.anchor && HasTag(ts, w, props.tag)
  }

  predicate IsEmptyScalar(t: Tree) {
    t == ScalarTree(Props(None, "", true), "", false, true)
  }

  /** The node `t` is what is written as `f` in a document with the directives `ts`. A scalar is implicit if it is plain and
      has no tag, or has the tag "!"; a collection, if it has no tag. A pair of a flow sequence is a mapping of its own. */
  ghost predicate Means(ts: seq<Token>, f: Form, t: Tree)
    decreases f, 1
  {
    match f
    case Nothing => IsEmptyScalar(t)
    case Aliased(name) => t == AliasTree(name)
    case Bare(w) => t.ScalarTree? && HasProps(ts, w, t.props) && t.props.implicit == (t.props.tag == "") && t.value == "" && t.plain && !t.quotedImplicit
    case Text(w, value, plain) =>
      && t.ScalarTree? && HasProps(ts, w, t.props) && t.value == value && t.plain == plain
      && t.props.implicit == ((plain && t.props.tag == "") || t.props.tag == "!")
      && t.quotedImplicit == (!plain && t.props.tag == "")
    case FlowList(w, entries, _) =>
      && t.SequenceTree? && HasProps(ts, w, t.props) && t.props.implicit == (t.props.tag == "") && t.flow
      && |t.items| == |entries| && forall i | 0 <= i < |entries| :: EntryMeans(ts, entries[i], t.items[i])
    case FlowMap(w, entries, _) =>
      && t.MappingTree? && HasProps(ts, w, t.props) && t.props.implicit == (t.props.tag == "") && t.flow
      && |t.pairs| == |entries| && forall i | 0 <= i < |entries| :: PairMeans(ts, entries[i], t.pairs[i])
    case BlockList(w, items) =>
      && t.SequenceTree? && HasProps(ts, w, t.props) && t.props.implicit == (t.props.tag == "") && !t.flow
      && |t.items| == |items| && forall i | 0 <= i < |items| :: Means(ts, items[i], t.items[i])
    case IndentlessList(w, items) =>
      && t.SequenceTree? && HasProps(ts, w, t.props) && t.props.implicit == (t.props.tag == "") && !t.flow
      && |t.items| == |items| && forall i | 0 <= i < |items| :: Means(ts, items[i], t.items[i])
    case BlockMap(w, entries) =>
      && t.MappingTree? && HasProps(ts, w, t.props) && t.props.implicit == (t.props.tag == "") && !t.flow
      && |t.pairs| == |entries| && forall i | 0 <= i < |entries| :: PairMeans(ts, entries[i], t.pairs[i])
  }

  ghost predicate EntryMeans(ts: seq<Token>, e: Entry, t: Tree)
    decreases e, 3
  {
    match e
    case Single(form) => Means(ts, form, t)
    case _ => t.MappingTree? && t.props == Props(None, "", true) && t.flow && |t.pairs| == 1 && PairMeans(ts, e, t.pairs[0])
  }

  ghost predicate PairMeans(ts: seq<Token>, e: Entry, p: Pair)
    decreases e, 2
  {
    match e
    case Single(form) => Means(ts, form, p.key) && IsEmptyScalar(p.value)
    case Keyed(key, _, value) => Means(ts, key, p.key) && Means(ts, value, p.value)
    case Swallowing(_, _, value) => IsEmptyScalar(p.key) && Means(ts, value, p.value)
    case Valued(value) => IsEmptyScalar(p.key) && Means(ts, value, p.value)
  }

  lemma PropsAre(ts: seq<Token>, w: Written)
    requires Proper(ts) && TagOf(DirectivesOf(ts), w).Some?
    ensures var props := PropsOf(DirectivesOf(ts), w); HasProps(ts, w, props) && props.implicit == (props.tag == "")
  {
    TagIs(ts, w);
    hide TagOf, HasTag, DirectivesOf;
  }

  /** The node of the events delivered is what is written. */
  lemma {:induction false} TreeMeans(ts: seq<Token>, f: Form, block: bool, indentless: bool)
    requires Proper(ts) && Optional(DirectivesOf(ts), f, block, indentless)
    ensures Means(ts, f, TreeOf(DirectivesOf(ts), f))
    decreases f, 1
  {
    var ds := DirectivesOf(ts);
    hide Proper, TagOf, DirectivesOf, PropsOf, HasProps;
    match f {
      case Nothing =>
      case Aliased(_) =>
      case Bare(w) => PropsAre(ts, w);
      case Text(w, value, plain) => PropsAre(ts, w); TextMeans(ts, ds, w, value, plain);
      case FlowList(w, entries, _) =>
        PropsAre(ts, w);
        EntryTreesAre(ds, entries);
        forall i | 0 <= i < |entries| ensures EntryMeans(ts, entries[i], EntryTree(ds, entries[i])) {
          assert ListEntryAllowed(ds, entries[i]);
          EntryTreeMeans(ts, entries[i]);
        }
      case FlowMap(w, entries, _) =>
        PropsAre(ts, w);
        PairsAre(ds, entries);
        forall i | 0 <= i < |entries| ensures PairMeans(ts, entries[i], PairOf(ds, entries[i])) {
          assert MapEntryAllowed(ds, entries[i]);
          PairOfMeans(ts, entries[i], false);
        }
      case BlockList(w, items) =>
        PropsAre(ts, w);
        ItemTreesAre(ds, items);
        forall i | 0 <= i < |items| ensures Means(ts, items[i], TreeOf(ds, items[i])) {
          TreeMeans(ts, items[i], true, false);
        }
      case IndentlessList(w, items) =>
        PropsAre(ts, w);
        ItemTreesAre(ds, items);
        forall i | 0 <= i < |items| ensures Means(ts, items[i], TreeOf(ds, items[i])) {
          TreeMeans(ts, items[i], true, false);
        }
      case BlockMap(w, entries) =>
        PropsAre(ts, w);
        PairsAre(ds, entries);
        forall i | 0 <= i < |entries| ensures PairMeans(ts, entries[i], PairOf(ds, entries[i])) {
          assert BlockEntryAllowed(ds, entries[i]);
          PairOfMeans(ts, entries[i], true);
        }
    }
  }

  lemma TextMeans(ts: seq<Token>, ds: seq<TagDirective>, w: Written, value: string, plain: bool)
    requires HasProps(ts, w, PropsOf(ds, w))
    ensures Means(ts, Text(w, value, plain), TextTree(PropsOf(ds, w), value, plain))
  {
    hide PropsOf, HasTag;
  }

  lemma {:induction false} EntryTreeMeans(ts: seq<Token>, e: Entry)
    requires Proper(ts) && ListEntryAllowed(DirectivesOf(ts), e)
    ensures EntryMeans(ts, e, EntryTree(DirectivesOf(ts), e))
    decreases e, 3
  {
    hide Proper, DirectivesOf, Means;
    if e.Single? {
      TreeMeans(ts, e.form, false, false);
    } else {
      PairOfMeans(ts, e, false);
    }
  }

  lemma {:induction false} PairOfMeans(ts: seq<Token>, e: Entry, block: bool)
    requires Proper(ts) && (ListEntryAllowed(DirectivesOf(ts), e) || MapEntryAllowed(DirectivesOf(ts), e) || BlockEntryAllowed(DirectivesOf(ts), e))
    ensures PairMeans(ts, e, PairOf(DirectivesOf(ts), e))
    decreases e, 2
  {
    var ds := DirectivesOf(ts);
    hide Proper, DirectivesOf, Allowed;
    match e {
      case Single(form) => TreeMeans(ts, form, false, false);
      case Keyed(key, colon, value) =>
        var b := BlockEntryAllowed(ds, e);
        ValueIf(ds, colon, value, b);
        TreeMeans(ts, key, b, b);
        TreeMeans(ts, value, b, b);
      case Swallowing(_, colon, value) => ValueIf(ds, colon, value, false); TreeMeans(ts, value, false, false);
      case Valued(_) =>
    }
  }

  lemma ValueIf(ds: seq<TagDirective>, colon: bool, value: Form, block: bool)
    ensures ValueAllowed(ds, colon, value, block) ==> Optional(ds, value, block, block)
  {
    hide Allowed;
  }

  lemma {:induction false} ItemTreesAre(ds: seq<TagDirective>, items: seq<Form>)
    ensures |ItemTrees(ds, items)| == |items| && forall i | 0 <= i < |items| :: ItemTrees(ds, items)[i] == TreeOf(ds, items[i])
  {
    hide TreeOf;
    if items != [] {
      ItemTreesAre(ds, items[..|items| - 1]);
    }
  }

  lemma {:induction false} EntryTreesAre(ds: seq<TagDirective>, entries: seq<Entry>)
    ensures |EntryTrees(ds, entries)| == |entries| && forall i | 0 <= i < |entries| :: EntryTrees(ds, entries)[i] == EntryTree(ds, entries[i])
  {
    hide EntryTree;
    if entries != [] {
      EntryTreesAre(ds, entries[..|entries| - 1]);
    }
  }

  lemma {:induction false} PairsAre(ds: seq<TagDirective>, entries: seq<Entry>)
    ensures |YamlGrammar.Pairs(ds, entries)| == |entries|
    ensures forall i | 0 <= i < |entries| :: YamlGrammar.Pairs(ds, entries)[i] == PairOf(ds, entries[i])
  {
    hide PairOf;
    if entries != [] {
      PairsAre(ds, entries[..|entries| - 1]);
    }
  }

  // ---- streams

  /** Each document has the root that is written, and an explicit end exactly if one is written. */
  ghost predicate StreamMeans(ds: seq<Script>, docs: seq<Document>) {
    |docs| == |ds| && forall i | 0 <= i < |ds| ::
      !docs[i].start && docs[i].end == (ds[i].ends == 0) && Means(ds[i].directives, ds[i].root, docs[i].root)
  }

  lemma {:induction false} DocumentsAre(ds: seq<Script>)
    ensures |DocumentsOf(ds)| == |ds| && forall i | 0 <= i < |ds| :: DocumentsOf(ds)[i] == DocumentOf(ds[i])
  {
    hide DocumentOf;
    if ds != [] {
      DocumentsAre(ds[..|ds| - 1]);
    }
  }

  /** From the tokens of a stream the parser delivers the events of the documents that are written. */
  lemma TokensMean(tokens: seq<Token>, ds: seq<Script>) returns (docs: seq<Document>)
    requires StreamAllowed(ds) && StreamTokens(ds) <= tokens
    ensures StreamMeans(ds, docs)
    ensures var o := After(tokens, Initial, StreamEvents(docs)); o.Some? && o.value.state == EndState
  {
    hide After, StreamTokens, DirectivesOf, TreeOf, Means, Optional, Allowed, DocumentsOf, StreamEvents, Proper;
    docs := DocumentsOf(ds);
    StreamParsed(tokens, ds);
    DocumentsAre(ds);
    NothingIsProper();
    forall i | 0 <= i < |ds| ensures Means(ds[i].directives, ds[i].root, TreeOf(DirectivesOf(ds[i].directives), ds[i].root)) {
      assert ScriptAllowed(ds[i], i == 0);
      OptionalIf(DirectivesOf(ds[i].directives), ds[i].root);
      TreeMeans(ds[i].directives, ds[i].root, true, false);
    }
  }

  lemma NothingIsProper()
    ensures Proper([])
  {
  }

  lemma OptionalIf(ds: seq<TagDirective>, f: Form)
    ensures Allowed(ds, f, true, false) ==> Optional(ds, f, true, false)
  {
    hide Allowed;
  }

  // ---- scalars, from their tokens to their values

  /** The events of the first of some documents, and the one behind it. */
  lemma FirstOf(docs: seq<Document>) returns (next: Event)
    requires docs != []
    ensures [StreamStart] + DocumentEvents(docs[0]) + [next] <= StreamEvents(docs)
  {
    hide DocumentEvents;
    FirstEvents(docs);
    var rest :| DocumentsEvents(docs) == DocumentEvents(docs[0]) + rest;
    var all := rest + [StreamEnd];
    next := all[0];
    assert StreamEvents(docs) == [StreamStart] + DocumentEvents(docs[0]) + all;
    assert all == [next] + all[1..];
  }

  lemma {:induction false} FirstEvents(docs: seq<Document>)
    requires docs != []
    ensures exists rest :: DocumentsEvents(docs) == DocumentEvents(docs[0]) + rest
  {
    hide DocumentEvents;
    var init, last := docs[..|docs| - 1], docs[|docs| - 1];
    if init == [] {
      assert DocumentsEvents(docs) == DocumentEvents(docs[0]) + [];
    } else {
      FirstEvents(init);
      var rest :| DocumentsEvents(init) == DocumentEvents(init[0]) + rest;
      assert DocumentsEvents(docs) == DocumentEvents(docs[0]) + (rest + DocumentEvents(last));
    }
  }

  lemma {:induction false} AfterPrefix(tokens: seq<Token>, p: Snap, a: seq<Event>, b: seq<Event>)
    requires a <= b && After(tokens, p, b).Some?
    ensures After(tokens, p, a).Some?
    decreases |b|
  {
    hide Step;
    if |a| < |b| {
      assert a <= b[..|b| - 1];
      AfterPrefix(tokens, p, a, b[..|b| - 1]);
    } else {
      assert a == b;
    }
  }

  /** Two first documents that a parser delivers from the same tokens are the same. */
  lemma OneFirst(tokens: seq<Token>, d: Document, next: Event, d': Document, next': Event)
    requires After(tokens, Initial, [StreamStart] + DocumentEvents(d) + [next]).Some?
    requires After(tokens, Initial, [StreamStart] + DocumentEvents(d') + [next']).Some?
    ensures d == d'
  {
    hide After, DocumentEvents;
    var a, b := [StreamStart] + DocumentEvents(d) + [next], [StreamStart] + DocumentEvents(d') + [next'];
    EndsAtTheEnd(d);
    EndsAtTheEnd(d');
    if |a| <= |b| {
      SameDelivered(tokens, Initial, a, b);
      SameEvents(d, next, d', next');
    } else {
      SameDelivered(tokens, Initial, b, a);
      SameEvents(d', next', d, next);
    }
  }

  /** A document has one end, its last event. */
  lemma EndsAtTheEnd(d: Document)
    ensures var es := DocumentEvents(d); es != [] && es[|es| - 1].DocumentEnd? && forall i | 0 <= i < |es| - 1 :: !es[i].DocumentEnd?
  {
    NoEndInside(d.root);
    hide NodeEvents;
  }

  lemma {:induction false} NoEndInside(t: Tree)
    ensures forall e | e in NodeEvents(t) :: !e.DocumentEnd?
    decreases t, 1
  {
    match t {
      case SequenceTree(_, _, items) => NoEndAmong(items);
      case MappingTree(_, _, pairs) => NoEndInPairs(pairs);
      case _ =>
    }
  }

  lemma {:induction false} NoEndAmong(items: seq<Tree>)
    ensures forall e | e in ItemEvents(items) :: !e.DocumentEnd?
    decreases items, 0
  {
    if items != [] {
      NoEndAmong(items[..|items| - 1]);
      NoEndInside(items[|items| - 1]);
    }
  }

  lemma {:induction false} NoEndInPairs(pairs: seq<Pair>)
    ensures forall e | e in PairEvents(pairs) :: !e.DocumentEnd?
    decreases pairs, 0
  {
    if pairs != [] {
      NoEndInPairs(pairs[..|pairs| - 1]);
      NoEndInPair(pairs[|pairs| - 1]);
    }
  }

  lemma {:induction false} NoEndInPair(p: Pair)
    ensures forall e | e in KeyValueEvents(p) :: !e.DocumentEnd?
    decreases p, 2
  {
    match p case Pair(key, value) =>
      NoEndInside(key);
      NoEndInside(value);
  }

  lemma SameEvents(d: Document, next: Event, d': Document, next': Event)
    requires [StreamStart] + DocumentEvents(d) + [next] <= [StreamStart] + DocumentEvents(d') + [next']
    ensures d == d'
  {
    hide DocumentEvents;
    EndsAtTheEnd(d);
    EndsAtTheEnd(d');
    var a, b := DocumentEvents(d), DocumentEvents(d');
    var s, t := [StreamStart] + a + [next], [StreamStart] + b + [next'];
    assert forall i | 0 <= i < |a| :: a[i] == s[i + 1];
    assert forall i | 0 <= i < |b| :: b[i] == t[i + 1];
    assert s[|a|] == t[|a|];
    assert |a| == |b|;
    assert a == b;
    OneDocument(d);
    OneDocument(d');
    StreamIsUnique([d], [d']);
  }

  lemma OneDocument(d: Document)
    ensures StreamEvents([d]) == [StreamStart] + DocumentEvents(d) + [StreamEnd]
  {
    hide DocumentEvents;
    assert [d][..0] == [];
    assert DocumentsEvents([]) + DocumentEvents(d) == DocumentEvents(d);
  }

  /** What composing the tokens of a stream gives: its first document. */
  lemma ComposedIs(tokens: seq<Token>, ds: seq<Script>, r: Outcome<Option<Doc>>, events: seq<Event>) returns (t: Tree)
    requires StreamAllowed(ds) && StreamTokens(ds) <= tokens && ds != [] && !r.Unexpected?
    requires r.Composed? ==> After(tokens, Initial, events).Some?
    requires r == Failed ==> forall es :: FirstDocument(es) ==> After(tokens, Initial, es) == None
    requires r == Composed(None) ==> events == [StreamStart, StreamEnd]
    requires r.Composed? && r.value.Some? ==> exists t, start, end, next ::
      && events == [StreamStart] + DocumentEvents(Document(start, t, end)) + [next]
      && r.value.value == Doc(NodeOf(t, 2), Anchored(map[], t, 2))
    ensures Means(ds[0].directives, ds[0].root, t) && r == Composed(Some(Doc(NodeOf(t, 2), Anchored(map[], t, 2))))
  {
    hide After, StreamAllowed, StreamTokens, Means, NodeOf, Anchored, DocumentEvents, StreamEvents;
    var docs := TokensMean(tokens, ds);
    t := docs[0].root;
    assert !docs[0].start;
    assert Means(ds[0].directives, ds[0].root, t);
    var next := FirstOf(docs);
    var first := [StreamStart] + DocumentEvents(docs[0]) + [next];
    AfterPrefix(tokens, Initial, first, StreamEvents(docs));
    assert FirstDocument(first) by {
      assert first == [StreamStart] + DocumentEvents(Document(docs[0].start, t, docs[0].end)) + [next];
    }
    assert r.Composed?;
    if r == Composed(None) {
      EndsAtTheEnd(docs[0]);
      SameDelivered(tokens, Initial, events, first);
      assert first[1] == DocumentEvents(docs[0])[0];
      StartsAtTheStart(docs[0]);
      assert false;
    } else {
      var t', start', end', next' :|
        && events == [StreamStart] + DocumentEvents(Document(start', t', end')) + [next']
        && r.value.value == Doc(NodeOf(t', 2), Anchored(map[], t', 2));
      OneFirst(tokens, docs[0], next, Document(start', t', end'), next');
      assert t' == t;
      assert r.value.Some?;
      assert r.value.value == Doc(NodeOf(t, 2), Anchored(map[], t, 2));
    }
  }

  lemma StartsAtTheStart(d: Document)
    ensures |DocumentEvents(d)| >= 2 && DocumentEvents(d)[0] == DocumentStart(d.start)
  {
    hide NodeEvents;
  }

  /** The value of a document that is one scalar, from its tokens: a quoted one without a tag is a string, and any other one
      is what the resolver makes of its tag and its text. */
  method UnmarshalScalar(tokens: seq<Token>, resolve: Resolver, ghost ds: seq<Script>) returns (r: Outcome<Value>)
    requires StreamAllowed(ds) && StreamTokens(ds) <= tokens && ds != [] && ds[0].root.Text?
    ensures forall tag | HasTag(ds[0].directives, ds[0].root.written, tag) ::
      r == if tag == "" && !ds[0].root.plain then Composed(Atom("tag:yaml.org,2002:str", ds[0].root.value))
           else match resolve(tag, ds[0].root.value)
             case Mismatch => Failed
             case Null => Composed(Nil)
             case Resolved(kind, text) => Composed(Atom(kind, text))
  {
    hide *;
    var doc;
    ghost var events;
    doc, events := Compose(tokens);
    ghost var t := ComposedIs(tokens, ds, doc, events);
    var d := doc.value.value;
    RootProper(ds);
    ScalarRefers(ds[0].directives, ds[0].root, t);
    var anchors: Anchors := map x | x in d.anchors :: d.root;
    r := Decode(d, anchors, resolve, t, 2);
    ScalarValue(ds[0].directives, ds[0].root, t, anchors, resolve);
  }

  lemma RootProper(ds: seq<Script>)
    requires StreamAllowed(ds) && ds != []
    ensures Proper(ds[0].directives)
  {
    hide Optional, Allowed;
    assert ScriptAllowed(ds[0], true);
    NothingIsProper();
  }

  /** The value of a node that is written as a text. */
  lemma ScalarValue(ts: seq<Token>, f: Form, t: Tree, anchors: Anchors, resolve: Resolver)
    requires Proper(ts) && f.Text? && Means(ts, f, t)
    ensures Resolvable(anchors, NodeOf(t, 2))
    ensures forall u, tag | Unfolds(anchors, NodeOf(t, 2), u) && HasTag(ts, f.written, tag) ::
      Meaning(resolve, u) ==
        if tag == "" && !f.plain then Composed(Atom("tag:yaml.org,2002:str", f.value))
        else match resolve(tag, f.value)
          case Mismatch => Failed
          case Null => Composed(Nil)
          case Resolved(kind, text) => Composed(Atom(kind, text))
  {
    hide Proper, HasTag, Resolvable;
    ScalarUnfolds(anchors, NodeOf(t, 2));
    forall tag | HasTag(ts, f.written, tag) ensures tag == t.props.tag {
      OneTag(ts, f.written, tag, t.props.tag);
    }
  }

  lemma OneTag(ts: seq<Token>, w: Written, a: string, b: string)
    requires Proper(ts) && HasTag(ts, w, a) && HasTag(ts, w, b)
    ensures a == b
  {
    TagIs(ts, w);
    hide HasTag, TagOf;
  }

  lemma ScalarRefers(ts: seq<Token>, f: Form, t: Tree)
    requires f.Text? && Means(ts, f, t)
    ensures var doc := Doc(NodeOf(t, 2), Anchored(map[], t, 2)); Refers(doc, map x | x in doc.anchors :: doc.root)
  {
  }

  lemma ScalarUnfolds(anchors: Anchors, n: Node)
    requires n.ScalarNode?
    ensures Resolvable(anchors, n) && forall u :: Unfolds(anchors, n, u) ==> u == Leaf(n.tag, n.value, n.implicit)
  {
    var u := Leaf(n.tag, n.value, n.implicit);
    assert Unfolds(anchors, n, u);
    UnfoldsWhenResolvable(anchors, n);
  }
}
