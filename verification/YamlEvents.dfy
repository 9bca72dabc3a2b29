/** The event grammar that the YAML parser and the YAML emitter share.

    stream   ::= STREAM-START document* STREAM-END
    document ::= DOCUMENT-START node DOCUMENT-END
    node     ::= ALIAS | SCALAR | SEQUENCE-START node* SEQUENCE-END
               | MAPPING-START (node node)* MAPPING-END */
module YamlEvents {
  import opened Basics

  // Anchor and tag of a node; no tag is the empty tag.
  datatype Props = Props(anchor: Option<string>, tag: string, implicit: bool)

  datatype Event =
    | NoEvent
    | StreamStart
    | StreamEnd
    | DocumentStart(implicit: bool)
    | DocumentEnd(implicit: bool)
    | Alias(name: string)
    | Scalar(props: Props, value: string, quotedImplicit: bool, plain: bool)
    | SequenceStart(props: Props, flow: bool)
    | SequenceEnd
    | MappingStart(props: Props, flow: bool)
    | MappingEnd

  // ---- the grammar, by its derivation trees

  datatype Tree =
    | AliasTree(name: string)
    | ScalarTree(props: Props, value: string, quotedImplicit: bool, plain: bool)
    | SequenceTree(props: Props, flow: bool, items: seq<Tree>)
    | MappingTree(props: Props, flow: bool, pairs: seq<Pair>)

  // A key and its value.
  datatype Pair = Pair(key: Tree, value: Tree)

  datatype Document = Document(start: bool, root: Tree, end: bool)

  function NodeEvents(t: Tree): (r: seq<Event>)
    decreases t, 1
  {
    match t
    case AliasTree(name) => [Alias(name)]
    case ScalarTree(props, value, quoted, plain) => [Scalar(props, value, quoted, plain)]
    case SequenceTree(props, flow, items) => [SequenceStart(props, flow)] + ItemEvents(items) + [SequenceEnd]
    case MappingTree(props, flow, pairs) => [MappingStart(props, flow)] + PairEvents(pairs) + [MappingEnd]
  }

  function ItemEvents(items: seq<Tree>): (r: seq<Event>)
    decreases items, 0
  {
    if items == [] then [] else ItemEvents(items[..|items| - 1]) + NodeEvents(items[|items| - 1])
  }

  function PairEvents(pairs: seq<Pair>): (r: seq<Event>)
    decreases pairs, 0
  {
    if pairs == [] then []
    else PairEvents(pairs[..|pairs| - 1]) + KeyValueEvents(pairs[|pairs| - 1])
  }

  function KeyValueEvents(p: Pair): (r: seq<Event>)
    decreases p, 2
  {
    match p case Pair(key, value) => NodeEvents(key) + NodeEvents(value)
  }

  function DocumentEvents(d: Document): (r: seq<Event>) {
    [DocumentStart(d.start)] + NodeEvents(d.root) + [DocumentEnd(d.end)]
  }

  function DocumentsEvents(docs: seq<Document>): (r: seq<Event>) {
    if docs == [] then [] else DocumentsEvents(docs[..|docs| - 1]) + DocumentEvents(docs[|docs| - 1])
  }

  function StreamEvents(docs: seq<Document>): (r: seq<Event>) {
    [StreamStart] + DocumentsEvents(docs) + [StreamEnd]
  }

  /** A prefix of the events of some stream. */
  ghost predicate StreamPrefix(es: seq<Event>) {
    exists docs :: es <= StreamEvents(docs)
  }

  // ---- the grammar, by an automaton that reads one event after the other

  // An open collection, and what it waits for.
  datatype Frame = Item | Key | Value

  datatype Position =
    | AtStart
    | BetweenDocuments
    | AtNode(open: seq<Frame>)   // no open collection: the root of a document
    | AtDocumentEnd
    | AtEnd

  /** Where a completed node leads to. */
  function Completed(open: seq<Frame>): (r: Position) {
    if open == [] then AtDocumentEnd
    else match open[|open| - 1]
      case Item => AtNode(open)
      case Key => AtNode(open[|open| - 1 := Value])
      case Value => AtNode(open[|open| - 1 := Key])
  }

  function Accept(p: Position, e: Event): (r: Option<Position>) {
    match p
    case AtStart => if e.StreamStart? then Some(BetweenDocuments) else None
    case BetweenDocuments =>
      if e.DocumentStart? then Some(AtNode([])) else if e.StreamEnd? then Some(AtEnd) else None
    case AtDocumentEnd => if e.DocumentEnd? then Some(BetweenDocuments) else None
    case AtEnd => None
    case AtNode(open) =>
      match e
      case Alias(_) => Some(Completed(open))
      case Scalar(_, _, _, _) => Some(Completed(open))
      case SequenceStart(_, _) => Some(AtNode(open + [Item]))
      case MappingStart(_, _) => Some(AtNode(open + [Key]))
      case SequenceEnd =>
        if open != [] && open[|open| - 1] == Item then Some(Completed(open[..|open| - 1])) else None
      case MappingEnd =>
        if open != [] && open[|open| - 1] == Key then Some(Completed(open[..|open| - 1])) else None
      case _ => None
  }

  function AcceptAll(p: Position, es: seq<Event>): (r: Option<Position>) {
    if es == [] then Some(p)
    else match AcceptAll(p, es[..|es| - 1])
      case None => None
      case Some(q) => Accept(q, es[|es| - 1])
  }

  lemma {:induction false} AcceptConcat(p: Position, a: seq<Event>, b: seq<Event>)
    requires AcceptAll(p, a).Some?
    ensures AcceptAll(p, a + b) == AcceptAll(AcceptAll(p, a).value, b)
  {
    if b == [] {
      assert a + b == a;
    } else {
      assert (a + b)[..|a + b| - 1] == a + b[..|b| - 1];
      AcceptConcat(p, a, b[..|b| - 1]);
    }
  }

  lemma AcceptOne(p: Position, e: Event)
    ensures AcceptAll(p, [e]) == Accept(p, e)
  {
    assert [e][..0] == [];
  }

  // ---- every derivation is accepted

  lemma Bracketed(open: seq<Frame>, first: Event, f: Frame, inner: seq<Event>, last: Event)
    requires Accept(AtNode(open), first) == Some(AtNode(open + [f]))
    requires AcceptAll(AtNode(open + [f]), inner) == Some(AtNode(open + [f]))
    requires Accept(AtNode(open + [f]), last) == Some(Completed(open))
    ensures AcceptAll(AtNode(open), [first] + inner + [last]) == Some(Completed(open))
  {
    hide Completed;
    AcceptOne(AtNode(open), first);
    AcceptConcat(AtNode(open), [first], inner);
    AcceptOne(AtNode(open + [f]), last);
    AcceptConcat(AtNode(open), [first] + inner, [last]);
  }

  lemma {:induction false} NodeAccepted(open: seq<Frame>, t: Tree)
    ensures AcceptAll(AtNode(open), NodeEvents(t)) == Some(Completed(open))
    decreases t, 1
  {
    hide AcceptAll, Completed;
    match t {
      case AliasTree(name) => AcceptOne(AtNode(open), Alias(name));
      case ScalarTree(props, value, quoted, plain) => AcceptOne(AtNode(open), Scalar(props, value, quoted, plain));
      case SequenceTree(props, flow, items) =>
        ItemsAccepted(open, items);
        assert (open + [Item])[..|open|] == open;
        Bracketed(open, SequenceStart(props, flow), Item, ItemEvents(items), SequenceEnd);
      case MappingTree(props, flow, pairs) =>
        PairsAccepted(open, pairs);
        assert (open + [Key])[..|open|] == open;
        Bracketed(open, MappingStart(props, flow), Key, PairEvents(pairs), MappingEnd);
    }
  }

  lemma {:induction false} ItemsAccepted(open: seq<Frame>, items: seq<Tree>)
    ensures AcceptAll(AtNode(open + [Item]), ItemEvents(items)) == Some(AtNode(open + [Item]))
    decreases items, 0
  {
    if items != [] {
      var init, last := items[..|items| - 1], items[|items| - 1];
      ItemsAccepted(open, init);
      NodeAccepted(open + [Item], last);
      AcceptConcat(AtNode(open + [Item]), ItemEvents(init), NodeEvents(last));
    }
  }

  lemma {:induction false} PairsAccepted(open: seq<Frame>, pairs: seq<Pair>)
    ensures AcceptAll(AtNode(open + [Key]), PairEvents(pairs)) == Some(AtNode(open + [Key]))
    decreases pairs, 0
  {
    if pairs != [] {
      hide AcceptAll;
      PairsAccepted(open, pairs[..|pairs| - 1]);
      PairAccepted(open, pairs[|pairs| - 1]);
      AcceptConcat(AtNode(open + [Key]), PairEvents(pairs[..|pairs| - 1]), KeyValueEvents(pairs[|pairs| - 1]));
    } else {
      assert PairEvents(pairs) == [];
    }
  }

  lemma {:induction false} PairAccepted(open: seq<Frame>, p: Pair)
    ensures AcceptAll(AtNode(open + [Key]), KeyValueEvents(p)) == Some(AtNode(open + [Key]))
    decreases p, 2
  {
    hide AcceptAll, Completed;
    match p {
      case Pair(key, value) =>
        CompletedPair(open);
        NodeAccepted(open + [Key], key);
        NodeAccepted(open + [Value], value);
        AcceptConcat(AtNode(open + [Key]), NodeEvents(key), NodeEvents(value));
    }
  }

  lemma CompletedPair(open: seq<Frame>)
    ensures Completed(open + [Key]) == AtNode(open + [Value])
    ensures Completed(open + [Value]) == AtNode(open + [Key])
  {
    assert (open + [Key])[|open| := Value] == open + [Value];
    assert (open + [Value])[|open| := Key] == open + [Key];
  }

  lemma {:induction false} DocumentsAccepted(docs: seq<Document>)
    ensures AcceptAll(BetweenDocuments, DocumentsEvents(docs)) == Some(BetweenDocuments)
  {
    if docs != [] {
      var init, d := docs[..|docs| - 1], docs[|docs| - 1];
      DocumentsAccepted(init);
      AcceptOne(BetweenDocuments, DocumentStart(d.start));
      NodeAccepted([], d.root);
      AcceptConcat(BetweenDocuments, [DocumentStart(d.start)], NodeEvents(d.root));
      AcceptOne(AtDocumentEnd, DocumentEnd(d.end));
      AcceptConcat(BetweenDocuments, [DocumentStart(d.start)] + NodeEvents(d.root), [DocumentEnd(d.end)]);
      AcceptConcat(BetweenDocuments, DocumentsEvents(init), DocumentEvents(d));
    }
  }

  /** The automaton accepts the events of every stream, up to its end. */
  lemma StreamAccepted(docs: seq<Document>)
    ensures AcceptAll(AtStart, StreamEvents(docs)) == Some(AtEnd)
  {
    AcceptOne(AtStart, StreamStart);
    DocumentsAccepted(docs);
    AcceptConcat(AtStart, [StreamStart], DocumentsEvents(docs));
    AcceptOne(BetweenDocuments, StreamEnd);
    AcceptConcat(AtStart, [StreamStart] + DocumentsEvents(docs), [StreamEnd]);
  }

  // ---- whatever is accepted is a prefix of a stream

  // An open collection with what it holds so far.
  datatype Partial =
    | PartialSequence(props: Props, flow: bool, items: seq<Tree>)
    | PartialMapping(props: Props, flow: bool, pairs: seq<Pair>)
    | PartialPair(props: Props, flow: bool, pairs: seq<Pair>, key: Tree)

  // A partial derivation of a stream.
  datatype Draft =
    | DraftStart
    | DraftBetween(docs: seq<Document>)
    | DraftNode(docs: seq<Document>, start: bool, open: seq<Partial>)
    | DraftRoot(docs: seq<Document>, start: bool, root: Tree)
    | DraftEnd(docs: seq<Document>)

  function PartialEvents(p: Partial): (r: seq<Event>) {
    match p
    case PartialSequence(props, flow, items) => [SequenceStart(props, flow)] + ItemEvents(items)
    case PartialMapping(props, flow, pairs) => [MappingStart(props, flow)] + PairEvents(pairs)
    case PartialPair(props, flow, pairs, key) => [MappingStart(props, flow)] + PairEvents(pairs) + NodeEvents(key)
  }

  function OpenEvents(open: seq<Partial>): (r: seq<Event>) {
    if open == [] then [] else OpenEvents(open[..|open| - 1]) + PartialEvents(open[|open| - 1])
  }

  function DraftEvents(d: Draft): (r: seq<Event>) {
    match d
    case DraftStart => []
    case DraftBetween(docs) => [StreamStart] + DocumentsEvents(docs)
    case DraftNode(docs, start, open) => [StreamStart] + DocumentsEvents(docs) + [DocumentStart(start)] + OpenEvents(open)
    case DraftRoot(docs, start, root) => [StreamStart] + DocumentsEvents(docs) + [DocumentStart(start)] + NodeEvents(root)
    case DraftEnd(docs) => StreamEvents(docs)
  }

  function FrameOf(p: Partial): Frame {
    match p
    case PartialSequence(_, _, _) => Item
    case PartialMapping(_, _, _) => Key
    case PartialPair(_, _, _, _) => Value
  }

  function Frames(open: seq<Partial>): (r: seq<Frame>)
    ensures |r| == |open|
  {
    seq(|open|, i requires 0 <= i < |open| => FrameOf(open[i]))
  }

  function PositionOf(d: Draft): Position {
    match d
    case DraftStart => AtStart
    case DraftBetween(_) => BetweenDocuments
    case DraftNode(_, _, open) => AtNode(Frames(open))
    case DraftRoot(_, _, _) => AtDocumentEnd
    case DraftEnd(_) => AtEnd
  }

  /** The draft once the node `t` has been added where one is expected. */
  function AddNode(docs: seq<Document>, start: bool, open: seq<Partial>, t: Tree): (r: Draft) {
    if open == [] then DraftRoot(docs, start, t)
    else DraftNode(docs, start, open[|open| - 1 := Grown(open[|open| - 1], t)])
  }

  lemma OpenEventsStep(open: seq<Partial>, p: Partial)
    ensures OpenEvents(open + [p]) == OpenEvents(open) + PartialEvents(p)
  {
    assert (open + [p])[..|open|] == open;
  }

  /** A partial collection with one more node in it. */
  function Grown(p: Partial, t: Tree): (r: Partial) {
    match p
    case PartialSequence(props, flow, items) => PartialSequence(props, flow, items + [t])
    case PartialMapping(props, flow, pairs) => PartialPair(props, flow, pairs, t)
    case PartialPair(props, flow, pairs, key) => PartialMapping(props, flow, pairs + [Pair(key, t)])
  }

  lemma Associate(a: seq<Event>, b: seq<Event>, c: seq<Event>)
    ensures (a + b) + c == a + (b + c)
  {
  }

  lemma ItemsGrow(items: seq<Tree>, t: Tree)
    ensures ItemEvents(items + [t]) == ItemEvents(items) + NodeEvents(t)
  {
    assert (items + [t])[..|items|] == items;
  }

  lemma PairsGrow(pairs: seq<Pair>, p: Pair)
    ensures PairEvents(pairs + [p]) == PairEvents(pairs) + KeyValueEvents(p)
  {
    assert (pairs + [p])[..|pairs|] == pairs;
  }

  lemma GrownEvents(p: Partial, t: Tree)
    ensures PartialEvents(Grown(p, t)) == PartialEvents(p) + NodeEvents(t)
  {
    hide NodeEvents, ItemEvents, PairEvents;
    match p {
      case PartialSequence(props, flow, items) =>
        ItemsGrow(items, t);
        Associate([SequenceStart(props, flow)], ItemEvents(items), NodeEvents(t));
      case PartialMapping(props, flow, pairs) =>
      case PartialPair(props, flow, pairs, key) =>
        PairsGrow(pairs, Pair(key, t));
        var first := [MappingStart(props, flow)];
        Associate(first, PairEvents(pairs), KeyValueEvents(Pair(key, t)));
        Associate(first + PairEvents(pairs), NodeEvents(key), NodeEvents(t));
    }
  }

  lemma Opened(docs: seq<Document>, start: bool, open: seq<Partial>, p: Partial)
    ensures DraftEvents(DraftNode(docs, start, open + [p])) == DraftEvents(DraftNode(docs, start, open)) + PartialEvents(p)
    ensures Frames(open + [p]) == Frames(open) + [FrameOf(p)]
  {
    hide OpenEvents, PartialEvents, DocumentsEvents;
    OpenEventsStep(open, p);
    Associate([StreamStart] + DocumentsEvents(docs) + [DocumentStart(start)], OpenEvents(open), PartialEvents(p));
  }

  lemma AddedPosition(docs: seq<Document>, start: bool, open: seq<Partial>, t: Tree)
    ensures PositionOf(AddNode(docs, start, open, t)) == Completed(Frames(open))
  {
    if open != [] {
      var last := |open| - 1;
      assert Frames(open[last := Grown(open[last], t)]) == Frames(open)[last := FrameOf(Grown(open[last], t))];
    }
  }

  lemma AddedEvents(docs: seq<Document>, start: bool, init: seq<Partial>, p: Partial, t: Tree)
    ensures DraftEvents(DraftNode(docs, start, init + [Grown(p, t)]))
      == DraftEvents(DraftNode(docs, start, init + [p])) + NodeEvents(t)
  {
    hide NodeEvents, PartialEvents, DraftEvents;
    Opened(docs, start, init, p);
    Opened(docs, start, init, Grown(p, t));
    GrownEvents(p, t);
    Associate(DraftEvents(DraftNode(docs, start, init)), PartialEvents(p), NodeEvents(t));
  }

  lemma NodeAdded(docs: seq<Document>, start: bool, open: seq<Partial>, t: Tree)
    ensures DraftEvents(AddNode(docs, start, open, t)) == DraftEvents(DraftNode(docs, start, open)) + NodeEvents(t)
    ensures PositionOf(AddNode(docs, start, open, t)) == Completed(Frames(open))
  {
    AddedPosition(docs, start, open, t);
    hide NodeEvents, PositionOf;
    if open == [] {
      assert OpenEvents([]) == [];
    } else {
      hide DraftEvents;
      var last := |open| - 1;
      assert open == open[..last] + [open[last]];
      assert open[last := Grown(open[last], t)] == open[..last] + [Grown(open[last], t)];
      AddedEvents(docs, start, open[..last], open[last], t);
    }
  }

  /** The draft after one more event. */
  function Extend(d: Draft, e: Event): (r: Draft)
    requires Accept(PositionOf(d), e).Some?
  {
    match d
    case DraftStart => DraftBetween([])
    case DraftBetween(docs) => if e.DocumentStart? then DraftNode(docs, e.implicit, []) else DraftEnd(docs)
    case DraftRoot(docs, start, root) => DraftBetween(docs + [Document(start, root, e.implicit)])
    case DraftNode(docs, start, open) =>
      match e
      case Alias(name) => AddNode(docs, start, open, AliasTree(name))
      case Scalar(props, value, quoted, plain) => AddNode(docs, start, open, ScalarTree(props, value, quoted, plain))
      case SequenceStart(props, flow) => DraftNode(docs, start, open + [PartialSequence(props, flow, [])])
      case MappingStart(props, flow) => DraftNode(docs, start, open + [PartialMapping(props, flow, [])])
      case SequenceEnd =>
        var p := open[|open| - 1];
        AddNode(docs, start, open[..|open| - 1], SequenceTree(p.props, p.flow, p.items))
      case MappingEnd =>
        var p := open[|open| - 1];
        AddNode(docs, start, open[..|open| - 1], MappingTree(p.props, p.flow, p.pairs))
  }

  lemma Closed(docs: seq<Document>, start: bool, open: seq<Partial>, t: Tree, e: Event)
    requires open != []
    requires NodeEvents(t) == PartialEvents(open[|open| - 1]) + [e]
    ensures DraftEvents(AddNode(docs, start, open[..|open| - 1], t)) == DraftEvents(DraftNode(docs, start, open)) + [e]
    ensures PositionOf(AddNode(docs, start, open[..|open| - 1], t)) == Completed(Frames(open)[..|open| - 1])
  {
    hide NodeEvents, PartialEvents, AddNode, Completed;
    var init, last := open[..|open| - 1], open[|open| - 1];
    NodeAdded(docs, start, init, t);
    assert open == init + [last];
    Opened(docs, start, init, last);
    Associate(DraftEvents(DraftNode(docs, start, init)), PartialEvents(last), [e]);
    hide DraftEvents;
    assert Frames(init) == Frames(open)[..|open| - 1];
  }

  lemma ExtendNode(docs: seq<Document>, start: bool, open: seq<Partial>, e: Event)
    requires Accept(AtNode(Frames(open)), e).Some?
    ensures DraftEvents(Extend(DraftNode(docs, start, open), e)) == DraftEvents(DraftNode(docs, start, open)) + [e]
    ensures PositionOf(Extend(DraftNode(docs, start, open), e)) == Accept(AtNode(Frames(open)), e).value
  {
    hide AddNode, Completed, DraftEvents;
    match e {
      case Alias(name) => NodeAdded(docs, start, open, AliasTree(name));
      case Scalar(props, value, quoted, plain) => NodeAdded(docs, start, open, ScalarTree(props, value, quoted, plain));
      case SequenceStart(props, flow) =>
        Opened(docs, start, open, PartialSequence(props, flow, []));
        assert ItemEvents([]) == [];
      case MappingStart(props, flow) =>
        Opened(docs, start, open, PartialMapping(props, flow, []));
        assert PairEvents([]) == [];
      case SequenceEnd =>
        var p := open[|open| - 1];
        Closed(docs, start, open, SequenceTree(p.props, p.flow, p.items), e);
      case MappingEnd =>
        var p := open[|open| - 1];
        Closed(docs, start, open, MappingTree(p.props, p.flow, p.pairs), e);
    }
  }

  lemma RootClosed(docs: seq<Document>, start: bool, root: Tree, e: Event)
    requires e.DocumentEnd?
    ensures DraftEvents(DraftBetween(docs + [Document(start, root, e.implicit)]))
      == DraftEvents(DraftRoot(docs, start, root)) + [e]
  {
    hide NodeEvents;
    var doc := Document(start, root, e.implicit);
    assert (docs + [doc])[..|docs|] == docs;
    var before, first, node := DocumentsEvents(docs), [DocumentStart(start)], NodeEvents(root);
    assert DocumentsEvents(docs + [doc]) == before + (first + node + [e]);
    hide DocumentsEvents;
    assert [StreamStart] + (before + (first + node + [e])) == [StreamStart] + before + first + node + [e];
  }

  lemma ExtendCorrect(d: Draft, e: Event)
    requires Accept(PositionOf(d), e).Some?
    ensures DraftEvents(Extend(d, e)) == DraftEvents(d) + [e]
    ensures PositionOf(Extend(d, e)) == Accept(PositionOf(d), e).value
  {
    match d {
      case DraftStart =>
      case DraftBetween(docs) =>
        hide DocumentsEvents;
        if e.DocumentStart? {
          assert OpenEvents([]) == [] && Frames([]) == [];
        }
      case DraftRoot(docs, start, root) => RootClosed(docs, start, root, e);
      case DraftEnd(_) =>
      case DraftNode(docs, start, open) =>
        hide DraftEvents, Extend;
        ExtendNode(docs, start, open, e);
    }
  }

  /** The derivation drafted by an accepted sequence of events. */
  lemma {:induction false} DraftFor(es: seq<Event>) returns (d: Draft)
    requires AcceptAll(AtStart, es).Some?
    ensures DraftEvents(d) == es && PositionOf(d) == AcceptAll(AtStart, es).value
  {
    if es == [] {
      d := DraftStart;
    } else {
      var init := DraftFor(es[..|es| - 1]);
      ExtendCorrect(init, es[|es| - 1]);
      d := Extend(init, es[|es| - 1]);
    }
  }

  lemma CompleteRoot(ds: seq<Document>, start: bool, root: Tree) returns (docs: seq<Document>)
    ensures DraftEvents(DraftRoot(ds, start, root)) <= StreamEvents(docs)
  {
    hide NodeEvents;
    docs := ds + [Document(start, root, true)];
    RootClosed(ds, start, root, DocumentEnd(true));
    assert StreamEvents(docs) == DraftEvents(DraftBetween(docs)) + [StreamEnd];
  }

  lemma {:induction false} CompleteNode(ds: seq<Document>, start: bool, open: seq<Partial>) returns (docs: seq<Document>)
    ensures DraftEvents(DraftNode(ds, start, open)) <= StreamEvents(docs)
    decreases |open|, open != [] && open[|open| - 1].PartialPair?
  {
    hide DraftEvents, StreamEvents;
    var blank := ScalarTree(Props(None, "", true), "", false, true);
    var d: Draft;
    if open == [] || open[|open| - 1].PartialPair? {
      NodeAdded(ds, start, open, blank);
      d := AddNode(ds, start, open, blank);
    } else {
      var p := open[|open| - 1];
      if p.PartialSequence? {
        Closed(ds, start, open, SequenceTree(p.props, p.flow, p.items), SequenceEnd);
        d := AddNode(ds, start, open[..|open| - 1], SequenceTree(p.props, p.flow, p.items));
      } else {
        Closed(ds, start, open, MappingTree(p.props, p.flow, p.pairs), MappingEnd);
        d := AddNode(ds, start, open[..|open| - 1], MappingTree(p.props, p.flow, p.pairs));
      }
    }
    if d.DraftRoot? {
      docs := CompleteRoot(ds, start, d.root);
    } else {
      docs := CompleteNode(ds, start, d.open);
    }
  }

  /** Closes what a draft leaves open. */
  lemma Completion(d: Draft) returns (docs: seq<Document>)
    ensures DraftEvents(d) <= StreamEvents(docs)
  {
    match d {
      case DraftStart => docs := [];
      case DraftBetween(ds) => docs := ds;
      case DraftEnd(ds) => docs := ds;
      case DraftRoot(ds, start, root) => docs := CompleteRoot(ds, start, root);
      case DraftNode(ds, start, open) => docs := CompleteNode(ds, start, open);
    }
  }

  /** A sequence of events is a prefix of some stream exactly when the automaton accepts it. */
  lemma PrefixIsAccepted(es: seq<Event>)
    ensures StreamPrefix(es) <==> AcceptAll(AtStart, es).Some?
  {
    if AcceptAll(AtStart, es).Some? {
      var d := DraftFor(es);
      var docs := Completion(d);
    }
    if docs :| es <= StreamEvents(docs) {
      StreamAccepted(docs);
      AcceptedPrefix(AtStart, StreamEvents(docs), |es|);
      assert StreamEvents(docs)[..|es|] == es;
    }
  }

  lemma {:induction false} AcceptedPrefix(p: Position, es: seq<Event>, n: nat)
    requires n <= |es| && AcceptAll(p, es).Some?
    ensures AcceptAll(p, es[..n]).Some?
    decreases |es|
  {
    if n == |es| {
      assert es[..n] == es;
    } else {
      AcceptedPrefix(p, es[..|es| - 1], n);
      assert es[..|es| - 1][..n] == es[..n];
    }
  }

  /** It is a whole stream exactly when the automaton arrives at the end. */
  lemma StreamIsAccepted(es: seq<Event>)
    ensures (exists docs :: es == StreamEvents(docs)) <==> AcceptAll(AtStart, es) == Some(AtEnd)
  {
    if AcceptAll(AtStart, es) == Some(AtEnd) {
      var d := DraftFor(es);
      assert es == StreamEvents(d.docs);
    }
    if docs :| es == StreamEvents(docs) {
      StreamAccepted(docs);
    }
  }

  // ---- a stream has one derivation

  /** The draft after some more events. */
  function Drafted(d: Draft, es: seq<Event>): (r: Option<Draft>) {
    if es == [] then Some(d)
    else match Drafted(d, es[..|es| - 1])
      case None => None
      case Some(q) => if Accept(PositionOf(q), es[|es| - 1]).Some? then Some(Extend(q, es[|es| - 1])) else None
  }

  lemma {:induction false} DraftedConcat(d: Draft, a: seq<Event>, b: seq<Event>)
    requires Drafted(d, a).Some?
    ensures Drafted(d, a + b) == Drafted(Drafted(d, a).value, b)
  {
    hide PositionOf, Accept, Extend;
    if b == [] {
      assert a + b == a;
    } else {
      assert (a + b)[..|a + b| - 1] == a + b[..|b| - 1];
      DraftedConcat(d, a, b[..|b| - 1]);
    }
  }

  lemma DraftedOne(d: Draft, e: Event)
    requires Accept(PositionOf(d), e).Some?
    ensures Drafted(d, [e]) == Some(Extend(d, e))
  {
    hide PositionOf, Accept, Extend;
    assert [e][..0] == [];
    assert Drafted(d, []) == Some(d);
  }

  lemma DraftedAround(d: Draft, first: Event, inner: seq<Event>, q: Draft, last: Event)
    requires Accept(PositionOf(d), first).Some? && Drafted(Extend(d, first), inner) == Some(q) && Accept(PositionOf(q), last).Some?
    ensures Drafted(d, [first] + inner + [last]) == Some(Extend(q, last))
  {
    hide PositionOf, Accept, Extend;
    DraftedOne(d, first);
    DraftedConcat(d, [first], inner);
    DraftedOne(q, last);
    DraftedConcat(d, [first] + inner, [last]);
  }

  lemma LastOf(open: seq<Partial>, p: Partial)
    ensures (open + [p])[..|open|] == open && Frames(open + [p])[|open|] == FrameOf(p)
    ensures forall t, docs, start :: AddNode(docs, start, open + [p], t) == DraftNode(docs, start, open + [Grown(p, t)])
  {
    assert forall t :: (open + [p])[|open| := Grown(p, t)] == open + [Grown(p, t)];
  }

  lemma {:induction false} NodeDrafted(docs: seq<Document>, start: bool, open: seq<Partial>, t: Tree)
    ensures Drafted(DraftNode(docs, start, open), NodeEvents(t)) == Some(AddNode(docs, start, open, t))
    decreases t, 1
  {
    hide Drafted, AddNode, Completed;
    var d := DraftNode(docs, start, open);
    match t {
      case AliasTree(name) => DraftedOne(d, Alias(name));
      case ScalarTree(props, value, quoted, plain) => DraftedOne(d, Scalar(props, value, quoted, plain));
      case SequenceTree(props, flow, items) =>
        ItemsDrafted(docs, start, open, props, flow, items);
        var p := PartialSequence(props, flow, items);
        LastOf(open, p);
        DraftedAround(d, SequenceStart(props, flow), ItemEvents(items), DraftNode(docs, start, open + [p]), SequenceEnd);
      case MappingTree(props, flow, pairs) =>
        PairsDrafted(docs, start, open, props, flow, pairs);
        var p := PartialMapping(props, flow, pairs);
        LastOf(open, p);
        DraftedAround(d, MappingStart(props, flow), PairEvents(pairs), DraftNode(docs, start, open + [p]), MappingEnd);
    }
  }

  lemma {:induction false} ItemsDrafted(docs: seq<Document>, start: bool, open: seq<Partial>, props: Props, flow: bool, items: seq<Tree>)
    ensures Drafted(DraftNode(docs, start, open + [PartialSequence(props, flow, [])]), ItemEvents(items))
      == Some(DraftNode(docs, start, open + [PartialSequence(props, flow, items)]))
    decreases items, 0
  {
    hide AddNode;
    if items != [] {
      var init, last := items[..|items| - 1], items[|items| - 1];
      ItemsDrafted(docs, start, open, props, flow, init);
      NodeDrafted(docs, start, open + [PartialSequence(props, flow, init)], last);
      LastOf(open, PartialSequence(props, flow, init));
      assert init + [last] == items;
      DraftedConcat(DraftNode(docs, start, open + [PartialSequence(props, flow, [])]), ItemEvents(init), NodeEvents(last));
    }
  }

  lemma {:induction false} PairsDrafted(docs: seq<Document>, start: bool, open: seq<Partial>, props: Props, flow: bool, pairs: seq<Pair>)
    ensures Drafted(DraftNode(docs, start, open + [PartialMapping(props, flow, [])]), PairEvents(pairs))
      == Some(DraftNode(docs, start, open + [PartialMapping(props, flow, pairs)]))
    decreases pairs, 0
  {
    hide AddNode;
    if pairs != [] {
      var init, last := pairs[..|pairs| - 1], pairs[|pairs| - 1];
      PairsDrafted(docs, start, open, props, flow, init);
      PairDrafted(docs, start, open, props, flow, init, last);
      assert init + [last] == pairs;
      DraftedConcat(DraftNode(docs, start, open + [PartialMapping(props, flow, [])]), PairEvents(init), KeyValueEvents(last));
    }
  }

  lemma {:induction false} PairDrafted(docs: seq<Document>, start: bool, open: seq<Partial>, props: Props, flow: bool, pairs: seq<Pair>, p: Pair)
    ensures Drafted(DraftNode(docs, start, open + [PartialMapping(props, flow, pairs)]), KeyValueEvents(p))
      == Some(DraftNode(docs, start, open + [PartialMapping(props, flow, pairs + [p])]))
    decreases p, 2
  {
    hide AddNode, Drafted;
    match p case Pair(key, value) =>
      NodeDrafted(docs, start, open + [PartialMapping(props, flow, pairs)], key);
      LastOf(open, PartialMapping(props, flow, pairs));
      NodeDrafted(docs, start, open + [PartialPair(props, flow, pairs, key)], value);
      LastOf(open, PartialPair(props, flow, pairs, key));
      DraftedConcat(DraftNode(docs, start, open + [PartialMapping(props, flow, pairs)]), NodeEvents(key), NodeEvents(value));
  }

  lemma DocumentDrafted(docs: seq<Document>, d: Document)
    ensures Drafted(DraftBetween(docs), DocumentEvents(d)) == Some(DraftBetween(docs + [d]))
  {
    hide NodeEvents, Drafted;
    NodeDrafted(docs, d.start, [], d.root);
    DraftedAround(DraftBetween(docs), DocumentStart(d.start), NodeEvents(d.root), DraftRoot(docs, d.start, d.root), DocumentEnd(d.end));
  }

  lemma {:induction false} DocumentsDrafted(docs: seq<Document>)
    ensures Drafted(DraftBetween([]), DocumentsEvents(docs)) == Some(DraftBetween(docs))
  {
    hide DocumentEvents, Extend, Accept, PositionOf;
    if docs != [] {
      var init, d := docs[..|docs| - 1], docs[|docs| - 1];
      DocumentsDrafted(init);
      DocumentDrafted(init, d);
      assert init + [d] == docs;
      DraftedConcat(DraftBetween([]), DocumentsEvents(init), DocumentEvents(d));
    }
  }

  /** Different documents have different events. */
  lemma StreamIsUnique(docs: seq<Document>, docs': seq<Document>)
    requires StreamEvents(docs) == StreamEvents(docs')
    ensures docs == docs'
  {
    hide Drafted, DocumentsEvents;
    DocumentsDrafted(docs);
    DocumentsDrafted(docs');
    DraftedAround(DraftStart, StreamStart, DocumentsEvents(docs), DraftBetween(docs), StreamEnd);
    DraftedAround(DraftStart, StreamStart, DocumentsEvents(docs'), DraftBetween(docs'), StreamEnd);
  }
}
