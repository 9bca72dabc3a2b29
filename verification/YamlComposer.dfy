/** The composer: reads the parser's events and builds the node tree of a document. */
module YamlComposer {
  import opened Basics
  import opened YamlEvents
  import opened YamlTokens
  import opened YamlParser

  // A node. Its number is the number of its first event, which stands for its
  // identity: that is what an anchor refers to. The children of a mapping are
  // its keys and values, alternating.
  datatype Node =
    | ScalarNode(number: nat, tag: string, value: string, implicit: bool)
    | AliasNode(number: nat, name: string)
    | SequenceNode(number: nat, children: seq<Node>)
    | MappingNode(number: nat, children: seq<Node>)

  datatype Doc = Doc(root: Node, anchors: map<string, nat>)

  // fail() panics with a YAML error; the other panics are for events that must not occur.
  datatype Outcome<+T> = Composed(value: T) | Failed | Unexpected

  // ---- the node tree of a derivation

  function NodeOf(t: Tree, n: nat): (r: Node)
    decreases t, 1
  {
    match t
    case AliasTree(name) => AliasNode(n, name)
    case ScalarTree(props, value, _, _) => ScalarNode(n, props.tag, value, props.implicit)
    case SequenceTree(_, _, items) => SequenceNode(n, ItemNodes(items, n + 1))
    case MappingTree(_, _, pairs) => MappingNode(n, PairNodes(pairs, n + 1))
  }

  function ItemNodes(items: seq<Tree>, n: nat): (r: seq<Node>)
    decreases items, 0
  {
    if items == [] then []
    else
      var init := items[..|items| - 1];
      ItemNodes(init, n) + [NodeOf(items[|items| - 1], n + |ItemEvents(init)|)]
  }

  function PairNodes(pairs: seq<Pair>, n: nat): (r: seq<Node>)
    decreases pairs, 0
  {
    if pairs == [] then []
    else
      var init := pairs[..|pairs| - 1];
      PairNodes(init, n) + KeyValueNodes(pairs[|pairs| - 1], n + |PairEvents(init)|)
  }

  function KeyValueNodes(p: Pair, n: nat): (r: seq<Node>)
    decreases p, 2
  {
    match p case Pair(key, value) => [NodeOf(key, n), NodeOf(value, n + |NodeEvents(key)|)]
  }

  /** The anchors once the nodes of `t` have been entered in document order. */
  function Anchored(m: map<string, nat>, t: Tree, n: nat): (r: map<string, nat>)
    decreases t, 1
  {
    match t
    case AliasTree(_) => m
    case ScalarTree(props, _, _, _) => Enter(m, props, n)
    case SequenceTree(props, _, items) => ItemsAnchored(Enter(m, props, n), items, n + 1)
    case MappingTree(props, _, pairs) => PairsAnchored(Enter(m, props, n), pairs, n + 1)
  }

  function Enter(m: map<string, nat>, props: Props, n: nat): (r: map<string, nat>) {
    if props.anchor.Some? then m[props.anchor.value := n] else m
  }

  function ItemsAnchored(m: map<string, nat>, items: seq<Tree>, n: nat): (r: map<string, nat>)
    decreases items, 0
  {
    if items == [] then m
    else
      var init := items[..|items| - 1];
      Anchored(ItemsAnchored(m, init, n), items[|items| - 1], n + |ItemEvents(init)|)
  }

  function PairsAnchored(m: map<string, nat>, pairs: seq<Pair>, n: nat): (r: map<string, nat>)
    decreases pairs, 0
  {
    if pairs == [] then m
    else
      var init := pairs[..|pairs| - 1];
      KeyValueAnchored(PairsAnchored(m, init, n), pairs[|pairs| - 1], n + |PairEvents(init)|)
  }

  function KeyValueAnchored(m: map<string, nat>, p: Pair, n: nat): (r: map<string, nat>)
    decreases p, 2
  {
    match p case Pair(key, value) => Anchored(Anchored(m, key, n), value, n + |NodeEvents(key)|)
  }

  // ---- reading events

  /** The events before the current one lead to `p`. */
  ghost predicate Before(events: seq<Event>, p: Position) {
    events != [] && AcceptAll(AtStart, events[..|events| - 1]) == Some(p)
  }

  /** `events'` ends with its current event, behind `events` without its own and `more`. */
  ghost predicate Consumed(events: seq<Event>, more: seq<Event>, events': seq<Event>) {
    events != [] && events' != [] && events'[..|events'| - 1] == events[..|events| - 1] + more
  }

  predicate StartsNode(e: Event) {
    e.Alias? || e.Scalar? || e.SequenceStart? || e.MappingStart?
  }

  lemma AcceptedStep(q: Position, events: seq<Event>, p: Position)
    requires events != [] && AcceptAll(q, events[..|events| - 1]) == Some(p)
    ensures AcceptAll(q, events) == Accept(p, events[|events| - 1])
  {
    hide Accept;
  }

  /** Taking one event further. */
  lemma OneMore(events: seq<Event>, p: Position, e': Event)
    requires Before(events, p) && AcceptAll(AtStart, events).Some?
    ensures Accept(p, events[|events| - 1]) == AcceptAll(AtStart, events)
    ensures Before(events + [e'], AcceptAll(AtStart, events).value)
    ensures Consumed(events, [events[|events| - 1]], events + [e'])
  {
    hide Accept, AcceptAll;
    AcceptedStep(AtStart, events, p);
    assert (events + [e'])[..|events|] == events;
    assert events == events[..|events| - 1] + [events[|events| - 1]];
  }

  lemma ConsumedMore(a: seq<Event>, x: seq<Event>, b: seq<Event>, y: seq<Event>, c: seq<Event>)
    requires Consumed(a, x, b) && Consumed(b, y, c)
    ensures Consumed(a, x + y, c)
  {
  }

  /** What can be read inside open collections: a node, or the end of the innermost one. */
  lemma NextInside(open: seq<Frame>, e: Event)
    requires Accept(AtNode(open), e).Some?
    ensures StartsNode(e) || e.SequenceEnd? || e.MappingEnd?
    ensures open == [] ==> StartsNode(e)
    ensures open != [] && open[|open| - 1] == Item ==> StartsNode(e) || e.SequenceEnd?
    ensures open != [] && open[|open| - 1] == Key ==> StartsNode(e) || e.MappingEnd?
    ensures open != [] && open[|open| - 1] == Value ==> StartsNode(e)
  {
  }

  lemma NotYetAtEnd(p: Position, e: Event, s: Snap)
    requires Accept(p, e) == Some(Where(s)) && !e.StreamEnd?
    ensures s.state != EndState
  {
  }

  lemma NodesGrow(items: seq<Tree>, t: Tree, m: map<string, nat>, n: nat)
    ensures ItemEvents(items + [t]) == ItemEvents(items) + NodeEvents(t)
    ensures ItemNodes(items + [t], n) == ItemNodes(items, n) + [NodeOf(t, n + |ItemEvents(items)|)]
    ensures ItemsAnchored(m, items + [t], n) == Anchored(ItemsAnchored(m, items, n), t, n + |ItemEvents(items)|)
  {
    hide NodeEvents, NodeOf, Anchored;
    assert (items + [t])[..|items|] == items;
  }

  lemma PairNodesGrow(pairs: seq<Pair>, p: Pair, m: map<string, nat>, n: nat)
    ensures PairEvents(pairs + [p]) == PairEvents(pairs) + KeyValueEvents(p)
    ensures PairNodes(pairs + [p], n) == PairNodes(pairs, n) + KeyValueNodes(p, n + |PairEvents(pairs)|)
    ensures PairsAnchored(m, pairs + [p], n) == KeyValueAnchored(PairsAnchored(m, pairs, n), p, n + |PairEvents(pairs)|)
  {
    hide KeyValueEvents, KeyValueNodes, KeyValueAnchored;
    assert (pairs + [p])[..|pairs|] == pairs;
  }

  lemma ConsumedLength(a: seq<Event>, x: seq<Event>, b: seq<Event>)
    requires Consumed(a, x, b)
    ensures |b| == |a| + |x|
  {
  }

  /** No document ends before the last event. */
  ghost predicate NoneEnded(es: seq<Event>) {
    forall i | 0 <= i < |es| - 1 :: !es[i].DocumentEnd?
  }

  /** The parser got stuck within the first document. */
  ghost predicate Halted(tokens: seq<Token>, was: seq<Event>, es: seq<Event>) {
    was <= es && NoneEnded(es) && Stuck(tokens, es)
  }

  lemma HaltedLater(tokens: seq<Token>, was: seq<Event>, later: seq<Event>, es: seq<Event>)
    requires was <= later && Halted(tokens, later, es)
    ensures Halted(tokens, was, es)
  {
    hide Stuck, NoneEnded;
  }

  lemma OneMoreEnded(es: seq<Event>, e: Event)
    requires NoneEnded(es) && (es != [] ==> !es[|es| - 1].DocumentEnd?)
    ensures NoneEnded(es + [e])
  {
  }

  lemma StuckAtTheEnd(tokens: seq<Token>, s: Snap, es: seq<Event>, p: Position)
    requires Shape(tokens, s) && Accept(p, StreamEnd) == Some(Where(s)) && After(tokens, Initial, es) == Some(s)
    ensures Stuck(tokens, es)
  {
    hide After;
  }

  lemma NoItems(first: Event, m: map<string, nat>, n: nat)
    ensures [first] + ItemEvents([]) == [first] && ItemEvents([]) == [] && ItemNodes([], n) == [] && ItemsAnchored(m, [], n) == m
  {
  }

  lemma SequenceIs(props: Props, flow: bool, items: seq<Tree>, n: nat, m: map<string, nat>)
    ensures var t := SequenceTree(props, flow, items);
      && NodeEvents(t) == [SequenceStart(props, flow)] + ItemEvents(items) + [SequenceEnd]
      && NodeOf(t, n) == SequenceNode(n, ItemNodes(items, n + 1))
      && Anchored(m, t, n) == ItemsAnchored(Enter(m, props, n), items, n + 1)
  {
  }

  class Composer {
    const parser: Parser
    var event: Event
    // the number of the current event
    var number: nat
    var anchors: map<string, nat>

    /** The parser and its first event; the stream's own start is skipped by `Start`. */
    constructor (parser: Parser)
      requires parser.Valid() && parser.produced == []
      ensures this.parser == parser && event == NoEvent && number == 0 && anchors == map[]
    {
      this.parser, event, number, anchors := parser, NoEvent, 0, map[];
    }

    ghost predicate At(p: Position)
      reads this, parser
    {
      && parser.Valid()
      && Before(parser.produced, p)
      && event == parser.produced[|parser.produced| - 1]
      && number + 1 == |parser.produced|
      && Left() >= 0
    }

    ghost function Left(): int
      reads parser
    {
      Measure(parser.tokens, parser.Now())
    }

    /** Reads the next event; false stands for the panic that fail() is. */
    method Skip(ghost p: Position) returns (ok: bool)
      requires At(p)
      modifies this`event, this`number, parser
      ensures ok <==> !old(event).StreamEnd? && !parser.error
      ensures ok ==> Accept(p, old(event)).Some? && At(Accept(p, old(event)).value)
      ensures ok ==> Consumed(old(parser.produced), [old(event)], parser.produced)
      ensures ok ==> Left() < old(Left()) && number == old(number) + 1
      ensures old(parser.produced) <= parser.produced && (!ok ==> parser.produced == old(parser.produced))
      ensures old(NoneEnded(parser.produced)) && ok && !old(event).DocumentEnd? ==> NoneEnded(parser.produced)
      ensures old(NoneEnded(parser.produced)) && !ok ==> Halted(parser.tokens, old(parser.produced), parser.produced)
    {
      hide Shape, Measure, Where, Accept, AcceptAll, Consumed, Before, Step, FirstState, After, NoneEnded, Stuck;
      ReadAlready(parser.tokens, parser.Now(), parser.produced, p);
      if event.StreamEnd? {
        StuckAtTheEnd(parser.tokens, parser.Now(), parser.produced, p);
        return false;
      }
      var e;
      ok, e := parser.Parse();
      if ok {
        if NoneEnded(old(parser.produced)) && !event.DocumentEnd? {
          OneMoreEnded(old(parser.produced), e);
        }
        OneMore(old(parser.produced), p, e);
        MeasureBounded(parser.tokens, parser.Now());
        event, number := e, number + 1;
      }
    }

    /** The events in front of the first document; false is a failing parser. */
    method Start() returns (ok: bool)
      requires parser.Valid() && parser.produced == [] && event == NoEvent && number == 0
      modifies this`event, this`number, parser
      ensures ok ==> At(BetweenDocuments) && number == 1 && |parser.produced| == 2 && parser.produced[0] == StreamStart
      ensures ok ==> NoneEnded(parser.produced)
      ensures !ok ==> Halted(parser.tokens, [], parser.produced) && |parser.produced| <= 1
    {
      hide Shape, Measure, Where, StreamPrefix, After, Step, Stuck, Before, Accept, Consumed, NoneEnded, Halted;
      AtFirst(parser.tokens, parser.Now());
      ok, event := parser.Parse();
      if !ok {
        HaltedAtOnce(parser.tokens);
        return;
      }
      AtFirstEvent(parser.tokens, parser.Now(), event);
      FirstOnly(event);
      ghost var first := parser.produced;
      ok := Skip(AtStart);
      if ok {
        TwoOnly(parser.produced);
      } else {
        HaltedLater(parser.tokens, [], first, parser.produced);
      }
    }

    /** A document and one event behind it. */
    method ParseDocument() returns (r: Outcome<Doc>, ghost t: Tree, ghost end: bool)
      requires At(BetweenDocuments) && event.DocumentStart? && NoneEnded(parser.produced)
      modifies this, parser
      ensures !r.Composed? ==> Halted(parser.tokens, old(parser.produced), parser.produced)
      ensures !r.Unexpected?
      ensures r.Composed? ==> r.value == Doc(NodeOf(t, old(number) + 1), Anchored(map[], t, old(number) + 1))
      ensures r.Composed? ==> At(BetweenDocuments)
      ensures r.Composed? ==>
        Consumed(old(parser.produced), DocumentEvents(Document(old(event).implicit, t, end)), parser.produced)
    {
      hide Measure, Shape, Where, AcceptAll, Consumed, Before, After, Stuck, NoneEnded;
      anchors := map[];
      t, end := AliasTree(""), true;
      ghost var first := event;
      var ok := Skip(BetweenDocuments);
      if !ok {
        return Failed, t, end;
      }
      ghost var inside := parser.produced;
      NextEvent([]);
      var root;
      root, t := ParseNode([]);
      if !root.Composed? {
        return Failed, t, end;
      }
      Current(Completed([]));
      AtDocumentsEnd(event);
      if !event.DocumentEnd? {
        return Unexpected, t, end;
      }
      ghost var before := parser.produced;
      end := event.implicit;
      ConsumedMore(old(parser.produced), [first], inside, NodeEvents(t), before);
      ok := Skip(AtDocumentEnd);
      if !ok {
        return Failed, t, end;
      }
      ConsumedMore(old(parser.produced), [first] + NodeEvents(t), before, [DocumentEnd(end)], parser.produced);
      r := Composed(Doc(root.value, anchors));
    }

    method ParseNode(ghost open: seq<Frame>) returns (r: Outcome<Node>, ghost t: Tree)
      requires At(AtNode(open)) && StartsNode(event) && NoneEnded(parser.produced)
      modifies this, parser
      ensures !r.Composed? ==> Halted(parser.tokens, old(parser.produced), parser.produced)
      ensures r.Composed? ==> old(parser.produced) <= parser.produced && NoneEnded(parser.produced)
      ensures !r.Unexpected?
      ensures r.Composed? ==> Left() < old(Left()) && At(Completed(open))
      ensures r.Composed? ==> Consumed(old(parser.produced), NodeEvents(t), parser.produced)
      ensures r.Composed? ==> r.value == NodeOf(t, old(number)) && anchors == Anchored(old(anchors), t, old(number))
      decreases Left(), 1
    {
      hide Left, Measure, Shape, Where, AcceptAll, Consumed, Before, Completed, Halted, NoneEnded, After, Stuck, Step;
      match event {
        case Alias(name) =>
          t := AliasTree(name);
          var n := number;
          var ok := Skip(AtNode(open));
          r := if ok then Composed(AliasNode(n, name)) else Failed;
        case Scalar(props, value, quoted, plain) =>
          t := ScalarTree(props, value, quoted, plain);
          var n := number;
          anchors := Enter(anchors, props, n);
          var ok := Skip(AtNode(open));
          r := if ok then Composed(ScalarNode(n, props.tag, value, props.implicit)) else Failed;
        case SequenceStart(_, _) => r, t := ParseSequence(open);
        case MappingStart(_, _) => r, t := ParseMapping(open);
      }
    }

    method ParseSequence(ghost open: seq<Frame>) returns (r: Outcome<Node>, ghost t: Tree)
      requires At(AtNode(open)) && event.SequenceStart? && NoneEnded(parser.produced)
      modifies this, parser
      ensures !r.Composed? ==> Halted(parser.tokens, old(parser.produced), parser.produced)
      ensures r.Composed? ==> old(parser.produced) <= parser.produced && NoneEnded(parser.produced)
      ensures !r.Unexpected?
      ensures r.Composed? ==> Left() < old(Left()) && At(Completed(open))
      ensures r.Composed? ==> Consumed(old(parser.produced), NodeEvents(t), parser.produced)
      ensures r.Composed? ==> r.value == NodeOf(t, old(number)) && anchors == Anchored(old(anchors), t, old(number))
      decreases Left(), 0
    {
      hide Left, Measure, Shape, Where, AcceptAll, Consumed, Before, Completed, Halted, NoneEnded, After, Stuck, Step, NodeEvents, NodeOf, Anchored, ItemEvents, ItemNodes, ItemsAnchored, Enter;
      var n, props := number, event.props;
      ghost var flow, items, first := event.flow, [], event;
      t := SequenceTree(props, flow, []);
      anchors := Enter(anchors, props, n);
      var children := [];
      var ok := Skip(AtNode(open));
      if !ok {
        return Failed, t;
      }
      ghost var m := anchors;
      NoItems(first, m, n + 1);
      while !event.SequenceEnd?
        invariant At(AtNode(open + [Item])) && Left() < old(Left())
        invariant old(parser.produced) <= parser.produced && NoneEnded(parser.produced)
        invariant Consumed(old(parser.produced), [first] + ItemEvents(items), parser.produced)
        invariant children == ItemNodes(items, n + 1) && anchors == ItemsAnchored(m, items, n + 1)
        invariant number == n + 1 + |ItemEvents(items)|
        decreases Left()
      {
        NextEvent(open + [Item]);
        ghost var before := parser.produced;
        var c, s := ParseNode(open + [Item]);
        if !c.Composed? {
          HaltedLater(parser.tokens, old(parser.produced), before, parser.produced);
          return Failed, t;
        }
        children := children + [c.value];
        NodesGrow(items, s, m, n + 1);
        ConsumedMore(old(parser.produced), [first] + ItemEvents(items), before, NodeEvents(s), parser.produced);
        Associate([first], ItemEvents(items), NodeEvents(s));
        ConsumedLength(old(parser.produced), [first] + ItemEvents(items + [s]), parser.produced);
        CompletedItem(open);
        items := items + [s];
      }
      t := SequenceTree(props, flow, items);
      ghost var before := parser.produced;
      ok := Skip(AtNode(open + [Item]));
      if !ok {
        HaltedLater(parser.tokens, old(parser.produced), before, parser.produced);
        return Failed, t;
      }
      CollectionEnds(open);
      ConsumedMore(old(parser.produced), [first] + ItemEvents(items), before, [SequenceEnd], parser.produced);
      SequenceIs(props, flow, items, n, old(anchors));
      r := Composed(SequenceNode(n, children));
    }

    method ParseMapping(ghost open: seq<Frame>) returns (r: Outcome<Node>, ghost t: Tree)
      requires At(AtNode(open)) && event.MappingStart? && NoneEnded(parser.produced)
      modifies this, parser
      ensures !r.Composed? ==> Halted(parser.tokens, old(parser.produced), parser.produced)
      ensures r.Composed? ==> old(parser.produced) <= parser.produced && NoneEnded(parser.produced)
      ensures !r.Unexpected?
      ensures r.Composed? ==> Left() < old(Left()) && At(Completed(open))
      ensures r.Composed? ==> Consumed(old(parser.produced), NodeEvents(t), parser.produced)
      ensures r.Composed? ==> r.value == NodeOf(t, old(number)) && anchors == Anchored(old(anchors), t, old(number))
      decreases Left(), 0
    {
      hide Left, Measure, Shape, Where, AcceptAll, Consumed, Before, Completed, Halted, NoneEnded, After, Stuck, Step, KeyValueEvents, KeyValueNodes, KeyValueAnchored;
      var n, props := number, event.props;
      ghost var flow, pairs, first := event.flow, [], event;
      t := MappingTree(props, flow, []);
      anchors := Enter(anchors, props, n);
      var children := [];
      var ok := Skip(AtNode(open));
      if !ok {
        return Failed, t;
      }
      ghost var m := anchors;
      assert [first] + PairEvents(pairs) == [first];
      while !event.MappingEnd?
        invariant At(AtNode(open + [Key])) && Left() < old(Left())
        invariant old(parser.produced) <= parser.produced && NoneEnded(parser.produced)
        invariant Consumed(old(parser.produced), [first] + PairEvents(pairs), parser.produced)
        invariant children == PairNodes(pairs, n + 1) && anchors == PairsAnchored(m, pairs, n + 1)
        invariant number == n + 1 + |PairEvents(pairs)|
        decreases Left()
      {
        NextEvent(open + [Key]);
        ghost var before := parser.produced;
        var c, p := ParsePair(open);
        if !c.Composed? {
          HaltedLater(parser.tokens, old(parser.produced), before, parser.produced);
          return Failed, t;
        }
        children := children + c.value;
        PairNodesGrow(pairs, p, m, n + 1);
        ConsumedMore(old(parser.produced), [first] + PairEvents(pairs), before, KeyValueEvents(p), parser.produced);
        Associate([first], PairEvents(pairs), KeyValueEvents(p));
        ConsumedLength(old(parser.produced), [first] + PairEvents(pairs + [p]), parser.produced);
        pairs := pairs + [p];
      }
      t := MappingTree(props, flow, pairs);
      ghost var before := parser.produced;
      ok := Skip(AtNode(open + [Key]));
      if !ok {
        HaltedLater(parser.tokens, old(parser.produced), before, parser.produced);
        return Failed, t;
      }
      CollectionEnds(open);
      ConsumedMore(old(parser.produced), [first] + PairEvents(pairs), before, [MappingEnd], parser.produced);
      r := Composed(MappingNode(n, children));
    }

    /** A key and its value. */
    method ParsePair(ghost open: seq<Frame>) returns (r: Outcome<seq<Node>>, ghost p: Pair)
      requires At(AtNode(open + [Key])) && StartsNode(event) && NoneEnded(parser.produced)
      modifies this, parser
      ensures !r.Composed? ==> Halted(parser.tokens, old(parser.produced), parser.produced)
      ensures r.Composed? ==> old(parser.produced) <= parser.produced && NoneEnded(parser.produced)
      ensures !r.Unexpected?
      ensures r.Composed? ==> Left() < old(Left()) && At(AtNode(open + [Key]))
      ensures r.Composed? ==> Consumed(old(parser.produced), KeyValueEvents(p), parser.produced)
      ensures r.Composed? ==> r.value == KeyValueNodes(p, old(number)) && anchors == KeyValueAnchored(old(anchors), p, old(number))
      decreases Left(), 2
    {
      hide Left, Measure, Shape, Where, AcceptAll, Consumed, Before, Completed, Halted, NoneEnded, After, Stuck, Step, NodeEvents, NodeOf, Anchored;
      CompletedPair(open);
      var k, key := ParseNode(open + [Key]);
      p := Pair(key, key);
      if !k.Composed? {
        return Failed, p;
      }
      ghost var between := parser.produced;
      ConsumedLength(old(parser.produced), NodeEvents(key), between);
      NextEvent(open + [Value]);
      var v, value := ParseNode(open + [Value]);
      if !v.Composed? {
        HaltedLater(parser.tokens, old(parser.produced), between, parser.produced);
        return Failed, p;
      }
      p := Pair(key, value);
      ConsumedMore(old(parser.produced), NodeEvents(key), between, NodeEvents(value), parser.produced);
      r := Composed([k.value, v.value]);
    }

    /** The current event has been accepted. */
    lemma Current(p: Position)
      requires At(p)
      ensures Accept(p, event).Some?
    {
      hide Shape, Where, Accept;
    }

    lemma NextEvent(open: seq<Frame>)
      requires At(AtNode(open))
      ensures StartsNode(event) || event.SequenceEnd? || event.MappingEnd?
      ensures open == [] ==> StartsNode(event)
      ensures open != [] && open[|open| - 1] == Item ==> StartsNode(event) || event.SequenceEnd?
      ensures open != [] && open[|open| - 1] == Key ==> StartsNode(event) || event.MappingEnd?
      ensures open != [] && open[|open| - 1] == Value ==> StartsNode(event)
    {
      hide Shape, Where;
      NextInside(open, event);
    }
  }

  lemma CompletedItem(open: seq<Frame>)
    ensures Completed(open + [Item]) == AtNode(open + [Item])
  {
  }

  /** The current event has been accepted, and unless it is STREAM-END there are more to come. */
  lemma ReadAlready(tokens: seq<Token>, s: Snap, events: seq<Event>, p: Position)
    requires Shape(tokens, s) && Before(events, p) && AcceptAll(AtStart, events) == Some(Where(s))
    ensures Accept(p, events[|events| - 1]) == Some(Where(s))
    ensures !events[|events| - 1].StreamEnd? ==> s.state != EndState
  {
    hide Shape, Where, Accept;
    if !events[|events| - 1].StreamEnd? {
      NotYetAtEnd(p, events[|events| - 1], s);
    }
  }

  lemma AtFirst(tokens: seq<Token>, s: Snap)
    requires Shape(tokens, s) && AcceptAll(AtStart, []) == Some(Where(s))
    ensures s.state != EndState && Where(s) == AtStart
  {
  }

  lemma AtFirstEvent(tokens: seq<Token>, s: Snap, e: Event)
    requires Shape(tokens, s) && Accept(AtStart, e) == Some(Where(s))
    ensures e == StreamStart && Measure(tokens, s) >= 0
  {
  }

  lemma FirstOnly(e: Event)
    requires e == StreamStart
    ensures Before([] + [e], AtStart) && Accept(AtStart, e) == Some(BetweenDocuments) && NoneEnded([] + [e])
  {
    assert [e][..0] == [];
  }

  lemma TwoOnly(es: seq<Event>)
    ensures Consumed([StreamStart], [StreamStart], es) ==> |es| == 2 && es[0] == StreamStart
  {
    assert [StreamStart][..0] == [];
    assert es != [] ==> es == es[..|es| - 1] + [es[|es| - 1]];
  }

  lemma HaltedAtOnce(tokens: seq<Token>)
    requires Stuck(tokens, [])
    ensures Halted(tokens, [], [])
  {
  }

  lemma AtDocumentsEnd(e: Event)
    requires Accept(Completed([]), e).Some?
    ensures e.DocumentEnd?
  {
  }

  /** The events of a first document and one more, or of a stream without documents. */
  ghost predicate FirstDocument(es: seq<Event>) {
    || es == [StreamStart, StreamEnd]
    || exists t, start, end, next :: es == [StreamStart] + DocumentEvents(Document(start, t, end)) + [next]
  }

  /** A parser that got stuck within the first document does not deliver it. */
  lemma NotDelivered(tokens: seq<Token>, es: seq<Event>)
    requires Stuck(tokens, es) && NoneEnded(es) && (|es| >= 2 ==> es[1].DocumentStart?)
    ensures forall fs :: FirstDocument(fs) ==> After(tokens, Initial, fs) == None
  {
    hide After, Step, DocumentEvents;
    forall fs | FirstDocument(fs) && After(tokens, Initial, fs).Some? ensures false {
      DocumentEnds(fs);
      if |fs| <= |es| {
        SameDelivered(tokens, Initial, fs, es);
      } else {
        StuckIs(tokens, es);
        SameDelivered(tokens, Initial, es, fs);
        NoneBehind(tokens, Initial, es, fs);
      }
    }
  }

  lemma DocumentEnds(es: seq<Event>)
    requires FirstDocument(es)
    ensures es == [StreamStart, StreamEnd] || (|es| >= 3 && es[|es| - 2].DocumentEnd?)
  {
    hide NodeEvents;
  }

  lemma StuckIs(tokens: seq<Token>, es: seq<Event>)
    requires Stuck(tokens, es)
    ensures After(tokens, Initial, es).Some? && Step(tokens, After(tokens, Initial, es).value) == None
  {
  }

  /** The parser delivers the same events from the same tokens. */
  lemma {:induction false} SameDelivered(tokens: seq<Token>, p: Snap, a: seq<Event>, b: seq<Event>)
    requires After(tokens, p, a).Some? && After(tokens, p, b).Some? && |a| <= |b|
    ensures a <= b
    decreases |b|
  {
    hide Step;
    if |a| < |b| {
      assert b[..|b| - 1] <= b;
      SameDelivered(tokens, p, a, b[..|b| - 1]);
    } else if a != [] {
      SameDelivered(tokens, p, a[..|a| - 1], b[..|b| - 1]);
      assert a[..|a| - 1] == b[..|b| - 1];
      assert a == a[..|a| - 1] + [a[|a| - 1]] && b == b[..|b| - 1] + [b[|b| - 1]];
    }
  }

  /** And none where it is stuck. */
  lemma {:induction false} NoneBehind(tokens: seq<Token>, p: Snap, a: seq<Event>, b: seq<Event>)
    requires After(tokens, p, a).Some? && Step(tokens, After(tokens, p, a).value) == None
    requires a <= b && After(tokens, p, b).Some?
    ensures a == b
    decreases |b|
  {
    hide Step;
    if |a| < |b| {
      assert a <= b[..|b| - 1];
      NoneBehind(tokens, p, a, b[..|b| - 1]);
    }
  }

  /** The first document, if there is one, of the tokens: what Unmarshal decodes. It fails exactly if the parser does not
      deliver this document and one event behind it. No event is ever unexpected. */
  method Compose(tokens: seq<Token>) returns (r: Outcome<Option<Doc>>, ghost events: seq<Event>)
    ensures !r.Unexpected?
    ensures r.Composed? ==> StreamPrefix(events) && After(tokens, Initial, events).Some? && FirstDocument(events)
    ensures r == Failed ==> forall es :: FirstDocument(es) ==> After(tokens, Initial, es) == None
    ensures r == Composed(None) ==> events == [StreamStart, StreamEnd]
    ensures r.Composed? && r.value.Some? ==> exists t, start, end, next ::
      && events == [StreamStart] + DocumentEvents(Document(start, t, end)) + [next]
      && r.value.value == Doc(NodeOf(t, 2), Anchored(map[], t, 2))
  {
    hide Shape, Where, AcceptAll, StreamPrefix, DocumentEvents, NodeOf, Anchored, Measure, After, Step, Stuck, NoneEnded;
    var parser := new Parser(tokens);
    var composer := new Composer(parser);
    events := [];
    var ok := composer.Start();
    if !ok {
      NotDelivered(tokens, parser.produced);
      return Failed, events;
    }
    composer.Current(BetweenDocuments);
    BetweenEvent(composer.event);
    events := parser.produced;
    if composer.event.StreamEnd? {
      PrefixIsAccepted(events);
      return Composed(None), events;
    }
    ghost var start := composer.event.implicit;
    var doc, t, end := composer.ParseDocument();
    if !doc.Composed? {
      assert parser.produced[1] == events[1];
      NotDelivered(tokens, parser.produced);
      return Failed, events;
    }
    ghost var before := events;
    events := parser.produced;
    PrefixIsAccepted(events);
    assert before[..1] == [StreamStart];
    assert events == [StreamStart] + DocumentEvents(Document(start, t, end)) + [events[|events| - 1]];
    r := Composed(Some(doc.value));
  }

  lemma BetweenEvent(e: Event)
    requires Accept(BetweenDocuments, e).Some?
    ensures e.DocumentStart? || e.StreamEnd?
  {
  }

  // ---- the nodes of a document are those of its events

  const BLANK := Props(None, "", true)

  /** What a node keeps of its event: not the anchor, nor the style. */
  function Kept(e: Event): (r: Event) {
    match e
    case Scalar(props, value, _, _) => Scalar(Props(None, props.tag, props.implicit), value, false, false)
    case SequenceStart(_, _) => SequenceStart(BLANK, false)
    case MappingStart(_, _) => MappingStart(BLANK, false)
    case _ => e
  }

  function KeptAll(es: seq<Event>): (r: seq<Event>) {
    seq(|es|, i requires 0 <= i < |es| => Kept(es[i]))
  }

  /** A node told from its start to its end. */
  function Told(n: Node): (r: seq<Event>)
    decreases n, 1
  {
    match n
    case ScalarNode(_, tag, value, implicit) => [Scalar(Props(None, tag, implicit), value, false, false)]
    case AliasNode(_, name) => [Alias(name)]
    case SequenceNode(_, children) => [SequenceStart(BLANK, false)] + ToldAll(children) + [SequenceEnd]
    case MappingNode(_, children) => [MappingStart(BLANK, false)] + ToldAll(children) + [MappingEnd]
  }

  function ToldAll(ns: seq<Node>): (r: seq<Event>)
    decreases ns, 0
  {
    if ns == [] then [] else ToldAll(ns[..|ns| - 1]) + Told(ns[|ns| - 1])
  }

  lemma {:induction false} ToldConcat(a: seq<Node>, b: seq<Node>)
    ensures ToldAll(a + b) == ToldAll(a) + ToldAll(b)
    decreases |b|
  {
    hide Told;
    if b == [] {
      assert a + b == a;
    } else {
      ToldConcat(a, b[..|b| - 1]);
      assert (a + b)[..|a + b| - 1] == a + b[..|b| - 1];
    }
  }

  lemma ToldOne(n: Node)
    ensures ToldAll([n]) == Told(n)
  {
    hide Told;
    assert [n][..0] == [];
  }

  lemma KeptConcat(a: seq<Event>, b: seq<Event>)
    ensures KeptAll(a + b) == KeptAll(a) + KeptAll(b)
  {
    hide Kept;
  }

  lemma KeptBetween(first: Event, es: seq<Event>, last: Event)
    ensures KeptAll([first] + es + [last]) == [Kept(first)] + KeptAll(es) + [Kept(last)]
  {
    hide Kept;
  }

  lemma KeptOne(e: Event)
    ensures KeptAll([e]) == [Kept(e)]
  {
  }

  /** A document's nodes have its events' tags, values and names, in the structure of these. */
  lemma {:induction false} ToldIsKept(t: Tree, n: nat)
    ensures Told(NodeOf(t, n)) == KeptAll(NodeEvents(t))
    decreases t, 1
  {
    hide KeptAll, ItemNodes, PairNodes, ItemEvents, PairEvents, ToldAll;
    match t {
      case AliasTree(name) => KeptOne(Alias(name));
      case ScalarTree(props, value, quoted, plain) => KeptOne(Scalar(props, value, quoted, plain));
      case SequenceTree(props, flow, items) =>
        ItemsTold(items, n + 1);
        KeptBetween(SequenceStart(props, flow), ItemEvents(items), SequenceEnd);
      case MappingTree(props, flow, pairs) =>
        PairsTold(pairs, n + 1);
        KeptBetween(MappingStart(props, flow), PairEvents(pairs), MappingEnd);
    }
  }

  lemma {:induction false} ItemsTold(items: seq<Tree>, n: nat)
    ensures ToldAll(ItemNodes(items, n)) == KeptAll(ItemEvents(items))
    decreases items, 0
  {
    hide NodeOf, NodeEvents, Kept, Told;
    if items != [] {
      var init, last := items[..|items| - 1], items[|items| - 1];
      var k := n + |ItemEvents(init)|;
      ItemsTold(init, n);
      ToldIsKept(last, k);
      ToldConcat(ItemNodes(init, n), [NodeOf(last, k)]);
      ToldOne(NodeOf(last, k));
      KeptConcat(ItemEvents(init), NodeEvents(last));
    }
  }

  lemma {:induction false} PairsTold(pairs: seq<Pair>, n: nat)
    ensures ToldAll(PairNodes(pairs, n)) == KeptAll(PairEvents(pairs))
    decreases pairs, 0
  {
    hide NodeOf, NodeEvents, Kept, Told, KeyValueNodes, KeyValueEvents;
    if pairs != [] {
      var init, last := pairs[..|pairs| - 1], pairs[|pairs| - 1];
      var k := n + |PairEvents(init)|;
      PairsTold(init, n);
      KeyValueTold(last, k);
      ToldConcat(PairNodes(init, n), KeyValueNodes(last, k));
      KeptConcat(PairEvents(init), KeyValueEvents(last));
    }
  }

  lemma {:induction false} KeyValueTold(p: Pair, n: nat)
    ensures ToldAll(KeyValueNodes(p, n)) == KeptAll(KeyValueEvents(p))
    decreases p, 2
  {
    hide NodeOf, NodeEvents, Kept, Told, ToldAll;
    match p case Pair(key, value) =>
      var k := n + |NodeEvents(key)|;
      ToldIsKept(key, n);
      ToldIsKept(value, k);
      ToldConcat([NodeOf(key, n)], [NodeOf(value, k)]);
      ToldOne(NodeOf(key, n));
      ToldOne(NodeOf(value, k));
      assert [NodeOf(key, n)] + [NodeOf(value, k)] == [NodeOf(key, n), NodeOf(value, k)];
      KeptConcat(NodeEvents(key), NodeEvents(value));
  }

  // ---- what the anchors of a document refer to

  ghost predicate Occurs(m: Node, root: Node)
    decreases root, 1
  {
    || m == root
    || match root
       case SequenceNode(_, children) => OccursIn(m, children)
       case MappingNode(_, children) => OccursIn(m, children)
       case _ => false
  }

  ghost predicate OccursIn(m: Node, nodes: seq<Node>)
    decreases nodes, 0
  {
    nodes != [] && (OccursIn(m, nodes[..|nodes| - 1]) || Occurs(m, nodes[|nodes| - 1]))
  }

  lemma {:induction false} OccursInEither(m: Node, a: seq<Node>, b: seq<Node>)
    ensures OccursIn(m, a + b) <==> OccursIn(m, a) || OccursIn(m, b)
    decreases |b|
  {
    if b == [] {
      assert a + b == a;
    } else {
      OccursInEither(m, a, b[..|b| - 1]);
      assert (a + b)[..|a + b| - 1] == a + b[..|b| - 1];
    }
  }

  lemma OccursInOne(m: Node, a: Node)
    ensures OccursIn(m, [a]) <==> Occurs(m, a)
  {
    hide Occurs;
    assert [a][..0] == [];
  }

  lemma OccursInTwo(m: Node, a: Node, b: Node)
    ensures OccursIn(m, [a, b]) <==> Occurs(m, a) || Occurs(m, b)
  {
    OccursInOne(m, a);
    OccursInOne(m, b);
    OccursInEither(m, [a], [b]);
    assert [a] + [b] == [a, b];
  }

  lemma {:induction false} NumbersInRange(t: Tree, n: nat, m: Node)
    requires Occurs(m, NodeOf(t, n))
    ensures n <= m.number < n + |NodeEvents(t)|
    decreases t, 1
  {
    match t {
      case SequenceTree(_, _, items) => if m != NodeOf(t, n) { ItemNumbersInRange(items, n + 1, m); }
      case MappingTree(_, _, pairs) => if m != NodeOf(t, n) { PairNumbersInRange(pairs, n + 1, m); }
      case _ =>
    }
  }

  lemma {:induction false} ItemNumbersInRange(items: seq<Tree>, n: nat, m: Node)
    requires OccursIn(m, ItemNodes(items, n))
    ensures n <= m.number < n + |ItemEvents(items)|
    decreases items, 0
  {
    if items != [] {
      var init, last := items[..|items| - 1], items[|items| - 1];
      var k := n + |ItemEvents(init)|;
      hide OccursIn, Occurs, NodeOf;
      OccursInEither(m, ItemNodes(init, n), [NodeOf(last, k)]);
      OccursInOne(m, NodeOf(last, k));
      if OccursIn(m, ItemNodes(init, n)) {
        ItemNumbersInRange(init, n, m);
      } else {
        NumbersInRange(last, k, m);
      }
    }
  }

  lemma {:induction false} PairNumbersInRange(pairs: seq<Pair>, n: nat, m: Node)
    requires OccursIn(m, PairNodes(pairs, n))
    ensures n <= m.number < n + |PairEvents(pairs)|
    decreases pairs, 0
  {
    if pairs != [] {
      var init, last := pairs[..|pairs| - 1], pairs[|pairs| - 1];
      var k := n + |PairEvents(init)|;
      hide OccursIn, Occurs, KeyValueNodes, KeyValueEvents;
      OccursInEither(m, PairNodes(init, n), KeyValueNodes(last, k));
      if OccursIn(m, PairNodes(init, n)) {
        PairNumbersInRange(init, n, m);
      } else {
        KeyValueNumbersInRange(last, k, m);
      }
    }
  }

  lemma {:induction false} KeyValueNumbersInRange(p: Pair, n: nat, m: Node)
    requires OccursIn(m, KeyValueNodes(p, n))
    ensures n <= m.number < n + |KeyValueEvents(p)|
    decreases p, 2
  {
    match p {
      case Pair(key, value) =>
        OccursInTwo(m, NodeOf(key, n), NodeOf(value, n + |NodeEvents(key)|));
        hide NodeOf, Occurs, OccursIn, NodeEvents;
        if Occurs(m, NodeOf(key, n)) {
          NumbersInRange(key, n, m);
        } else {
          NumbersInRange(value, n + |NodeEvents(key)|, m);
        }
    }
  }

  /** Different nodes of a document have different numbers. */
  lemma {:induction false} NumbersDiffer(t: Tree, n: nat, a: Node, b: Node)
    requires Occurs(a, NodeOf(t, n)) && Occurs(b, NodeOf(t, n)) && a.number == b.number
    ensures a == b
    decreases t, 1
  {
    var root := NodeOf(t, n);
    match t {
      case SequenceTree(_, _, items) =>
        if a != root { ItemNumbersInRange(items, n + 1, a); }
        if b != root { ItemNumbersInRange(items, n + 1, b); }
        if a != root && b != root { ItemNumbersDiffer(items, n + 1, a, b); }
      case MappingTree(_, _, pairs) =>
        if a != root { PairNumbersInRange(pairs, n + 1, a); }
        if b != root { PairNumbersInRange(pairs, n + 1, b); }
        if a != root && b != root { PairNumbersDiffer(pairs, n + 1, a, b); }
      case _ =>
    }
  }

  lemma {:induction false} ItemNumbersDiffer(items: seq<Tree>, n: nat, a: Node, b: Node)
    requires OccursIn(a, ItemNodes(items, n)) && OccursIn(b, ItemNodes(items, n)) && a.number == b.number
    ensures a == b
    decreases items, 0
  {
    if items != [] {
      var init, last := items[..|items| - 1], items[|items| - 1];
      var k := n + |ItemEvents(init)|;
      hide OccursIn, Occurs, NodeOf;
      forall m | m in {a, b}
        ensures OccursIn(m, ItemNodes(init, n)) || Occurs(m, NodeOf(last, k))
        ensures OccursIn(m, ItemNodes(init, n)) ==> m.number < k
        ensures Occurs(m, NodeOf(last, k)) ==> m.number >= k
      {
        OccursInEither(m, ItemNodes(init, n), [NodeOf(last, k)]);
        OccursInOne(m, NodeOf(last, k));
        if OccursIn(m, ItemNodes(init, n)) { ItemNumbersInRange(init, n, m); }
        if Occurs(m, NodeOf(last, k)) { NumbersInRange(last, k, m); }
      }
      if OccursIn(a, ItemNodes(init, n)) {
        ItemNumbersDiffer(init, n, a, b);
      } else {
        NumbersDiffer(last, k, a, b);
      }
    }
  }

  lemma {:induction false} PairNumbersDiffer(pairs: seq<Pair>, n: nat, a: Node, b: Node)
    requires OccursIn(a, PairNodes(pairs, n)) && OccursIn(b, PairNodes(pairs, n)) && a.number == b.number
    ensures a == b
    decreases pairs, 0
  {
    if pairs != [] {
      var init, last := pairs[..|pairs| - 1], pairs[|pairs| - 1];
      var k := n + |PairEvents(init)|;
      hide OccursIn, Occurs, KeyValueNodes, KeyValueEvents;
      forall m | m in {a, b}
        ensures OccursIn(m, PairNodes(init, n)) || OccursIn(m, KeyValueNodes(last, k))
        ensures OccursIn(m, PairNodes(init, n)) ==> m.number < k
        ensures OccursIn(m, KeyValueNodes(last, k)) ==> m.number >= k
      {
        OccursInEither(m, PairNodes(init, n), KeyValueNodes(last, k));
        if OccursIn(m, PairNodes(init, n)) { PairNumbersInRange(init, n, m); }
        if OccursIn(m, KeyValueNodes(last, k)) { KeyValueNumbersInRange(last, k, m); }
      }
      if OccursIn(a, PairNodes(init, n)) {
        PairNumbersDiffer(init, n, a, b);
      } else {
        KeyValueNumbersDiffer(last, k, a, b);
      }
    }
  }

  lemma {:induction false} KeyValueNumbersDiffer(p: Pair, n: nat, a: Node, b: Node)
    requires OccursIn(a, KeyValueNodes(p, n)) && OccursIn(b, KeyValueNodes(p, n)) && a.number == b.number
    ensures a == b
    decreases p, 2
  {
    match p {
      case Pair(key, value) =>
        var k := n + |NodeEvents(key)|;
        forall m | m in {a, b}
          ensures Occurs(m, NodeOf(key, n)) || Occurs(m, NodeOf(value, k))
          ensures Occurs(m, NodeOf(key, n)) ==> m.number < k
          ensures Occurs(m, NodeOf(value, k)) ==> m.number >= k
        {
          OccursInTwo(m, NodeOf(key, n), NodeOf(value, k));
          hide Occurs, NodeOf;
          if Occurs(m, NodeOf(key, n)) { NumbersInRange(key, n, m); }
          if Occurs(m, NodeOf(value, k)) { NumbersInRange(value, k, m); }
        }
        hide Occurs, NodeOf;
        if Occurs(a, NodeOf(key, n)) {
          NumbersDiffer(key, n, a, b);
        } else {
          NumbersDiffer(value, k, a, b);
        }
    }
  }

  /** `name` is either left as it was or refers to a node among `nodes` that is not an alias. */
  ghost predicate AnchorPlaced(m: map<string, nat>, m': map<string, nat>, name: string, nodes: seq<Node>) {
    name in m' ==>
      || (name in m && m[name] == m'[name])
      || exists a :: OccursIn(a, nodes) && a.number == m'[name] && !a.AliasNode?
  }

  lemma PlacedMore(m: map<string, nat>, m': map<string, nat>, m'': map<string, nat>, name: string, a: seq<Node>, b: seq<Node>)
    requires AnchorPlaced(m, m', name, a) && AnchorPlaced(m', m'', name, b)
    ensures AnchorPlaced(m, m'', name, a + b)
  {
    forall x: Node ensures OccursIn(x, a + b) <==> OccursIn(x, a) || OccursIn(x, b) {
      OccursInEither(x, a, b);
    }
    hide OccursIn;
  }

  lemma PlacedInside(m: map<string, nat>, props: Props, m': map<string, nat>, name: string, root: Node)
    requires root.SequenceNode? || root.MappingNode?
    requires AnchorPlaced(Enter(m, props, root.number), m', name, root.children)
    ensures AnchorPlaced(m, m', name, [root])
  {
    OccursInOne(root, root);
    forall x: Node | OccursIn(x, root.children) ensures OccursIn(x, [root]) {
      OccursInOne(x, root);
    }
    assert Occurs(root, root);
    hide OccursIn, Occurs;
  }

  /** Every anchor of a document refers to a node of the document, never to an alias. */
  lemma {:induction false} AnchorsAreNodes(m: map<string, nat>, t: Tree, n: nat, name: string)
    ensures AnchorPlaced(m, Anchored(m, t, n), name, [NodeOf(t, n)])
    decreases t, 1
  {
    match t {
      case AliasTree(_) =>
      case ScalarTree(props, value, _, _) =>
        OccursInOne(NodeOf(t, n), NodeOf(t, n));
      case SequenceTree(props, _, items) =>
        ItemAnchorsAreNodes(Enter(m, props, n), items, n + 1, name);
        hide AnchorPlaced;
        PlacedInside(m, props, Anchored(m, t, n), name, NodeOf(t, n));
      case MappingTree(props, _, pairs) =>
        PairAnchorsAreNodes(Enter(m, props, n), pairs, n + 1, name);
        hide AnchorPlaced;
        PlacedInside(m, props, Anchored(m, t, n), name, NodeOf(t, n));
    }
  }

  lemma {:induction false} ItemAnchorsAreNodes(m: map<string, nat>, items: seq<Tree>, n: nat, name: string)
    ensures AnchorPlaced(m, ItemsAnchored(m, items, n), name, ItemNodes(items, n))
    decreases items, 0
  {
    if items != [] {
      var init, last := items[..|items| - 1], items[|items| - 1];
      hide AnchorPlaced;
      var m', k := ItemsAnchored(m, init, n), n + |ItemEvents(init)|;
      ItemAnchorsAreNodes(m, init, n, name);
      AnchorsAreNodes(m', last, k, name);
      PlacedMore(m, m', Anchored(m', last, k), name, ItemNodes(init, n), [NodeOf(last, k)]);
    }
  }

  lemma {:induction false} PairAnchorsAreNodes(m: map<string, nat>, pairs: seq<Pair>, n: nat, name: string)
    ensures AnchorPlaced(m, PairsAnchored(m, pairs, n), name, PairNodes(pairs, n))
    decreases pairs, 0
  {
    if pairs != [] {
      var init, last := pairs[..|pairs| - 1], pairs[|pairs| - 1];
      hide AnchorPlaced;
      var m', k := PairsAnchored(m, init, n), n + |PairEvents(init)|;
      PairAnchorsAreNodes(m, init, n, name);
      KeyValueAnchorsAreNodes(m', last, k, name);
      PlacedMore(m, m', KeyValueAnchored(m', last, k), name, PairNodes(init, n), KeyValueNodes(last, k));
    }
  }

  lemma {:induction false} KeyValueAnchorsAreNodes(m: map<string, nat>, p: Pair, n: nat, name: string)
    ensures AnchorPlaced(m, KeyValueAnchored(m, p, n), name, KeyValueNodes(p, n))
    decreases p, 2
  {
    match p {
      case Pair(key, value) =>
        hide AnchorPlaced;
        var m', k := Anchored(m, key, n), n + |NodeEvents(key)|;
        AnchorsAreNodes(m, key, n, name);
        AnchorsAreNodes(m', value, k, name);
        PlacedMore(m, m', Anchored(m', value, k), name, [NodeOf(key, n)], [NodeOf(value, k)]);
        assert [NodeOf(key, n)] + [NodeOf(value, k)] == KeyValueNodes(p, n);
    }
  }

  /** In a composed document an anchor refers to exactly one node, and that is not an alias. */
  lemma AnchorRefers(t: Tree, n: nat, name: string) returns (a: Node)
    requires name in Anchored(map[], t, n)
    ensures Occurs(a, NodeOf(t, n)) && a.number == Anchored(map[], t, n)[name] && !a.AliasNode?
    ensures forall b :: Occurs(b, NodeOf(t, n)) && b.number == a.number ==> b == a
  {
    var root := NodeOf(t, n);
    AnchorsAreNodes(map[], t, n, name);
    hide Occurs, OccursIn;
    a :| OccursIn(a, [root]) && a.number == Anchored(map[], t, n)[name] && !a.AliasNode?;
    OccursInOne(a, root);
    forall b | Occurs(b, root) && b.number == a.number ensures b == a {
      NumbersDiffer(t, n, a, b);
    }
  }
}
