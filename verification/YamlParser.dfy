/** The parser: a pushdown machine that turns tokens into events.

    The scanner appears as a list of tokens that it delivers one after the
    other; asking for a token beyond the list is a scanner error. Marks are
    reduced to the number of the token they come from. */
module YamlParser {
  import opened Basics
  import opened YamlEvents
  import opened YamlTokens

  datatype State =
    | StreamStartState | ImplicitDocumentStart | DocumentStartState | DocumentContent | DocumentEndState
    | BlockNode | BlockNodeOrIndentlessSequence | FlowNode
    | BlockSequenceFirstEntry | BlockSequenceEntry | IndentlessSequenceEntry
    | BlockMappingFirstKey | BlockMappingKey | BlockMappingValue
    | FlowSequenceFirstEntry | FlowSequenceEntry
    | FlowSequenceEntryMappingKey | FlowSequenceEntryMappingValue | FlowSequenceEntryMappingEnd
    | FlowMappingFirstKey | FlowMappingKey | FlowMappingValue | FlowMappingEmptyValue
    | EndState

  datatype TagDirective = TagDirective(handle: string, prefix: string)

  // ---- what a state stands for

  /** States that are pushed to be returned to when a node is complete. */
  predicate Returnable(s: State) {
    s.BlockSequenceEntry? || s.IndentlessSequenceEntry? || s.BlockMappingKey? || s.BlockMappingValue?
    || s.FlowSequenceEntry? || s.FlowSequenceEntryMappingValue? || s.FlowSequenceEntryMappingEnd?
    || s.FlowMappingKey? || s.FlowMappingValue? || s.FlowMappingEmptyValue?
  }

  /** The open collections that `s` stands for while the node it was pushed for is being parsed. */
  function Pending(s: State): (r: seq<Frame>) {
    match s
    case BlockSequenceEntry => [Item]
    case IndentlessSequenceEntry => [Item]
    case FlowSequenceEntry => [Item]
    case BlockMappingValue => [Key]
    case FlowMappingValue => [Key]
    case FlowMappingEmptyValue => [Key]
    case BlockMappingKey => [Value]
    case FlowMappingKey => [Value]
    case FlowSequenceEntryMappingValue => [Item, Key]
    case FlowSequenceEntryMappingEnd => [Item, Value]
    case _ => []
  }

  function PendingAll(states: seq<State>): (r: seq<Frame>) {
    if states == [] then [] else PendingAll(states[..|states| - 1]) + Pending(states[|states| - 1])
  }

  /** The collections `s` itself is inside of, as the current state. */
  function Inside(s: State): (r: seq<Frame>) {
    match s
    case BlockSequenceFirstEntry => [Item]
    case BlockSequenceEntry => [Item]
    case IndentlessSequenceEntry => [Item]
    case FlowSequenceFirstEntry => [Item]
    case FlowSequenceEntry => [Item]
    case BlockMappingFirstKey => [Key]
    case BlockMappingKey => [Key]
    case FlowMappingFirstKey => [Key]
    case FlowMappingKey => [Key]
    case BlockMappingValue => [Value]
    case FlowMappingValue => [Value]
    case FlowMappingEmptyValue => [Value]
    case FlowSequenceEntryMappingKey => [Item, Key]
    case FlowSequenceEntryMappingValue => [Item, Value]
    case FlowSequenceEntryMappingEnd => [Item, Key]
    case _ => []
  }

  /** Where in the event grammar the parser is. */
  function Expect(s: State, states: seq<State>): (r: Position) {
    match s
    case StreamStartState => AtStart
    case ImplicitDocumentStart => BetweenDocuments
    case DocumentStartState => BetweenDocuments
    case DocumentEndState => AtDocumentEnd
    case EndState => AtEnd
    case _ => AtNode(PendingAll(states) + Inside(s))
  }

  predicate FirstState(s: State) {
    s.BlockSequenceFirstEntry? || s.BlockMappingFirstKey? || s.FlowSequenceFirstEntry? || s.FlowMappingFirstKey?
  }

  /** Inside a document: the bottom state ends it, and the others are inside collections. */
  predicate StackOk(states: seq<State>) {
    && states != [] && states[0] == DocumentEndState
    && forall i | 1 <= i < |states| :: Returnable(states[i])
  }

  predicate StatesOk(s: State, states: seq<State>) {
    match s
    case StreamStartState => states == []
    case ImplicitDocumentStart => states == []
    case DocumentStartState => states == []
    case DocumentEndState => states == []
    case EndState => states == []
    // never entered
    case FlowNode => false
    case BlockNodeOrIndentlessSequence => false
    case DocumentContent => StackOk(states) && |states| == 1
    case BlockNode => StackOk(states) && |states| == 1
    case _ => StackOk(states)
  }

  /** Each collection entered through a first state keeps one mark until it ends. */
  function MarksFor(s: State): (r: nat) {
    if (Returnable(s) && s != IndentlessSequenceEntry) || s == FlowSequenceEntryMappingKey then 1 else 0
  }

  function MarksForAll(states: seq<State>): (r: nat) {
    if states == [] then 0 else MarksForAll(states[..|states| - 1]) + MarksFor(states[|states| - 1])
  }

  /** How much can still happen in `s` without a token being consumed. */
  function Weight(s: State): (r: nat) {
    match s
    case ImplicitDocumentStart => 5
    case FlowSequenceEntryMappingKey => 5
    case FlowSequenceEntryMappingValue => 3
    case DocumentEndState => 2
    case DocumentContent => 2
    case BlockNode => 2
    case FlowSequenceEntryMappingEnd => 2
    case BlockMappingValue => 2
    case FlowMappingValue => 2
    case FlowMappingEmptyValue => 2
    case EndState => 0
    case _ => 1
  }

  function WeightAll(states: seq<State>): (r: nat) {
    if states == [] then 0 else WeightAll(states[..|states| - 1]) + Weight(states[|states| - 1])
  }

  lemma Pushed(states: seq<State>, s: State)
    ensures PendingAll(states + [s]) == PendingAll(states) + Pending(s)
    ensures MarksForAll(states + [s]) == MarksForAll(states) + MarksFor(s)
    ensures WeightAll(states + [s]) == WeightAll(states) + Weight(s)
  {
    assert (states + [s])[..|states|] == states;
  }

  lemma CompletedOn(p: seq<Frame>, top: State)
    requires Returnable(top)
    ensures Completed(p + Pending(top)) == AtNode(p + Inside(top))
  {
    var q := p + Pending(top);
    match top {
      case FlowSequenceEntryMappingValue => assert q[|q| - 1 := Value] == p + [Item, Value];
      case FlowSequenceEntryMappingEnd => assert q[|q| - 1 := Key] == p + [Item, Key];
      case BlockMappingValue => assert q[|q| - 1 := Value] == p + [Value];
      case FlowMappingValue => assert q[|q| - 1 := Value] == p + [Value];
      case FlowMappingEmptyValue => assert q[|q| - 1 := Value] == p + [Value];
      case BlockMappingKey => assert q[|q| - 1 := Key] == p + [Key];
      case FlowMappingKey => assert q[|q| - 1 := Key] == p + [Key];
      case _ =>
    }
  }

  lemma SumsPopped(states: seq<State>)
    requires states != []
    ensures var top, rest := states[|states| - 1], states[..|states| - 1];
      && PendingAll(states) == PendingAll(rest) + Pending(top)
      && MarksForAll(rest) + MarksFor(top) == MarksForAll(states)
      && WeightAll(rest) + Weight(top) == WeightAll(states)
  {
    hide Pending, MarksFor, Weight;
  }

  lemma ReturnableIs(top: State, rest: seq<State>)
    requires Returnable(top)
    ensures Expect(top, rest) == AtNode(PendingAll(rest) + Inside(top))
    ensures StackOk(rest) ==> StatesOk(top, rest) && !FirstState(top) && top != EndState
  {
    hide PendingAll, Inside, StackOk;
  }

  /** Returning to the state on top of the stack is completing a node. */
  lemma Popped(states: seq<State>)
    requires StackOk(states)
    ensures var top, rest := states[|states| - 1], states[..|states| - 1];
      && Expect(top, rest) == Completed(PendingAll(states))
      && StatesOk(top, rest) && !FirstState(top) && top != EndState
      && MarksForAll(rest) + MarksFor(top) == MarksForAll(states)
      && WeightAll(rest) + Weight(top) == WeightAll(states)
  {
    hide Completed, Inside, MarksFor, Weight, MarksForAll, WeightAll, PendingAll, Returnable;
    var top, rest := states[|states| - 1], states[..|states| - 1];
    SumsPopped(states);
    if |states| == 1 {
      assert PendingAll(rest) == [] by { NonePending(); }
      EmptyCompleted();
    } else {
      hide Pending, Expect, StatesOk, FirstState;
      assert StackOk(rest) && Returnable(top);
      ReturnableIs(top, rest);
      CompletedOn(PendingAll(rest), top);
    }
  }

  lemma NonePending()
    ensures PendingAll([]) == []
  {
  }

  /** Entering a collection. */
  lemma Started(states: seq<State>, s: State)
    requires StackOk(states) && (FirstState(s) || s == IndentlessSequenceEntry)
    ensures StatesOk(s, states) && MarksFor(s) == 0 && Weight(s) == 1 && s != EndState
    ensures Expect(s, states) == AtNode(PendingAll(states) + Inside(s))
  {
  }

  lemma EmptyCompleted()
    ensures Completed([]) == AtDocumentEnd
  {
  }

  /** Ending the collection the parser is inside of is completing a node of the next outer one. */
  lemma CollectionEnds(open: seq<Frame>)
    ensures Accept(AtNode(open + [Item]), SequenceEnd) == Some(Completed(open))
    ensures Accept(AtNode(open + [Key]), MappingEnd) == Some(Completed(open))
  {
    assert (open + [Item])[..|open|] == open && (open + [Key])[..|open|] == open;
  }

  // The single-pair mapping inside a flow sequence.
  const FLOW_PAIR := MappingStart(Props(None, "", true), true)

  lemma FlowPairStarts(open: seq<Frame>)
    ensures Accept(AtNode(open + [Item]), FLOW_PAIR) == Some(AtNode(open + [Item, Key]))
    ensures Accept(AtNode(open + [Item, Key]), MappingEnd) == Some(AtNode(open + [Item]))
  {
    assert (open + [Item]) + [Key] == open + [Item, Key];
    assert (open + [Item, Key])[..|open| + 1] == open + [Item];
  }

  /** The position of the first directive for `handle`, or the number of directives. */
  function FindDirective(ds: seq<TagDirective>, handle: string): (i: nat)
    ensures i <= |ds|
    ensures i < |ds| ==> ds[i].handle == handle
  {
    if ds == [] then 0 else if ds[0].handle == handle then 0 else 1 + FindDirective(ds[1..], handle)
  }

  const EMPTY_SCALAR := Scalar(Props(None, "", true), "", false, true)

  /** Inside the collections of the stack, and then inside `more`. */
  function Inner(states: seq<State>, more: seq<Frame>): Position {
    AtNode(PendingAll(states) + more)
  }

  /** An empty scalar in place of the node that `s` waits for. */
  lemma ReturnTo(states: seq<State>, s: State)
    requires StackOk(states) && Returnable(s)
    ensures StatesOk(s, states) && !FirstState(s) && s != EndState
    ensures Accept(Inner(states, Pending(s)), EMPTY_SCALAR) == Some(Expect(s, states))
  {
    hide StackOk, PendingAll;
    CompletedOn(PendingAll(states), s);
    hide Pending, Inside, Completed;
  }

  // ---- the machine, as a function of the tokens

  // The parser's fields at one moment, as a value.
  datatype Snap = Snap(head: nat, state: State, states: seq<State>, marks: nat, directives: seq<TagDirective>, ended: bool)

  const Initial: Snap := Snap(0, StreamStartState, [], 0, [], false)

  // An event, and the fields behind it.
  datatype Next = Next(event: Event, after: Snap)

  /** The token at hand is taken. */
  function Skipped(tokens: seq<Token>, p: Snap): (r: Snap)
    requires p.head < |tokens|
  {
    p.(head := p.head + 1, ended := tokens[p.head].typ == STREAM_END)
  }

  /** The same, if there is a token behind it. */
  function Advance(tokens: seq<Token>, p: Snap): (r: Option<Snap>)
    requires p.head < |tokens|
    ensures r.Some? ==> r.value.head < |tokens|
  {
    if p.head + 1 < |tokens| then Some(Skipped(tokens, p)) else None
  }

  /** A node is complete with `event`, and its last token goes if `last`. */
  function Complete(tokens: seq<Token>, p: Snap, event: Event, last: bool): (r: Option<Next>) {
    if p.states == [] || (last && p.head >= |tokens|) then None
    else
      var q := p.(state := p.states[|p.states| - 1], states := p.states[..|p.states| - 1]);
      Some(Next(event, if last then Skipped(tokens, q) else q))
  }

  /** The tag that a handle and a suffix stand for; None if the handle is not declared. */
  function Resolve(directives: seq<TagDirective>, handle: string, suffix: string): (r: Option<string>) {
    if handle == "" then Some(suffix)
    else
      var i := FindDirective(directives, handle);
      if i < |directives| && directives[i].prefix + suffix != "" then Some(directives[i].prefix + suffix) else None
  }

  // The properties of a node, and the place behind them; no tag is the empty tag.
  datatype Properties = Properties(anchor: Option<string>, tag: string, after: Snap)

  /** Goes on behind an anchor or a tag. */
  function Tagged(tokens: seq<Token>, p: Snap, anchor: Option<string>): (r: Option<Properties>)
    requires p.head < |tokens|
    ensures r.Some? ==> r.value.after.head < |tokens|
  {
    match Advance(tokens, p)
    case None => None
    case Some(q) =>
      match Resolve(p.directives, tokens[p.head].value, tokens[p.head].suffix)
      case None => None
      case Some(tag) => Some(Properties(anchor, tag, q))
  }

  /** At most one anchor and at most one tag, in either order. */
  function PropertiesAt(tokens: seq<Token>, p: Snap): (r: Option<Properties>)
    requires p.head < |tokens|
    ensures r.Some? ==> r.value.after.head < |tokens|
  {
    var t := tokens[p.head];
    if t.typ == ANCHOR then
      match Advance(tokens, p)
      case None => None
      case Some(q) =>
        if tokens[q.head].typ == TAG then Tagged(tokens, q, Some(t.value)) else Some(Properties(Some(t.value), "", q))
    else if t.typ == TAG then
      if p.head + 1 < |tokens| && tokens[p.head + 1].typ == ANCHOR then
        match Advance(tokens, Skipped(tokens, p))
        case None => None
        case Some(q) =>
          match Resolve(p.directives, t.value, t.suffix)
          case None => None
          case Some(tag) => Some(Properties(Some(tokens[p.head + 1].value), tag, q))
      else Tagged(tokens, p, None)
    else Some(Properties(None, "", p))
  }

  /** The content of a node, behind its properties. */
  function Content(tokens: seq<Token>, p: Snap, block: bool, indentless: bool, anchor: Option<string>, tag: string): (r: Option<Next>)
    requires p.head < |tokens|
  {
    var t := tokens[p.head];
    var props := Props(anchor, tag, tag == "");
    if indentless && t.typ == BLOCK_ENTRY then Some(Next(SequenceStart(props, false), p.(state := IndentlessSequenceEntry)))
    else if t.typ == SCALAR then
      var implicit := (tag == "" && t.plain) || tag == "!";
      Complete(tokens, p, Scalar(props.(implicit := implicit), t.value, !implicit && tag == "", t.plain), true)
    else if t.typ == FLOW_SEQUENCE_START then Some(Next(SequenceStart(props, true), p.(state := FlowSequenceFirstEntry)))
    else if t.typ == FLOW_MAPPING_START then Some(Next(MappingStart(props, true), p.(state := FlowMappingFirstKey)))
    else if block && t.typ == BLOCK_SEQUENCE_START then Some(Next(SequenceStart(props, false), p.(state := BlockSequenceFirstEntry)))
    else if block && t.typ == BLOCK_MAPPING_START then Some(Next(MappingStart(props, false), p.(state := BlockMappingFirstKey)))
    else if (anchor.Some? && anchor.value != "") || tag != "" then Complete(tokens, p, Scalar(props, "", false, true), false)
    else None
  }

  /** A node: the event that it starts with. */
  function Node(tokens: seq<Token>, p: Snap, block: bool, indentless: bool): (r: Option<Next>) {
    if p.head >= |tokens| then None
    else if tokens[p.head].typ == ALIAS then Complete(tokens, p, Alias(tokens[p.head].value), true)
    else
      match PropertiesAt(tokens, p)
      case None => None
      case Some(q) => Content(tokens, q.after, block, indentless, q.anchor, q.tag)
  }

  /** A node, with `s` to come behind it. */
  function Pushing(tokens: seq<Token>, p: Snap, s: State, block: bool, indentless: bool): (r: Option<Next>) {
    Node(tokens, p.(states := p.states + [s]), block, indentless)
  }

  /** An empty scalar in place of a node, and `s` behind it. */
  function Missing(p: Snap, s: State): (r: Option<Next>) {
    Some(Next(EMPTY_SCALAR, p.(state := s)))
  }

  /** Behind an indicator: an empty scalar before one of `stop`, and a node before any other token. */
  function NodeOrEmpty(tokens: seq<Token>, p: Snap, s: State, stop: set<TokenType>, block: bool, indentless: bool): (r: Option<Next>)
    requires p.head < |tokens|
  {
    match Advance(tokens, p)
    case None => None
    case Some(q) => if tokens[q.head].typ in stop then Missing(q, s) else Pushing(tokens, q, s, block, indentless)
  }

  /** A collection ends, and with it the node it is. */
  function Ending(tokens: seq<Token>, p: Snap, event: Event, marked: bool, last: bool): (r: Option<Next>) {
    if marked && p.marks == 0 then None
    else Complete(tokens, p.(marks := p.marks - if marked then 1 else 0), event, last)
  }

  /** The first token of a collection is taken and its mark kept; the next token is there. */
  function Entered(tokens: seq<Token>, p: Snap, first: bool): (r: Option<Snap>)
    ensures r.Some? ==> r.value.head < |tokens|
  {
    if p.head >= |tokens| then None
    else if first then Advance(tokens, p.(marks := p.marks + 1))
    else Some(p)
  }

  function BlockSequenceNext(tokens: seq<Token>, p: Snap, first: bool): (r: Option<Next>) {
    match Entered(tokens, p, first)
    case None => None
    case Some(q) =>
      if tokens[q.head].typ == BLOCK_ENTRY then
        NodeOrEmpty(tokens, q, BlockSequenceEntry, {BLOCK_ENTRY, BLOCK_END}, true, false)
      else if tokens[q.head].typ == BLOCK_END then Ending(tokens, q, SequenceEnd, true, true)
      else None
  }

  function IndentlessSequenceNext(tokens: seq<Token>, p: Snap): (r: Option<Next>) {
    if p.head >= |tokens| then None
    else if tokens[p.head].typ == BLOCK_ENTRY then
      NodeOrEmpty(tokens, p, IndentlessSequenceEntry, {BLOCK_ENTRY, KEY, VALUE, BLOCK_END}, true, false)
    else Ending(tokens, p, SequenceEnd, false, false)
  }

  function BlockMappingKeyNext(tokens: seq<Token>, p: Snap, first: bool): (r: Option<Next>) {
    match Entered(tokens, p, first)
    case None => None
    case Some(q) =>
      if tokens[q.head].typ == KEY then NodeOrEmpty(tokens, q, BlockMappingValue, {KEY, VALUE, BLOCK_END}, true, true)
      else if tokens[q.head].typ == BLOCK_END then Ending(tokens, q, MappingEnd, true, true)
      else None
  }

  function BlockMappingValueNext(tokens: seq<Token>, p: Snap): (r: Option<Next>) {
    if p.head >= |tokens| then None
    else if tokens[p.head].typ == VALUE then NodeOrEmpty(tokens, p, BlockMappingKey, {KEY, VALUE, BLOCK_END}, true, true)
    else Missing(p, BlockMappingKey)
  }

  /** At the first token of a flow collection's next entry, behind the comma in front of it, or at the collection's `end`. */
  function FlowEntryAt(tokens: seq<Token>, p: Snap, first: bool, end: TokenType): (r: Option<Snap>)
    ensures r.Some? ==> r.value.head < |tokens|
  {
    match Entered(tokens, p, first)
    case None => None
    case Some(q) =>
      if first || tokens[q.head].typ == end then Some(q)
      else if tokens[q.head].typ == FLOW_ENTRY then Advance(tokens, q)
      else None
  }

  function FlowSequenceNext(tokens: seq<Token>, p: Snap, first: bool): (r: Option<Next>) {
    match FlowEntryAt(tokens, p, first, FLOW_SEQUENCE_END)
    case None => None
    case Some(q) =>
      if tokens[q.head].typ == KEY then Some(Next(FLOW_PAIR, Skipped(tokens, q.(state := FlowSequenceEntryMappingKey))))
      else if tokens[q.head].typ != FLOW_SEQUENCE_END then Pushing(tokens, q, FlowSequenceEntry, false, false)
      else Ending(tokens, q, SequenceEnd, true, true)
  }

  /** The key of a single pair. Where there is none, the token at hand is taken all the same. */
  function FlowPairKeyNext(tokens: seq<Token>, p: Snap): (r: Option<Next>) {
    if p.head >= |tokens| then None
    else if tokens[p.head].typ in {VALUE, FLOW_ENTRY, FLOW_SEQUENCE_END} then
      Missing(Skipped(tokens, p), FlowSequenceEntryMappingValue)
    else Pushing(tokens, p, FlowSequenceEntryMappingValue, false, false)
  }

  function FlowPairValueNext(tokens: seq<Token>, p: Snap): (r: Option<Next>) {
    if p.head >= |tokens| then None
    else if tokens[p.head].typ == VALUE then
      NodeOrEmpty(tokens, p, FlowSequenceEntryMappingEnd, {FLOW_ENTRY, FLOW_SEQUENCE_END}, false, false)
    else Missing(p, FlowSequenceEntryMappingEnd)
  }

  function FlowPairEndNext(tokens: seq<Token>, p: Snap): (r: Option<Next>) {
    if p.head >= |tokens| then None else Some(Next(MappingEnd, p.(state := FlowSequenceEntry)))
  }

  function FlowMappingKeyNext(tokens: seq<Token>, p: Snap, first: bool): (r: Option<Next>) {
    match FlowEntryAt(tokens, p, first, FLOW_MAPPING_END)
    case None => None
    case Some(q) =>
      if tokens[q.head].typ == KEY then NodeOrEmpty(tokens, q, FlowMappingValue, {VALUE, FLOW_ENTRY, FLOW_MAPPING_END}, false, false)
      else if tokens[q.head].typ != FLOW_MAPPING_END then Pushing(tokens, q, FlowMappingEmptyValue, false, false)
      else Ending(tokens, q, MappingEnd, true, true)
  }

  function FlowMappingValueNext(tokens: seq<Token>, p: Snap, empty: bool): (r: Option<Next>) {
    if p.head >= |tokens| then None
    else if !empty && tokens[p.head].typ == VALUE then
      NodeOrEmpty(tokens, p, FlowMappingKey, {FLOW_ENTRY, FLOW_MAPPING_END}, false, false)
    else Missing(p, FlowMappingKey)
  }

  // ---- documents

  predicate Declared(directives: seq<TagDirective>, handle: string) {
    FindDirective(directives, handle) < |directives|
  }

  const DEFAULT_DIRECTIVES: seq<TagDirective> := [TagDirective("!", "!"), TagDirective("!!", "tag:yaml.org,2002:")]

  /** A default directive, unless its handle is declared. */
  function WithDefault(directives: seq<TagDirective>, d: TagDirective): (r: seq<TagDirective>) {
    if Declared(directives, d.handle) then directives else directives + [d]
  }

  /** Past the directives at hand, with those declared so far; None if one of them is wrong. */
  function Directed(tokens: seq<Token>, p: Snap, version: bool): (r: Option<Snap>)
    ensures r.Some? ==> p.head <= r.value.head < |tokens|
    decreases |tokens| - p.head
  {
    if p.head >= |tokens| then None
    else
      var t := tokens[p.head];
      if t.typ == VERSION_DIRECTIVE then
        if version || t.major != 1 || t.minor != 1 then None else Directed(tokens, Skipped(tokens, p), true)
      else if t.typ == TAG_DIRECTIVE then
        if Declared(p.directives, t.value) then None
        else Directed(tokens, Skipped(tokens, p).(directives := p.directives + [TagDirective(t.value, t.prefix)]), version)
      else
        Some(p.(directives := WithDefault(WithDefault(p.directives, DEFAULT_DIRECTIVES[0]), DEFAULT_DIRECTIVES[1])))
  }

  /** One directive, or the end of the directives. */
  lemma DirectedNext(tokens: seq<Token>, p: Snap, version: bool)
    requires p.head < |tokens|
    ensures var t, o := tokens[p.head], Directed(tokens, p, version);
      if t.typ == VERSION_DIRECTIVE then
        o == if version || t.major != 1 || t.minor != 1 then None else Directed(tokens, Skipped(tokens, p), true)
      else if t.typ == TAG_DIRECTIVE then
        o == if Declared(p.directives, t.value) then None
             else Directed(tokens, Skipped(tokens, p).(directives := WithDefault(p.directives, TagDirective(t.value, t.prefix))), version)
      else
        o == Some(p.(directives := WithDefault(WithDefault(p.directives, DEFAULT_DIRECTIVES[0]), DEFAULT_DIRECTIVES[1])))
  {
    hide FindDirective;
  }

  lemma DirectedNone(tokens: seq<Token>, p: Snap, version: bool)
    ensures p.head >= |tokens| ==> Directed(tokens, p, version) == None
  {
  }

  /** Past the DOCUMENT-ENDs at hand. */
  function PastEnds(tokens: seq<Token>, p: Snap): (r: Option<Snap>)
    ensures r.Some? ==> p.head <= r.value.head < |tokens|
    decreases |tokens| - p.head
  {
    if p.head >= |tokens| then None
    else if tokens[p.head].typ == DOCUMENT_END then PastEnds(tokens, Skipped(tokens, p))
    else Some(p)
  }

  function StreamStartNext(tokens: seq<Token>, p: Snap): (r: Option<Next>) {
    if p.head >= |tokens| || tokens[p.head].typ != STREAM_START then None
    else Some(Next(StreamStart, Skipped(tokens, p.(state := ImplicitDocumentStart))))
  }

  function DocumentStartNext(tokens: seq<Token>, p: Snap, implicit: bool): (r: Option<Next>) {
    match if implicit then (if p.head < |tokens| then Some(p) else None) else PastEnds(tokens, p)
    case None => None
    case Some(q) =>
      if implicit && tokens[q.head].typ !in {VERSION_DIRECTIVE, TAG_DIRECTIVE, DOCUMENT_START, STREAM_END} then ImplicitDocument(tokens, q)
      else if tokens[q.head].typ != STREAM_END then ExplicitDocument(tokens, q)
      else Some(Next(StreamEnd, Skipped(tokens, q.(state := EndState))))
  }

  function ImplicitDocument(tokens: seq<Token>, p: Snap): (r: Option<Next>) {
    match Directed(tokens, p, false)
    case None => None
    case Some(q) => Some(Next(DocumentStart(false), q.(state := BlockNode, states := q.states + [DocumentEndState])))
  }

  function ExplicitDocument(tokens: seq<Token>, p: Snap): (r: Option<Next>) {
    match Directed(tokens, p, false)
    case None => None
    case Some(q) =>
      if tokens[q.head].typ != DOCUMENT_START then None
      else Some(Next(DocumentStart(false), Skipped(tokens, q.(state := DocumentContent, states := q.states + [DocumentEndState]))))
  }

  function DocumentContentNext(tokens: seq<Token>, p: Snap): (r: Option<Next>) {
    if p.head >= |tokens| then None
    else if tokens[p.head].typ in {VERSION_DIRECTIVE, TAG_DIRECTIVE, DOCUMENT_START, DOCUMENT_END, STREAM_END} then
      Complete(tokens, p, EMPTY_SCALAR, false)
    else Node(tokens, p, true, false)
  }

  /** The directives end with the document. */
  function DocumentEndNext(tokens: seq<Token>, p: Snap): (r: Option<Next>) {
    if p.head >= |tokens| then None
    else
      var q := p.(state := DocumentStartState, directives := []);
      if tokens[p.head].typ == DOCUMENT_END then Some(Next(DocumentEnd(false), Skipped(tokens, q)))
      else Some(Next(DocumentEnd(true), q))
  }

  /** The next event; None is an error. */
  function Step(tokens: seq<Token>, p: Snap): (r: Option<Next>) {
    match p.state
    case StreamStartState => StreamStartNext(tokens, p)
    case ImplicitDocumentStart => DocumentStartNext(tokens, p, true)
    case DocumentStartState => DocumentStartNext(tokens, p, false)
    case DocumentContent => DocumentContentNext(tokens, p)
    case DocumentEndState => DocumentEndNext(tokens, p)
    case BlockNode => Node(tokens, p, true, false)
    case BlockNodeOrIndentlessSequence => Node(tokens, p, true, true)
    case FlowNode => Node(tokens, p, false, false)
    case BlockSequenceFirstEntry => BlockSequenceNext(tokens, p, true)
    case BlockSequenceEntry => BlockSequenceNext(tokens, p, false)
    case IndentlessSequenceEntry => IndentlessSequenceNext(tokens, p)
    case BlockMappingFirstKey => BlockMappingKeyNext(tokens, p, true)
    case BlockMappingKey => BlockMappingKeyNext(tokens, p, false)
    case BlockMappingValue => BlockMappingValueNext(tokens, p)
    case FlowSequenceFirstEntry => FlowSequenceNext(tokens, p, true)
    case FlowSequenceEntry => FlowSequenceNext(tokens, p, false)
    case FlowSequenceEntryMappingKey => FlowPairKeyNext(tokens, p)
    case FlowSequenceEntryMappingValue => FlowPairValueNext(tokens, p)
    case FlowSequenceEntryMappingEnd => FlowPairEndNext(tokens, p)
    case FlowMappingFirstKey => FlowMappingKeyNext(tokens, p, true)
    case FlowMappingKey => FlowMappingKeyNext(tokens, p, false)
    case FlowMappingValue => FlowMappingValueNext(tokens, p, false)
    case FlowMappingEmptyValue => FlowMappingValueNext(tokens, p, true)
    case EndState => None
  }

  /** Where the parser is once it has delivered exactly `es`; None if it does not. */
  function After(tokens: seq<Token>, p: Snap, es: seq<Event>): (r: Option<Snap>) {
    if es == [] then Some(p)
    else
      match After(tokens, p, es[..|es| - 1])
      case None => None
      case Some(q) =>
        match Step(tokens, q)
        case None => None
        case Some(n) => if n.event == es[|es| - 1] then Some(n.after) else None
  }

  /** Exactly these events are delivered: there is an error behind them, or the end. */
  ghost predicate Stuck(tokens: seq<Token>, es: seq<Event>) {
    var o := After(tokens, Initial, es);
    o.Some? && Step(tokens, o.value) == None
  }

  // ---- every step follows the event grammar

  function Where(p: Snap): Position {
    Expect(p.state, p.states)
  }

  /** Decreases with every event. */
  function Measure(tokens: seq<Token>, p: Snap): int {
    8 * (|tokens| - p.head) + Weight(p.state) + WeightAll(p.states)
  }

  /** The stacks go with the state, and a first state has its token at hand. */
  ghost predicate Shape(tokens: seq<Token>, p: Snap) {
    && p.head <= |tokens|
    && StatesOk(p.state, p.states)
    && p.marks == MarksForAll(p.states) + MarksFor(p.state)
    && (FirstState(p.state) ==> p.head < |tokens| && tokens[p.head].typ != STREAM_END)
    && (p.ended <==> p.state == EndState)
  }

  /** Inside a collection that keeps `marks` marks of its own. */
  ghost predicate Within(tokens: seq<Token>, p: Snap, marks: nat) {
    && p.head <= |tokens|
    && StackOk(p.states)
    && p.marks == MarksForAll(p.states) + marks
    && !p.ended
  }

  /** The event has been delivered at `before`, and everything is in place for the next one. */
  ghost predicate Reached(tokens: seq<Token>, before: Position, n: Next) {
    Shape(tokens, n.after) && Accept(before, n.event) == Some(Where(n.after))
  }

  lemma InCollection(tokens: seq<Token>, p: Snap)
    requires Shape(tokens, p) && Inside(p.state) != []
    ensures Within(tokens, p, MarksFor(p.state))
    ensures Where(p) == Inner(p.states, Inside(p.state)) && p.head <= |tokens|
    ensures Measure(tokens, p) == 8 * (|tokens| - p.head) + Weight(p.state) + WeightAll(p.states)
    ensures FirstState(p.state) ==> p.head < |tokens| && tokens[p.head].typ != STREAM_END
  {
  }

  lemma EmptyStart(tokens: seq<Token>)
    ensures Shape(tokens, Initial) && AcceptAll(AtStart, []) == Some(Where(Initial))
    ensures Measure(tokens, Initial) == 8 * |tokens| + 1
  {
  }

  // What the states inside collections stand for, state by state.

  lemma BlockSequenceStates()
    ensures FirstState(BlockSequenceFirstEntry) && Inside(BlockSequenceFirstEntry) == [Item] && Weight(BlockSequenceFirstEntry) == 1
    ensures Returnable(BlockSequenceEntry) && Pending(BlockSequenceEntry) == [Item] && Inside(BlockSequenceEntry) == [Item] && MarksFor(BlockSequenceEntry) == 1 && Weight(BlockSequenceEntry) == 1
    ensures Returnable(IndentlessSequenceEntry) && Pending(IndentlessSequenceEntry) == [Item] && Inside(IndentlessSequenceEntry) == [Item] && MarksFor(IndentlessSequenceEntry) == 0 && Weight(IndentlessSequenceEntry) == 1
  {
  }

  lemma BlockMappingStates()
    ensures FirstState(BlockMappingFirstKey) && Inside(BlockMappingFirstKey) == [Key] && Weight(BlockMappingFirstKey) == 1
    ensures Returnable(BlockMappingKey) && Pending(BlockMappingKey) == [Value] && Inside(BlockMappingKey) == [Key] && MarksFor(BlockMappingKey) == 1 && Weight(BlockMappingKey) == 1
    ensures Returnable(BlockMappingValue) && Pending(BlockMappingValue) == [Key] && Inside(BlockMappingValue) == [Value] && MarksFor(BlockMappingValue) == 1 && Weight(BlockMappingValue) == 2
  {
  }

  lemma FlowSequenceStates()
    ensures FirstState(FlowSequenceFirstEntry) && Inside(FlowSequenceFirstEntry) == [Item] && Weight(FlowSequenceFirstEntry) == 1
    ensures Returnable(FlowSequenceEntry) && Pending(FlowSequenceEntry) == [Item] && Inside(FlowSequenceEntry) == [Item] && MarksFor(FlowSequenceEntry) == 1 && Weight(FlowSequenceEntry) == 1
  {
  }

  lemma FlowPairStates()
    ensures Inside(FlowSequenceEntryMappingKey) == [Item, Key] && MarksFor(FlowSequenceEntryMappingKey) == 1 && Weight(FlowSequenceEntryMappingKey) == 5
    ensures Returnable(FlowSequenceEntryMappingValue) && Pending(FlowSequenceEntryMappingValue) == [Item, Key] && Inside(FlowSequenceEntryMappingValue) == [Item, Value] && MarksFor(FlowSequenceEntryMappingValue) == 1 && Weight(FlowSequenceEntryMappingValue) == 3
    ensures Returnable(FlowSequenceEntryMappingEnd) && Pending(FlowSequenceEntryMappingEnd) == [Item, Value] && Inside(FlowSequenceEntryMappingEnd) == [Item, Key] && MarksFor(FlowSequenceEntryMappingEnd) == 1 && Weight(FlowSequenceEntryMappingEnd) == 2
  {
  }

  lemma FlowMappingStates()
    ensures FirstState(FlowMappingFirstKey) && Inside(FlowMappingFirstKey) == [Key] && Weight(FlowMappingFirstKey) == 1
    ensures Returnable(FlowMappingKey) && Pending(FlowMappingKey) == [Value] && Inside(FlowMappingKey) == [Key] && MarksFor(FlowMappingKey) == 1 && Weight(FlowMappingKey) == 1
    ensures Returnable(FlowMappingValue) && Pending(FlowMappingValue) == [Key] && Inside(FlowMappingValue) == [Value] && MarksFor(FlowMappingValue) == 1 && Weight(FlowMappingValue) == 2
    ensures Returnable(FlowMappingEmptyValue) && Pending(FlowMappingEmptyValue) == [Key] && Inside(FlowMappingEmptyValue) == [Value] && MarksFor(FlowMappingEmptyValue) == 1 && Weight(FlowMappingEmptyValue) == 2
  {
  }

  lemma Extended(es: seq<Event>, e: Event, p: Position)
    requires AcceptAll(AtStart, es) == Some(p)
    ensures AcceptAll(AtStart, es + [e]) == Accept(p, e)
  {
    assert (es + [e])[..|es|] == es;
  }

  lemma CompleteReached(tokens: seq<Token>, p: Snap, event: Event, last: bool)
    requires Within(tokens, p, 0) && (last ==> p.head < |tokens| && tokens[p.head].typ != STREAM_END)
    ensures var o := Complete(tokens, p, event, last);
      && o.Some? && o.value.event == event
      && Shape(tokens, o.value.after) && Where(o.value.after) == Completed(PendingAll(p.states))
      && Measure(tokens, o.value.after) <= 8 * (|tokens| - p.head) + WeightAll(p.states)
  {
    Popped(p.states);
    hide StatesOk, Expect, Completed, PendingAll, MarksForAll, MarksFor, Weight, WeightAll;
  }

  lemma PropertiesReached(tokens: seq<Token>, p: Snap, marks: nat)
    requires Within(tokens, p, marks) && p.head < |tokens|
    ensures var o := PropertiesAt(tokens, p);
      o.Some? ==> Within(tokens, o.value.after, marks) && o.value.after.states == p.states && p.head <= o.value.after.head < |tokens|
  {
    hide StackOk, MarksForAll, Resolve;
  }

  /** The state for the inside of a collection whose start has been seen. */
  lemma EnteringReached(tokens: seq<Token>, p: Snap, s: State, event: Event)
    requires Within(tokens, p, 0) && p.head < |tokens| && tokens[p.head].typ != STREAM_END
    requires FirstState(s) || s == IndentlessSequenceEntry
    requires (event.SequenceStart? && Inside(s) == [Item]) || (event.MappingStart? && Inside(s) == [Key])
    ensures var n := Next(event, p.(state := s));
      Reached(tokens, AtNode(PendingAll(p.states)), n)
      && Measure(tokens, n.after) <= 8 * (|tokens| - p.head) + WeightAll(p.states) + 1
  {
    Started(p.states, s);
  }

  lemma NodeCompleted(tokens: seq<Token>, p: Snap, event: Event, last: bool)
    requires Within(tokens, p, 0) && (last ==> p.head < |tokens| && tokens[p.head].typ != STREAM_END)
    requires event.Alias? || event.Scalar?
    ensures var o := Complete(tokens, p, event, last);
      o.Some? && Reached(tokens, AtNode(PendingAll(p.states)), o.value)
      && Measure(tokens, o.value.after) <= 8 * (|tokens| - p.head) + WeightAll(p.states)
  {
    hide Shape, Where, Measure, Within, Complete, PendingAll, WeightAll, Completed;
    CompleteReached(tokens, p, event, last);
  }

  lemma ContentReached(tokens: seq<Token>, p: Snap, block: bool, indentless: bool, anchor: Option<string>, tag: string)
    requires Within(tokens, p, 0) && p.head < |tokens|
    ensures var o := Content(tokens, p, block, indentless, anchor, tag);
      o.Some? ==> (Reached(tokens, AtNode(PendingAll(p.states)), o.value)
        && Measure(tokens, o.value.after) <= 8 * (|tokens| - p.head) + WeightAll(p.states) + 1)
  {
    hide Reached, Measure, Within, Complete, PendingAll, WeightAll;
    var t := tokens[p.head];
    var props := Props(anchor, tag, tag == "");
    var implicit := (tag == "" && t.plain) || tag == "!";
    if indentless && t.typ == BLOCK_ENTRY {
      EnteringReached(tokens, p, IndentlessSequenceEntry, SequenceStart(props, false));
    } else if t.typ == SCALAR {
      NodeCompleted(tokens, p, Scalar(props.(implicit := implicit), t.value, !implicit && tag == "", t.plain), true);
    } else if t.typ == FLOW_SEQUENCE_START {
      EnteringReached(tokens, p, FlowSequenceFirstEntry, SequenceStart(props, true));
    } else if t.typ == FLOW_MAPPING_START {
      EnteringReached(tokens, p, FlowMappingFirstKey, MappingStart(props, true));
    } else if block && t.typ == BLOCK_SEQUENCE_START {
      EnteringReached(tokens, p, BlockSequenceFirstEntry, SequenceStart(props, false));
    } else if block && t.typ == BLOCK_MAPPING_START {
      EnteringReached(tokens, p, BlockMappingFirstKey, MappingStart(props, false));
    } else if (anchor.Some? && anchor.value != "") || tag != "" {
      NodeCompleted(tokens, p, Scalar(props, "", false, true), false);
    }
  }

  lemma NodeReached(tokens: seq<Token>, p: Snap, block: bool, indentless: bool)
    requires Within(tokens, p, 0)
    ensures var o := Node(tokens, p, block, indentless);
      o.Some? ==> (Reached(tokens, AtNode(PendingAll(p.states)), o.value)
        && Measure(tokens, o.value.after) <= 8 * (|tokens| - p.head) + WeightAll(p.states) + 1)
  {
    hide Reached, Measure, WeightAll, PendingAll, StackOk, Content, PropertiesAt, Complete;
    if p.head < |tokens| {
      if tokens[p.head].typ == ALIAS {
        NodeCompleted(tokens, p, Alias(tokens[p.head].value), true);
      } else {
        PropertiesReached(tokens, p, 0);
        var o := PropertiesAt(tokens, p);
        if o.Some? {
          ContentReached(tokens, o.value.after, block, indentless, o.value.anchor, o.value.tag);
        }
      }
    }
  }

  lemma PushingReached(tokens: seq<Token>, p: Snap, s: State, block: bool, indentless: bool)
    requires Within(tokens, p, MarksFor(s)) && Returnable(s)
    ensures var o := Pushing(tokens, p, s, block, indentless);
      o.Some? ==> (Reached(tokens, Inner(p.states, Pending(s)), o.value)
        && Measure(tokens, o.value.after) <= 8 * (|tokens| - p.head) + WeightAll(p.states) + Weight(s) + 1)
  {
    hide PendingAll, MarksForAll, WeightAll, MarksFor, Weight, Accept, Where, Shape, Measure, Node;
    Pushed(p.states, s);
    NodeReached(tokens, p.(states := p.states + [s]), block, indentless);
  }

  lemma MissingReached(tokens: seq<Token>, p: Snap, s: State)
    requires Within(tokens, p, MarksFor(s)) && Returnable(s)
    ensures var o := Missing(p, s);
      o.Some? && Reached(tokens, Inner(p.states, Pending(s)), o.value)
        && Measure(tokens, o.value.after) == 8 * (|tokens| - p.head) + WeightAll(p.states) + Weight(s)
  {
    hide Inner, Accept, Expect, StatesOk, MarksFor, Weight, Returnable, FirstState, Pending, StackOk, MarksForAll, WeightAll;
    ReturnTo(p.states, s);
  }

  lemma NodeOrEmptyReached(tokens: seq<Token>, p: Snap, s: State, stop: set<TokenType>, block: bool, indentless: bool)
    requires Within(tokens, p, MarksFor(s)) && Returnable(s) && p.head < |tokens| && tokens[p.head].typ != STREAM_END
    ensures var o := NodeOrEmpty(tokens, p, s, stop, block, indentless);
      o.Some? ==> (Reached(tokens, Inner(p.states, Pending(s)), o.value)
        && Measure(tokens, o.value.after) < 8 * (|tokens| - p.head) + WeightAll(p.states))
  {
    hide PendingAll, MarksForAll, WeightAll, MarksFor, Pending, Reached, StackOk, Measure, Pushing, Missing;
    if p.head + 1 < |tokens| {
      PushingReached(tokens, Skipped(tokens, p), s, block, indentless);
      MissingReached(tokens, Skipped(tokens, p), s);
    }
  }

  lemma EndingReached(tokens: seq<Token>, p: Snap, event: Event, marked: bool, last: bool)
    requires Within(tokens, p, if marked then 1 else 0) && (event == SequenceEnd || event == MappingEnd)
    requires last ==> p.head < |tokens| && tokens[p.head].typ != STREAM_END
    ensures var o := Ending(tokens, p, event, marked, last);
      o.Some? && Reached(tokens, Inner(p.states, [if event == SequenceEnd then Item else Key]), o.value)
        && Measure(tokens, o.value.after) <= 8 * (|tokens| - p.head) + WeightAll(p.states)
  {
    hide PendingAll, MarksForAll, WeightAll, Weight, Accept, Completed, Where, Shape, Measure, StackOk, Complete;
    CollectionEnds(PendingAll(p.states));
    CompleteReached(tokens, p.(marks := p.marks - if marked then 1 else 0), event, last);
  }

  /** Inside a marked collection, whose first token is taken if it is still there. */
  lemma EnteredReached(tokens: seq<Token>, p: Snap, first: bool)
    requires Shape(tokens, p) && Inside(p.state) != []
    requires if first then FirstState(p.state) else MarksFor(p.state) == 1
    ensures MarksFor(p.state) == if first then 0 else 1
    ensures var o := Entered(tokens, p, first);
      o.Some? ==> (Within(tokens, o.value, 1) && o.value.states == p.states
        && p.head + (if first then 1 else 0) == o.value.head < |tokens|)
  {
    hide MarksForAll, StackOk;
  }

  lemma FlowEntryReached(tokens: seq<Token>, p: Snap, first: bool, end: TokenType)
    requires Shape(tokens, p) && Inside(p.state) != []
    requires if first then FirstState(p.state) else MarksFor(p.state) == 1
    ensures var o := FlowEntryAt(tokens, p, first, end);
      o.Some? ==> (Within(tokens, o.value, 1) && o.value.states == p.states && p.head <= o.value.head < |tokens|
        && (tokens[o.value.head].typ == end || p.head < o.value.head))
  {
    hide Shape, MarksForAll, StackOk, Inside, MarksFor, FirstState, Entered;
    EnteredReached(tokens, p, first);
  }

  /** Behind that, there are a state and a mark to return to. */
  lemma FlowEntryStacked(tokens: seq<Token>, p: Snap, first: bool, end: TokenType)
    requires Shape(tokens, p) && Inside(p.state) != []
    requires if first then FirstState(p.state) else MarksFor(p.state) == 1
    ensures first || p.marks >= 1
    ensures var o := FlowEntryAt(tokens, p, first, end); o.Some? ==> StackOk(o.value.states) && o.value.marks >= 1
  {
    hide MarksForAll, StackOk, FlowEntryAt;
    FlowEntryReached(tokens, p, first, end);
  }

  // ---- production by production

  /** What a production delivers at `p` is allowed there, and leaves less to do. */
  ghost predicate Goes(tokens: seq<Token>, p: Snap, o: Option<Next>) {
    o.Some? ==> Reached(tokens, Where(p), o.value) && Measure(tokens, o.value.after) < Measure(tokens, p)
  }

  lemma BlockSequenceGoes(tokens: seq<Token>, p: Snap, first: bool)
    requires Shape(tokens, p) && p.state == (if first then BlockSequenceFirstEntry else BlockSequenceEntry)
    ensures Goes(tokens, p, BlockSequenceNext(tokens, p, first))
  {
    BlockSequenceStates();
    InCollection(tokens, p);
    hide Shape, Where, Measure, Reached, Inner, MarksForAll, WeightAll, StackOk, StatesOk, Within;
    hide Weight, MarksFor, Pending, Inside, Returnable, FirstState, NodeOrEmpty, Ending, Entered;
    EnteredReached(tokens, p, first);
    var o := Entered(tokens, p, first);
    if o.Some? {
      if tokens[o.value.head].typ == BLOCK_ENTRY {
        NodeOrEmptyReached(tokens, o.value, BlockSequenceEntry, {BLOCK_ENTRY, BLOCK_END}, true, false);
      } else if tokens[o.value.head].typ == BLOCK_END {
        EndingReached(tokens, o.value, SequenceEnd, true, true);
      }
    }
  }

  lemma IndentlessSequenceGoes(tokens: seq<Token>, p: Snap)
    requires Shape(tokens, p) && p.state == IndentlessSequenceEntry
    ensures Goes(tokens, p, IndentlessSequenceNext(tokens, p))
  {
    BlockSequenceStates();
    InCollection(tokens, p);
    hide Shape, Where, Measure, Reached, Inner, MarksForAll, WeightAll, StackOk, StatesOk, Within;
    hide Weight, MarksFor, Pending, Inside, Returnable, FirstState, NodeOrEmpty, Ending;
    if p.head < |tokens| && tokens[p.head].typ == BLOCK_ENTRY {
      NodeOrEmptyReached(tokens, p, IndentlessSequenceEntry, {BLOCK_ENTRY, KEY, VALUE, BLOCK_END}, true, false);
    } else {
      EndingReached(tokens, p, SequenceEnd, false, false);
    }
  }

  lemma BlockMappingKeyGoes(tokens: seq<Token>, p: Snap, first: bool)
    requires Shape(tokens, p) && p.state == (if first then BlockMappingFirstKey else BlockMappingKey)
    ensures Goes(tokens, p, BlockMappingKeyNext(tokens, p, first))
  {
    BlockMappingStates();
    InCollection(tokens, p);
    hide Shape, Where, Measure, Reached, Inner, MarksForAll, WeightAll, StackOk, StatesOk, Within;
    hide Weight, MarksFor, Pending, Inside, Returnable, FirstState, NodeOrEmpty, Ending, Entered;
    EnteredReached(tokens, p, first);
    var o := Entered(tokens, p, first);
    if o.Some? {
      if tokens[o.value.head].typ == KEY {
        NodeOrEmptyReached(tokens, o.value, BlockMappingValue, {KEY, VALUE, BLOCK_END}, true, true);
      } else if tokens[o.value.head].typ == BLOCK_END {
        EndingReached(tokens, o.value, MappingEnd, true, true);
      }
    }
  }

  lemma BlockMappingValueGoes(tokens: seq<Token>, p: Snap)
    requires Shape(tokens, p) && p.state == BlockMappingValue
    ensures Goes(tokens, p, BlockMappingValueNext(tokens, p))
  {
    BlockMappingStates();
    InCollection(tokens, p);
    hide Shape, Where, Measure, Reached, Inner, MarksForAll, WeightAll, StackOk, StatesOk, Within;
    hide Weight, MarksFor, Pending, Inside, Returnable, FirstState, NodeOrEmpty, Missing;
    if p.head < |tokens| && tokens[p.head].typ == VALUE {
      NodeOrEmptyReached(tokens, p, BlockMappingKey, {KEY, VALUE, BLOCK_END}, true, true);
    } else {
      MissingReached(tokens, p, BlockMappingKey);
    }
  }

  lemma FlowSequenceGoes(tokens: seq<Token>, p: Snap, first: bool)
    requires Shape(tokens, p) && p.state == (if first then FlowSequenceFirstEntry else FlowSequenceEntry)
    ensures Goes(tokens, p, FlowSequenceNext(tokens, p, first))
  {
    FlowSequenceStates();
    InCollection(tokens, p);
    hide Shape, Where, Measure, Reached, Inner, MarksForAll, WeightAll, StackOk, StatesOk, Within;
    hide Weight, MarksFor, Pending, Inside, Returnable, FirstState, Pushing, Ending, FlowEntryAt, Skipped;
    FlowEntryReached(tokens, p, first, FLOW_SEQUENCE_END);
    var o := FlowEntryAt(tokens, p, first, FLOW_SEQUENCE_END);
    if o.Some? {
      if tokens[o.value.head].typ == KEY {
        FlowPairReached(tokens, o.value);
      } else if tokens[o.value.head].typ != FLOW_SEQUENCE_END {
        PushingReached(tokens, o.value, FlowSequenceEntry, false, false);
      } else {
        EndingReached(tokens, o.value, SequenceEnd, true, true);
      }
    }
  }

  /** A single-pair mapping starts inside a flow sequence. */
  lemma FlowPairReached(tokens: seq<Token>, p: Snap)
    requires Within(tokens, p, 1) && p.head < |tokens| && tokens[p.head].typ == KEY
    ensures var n := Next(FLOW_PAIR, Skipped(tokens, p.(state := FlowSequenceEntryMappingKey)));
      Reached(tokens, Inner(p.states, [Item]), n) && Measure(tokens, n.after) < 8 * (|tokens| - p.head) + WeightAll(p.states)
  {
    FlowPairStarts(PendingAll(p.states));
    hide PendingAll, MarksForAll, WeightAll, Accept, StackOk;
  }

  lemma FlowPairKeyGoes(tokens: seq<Token>, p: Snap)
    requires Shape(tokens, p) && p.state == FlowSequenceEntryMappingKey
    ensures Goes(tokens, p, FlowPairKeyNext(tokens, p))
  {
    FlowPairStates();
    InCollection(tokens, p);
    hide Shape, Where, Measure, Reached, Inner, MarksForAll, WeightAll, StackOk, StatesOk;
    hide Weight, MarksFor, Pending, Inside, Returnable, FirstState, Pushing, Missing;
    if p.head < |tokens| {
      if tokens[p.head].typ in {VALUE, FLOW_ENTRY, FLOW_SEQUENCE_END} {
        MissingReached(tokens, Skipped(tokens, p), FlowSequenceEntryMappingValue);
      } else {
        PushingReached(tokens, p, FlowSequenceEntryMappingValue, false, false);
      }
    }
  }

  lemma FlowPairValueGoes(tokens: seq<Token>, p: Snap)
    requires Shape(tokens, p) && p.state == FlowSequenceEntryMappingValue
    ensures Goes(tokens, p, FlowPairValueNext(tokens, p))
  {
    FlowPairStates();
    InCollection(tokens, p);
    hide Shape, Where, Measure, Reached, Inner, MarksForAll, WeightAll, StackOk, StatesOk, Within;
    hide Weight, MarksFor, Pending, Inside, Returnable, FirstState, NodeOrEmpty, Missing;
    if p.head < |tokens| && tokens[p.head].typ == VALUE {
      NodeOrEmptyReached(tokens, p, FlowSequenceEntryMappingEnd, {FLOW_ENTRY, FLOW_SEQUENCE_END}, false, false);
    } else {
      MissingReached(tokens, p, FlowSequenceEntryMappingEnd);
    }
  }

  lemma FlowPairEndGoes(tokens: seq<Token>, p: Snap)
    requires Shape(tokens, p) && p.state == FlowSequenceEntryMappingEnd
    ensures Goes(tokens, p, FlowPairEndNext(tokens, p))
  {
    FlowPairStarts(PendingAll(p.states));
    hide PendingAll, MarksForAll, WeightAll, Accept, StackOk;
  }

  lemma FlowMappingKeyGoes(tokens: seq<Token>, p: Snap, first: bool)
    requires Shape(tokens, p) && p.state == (if first then FlowMappingFirstKey else FlowMappingKey)
    ensures Goes(tokens, p, FlowMappingKeyNext(tokens, p, first))
  {
    FlowMappingStates();
    InCollection(tokens, p);
    hide Shape, Where, Measure, Reached, Inner, MarksForAll, WeightAll, StackOk, StatesOk, Within;
    hide Weight, MarksFor, Pending, Inside, Returnable, FirstState, NodeOrEmpty, Pushing, Ending, FlowEntryAt;
    FlowEntryReached(tokens, p, first, FLOW_MAPPING_END);
    var o := FlowEntryAt(tokens, p, first, FLOW_MAPPING_END);
    if o.Some? {
      if tokens[o.value.head].typ == KEY {
        NodeOrEmptyReached(tokens, o.value, FlowMappingValue, {VALUE, FLOW_ENTRY, FLOW_MAPPING_END}, false, false);
      } else if tokens[o.value.head].typ != FLOW_MAPPING_END {
        PushingReached(tokens, o.value, FlowMappingEmptyValue, false, false);
      } else {
        EndingReached(tokens, o.value, MappingEnd, true, true);
      }
    }
  }

  lemma FlowMappingValueGoes(tokens: seq<Token>, p: Snap, empty: bool)
    requires Shape(tokens, p) && p.state == (if empty then FlowMappingEmptyValue else FlowMappingValue)
    ensures Goes(tokens, p, FlowMappingValueNext(tokens, p, empty))
  {
    FlowMappingStates();
    InCollection(tokens, p);
    hide Shape, Where, Measure, Reached, Inner, MarksForAll, WeightAll, StackOk, StatesOk, Within;
    hide Weight, MarksFor, Pending, Inside, Returnable, FirstState, NodeOrEmpty, Missing;
    if !empty && p.head < |tokens| && tokens[p.head].typ == VALUE {
      NodeOrEmptyReached(tokens, p, FlowMappingKey, {FLOW_ENTRY, FLOW_MAPPING_END}, false, false);
    } else {
      MissingReached(tokens, p, FlowMappingKey);
    }
  }

  // ---- documents

  lemma {:induction false} DirectedReached(tokens: seq<Token>, p: Snap, version: bool)
    requires !p.ended
    ensures var o := Directed(tokens, p, version);
      o.Some? ==> (o.value.states == p.states && o.value.marks == p.marks && !o.value.ended
        && tokens[o.value.head].typ !in {VERSION_DIRECTIVE, TAG_DIRECTIVE}
        && (p.head < |tokens| && tokens[p.head].typ !in {VERSION_DIRECTIVE, TAG_DIRECTIVE} ==> o.value.head == p.head))
    decreases |tokens| - p.head
  {
    hide FindDirective, WithDefault;
    if p.head < |tokens| {
      var t := tokens[p.head];
      if t.typ == VERSION_DIRECTIVE {
        DirectedReached(tokens, Skipped(tokens, p), true);
      } else if t.typ == TAG_DIRECTIVE {
        DirectedReached(tokens, Skipped(tokens, p).(directives := p.directives + [TagDirective(t.value, t.prefix)]), version);
      }
    }
  }

  lemma {:induction false} PastEndsReached(tokens: seq<Token>, p: Snap)
    requires !p.ended
    ensures var o := PastEnds(tokens, p);
      o.Some? ==> o.value == p.(head := o.value.head) && tokens[o.value.head].typ != DOCUMENT_END
    decreases |tokens| - p.head
  {
    if p.head < |tokens| && tokens[p.head].typ == DOCUMENT_END {
      PastEndsReached(tokens, Skipped(tokens, p));
    }
  }

  lemma DocumentOpened()
    ensures StackOk([] + [DocumentEndState]) && PendingAll([] + [DocumentEndState]) == []
    ensures MarksForAll([] + [DocumentEndState]) == 0 && WeightAll([] + [DocumentEndState]) == 2
    ensures MarksForAll([]) == 0 && WeightAll([]) == 0
    ensures Expect(BlockNode, [] + [DocumentEndState]) == AtNode([])
    ensures Expect(DocumentContent, [] + [DocumentEndState]) == AtNode([])
  {
    Pushed([], DocumentEndState);
    assert PendingAll([]) == [];
  }

  /** Outside of documents nothing is open. */
  lemma BetweenTwo(tokens: seq<Token>, p: Snap)
    requires Shape(tokens, p) && (p.state == ImplicitDocumentStart || p.state == DocumentStartState)
    ensures p.head <= |tokens| && !p.ended && p.states == [] && p.marks == 0 && Where(p) == BetweenDocuments
    ensures Measure(tokens, p) == 8 * (|tokens| - p.head) + (if p.state == ImplicitDocumentStart then 5 else 1)
  {
  }

  lemma DocumentBegins(tokens: seq<Token>, p: Snap, state: State)
    requires p.head <= |tokens| && !p.ended && p.states == [] && p.marks == 0 && (state == BlockNode || state == DocumentContent)
    ensures var n := Next(DocumentStart(false), p.(state := state, states := p.states + [DocumentEndState]));
      Reached(tokens, BetweenDocuments, n) && Measure(tokens, n.after) == 8 * (|tokens| - p.head) + 4
  {
    DocumentOpened();
    hide MarksForAll, WeightAll, PendingAll, StackOk;
  }

  lemma ImplicitReached(tokens: seq<Token>, p: Snap)
    requires p.head < |tokens| && !p.ended && p.states == [] && p.marks == 0
    requires tokens[p.head].typ !in {VERSION_DIRECTIVE, TAG_DIRECTIVE}
    ensures var o := ImplicitDocument(tokens, p);
      o.Some? ==> Reached(tokens, BetweenDocuments, o.value) && Measure(tokens, o.value.after) <= 8 * (|tokens| - p.head) + 4
  {
    hide Directed, Reached, Measure;
    DirectedReached(tokens, p, false);
    var o := Directed(tokens, p, false);
    if o.Some? {
      DocumentBegins(tokens, o.value, BlockNode);
    }
  }

  lemma ExplicitReached(tokens: seq<Token>, p: Snap)
    requires p.head < |tokens| && !p.ended && p.states == [] && p.marks == 0
    ensures var o := ExplicitDocument(tokens, p);
      o.Some? ==> Reached(tokens, BetweenDocuments, o.value) && Measure(tokens, o.value.after) < 8 * (|tokens| - p.head)
  {
    hide Directed, Reached, Measure;
    DirectedReached(tokens, p, false);
    var o := Directed(tokens, p, false);
    if o.Some? && tokens[o.value.head].typ == DOCUMENT_START {
      DocumentBegins(tokens, Skipped(tokens, o.value), DocumentContent);
    }
  }

  lemma StreamEndReached(tokens: seq<Token>, p: Snap)
    requires p.head < |tokens| && tokens[p.head].typ == STREAM_END && p.states == [] && p.marks == 0
    ensures var n := Next(StreamEnd, Skipped(tokens, p.(state := EndState)));
      Reached(tokens, BetweenDocuments, n) && Measure(tokens, n.after) < 8 * (|tokens| - p.head)
  {
    DocumentOpened();
  }

  lemma DocumentStartGoes(tokens: seq<Token>, p: Snap, implicit: bool)
    requires Shape(tokens, p) && p.state == (if implicit then ImplicitDocumentStart else DocumentStartState)
    ensures Goes(tokens, p, DocumentStartNext(tokens, p, implicit))
  {
    hide Shape, Where, Measure, Reached, PastEnds, ImplicitDocument, ExplicitDocument, Skipped;
    BetweenTwo(tokens, p);
    PastEndsReached(tokens, p);
    var o := if implicit then (if p.head < |tokens| then Some(p) else None) else PastEnds(tokens, p);
    if o.Some? {
      if implicit && tokens[o.value.head].typ !in {VERSION_DIRECTIVE, TAG_DIRECTIVE, DOCUMENT_START, STREAM_END} {
        ImplicitReached(tokens, o.value);
      } else if tokens[o.value.head].typ != STREAM_END {
        ExplicitReached(tokens, o.value);
      } else {
        StreamEndReached(tokens, o.value);
      }
    }
  }

  /** In front of a document's root. */
  lemma RootIs(tokens: seq<Token>, p: Snap)
    requires Shape(tokens, p) && (p.state == DocumentContent || p.state == BlockNode)
    ensures Within(tokens, p, 0) && Where(p) == AtNode(PendingAll(p.states))
    ensures Accept(Where(p), EMPTY_SCALAR) == Some(Completed(PendingAll(p.states)))
    ensures Measure(tokens, p) == 8 * (|tokens| - p.head) + 2 + WeightAll(p.states)
  {
    assert PendingAll(p.states) + Inside(p.state) == PendingAll(p.states);
  }

  lemma DocumentContentGoes(tokens: seq<Token>, p: Snap)
    requires Shape(tokens, p) && (p.state == DocumentContent || p.state == BlockNode)
    ensures Goes(tokens, p, DocumentContentNext(tokens, p)) && Goes(tokens, p, Node(tokens, p, true, false))
  {
    hide Shape, Where, Measure, Accept, PendingAll, WeightAll, StackOk, Within, Completed, Node, Complete;
    RootIs(tokens, p);
    NodeReached(tokens, p, true, false);
    CompleteReached(tokens, p, EMPTY_SCALAR, false);
  }

  /** The start of the stream and the end of a document. */
  lemma EndsGo(tokens: seq<Token>, p: Snap)
    requires Shape(tokens, p)
    ensures p.state == StreamStartState ==> Goes(tokens, p, StreamStartNext(tokens, p))
    ensures p.state == DocumentEndState ==> Goes(tokens, p, DocumentEndNext(tokens, p))
    ensures Goes(tokens, p, None)
  {
  }

  /** Every event is one that the grammar allows where it is delivered; what follows is allowed behind it, and there
      is less to do. No stack underflows. */
  lemma StepGoes(tokens: seq<Token>, p: Snap)
    requires Shape(tokens, p)
    ensures Goes(tokens, p, Step(tokens, p))
  {
    hide Goes, BlockSequenceNext, IndentlessSequenceNext, BlockMappingKeyNext, BlockMappingValueNext, FlowSequenceNext;
    hide FlowPairKeyNext, FlowPairValueNext, FlowPairEndNext, FlowMappingKeyNext, FlowMappingValueNext, Node;
    hide StreamStartNext, DocumentStartNext, DocumentContentNext, DocumentEndNext;
    match p.state {
      case StreamStartState => EndsGo(tokens, p);
      case ImplicitDocumentStart => DocumentStartGoes(tokens, p, true);
      case DocumentStartState => DocumentStartGoes(tokens, p, false);
      case DocumentContent => DocumentContentGoes(tokens, p);
      case DocumentEndState => EndsGo(tokens, p);
      case BlockNode => DocumentContentGoes(tokens, p);
      case BlockSequenceFirstEntry => BlockSequenceGoes(tokens, p, true);
      case BlockSequenceEntry => BlockSequenceGoes(tokens, p, false);
      case IndentlessSequenceEntry => IndentlessSequenceGoes(tokens, p);
      case BlockMappingFirstKey => BlockMappingKeyGoes(tokens, p, true);
      case BlockMappingKey => BlockMappingKeyGoes(tokens, p, false);
      case BlockMappingValue => BlockMappingValueGoes(tokens, p);
      case FlowSequenceFirstEntry => FlowSequenceGoes(tokens, p, true);
      case FlowSequenceEntry => FlowSequenceGoes(tokens, p, false);
      case FlowSequenceEntryMappingKey => FlowPairKeyGoes(tokens, p);
      case FlowSequenceEntryMappingValue => FlowPairValueGoes(tokens, p);
      case FlowSequenceEntryMappingEnd => FlowPairEndGoes(tokens, p);
      case FlowMappingFirstKey => FlowMappingKeyGoes(tokens, p, true);
      case FlowMappingKey => FlowMappingKeyGoes(tokens, p, false);
      case FlowMappingValue => FlowMappingValueGoes(tokens, p, false);
      case FlowMappingEmptyValue => FlowMappingValueGoes(tokens, p, true);
      case EndState => EndsGo(tokens, p);
    }
  }

  lemma OneDelivered(tokens: seq<Token>, p: Snap, es: seq<Event>, e: Event)
    ensures After(tokens, p, es + [e]) ==
      match After(tokens, p, es)
      case None => None
      case Some(q) => match Step(tokens, q) case None => None case Some(n) => if n.event == e then Some(n.after) else None
  {
    hide Step;
    assert (es + [e])[..|es|] == es;
  }

  lemma EndedIs(tokens: seq<Token>, p: Snap)
    ensures Shape(tokens, p) ==> (p.ended <==> p.state == EndState)
  {
  }

  /** The same, for a step that is taken behind the events `es`. */
  lemma Delivered(tokens: seq<Token>, p: Snap, n: Next, es: seq<Event>)
    requires Shape(tokens, p) && Step(tokens, p) == Some(n) && AcceptAll(AtStart, es) == Some(Where(p))
    ensures Shape(tokens, n.after) && Measure(tokens, n.after) < Measure(tokens, p)
    ensures Accept(Where(p), n.event) == Some(Where(n.after)) && AcceptAll(AtStart, es + [n.event]) == Some(Where(n.after))
  {
    hide Shape, Accept, AcceptAll, Where, Measure, Step;
    StepGoes(tokens, p);
    Extended(es, n.event, Where(p));
  }

  // ---- the parser

  class Parser {
    const tokens: seq<Token>
    var head: nat
    var tokenAvailable: bool
    var state: State
    var states: seq<State>
    var marks: seq<nat>
    var tagDirectives: seq<TagDirective>
    var streamEndProduced: bool
    var error: bool
    // the events delivered so far
    ghost var produced: seq<Event>

    constructor (tokens: seq<Token>)
      ensures this.tokens == tokens && Valid() && produced == [] && Now() == Initial
    {
      hide Shape, AcceptAll, Where;
      this.tokens := tokens;
      head, tokenAvailable := 0, false;
      state, states, marks, tagDirectives := StreamStartState, [], [], [];
      streamEndProduced, error := false, false;
      produced := [];
      new;
      EmptyStart(tokens);
    }

    ghost function Now(): Snap
      reads this
    {
      Snap(head, state, states, |marks|, tagDirectives, streamEndProduced)
    }

    /** No error so far, and a token that is available is there. */
    ghost predicate Running()
      reads this
    {
      !error && head <= |tokens| && (tokenAvailable ==> head < |tokens|)
    }

    ghost predicate Valid()
      reads this
    {
      && Running() && (FirstState(state) ==> tokenAvailable)
      && Shape(tokens, Now()) && AcceptAll(AtStart, produced) == Some(Where(Now()))
      && After(tokens, Initial, produced) == Some(Now())
    }

    /** What a production does: it delivers the event and comes to the fields that `o` names, or it is an error. */
    ghost predicate Did(o: Option<Next>, ok: bool, event: Event)
      reads this
    {
      && (ok <==> o.Some?) && (error <==> !ok)
      && (ok ==> o.value == Next(event, Now()) && Running() && (FirstState(state) ==> tokenAvailable))
    }

    method PeekToken() returns (token: Option<Token>)
      requires Running()
      modifies this`tokenAvailable, this`error
      ensures token.Some? <==> head < |tokens|
      ensures token.Some? ==> token.value == tokens[head] && tokenAvailable && !error
      ensures token.None? ==> error && tokenAvailable == old(tokenAvailable)
    {
      if tokenAvailable {
        return Some(tokens[head]);
      }
      if head == |tokens| {
        error := true;
        return None;
      }
      tokenAvailable := true;
      return Some(tokens[head]);
    }

    method SkipToken()
      requires head < |tokens|
      modifies this`head, this`tokenAvailable, this`streamEndProduced
      ensures Now() == Skipped(tokens, old(Now())) && !tokenAvailable
    {
      tokenAvailable := false;
      streamEndProduced := tokens[head].typ == STREAM_END;
      head := head + 1;
    }

    /** SkipToken and PeekToken. */
    method NextToken() returns (token: Option<Token>)
      requires Running() && head < |tokens|
      modifies this`head, this`tokenAvailable, this`streamEndProduced, this`error
      ensures token.Some? <==> Advance(tokens, old(Now())).Some?
      ensures token.Some? ==> Now() == Advance(tokens, old(Now())).value && token.value == tokens[head] && tokenAvailable && Running()
      ensures token.None? ==> error
    {
      SkipToken();
      token := PeekToken();
    }

    /** Returns to the state on top of the stack: a node is complete with `event`, and its last token goes if `last`. */
    method CompleteNode(ghost event: Event, last: bool)
      requires Running() && StackOk(states) && (last ==> head < |tokens|)
      modifies this`head, this`tokenAvailable, this`state, this`states, this`streamEndProduced
      ensures Did(Complete(tokens, old(Now()), event, last), true, event)
    {
      state := states[|states| - 1];
      states := states[..|states| - 1];
      if last {
        SkipToken();
      }
    }

    /** The tag that a handle and a suffix stand for; None if the handle is not declared. */
    method ResolveTag(handle: string, suffix: string) returns (tag: Option<string>)
      ensures tag == Resolve(tagDirectives, handle, suffix)
    {
      if handle == "" {
        return Some(suffix);
      }
      var i := 0;
      while i < |tagDirectives| && tagDirectives[i].handle != handle
        invariant i <= |tagDirectives|
        invariant FindDirective(tagDirectives, handle) == i + FindDirective(tagDirectives[i..], handle)
      {
        i := i + 1;
      }
      var found := if i < |tagDirectives| then tagDirectives[i].prefix + suffix else "";
      return if found == "" then None else Some(found);
    }

    /** The properties in front of a node's content. */
    method ParseProperties(first: Token) returns (ok: bool, anchor: Option<string>, tag: string)
      requires Running() && tokenAvailable && first == tokens[head]
      modifies this`head, this`tokenAvailable, this`streamEndProduced, this`error
      ensures ok <==> PropertiesAt(tokens, old(Now())).Some?
      ensures ok ==> PropertiesAt(tokens, old(Now())).value == Properties(anchor, tag, Now()) && Running() && tokenAvailable
      ensures !ok ==> error
    {
      var tagToken := false;
      var tagHandle, tagSuffix := "", "";
      anchor, tag := None, "";
      if first.typ == ANCHOR {
        anchor := Some(first.value);
        var t := NextToken();
        if t.None? {
          return false, anchor, tag;
        }
        if t.value.typ == TAG {
          tagToken, tagHandle, tagSuffix := true, t.value.value, t.value.suffix;
          t := NextToken();
          if t.None? {
            return false, anchor, tag;
          }
        }
      } else if first.typ == TAG {
        tagToken, tagHandle, tagSuffix := true, first.value, first.suffix;
        var t := NextToken();
        if t.None? {
          return false, anchor, tag;
        }
        if t.value.typ == ANCHOR {
          anchor := Some(t.value.value);
          t := NextToken();
          if t.None? {
            return false, anchor, tag;
          }
        }
      }
      if tagToken {
        var resolved := ResolveTag(tagHandle, tagSuffix);
        if resolved.None? {
          error := true;
          return false, anchor, tag;
        }
        tag := resolved.value;
      }
      ok := true;
    }

    method ParseNode(block: bool, indentlessSequence: bool) returns (ok: bool, event: Event)
      requires Running() && StackOk(states)
      modifies this`head, this`tokenAvailable, this`state, this`states, this`streamEndProduced, this`error
      ensures Did(Node(tokens, old(Now()), block, indentlessSequence), ok, event)
    {
      hide StackOk, Content, PropertiesAt, Complete;
      event := NoEvent;
      var t := PeekToken();
      if t.None? {
        return false, event;
      }
      if t.value.typ == ALIAS {
        event := Alias(t.value.value);
        CompleteNode(event, true);
        return true, event;
      }
      var found, anchor, tag := ParseProperties(t.value);
      if !found {
        return false, event;
      }
      ok, event := ParseContent(block, indentlessSequence, anchor, tag);
    }

    /** The content of a node, after its properties. */
    method ParseContent(block: bool, indentlessSequence: bool, anchor: Option<string>, tag: string)
      returns (ok: bool, event: Event)
      requires Running() && StackOk(states) && tokenAvailable
      modifies this`head, this`tokenAvailable, this`state, this`states, this`streamEndProduced, this`error
      ensures Did(Content(tokens, old(Now()), block, indentlessSequence, anchor, tag), ok, event)
    {
      hide StackOk, Complete;
      var token := tokens[head];
      var props := Props(anchor, tag, tag == "");
      event := NoEvent;
      ok := true;
      if indentlessSequence && token.typ == BLOCK_ENTRY {
        state := IndentlessSequenceEntry;
        event := SequenceStart(props, false);
      } else if token.typ == SCALAR {
        var plainImplicit := (tag == "" && token.plain) || tag == "!";
        event := Scalar(props.(implicit := plainImplicit), token.value, !plainImplicit && tag == "", token.plain);
        CompleteNode(event, true);
      } else if token.typ == FLOW_SEQUENCE_START {
        state := FlowSequenceFirstEntry;
        event := SequenceStart(props, true);
      } else if token.typ == FLOW_MAPPING_START {
        state := FlowMappingFirstKey;
        event := MappingStart(props, true);
      } else if block && token.typ == BLOCK_SEQUENCE_START {
        state := BlockSequenceFirstEntry;
        event := SequenceStart(props, false);
      } else if block && token.typ == BLOCK_MAPPING_START {
        state := BlockMappingFirstKey;
        event := MappingStart(props, false);
      } else if (anchor.Some? && anchor.value != "") || tag != "" {
        event := Scalar(props, "", false, true);
        CompleteNode(event, false);
      } else {
        error := true;
        ok := false;
      }
    }

    // ---- the productions

    /** Parses a node and comes back to `s` after it. */
    method PushAndParseNode(s: State, block: bool, indentlessSequence: bool) returns (ok: bool, event: Event)
      requires Running() && StackOk(states) && Returnable(s)
      modifies this`head, this`tokenAvailable, this`state, this`states, this`streamEndProduced, this`error
      ensures Did(Pushing(tokens, old(Now()), s, block, indentlessSequence), ok, event)
    {
      hide Node;
      states := states + [s];
      ok, event := ParseNode(block, indentlessSequence);
    }

    /** An empty scalar stands for the missing node, and the parser goes on in `s`. */
    method EmptyScalar(s: State) returns (ok: bool, event: Event)
      requires Running() && Returnable(s)
      modifies this`state
      ensures Did(Missing(old(Now()), s), ok, event)
    {
      state := s;
      ok, event := true, EMPTY_SCALAR;
    }

    /** Takes the indicator at hand; then a node follows, or an empty scalar stands for it
        if the token behind the indicator is one of `stop`. Either way `s` comes next. */
    method NodeOrEmptyScalar(s: State, stop: set<TokenType>, block: bool, indentlessSequence: bool) returns (ok: bool, event: Event)
      requires Running() && StackOk(states) && Returnable(s) && head < |tokens|
      modifies this`head, this`tokenAvailable, this`state, this`states, this`streamEndProduced, this`error
      ensures Did(NodeOrEmpty(tokens, old(Now()), s, stop, block, indentlessSequence), ok, event)
    {
      hide Pushing, Missing, StackOk;
      event := NoEvent;
      var t := NextToken();
      if t.None? {
        return false, event;
      }
      if t.value.typ !in stop {
        ok, event := PushAndParseNode(s, block, indentlessSequence);
      } else {
        ok, event := EmptyScalar(s);
      }
    }

    /** A collection ends, and with it the node it is. */
    method EndCollection(end: Event, marked: bool, last: bool) returns (ok: bool, event: Event)
      requires Running() && StackOk(states) && (marked ==> marks != []) && (last ==> head < |tokens|)
      modifies this`head, this`tokenAvailable, this`state, this`states, this`marks, this`streamEndProduced
      ensures Did(Ending(tokens, old(Now()), end, marked, last), ok, event)
    {
      hide StackOk, Complete;
      if marked {
        marks := marks[..|marks| - 1];
      }
      CompleteNode(end, last);
      return true, end;
    }

    /** The token at hand, behind the one that opens a collection if it is still there; that one leaves a mark. */
    method EnterCollection(first: bool) returns (token: Option<Token>)
      requires Running() && (first ==> tokenAvailable)
      modifies this`head, this`tokenAvailable, this`streamEndProduced, this`marks, this`error
      ensures token.Some? <==> Entered(tokens, old(Now()), first).Some?
      ensures token.Some? ==> Now() == Entered(tokens, old(Now()), first).value && token.value == tokens[head] && tokenAvailable && Running()
      ensures token.None? ==> error
    {
      if first {
        var opening := PeekToken();
        marks := marks + [head];
        token := NextToken();
      } else {
        token := PeekToken();
      }
    }

    /** An error in a collection, reported with the collection's mark. */
    method Complain() returns (ok: bool, event: Event)
      requires marks != []
      modifies this`marks, this`error
      ensures error && !ok
    {
      marks := marks[..|marks| - 1];
      error := true;
      return false, NoEvent;
    }

    method ParseBlockSequenceEntry(first: bool) returns (ok: bool, event: Event)
      requires Running() && (first ==> tokenAvailable) && Shape(tokens, Now()) && state == (if first then BlockSequenceFirstEntry else BlockSequenceEntry)
      modifies this
      ensures produced == old(produced) && Did(BlockSequenceNext(tokens, old(Now()), first), ok, event)
    {
      hide NodeOrEmpty, Ending, MarksForAll;
      event := NoEvent;
      var t := EnterCollection(first);
      if t.None? {
        return false, event;
      }
      if t.value.typ == BLOCK_ENTRY {
        ok, event := NodeOrEmptyScalar(BlockSequenceEntry, {BLOCK_ENTRY, BLOCK_END}, true, false);
        return;
      }
      if t.value.typ == BLOCK_END {
        ok, event := EndCollection(SequenceEnd, true, true);
        return;
      }
      ok, event := Complain();
    }

    method ParseIndentlessSequenceEntry() returns (ok: bool, event: Event)
      requires Running() && Shape(tokens, Now()) && state == IndentlessSequenceEntry
      modifies this
      ensures produced == old(produced) && Did(IndentlessSequenceNext(tokens, old(Now())), ok, event)
    {
      hide NodeOrEmpty, Ending, MarksForAll;
      event := NoEvent;
      var t := PeekToken();
      if t.None? {
        return false, event;
      }
      if t.value.typ == BLOCK_ENTRY {
        ok, event := NodeOrEmptyScalar(IndentlessSequenceEntry, {BLOCK_ENTRY, KEY, VALUE, BLOCK_END}, true, false);
        return;
      }
      ok, event := EndCollection(SequenceEnd, false, false);
    }

    method ParseBlockMappingKey(first: bool) returns (ok: bool, event: Event)
      requires Running() && (first ==> tokenAvailable) && Shape(tokens, Now()) && state == (if first then BlockMappingFirstKey else BlockMappingKey)
      modifies this
      ensures produced == old(produced) && Did(BlockMappingKeyNext(tokens, old(Now()), first), ok, event)
    {
      hide NodeOrEmpty, Ending, MarksForAll;
      event := NoEvent;
      var t := EnterCollection(first);
      if t.None? {
        return false, event;
      }
      if t.value.typ == KEY {
        ok, event := NodeOrEmptyScalar(BlockMappingValue, {KEY, VALUE, BLOCK_END}, true, true);
        return;
      } else if t.value.typ == BLOCK_END {
        ok, event := EndCollection(MappingEnd, true, true);
        return;
      }
      ok, event := Complain();
    }

    method ParseBlockMappingValue() returns (ok: bool, event: Event)
      requires Running() && Shape(tokens, Now()) && state == BlockMappingValue
      modifies this
      ensures produced == old(produced) && Did(BlockMappingValueNext(tokens, old(Now())), ok, event)
    {
      hide NodeOrEmpty, Missing, MarksForAll;
      event := NoEvent;
      var t := PeekToken();
      if t.None? {
        return false, event;
      }
      if t.value.typ == VALUE {
        ok, event := NodeOrEmptyScalar(BlockMappingKey, {KEY, VALUE, BLOCK_END}, true, true);
        return;
      }
      ok, event := EmptyScalar(BlockMappingKey);
    }

    /** The first token of the next entry of a flow collection, past the comma in front of it,
        or the `end` of the collection. */
    method NextFlowEntry(first: bool, end: TokenType) returns (token: Option<Token>)
      requires Running() && (first ==> tokenAvailable) && (!first ==> marks != [])
      modifies this`head, this`tokenAvailable, this`streamEndProduced, this`marks, this`error
      ensures token.Some? <==> FlowEntryAt(tokens, old(Now()), first, end).Some?
      ensures token.Some? ==> Now() == FlowEntryAt(tokens, old(Now()), first, end).value && token.value == tokens[head] && tokenAvailable && Running()
      ensures token.None? ==> error
    {
      token := EnterCollection(first);
      if token.None? || token.value.typ == end || first {
        return;
      }
      if token.value.typ == FLOW_ENTRY {
        token := NextToken();
        return;
      }
      var ok, event := Complain();
      return None;
    }

    method ParseFlowSequenceEntry(first: bool) returns (ok: bool, event: Event)
      requires Running() && (first ==> tokenAvailable) && Shape(tokens, Now()) && state == (if first then FlowSequenceFirstEntry else FlowSequenceEntry)
      modifies this
      ensures produced == old(produced) && Did(FlowSequenceNext(tokens, old(Now()), first), ok, event)
    {
      hide Shape, Within, Pushing, Ending, FlowEntryAt, StackOk;
      FlowEntryStacked(tokens, Now(), first, FLOW_SEQUENCE_END);
      event := NoEvent;
      var t := NextFlowEntry(first, FLOW_SEQUENCE_END);
      if t.None? {
        return false, event;
      }
      if t.value.typ == KEY {
        state := FlowSequenceEntryMappingKey;
        SkipToken();
        return true, FLOW_PAIR;
      } else if t.value.typ != FLOW_SEQUENCE_END {
        ok, event := PushAndParseNode(FlowSequenceEntry, false, false);
      } else {
        ok, event := EndCollection(SequenceEnd, true, true);
      }
    }

    method ParseFlowSequenceEntryMappingKey() returns (ok: bool, event: Event)
      requires Running() && Shape(tokens, Now()) && state == FlowSequenceEntryMappingKey
      modifies this
      ensures produced == old(produced) && Did(FlowPairKeyNext(tokens, old(Now())), ok, event)
    {
      hide Pushing, Missing, MarksForAll;
      event := NoEvent;
      var t := PeekToken();
      if t.None? {
        return false, event;
      }
      if t.value.typ != VALUE && t.value.typ != FLOW_ENTRY && t.value.typ != FLOW_SEQUENCE_END {
        ok, event := PushAndParseNode(FlowSequenceEntryMappingValue, false, false);
        return;
      }
      SkipToken();
      ok, event := EmptyScalar(FlowSequenceEntryMappingValue);
    }

    method ParseFlowSequenceEntryMappingValue() returns (ok: bool, event: Event)
      requires Running() && Shape(tokens, Now()) && state == FlowSequenceEntryMappingValue
      modifies this
      ensures produced == old(produced) && Did(FlowPairValueNext(tokens, old(Now())), ok, event)
    {
      hide NodeOrEmpty, Missing, MarksForAll;
      event := NoEvent;
      var t := PeekToken();
      if t.None? {
        return false, event;
      }
      if t.value.typ == VALUE {
        ok, event := NodeOrEmptyScalar(FlowSequenceEntryMappingEnd, {FLOW_ENTRY, FLOW_SEQUENCE_END}, false, false);
        return;
      }
      ok, event := EmptyScalar(FlowSequenceEntryMappingEnd);
    }

    method ParseFlowSequenceEntryMappingEnd() returns (ok: bool, event: Event)
      requires Running() && Shape(tokens, Now()) && state == FlowSequenceEntryMappingEnd
      modifies this
      ensures produced == old(produced) && Did(FlowPairEndNext(tokens, old(Now())), ok, event)
    {
      event := NoEvent;
      var t := PeekToken();
      if t.None? {
        return false, event;
      }
      state := FlowSequenceEntry;
      return true, MappingEnd;
    }

    method ParseFlowMappingKey(first: bool) returns (ok: bool, event: Event)
      requires Running() && (first ==> tokenAvailable) && Shape(tokens, Now()) && state == (if first then FlowMappingFirstKey else FlowMappingKey)
      modifies this
      ensures produced == old(produced) && Did(FlowMappingKeyNext(tokens, old(Now()), first), ok, event)
    {
      hide Shape, Within, NodeOrEmpty, Pushing, Ending, FlowEntryAt, StackOk;
      FlowEntryStacked(tokens, Now(), first, FLOW_MAPPING_END);
      event := NoEvent;
      var t := NextFlowEntry(first, FLOW_MAPPING_END);
      if t.None? {
        return false, event;
      }
      if t.value.typ == KEY {
        ok, event := NodeOrEmptyScalar(FlowMappingValue, {VALUE, FLOW_ENTRY, FLOW_MAPPING_END}, false, false);
      } else if t.value.typ != FLOW_MAPPING_END {
        ok, event := PushAndParseNode(FlowMappingEmptyValue, false, false);
      } else {
        ok, event := EndCollection(MappingEnd, true, true);
      }
    }

    method ParseFlowMappingValue(empty: bool) returns (ok: bool, event: Event)
      requires Running() && Shape(tokens, Now()) && state == (if empty then FlowMappingEmptyValue else FlowMappingValue)
      modifies this
      ensures produced == old(produced) && Did(FlowMappingValueNext(tokens, old(Now()), empty), ok, event)
    {
      hide NodeOrEmpty, Missing, MarksForAll;
      event := NoEvent;
      var t := PeekToken();
      if t.None? {
        return false, event;
      }
      if !empty && t.value.typ == VALUE {
        ok, event := NodeOrEmptyScalar(FlowMappingKey, {FLOW_ENTRY, FLOW_MAPPING_END}, false, false);
        return;
      }
      ok, event := EmptyScalar(FlowMappingKey);
    }

    // ---- documents

    method AppendTagDirective(value: TagDirective, allowDuplicates: bool) returns (ok: bool)
      requires !error
      modifies this`tagDirectives, this`error
      ensures ok <==> allowDuplicates || !Declared(old(tagDirectives), value.handle)
      ensures ok ==> tagDirectives == WithDefault(old(tagDirectives), value)
      ensures error == !ok
    {
      if FindDirective(tagDirectives, value.handle) < |tagDirectives| {
        if allowDuplicates {
          return true;
        }
        error := true;
        return false;
      }
      tagDirectives := tagDirectives + [value];
      return true;
    }

    /** A directive that is not taken yet. */
    method ProcessDirective(t: Token, version: bool) returns (ok: bool, version': bool)
      requires Running() && tokenAvailable && t == tokens[head] && t.typ in {VERSION_DIRECTIVE, TAG_DIRECTIVE}
      modifies this`error, this`tagDirectives
      ensures ok ==> Running() && tokenAvailable && Now() == old(Now()).(directives := tagDirectives)
      ensures ok ==> Directed(tokens, old(Now()), version) == Directed(tokens, Skipped(tokens, Now()), version')
      ensures !ok ==> error && Directed(tokens, old(Now()), version) == None
    {
      hide Directed, Declared;
      DirectedNext(tokens, Now(), version);
      version' := version;
      if t.typ == VERSION_DIRECTIVE {
        if version || t.major != 1 || t.minor != 1 {
          error := true;
          return false, version';
        }
        ok, version' := true, true;
      } else {
        ok := AppendTagDirective(TagDirective(t.value, t.prefix), false);
      }
    }

    /** Takes the directives in front of a document. */
    method ProcessDirectives() returns (ok: bool)
      requires Running()
      modifies this`head, this`tokenAvailable, this`streamEndProduced, this`error, this`tagDirectives
      ensures ok <==> Directed(tokens, old(Now()), false).Some?
      ensures ok ==> Now() == Directed(tokens, old(Now()), false).value && tokenAvailable && Running()
      ensures !ok ==> error
    {
      hide Directed, Declared, WithDefault;
      var t := PeekToken();
      if t.None? {
        DirectedNone(tokens, Now(), false);
        return false;
      }
      var version := false;
      while t.value.typ == VERSION_DIRECTIVE || t.value.typ == TAG_DIRECTIVE
        invariant Running() && tokenAvailable && t == Some(tokens[head])
        invariant Directed(tokens, old(Now()), false) == Directed(tokens, Now(), version)
        decreases |tokens| - head
      {
        ok, version := ProcessDirective(t.value, version);
        if !ok {
          return;
        }
        DirectedNone(tokens, Skipped(tokens, Now()), version);
        t := NextToken();
        if t.None? {
          return false;
        }
      }
      DirectedNext(tokens, Now(), version);
      ok := AppendTagDirective(DEFAULT_DIRECTIVES[0], true);
      if !ok {
        return;
      }
      ok := AppendTagDirective(DEFAULT_DIRECTIVES[1], true);
    }

    method ParseStreamStart() returns (ok: bool, event: Event)
      requires Running() && Shape(tokens, Now()) && state == StreamStartState
      modifies this
      ensures produced == old(produced) && Did(StreamStartNext(tokens, old(Now())), ok, event)
    {
      event := NoEvent;
      var t := PeekToken();
      if t.None? {
        return false, event;
      }
      if t.value.typ != STREAM_START {
        error := true;
        return false, event;
      }
      state := ImplicitDocumentStart;
      SkipToken();
      return true, StreamStart;
    }

    /** The next token that is not a DOCUMENT-END. */
    method SkipDocumentEnds() returns (token: Option<Token>)
      requires Running()
      modifies this`head, this`tokenAvailable, this`streamEndProduced, this`error
      ensures token.Some? <==> PastEnds(tokens, old(Now())).Some?
      ensures token.Some? ==> Now() == PastEnds(tokens, old(Now())).value && token.value == tokens[head] && tokenAvailable && Running()
      ensures token.None? ==> error
    {
      token := PeekToken();
      if token.None? {
        return;
      }
      while token.value.typ == DOCUMENT_END
        invariant Running() && tokenAvailable && token == Some(tokens[head])
        invariant PastEnds(tokens, old(Now())) == PastEnds(tokens, Now())
        decreases |tokens| - head
      {
        token := NextToken();
        if token.None? {
          return;
        }
      }
    }

    /** DOCUMENT-START, or STREAM-END if there is no further document. */
    method ParseDocumentStart(implicit: bool) returns (ok: bool, event: Event)
      requires Running() && Shape(tokens, Now()) && state == (if implicit then ImplicitDocumentStart else DocumentStartState)
      modifies this
      ensures produced == old(produced) && Did(DocumentStartNext(tokens, old(Now()), implicit), ok, event)
    {
      hide PastEnds, ImplicitDocument, ExplicitDocument;
      event := NoEvent;
      var t: Option<Token>;
      if implicit {
        t := PeekToken();
      } else {
        t := SkipDocumentEnds();
      }
      if t.None? {
        return false, event;
      }
      if implicit && t.value.typ != VERSION_DIRECTIVE && t.value.typ != TAG_DIRECTIVE && t.value.typ != DOCUMENT_START
         && t.value.typ != STREAM_END {
        ok, event := ParseImplicitDocument();
      } else if t.value.typ != STREAM_END {
        ok, event := ParseExplicitDocument();
      } else {
        state := EndState;
        SkipToken();
        return true, StreamEnd;
      }
    }

    method ParseImplicitDocument() returns (ok: bool, event: Event)
      requires Running()
      modifies this`head, this`tokenAvailable, this`state, this`states, this`streamEndProduced, this`error, this`tagDirectives
      ensures Did(ImplicitDocument(tokens, old(Now())), ok, event)
    {
      hide Directed;
      event := NoEvent;
      ok := ProcessDirectives();
      if !ok {
        return;
      }
      states := states + [DocumentEndState];
      state := BlockNode;
      return true, DocumentStart(false);
    }

    method ParseExplicitDocument() returns (ok: bool, event: Event)
      requires Running()
      modifies this`head, this`tokenAvailable, this`state, this`states, this`streamEndProduced, this`error, this`tagDirectives
      ensures Did(ExplicitDocument(tokens, old(Now())), ok, event)
    {
      hide Directed;
      event := NoEvent;
      ok := ProcessDirectives();
      if !ok {
        return;
      }
      var t := PeekToken();
      if t.None? {
        return false, event;
      }
      if t.value.typ != DOCUMENT_START {
        error := true;
        return false, event;
      }
      states := states + [DocumentEndState];
      state := DocumentContent;
      SkipToken();
      return true, DocumentStart(false);
    }

    method ParseDocumentContent() returns (ok: bool, event: Event)
      requires Running() && Shape(tokens, Now()) && state == DocumentContent
      modifies this
      ensures produced == old(produced) && Did(DocumentContentNext(tokens, old(Now())), ok, event)
    {
      hide Node, Complete;
      event := NoEvent;
      var t := PeekToken();
      if t.None? {
        return false, event;
      }
      if t.value.typ in {VERSION_DIRECTIVE, TAG_DIRECTIVE, DOCUMENT_START, DOCUMENT_END, STREAM_END} {
        CompleteNode(EMPTY_SCALAR, false);
        return true, EMPTY_SCALAR;
      }
      ok, event := ParseNode(true, false);
    }

    method ParseDocumentEnd() returns (ok: bool, event: Event)
      requires Running() && Shape(tokens, Now()) && state == DocumentEndState
      modifies this
      ensures produced == old(produced) && Did(DocumentEndNext(tokens, old(Now())), ok, event)
    {
      event := NoEvent;
      var t := PeekToken();
      if t.None? {
        return false, event;
      }
      var implicit := true;
      if t.value.typ == DOCUMENT_END {
        SkipToken();
        implicit := false;
      }
      tagDirectives := [];
      state := DocumentStartState;
      return true, DocumentEnd(implicit);
    }

    // ---- events

    /** yaml_parser_state_machine */
    method StateMachine() returns (ok: bool, event: Event)
      requires Running() && (FirstState(state) ==> tokenAvailable) && Shape(tokens, Now()) && state != EndState
      modifies this
      ensures produced == old(produced) && Did(Step(tokens, old(Now())), ok, event)
    {
      hide BlockSequenceNext, IndentlessSequenceNext, BlockMappingKeyNext, BlockMappingValueNext, FlowSequenceNext;
      hide FlowPairKeyNext, FlowPairValueNext, FlowPairEndNext, FlowMappingKeyNext, FlowMappingValueNext, Node;
      hide StreamStartNext, DocumentStartNext, DocumentContentNext, DocumentEndNext;
      match state {
        case StreamStartState => ok, event := ParseStreamStart();
        case ImplicitDocumentStart => ok, event := ParseDocumentStart(true);
        case DocumentStartState => ok, event := ParseDocumentStart(false);
        case DocumentContent => ok, event := ParseDocumentContent();
        case DocumentEndState => ok, event := ParseDocumentEnd();
        case BlockNode => ok, event := ParseNode(true, false);
        case BlockSequenceFirstEntry => ok, event := ParseBlockSequenceEntry(true);
        case BlockSequenceEntry => ok, event := ParseBlockSequenceEntry(false);
        case IndentlessSequenceEntry => ok, event := ParseIndentlessSequenceEntry();
        case BlockMappingFirstKey => ok, event := ParseBlockMappingKey(true);
        case BlockMappingKey => ok, event := ParseBlockMappingKey(false);
        case BlockMappingValue => ok, event := ParseBlockMappingValue();
        case FlowSequenceFirstEntry => ok, event := ParseFlowSequenceEntry(true);
        case FlowSequenceEntry => ok, event := ParseFlowSequenceEntry(false);
        case FlowSequenceEntryMappingKey => ok, event := ParseFlowSequenceEntryMappingKey();
        case FlowSequenceEntryMappingValue => ok, event := ParseFlowSequenceEntryMappingValue();
        case FlowSequenceEntryMappingEnd => ok, event := ParseFlowSequenceEntryMappingEnd();
        case FlowMappingFirstKey => ok, event := ParseFlowMappingKey(true);
        case FlowMappingKey => ok, event := ParseFlowMappingKey(false);
        case FlowMappingValue => ok, event := ParseFlowMappingValue(false);
        case FlowMappingEmptyValue => ok, event := ParseFlowMappingValue(true);
      }
    }

    /** The next event; nothing any more after an error or the end of the stream. */
    method Parse() returns (ok: bool, event: Event)
      requires Valid() || error
      modifies this
      ensures old(error || state == EndState) ==> ok && event == NoEvent && error == old(error) && Now() == old(Now()) && produced == old(produced)
      ensures !old(error || state == EndState) ==> Did(Step(tokens, old(Now())), ok, event)
      ensures !ok ==> error && produced == old(produced) && (old(Valid()) ==> Stuck(tokens, produced))
      ensures ok && !old(error || state == EndState) ==> (
        Valid() && produced == old(produced) + [event] && Measure(tokens, Now()) < Measure(tokens, old(Now()))
        && Accept(Where(old(Now())), event) == Some(Where(Now())))
    {
      hide Shape, Measure, AcceptAll, Accept, Step, Where, FirstState;
      EndedIs(tokens, Now());
      if streamEndProduced || error || state == EndState {
        return true, NoEvent;
      }
      ok, event := StateMachine();
      if ok {
        OneDelivered(tokens, Initial, produced, event);
        Delivered(tokens, old(Now()), Next(event, Now()), produced);
        produced := produced + [event];
      }
    }
  }

  /** All events of a list of tokens: a prefix of a well-formed stream, and a whole one
      unless there is an error. */
  method Events(tokens: seq<Token>) returns (events: seq<Event>, complete: bool)
    ensures var o := After(tokens, Initial, events);
      o.Some? && if complete then o.value.state == EndState else o.value.state != EndState && Step(tokens, o.value) == None
    ensures StreamPrefix(events)
    ensures complete ==> exists docs :: events == StreamEvents(docs)
    ensures |events| <= 8 * |tokens| + 1
  {
    hide Shape, StreamPrefix, AcceptAll, Measure, Where, Step;
    var parser := new Parser(tokens);
    events := [];
    complete := false;
    EmptyStart(tokens);
    PrefixIsAccepted(events);
    while parser.state != EndState
      invariant fresh(parser) && parser.tokens == tokens && !parser.error
      invariant parser.Valid() && events == parser.produced
      invariant |events| + Measure(tokens, parser.Now()) <= 8 * |tokens| + 1
      invariant StreamPrefix(events) && After(tokens, Initial, events) == Some(parser.Now())
      decreases Measure(tokens, parser.Now())
    {
      MeasureBounded(tokens, parser.Now());
      var ok, event := parser.Parse();
      if !ok {
        return;
      }
      assert (events + [event])[..|events|] == events;
      events := events + [event];
      MeasureBounded(tokens, parser.Now());
      PrefixIsAccepted(events);
    }
    complete := true;
    AtTheEnd(tokens, parser.Now(), events);
    MeasureBounded(tokens, parser.Now());
  }

  lemma MeasureBounded(tokens: seq<Token>, p: Snap)
    requires Shape(tokens, p)
    ensures Measure(tokens, p) >= 0
  {
  }

  lemma AtTheEnd(tokens: seq<Token>, p: Snap, events: seq<Event>)
    requires Shape(tokens, p) && p.state == EndState && AcceptAll(AtStart, events) == Some(Where(p))
    ensures exists docs :: events == StreamEvents(docs)
  {
    StreamIsAccepted(events);
  }
}
