/** The emitter: a pushdown machine over the event grammar, behind a queue of events that it looks ahead in.

    What it writes is seen as a sequence of signs: indicators, the contents of events, and orders to go on in a new line.
    The machine is proved to write what a printer that recurses over the tree of nodes would. */
module YamlEmitter {
  import opened Basics
  import opened YamlEvents
  import opened YamlOutput
  import opened YamlLayout
  import YamlGrammar
  import YamlScanner

  datatype State =
    | StreamStartState | FirstDocumentStart | DocumentStartState | DocumentContent | DocumentEndState
    | FlowSequenceFirstItem | FlowSequenceItem
    | FlowMappingFirstKey | FlowMappingKey | FlowMappingSimpleValue | FlowMappingValue
    | BlockSequenceFirstItem | BlockSequenceItem
    | BlockMappingFirstKey | BlockMappingKey | BlockMappingSimpleValue | BlockMappingValue
    | EndState

  // ---- the machine

  // The emitter's control at one moment; `loose` tells that the block sequence just begun is not indented.
  datatype Control = Control(state: State, states: seq<State>, level: int, levels: seq<int>, flow: nat, loose: bool)

  // Where a step leads to, and what it writes.
  datatype Stepped = Stepped(control: Control, signs: seq<Sign>)

  function After(signs: seq<Sign>, o: Option<Stepped>): (r: Option<Stepped>) {
    match o case None => None case Some(s) => Some(Stepped(s.control, signs + s.signs))
  }

  function Push(c: Control, s: State): (r: Control) {
    c.(states := c.states + [s])
  }

  /** Back to the state on top of the stack. */
  function Return(c: Control): (r: Control)
    requires c.states != []
  {
    c.(state := c.states[|c.states| - 1], states := c.states[..|c.states| - 1])
  }

  function Deeper(how: Settings, c: Control, flow: bool): (r: Control) {
    c.(level := Increased(how, c.level, flow, !flow && c.loose), levels := c.levels + [c.level], loose := false,
       flow := c.flow + if flow then 1 else 0)
  }

  /** The indentation around the innermost collection. */
  function Outer(c: Control): (r: int) {
    if c.levels == [] then -1 else c.levels[|c.levels| - 1]
  }

  /** Leaves a collection; none if a stack underflows. */
  function Leave(c: Control, flow: bool): (r: Option<Stepped>) {
    if c.states == [] || c.levels == [] || (flow && c.flow == 0) then None
    else Some(Stepped(Return(c.(level := Outer(c), levels := c.levels[..|c.levels| - 1], flow := c.flow - if flow then 1 else 0)), []))
  }

  predicate Simple(how: Settings, e: Event, empty: bool) {
    match e
    case Alias(_) => how.short(e)
    case Scalar(_, _, _, _) => how.short(e)
    case SequenceStart(_, _) => empty && how.short(e)
    case MappingStart(_, _) => empty && how.short(e)
    case _ => false
  }

  function NodeStep(how: Settings, c: Control, e: Event, empty: bool, tie: Tie, simple: bool): (r: Option<Stepped>) {
    var content := [Content(e, c.level, c.flow > 0, simple)];
    if c.states == [] then None
    else match e
      case Alias(_) => Some(Stepped(Return(c), content))
      case Scalar(_, _, _, _) => Some(Stepped(Return(c), content))
      case SequenceStart(_, flow) =>
        if YamlLayout.InFlow(how, c.flow > 0, flow, empty) then Some(Stepped(c.(state := FlowSequenceFirstItem), content))
        else Some(Stepped(c.(state := BlockSequenceFirstItem, loose := Loose(how, e, tie)), content))
      case MappingStart(_, flow) =>
        var inFlow := YamlLayout.InFlow(how, c.flow > 0, flow, empty);
        Some(Stepped(c.(state := if inFlow then FlowMappingFirstKey else BlockMappingFirstKey), content))
      case _ => None
  }

  function FlowItemStep(how: Settings, c: Control, e: Event, empty: bool, first: bool): (r: Option<Stepped>) {
    var d := if first then Deeper(how, c, true) else c;
    var opening := if first then [Opens(LeftBracket)] else [];
    if e.SequenceEnd? then After(opening + (Trailing(how, !first, Outer(d)) + [Closes(RightBracket)]), Leave(d, true))
    else After(opening + Separator(first, d.level), NodeStep(how, Push(d, FlowSequenceItem), e, empty, Apart, false))
  }

  function BlockItemStep(how: Settings, c: Control, e: Event, empty: bool, first: bool): (r: Option<Stepped>) {
    var d := if first then Deeper(how, c, false) else c;
    if e.SequenceEnd? then Leave(d, false)
    else After([Line(d.level), Enters(Dash, true)], NodeStep(how, Push(d, BlockSequenceItem), e, empty, Apart, false))
  }

  function FlowKeyStep(how: Settings, c: Control, e: Event, empty: bool, first: bool): (r: Option<Stepped>) {
    var d := if first then Deeper(how, c, true) else c;
    var opening := if first then [Opens(LeftBrace)] else [];
    var before := opening + Separator(first, d.level);
    if e.MappingEnd? then After(opening + (Trailing(how, !first, Outer(d)) + [Closes(RightBrace)]), Leave(d, true))
    else if !how.canonical && Simple(how, e, empty) then
      After(before, NodeStep(how, Push(d, FlowMappingSimpleValue), e, empty, Dense, true))
    else After(before + [Enters(Question, false)], NodeStep(how, Push(d, FlowMappingValue), e, empty, Dense, false))
  }

  function BlockKeyStep(how: Settings, c: Control, e: Event, empty: bool, first: bool): (r: Option<Stepped>) {
    var d := if first then Deeper(how, c, false) else c;
    if e.MappingEnd? then Leave(d, false)
    else if Simple(how, e, empty) then
      After([Line(d.level)], NodeStep(how, Push(d, BlockMappingSimpleValue), e, empty, Dense, true))
    else After([Line(d.level), Enters(Question, true)], NodeStep(how, Push(d, BlockMappingValue), e, empty, Dense, false))
  }

  function ValueStep(how: Settings, c: Control, e: Event, empty: bool, flow: bool, simple: bool): (r: Option<Stepped>) {
    After(ColonSigns(simple, flow, c.level),
      NodeStep(how, Push(c, if flow then FlowMappingKey else BlockMappingKey), e, empty, if simple then Tight else Dense, false))
  }

  function DocumentStep(how: Settings, c: Control, e: Event, first: bool): (r: Option<Stepped>) {
    if e.DocumentStart? then Some(Stepped(c.(state := DocumentContent), StartSigns(how, e.implicit, first)))
    else if e.StreamEnd? then Some(Stepped(c.(state := EndState), []))
    else None
  }

  /** One event; `empty` tells that it starts a collection that the next event ends. */
  function Step(how: Settings, c: Control, e: Event, empty: bool): (r: Option<Stepped>) {
    match c.state
    case StreamStartState => if e.StreamStart? then Some(Stepped(c.(state := FirstDocumentStart), [])) else None
    case FirstDocumentStart => DocumentStep(how, c, e, true)
    case DocumentStartState => DocumentStep(how, c, e, false)
    case DocumentContent => NodeStep(how, Push(c, DocumentEndState), e, empty, Apart, false)
    case DocumentEndState =>
      if e.DocumentEnd? then Some(Stepped(c.(state := DocumentStartState), EndSigns(e.implicit))) else None
    case FlowSequenceFirstItem => FlowItemStep(how, c, e, empty, true)
    case FlowSequenceItem => FlowItemStep(how, c, e, empty, false)
    case FlowMappingFirstKey => FlowKeyStep(how, c, e, empty, true)
    case FlowMappingKey => FlowKeyStep(how, c, e, empty, false)
    case FlowMappingSimpleValue => ValueStep(how, c, e, empty, true, true)
    case FlowMappingValue => ValueStep(how, c, e, empty, true, false)
    case BlockSequenceFirstItem => BlockItemStep(how, c, e, empty, true)
    case BlockSequenceItem => BlockItemStep(how, c, e, empty, false)
    case BlockMappingFirstKey => BlockKeyStep(how, c, e, empty, true)
    case BlockMappingKey => BlockKeyStep(how, c, e, empty, false)
    case BlockMappingSimpleValue => ValueStep(how, c, e, empty, false, true)
    case BlockMappingValue => ValueStep(how, c, e, empty, false, false)
    case EndState => None
  }

  const Initial: Control := Control(StreamStartState, [], -1, [], 0, false)
  const Final: Control := Control(EndState, [], -1, [], 0, false)

  /** The event at `i` starts a collection that the next one ends. */
  predicate EmptyAt(es: seq<Event>, i: nat) {
    i + 1 < |es|
    && ((es[i].SequenceStart? && es[i + 1].SequenceEnd?) || (es[i].MappingStart? && es[i + 1].MappingEnd?))
  }

  /** The events from `i` to `j`. */
  function Steps(how: Settings, es: seq<Event>, i: nat, j: nat, c: Control): (r: Option<Stepped>)
    requires i <= j <= |es|
    decreases j - i
  {
    if i == j then Some(Stepped(c, []))
    else match Steps(how, es, i, j - 1, c)
      case None => None
      case Some(s) => After(s.signs, Step(how, s.control, es[j - 1], EmptyAt(es, j - 1)))
  }

  lemma {:induction false} StepsConcat(how: Settings, es: seq<Event>, i: nat, j: nat, k: nat, c: Control)
    requires i <= j <= k <= |es| && Steps(how, es, i, j, c).Some?
    ensures var s := Steps(how, es, i, j, c).value; Steps(how, es, i, k, c) == After(s.signs, Steps(how, es, j, k, s.control))
    decreases k - j
  {
    hide Step, EmptyAt;
    var s := Steps(how, es, i, j, c).value;
    if j < k {
      StepsConcat(how, es, i, j, k - 1, c);
      match Steps(how, es, j, k - 1, s.control) {
        case None =>
        case Some(t) => AfterAfter(s.signs, t.signs, Step(how, t.control, es[k - 1], EmptyAt(es, k - 1)));
      }
    } else {
      assert s.signs + [] == s.signs;
    }
  }

  /** One run behind another. */
  lemma Continue(how: Settings, es: seq<Event>, i: nat, j: nat, k: nat, c: Control, a: Stepped, b: Stepped)
    requires i <= j <= k <= |es| && Steps(how, es, i, j, c) == Some(a) && Steps(how, es, j, k, a.control) == Some(b)
    ensures Steps(how, es, i, k, c) == Some(Stepped(b.control, a.signs + b.signs))
  {
    StepsConcat(how, es, i, j, k, c);
  }

  lemma AfterAfter(a: seq<Sign>, b: seq<Sign>, o: Option<Stepped>)
    ensures After(a, After(b, o)) == After(a + b, o)
  {
    if o.Some? {
      assert a + (b + o.value.signs) == (a + b) + o.value.signs;
    }
  }

  lemma OneStep(how: Settings, es: seq<Event>, i: nat, c: Control)
    requires i < |es|
    ensures Steps(how, es, i, i + 1, c) == Step(how, c, es[i], EmptyAt(es, i))
  {
    hide Step;
    assert Steps(how, es, i, i, c) == Some(Stepped(c, []));
    var o := Step(how, c, es[i], EmptyAt(es, i));
    if o.Some? {
      assert [] + o.value.signs == o.value.signs;
    }
  }


  // ---- the machine follows the event grammar

  /** States that are pushed while a node inside a collection is written. */
  predicate Returnable(s: State) {
    s.FlowSequenceItem? || s.FlowMappingKey? || s.FlowMappingSimpleValue? || s.FlowMappingValue?
    || s.BlockSequenceItem? || s.BlockMappingKey? || s.BlockMappingSimpleValue? || s.BlockMappingValue?
  }

  predicate First(s: State) {
    s.FlowSequenceFirstItem? || s.FlowMappingFirstKey? || s.BlockSequenceFirstItem? || s.BlockMappingFirstKey?
  }

  predicate Flowing(s: State) {
    s.FlowSequenceItem? || s.FlowMappingKey? || s.FlowMappingSimpleValue? || s.FlowMappingValue?
  }

  /** What the innermost collection waits for. */
  function Waits(s: State): (f: Frame)
    requires Returnable(s) || First(s)
  {
    match s
    case FlowSequenceFirstItem => Item
    case FlowSequenceItem => Item
    case BlockSequenceFirstItem => Item
    case BlockSequenceItem => Item
    case FlowMappingFirstKey => Key
    case FlowMappingKey => Key
    case BlockMappingFirstKey => Key
    case BlockMappingKey => Key
    case _ => Value
  }

  /** The same while the node is written that `s` has been pushed for. */
  function Writing(s: State): (f: Frame)
    requires Returnable(s)
  {
    match Waits(s) case Item => Item case Key => Value case Value => Key
  }

  predicate StackOk(states: seq<State>) {
    states != [] && states[0] == DocumentEndState && forall i | 1 <= i < |states| :: Returnable(states[i])
  }

  /** The collections of the stack, from the second state on. */
  function Open(states: seq<State>): (r: seq<Frame>)
    requires StackOk(states)
    ensures |r| == |states| - 1
  {
    seq(|states| - 1, i requires 0 <= i < |states| - 1 => Writing(states[i + 1]))
  }

  function FlowLevel(states: seq<State>): (r: nat) {
    if states == [] then 0 else FlowLevel(states[..|states| - 1]) + if Flowing(states[|states| - 1]) then 1 else 0
  }

  /** Around everything the indentation is -1. */
  predicate Rooted(c: Control) {
    (c.levels + [c.level])[0] == -1
  }

  predicate ControlOk(c: Control) {
    Rooted(c) &&
    if Returnable(c.state) then
      StackOk(c.states) && |c.levels| == |c.states| && c.flow == FlowLevel(c.states) + (if Flowing(c.state) then 1 else 0) && !c.loose
    else if First(c.state) then
      StackOk(c.states) && |c.levels| == |c.states| - 1 && c.flow == FlowLevel(c.states) && (c.loose ==> c.state.BlockSequenceFirstItem?)
    else c.states == [] && c.levels == [] && c.flow == 0 && !c.loose
  }

  /** Where in the event grammar the emitter is. */
  function Where(c: Control): (r: Position)
    requires ControlOk(c)
  {
    match c.state
    case StreamStartState => AtStart
    case FirstDocumentStart => BetweenDocuments
    case DocumentStartState => BetweenDocuments
    case DocumentContent => AtNode([])
    case DocumentEndState => AtDocumentEnd
    case EndState => AtEnd
    case _ => AtNode(Open(c.states) + [Waits(c.state)])
  }

  /** A node inside the innermost state of the stack is being written. */
  predicate NodeOk(c: Control) {
    Rooted(c) && StackOk(c.states) && |c.levels| == |c.states| - 1 && c.flow == FlowLevel(c.states) && !c.loose
  }

  lemma Pushed(states: seq<State>, s: State)
    requires StackOk(states) && Returnable(s)
    ensures StackOk(states + [s]) && Open(states + [s]) == Open(states) + [Writing(s)]
    ensures FlowLevel(states + [s]) == FlowLevel(states) + if Flowing(s) then 1 else 0
  {
    assert (states + [s])[..|states|] == states;
  }

  /** Going back to the state on top of the stack is completing the node. */
  lemma Returned(c: Control)
    requires NodeOk(c)
    ensures ControlOk(Return(c)) && Where(Return(c)) == Completed(Open(c.states))
  {
    var top, rest := c.states[|c.states| - 1], c.states[..|c.states| - 1];
    if |c.states| == 1 {
      assert FlowLevel([]) == 0;
    } else {
      assert rest + [top] == c.states;
      Pushed(rest, top);
      hide FlowLevel;
      var open := Open(rest) + [Writing(top)];
      assert open[|open| - 1 := Waits(top)] == Open(rest) + [Waits(top)];
    }
  }

  /** Ending the innermost collection. */
  lemma Ended(c: Control, e: Event)
    requires ControlOk(c) && (Returnable(c.state) || First(c.state))
    requires (e.SequenceEnd? && Waits(c.state) == Item) || (e.MappingEnd? && Waits(c.state) == Key)
    ensures Accept(Where(c), e) == Some(Completed(Open(c.states)))
  {
    var open := Open(c.states) + [Waits(c.state)];
    assert open[..|open| - 1] == Open(c.states);
    hide FlowLevel, Completed;
  }

  /** A step is taken if and only if the grammar allows the event, and it leads where the grammar says. */
  ghost predicate Follows(p: Position, e: Event, o: Option<Stepped>) {
    match Accept(p, e)
    case None => o == None
    case Some(q) => o.Some? && ControlOk(o.value.control) && Where(o.value.control) == q
  }

  predicate StartsNode(e: Event) {
    e.Alias? || e.Scalar? || e.SequenceStart? || e.MappingStart?
  }

  /** A node step in a pushed state follows the grammar, but for the ends of collections. */
  lemma NodeFollows(how: Settings, c: Control, e: Event, empty: bool, tie: Tie, simple: bool)
    requires NodeOk(c)
    ensures StartsNode(e) ==> Follows(AtNode(Open(c.states)), e, NodeStep(how, c, e, empty, tie, simple))
    ensures !StartsNode(e) ==> NodeStep(how, c, e, empty, tie, simple) == None
    ensures !StartsNode(e) && !e.SequenceEnd? && !e.MappingEnd? ==> Accept(AtNode(Open(c.states)), e) == None
  {
    hide FlowLevel, Completed, Follows, NodeStep, Open, NodeOk;
    match e {
      case Alias(_) => SmallFollows(how, c, e, empty, tie, simple);
      case Scalar(_, _, _, _) => SmallFollows(how, c, e, empty, tie, simple);
      case SequenceStart(_, _) => StartFollows(how, c, e, empty, tie, simple);
      case MappingStart(_, _) => StartFollows(how, c, e, empty, tie, simple);
      case _ => NodeStepFails(how, c, e, empty, tie, simple);
    }
  }

  lemma SmallFollows(how: Settings, c: Control, e: Event, empty: bool, tie: Tie, simple: bool)
    requires NodeOk(c) && (e.Alias? || e.Scalar?)
    ensures Follows(AtNode(Open(c.states)), e, NodeStep(how, c, e, empty, tie, simple))
  {
    Returned(c);
    hide FlowLevel, Completed, Return, ControlOk, Where;
  }

  lemma StartFollows(how: Settings, c: Control, e: Event, empty: bool, tie: Tie, simple: bool)
    requires NodeOk(c) && (e.SequenceStart? || e.MappingStart?)
    ensures Follows(AtNode(Open(c.states)), e, NodeStep(how, c, e, empty, tie, simple))
  {
    hide FlowLevel, Completed, Loose, YamlLayout.InFlow;
  }

  /** Inside a collection, with `next` pushed. */
  lemma InsideFollows(how: Settings, c: Control, d: Control, next: State, e: Event, empty: bool, tie: Tie, simple: bool)
    requires ControlOk(c) && (Returnable(c.state) || First(c.state)) && Returnable(next)
    requires Writing(next) == Waits(c.state)
    requires Rooted(d) && !d.loose && d.states == c.states && |d.levels| == |c.states| && d.flow == FlowLevel(c.states) + if Flowing(next) then 1 else 0
    ensures StartsNode(e) ==> Follows(Where(c), e, NodeStep(how, Push(d, next), e, empty, tie, simple))
    ensures !StartsNode(e) ==> NodeStep(how, Push(d, next), e, empty, tie, simple) == None
    ensures !StartsNode(e) && Accept(Where(c), e).Some? ==>
      (e.SequenceEnd? && Waits(c.state) == Item) || (e.MappingEnd? && Waits(c.state) == Key)
  {
    Pushed(c.states, next);
    NodeFollows(how, Push(d, next), e, empty, tie, simple);
    hide FlowLevel, Completed, Follows, NodeStep;
  }

  /** Leaving a collection. */
  lemma LeaveFollows(c: Control, d: Control, flow: bool, e: Event)
    requires ControlOk(c) && (Returnable(c.state) || First(c.state))
    requires (e.SequenceEnd? && Waits(c.state) == Item) || (e.MappingEnd? && Waits(c.state) == Key)
    requires Rooted(d) && !d.loose && d.states == c.states && |d.levels| == |c.states| && d.flow == FlowLevel(c.states) + if flow then 1 else 0
    ensures Follows(Where(c), e, Leave(d, flow))
  {
    Ended(c, e);
    var n := d.(level := Outer(d), levels := d.levels[..|d.levels| - 1], flow := d.flow - if flow then 1 else 0);
    Returned(n);
    hide FlowLevel, Completed, Accept, Open;
  }

  /** What the stacks are inside a collection. */
  lemma InsideIs(how: Settings, c: Control)
    requires ControlOk(c) && (Returnable(c.state) || First(c.state))
    ensures StackOk(c.states) && |c.states| >= 1
    ensures var d := if First(c.state) then Deeper(how, c, c.state.FlowSequenceFirstItem? || c.state.FlowMappingFirstKey?) else c;
      && Rooted(d) && !d.loose && d.states == c.states && |d.levels| == |c.states|
      && d.flow == FlowLevel(c.states) + if Flowing(c.state) || c.state.FlowSequenceFirstItem? || c.state.FlowMappingFirstKey? then 1 else 0
  {
  }

  lemma ItemFollows(how: Settings, c: Control, e: Event, empty: bool)
    requires ControlOk(c)
    ensures c.state.FlowSequenceFirstItem? ==> Follows(Where(c), e, FlowItemStep(how, c, e, empty, true))
    ensures c.state.FlowSequenceItem? ==> Follows(Where(c), e, FlowItemStep(how, c, e, empty, false))
    ensures c.state.BlockSequenceFirstItem? ==> Follows(Where(c), e, BlockItemStep(how, c, e, empty, true))
    ensures c.state.BlockSequenceItem? ==> Follows(Where(c), e, BlockItemStep(how, c, e, empty, false))
  {
    hide ControlOk, Where, Open, FlowLevel, Completed, Accept, NodeStep, Leave, StackOk, NodeOk;
    if c.state.FlowSequenceFirstItem? || c.state.FlowSequenceItem? || c.state.BlockSequenceFirstItem? || c.state.BlockSequenceItem? {
      InsideIs(how, c);
      var first := First(c.state);
      var flow := c.state.FlowSequenceFirstItem? || c.state.FlowSequenceItem?;
      var d := if first then Deeper(how, c, flow) else c;
      InsideFollows(how, c, d, if flow then FlowSequenceItem else BlockSequenceItem, e, empty, Apart, false);
      if e.SequenceEnd? {
        LeaveFollows(c, d, flow, e);
      }
    }
  }

  lemma KeyFollows(how: Settings, c: Control, e: Event, empty: bool)
    requires ControlOk(c)
    ensures c.state.FlowMappingFirstKey? ==> Follows(Where(c), e, FlowKeyStep(how, c, e, empty, true))
    ensures c.state.FlowMappingKey? ==> Follows(Where(c), e, FlowKeyStep(how, c, e, empty, false))
    ensures c.state.BlockMappingFirstKey? ==> Follows(Where(c), e, BlockKeyStep(how, c, e, empty, true))
    ensures c.state.BlockMappingKey? ==> Follows(Where(c), e, BlockKeyStep(how, c, e, empty, false))
  {
    hide ControlOk, Where, Open, FlowLevel, Completed, Accept, NodeStep, Leave, StackOk, NodeOk;
    if c.state.FlowMappingFirstKey? || c.state.FlowMappingKey? || c.state.BlockMappingFirstKey? || c.state.BlockMappingKey? {
      InsideIs(how, c);
      var first := First(c.state);
      var flow := c.state.FlowMappingFirstKey? || c.state.FlowMappingKey?;
      var d := if first then Deeper(how, c, flow) else c;
      InsideFollows(how, c, d, if flow then FlowMappingSimpleValue else BlockMappingSimpleValue, e, empty, Dense, true);
      InsideFollows(how, c, d, if flow then FlowMappingValue else BlockMappingValue, e, empty, Dense, false);
      if e.MappingEnd? {
        LeaveFollows(c, d, flow, e);
      }
    }
  }

  lemma ValueFollows(how: Settings, c: Control, e: Event, empty: bool, flow: bool, simple: bool)
    requires ControlOk(c)
    requires if flow then c.state.FlowMappingSimpleValue? || c.state.FlowMappingValue? else c.state.BlockMappingSimpleValue? || c.state.BlockMappingValue?
    ensures Follows(Where(c), e, ValueStep(how, c, e, empty, flow, simple))
  {
    hide ControlOk, Where, Open, FlowLevel, Completed, Accept, NodeStep, Leave, StackOk, NodeOk;
    InsideIs(how, c);
    InsideFollows(how, c, c, if flow then FlowMappingKey else BlockMappingKey, e, empty, if simple then Tight else Dense, false);
  }

  lemma ContentFollows(how: Settings, c: Control, e: Event, empty: bool)
    requires ControlOk(c) && c.state == DocumentContent
    ensures Follows(Where(c), e, NodeStep(how, Push(c, DocumentEndState), e, empty, Apart, false))
  {
    assert FlowLevel([DocumentEndState]) == 0 by { assert [DocumentEndState][..0] == []; }
    assert c.states + [DocumentEndState] == [DocumentEndState];
    NodeFollows(how, Push(c, DocumentEndState), e, empty, Apart, false);
  }

  /** The emitter goes where the event grammar goes, it fails where the grammar does, and no stack underflows. */
  lemma StepFollows(how: Settings, c: Control, e: Event, empty: bool)
    requires ControlOk(c)
    ensures Follows(Where(c), e, Step(how, c, e, empty))
  {
    hide Open, FlowLevel, Completed, NodeStep, FlowItemStep, BlockItemStep, FlowKeyStep, BlockKeyStep, ValueStep, Waits, StackOk, StartSigns, EndSigns;
    match c.state {
      case FlowSequenceFirstItem => ItemFollows(how, c, e, empty);
      case FlowSequenceItem => ItemFollows(how, c, e, empty);
      case BlockSequenceFirstItem => ItemFollows(how, c, e, empty);
      case BlockSequenceItem => ItemFollows(how, c, e, empty);
      case FlowMappingFirstKey => KeyFollows(how, c, e, empty);
      case FlowMappingKey => KeyFollows(how, c, e, empty);
      case BlockMappingFirstKey => KeyFollows(how, c, e, empty);
      case BlockMappingKey => KeyFollows(how, c, e, empty);
      case DocumentContent => ContentFollows(how, c, e, empty);
      case FlowMappingSimpleValue => ValueFollows(how, c, e, empty, true, true);
      case FlowMappingValue => ValueFollows(how, c, e, empty, true, false);
      case BlockMappingSimpleValue => ValueFollows(how, c, e, empty, false, true);
      case BlockMappingValue => ValueFollows(how, c, e, empty, false, false);
      case _ =>
    }
  }

  lemma {:induction false} StepsFollow(how: Settings, es: seq<Event>, n: nat)
    requires n <= |es|
    ensures match AcceptAll(AtStart, es[..n])
      case None => Steps(how, es, 0, n, Initial) == None
      case Some(q) =>
        var o := Steps(how, es, 0, n, Initial);
        o.Some? && ControlOk(o.value.control) && Where(o.value.control) == q
  {
    hide Step, Accept;
    if n > 0 {
      assert es[..n][..n - 1] == es[..n - 1];
      StepsFollow(how, es, n - 1);
      hide ControlOk, Where;
      var o := Steps(how, es, 0, n - 1, Initial);
      if o.Some? {
        StepFollows(how, o.value.control, es[n - 1], EmptyAt(es, n - 1));
      }
    }
  }

  // ---- the machine writes what the recursive printer does

  /** The events `part` stand in `es` from `i` on. */
  ghost predicate At(es: seq<Event>, i: nat, part: seq<Event>) {
    i + |part| <= |es| && es[i..i + |part|] == part
  }

  lemma AtConcat(es: seq<Event>, i: nat, a: seq<Event>, b: seq<Event>)
    requires At(es, i, a + b)
    ensures At(es, i, a) && At(es, i + |a|, b)
  {
    assert es[i..i + |a + b|][..|a|] == a;
    assert es[i..i + |a + b|][|a|..] == b;
  }

  lemma AtOne(es: seq<Event>, i: nat, e: Event)
    requires At(es, i, [e])
    ensures i < |es| && es[i] == e
  {
    assert es[i..i + 1][0] == es[i];
  }

  /** A node, from the step that pushed `c`'s top on. */
  function NodeRun(how: Settings, es: seq<Event>, i: nat, j: nat, c: Control, tie: Tie, simple: bool): (r: Option<Stepped>)
    requires i < j <= |es|
  {
    match NodeStep(how, c, es[i], EmptyAt(es, i), tie, simple)
    case None => None
    case Some(s) => After(s.signs, Steps(how, es, i + 1, j, s.control))
  }

  /** A step that pushes a state and goes on with a node, and the rest of that node. */
  lemma PushedRun(how: Settings, es: seq<Event>, i: nat, j: nat, c: Control, before: seq<Sign>, d: Control, tie: Tie, simple: bool)
    requires i < j <= |es|
    requires Step(how, c, es[i], EmptyAt(es, i)) == After(before, NodeStep(how, d, es[i], EmptyAt(es, i), tie, simple))
    ensures Steps(how, es, i, j, c) == After(before, NodeRun(how, es, i, j, d, tie, simple))
  {
    hide Step, NodeStep, Steps, EmptyAt;
    OneStep(how, es, i, c);
    var n := NodeStep(how, d, es[i], EmptyAt(es, i), tie, simple);
    if n.Some? {
      StepsConcat(how, es, i, i + 1, j, c);
      AfterAfter(before, n.value.signs, Steps(how, es, i + 1, j, n.value.control));
    } else {
      FailedSteps(how, es, i, j, c);
    }
  }

  lemma {:induction false} FailedSteps(how: Settings, es: seq<Event>, i: nat, j: nat, c: Control)
    requires i < j <= |es| && Steps(how, es, i, i + 1, c) == None
    ensures Steps(how, es, i, j, c) == None
    decreases j
  {
    hide Step;
    if i + 1 < j {
      FailedSteps(how, es, i, j - 1, c);
    }
  }

  /** Of any node, the first event starts a node; it starts an empty collection if the node is one. */
  lemma NodeHead(es: seq<Event>, i: nat, t: Tree)
    requires At(es, i, NodeEvents(t))
    ensures i < |es| && StartsNode(es[i]) && |NodeEvents(t)| >= 1
    ensures es[i] == Head(t)
    ensures forall how: Settings :: Simple(how, es[i], EmptyAt(es, i)) == IsSimpleKey(how, t)
    ensures t.SequenceTree? ==> EmptyAt(es, i) == (t.items == [])
    ensures t.MappingTree? ==> EmptyAt(es, i) == (t.pairs == [])
  {
    hide At, ItemEvents, PairEvents, EmptyAt;
    match t {
      case AliasTree(name) => AtOne(es, i, Alias(name));
      case ScalarTree(props, value, quoted, plain) => AtOne(es, i, Scalar(props, value, quoted, plain));
      case SequenceTree(props, flow, items) => SequenceHead(es, i, props, flow, items);
      case MappingTree(props, flow, pairs) => MappingHead(es, i, props, flow, pairs);
    }
  }

  lemma SequenceHead(es: seq<Event>, i: nat, props: Props, flow: bool, items: seq<Tree>)
    requires At(es, i, NodeEvents(SequenceTree(props, flow, items)))
    ensures i < |es| && es[i] == SequenceStart(props, flow) && EmptyAt(es, i) == (items == [])
  {
    hide At, ItemEvents;
    AtConcat(es, i, [SequenceStart(props, flow)] + ItemEvents(items), [SequenceEnd]);
    AtConcat(es, i, [SequenceStart(props, flow)], ItemEvents(items));
    AtOne(es, i, SequenceStart(props, flow));
    ItemsHead(es, i + 1, items);
    AtOne(es, i + 1 + |ItemEvents(items)|, SequenceEnd);
  }

  lemma MappingHead(es: seq<Event>, i: nat, props: Props, flow: bool, pairs: seq<Pair>)
    requires At(es, i, NodeEvents(MappingTree(props, flow, pairs)))
    ensures i < |es| && es[i] == MappingStart(props, flow) && EmptyAt(es, i) == (pairs == [])
  {
    hide At, PairEvents;
    AtConcat(es, i, [MappingStart(props, flow)] + PairEvents(pairs), [MappingEnd]);
    AtConcat(es, i, [MappingStart(props, flow)], PairEvents(pairs));
    AtOne(es, i, MappingStart(props, flow));
    PairsHead(es, i + 1, pairs);
    AtOne(es, i + 1 + |PairEvents(pairs)|, MappingEnd);
  }

  lemma {:induction false} ItemsHead(es: seq<Event>, i: nat, items: seq<Tree>)
    requires At(es, i, ItemEvents(items))
    ensures items != [] ==> i < |es| && StartsNode(es[i])
    ensures items == [] ==> ItemEvents(items) == []
    decreases items
  {
    if items != [] {
      AtConcat(es, i, ItemEvents(items[..|items| - 1]), NodeEvents(items[|items| - 1]));
      if |items| == 1 {
        FirstOfNode(es, i, items[0]);
      } else {
        ItemsHead(es, i, items[..|items| - 1]);
      }
    }
  }

  lemma {:induction false} PairsHead(es: seq<Event>, i: nat, pairs: seq<Pair>)
    requires At(es, i, PairEvents(pairs))
    ensures pairs != [] ==> i < |es| && StartsNode(es[i])
    ensures pairs == [] ==> PairEvents(pairs) == []
    decreases pairs
  {
    if pairs != [] {
      var last := pairs[|pairs| - 1];
      AtConcat(es, i, PairEvents(pairs[..|pairs| - 1]), KeyValueEvents(last));
      if |pairs| == 1 {
        AtConcat(es, i, NodeEvents(last.key), NodeEvents(last.value));
        FirstOfNode(es, i, last.key);
      } else {
        PairsHead(es, i, pairs[..|pairs| - 1]);
      }
    }
  }

  lemma FirstOfNode(es: seq<Event>, i: nat, t: Tree)
    requires At(es, i, NodeEvents(t))
    ensures i < |es| && StartsNode(es[i])
  {
    assert NodeEvents(t) != [] && StartsNode(NodeEvents(t)[0]);
    assert es[i..i + |NodeEvents(t)|][0] == es[i];
  }

  /** Inside a flow collection, or a block one, before its first entry or behind some. */
  function Entered(how: Settings, c: Control, flow: bool, some: bool, first: State, later: State): (r: Control) {
    if some then Deeper(how, c, flow).(state := later) else c.(state := first)
  }

  /** The indentation of the entries. */
  function Inner(how: Settings, c: Control, flow: bool): (r: int) {
    Deeper(how, c, flow).level
  }

  lemma {:induction false} NodePrinted(how: Settings, es: seq<Event>, i: nat, t: Tree, c: Control, tie: Tie, simple: bool)
    requires At(es, i, NodeEvents(t)) && c.states != [] && !c.loose
    ensures |NodeEvents(t)| >= 1 && i + |NodeEvents(t)| <= |es|
    ensures NodeRun(how, es, i, i + |NodeEvents(t)|, c, tie, simple) == Some(Stepped(Return(c), Printed(how, t, c.flow > 0, c.level, tie, simple)))
    decreases t, 1
  {
    match t {
      case AliasTree(name) =>
        AtOne(es, i, Alias(name));
        OneSign(Content(Alias(name), c.level, c.flow > 0, simple));
      case ScalarTree(props, value, quoted, plain) =>
        AtOne(es, i, Scalar(props, value, quoted, plain));
        OneSign(Content(Scalar(props, value, quoted, plain), c.level, c.flow > 0, simple));
      case SequenceTree(props, flow, items) => SequenceNodePrinted(how, es, i, props, flow, items, c, tie, simple);
      case MappingTree(props, flow, pairs) => MappingNodePrinted(how, es, i, props, flow, pairs, c, tie, simple);
    }
  }

  lemma {:induction false} SequenceNodePrinted(how: Settings, es: seq<Event>, i: nat, props: Props, flow: bool, items: seq<Tree>, c: Control, tie: Tie, simple: bool)
    requires At(es, i, NodeEvents(SequenceTree(props, flow, items))) && c.states != [] && !c.loose
    ensures var t := SequenceTree(props, flow, items);
      && |NodeEvents(t)| >= 1 && i + |NodeEvents(t)| <= |es|
      && NodeRun(how, es, i, i + |NodeEvents(t)|, c, tie, simple) == Some(Stepped(Return(c), Printed(how, t, c.flow > 0, c.level, tie, simple)))
    decreases items, 3
  {
    hide At, Step, EmptyAt, FlowItems, BlockItems, ItemEvents, Steps, Loose, Increased, Trailing;
    SequenceHead(es, i, props, flow, items);
    AtConcat(es, i, [SequenceStart(props, flow)] + ItemEvents(items), [SequenceEnd]);
    AtConcat(es, i, [SequenceStart(props, flow)], ItemEvents(items));
    AtOne(es, i + 1 + |ItemEvents(items)|, SequenceEnd);
    var inFlow := YamlLayout.InFlow(how, c.flow > 0, flow, items == []);
    var d := if inFlow then c else c.(loose := Loose(how, SequenceStart(props, flow), tie));
    SequencePrinted(how, es, i + 1, items, d, inFlow);
    var content, inner := [Content(SequenceStart(props, flow), c.level, c.flow > 0, simple)], FlowItems(how, items, Inner(how, c, true)) + Trailing(how, items != [], c.level);
    assert content + ([Opens(LeftBracket)] + inner + [Closes(RightBracket)]) == content + [Opens(LeftBracket)] + inner + [Closes(RightBracket)];
  }

  lemma {:induction false} MappingNodePrinted(how: Settings, es: seq<Event>, i: nat, props: Props, flow: bool, pairs: seq<Pair>, c: Control, tie: Tie, simple: bool)
    requires At(es, i, NodeEvents(MappingTree(props, flow, pairs))) && c.states != [] && !c.loose
    ensures var t := MappingTree(props, flow, pairs);
      && |NodeEvents(t)| >= 1 && i + |NodeEvents(t)| <= |es|
      && NodeRun(how, es, i, i + |NodeEvents(t)|, c, tie, simple) == Some(Stepped(Return(c), Printed(how, t, c.flow > 0, c.level, tie, simple)))
    decreases pairs, 3
  {
    hide At, Step, EmptyAt, FlowPairs, BlockPairs, PairEvents, Steps, Increased, Trailing;
    MappingHead(es, i, props, flow, pairs);
    AtConcat(es, i, [MappingStart(props, flow)] + PairEvents(pairs), [MappingEnd]);
    AtConcat(es, i, [MappingStart(props, flow)], PairEvents(pairs));
    AtOne(es, i + 1 + |PairEvents(pairs)|, MappingEnd);
    MappingPrinted(how, es, i + 1, pairs, c, YamlLayout.InFlow(how, c.flow > 0, flow, pairs == []));
    var content, inner := [Content(MappingStart(props, flow), c.level, c.flow > 0, simple)], FlowPairs(how, pairs, Inner(how, c, true)) + Trailing(how, pairs != [], c.level);
    assert content + ([Opens(LeftBrace)] + inner + [Closes(RightBrace)]) == content + [Opens(LeftBrace)] + inner + [Closes(RightBrace)];
  }

  function SequenceSigns(how: Settings, items: seq<Tree>, c: Control, flow: bool): (r: seq<Sign>) {
    if flow then [Opens(LeftBracket)] + (FlowItems(how, items, Inner(how, c, true)) + Trailing(how, items != [], c.level)) + [Closes(RightBracket)]
    else BlockItems(how, items, Inner(how, c, false))
  }

  function ItemsSigns(how: Settings, items: seq<Tree>, c: Control, flow: bool): (r: seq<Sign>) {
    if items == [] then []
    else if flow then [Opens(LeftBracket)] + FlowItems(how, items, Inner(how, c, true))
    else BlockItems(how, items, Inner(how, c, false))
  }

  function FirstItem(flow: bool): (s: State) {
    if flow then FlowSequenceFirstItem else BlockSequenceFirstItem
  }

  function LaterItem(flow: bool): (s: State) {
    if flow then FlowSequenceItem else BlockSequenceItem
  }

  /** The items of a sequence, and its end. */
  lemma {:induction false} SequencePrinted(how: Settings, es: seq<Event>, i: nat, items: seq<Tree>, c: Control, flow: bool)
    requires At(es, i, ItemEvents(items)) && c.states != [] && (c.flow > 0 || items == [] ==> flow) && (flow ==> !c.loose)
    requires i + |ItemEvents(items)| < |es| && es[i + |ItemEvents(items)|].SequenceEnd?
    ensures Steps(how, es, i, i + |ItemEvents(items)| + 1, c.(state := FirstItem(flow)))
         == Some(Stepped(Return(c.(loose := false)), SequenceSigns(how, items, c, flow)))
    decreases items, 2
  {
    hide At, NodeStep, EmptyAt, Printed, ItemEvents, FlowItems, BlockItems, Steps, Increased, Trailing;
    var j := i + |ItemEvents(items)|;
    ItemsPrinted(how, es, i, items, c, flow);
    var s := Entered(how, c, flow, items != [], FirstItem(flow), LaterItem(flow));
    OneStep(how, es, j, s);
    var signs := ItemsSigns(how, items, c, flow);
    LeftSequence(how, items, c, flow, es[j], EmptyAt(es, j));
    var b := Step(how, s, es[j], EmptyAt(es, j)).value;
    Continue(how, es, i, j, j + 1, c.(state := FirstItem(flow)), Stepped(s, signs), b);
  }

  /** The step that ends a sequence. */
  lemma LeftSequence(how: Settings, items: seq<Tree>, c: Control, flow: bool, e: Event, empty: bool)
    requires c.states != [] && e.SequenceEnd? && (items == [] ==> flow) && (flow ==> !c.loose)
    ensures var o := Step(how, Entered(how, c, flow, items != [], FirstItem(flow), LaterItem(flow)), e, empty);
      && o.Some? && o.value.control == Return(c.(loose := false))
      && ItemsSigns(how, items, c, flow) + o.value.signs == SequenceSigns(how, items, c, flow)
  {
    hide NodeStep, Printed, Increased, Trailing;
    NoItems(how, Inner(how, c, flow));
    var d := Deeper(how, c, flow);
    assert d.levels[..|d.levels| - 1] == c.levels && Outer(d) == c.level;
  }

  lemma NoItems(how: Settings, level: int)
    ensures FlowItems(how, [], level) == [] && BlockItems(how, [], level) == []
  {
  }

  lemma {:induction false} ItemsPrinted(how: Settings, es: seq<Event>, i: nat, items: seq<Tree>, c: Control, flow: bool)
    requires At(es, i, ItemEvents(items)) && c.states != [] && (c.flow > 0 ==> flow)
    ensures i + |ItemEvents(items)| <= |es|
    ensures Steps(how, es, i, i + |ItemEvents(items)|, c.(state := FirstItem(flow)))
         == Some(Stepped(Entered(how, c, flow, items != [], FirstItem(flow), LaterItem(flow)), ItemsSigns(how, items, c, flow)))
    decreases items, 0
  {
    hide NodeStep, EmptyAt, Printed, Step, NodeEvents, Deeper, Inner;
    if items != [] {
      var init, last := items[..|items| - 1], items[|items| - 1];
      AtConcat(es, i, ItemEvents(init), NodeEvents(last));
      ItemsPrinted(how, es, i, init, c, flow);
      var j := i + |ItemEvents(init)|;
      ItemPrinted(how, es, j, last, c, flow, init != []);
      var s := Entered(how, c, flow, init != [], FirstItem(flow), LaterItem(flow));
      Continue(how, es, i, j, j + |NodeEvents(last)|, c.(state := FirstItem(flow)), Stepped(s, ItemsSigns(how, init, c, flow)),
        Stepped(Entered(how, c, flow, true, FirstItem(flow), LaterItem(flow)), ItemSigns(how, last, c, flow, init != [])));
      MoreItems(how, items, c, flow);
    }
  }

  function ItemSigns(how: Settings, item: Tree, c: Control, flow: bool, some: bool): (r: seq<Sign>) {
    var level := Inner(how, c, flow);
    (if flow then (if some then [] else [Opens(LeftBracket)]) + Separator(!some, level) else [Line(level), Enters(Dash, true)])
    + Printed(how, item, flow, level, Apart, false)
  }

  lemma MoreItems(how: Settings, items: seq<Tree>, c: Control, flow: bool)
    requires items != []
    ensures ItemsSigns(how, items[..|items| - 1], c, flow) + ItemSigns(how, items[|items| - 1], c, flow, |items| > 1)
         == ItemsSigns(how, items, c, flow)
  {
    hide Printed, Inner, Separator;
    var level := Inner(how, c, flow);
    NoItems(how, level);
    var init, last := items[..|items| - 1], Printed(how, items[|items| - 1], flow, level, Apart, false);
    if flow {
      assert [Opens(LeftBracket)] + Separator(true, level) + last == [Opens(LeftBracket)] + ([] + (Separator(true, level) + last));
      assert [] + Separator(false, level) + last == Separator(false, level) + last;
      assert ([Opens(LeftBracket)] + FlowItems(how, init, level)) + (Separator(false, level) + last)
          == [Opens(LeftBracket)] + (FlowItems(how, init, level) + (Separator(false, level) + last));
    } else {
      assert [] + ([Line(level), Enters(Dash, true)] + last) == [Line(level), Enters(Dash, true)] + last;
    }
  }

  /** One item, the first one or behind `some`. */
  lemma {:induction false} ItemPrinted(how: Settings, es: seq<Event>, i: nat, item: Tree, c: Control, flow: bool, some: bool)
    requires At(es, i, NodeEvents(item)) && c.states != [] && (c.flow > 0 ==> flow)
    ensures i + |NodeEvents(item)| <= |es|
    ensures Steps(how, es, i, i + |NodeEvents(item)|, Entered(how, c, flow, some, FirstItem(flow), LaterItem(flow)))
         == Some(Stepped(Entered(how, c, flow, true, FirstItem(flow), LaterItem(flow)), ItemSigns(how, item, c, flow, some)))
    decreases item, 2
  {
    hide NodeStep, EmptyAt, Printed, Steps, NodeRun, NodeEvents, Step, Increased, Separator;
    FirstOfNode(es, i, item);
    var j := i + |NodeEvents(item)|;
    var d := Push(Deeper(how, c, flow).(state := if some then LaterItem(flow) else FirstItem(flow)), LaterItem(flow));
    NodePrinted(how, es, i, item, d, Apart, false);
    var level := Inner(how, c, flow);
    var before := if flow then (if some then [] else [Opens(LeftBracket)]) + Separator(!some, level) else [Line(level), Enters(Dash, true)];
    ItemStepIs(how, c, es[i], EmptyAt(es, i), flow, some);
    PushedRun(how, es, i, j, Entered(how, c, flow, some, FirstItem(flow), LaterItem(flow)), before, d, Apart, false);
  }

  /** The step of an event that starts an item. */
  lemma ItemStepIs(how: Settings, c: Control, e: Event, empty: bool, flow: bool, some: bool)
    requires StartsNode(e)
    ensures var level := Inner(how, c, flow);
      var before := if flow then (if some then [] else [Opens(LeftBracket)]) + Separator(!some, level) else [Line(level), Enters(Dash, true)];
      var d := Push(Deeper(how, c, flow).(state := if some then LaterItem(flow) else FirstItem(flow)), LaterItem(flow));
      Step(how, Entered(how, c, flow, some, FirstItem(flow), LaterItem(flow)), e, empty) == After(before, NodeStep(how, d, e, empty, Apart, false))
  {
    hide NodeStep, Increased, Separator;
  }

  lemma {:induction false} MappingPrinted(how: Settings, es: seq<Event>, i: nat, pairs: seq<Pair>, c: Control, flow: bool)
    requires At(es, i, PairEvents(pairs)) && c.states != [] && (c.flow > 0 || pairs == [] ==> flow) && !c.loose
    requires i + |PairEvents(pairs)| < |es| && es[i + |PairEvents(pairs)|].MappingEnd?
    ensures Steps(how, es, i, i + |PairEvents(pairs)| + 1, c.(state := FirstKey(flow)))
         == Some(Stepped(Return(c), MappingSigns(how, pairs, c, flow)))
    decreases pairs, 2
  {
    hide At, NodeStep, EmptyAt, Printed, PairEvents, FlowPairs, BlockPairs, Steps, Simple, Increased, Trailing;
    var j := i + |PairEvents(pairs)|;
    PairsPrinted(how, es, i, pairs, c, flow);
    var s := Entered(how, c, flow, pairs != [], FirstKey(flow), LaterKey(flow));
    OneStep(how, es, j, s);
    var signs := PairsSigns(how, pairs, c, flow);
    LeftMapping(how, pairs, c, flow, es[j], EmptyAt(es, j));
    var b := Step(how, s, es[j], EmptyAt(es, j)).value;
    Continue(how, es, i, j, j + 1, c.(state := FirstKey(flow)), Stepped(s, signs), b);
  }

  /** The step that ends a mapping. */
  lemma LeftMapping(how: Settings, pairs: seq<Pair>, c: Control, flow: bool, e: Event, empty: bool)
    requires c.states != [] && e.MappingEnd? && (pairs == [] ==> flow) && !c.loose
    ensures var o := Step(how, Entered(how, c, flow, pairs != [], FirstKey(flow), LaterKey(flow)), e, empty);
      && o.Some? && o.value.control == Return(c)
      && PairsSigns(how, pairs, c, flow) + o.value.signs == MappingSigns(how, pairs, c, flow)
  {
    hide NodeStep, Printed, Increased, Trailing, Simple;
    NoPairs(how, Inner(how, c, flow));
    var d := Deeper(how, c, flow);
    assert d.levels[..|d.levels| - 1] == c.levels && Outer(d) == c.level;
  }

  lemma NoPairs(how: Settings, level: int)
    ensures FlowPairs(how, [], level) == [] && BlockPairs(how, [], level) == []
  {
  }

  function MappingSigns(how: Settings, pairs: seq<Pair>, c: Control, flow: bool): (r: seq<Sign>) {
    if flow then [Opens(LeftBrace)] + (FlowPairs(how, pairs, Inner(how, c, true)) + Trailing(how, pairs != [], c.level)) + [Closes(RightBrace)]
    else BlockPairs(how, pairs, Inner(how, c, false))
  }

  function PairsSigns(how: Settings, pairs: seq<Pair>, c: Control, flow: bool): (r: seq<Sign>) {
    if pairs == [] then []
    else if flow then [Opens(LeftBrace)] + FlowPairs(how, pairs, Inner(how, c, true))
    else BlockPairs(how, pairs, Inner(how, c, false))
  }

  function FirstKey(flow: bool): (s: State) {
    if flow then FlowMappingFirstKey else BlockMappingFirstKey
  }

  function LaterKey(flow: bool): (s: State) {
    if flow then FlowMappingKey else BlockMappingKey
  }

  lemma {:induction false} PairsPrinted(how: Settings, es: seq<Event>, i: nat, pairs: seq<Pair>, c: Control, flow: bool)
    requires At(es, i, PairEvents(pairs)) && c.states != [] && (c.flow > 0 ==> flow) && !c.loose
    ensures i + |PairEvents(pairs)| <= |es|
    ensures Steps(how, es, i, i + |PairEvents(pairs)|, c.(state := FirstKey(flow)))
         == Some(Stepped(Entered(how, c, flow, pairs != [], FirstKey(flow), LaterKey(flow)), PairsSigns(how, pairs, c, flow)))
    decreases pairs, 0
  {
    hide NodeStep, EmptyAt, Printed, PairSigns, Step, KeyValueEvents, Deeper, Inner;
    if pairs != [] {
      var init, last := pairs[..|pairs| - 1], pairs[|pairs| - 1];
      AtConcat(es, i, PairEvents(init), KeyValueEvents(last));
      PairsPrinted(how, es, i, init, c, flow);
      var j := i + |PairEvents(init)|;
      PairPrinted(how, es, j, last, c, flow, init != []);
      var s := Entered(how, c, flow, init != [], FirstKey(flow), LaterKey(flow));
      Continue(how, es, i, j, j + |KeyValueEvents(last)|, c.(state := FirstKey(flow)), Stepped(s, PairsSigns(how, init, c, flow)),
        Stepped(Entered(how, c, flow, true, FirstKey(flow), LaterKey(flow)), EntrySigns(how, last, c, flow, init != [])));
      MorePairs(how, pairs, c, flow);
    }
  }

  /** What goes before a pair. */
  function Leading(flow: bool, some: bool, level: int): (r: seq<Sign>) {
    if flow then (if some then [] else [Opens(LeftBrace)]) + Separator(!some, level) else [Line(level)]
  }

  function EntrySigns(how: Settings, p: Pair, c: Control, flow: bool, some: bool): (r: seq<Sign>) {
    Leading(flow, some, Inner(how, c, flow)) + PairSigns(how, p, flow, Inner(how, c, flow))
  }

  lemma MorePairs(how: Settings, pairs: seq<Pair>, c: Control, flow: bool)
    requires pairs != []
    ensures PairsSigns(how, pairs[..|pairs| - 1], c, flow) + EntrySigns(how, pairs[|pairs| - 1], c, flow, |pairs| > 1)
         == PairsSigns(how, pairs, c, flow)
  {
    hide PairSigns, Inner, Separator;
    var level := Inner(how, c, flow);
    NoPairs(how, level);
    var init, last := pairs[..|pairs| - 1], PairSigns(how, pairs[|pairs| - 1], flow, level);
    if flow {
      assert [Opens(LeftBrace)] + Separator(true, level) + last == [Opens(LeftBrace)] + ([] + (Separator(true, level) + last));
      assert [] + Separator(false, level) + last == Separator(false, level) + last;
      assert ([Opens(LeftBrace)] + FlowPairs(how, init, level)) + (Separator(false, level) + last)
          == [Opens(LeftBrace)] + (FlowPairs(how, init, level) + (Separator(false, level) + last));
    } else {
      assert [] + ([Line(level)] + last) == [Line(level)] + last;
    }
  }

  /** One key and its value, the first pair or behind `some`. */
  lemma {:induction false} PairPrinted(how: Settings, es: seq<Event>, i: nat, p: Pair, c: Control, flow: bool, some: bool)
    requires At(es, i, KeyValueEvents(p)) && c.states != [] && (c.flow > 0 ==> flow) && !c.loose
    ensures i + |KeyValueEvents(p)| <= |es|
    ensures Steps(how, es, i, i + |KeyValueEvents(p)|, Entered(how, c, flow, some, FirstKey(flow), LaterKey(flow)))
         == Some(Stepped(Entered(how, c, flow, true, FirstKey(flow), LaterKey(flow)), EntrySigns(how, p, c, flow, some)))
    decreases p, 2
  {
    hide NodeStep, EmptyAt, Printed, Steps, NodeRun, NodeEvents, Step, Simple, IsSimpleKey, Unmarked, Increased, Leading, ColonSigns, At;
    AtConcat(es, i, NodeEvents(p.key), NodeEvents(p.value));
    var j := i + |NodeEvents(p.key)|;
    var k := j + |NodeEvents(p.value)|;
    var simple := Unmarked(how, p.key, flow);
    KeyPrinted(how, es, i, p.key, c, flow, some);
    var v := Deeper(how, c, flow).(state := ValueState(flow, simple));
    ValuePrinted(how, es, j, p.value, v, flow, simple);
    var level := Inner(how, c, flow);
    var key := Leading(flow, some, level) + KeySigns(how, p.key, flow, level);
    var value := ColonSigns(simple, flow, level) + Printed(how, p.value, flow, level, if simple then Tight else Dense, false);
    Continue(how, es, i, j, k, Entered(how, c, flow, some, FirstKey(flow), LaterKey(flow)), Stepped(v, key),
      Stepped(v.(state := LaterKey(flow)), value));
    assert value == ValueSigns(how, p.key, p.value, flow, level);
    assert key + value == EntrySigns(how, p, c, flow, some);
  }

  function ValueState(flow: bool, simple: bool): (s: State) {
    if flow then (if simple then FlowMappingSimpleValue else FlowMappingValue)
    else if simple then BlockMappingSimpleValue else BlockMappingValue
  }

  lemma {:induction false} KeyPrinted(how: Settings, es: seq<Event>, i: nat, key: Tree, c: Control, flow: bool, some: bool)
    requires At(es, i, NodeEvents(key)) && c.states != [] && (c.flow > 0 ==> flow) && !c.loose
    ensures i + |NodeEvents(key)| <= |es|
    ensures Steps(how, es, i, i + |NodeEvents(key)|, Entered(how, c, flow, some, FirstKey(flow), LaterKey(flow)))
         == Some(Stepped(Deeper(how, c, flow).(state := ValueState(flow, Unmarked(how, key, flow))),
                   Leading(flow, some, Inner(how, c, flow)) + KeySigns(how, key, flow, Inner(how, c, flow))))
    decreases key, 2
  {
    hide NodeStep, EmptyAt, Printed, Steps, NodeRun, NodeEvents, Simple, IsSimpleKey, Step, Leading, Increased;
    NodeHead(es, i, key);
    var j := i + |NodeEvents(key)|;
    var simple := Unmarked(how, key, flow);
    var d := Push(Deeper(how, c, flow).(state := if some then LaterKey(flow) else FirstKey(flow)), ValueState(flow, simple));
    NodePrinted(how, es, i, key, d, Dense, simple);
    var before := Leading(flow, some, Inner(how, c, flow)) + (if simple then [] else [Enters(Question, !flow)]);
    var s := Entered(how, c, flow, some, FirstKey(flow), LaterKey(flow));
    KeyStepIs(how, c, es[i], EmptyAt(es, i), flow, some);
    PushedRun(how, es, i, j, s, before, d, Dense, simple);
    assert before + Printed(how, key, flow, Inner(how, c, flow), Dense, simple)
      == Leading(flow, some, Inner(how, c, flow)) + KeySigns(how, key, flow, Inner(how, c, flow));
  }

  lemma NothingBefore(o: Option<Stepped>)
    ensures After([], o) == o
  {
    if o.Some? {
      assert [] + o.value.signs == o.value.signs;
    }
  }

  lemma OneSign(s: Sign)
    ensures [s] + [] == [s] && [] + [s] == [s]
  {
  }

  /** The step of an event that starts a key. */
  lemma KeyStepIs(how: Settings, c: Control, e: Event, empty: bool, flow: bool, some: bool)
    requires StartsNode(e) && !c.loose
    ensures var simple := Simple(how, e, empty) && !(flow && how.canonical);
      var before := Leading(flow, some, Inner(how, c, flow)) + (if simple then [] else [Enters(Question, !flow)]);
      var d := Push(Deeper(how, c, flow).(state := if some then LaterKey(flow) else FirstKey(flow)), ValueState(flow, simple));
      Step(how, Entered(how, c, flow, some, FirstKey(flow), LaterKey(flow)), e, empty) == After(before, NodeStep(how, d, e, empty, Dense, simple))
  {
    hide NodeStep, Simple, Increased, Separator;
    assert Leading(flow, some, Inner(how, c, flow)) + [] == Leading(flow, some, Inner(how, c, flow));
    assert [Line(Inner(how, c, flow)), Enters(Question, true)] == [Line(Inner(how, c, flow))] + [Enters(Question, true)];
  }

  lemma {:induction false} ValuePrinted(how: Settings, es: seq<Event>, i: nat, value: Tree, c: Control, flow: bool, simple: bool)
    requires At(es, i, NodeEvents(value)) && (c.flow > 0 <==> flow) && !c.loose
    requires c.state == ValueState(flow, simple)
    ensures i + |NodeEvents(value)| <= |es|
    ensures Steps(how, es, i, i + |NodeEvents(value)|, c)
         == Some(Stepped(c.(state := LaterKey(flow)),
                   ColonSigns(simple, flow, c.level) + Printed(how, value, flow, c.level, if simple then Tight else Dense, false)))
    decreases value, 2
  {
    hide NodeStep, EmptyAt, Printed, Steps, NodeRun, NodeEvents, ColonSigns;
    FirstOfNode(es, i, value);
    var d := Push(c, LaterKey(flow));
    NodePrinted(how, es, i, value, d, if simple then Tight else Dense, false);
    PushedRun(how, es, i, i + |NodeEvents(value)|, c, ColonSigns(simple, flow, c.level), d, if simple then Tight else Dense, false);
  }

  // ---- documents and streams

  function Between(first: bool): (c: Control) {
    Control(if first then FirstDocumentStart else DocumentStartState, [], -1, [], 0, false)
  }

  lemma DocumentPrinted(how: Settings, es: seq<Event>, i: nat, d: Document, first: bool)
    requires At(es, i, DocumentEvents(d))
    ensures i + |DocumentEvents(d)| <= |es|
    ensures Steps(how, es, i, i + |DocumentEvents(d)|, Between(first)) == Some(Stepped(Between(false), DocumentSigns(how, d, first)))
  {
    hide At, NodeStep, EmptyAt, Printed, Steps, NodeRun, NodeEvents, StartSigns, EndSigns;
    AtConcat(es, i, [DocumentStart(d.start)] + NodeEvents(d.root), [DocumentEnd(d.end)]);
    AtConcat(es, i, [DocumentStart(d.start)], NodeEvents(d.root));
    AtOne(es, i, DocumentStart(d.start));
    var j := i + 1 + |NodeEvents(d.root)|;
    AtOne(es, j, DocumentEnd(d.end));
    var content, end := Between(false).(state := DocumentContent), Between(false).(state := DocumentEndState);
    FirstOfNode(es, i + 1, d.root);
    NodePrinted(how, es, i + 1, d.root, Push(content, DocumentEndState), Apart, false);
    NothingBefore(NodeStep(how, Push(content, DocumentEndState), es[i + 1], EmptyAt(es, i + 1), Apart, false));
    NodeHead(es, i + 1, d.root);
    PushedRun(how, es, i + 1, j, content, [], Push(content, DocumentEndState), Apart, false);
    NothingBefore(NodeRun(how, es, i + 1, j, Push(content, DocumentEndState), Apart, false));
    OneStep(how, es, i, Between(first));
    OneStep(how, es, j, end);
    var start, root := StartSigns(how, d.start, first), Printed(how, d.root, false, -1, Apart, false);
    Continue(how, es, i, i + 1, j, Between(first), Stepped(content, start), Stepped(end, root));
    Continue(how, es, i, j, j + 1, Between(first), Stepped(end, start + root), Stepped(Between(false), EndSigns(d.end)));
  }

  lemma {:induction false} DocumentsPrinted(how: Settings, es: seq<Event>, docs: seq<Document>)
    requires At(es, 0, [StreamStart] + DocumentsEvents(docs))
    ensures 1 + |DocumentsEvents(docs)| <= |es|
    ensures Steps(how, es, 0, 1 + |DocumentsEvents(docs)|, Initial) == Some(Stepped(Between(docs == []), PrintedDocuments(how, docs)))
    decreases |docs|
  {
    hide NodeStep, EmptyAt, Printed, Steps, NodeRun, DocumentEvents, DocumentSigns;
    AtConcat(es, 0, [StreamStart], DocumentsEvents(docs));
    AtOne(es, 0, StreamStart);
    if docs == [] {
      OneStep(how, es, 0, Initial);
    } else {
      var init, last := docs[..|docs| - 1], docs[|docs| - 1];
      assert [StreamStart] + DocumentsEvents(docs) == ([StreamStart] + DocumentsEvents(init)) + DocumentEvents(last);
      AtConcat(es, 0, [StreamStart] + DocumentsEvents(init), DocumentEvents(last));
      DocumentsPrinted(how, es, init);
      var i := 1 + |DocumentsEvents(init)|;
      DocumentPrinted(how, es, i, last, init == []);
      Continue(how, es, 0, i, i + |DocumentEvents(last)|, Initial, Stepped(Between(init == []), PrintedDocuments(how, init)),
        Stepped(Between(false), DocumentSigns(how, last, init == [])));
    }
  }

  /** The machine writes a stream as the recursive printer does. */
  lemma StreamPrinted(how: Settings, docs: seq<Document>)
    ensures var es := StreamEvents(docs); Steps(how, es, 0, |es|, Initial) == Some(Stepped(Final, PrintedDocuments(how, docs)))
  {
    hide Steps, DocumentsEvents, PrintedDocuments;
    var es := StreamEvents(docs);
    var n := |es| - 1;
    assert es[0..n] == [StreamStart] + DocumentsEvents(docs);
    DocumentsPrinted(how, es, docs);
    OneStep(how, es, n, Between(docs == []));
    Continue(how, es, 0, n, n + 1, Initial, Stepped(Between(docs == []), PrintedDocuments(how, docs)), Stepped(Final, []));
    assert PrintedDocuments(how, docs) + [] == PrintedDocuments(how, docs);
  }

  // ---- looking ahead

  function Accumulate(e: Event): (n: nat) {
    if e.DocumentStart? then 1 else if e.SequenceStart? then 2 else if e.MappingStart? then 3 else 0
  }

  function LevelChange(e: Event): int {
    if e.StreamStart? || e.DocumentStart? || e.SequenceStart? || e.MappingStart? then 1
    else if e.StreamEnd? || e.DocumentEnd? || e.SequenceEnd? || e.MappingEnd? then -1
    else 0
  }

  function LevelOf(es: seq<Event>): int {
    if es == [] then 0 else LevelOf(es[..|es| - 1]) + LevelChange(es[|es| - 1])
  }

  lemma NoLevel()
    ensures LevelOf([]) == 0
  {
  }

  lemma OneLevel(es: seq<Event>, k: nat)
    requires k < |es|
    ensures LevelOf(es[..k + 1]) == LevelOf(es[..k]) + LevelChange(es[k])
  {
    assert es[..k + 1][..k] == es[..k];
  }

  /** The events at hand are too few, and what the first one opens is not closed by them. */
  ghost predicate NeedMore(es: seq<Event>) {
    es == [] || (|es| <= Accumulate(es[0]) && forall k: nat | 0 < k <= |es| :: LevelOf(es[..k]) != 0)
  }

  /** A collection is not begun before the event behind its start is known; so whether it is empty is known. */
  lemma WaitsForEvents(es: seq<Event>)
    requires !NeedMore(es)
    ensures es != [] && (es[0].DocumentStart? || es[0].SequenceStart? || es[0].MappingStart? ==> |es| >= 2)
  {
    if |es| == 1 {
      OneLevel(es, 0);
      assert es[..1] == es;
    }
  }

  /** Behind each start of a collection among the first `n` events there is another event. */
  ghost predicate Looked(es: seq<Event>, n: nat) {
    n <= |es| && forall i | 0 <= i < n && (es[i].SequenceStart? || es[i].MappingStart?) :: i + 1 < |es|
  }

  /** So the steps that have been taken are those that would be taken with all events at hand. */
  lemma {:induction false} StepsExtend(how: Settings, es: seq<Event>, more: seq<Event>, n: nat)
    requires Looked(es, n)
    ensures Steps(how, es + more, 0, n, Initial) == Steps(how, es, 0, n, Initial)
    ensures Looked(es + more, n)
  {
    hide Step;
    if n > 0 {
      StepsExtend(how, es, more, n - 1);
    }
  }

  /** How many events a stream still needs. */
  function Needed(p: Position): (n: nat) {
    match p
    case AtStart => 2
    case BetweenDocuments => 1
    case AtNode(open) => if open == [] then 3 else |open| + 2
    case AtDocumentEnd => 2
    case AtEnd => 0
  }

  lemma {:induction false} NeedsEvents(p: Position, es: seq<Event>)
    requires AcceptAll(p, es).Some?
    ensures |es| + Needed(AcceptAll(p, es).value) >= Needed(p)
    decreases |es|
  {
    if es != [] {
      NeedsEvents(p, es[..|es| - 1]);
      NeedsOne(AcceptAll(p, es[..|es| - 1]).value, es[|es| - 1]);
    }
  }

  lemma NeedsOne(p: Position, e: Event)
    requires Accept(p, e).Some?
    ensures 1 + Needed(Accept(p, e).value) >= Needed(p)
  {
  }

  /** Every prefix of accepted events is accepted. */
  lemma NextAccepted(es: seq<Event>, k: nat)
    requires k < |es| && AcceptAll(AtStart, es[..k]).Some?
    ensures AcceptAll(AtStart, es[..k + 1]) == Accept(AcceptAll(AtStart, es[..k]).value, es[k])
    ensures AcceptAll(AtStart, es).Some? ==> AcceptAll(AtStart, es[..k + 1]).Some?
  {
    assert es[..k + 1][..k] == es[..k];
    if AcceptAll(AtStart, es).Some? {
      PrefixAccepted(AtStart, es, k + 1);
    }
  }

  lemma {:induction false} PrefixAccepted(p: Position, es: seq<Event>, k: nat)
    requires k <= |es| && AcceptAll(p, es).Some?
    ensures AcceptAll(p, es[..k]).Some?
  {
    if k < |es| {
      assert es[..|es| - 1][..k] == es[..k];
      PrefixAccepted(p, es[..|es| - 1], k);
    } else {
      assert es[..k] == es;
    }
  }

  /** At the end of a stream no event is kept waiting. */
  lemma Drained(how: Settings, es: seq<Event>, head: nat)
    requires head <= |es| && Steps(how, es, 0, head, Initial).Some?
    requires AcceptAll(AtStart, es) == Some(AtEnd) && NeedMore(es[head..])
    ensures head == |es| && Steps(how, es, 0, head, Initial).value.control == Final
  {
    hide *;
    StepsFollow(how, es, head);
    if head < |es| {
      NextAccepted(es, head);
      assert es[..head + 1] + es[head + 1..] == es;
      AcceptConcat(AtStart, es[..head + 1], es[head + 1..]);
      NeedsEvents(AcceptAll(AtStart, es[..head + 1]).value, es[head + 1..]);
      WaitingNeedsMore(AcceptAll(AtStart, es[..head]).value, es[head]);
      FewWait(es[head..]);
    } else {
      assert es[..head] == es;
      AtTheEnd(Steps(how, es, 0, head, Initial).value.control);
    }
  }

  lemma WaitingNeedsMore(p: Position, e: Event)
    requires Accept(p, e).Some?
    ensures Needed(Accept(p, e).value) >= Accumulate(e) && Needed(AtEnd) == 0
  {
  }

  lemma FewWait(es: seq<Event>)
    requires NeedMore(es) && es != []
    ensures |es| <= Accumulate(es[0])
  {
  }

  lemma AtTheEnd(c: Control)
    requires ControlOk(c) && Where(c) == AtEnd
    ensures c == Final
  {
  }

  // ---- what the output shows

  // Where in the output a node is written; the characters of its anchor, tag and value depend on it.
  datatype Place = Place(column: nat, indent: int, flowLevel: nat, simpleKey: bool, whitespace: bool, indention: bool)

  type Wording = (Event, Place) -> seq<seq<Byte>>

  function Flat(cs: seq<seq<Byte>>): (r: seq<Byte>) {
    if cs == [] then [] else Flat(cs[..|cs| - 1]) + cs[|cs| - 1]
  }

  lemma FlatNone(cs: seq<seq<Byte>>, before: seq<Byte>)
    ensures before + Flat(cs[..0]) == before && cs[..|cs|] == cs
  {
  }

  lemma FlatNext(cs: seq<seq<Byte>>, i: nat, before: seq<Byte>)
    requires i < |cs|
    ensures (before + Flat(cs[..i])) + cs[i] == before + Flat(cs[..i + 1])
  {
    assert cs[..i + 1][..i] == cs[..i];
  }

  function BreakBytes(b: LineBreak): (r: seq<Byte>) {
    match b case CR => [0x0D] case LN => [0x0A] case CRLN => [0x0D, 0x0A]
  }

  function Blanks(n: nat): (r: seq<Byte>) {
    seq(n, _ => 0x20)
  }

  /** What is written on the way to a column: a line break where one is needed, and blanks. */
  function WayTo(s: Spot, b: LineBreak, level: int): (r: seq<Byte>) {
    var column := if level < 0 then 0 else level;
    if !s.indention || s.mark.column > column || (s.mark.column == column && !s.whitespace) then BreakBytes(b) + Blanks(column)
    else Blanks(column - s.mark.column)
  }

  /** What is written in front of a sign, or in its place. */
  function InFront(how: Settings, s: Spot, b: LineBreak, x: Sign): (r: seq<Byte>) {
    match x
    case Indicator(_, spaced, _, _) => if spaced && !s.whitespace then [0x20] else []
    case Content(_, _, _, _) => []
    case Line(level) => WayTo(s, b, level)
    case Wrap(level) => if how.canonical || s.mark.column > Width(how) then WayTo(s, b, level) else []
  }

  /** The bytes are those of the sign: of a content, as it is worded in its place. */
  ghost predicate Spelt(text: Wording, s: Spot, bs: seq<Byte>, x: Sign) {
    match x
    case Indicator(chars, _, _, _) => bs == chars
    case Content(e, _, flow, simple) => exists place: Place ::
      && place.column == s.mark.column && place.whitespace == s.whitespace && place.indention == s.indention
      && place.simpleKey == simple && (place.flowLevel > 0 <==> flow)
      && bs == Flat(text(e, place))
    case _ => bs == []
  }

  /** The bytes are the signs, in order, with the blanks and line breaks that bring each of them to where it belongs. */
  ghost predicate Spells(how: Settings, b: LineBreak, text: Wording, bs: seq<Byte>, signs: seq<Sign>)
    decreases |signs|
  {
    if signs == [] then bs == []
    else exists k: nat | k <= |bs| ::
        var init, x := signs[..|signs| - 1], signs[|signs| - 1];
        var s := Lay(how, TOP, init).spot;
        var before := InFront(how, s, b, x);
        && Spells(how, b, text, bs[..k], init)
        && before <= bs[k..] && Spelt(text, s, bs[k + |before|..], x)
  }

  lemma SpellsMore(how: Settings, b: LineBreak, text: Wording, bs: seq<Byte>, signs: seq<Sign>, x: Sign, word: seq<Byte>)
    requires Spells(how, b, text, bs, signs) && Spelt(text, Lay(how, TOP, signs).spot, word, x)
    ensures Spells(how, b, text, bs + (InFront(how, Lay(how, TOP, signs).spot, b, x) + word), signs + [x])
  {
    hide Spelt, Lay, InFront;
    var before := InFront(how, Lay(how, TOP, signs).spot, b, x);
    var r, k := bs + (before + word), |bs|;
    assert r[..k] == bs && r[k..] == before + word && r[k + |before|..] == word;
    assert (signs + [x])[..|signs|] == signs;
  }

  /** There is room for it: the way takes as many characters as its marks are apart. */
  lemma WayIsAsLong(how: Settings, s: Spot, b: LineBreak, level: int)
    requires how.eol == if b.CRLN? then 1 else 0
    ensures Lined(how, s, level).mark.index == s.mark.index + |WayTo(s, b, level)|
    ensures Lined(how, s, level).mark.column == if level < 0 then 0 else level
  {
  }

  /** Characters are one to four bytes. */
  ghost predicate TextOk(cs: seq<seq<Byte>>) {
    forall i | 0 <= i < |cs| :: 1 <= |cs[i]| <= 4
  }

  lemma CharacterOk(cs: seq<seq<Byte>>, i: nat)
    requires TextOk(cs) && i < |cs|
    ensures 1 <= |cs[i]| <= 4
  {
  }

  lemma ContentOne(how: Settings, s: Spot, e: Event, level: int, flow: bool, simple: bool)
    ensures One(how, s, Content(e, level, flow, simple)) == Said(how, s, e, level, flow, simple)
  {
  }

  /** A scalar has a tag or can do without one. */
  predicate StyleOk(e: Event) {
    e.Scalar? ==> e.props.tag != "" || e.props.implicit || e.quotedImplicit
  }

  class Emitter {
    const out: OutputBuffer
    // the characters of an event's contents; whether they are valid
    const text: Wording
    const analyzes: Event -> bool
    const how: Settings
    const lineBreak: LineBreak
    var bestWidth: int
    var bestIndent: int
    var events: seq<Event>
    var head: nat
    var state: State
    var states: seq<State>
    var indents: seq<int>
    var indent: int
    var flowLevel: nat
    var mappingContext: bool
    var simpleKeyContext: bool
    // the characters and the line breaks so far, and the characters since the last of these
    var index: nat
    var line: nat
    var column: nat
    var whitespace: bool
    var indention: bool
    var openEnded: bool
    var error: bool
    // all signs written so far
    ghost var signs: seq<Sign>

    constructor (out: OutputBuffer, text: Wording, analyzes: Event -> bool, how: Settings, lineBreak: LineBreak)
      requires out.Valid() && out.Logical() == [] && out.pos == 0 && forall e, place :: TextOk(text(e, place))
      requires how.eol == if lineBreak.CRLN? then 1 else 0
      ensures this.out == out && this.text == text && this.analyzes == analyzes && this.how == how
      ensures Valid() && events == []
    {
      this.out, this.text, this.analyzes, this.how, this.lineBreak := out, text, analyzes, how, lineBreak;
      bestWidth, bestIndent := how.bestWidth, how.bestIndent;
      events, head, state, states, indents, indent, flowLevel := [], 0, StreamStartState, [], [], -1, 0;
      mappingContext, simpleKeyContext, openEnded, error, signs := false, false, false, false, [];
      index, line, column, whitespace, indention := 0, 0, 0, false, false;
    }

    ghost function Now(): Control
      reads this`state, this`states, this`indent, this`indents, this`flowLevel, this`mappingContext, this`indention
    {
      Control(state, states, indent, indents, flowLevel, state.BlockSequenceFirstItem? && mappingContext && !indention)
    }

    /** Where the writing goes on. */
    function Here(): Spot
      reads this`index, this`line, this`column, this`whitespace, this`indention
    {
      Spot(YamlScanner.Mark(index, line, column), whitespace, indention)
    }

    ghost predicate Worded() {
      how.eol == (if lineBreak.CRLN? then 1 else 0) && forall e, place :: TextOk(text(e, place))
    }

    /** No error so far. */
    ghost predicate Sane()
      reads this`error, out
    {
      out.Valid() && !error && Worded()
    }

    lemma TextIs(e: Event, place: Place)
      requires Worded()
      ensures TextOk(text(e, place)) && how.eol == if lineBreak.CRLN? then 1 else 0
    {
    }

    /** The output shows the signs, and the writing has come to where they lead. */
    ghost predicate Fine()
      reads this`error, this`signs, this`bestWidth, this`bestIndent, out, out.buffer,
            this`index, this`line, this`column, this`whitespace, this`indention
    {
      && Sane() && bestWidth == Width(how) && bestIndent == Indentation(how)
      && Spells(how, lineBreak, text, out.Logical(), signs) && Here() == Lay(how, TOP, signs).spot
    }

    /** Nothing has been written. */
    ghost predicate Fresh()
      reads this`error, this`signs, this`bestWidth, this`bestIndent, this`openEnded, out, out.buffer
    {
      Sane() && bestWidth == how.bestWidth && bestIndent == how.bestIndent && out.Logical() == [] && signs == [] && !openEnded
    }

    ghost predicate Valid()
      reads this, out, out.buffer
    {
      && (if state.StreamStartState? then Fresh() && index == line == column == 0 else Fine()) && head <= |events| && Looked(events, head)
      && Shown(Steps(how, events, 0, head, Initial)) && Ended()
      && (state.EndState? ==> out.pos == 0)
    }

    /** Only a last scalar in a document without an explicit end is left open-ended. */
    ghost predicate Ended()
      reads this
    {
      head <= |events|
      && (state.FirstDocumentStart? ==> !openEnded)
      && (state.DocumentStartState? && openEnded ==> head > 0 && events[head - 1] == DocumentEnd(true))
    }

    /** What the machine has come to. At the end of the stream there may be a mark if the last scalar is open-ended. */
    ghost predicate Shown(o: Option<Stepped>)
      reads this
    {
      o.Some? && Now() == o.value.control
      && (signs == o.value.signs || (state.EndState? && signs == o.value.signs + DOTS && 2 <= head <= |events| && events[head - 2] == DocumentEnd(true)))
    }

    /** Events whose contents can be written. */
    ghost predicate Good(e: Event) {
      analyzes(e) && StyleOk(e)
    }

    // ---- characters

    method Fail() returns (ok: bool)
      modifies this`error
      ensures error && !ok
    {
      error := true;
      ok := false;
    }

    method Put(b: Byte) returns (ok: bool)
      requires out.Valid()
      modifies this`index, this`column, this`error, out`pos, out`flushed, out.buffer
      ensures out.Valid() && (out.reliable ==> ok) && (if ok then error == old(error) else error)
      ensures ok ==> index == old(index) + 1 && column == old(column) + 1 && out.Logical() == old(out.Logical()) + [b]
    {
      ok := out.Put(b);
      if ok {
        index, column := index + 1, column + 1;
      } else {
        error := true;
      }
    }

    method PutAll(bs: seq<Byte>) returns (ok: bool)
      requires out.Valid() && !error
      modifies this`index, this`column, this`error, out`pos, out`flushed, out.buffer
      ensures out.Valid() && (out.reliable ==> ok) && (error <==> !ok)
      ensures ok ==> index == old(index) + |bs| && column == old(column) + |bs| && out.Logical() == old(out.Logical()) + bs
    {
      for i := 0 to |bs|
        invariant out.Valid() && !error && out.Logical() == old(out.Logical()) + bs[..i]
        invariant index == old(index) + i && column == old(column) + i
      {
        ok := Put(bs[i]);
        if !ok {
          return;
        }
        assert bs[..i + 1] == bs[..i] + [bs[i]];
      }
      assert bs[..|bs|] == bs;
      ok := true;
    }

    method WriteAll(cs: seq<seq<Byte>>) returns (ok: bool)
      requires out.Valid() && !error && TextOk(cs)
      modifies this`index, this`column, this`error, out`pos, out`flushed, out.buffer
      ensures out.Valid() && (out.reliable ==> ok) && (error <==> !ok)
      ensures ok ==> out.Logical() == old(out.Logical()) + Flat(cs)
    {
      hide Flat, TextOk;
      ghost var before := out.Logical();
      FlatNone(cs, before);
      for i := 0 to |cs|
        invariant out.Valid() && !error && out.Logical() == before + Flat(cs[..i])
      {
        CharacterOk(cs, i);
        FlatNext(cs, i, before);
        ok := out.Write(cs[i]);
        if !ok {
          error := true;
          return;
        }
        index, column := index + 1, column + 1;
      }
      ok := true;
    }

    /** Goes on at the column of the indentation, in a new line where that is needed. */
    method GoOn() returns (ok: bool)
      requires Sane()
      modifies this`index, this`line, this`column, this`whitespace, this`indention, this`error, out`pos, out`flushed, out.buffer
      ensures (out.reliable ==> ok) && (if ok then Sane() else error)
      ensures ok ==> Here() == Lined(how, old(Here()), indent) && out.Logical() == old(out.Logical()) + WayTo(old(Here()), lineBreak, indent)
    {
      hide TextOk, Worded;
      TextIs(StreamStart, Place(0, 0, 0, false, false, false));
      ghost var before := out.Logical();
      var level := if indent < 0 then 0 else indent;
      ok := true;
      if !indention || column > level || (column == level && !whitespace) {
        ok := out.PutBreak(lineBreak);
        if !ok {
          error := true;
          return;
        }
        index, line, column := index + 1 + (if lineBreak.CRLN? then 1 else 0), line + 1, 0;
        AssociateBytes(before, BreakBytes(lineBreak), Blanks(level));
      }
      ok := Pad(level);
      if !ok {
        return;
      }
      whitespace, indention := true, true;
    }

    lemma AssociateBytes(a: seq<Byte>, b: seq<Byte>, c: seq<Byte>)
      ensures (a + b) + c == a + (b + c)
    {
    }

    method Pad(level: nat) returns (ok: bool)
      requires Sane() && column <= level
      modifies this`index, this`column, this`error, out`pos, out`flushed, out.buffer
      ensures (out.reliable ==> ok) && (if ok then Sane() else error)
      ensures ok ==> column == level && index == old(index) + (level - old(column)) && out.Logical() == old(out.Logical()) + Blanks(level - old(column))
    {
      hide Worded;
      while column < level
        invariant Sane() && old(column) <= column <= level && index - old(index) == column - old(column)
        invariant out.Logical() == old(out.Logical()) + Blanks(column - old(column))
      {
        ok := Put(0x20);
        if !ok {
          return;
        }
        assert Blanks(column - old(column)) == Blanks(column - 1 - old(column)) + [0x20];
      }
      ok := true;
    }

    /** One more sign, written behind `base`. */
    ghost method Signed(x: Sign, base: seq<Byte>, word: seq<Byte>)
      requires Sane() && bestWidth == Width(how) && bestIndent == Indentation(how)
      requires Spells(how, lineBreak, text, base, signs) && Spelt(text, Lay(how, TOP, signs).spot, word, x)
      requires out.Logical() == base + (InFront(how, Lay(how, TOP, signs).spot, lineBreak, x) + word)
      requires Here() == One(how, Lay(how, TOP, signs).spot, x).spot
      modifies this`signs
      ensures Fine() && signs == old(signs) + [x]
    {
      hide Spells, Spelt, One, Worded, Lay, InFront;
      LayMore(how, TOP, signs, x);
      SpellsMore(how, lineBreak, text, base, signs, x, word);
      signs := signs + [x];
    }

    method WriteIndent() returns (ok: bool)
      requires Fine()
      modifies this`index, this`line, this`column, this`whitespace, this`indention, this`error, this`signs, out`pos, out`flushed, out.buffer
      ensures (out.reliable ==> ok) && (if ok then Fine() else error)
      ensures ok ==> signs == old(signs) + [Line(indent)] && indention
    {
      hide Spells, Worded, Lay, WayTo;
      ghost var base := out.Logical();
      ok := GoOn();
      if ok {
        AssociateBytes(base, WayTo(old(Here()), lineBreak, indent), []);
        Signed(Line(indent), base, []);
      }
    }

    /** The same for long lines, and in canonical form. */
    method WriteWrap() returns (ok: bool)
      requires Fine()
      modifies this`index, this`line, this`column, this`whitespace, this`indention, this`error, this`signs, out`pos, out`flushed, out.buffer
      ensures (out.reliable ==> ok) && (if ok then Fine() else error)
      ensures ok ==> signs == old(signs) + [Wrap(indent)]
    {
      hide Spells, Worded, Lay, Lined, WayTo;
      ghost var base := out.Logical();
      ok := true;
      if how.canonical || column > bestWidth {
        ok := GoOn();
      }
      if ok {
        AssociateBytes(base, WayTo(old(Here()), lineBreak, indent), []);
        assert base + ([] + []) == base;
        Signed(Wrap(indent), base, []);
      }
    }

    method WriteIndicator(indicator: Chars, needWhitespace: bool, isWhitespace: bool, isIndention: bool) returns (ok: bool)
      requires Fine()
      modifies this`index, this`column, this`whitespace, this`indention, this`openEnded, this`error, this`signs, out`pos, out`flushed, out.buffer
      ensures (out.reliable ==> ok) && (if ok then Fine() else error)
      ensures ok ==> signs == old(signs) + [Indicator(indicator, needWhitespace, isWhitespace, isIndention)]
      ensures ok ==> indention == (old(indention) && isIndention) && !openEnded
    {
      hide Spells, Worded, Lay, KindOf, TypeOf;
      ghost var base := out.Logical();
      ghost var blank: seq<Byte> := if needWhitespace && !whitespace then [0x20] else [];
      if needWhitespace && !whitespace {
        ok := Put(0x20);
        if !ok {
          return;
        }
      }
      assert out.Logical() == base + blank;
      ok := PutAll(indicator);
      if !ok {
        return;
      }
      AssociateBytes(base, blank, indicator);
      ghost var x := Indicator(indicator, needWhitespace, isWhitespace, isIndention);
      whitespace, indention, openEnded := isWhitespace, indention && isIndention, false;
      Signed(x, base, indicator);
      ok := true;
    }

    /** The characters of an event's contents. */
    method WriteText(e: Event) returns (ok: bool, ghost place: Place)
      requires Sane()
      modifies this`index, this`column, this`error, out`pos, out`flushed, out.buffer
      ensures (out.reliable ==> ok) && (if ok then Sane() else error)
      ensures place == Place(old(column), indent, flowLevel, simpleKeyContext, whitespace, indention)
      ensures ok ==> out.Logical() == old(out.Logical()) + Flat(text(e, place))
    {
      hide TextOk, Flat, Worded;
      var here := Place(column, indent, flowLevel, simpleKeyContext, whitespace, indention);
      place := here;
      TextIs(e, here);
      ok := WriteAll(text(e, here));
    }

    /** The anchor, the tag and the value of an event, with the indentation `level` around it. The characters are those of
        `text`, and the room they take is that of `how`. */
    method WriteContent(e: Event, level: int) returns (ok: bool)
      requires Fine()
      modifies this`index, this`line, this`column, this`whitespace, this`indention, this`openEnded, this`error, this`signs, out`pos, out`flushed, out.buffer
      ensures (out.reliable ==> ok) && (if ok then Fine() else error)
      ensures ok ==> signs == old(signs) + [Content(e, level, flowLevel > 0, simpleKeyContext)]
      ensures ok && !e.Scalar? ==> indention == (old(indention) && ContentTokens(e, how.content(e, flowLevel > 0, simpleKeyContext)) == [])
    {
      hide Spells, Lay, Said, One, ContentTokens, Worded, Flat, TextOk, Width, Indentation;
      var here := Here();
      ghost var base := out.Logical();
      ghost var x := Content(e, level, flowLevel > 0, simpleKeyContext);
      ghost var place;
      ok, place := WriteText(e);
      if !ok {
        return;
      }
      ContentOne(how, here, e, level, flowLevel > 0, simpleKeyContext);
      SaidIndention(how, here, e, level, flowLevel > 0, simpleKeyContext);
      var there := Said(how, here, e, level, flowLevel > 0, simpleKeyContext).spot;
      MoveTo(there);
      openEnded := *;
      assert [] + Flat(text(e, place)) == Flat(text(e, place));
      Signed(x, base, Flat(text(e, place)));
      ok := true;
    }

    method MoveTo(there: Spot)
      modifies this`index, this`line, this`column, this`whitespace, this`indention
      ensures Here() == there
    {
      index, line, column := there.mark.index, there.mark.line, there.mark.column;
      whitespace, indention := there.whitespace, there.indention;
    }

    method Flush() returns (ok: bool)
      requires Fine()
      modifies this`error, out`pos, out`flushed
      ensures (out.reliable ==> ok) && (if ok then Fine() && out.pos == 0 else error)
    {
      ok := out.Flush();
      if !ok {
        error := true;
      }
    }

    // ---- the stacks

    method IncreaseIndent(flow: bool, indentless: bool)
      requires bestIndent == Indentation(how)
      modifies this`indents, this`indent
      ensures indents == old(indents) + [old(indent)] && indent == Increased(how, old(indent), flow, indentless)
    {
      indents := indents + [indent];
      if indent < 0 {
        indent := if flow then bestIndent else 0;
      } else if !indentless {
        indent := indent + bestIndent;
      }
    }

    method PopIndent()
      requires indents != []
      modifies this`indents, this`indent
      ensures indents == old(indents)[..|old(indents)| - 1] && indent == old(indents)[|old(indents)| - 1]
    {
      indent := indents[|indents| - 1];
      indents := indents[..|indents| - 1];
    }

    method PopState()
      requires Topped()
      modifies this`state, this`states
      ensures Now() == Return(old(Now())).(loose := false)
    {
      state := states[|states| - 1];
      states := states[..|states| - 1];
    }

    // ---- nodes

    /** What a step `o` has done since `before`. */
    ghost predicate Did(o: Option<Stepped>, before: seq<Sign>)
      reads this
    {
      o.Some? && Now() == o.value.control && signs == before + o.value.signs
    }

    /** The next event ends a collection that begins here. */
    predicate EmptyCollection()
      requires head < |events|
      reads this`head, this`events
    {
      EmptyAt(events, head)
    }

    /** Whether a key may be simple. */
    method CheckSimpleKey() returns (simple: bool)
      requires head < |events|
      ensures simple == Simple(how, events[head], EmptyCollection())
    {
      var e := events[head];
      match e {
        case Alias(_) => simple := how.short(e);
        case Scalar(_, _, _, _) => simple := how.short(e);
        case SequenceStart(_, _) => simple := EmptyCollection() && how.short(e);
        case MappingStart(_, _) => simple := EmptyCollection() && how.short(e);
        case _ => simple := false;
      }
    }

    /** Outside of flow collections, how the next node is tied to a block mapping. */
    ghost predicate Tied(tie: Tie, mapping: bool)
      reads this`flowLevel, this`indention
    {
      flowLevel == 0 ==> mapping == !tie.Apart? && (tie.Tight? ==> !indention) && (tie.Dense? ==> indention)
    }

    /** The state on top of the stack is one that the writing goes on in. */
    ghost predicate Topped()
      reads this`states
    {
      states != [] && !states[|states| - 1].BlockSequenceFirstItem?
    }

    /** No block sequence is about to begin behind something in its line. */
    ghost predicate Steady()
      reads this`state, this`indention
    {
      state.BlockSequenceFirstItem? ==> indention
    }

    /** A node inside the state on top of the stack. */
    method EmitNode(mapping: bool, simpleKey: bool, ghost tie: Tie) returns (ok: bool)
      requires Fine() && head < |events| && Topped() && Steady()
      requires Tied(tie, mapping) && (simpleKey ==> Simple(how, events[head], EmptyCollection()))
      modifies this, out, out.buffer
      ensures events == old(events) && head == old(head) && (if ok then Fine() else error)
      ensures ok ==> Did(NodeStep(how, old(Now()), events[head], EmptyCollection(), tie, simpleKey), old(signs))
      ensures NodeStep(how, old(Now()), events[head], EmptyCollection(), tie, simpleKey).Some? && Good(events[head]) && out.reliable ==> ok
    {
      hide Fine, EmptyAt, Loose, Simple, StyleOk, Good, NodeStep, Did;
      ghost var c := Now();
      mappingContext, simpleKeyContext := mapping, simpleKey;
      assert Now() == c;
      var e := events[head];
      GoodIs(e);
      SimpleEmpty(how, e, EmptyCollection());
      NodeStepFails(how, c, e, EmptyCollection(), tie, simpleKey);
      if e.Alias? || e.Scalar? {
        ok := EmitSmall(tie);
      } else if e.SequenceStart? || e.MappingStart? {
        ok := EmitStart(tie);
      } else {
        ok := Fail();
      }
    }

    /** An alias or a scalar. */
    method EmitSmall(ghost tie: Tie) returns (ok: bool)
      requires Fine() && head < |events| && Topped() && Steady() && (events[head].Alias? || events[head].Scalar?)
      modifies this, out, out.buffer
      ensures events == old(events) && head == old(head) && (if ok then Fine() else error)
      ensures ok ==> Did(NodeStep(how, old(Now()), events[head], EmptyCollection(), tie, old(simpleKeyContext)), old(signs))
      ensures StyleOk(events[head]) && out.reliable ==> ok
    {
      hide Fine, EmptyAt, Loose, StyleOk, YamlLayout.InFlow;
      if events[head].Alias? {
        ok := WriteContent(events[head], indent);
        if ok {
          PopState();
        }
      } else {
        ok := EmitScalar();
      }
    }

    lemma GoodIs(e: Event)
      ensures Good(e) ==> StyleOk(e)
    {
    }

    method EmitScalar() returns (ok: bool)
      requires Fine() && head < |events| && Topped() && Steady()
      modifies this, out, out.buffer
      ensures events == old(events) && head == old(head) && (if ok then Fine() else error)
      ensures ok ==> Now() == Return(old(Now()))
      ensures ok ==> signs == old(signs) + [Content(events[head], old(indent), old(flowLevel) > 0, old(simpleKeyContext))]
      ensures StyleOk(events[head]) && out.reliable ==> ok
    {
      hide Fine, StyleOk, Increased, Good;
      if !StyleOk(events[head]) {
        ok := Fail();
        return;
      }
      FineIs();
      ghost var c := Now();
      IncreaseIndent(true, false);
      assert indents[..|indents| - 1] == c.levels;
      ok := WriteContent(events[head], indents[|indents| - 1]);
      if ok {
        PopIndent();
        PopState();
      }
    }

    lemma FineIs()
      requires Fine()
      ensures bestIndent == Indentation(how)
    {
    }

    /** The start of a collection: whether it is written in flow style, and whether a block sequence is indented. */
    method EmitStart(ghost tie: Tie) returns (ok: bool)
      requires Fine() && head < |events| && states != [] && Steady() && Tied(tie, mappingContext)
      requires (events[head].SequenceStart? || events[head].MappingStart?) && (simpleKeyContext ==> EmptyCollection())
      modifies this, out, out.buffer
      ensures events == old(events) && head == old(head) && (if ok then Fine() else error) && (out.reliable ==> ok)
      ensures ok ==> Did(NodeStep(how, old(Now()), events[head], EmptyCollection(), tie, old(simpleKeyContext)), old(signs))
    {
      hide Fine, EmptyAt, YamlGrammar.WrittenTokens;
      var e := events[head];
      ok := WriteContent(e, indent);
      if ok {
        var inFlow := flowLevel > 0 || how.canonical || e.flow || EmptyCollection();
        if e.SequenceStart? {
          state := if inFlow then FlowSequenceFirstItem else BlockSequenceFirstItem;
        } else {
          state := if inFlow then FlowMappingFirstKey else BlockMappingFirstKey;
        }
      }
    }

    /** Goes on with a node, and with `next` behind it. */
    method EmitInside(next: State, mapping: bool, simpleKey: bool, ghost tie: Tie) returns (ok: bool)
      requires Fine() && head < |events| && !next.BlockSequenceFirstItem? && Steady()
      requires Tied(tie, mapping) && (simpleKey ==> Simple(how, events[head], EmptyCollection()))
      modifies this, out, out.buffer
      ensures events == old(events) && head == old(head) && (if ok then Fine() else error)
      ensures ok ==> Did(NodeStep(how, Push(old(Now()), next), events[head], EmptyCollection(), tie, simpleKey), old(signs))
      ensures NodeStep(how, Push(old(Now()), next), events[head], EmptyCollection(), tie, simpleKey).Some? && Good(events[head]) && out.reliable ==> ok
    {
      hide NodeStep, Fine, Did, Good, Simple, EmptyAt;
      ghost var c := Now();
      states := states + [next];
      assert Now() == Push(c, next);
      ok := EmitNode(mapping, simpleKey, tie);
    }

    /** The opening bracket of a flow collection. */
    method OpenFlow(bracket: Chars) returns (ok: bool)
      requires Fine() && !state.BlockSequenceFirstItem?
      modifies this`index, this`column, this`whitespace, this`indention, this`openEnded, this`error, this`signs, this`indents, this`indent,
               this`flowLevel, out`pos, out`flushed, out.buffer
      ensures (out.reliable ==> ok) && (if ok then Fine() else error)
      ensures ok ==> Now() == Deeper(how, old(Now()), true) && signs == old(signs) + [Opens(bracket)]
    {
      hide Fine;
      FineIs();
      ok := WriteIndicator(bracket, true, true, false);
      if ok {
        IncreaseIndent(true, false);
        flowLevel := flowLevel + 1;
      }
    }

    method WriteTrailing(first: bool) returns (ok: bool)
      requires Fine()
      modifies this`index, this`line, this`column, this`whitespace, this`indention, this`openEnded, this`error, this`signs, out`pos, out`flushed, out.buffer
      ensures (out.reliable ==> ok) && (if ok then Fine() else error)
      ensures ok ==> signs == old(signs) + Trailing(how, !first, indent)
    {
      hide Fine;
      ok := true;
      if how.canonical && !first {
        ok := WriteIndicator(Comma, false, false, false);
        if !ok {
          return;
        }
        ok := WriteIndent();
      }
    }

    /** The closing bracket of a flow collection. */
    method CloseFlow(bracket: Chars, first: bool) returns (ok: bool)
      requires Fine() && indents != [] && flowLevel > 0 && Topped() && !state.BlockSequenceFirstItem?
      modifies this, out, out.buffer
      ensures events == old(events) && head == old(head) && (out.reliable ==> ok) && (if ok then Fine() else error)
      ensures ok ==> Did(After(Trailing(how, !first, Outer(old(Now()))) + [Closes(bracket)], Leave(old(Now()), true)), old(signs))
    {
      hide Fine, Trailing, Did, After, Return, Leave;
      ghost var c, before := Now(), signs;
      flowLevel := flowLevel - 1;
      PopIndent();
      ok := WriteTrailing(first);
      if !ok {
        return;
      }
      ok := WriteIndicator(bracket, false, false, false);
      if ok {
        PopState();
        LeftIs(c, Now());
        DidNothing(Trailing(how, !first, Outer(c)) + [Closes(bracket)], c, before);
      }
    }

    lemma LeftIs(c: Control, d: Control)
      requires c.states != [] && c.levels != [] && c.flow > 0 && !c.loose
      requires d == Return(c.(level := Outer(c), levels := c.levels[..|c.levels| - 1], flow := c.flow - 1)).(loose := false)
      ensures Leave(c, true) == Some(Stepped(d, []))
    {
    }

    lemma DidNothing(closing: seq<Sign>, c: Control, before: seq<Sign>)
      requires Leave(c, true) == Some(Stepped(Now(), [])) && signs == before + closing
      ensures Did(After(closing, Leave(c, true)), before)
    {
      assert closing + [] == closing;
    }

    /** What goes before an item or a key of a flow collection. */
    method Separate(first: bool) returns (ok: bool)
      requires Fine()
      modifies this`index, this`line, this`column, this`whitespace, this`indention, this`openEnded, this`error, this`signs, out`pos, out`flushed, out.buffer
      ensures (out.reliable ==> ok) && (if ok then Fine() else error)
      ensures ok ==> signs == old(signs) + Separator(first, indent)
    {
      hide Fine;
      if !first {
        ok := WriteIndicator(Comma, false, false, false);
        if !ok {
          return;
        }
      }
      ok := WriteWrap();
    }

    lemma DidAfter(pre: seq<Sign>, o: Option<Stepped>, before: seq<Sign>)
      requires Did(o, before + pre)
      ensures Did(After(pre, o), before)
    {
      assert (before + pre) + o.value.signs == before + (pre + o.value.signs);
    }

    /** What the stacks hold while a collection is written. */
    lemma StacksHold()
      requires ControlOk(Now())
      ensures Returnable(state) ==> indents != [] && Topped() && (Flowing(state) ==> flowLevel > 0)
      ensures First(state) ==> Topped()
      ensures !Now().loose || state.BlockSequenceFirstItem?
      ensures !Returnable(state) && !First(state) ==> indent == -1 && states == [] && flowLevel == 0
      ensures Returnable(state) && !Flowing(state) ==> !Now().loose
    {
      if Returnable(state) || First(state) {
        InsideIs(how, Now());
        assert StackOk(states);
        var top := states[|states| - 1];
        assert |states| == 1 ==> top == DocumentEndState;
      }
    }

    /** The end of a flow collection. */
    method EndFlow(bracket: Chars, first: bool, ghost opening: seq<Sign>, ghost c: Control, ghost before: seq<Sign>) returns (ok: bool)
      requires Fine() && indents != [] && flowLevel > 0 && Topped() && !state.BlockSequenceFirstItem? && signs == before + opening && c == Now()
      modifies this, out, out.buffer
      ensures events == old(events) && head == old(head) && (out.reliable ==> ok) && (if ok then Fine() else error)
      ensures ok ==> Did(After(opening + (Trailing(how, !first, Outer(c)) + [Closes(bracket)]), Leave(c, true)), before)
    {
      hide Fine, Leave, Trailing, Did, Outer;
      ok := CloseFlow(bracket, first);
      if ok {
        ghost var closing := Trailing(how, !first, Outer(c)) + [Closes(bracket)];
        DidAfter(opening, After(closing, Leave(c, true)), before);
        AfterAfter(opening, closing, Leave(c, true));
      }
    }

    method EmitFlowSequenceItem(first: bool) returns (ok: bool)
      requires Fine() && head < |events| && ControlOk(Now()) && state == (if first then FlowSequenceFirstItem else FlowSequenceItem)
      modifies this, out, out.buffer
      ensures events == old(events) && head == old(head) && (if ok then Fine() else error)
      ensures ok ==> Did(FlowItemStep(how, old(Now()), events[head], EmptyCollection(), first), old(signs))
      ensures FlowItemStep(how, old(Now()), events[head], EmptyCollection(), first).Some? && Good(events[head]) && out.reliable ==> ok
    {
      hide Fine, ControlOk, NodeStep, Good, EmptyAt, Did, Leave, Trailing, Separator;
      StacksHold();
      ghost var before := signs;
      ghost var opening := if first then [Opens(LeftBracket)] else [];
      if first {
        ok := OpenFlow(LeftBracket);
        if !ok {
          return;
        }
      }
      assert signs == before + opening;
      ghost var c := Now();
      if events[head].SequenceEnd? {
        ok := EndFlow(RightBracket, first, opening, c, before);
        return;
      }
      ok := Separate(first);
      if !ok {
        return;
      }
      ghost var pre := opening + Separator(first, c.level);
      assert signs == before + pre;
      ok := EmitInside(FlowSequenceItem, false, false, Apart);
      if ok {
        DidAfter(pre, NodeStep(how, Push(c, FlowSequenceItem), events[head], EmptyCollection(), Apart, false), before);
      }
    }

    /** The end of a block collection. */
    method LeaveBlock()
      requires Fine() && indents != [] && Topped()
      modifies this`state, this`states, this`indents, this`indent
      ensures Did(Leave(old(Now()).(loose := false), false), signs)
    {
      hide Fine;
      PopIndent();
      PopState();
    }

    method EmitBlockMappingKey(first: bool) returns (ok: bool)
      requires Fine() && head < |events| && ControlOk(Now()) && state == (if first then BlockMappingFirstKey else BlockMappingKey)
      modifies this, out, out.buffer
      ensures events == old(events) && head == old(head) && (if ok then Fine() else error)
      ensures ok ==> Did(BlockKeyStep(how, old(Now()), events[head], EmptyCollection(), first), old(signs))
      ensures BlockKeyStep(how, old(Now()), events[head], EmptyCollection(), first).Some? && Good(events[head]) && out.reliable ==> ok
    {
      hide Fine, ControlOk, NodeStep, Good, EmptyAt, Did, Leave, Simple;
      FineIs();
      StacksHold();
      ghost var before := signs;
      if first {
        IncreaseIndent(false, false);
      }
      ghost var c := Now();
      if events[head].MappingEnd? {
        LeaveBlock();
        ok := true;
        return;
      }
      ok := WriteIndent();
      if !ok {
        return;
      }
      var simple := CheckSimpleKey();
      if simple {
        ok := EmitInside(BlockMappingSimpleValue, true, true, Dense);
        if ok {
          DidAfter([Line(c.level)], NodeStep(how, Push(c, BlockMappingSimpleValue), events[head], EmptyCollection(), Dense, true), before);
        }
        return;
      }
      ok := WriteIndicator(Question, true, false, true);
      if !ok {
        return;
      }
      assert signs == before + [Line(c.level), Enters(Question, true)];
      ok := EmitInside(BlockMappingValue, true, false, Dense);
      if ok {
        DidAfter([Line(c.level), Enters(Question, true)],
                 NodeStep(how, Push(c, BlockMappingValue), events[head], EmptyCollection(), Dense, false), before);
      }
    }

    method EmitBlockSequenceItem(first: bool) returns (ok: bool)
      requires Fine() && head < |events| && ControlOk(Now()) && state == (if first then BlockSequenceFirstItem else BlockSequenceItem)
      modifies this, out, out.buffer
      ensures events == old(events) && head == old(head) && (if ok then Fine() else error)
      ensures ok ==> Did(BlockItemStep(how, old(Now()), events[head], EmptyCollection(), first), old(signs))
      ensures BlockItemStep(how, old(Now()), events[head], EmptyCollection(), first).Some? && Good(events[head]) && out.reliable ==> ok
    {
      hide Fine, ControlOk, NodeStep, Good, EmptyAt, Did, Leave;
      FineIs();
      StacksHold();
      ghost var before := signs;
      ghost var c := if first then Deeper(how, Now(), false) else Now();
      if first {
        IncreaseIndent(false, mappingContext && !indention);
      }
      if events[head].SequenceEnd? {
        assert Now().(loose := false) == c;
        LeaveBlock();
        ok := true;
        return;
      }
      ok := WriteIndent();
      if !ok {
        return;
      }
      ok := WriteIndicator(Dash, true, false, true);
      if !ok {
        return;
      }
      assert Now() == c && signs == before + [Line(c.level), Enters(Dash, true)];
      ok := EmitInside(BlockSequenceItem, false, false, Apart);
      if ok {
        DidAfter([Line(c.level), Enters(Dash, true)], NodeStep(how, Push(c, BlockSequenceItem), events[head], EmptyCollection(), Apart, false), before);
      }
    }

    /** A key of a flow mapping. */
    method EmitFlowKey(ghost c: Control, ghost pre: seq<Sign>, ghost before: seq<Sign>) returns (ok: bool)
      requires Fine() && head < |events| && c == Now() && signs == before + pre && !state.BlockSequenceFirstItem? && flowLevel > 0
      modifies this, out, out.buffer
      ensures events == old(events) && head == old(head) && (if ok then Fine() else error)
      ensures ok ==>
        if !how.canonical && Simple(how, events[head], EmptyCollection()) then
          Did(After(pre, NodeStep(how, Push(c, FlowMappingSimpleValue), events[head], EmptyCollection(), Dense, true)), before)
        else Did(After(pre + [Enters(Question, false)], NodeStep(how, Push(c, FlowMappingValue), events[head], EmptyCollection(), Dense, false)), before)
      ensures Good(events[head]) && out.reliable && !ok ==>
        if !how.canonical && Simple(how, events[head], EmptyCollection()) then
          NodeStep(how, Push(c, FlowMappingSimpleValue), events[head], EmptyCollection(), Dense, true) == None
        else NodeStep(how, Push(c, FlowMappingValue), events[head], EmptyCollection(), Dense, false) == None
    {
      hide Fine, NodeStep, Good, EmptyAt, Did, Simple, Push;
      var simple := CheckSimpleKey();
      if !how.canonical && simple {
        ok := EmitInside(FlowMappingSimpleValue, true, true, Dense);
        if ok {
          DidAfter(pre, NodeStep(how, Push(c, FlowMappingSimpleValue), events[head], EmptyCollection(), Dense, true), before);
        }
        return;
      }
      ok := WriteIndicator(Question, true, false, false);
      if !ok {
        return;
      }
      assert signs == before + (pre + [Enters(Question, false)]);
      ok := EmitInside(FlowMappingValue, true, false, Dense);
      if ok {
        DidAfter(pre + [Enters(Question, false)], NodeStep(how, Push(c, FlowMappingValue), events[head], EmptyCollection(), Dense, false), before);
      }
    }

    method EmitFlowMappingKey(first: bool) returns (ok: bool)
      requires Fine() && head < |events| && ControlOk(Now()) && state == (if first then FlowMappingFirstKey else FlowMappingKey)
      modifies this, out, out.buffer
      ensures events == old(events) && head == old(head) && (if ok then Fine() else error)
      ensures ok ==> Did(FlowKeyStep(how, old(Now()), events[head], EmptyCollection(), first), old(signs))
      ensures FlowKeyStep(how, old(Now()), events[head], EmptyCollection(), first).Some? && Good(events[head]) && out.reliable ==> ok
    {
      hide Fine, ControlOk, NodeStep, Good, EmptyAt, Did, Leave, Trailing, Simple, Separator;
      StacksHold();
      ghost var before := signs;
      ghost var opening := if first then [Opens(LeftBrace)] else [];
      if first {
        ok := OpenFlow(LeftBrace);
        if !ok {
          return;
        }
      }
      assert signs == before + opening;
      ghost var c := Now();
      if events[head].MappingEnd? {
        ok := EndFlow(RightBrace, first, opening, c, before);
        return;
      }
      ok := Separate(first);
      if !ok {
        return;
      }
      ghost var pre := opening + Separator(first, c.level);
      assert signs == before + pre;
      ok := EmitFlowKey(c, pre, before);
    }

    method EmitFlowMappingValue(simple: bool) returns (ok: bool)
      requires Fine() && head < |events| && ControlOk(Now()) && state == (if simple then FlowMappingSimpleValue else FlowMappingValue)
      modifies this, out, out.buffer
      ensures events == old(events) && head == old(head) && (if ok then Fine() else error)
      ensures ok ==> Did(ValueStep(how, old(Now()), events[head], EmptyCollection(), true, simple), old(signs))
      ensures ValueStep(how, old(Now()), events[head], EmptyCollection(), true, simple).Some? && Good(events[head]) && out.reliable ==> ok
    {
      hide Fine, ControlOk, NodeStep, Good, EmptyAt, Did;
      StacksHold();
      ghost var before, c := signs, Now();
      if simple {
        ok := WriteIndicator(Colon, false, false, false);
        if !ok {
          return;
        }
      } else {
        ok := WriteWrap();
        if !ok {
          return;
        }
        ok := WriteIndicator(Colon, true, false, false);
        if !ok {
          return;
        }
      }
      assert signs == before + ColonSigns(simple, true, c.level);
      ghost var tie := if simple then Tight else Dense;
      ok := EmitInside(FlowMappingKey, true, false, tie);
      if ok {
        DidAfter(ColonSigns(simple, true, c.level), NodeStep(how, Push(c, FlowMappingKey), events[head], EmptyCollection(), tie, false), before);
      }
    }

    method EmitBlockMappingValue(simple: bool) returns (ok: bool)
      requires Fine() && head < |events| && ControlOk(Now()) && state == (if simple then BlockMappingSimpleValue else BlockMappingValue)
      modifies this, out, out.buffer
      ensures events == old(events) && head == old(head) && (if ok then Fine() else error)
      ensures ok ==> Did(ValueStep(how, old(Now()), events[head], EmptyCollection(), false, simple), old(signs))
      ensures ValueStep(how, old(Now()), events[head], EmptyCollection(), false, simple).Some? && Good(events[head]) && out.reliable ==> ok
    {
      hide Fine, ControlOk, NodeStep, Good, EmptyAt, Did;
      StacksHold();
      ghost var before, c := signs, Now();
      if simple {
        ok := WriteIndicator(Colon, false, false, false);
        if !ok {
          return;
        }
      } else {
        ok := WriteIndent();
        if !ok {
          return;
        }
        ok := WriteIndicator(Colon, true, false, true);
        if !ok {
          return;
        }
      }
      assert signs == before + ColonSigns(simple, false, c.level);
      ghost var tie := if simple then Tight else Dense;
      ok := EmitInside(BlockMappingKey, true, false, tie);
      if ok {
        DidAfter(ColonSigns(simple, false, c.level), NodeStep(how, Push(c, BlockMappingKey), events[head], EmptyCollection(), tie, false), before);
      }
    }

    /** The indentation and the width, if they are sensible. */
    method Tune()
      requires bestWidth == how.bestWidth && bestIndent == how.bestIndent
      modifies this`bestIndent, this`bestWidth
      ensures bestWidth == Width(how) && bestIndent == Indentation(how)
    {
      if bestIndent < 2 || bestIndent > 9 {
        bestIndent := 2;
      }
      if 0 <= bestWidth <= bestIndent * 2 {
        bestWidth := 80;
      }
      if bestWidth < 0 {
        bestWidth := 0x7FFF_FFFF;
      }
    }

    method EmitStreamStart() returns (ok: bool)
      requires Fresh() && head < |events| && ControlOk(Now()) && state == StreamStartState
      modifies this, out, out.buffer
      ensures events == old(events) && head == old(head) && (if ok then Fine() && !openEnded else error)
      ensures ok ==> Did(Step(how, old(Now()), events[head], EmptyCollection()), old(signs))
      ensures Step(how, old(Now()), events[head], EmptyCollection()).Some? && Good(events[head]) && out.reliable ==> ok
    {
      hide Good, EmptyAt, Step, ControlOk, Did, Fine, Fresh;
      StacksHold();
      ghost var c, before := Now(), signs;
      StreamStartIs(how, c, events[head], EmptyCollection());
      if !events[head].StreamStart? {
        ok := Fail();
        return;
      }
      Begin();
      ok := true;
      DidNone(Step(how, c, events[head], EmptyCollection()), before);
    }

    method Begin()
      requires Fresh()
      modifies this`bestIndent, this`bestWidth, this`indent, this`index, this`line, this`column, this`whitespace, this`indention, this`state
      ensures Fine() && !openEnded && Now() == Control(FirstDocumentStart, states, -1, indents, flowLevel, false)
    {
      hide Spells, Worded, Lay, Indentation, Width;
      Tune();
      indent, index, line, column, whitespace, indention := -1, 0, 0, 0, true, true;
      state := FirstDocumentStart;
      LayNone(how, TOP);
      SpellsNothing(how, lineBreak, text, signs);
    }

    lemma DidNone(o: Option<Stepped>, before: seq<Sign>)
      requires o == Some(Stepped(Now(), [])) && signs == before
      ensures Did(o, before)
    {
    }

    /** DOCUMENT-START or STREAM-END. */
    method EmitDocumentStart(first: bool) returns (ok: bool)
      requires Fine() && head < |events| && ControlOk(Now()) && state == (if first then FirstDocumentStart else DocumentStartState)
      modifies this, out, out.buffer
      ensures events == old(events) && head == old(head) && (if ok then Fine() else error)
      ensures ok ==> DidOrDots(DocumentStep(how, old(Now()), events[head], first), old(signs), old(openEnded))
      ensures ok && state.EndState? ==> out.pos == 0
      ensures DocumentStep(how, old(Now()), events[head], first).Some? && Good(events[head]) && out.reliable ==> ok
    {
      hide Fine, Good, ControlOk;
      StacksHold();
      if events[head].DocumentStart? {
        var implicit := events[head].implicit;
        if !first || how.canonical {
          implicit := false;
        }
        if !implicit {
          ok := WriteMark();
          if !ok {
            return;
          }
        }
        state := DocumentContent;
        ok := true;
      } else if events[head].StreamEnd? {
        ok := WriteStreamEnd();
        if !ok {
          return;
        }
        state := EndState;
      } else {
        ok := Fail();
      }
    }

    /** As `Did`, but for a mark at the end of the stream, where the last scalar has been left open-ended. */
    ghost predicate DidOrDots(o: Option<Stepped>, before: seq<Sign>, open: bool)
      reads this
    {
      o.Some? && Now() == o.value.control
      && (signs == before + o.value.signs || (open && state.EndState? && signs == before + o.value.signs + DOTS))
    }

    method WriteMark() returns (ok: bool)
      requires Fine() && indent == -1
      modifies this`index, this`line, this`column, this`whitespace, this`indention, this`openEnded, this`error, this`signs, out`pos, out`flushed, out.buffer
      ensures (out.reliable ==> ok) && (if ok then Fine() else error)
      ensures ok ==> signs == old(signs) + ([Line(-1), Enters(Dashes, false)] + if how.canonical then [Line(-1)] else [])
    {
      hide Fine;
      ok := WriteIndent();
      if !ok {
        return;
      }
      ok := WriteIndicator(Dashes, true, false, false);
      if ok && how.canonical {
        ok := WriteIndent();
      }
    }

    method WriteDots() returns (ok: bool)
      requires Fine() && indent == -1
      modifies this`index, this`line, this`column, this`whitespace, this`indention, this`openEnded, this`error, this`signs, out`pos, out`flushed, out.buffer
      ensures (out.reliable ==> ok) && (if ok then Fine() && !openEnded else error)
      ensures ok ==> signs == old(signs) + DOTS
    {
      hide Fine;
      ok := WriteIndicator(Dots, true, false, false);
      if ok {
        ok := WriteIndent();
      }
    }

    method WriteStreamEnd() returns (ok: bool)
      requires Fine() && indent == -1
      modifies this`index, this`line, this`column, this`whitespace, this`indention, this`openEnded, this`error, this`signs, out`pos, out`flushed, out.buffer
      ensures (out.reliable ==> ok) && (if ok then Fine() && out.pos == 0 else error)
      ensures ok ==> signs == old(signs) || (old(openEnded) && signs == old(signs) + DOTS)
    {
      hide Fine;
      if openEnded {
        ok := WriteDots();
        if !ok {
          return;
        }
      }
      ok := Flush();
    }

    method WriteEnd(implicit: bool) returns (ok: bool)
      requires Fine() && indent == -1
      modifies this`index, this`line, this`column, this`whitespace, this`indention, this`openEnded, this`error, this`signs, out`pos, out`flushed, out.buffer
      ensures (out.reliable ==> ok) && (if ok then Fine() else error)
      ensures ok ==> signs == old(signs) + EndSigns(implicit) && (openEnded ==> implicit)
    {
      hide Fine;
      ok := WriteIndent();
      if !ok {
        return;
      }
      if !implicit {
        ok := WriteDots();
        if !ok {
          return;
        }
      }
      ok := Flush();
    }

    method EmitDocumentContent() returns (ok: bool)
      requires Fine() && head < |events| && ControlOk(Now()) && state == DocumentContent
      modifies this, out, out.buffer
      ensures events == old(events) && head == old(head) && (if ok then Fine() else error)
      ensures ok ==> Did(Step(how, old(Now()), events[head], EmptyCollection()), old(signs))
      ensures Step(how, old(Now()), events[head], EmptyCollection()).Some? && Good(events[head]) && out.reliable ==> ok
    {
      hide Fine, Good, EmptyAt, ControlOk, NodeStep, Did;
      ok := EmitInside(DocumentEndState, false, false, Apart);
    }

    method EmitDocumentEnd() returns (ok: bool)
      requires Fine() && head < |events| && ControlOk(Now()) && state == DocumentEndState
      modifies this, out, out.buffer
      ensures events == old(events) && head == old(head) && (if ok then Fine() else error)
      ensures ok ==> Did(Step(how, old(Now()), events[head], EmptyCollection()), old(signs)) && (openEnded ==> events[head] == DocumentEnd(true))
      ensures Step(how, old(Now()), events[head], EmptyCollection()).Some? && Good(events[head]) && out.reliable ==> ok
    {
      hide Fine, Good, EmptyAt, ControlOk, Step, Did;
      StacksHold();
      ghost var c, before := Now(), signs;
      DocumentEndIs(how, c, events[head], EmptyCollection());
      if !events[head].DocumentEnd? {
        ok := Fail();
        return;
      }
      ok := WriteEnd(events[head].implicit);
      if !ok {
        return;
      }
      state := DocumentStartState;
      DidThis(Step(how, c, events[head], EmptyCollection()), before, EndSigns(events[head].implicit));
    }

    lemma DidThis(o: Option<Stepped>, before: seq<Sign>, written: seq<Sign>)
      requires o == Some(Stepped(Now(), written)) && signs == before + written
      ensures Did(o, before)
    {
    }

    // ---- one event

    method StateMachine() returns (ok: bool)
      requires (if state.StreamStartState? then Fresh() else Fine()) && head < |events| && ControlOk(Now())
      modifies this, out, out.buffer
      ensures events == old(events) && head == old(head) && (if ok then Fine() else error)
      ensures ok ==> DidOrDots(Step(how, old(Now()), events[head], EmptyCollection()), old(signs), old(openEnded))
      ensures ok && state.EndState? ==> out.pos == 0
      ensures ok && state.FirstDocumentStart? ==> !openEnded
      ensures ok && state.DocumentStartState? && openEnded ==> events[head] == DocumentEnd(true)
      ensures Step(how, old(Now()), events[head], EmptyCollection()).Some? && Good(events[head]) && out.reliable ==> ok
    {
      NotTheEnd(how, Now(), events[head], EmptyCollection());
      StatesBetween(how, Now(), events[head], EmptyCollection());
      hide Fine, Fresh, ControlOk, Good, EmptyAt, NodeStep, FlowItemStep, FlowKeyStep, BlockItemStep, BlockKeyStep, ValueStep, DocumentStep;
      match state {
        case StreamStartState => ok := EmitStreamStart();
        case FirstDocumentStart => ok := EmitDocumentStart(true);
        case DocumentStartState => ok := EmitDocumentStart(false);
        case DocumentContent => ok := EmitDocumentContent();
        case DocumentEndState => ok := EmitDocumentEnd();
        case FlowSequenceFirstItem => ok := EmitFlowSequenceItem(true);
        case FlowSequenceItem => ok := EmitFlowSequenceItem(false);
        case FlowMappingFirstKey => ok := EmitFlowMappingKey(true);
        case FlowMappingKey => ok := EmitFlowMappingKey(false);
        case FlowMappingSimpleValue => ok := EmitFlowMappingValue(true);
        case FlowMappingValue => ok := EmitFlowMappingValue(false);
        case BlockSequenceFirstItem => ok := EmitBlockSequenceItem(true);
        case BlockSequenceItem => ok := EmitBlockSequenceItem(false);
        case BlockMappingFirstKey => ok := EmitBlockMappingKey(true);
        case BlockMappingKey => ok := EmitBlockMappingKey(false);
        case BlockMappingSimpleValue => ok := EmitBlockMappingValue(true);
        case BlockMappingValue => ok := EmitBlockMappingValue(false);
        case EndState => ok := Fail();
      }
    }

    method Analyze(e: Event) returns (ok: bool)
      modifies this`error
      ensures (Good(e) ==> ok) && (if ok then error == old(error) else error)
    {
      ok := analyzes(e);
      if !ok {
        error := true;
      }
    }

    /** Whether the head of the queue waits for the events that it has to look at. */
    method NeedMoreEvents() returns (more: bool)
      requires head <= |events|
      ensures more == NeedMore(events[head..])
    {
      hide LevelOf;
      if head == |events| {
        return true;
      }
      var accumulate := Accumulate(events[head]);
      if accumulate == 0 || |events| - head > accumulate {
        return false;
      }
      var level := 0;
      NoLevel();
      for i := head to |events|
        invariant level == LevelOf(events[head..][..i - head])
        invariant forall k: nat | 0 < k <= i - head :: LevelOf(events[head..][..k]) != 0
      {
        OneLevel(events[head..], i - head);
        level := level + LevelChange(events[head..][i - head]);
        if level == 0 {
          return false;
        }
      }
      more := true;
    }

    /** Writes the event at the head of the queue. */
    method EmitHead() returns (ok: bool)
      requires Valid() && !NeedMore(events[head..])
      modifies this, out, out.buffer
      ensures events == old(events) && head == old(head) + (if ok then 1 else 0) && (if ok then Valid() else error)
      ensures AcceptAll(AtStart, events).Some? && (forall e | e in events :: Good(e)) && out.reliable ==> ok
    {
      hide Fine, Fresh, Good, ControlOk, AcceptAll, Step, Steps, EmptyAt;
      WaitsForEvents(events[head..]);
      ghost var o := Steps(how, events, 0, head, Initial).value;
      HeadStep(how, events, head);
      ok := Analyze(events[head]);
      if !ok {
        return;
      }
      ok := StateMachine();
      if !ok {
        return;
      }
      head := head + 1;
    }

    /** Takes one event, and writes as many as need not wait. */
    method Emit(event: Event) returns (ok: bool)
      requires Valid()
      modifies this, out, out.buffer
      ensures events == old(events) + [event] && head >= old(head)
      ensures if ok then Valid() && NeedMore(events[head..]) else error
      ensures AcceptAll(AtStart, events).Some? && (forall e | e in events :: Good(e)) && out.reliable ==> ok
      ensures ok && AcceptAll(AtStart, events) == Some(AtEnd) ==> head == |events| && Now() == Final
    {
      hide Fine, Good, NeedMore, AcceptAll, Looked, Steps;
      StepsExtend(how, events, [event], head);
      events := events + [event];
      ok := true;
      var more := NeedMoreEvents();
      while !more
        invariant Valid() && events == old(events) + [event] && old(head) <= head && more == NeedMore(events[head..])
        decreases |events| - head
      {
        WaitsForEvents(events[head..]);
        ok := EmitHead();
        if !ok {
          return;
        }
        more := NeedMoreEvents();
      }
      if AcceptAll(AtStart, events) == Some(AtEnd) {
        Drained(how, events, head);
      }
    }

    /** What has been written when everything has. */
    lemma AtTheEnd()
      requires Valid() && Now() == Final
      ensures state == EndState && states == [] && indents == [] && flowLevel == 0
      ensures Spells(how, lineBreak, text, out.flushed, signs) && Here() == Lay(how, TOP, signs).spot
      ensures Shown(Steps(how, events, 0, head, Initial))
      ensures forall o: Option<Stepped> | Shown(o) :: o.Some? && (signs == o.value.signs || (signs == o.value.signs + DOTS && 2 <= head <= |events| && events[head - 2] == DocumentEnd(true)))
    {
      hide Spells, Steps, Lay, Worded;
      assert out.Logical() == out.flushed;
    }
  }

  lemma StreamIsSome(docs: seq<Document>)
    ensures |StreamEvents(docs)| > 0
  {
  }

  lemma NotTheEnd(how: Settings, c: Control, e: Event, empty: bool)
    requires ControlOk(c)
    ensures var o := Step(how, c, e, empty);
      && (o.Some? && o.value.control.state.EndState? ==> c.state.FirstDocumentStart? || c.state.DocumentStartState?)
      && (o.Some? ==> !c.state.EndState?)
  {
    hide ControlOk, Where, Accept, Step;
    StepFollows(how, c, e, empty);
    WhereIs(c);
    EndsBetween(Where(c), e);
    var o := Step(how, c, e, empty);
    if o.Some? {
      WhereIs(o.value.control);
    }
  }

  lemma NodeStepFails(how: Settings, c: Control, e: Event, empty: bool, tie: Tie, simple: bool)
    ensures !StartsNode(e) ==> NodeStep(how, c, e, empty, tie, simple) == None
  {
  }

  lemma DocumentEndIs(how: Settings, c: Control, e: Event, empty: bool)
    requires c.state == DocumentEndState
    ensures Step(how, c, e, empty) == if e.DocumentEnd? then Some(Stepped(c.(state := DocumentStartState), EndSigns(e.implicit))) else None
  {
  }

  lemma StreamStartIs(how: Settings, c: Control, e: Event, empty: bool)
    requires c.state == StreamStartState
    ensures Step(how, c, e, empty) == if e.StreamStart? then Some(Stepped(c.(state := FirstDocumentStart), [])) else None
  {
  }

  lemma SpellsNothing(how: Settings, b: LineBreak, text: Wording, signs: seq<Sign>)
    ensures signs == [] ==> Spells(how, b, text, [], signs)
  {
  }

  lemma SimpleEmpty(how: Settings, e: Event, empty: bool)
    ensures Simple(how, e, empty) && (e.SequenceStart? || e.MappingStart?) ==> empty
  {
  }

  /** What the next step starts from, and where it leads. */
  lemma HeadStep(how: Settings, es: seq<Event>, head: nat)
    requires head < |es| && Steps(how, es, 0, head, Initial).Some?
    ensures var s := Steps(how, es, 0, head, Initial).value;
      var o := Step(how, s.control, es[head], EmptyAt(es, head));
      && Steps(how, es, 0, head + 1, Initial) == After(s.signs, o)
      && ControlOk(s.control) && (AcceptAll(AtStart, es).Some? ==> o.Some?) && (o.Some? ==> !s.control.state.EndState?)
      && (o.Some? ==> !o.value.control.state.StreamStartState?)
      && (o.Some? && o.value.control.state.FirstDocumentStart? ==> s.control.state.StreamStartState?)
      && (o.Some? && o.value.control.state.DocumentStartState? ==> s.control.state.DocumentEndState?)
      && (o.Some? && o.value.control.state.EndState? ==> s.control.state.FirstDocumentStart? || s.control.state.DocumentStartState?)
  {
    hide ControlOk, Where, Accept, AcceptAll, Step, EmptyAt;
    StepsFollow(how, es, head);
    StepsFollow(how, es, head + 1);
    var s := Steps(how, es, 0, head, Initial).value;
    OneMore(how, es, head);
    NotTheEnd(how, s.control, es[head], EmptyAt(es, head));
    StatesBetween(how, s.control, es[head], EmptyAt(es, head));
    if AcceptAll(AtStart, es).Some? {
      PrefixAccepted(AtStart, es, head + 1);
    }
  }

  /** Between documents the machine is only at the beginning of the stream and behind the end of a document. */
  lemma StatesBetween(how: Settings, c: Control, e: Event, empty: bool)
    requires ControlOk(c)
    ensures var o := Step(how, c, e, empty);
      o.Some? ==> !o.value.control.state.StreamStartState?
    ensures var o := Step(how, c, e, empty);
      o.Some? && o.value.control.state.FirstDocumentStart? ==> c.state.StreamStartState?
    ensures var o := Step(how, c, e, empty);
      o.Some? && o.value.control.state.DocumentStartState? ==> c.state.DocumentEndState?
  {
    hide ControlOk, Where, Accept, Step;
    StepFollows(how, c, e, empty);
    WhereIs(c);
    BeginsBetween(Where(c), e);
    StatesAre(how, c, e, empty);
    var o := Step(how, c, e, empty);
    if o.Some? {
      WhereIs(o.value.control);
    }
  }

  lemma BeginsBetween(p: Position, e: Event)
    ensures Accept(p, e) == Some(BetweenDocuments) ==> p == AtStart || p == AtDocumentEnd
    ensures Accept(p, e) != Some(AtStart)
  {
  }

  lemma StatesAre(how: Settings, c: Control, e: Event, empty: bool)
    ensures var o := Step(how, c, e, empty);
      && (o.Some? && c.state.StreamStartState? ==> o.value.control.state.FirstDocumentStart?)
      && (o.Some? && c.state.DocumentEndState? ==> o.value.control.state.DocumentStartState?)
  {
    hide NodeStep, FlowItemStep, FlowKeyStep, BlockItemStep, BlockKeyStep, ValueStep, DocumentStep;
  }

  lemma WhereIs(c: Control)
    requires ControlOk(c)
    ensures Where(c) == AtEnd <==> c.state.EndState?
    ensures Where(c) == AtStart <==> c.state.StreamStartState?
    ensures Where(c) == AtDocumentEnd <==> c.state.DocumentEndState?
    ensures Where(c) == BetweenDocuments <==> c.state.FirstDocumentStart? || c.state.DocumentStartState?
  {
  }

  lemma EndsBetween(p: Position, e: Event)
    ensures Accept(p, e) == Some(AtEnd) ==> p == BetweenDocuments
    ensures Accept(AtEnd, e) == None
  {
  }

  lemma OneMore(how: Settings, es: seq<Event>, n: nat)
    requires n < |es| && Steps(how, es, 0, n, Initial).Some?
    ensures var s := Steps(how, es, 0, n, Initial).value;
      Steps(how, es, 0, n + 1, Initial) == After(s.signs, Step(how, s.control, es[n], EmptyAt(es, n)))
  {
  }

  // ---- a whole stream

  /** Every stream whose contents can be written is written to its end, as the recursive printer writes it; but for
      a mark behind it if its last scalar is open-ended. Then no event is left in the queue, nothing on the stacks,
      and nothing in the buffer: the write handler has got the signs, with only blanks and line breaks between. */
  method EmitStream(docs: seq<Document>, emitter: Emitter) returns (ok: bool)
    requires emitter.Valid() && emitter.events == []
    modifies emitter, emitter.out, emitter.out.buffer
    ensures emitter.out.reliable && (forall e | e in StreamEvents(docs) :: emitter.Good(e)) ==> ok
    ensures if ok then emitter.Valid() && emitter.events == StreamEvents(docs) && emitter.head == |emitter.events| else emitter.error
    ensures ok ==> emitter.state == EndState && emitter.states == [] && emitter.indents == [] && emitter.flowLevel == 0
    ensures ok ==> var printed := PrintedDocuments(emitter.how, docs);
      && Spells(emitter.how, emitter.lineBreak, emitter.text, emitter.out.flushed, emitter.signs)
      && (emitter.signs == printed || (emitter.signs == printed + DOTS && docs != [] && docs[|docs| - 1].end))
      && emitter.Here() == Lay(emitter.how, TOP, emitter.signs).spot
  {
    hide *;
    var es := StreamEvents(docs);
    var n := |es|;
    StreamAccepted(docs);
    StreamPrinted(emitter.how, docs);
    StreamIsSome(docs);
    ok := true;
    for i := 0 to n
      invariant emitter.Valid() && emitter.events == es[..i]
      invariant i == n ==> emitter.head == n && emitter.Now() == Final
    {
      PrefixAccepted(AtStart, es, i + 1);
      assert es[..i] + [es[i]] == es[..i + 1];
      assert i + 1 == n ==> es[..i + 1] == es;
      ok := emitter.Emit(es[i]);
      if !ok {
        return;
      }
    }
    assert es[..n] == es;
    emitter.AtTheEnd();
    LastEnd(docs);
  }

  /** The event before the end of a stream. */
  lemma LastEnd(docs: seq<Document>)
    ensures var es := StreamEvents(docs);
      |es| >= 2 && (es[|es| - 2] == DocumentEnd(true) ==> docs != [] && docs[|docs| - 1].end)
  {
    hide NodeEvents;
    if docs != [] {
      assert DocumentsEvents(docs) == DocumentsEvents(docs[..|docs| - 1]) + DocumentEvents(docs[|docs| - 1]);
    } else {
      assert DocumentsEvents(docs) == [];
    }
  }
}
