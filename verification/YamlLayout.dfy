/** The layout of what the emitter writes: signs, the orders to go on in a new line that stand between them, and the line
    and column of every token that comes out. */
module YamlLayout {
  import opened Basics
  import opened YamlEvents
  import opened YamlTokens
  import opened YamlGrammar
  import opened YamlScanner
  import opened YamlOutput

  // ---- how contents are written

  // Only a plain scalar is known as one again; a block scalar is literal or folded.
  datatype Style = Plain | Quoted | Block

  datatype Word = Word(value: string, style: Style)

  // How the content of a node is written: its properties, and the text of a scalar. No text is an empty plain scalar.
  datatype Writing = Writing(written: Written, text: Option<Word>)

  // The room that the text of a scalar takes: how many characters, how many line breaks among them, and the column behind
  // the last of them if there are some.
  datatype Extent = Extent(chars: nat, breaks: nat, column: nat)

  // `short` tells whether what a node's event holds fits in a simple key: one line, at most 128 bytes. `content` is told
  // whether a node is inside a flow collection and whether it is a simple key. `size` is how many characters an alias, a
  // property or a text on one line has behind its first one; `extent` is the room of any other text that is written from a
  // column on and with an indentation; `eol` how many characters a line break has behind its first one.
  datatype Settings = Settings(
    canonical: bool, short: Event -> bool, bestIndent: int, bestWidth: int, eol: nat,
    content: (Event, bool, bool) -> Writing, size: Token -> nat, extent: (Event, nat, int) -> Extent)

  function Indentation(how: Settings): (r: nat)
    ensures 2 <= r <= 9 && (r == how.bestIndent || (r == 2 && (how.bestIndent < 2 || how.bestIndent > 9)))
  {
    if 2 <= how.bestIndent <= 9 then how.bestIndent else 2
  }

  function Width(how: Settings): (r: int)
    ensures r > 0 && (how.bestWidth > 2 * Indentation(how) ==> r == how.bestWidth)
    ensures 0 <= how.bestWidth <= 2 * Indentation(how) ==> r == 80
    ensures how.bestWidth < 0 ==> r == 0x7FFF_FFFF
  {
    if how.bestWidth < 0 then 0x7FFF_FFFF
    else if how.bestWidth <= 2 * Indentation(how) then 80
    else how.bestWidth
  }

  function Increased(how: Settings, level: int, flow: bool, indentless: bool): (r: int) {
    if level < 0 then (if flow then Indentation(how) else 0)
    else if indentless then level
    else level + Indentation(how)
  }

  // ---- signs

  type Chars = cs: seq<Byte> | |cs| > 0 witness [0x20]

  // An indicator, with whether it must have a blank before it, stands for one behind it, and goes with the indentation;
  // or the anchor, the tag and the value of a node. `Line` and `Wrap` are orders to go on at a column, in a new line where
  // that is needed; a `Wrap` is for long lines and for the canonical form.
  datatype Sign =
    | Indicator(chars: Chars, spaced: bool, whitespace: bool, indention: bool)
    | Content(event: Event, level: int, flow: bool, simple: bool)
    | Line(level: int)
    | Wrap(level: int)

  const LeftBracket: Chars := [0x5B]
  const RightBracket: Chars := [0x5D]
  const LeftBrace: Chars := [0x7B]
  const RightBrace: Chars := [0x7D]
  const Comma: Chars := [0x2C]
  const Dash: Chars := [0x2D]
  const Question: Chars := [0x3F]
  const Colon: Chars := [0x3A]
  const Dashes: Chars := [0x2D, 0x2D, 0x2D]
  const Dots: Chars := [0x2E, 0x2E, 0x2E]

  function Opens(chars: Chars): (r: Sign) {
    Indicator(chars, true, true, false)
  }

  function Closes(chars: Chars): (r: Sign) {
    Indicator(chars, false, false, false)
  }

  /** An indicator of a block collection or of an entry, which the indentation goes on behind in block style. */
  function Enters(chars: Chars, block: bool): (r: Sign) {
    Indicator(chars, true, false, block)
  }

  // ---- the recursive printer

  // How a node is tied to a block mapping: not at all, behind a '?' or a ':' in a line of its own, or as the value of a
  // simple key.
  datatype Tie = Apart | Dense | Tight

  /** The event that a node begins with. */
  function Head(t: Tree): (e: Event) {
    match t
    case AliasTree(name) => Alias(name)
    case ScalarTree(props, value, quoted, plain) => Scalar(props, value, quoted, plain)
    case SequenceTree(props, flow, _) => SequenceStart(props, flow)
    case MappingTree(props, flow, _) => MappingStart(props, flow)
  }

  /** A key is simple if it is short and if it is no collection with something inside. */
  predicate IsSimpleKey(how: Settings, t: Tree) {
    how.short(Head(t)) && (t.SequenceTree? ==> t.items == []) && (t.MappingTree? ==> t.pairs == [])
  }

  /** A key that is printed without a question mark. */
  predicate Unmarked(how: Settings, key: Tree, inFlow: bool) {
    IsSimpleKey(how, key) && !(inFlow && how.canonical)
  }

  /** A collection is printed in flow style inside of others, in canonical form, if it wants to or if it is empty. */
  predicate InFlow(how: Settings, inFlow: bool, flow: bool, empty: bool) {
    inFlow || how.canonical || flow || empty
  }

  /** A block sequence in a block mapping is not indented if something is in front of it in its line. */
  predicate Loose(how: Settings, e: Event, tie: Tie) {
    tie.Tight? || (tie.Dense? && WrittenTokens(how.content(e, false, false).written) != [])
  }

  /** A node: inside a flow collection or not, with the indentation `level` in force. */
  function Printed(how: Settings, t: Tree, inFlow: bool, level: int, tie: Tie, simple: bool): (r: seq<Sign>)
    decreases t, 1
  {
    var content := [Sign.Content(Head(t), level, inFlow, simple)];
    match t
    case AliasTree(_) => content
    case ScalarTree(_, _, _, _) => content
    case SequenceTree(props, flow, items) =>
      if InFlow(how, inFlow, flow, items == []) then
        content + [Opens(LeftBracket)] + (FlowItems(how, items, Increased(how, level, true, false)) + Trailing(how, items != [], level))
        + [Closes(RightBracket)]
      else content + BlockItems(how, items, Increased(how, level, false, Loose(how, Head(t), tie)))
    case MappingTree(props, flow, pairs) =>
      if InFlow(how, inFlow, flow, pairs == []) then
        content + [Opens(LeftBrace)] + (FlowPairs(how, pairs, Increased(how, level, true, false)) + Trailing(how, pairs != [], level))
        + [Closes(RightBrace)]
      else content + BlockPairs(how, pairs, Increased(how, level, false, false))
  }

  /** The canonical form has a comma after the last entry, too. */
  function Trailing(how: Settings, some: bool, level: int): (r: seq<Sign>) {
    if how.canonical && some then [Closes(Comma), Line(level)] else []
  }

  /** What goes before an entry of a flow collection. */
  function Separator(first: bool, level: int): (r: seq<Sign>) {
    (if first then [] else [Closes(Comma)]) + [Wrap(level)]
  }

  function FlowItems(how: Settings, items: seq<Tree>, level: int): (r: seq<Sign>)
    decreases items, 0
  {
    if items == [] then []
    else FlowItems(how, items[..|items| - 1], level)
         + (Separator(|items| == 1, level) + Printed(how, items[|items| - 1], true, level, Apart, false))
  }

  function BlockItems(how: Settings, items: seq<Tree>, level: int): (r: seq<Sign>)
    decreases items, 0
  {
    if items == [] then []
    else BlockItems(how, items[..|items| - 1], level)
         + ([Line(level), Enters(Dash, true)] + Printed(how, items[|items| - 1], false, level, Apart, false))
  }

  function FlowPairs(how: Settings, pairs: seq<Pair>, level: int): (r: seq<Sign>)
    decreases pairs, 0
  {
    if pairs == [] then []
    else FlowPairs(how, pairs[..|pairs| - 1], level)
         + (Separator(|pairs| == 1, level) + PairSigns(how, pairs[|pairs| - 1], true, level))
  }

  function BlockPairs(how: Settings, pairs: seq<Pair>, level: int): (r: seq<Sign>)
    decreases pairs, 0
  {
    if pairs == [] then []
    else BlockPairs(how, pairs[..|pairs| - 1], level)
         + ([Line(level)] + PairSigns(how, pairs[|pairs| - 1], false, level))
  }

  function PairSigns(how: Settings, p: Pair, inFlow: bool, level: int): (r: seq<Sign>)
    decreases p, 2
  {
    match p case Pair(key, value) => KeySigns(how, key, inFlow, level) + ValueSigns(how, key, value, inFlow, level)
  }

  /** A simple key stands alone; any other has a question mark before it. */
  function KeySigns(how: Settings, key: Tree, inFlow: bool, level: int): (r: seq<Sign>)
    decreases key, 2
  {
    var simple := Unmarked(how, key, inFlow);
    (if simple then [] else [Enters(Question, !inFlow)]) + Printed(how, key, inFlow, level, Dense, simple)
  }

  /** The colon is behind a simple key, and in a place of its own behind any other. */
  function ValueSigns(how: Settings, key: Tree, value: Tree, inFlow: bool, level: int): (r: seq<Sign>)
    decreases value, 2
  {
    ColonSigns(Unmarked(how, key, inFlow), inFlow, level) + Printed(how, value, inFlow, level, ValueTie(how, key, inFlow), false)
  }

  function ColonSigns(simple: bool, inFlow: bool, level: int): (r: seq<Sign>) {
    if simple then [Closes(Colon)]
    else [if inFlow then Wrap(level) else Line(level), Enters(Colon, !inFlow)]
  }

  function ValueTie(how: Settings, key: Tree, inFlow: bool): (r: Tie) {
    if Unmarked(how, key, inFlow) then Tight else Dense
  }

  /** Only the first document may go without its mark, and not in canonical form. */
  predicate Bareheaded(how: Settings, start: bool, first: bool) {
    start && first && !how.canonical
  }

  function StartSigns(how: Settings, start: bool, first: bool): (r: seq<Sign>) {
    if Bareheaded(how, start, first) then []
    else [Line(-1), Enters(Dashes, false)] + if how.canonical then [Line(-1)] else []
  }

  // An explicit end of a document.
  const DOTS: seq<Sign> := [Enters(Dots, false), Line(-1)]

  function EndSigns(end: bool): (r: seq<Sign>) {
    [Line(-1)] + if end then [] else DOTS
  }

  function DocumentSigns(how: Settings, d: Document, first: bool): (r: seq<Sign>) {
    StartSigns(how, d.start, first) + Printed(how, d.root, false, -1, Apart, false) + EndSigns(d.end)
  }

  function PrintedDocuments(how: Settings, docs: seq<Document>): (r: seq<Sign>) {
    if docs == [] then []
    else PrintedDocuments(how, docs[..|docs| - 1]) + DocumentSigns(how, docs[|docs| - 1], |docs| == 1)
  }

  // ---- what the signs of a node are

  function Count(signs: seq<Sign>, chars: Chars): (r: nat) {
    if signs == [] then 0
    else
      var last := signs[|signs| - 1];
      Count(signs[..|signs| - 1], chars) + if last.Indicator? && last.chars == chars then 1 else 0
  }

  lemma {:induction false} CountConcat(a: seq<Sign>, b: seq<Sign>, chars: Chars)
    ensures Count(a + b, chars) == Count(a, chars) + Count(b, chars)
    decreases |b|
  {
    if b == [] {
      assert a + b == a;
    } else {
      var init, last := b[..|b| - 1], b[|b| - 1];
      assert (a + b)[..|a + b| - 1] == a + init;
      CountConcat(a, init, chars);
    }
  }

  lemma CountOne(x: Sign, chars: Chars)
    ensures Count([x], chars) == if x.Indicator? && x.chars == chars then 1 else 0
  {
    assert [x][..0] == [];
  }

  // What there is in a tree.
  datatype Kinds = Kinds(sequences: nat, mappings: nat, items: nat, pairs: nat) {
    function Plus(other: Kinds): (r: Kinds) {
      Kinds(sequences + other.sequences, mappings + other.mappings, items + other.items, pairs + other.pairs)
    }

    /** How often an indicator is in the canonical form: there is nothing in block style, each pair has its two marks, and
        each entry its comma. */
    function Canonical(chars: Chars): (r: nat) {
      if chars == ['[' as int] || chars == [']' as int] then sequences
      else if chars == ['{' as int] || chars == ['}' as int] then mappings
      else if chars == ['?' as int] || chars == [':' as int] then pairs
      else if chars == [',' as int] then items + pairs
      else 0
    }
  }

  function KindsIn(t: Tree): (r: Kinds)
    decreases t, 1
  {
    match t
    case SequenceTree(_, _, items) => Kinds(1, 0, |items|, 0).Plus(KindsInItems(items))
    case MappingTree(_, _, pairs) => Kinds(0, 1, 0, |pairs|).Plus(KindsInPairs(pairs))
    case _ => Kinds(0, 0, 0, 0)
  }

  function KindsInItems(items: seq<Tree>): (r: Kinds)
    decreases items, 0
  {
    if items == [] then Kinds(0, 0, 0, 0) else KindsInItems(items[..|items| - 1]).Plus(KindsIn(items[|items| - 1]))
  }

  function KindsInPairs(pairs: seq<Pair>): (r: Kinds)
    decreases pairs, 0
  {
    if pairs == [] then Kinds(0, 0, 0, 0) else KindsInPairs(pairs[..|pairs| - 1]).Plus(KindsInPair(pairs[|pairs| - 1]))
  }

  function KindsInPair(p: Pair): (r: Kinds)
    decreases p, 2
  {
    match p case Pair(key, value) => KindsIn(key).Plus(KindsIn(value))
  }

  lemma CanonicalPlus(a: Kinds, b: Kinds, chars: Chars)
    ensures a.Plus(b).Canonical(chars) == a.Canonical(chars) + b.Canonical(chars)
  {
  }

  /** The indicators that do not depend on the style: all of them in canonical form, colons and the marks of documents in
      any form. */
  predicate Certain(how: Settings, chars: Chars) {
    how.canonical || chars == [':' as int] || |chars| == 3
  }

  /** The indentation in a block collection. */
  function BlockLevel(how: Settings, t: Tree, level: int, tie: Tie): (r: int) {
    Increased(how, level, false, t.SequenceTree? && Loose(how, Head(t), tie))
  }

  lemma PrintedIs(how: Settings, t: Tree, inFlow: bool, level: int, tie: Tie, simple: bool)
    ensures var signs, content, inside := Printed(how, t, inFlow, level, tie, simple), Sign.Content(Head(t), level, inFlow, simple), Increased(how, level, true, false);
      if t.SequenceTree? then
        || signs == [content] + [Opens(LeftBracket)] + (FlowItems(how, t.items, inside) + Trailing(how, t.items != [], level)) + [Closes(RightBracket)]
        || (!how.canonical && signs == [content] + BlockItems(how, t.items, BlockLevel(how, t, level, tie)))
      else if t.MappingTree? then
        || signs == [content] + [Opens(LeftBrace)] + (FlowPairs(how, t.pairs, inside) + Trailing(how, t.pairs != [], level)) + [Closes(RightBrace)]
        || (!how.canonical && signs == [content] + BlockPairs(how, t.pairs, BlockLevel(how, t, level, tie)))
      else signs == [content]
  {
    hide Increased, Loose, FlowItems, BlockItems, FlowPairs, BlockPairs, Trailing;
  }

  lemma KindsOf(t: Tree, chars: Chars)
    ensures KindsIn(t).Canonical(chars) == match t
      case SequenceTree(_, _, items) =>
        KindsInItems(items).Canonical(chars)
        + if chars == LeftBracket || chars == RightBracket then 1 else if chars == Comma then |items| else 0
      case MappingTree(_, _, pairs) =>
        KindsInPairs(pairs).Canonical(chars)
        + if chars == LeftBrace || chars == RightBrace then 1 else if chars == Comma || chars == Question || chars == Colon then |pairs| else 0
      case _ => 0
  {
    hide KindsInItems, KindsInPairs;
  }

  /** How many indicators there are in what is printed for a node. */
  lemma {:induction false} PrintedHas(how: Settings, t: Tree, inFlow: bool, level: int, tie: Tie, simple: bool, chars: Chars)
    requires Certain(how, chars)
    ensures Count(Printed(how, t, inFlow, level, tie, simple), chars) == KindsIn(t).Canonical(chars)
    decreases t, 1
  {
    hide Printed, KindsIn, KindsInItems, KindsInPairs, FlowItems, FlowPairs, BlockItems, BlockPairs, Count, Kinds.Canonical, Trailing, Increased;
    var content, inside := Sign.Content(Head(t), level, inFlow, simple), Increased(how, level, true, false);
    CountOne(content, chars);
    PrintedIs(how, t, inFlow, level, tie, simple);
    KindsOf(t, chars);
    match t {
      case SequenceTree(props, flow, items) =>
        FlowItemsHave(how, items, inside, chars);
        Bracketed(how, content, LeftBracket, FlowItems(how, items, inside), items != [], level, RightBracket, chars);
        if !how.canonical {
          BlockItemsHave(how, items, BlockLevel(how, t, level, tie), chars);
          CountConcat([content], BlockItems(how, items, BlockLevel(how, t, level, tie)), chars);
        }
      case MappingTree(props, flow, pairs) =>
        FlowPairsHave(how, pairs, inside, chars);
        Bracketed(how, content, LeftBrace, FlowPairs(how, pairs, inside), pairs != [], level, RightBrace, chars);
        if !how.canonical {
          BlockPairsHave(how, pairs, BlockLevel(how, t, level, tie), chars);
          CountConcat([content], BlockPairs(how, pairs, BlockLevel(how, t, level, tie)), chars);
        }
      case _ =>
    }
  }

  lemma Bracketed(how: Settings, content: Sign, open: Chars, inner: seq<Sign>, some: bool, level: int, close: Chars, chars: Chars)
    requires Certain(how, chars) && content.Content?
    ensures Count([content] + [Opens(open)] + (inner + Trailing(how, some, level)) + [Closes(close)], chars) ==
      Count(inner, chars) + (if chars == open then 1 else 0) + (if chars == close then 1 else 0) + (if some && chars == Comma then 1 else 0)
  {
    hide Count;
    CountConcat([content] + [Opens(open)] + (inner + Trailing(how, some, level)), [Closes(close)], chars);
    CountConcat([content] + [Opens(open)], inner + Trailing(how, some, level), chars);
    CountConcat([content], [Opens(open)], chars);
    CountConcat(inner, Trailing(how, some, level), chars);
    CountConcat([Closes(Comma)], [Line(level)], chars);
    assert [Closes(Comma)] + [Line(level)] == [Closes(Comma), Line(level)];
    CountOne(content, chars);
    CountOne(Opens(open), chars);
    CountOne(Closes(close), chars);
    CountOne(Closes(Comma), chars);
    CountOne(Line(level), chars);
    CountNone(chars);
  }

  lemma CountNone(chars: Chars)
    ensures Count([], chars) == 0
  {
  }

  lemma CountSeparator(first: bool, level: int, chars: Chars)
    ensures Count(Separator(first, level), chars) == if !first && chars == Comma then 1 else 0
  {
    hide Count;
    CountConcat(if first then [] else [Closes(Comma)], [Wrap(level)], chars);
    CountOne(Closes(Comma), chars);
    CountOne(Wrap(level), chars);
    CountNone(chars);
  }

  /** Without the comma behind the last entry, if any. */
  function CommaLess(n: nat, chars: Chars): (r: int) {
    if chars == Comma && n > 0 then n - 1 else 0
  }

  lemma ItemsLast(how: Settings, items: seq<Tree>, level: int, chars: Chars)
    requires items != []
    ensures var init, last := items[..|items| - 1], items[|items| - 1];
      && FlowItems(how, items, level) == FlowItems(how, init, level) + (Separator(|items| == 1, level) + Printed(how, last, true, level, Apart, false))
      && BlockItems(how, items, level) == BlockItems(how, init, level) + ([Line(level), Enters(Dash, true)] + Printed(how, last, false, level, Apart, false))
      && KindsInItems(items).Canonical(chars) == KindsInItems(init).Canonical(chars) + KindsIn(last).Canonical(chars)
  {
    hide Printed, KindsIn, Kinds.Canonical;
    CanonicalPlus(KindsInItems(items[..|items| - 1]), KindsIn(items[|items| - 1]), chars);
  }

  lemma PairsLast(how: Settings, pairs: seq<Pair>, level: int, chars: Chars)
    requires pairs != []
    ensures var init, last := pairs[..|pairs| - 1], pairs[|pairs| - 1];
      && FlowPairs(how, pairs, level) == FlowPairs(how, init, level) + (Separator(|pairs| == 1, level) + PairSigns(how, last, true, level))
      && BlockPairs(how, pairs, level) == BlockPairs(how, init, level) + ([Line(level)] + PairSigns(how, last, false, level))
      && KindsInPairs(pairs).Canonical(chars) == KindsInPairs(init).Canonical(chars) + KindsInPair(last).Canonical(chars)
  {
    hide PairSigns, KindsInPair, Kinds.Canonical;
    CanonicalPlus(KindsInPairs(pairs[..|pairs| - 1]), KindsInPair(pairs[|pairs| - 1]), chars);
  }

  lemma PairBoth(how: Settings, p: Pair, inFlow: bool, level: int, chars: Chars)
    ensures var simple := Unmarked(how, p.key, inFlow);
      PairSigns(how, p, inFlow, level) ==
        ((if simple then [] else [Enters(Question, !inFlow)]) + Printed(how, p.key, inFlow, level, Dense, simple))
        + (ColonSigns(simple, inFlow, level) + Printed(how, p.value, inFlow, level, ValueTie(how, p.key, inFlow), false))
    ensures KindsInPair(p).Canonical(chars) == KindsIn(p.key).Canonical(chars) + KindsIn(p.value).Canonical(chars)
  {
    hide Printed, KindsIn, Kinds.Canonical;
    CanonicalPlus(KindsIn(p.key), KindsIn(p.value), chars);
  }

  lemma CountColon(simple: bool, inFlow: bool, level: int, chars: Chars)
    ensures Count(ColonSigns(simple, inFlow, level), chars) == if chars == Colon then 1 else 0
  {
    hide Count;
    var line := if inFlow then Wrap(level) else Line(level);
    CountConcat([line], [Enters(Colon, !inFlow)], chars);
    assert [line] + [Enters(Colon, !inFlow)] == [line, Enters(Colon, !inFlow)];
    CountOne(line, chars);
    CountOne(Enters(Colon, !inFlow), chars);
    CountOne(Closes(Colon), chars);
  }

  lemma EmptyKinds(chars: Chars)
    ensures KindsInItems([]).Canonical(chars) == 0 && KindsInPairs([]).Canonical(chars) == 0
  {
  }

  lemma NothingPrinted(how: Settings, level: int)
    ensures FlowItems(how, [], level) == [] && FlowPairs(how, [], level) == []
    ensures BlockItems(how, [], level) == [] && BlockPairs(how, [], level) == []
  {
  }

  lemma {:induction false} FlowItemsHave(how: Settings, items: seq<Tree>, level: int, chars: Chars)
    requires Certain(how, chars)
    ensures Count(FlowItems(how, items, level), chars) == KindsInItems(items).Canonical(chars) + CommaLess(|items|, chars)
    decreases items, 0
  {
    hide Printed, KindsIn, Count, KindsInItems, FlowItems, Kinds.Canonical, Separator;
    if items == [] {
      CountNone(chars);
      EmptyKinds(chars);
      NothingPrinted(how, level);
    } else {
      var init, last := items[..|items| - 1], items[|items| - 1];
      FlowItemsHave(how, init, level, chars);
      PrintedHas(how, last, true, level, Apart, false, chars);
      CountSeparator(|items| == 1, level, chars);
      ItemsLast(how, items, level, chars);
      var node := Printed(how, last, true, level, Apart, false);
      CountConcat(Separator(|items| == 1, level), node, chars);
      CountConcat(FlowItems(how, init, level), Separator(|items| == 1, level) + node, chars);
    }
  }

  lemma {:induction false} FlowPairsHave(how: Settings, pairs: seq<Pair>, level: int, chars: Chars)
    requires Certain(how, chars)
    ensures Count(FlowPairs(how, pairs, level), chars) ==
      KindsInPairs(pairs).Canonical(chars) + CommaLess(|pairs|, chars) + if chars == Question || chars == Colon then |pairs| else 0
    decreases pairs, 0
  {
    hide PairSigns, KindsInPair, Count, KindsInPairs, FlowPairs, Kinds.Canonical, Separator;
    if pairs == [] {
      CountNone(chars);
      EmptyKinds(chars);
      NothingPrinted(how, level);
    } else {
      var init, last := pairs[..|pairs| - 1], pairs[|pairs| - 1];
      FlowPairsHave(how, init, level, chars);
      PairHas(how, last, true, level, chars);
      CountSeparator(|pairs| == 1, level, chars);
      PairsLast(how, pairs, level, chars);
      CountConcat(Separator(|pairs| == 1, level), PairSigns(how, last, true, level), chars);
      CountConcat(FlowPairs(how, init, level), Separator(|pairs| == 1, level) + PairSigns(how, last, true, level), chars);
    }
  }

  lemma {:induction false} BlockItemsHave(how: Settings, items: seq<Tree>, level: int, chars: Chars)
    requires Certain(how, chars) && !how.canonical
    ensures Count(BlockItems(how, items, level), chars) == KindsInItems(items).Canonical(chars)
    decreases items, 0
  {
    hide Printed, KindsIn, Count, KindsInItems, BlockItems, FlowItems, Kinds.Canonical;
    if items == [] {
      CountNone(chars);
      EmptyKinds(chars);
      NothingPrinted(how, level);
    } else {
      var init, last := items[..|items| - 1], items[|items| - 1];
      BlockItemsHave(how, init, level, chars);
      PrintedHas(how, last, false, level, Apart, false, chars);
      CountConcat([Line(level)], [Enters(Dash, true)], chars);
      assert [Line(level)] + [Enters(Dash, true)] == [Line(level), Enters(Dash, true)];
      CountOne(Line(level), chars);
      CountOne(Enters(Dash, true), chars);
      ItemsLast(how, items, level, chars);
      var node := Printed(how, last, false, level, Apart, false);
      CountConcat([Line(level), Enters(Dash, true)], node, chars);
      CountConcat(BlockItems(how, init, level), [Line(level), Enters(Dash, true)] + node, chars);
    }
  }

  lemma {:induction false} BlockPairsHave(how: Settings, pairs: seq<Pair>, level: int, chars: Chars)
    requires Certain(how, chars) && !how.canonical
    ensures Count(BlockPairs(how, pairs, level), chars) == KindsInPairs(pairs).Canonical(chars) + if chars == Colon then |pairs| else 0
    decreases pairs, 0
  {
    hide PairSigns, KindsInPair, Count, KindsInPairs, BlockPairs, FlowPairs, Kinds.Canonical;
    if pairs == [] {
      CountNone(chars);
      EmptyKinds(chars);
      NothingPrinted(how, level);
    } else {
      var init, last := pairs[..|pairs| - 1], pairs[|pairs| - 1];
      BlockPairsHave(how, init, level, chars);
      PairHas(how, last, false, level, chars);
      CountOne(Line(level), chars);
      PairsLast(how, pairs, level, chars);
      CountConcat([Line(level)], PairSigns(how, last, false, level), chars);
      CountConcat(BlockPairs(how, init, level), [Line(level)] + PairSigns(how, last, false, level), chars);
    }
  }

  lemma {:induction false} PairHas(how: Settings, p: Pair, inFlow: bool, level: int, chars: Chars)
    requires Certain(how, chars) && (how.canonical ==> inFlow)
    ensures Count(PairSigns(how, p, inFlow, level), chars) ==
      KindsInPair(p).Canonical(chars) + if chars == Question || chars == Colon then 1 else 0
    decreases p, 2
  {
    var simple, tie := Unmarked(how, p.key, inFlow), ValueTie(how, p.key, inFlow);
    assert how.canonical ==> !simple;
    hide Printed, KindsIn, Count, PairSigns, KindsInPair, Kinds.Canonical, ColonSigns, ValueTie, Unmarked;
    match p case Pair(key, value) =>
      PrintedHas(how, key, inFlow, level, Dense, simple, chars);
      PrintedHas(how, value, inFlow, level, tie, false, chars);
      PairBoth(how, p, inFlow, level, chars);
      var mark := if simple then [] else [Enters(Question, !inFlow)];
      var keySigns, valueSigns := Printed(how, key, inFlow, level, Dense, simple), Printed(how, value, inFlow, level, tie, false);
      CountConcat(mark + keySigns, ColonSigns(simple, inFlow, level) + valueSigns, chars);
      CountConcat(mark, keySigns, chars);
      CountConcat(ColonSigns(simple, inFlow, level), valueSigns, chars);
      CountColon(simple, inFlow, level, chars);
      CountOne(Enters(Question, !inFlow), chars);
      CountNone(chars);
  }

  lemma {:induction false} EntriesBegin(how: Settings, items: seq<Tree>, pairs: seq<Pair>, level: int)
    ensures items != [] ==> BlockItems(how, items, level) != [] && BlockItems(how, items, level)[0] == Line(level)
    ensures pairs != [] ==> BlockPairs(how, pairs, level) != [] && BlockPairs(how, pairs, level)[0] == Line(level)
    ensures items != [] ==> FlowItems(how, items, level) != [] && FlowItems(how, items, level)[0] == Wrap(level)
    ensures pairs != [] ==> FlowPairs(how, pairs, level) != [] && FlowPairs(how, pairs, level)[0] == Wrap(level)
    decreases |items| + |pairs|
  {
    if |items| > 1 {
      EntriesBegin(how, items[..|items| - 1], [], level);
    }
    if |pairs| > 1 {
      EntriesBegin(how, [], pairs[..|pairs| - 1], level);
    }
    hide Printed, PairSigns;
  }

  /** A collection is in brackets inside of another such one, in canonical form, if its event says so, or if it is empty;
      otherwise each of its entries is on a line of its own. What is inside stands further in, but for a block collection
      on the outside, and for a sequence in a mapping that has something in front of it in its line. */
  lemma StyleIs(how: Settings, t: Tree, inFlow: bool, level: int, tie: Tie, simple: bool)
    requires t.SequenceTree? || t.MappingTree?
    ensures var signs, some := Printed(how, t, inFlow, level, tie, simple), if t.SequenceTree? then t.items != [] else t.pairs != [];
      var inner := if level < 0 then Indentation(how) else level + Indentation(how);
      if inFlow || how.canonical || t.flow || !some then
        && |signs| >= 3 && signs[1] == Opens(if t.SequenceTree? then ['[' as int] else ['{' as int])
        && (some ==> signs[2] == Wrap(inner))
      else
        |signs| >= 2 && signs[1] == Line(
          if level < 0 then 0
          else if t.SequenceTree? && (tie == Tight || (tie == Dense && WrittenTokens(how.content(Head(t), false, false).written) != [])) then level
          else inner)
  {
    match t {
      case SequenceTree(_, _, items) =>
        EntriesBegin(how, items, [], BlockLevel(how, t, level, tie));
        EntriesBegin(how, items, [], Increased(how, level, true, false));
      case MappingTree(_, _, pairs) =>
        EntriesBegin(how, [], pairs, BlockLevel(how, t, level, tie));
        EntriesBegin(how, [], pairs, Increased(how, level, true, false));
      case _ =>
    }
    hide BlockItems, BlockPairs, FlowItems, FlowPairs, Trailing, WrittenTokens;
  }

  /** A block sequence stands where its key does if that is a simple one. */
  lemma ValueStands(how: Settings, key: Tree, value: Tree, level: nat)
    requires how.short(Head(key)) && (key.SequenceTree? ==> key.items == []) && (key.MappingTree? ==> key.pairs == [])
    requires value.SequenceTree? && value.items != [] && !value.flow && !how.canonical
    ensures var signs := ValueSigns(how, key, value, false, level);
      |signs| >= 3 && signs[0] == Closes([':' as int]) && signs[1] == Sign.Content(Head(value), level, false, false) && signs[2] == Line(level)
  {
    StyleIs(how, value, false, level, Tight, false);
    assert Printed(how, value, false, level, Tight, false)[0] == Sign.Content(Head(value), level, false, false);
    hide Printed;
  }

  /** Where a new line is begun: for an order to do so unless the writing is in the indentation still, and for a long
      line or in canonical form for the order that leaves it open. */
  lemma LineBegins(how: Settings, s: Spot, level: nat, wrap: bool)
    ensures var to := Lay(how, s, [if wrap then Wrap(level) else Line(level)]).spot;
      if wrap && !how.canonical && s.mark.column <= Width(how) then to == s
      else
        && to.mark.column == level && to.whitespace && to.indention
        && to.mark.line == s.mark.line + if s.indention && (s.mark.column < level || (s.mark.column == level && s.whitespace)) then 0 else 1
  {
    LayOne(how, s, if wrap then Wrap(level) else Line(level));
    hide Width, Lay;
  }

  lemma NoMarks(t: Tree, chars: Chars)
    requires |chars| == 3
    ensures KindsIn(t).Canonical(chars) == 0
  {
  }

  function EndMarks(docs: seq<Document>): (r: nat) {
    if docs == [] then 0 else EndMarks(docs[..|docs| - 1]) + if docs[|docs| - 1].end then 0 else 1
  }

  /** Each document has its mark, but for a first one that is implicit and not in canonical form; and an end that is not
      implicit has one. */
  lemma {:induction false} DocumentsMarked(how: Settings, docs: seq<Document>)
    ensures Count(PrintedDocuments(how, docs), Dashes) == |docs| - if docs != [] && docs[0].start && !how.canonical then 1 else 0
    ensures Count(PrintedDocuments(how, docs), Dots) == EndMarks(docs)
    decreases |docs|
  {
    hide Count, DocumentSigns;
    CountNone(Dashes);
    CountNone(Dots);
    if docs != [] {
      var init, last := docs[..|docs| - 1], docs[|docs| - 1];
      DocumentsMarked(how, init);
      DocumentMarked(how, last, init == []);
      CountConcat(PrintedDocuments(how, init), DocumentSigns(how, last, |docs| == 1), Dashes);
      CountConcat(PrintedDocuments(how, init), DocumentSigns(how, last, |docs| == 1), Dots);
    }
  }

  lemma DocumentMarked(how: Settings, d: Document, first: bool)
    ensures Count(DocumentSigns(how, d, first), Dashes) == if first && d.start && !how.canonical then 0 else 1
    ensures Count(DocumentSigns(how, d, first), Dots) == if d.end then 0 else 1
  {
    hide Printed, KindsIn;
    var node := Printed(how, d.root, false, -1, Apart, false);
    forall chars: Chars | |chars| == 3
      ensures Count(DocumentSigns(how, d, first), chars) == Count(StartSigns(how, d.start, first), chars) + Count(EndSigns(d.end), chars)
    {
      PrintedHas(how, d.root, false, -1, Apart, false, chars);
      NoMarks(d.root, chars);
      hide Count;
      CountConcat(StartSigns(how, d.start, first) + node, EndSigns(d.end), chars);
      CountConcat(StartSigns(how, d.start, first), node, chars);
    }
    StartMarked(how, d.start, first);
    EndMarked(d.end);
  }

  lemma StartMarked(how: Settings, start: bool, first: bool)
    ensures Count(StartSigns(how, start, first), Dashes) == if first && start && !how.canonical then 0 else 1
    ensures Count(StartSigns(how, start, first), Dots) == 0
  {
    hide Count;
    forall chars: Chars ensures Count([Line(-1), Enters(Dashes, false)], chars) == if chars == Dashes then 1 else 0 {
      CountConcat([Line(-1)], [Enters(Dashes, false)], chars);
      assert [Line(-1)] + [Enters(Dashes, false)] == [Line(-1), Enters(Dashes, false)];
      CountOne(Line(-1), chars);
      CountOne(Enters(Dashes, false), chars);
    }
    forall chars: Chars ensures Count([Line(-1), Enters(Dashes, false)] + [Line(-1)], chars) == if chars == Dashes then 1 else 0 {
      CountConcat([Line(-1), Enters(Dashes, false)], [Line(-1)], chars);
      CountOne(Line(-1), chars);
    }
    assert [Line(-1), Enters(Dashes, false)] + [] == [Line(-1), Enters(Dashes, false)];
    CountNone(Dashes);
    CountNone(Dots);
  }

  lemma EndMarked(end: bool)
    ensures Count(EndSigns(end), Dashes) == 0
    ensures Count(EndSigns(end), Dots) == if end then 0 else 1
  {
    hide Count;
    forall chars: Chars ensures Count(EndSigns(end), chars) == if !end && chars == Dots then 1 else 0 {
      CountConcat([Line(-1)], if end then [] else DOTS, chars);
      CountConcat([Enters(Dots, false)], [Line(-1)], chars);
      assert [Enters(Dots, false)] + [Line(-1)] == DOTS;
      CountOne(Line(-1), chars);
      CountOne(Enters(Dots, false), chars);
      CountNone(chars);
    }
  }

  // ---- where signs come to stand

  // Where the writing goes on, and what the last thing written was: `whitespace`, or something of the indentation.
  datatype Spot = Spot(mark: Mark, whitespace: bool, indention: bool)

  const TOP: Spot := Spot(ORIGIN, true, true)

  function Right(m: Mark, n: nat): (r: Mark) {
    Mark(m.index + n, m.line, m.column + n)
  }

  /** Behind a blank if there has to be one. */
  function Spaced(s: Spot): (r: Mark) {
    if s.whitespace then s.mark else Right(s.mark, 1)
  }

  /** On at the column `level`, in a new line where that is needed. */
  function Lined(how: Settings, s: Spot, level: int): (r: Spot) {
    var column := if level < 0 then 0 else level;
    var m := if !s.indention || s.mark.column > column || (s.mark.column == column && !s.whitespace)
             then Mark(s.mark.index + 1 + how.eol, s.mark.line + 1, 0) else s.mark;
    Spot(Mark(m.index + (column - m.column), m.line, column), true, true)
  }

  // A token, where it stands, and what the scanner takes it for.
  datatype Piece = Piece(kind: Kind, token: Token, start: Mark, end: Mark)

  // What some signs come to, and where the writing goes on behind them.
  datatype Laid = Laid(pieces: seq<Piece>, spot: Spot)

  /** What the characters of an indicator are for the scanner; the marks of documents only at the beginning of a line. */
  function KindOf(chars: Chars, start: Mark): (r: Kind) {
    if chars == LeftBracket then FlowStart(FLOW_SEQUENCE_START)
    else if chars == RightBracket then FlowEnd(FLOW_SEQUENCE_END)
    else if chars == LeftBrace then FlowStart(FLOW_MAPPING_START)
    else if chars == RightBrace then FlowEnd(FLOW_MAPPING_END)
    else if chars == Comma then FlowEntry
    else if chars == Dash then BlockEntry
    else if chars == Question then KeyIndicator
    else if chars == Colon then ValueIndicator
    else if chars == Dashes && start.column == 0 then DocumentIndicator(DOCUMENT_START)
    else if chars == Dots && start.column == 0 then DocumentIndicator(DOCUMENT_END)
    else Unknown
  }

  /** The characters that the scanner knows. */
  lemma KindIs(chars: Chars, start: Mark)
    ensures chars == ['[' as int] ==> KindOf(chars, start) == FlowStart(FLOW_SEQUENCE_START)
    ensures chars == [']' as int] ==> KindOf(chars, start) == FlowEnd(FLOW_SEQUENCE_END)
    ensures chars == ['{' as int] ==> KindOf(chars, start) == FlowStart(FLOW_MAPPING_START)
    ensures chars == ['}' as int] ==> KindOf(chars, start) == FlowEnd(FLOW_MAPPING_END)
    ensures chars == [',' as int] ==> KindOf(chars, start) == FlowEntry
    ensures chars == ['-' as int] ==> KindOf(chars, start) == BlockEntry
    ensures chars == ['?' as int] ==> KindOf(chars, start) == KeyIndicator
    ensures chars == [':' as int] ==> KindOf(chars, start) == ValueIndicator
    ensures start.column == 0 && chars == ['-' as int, '-' as int, '-' as int] ==> KindOf(chars, start) == DocumentIndicator(DOCUMENT_START)
    ensures start.column == 0 && chars == ['.' as int, '.' as int, '.' as int] ==> KindOf(chars, start) == DocumentIndicator(DOCUMENT_END)
  {
  }

  function TypeOf(kind: Kind): (r: TokenType) {
    match kind
    case Directive(typ) => typ
    case DocumentIndicator(typ) => typ
    case FlowStart(typ) => typ
    case FlowEnd(typ) => typ
    case FlowEntry => FLOW_ENTRY
    case BlockEntry => BLOCK_ENTRY
    case KeyIndicator => KEY
    case ValueIndicator => VALUE
    case Content(typ, _) => typ
    case BlockScalar => SCALAR
    case Unknown => SCALAR
  }

  function Indicated(s: Spot, x: Sign): (r: Laid)
    requires x.Indicator?
  {
    var start := if x.spaced then Spaced(s) else s.mark;
    var end := Right(start, |x.chars|);
    var kind := KindOf(x.chars, start);
    Laid([Piece(kind, YamlGrammar.Sign(TypeOf(kind)), start, end)], Spot(end, x.whitespace, s.indention && x.indention))
  }

  function ContentTokens(e: Event, w: Writing): (r: seq<Token>) {
    match e
    case Alias(name) => [Token(ALIAS, name, "", "", false, 0, 0)]
    case Scalar(_, _, _, _) => WrittenTokens(w.written) + TextTokens(w.text)
    case _ => WrittenTokens(w.written)
  }

  function TextTokens(text: Option<Word>): (r: seq<Token>) {
    match text case None => [] case Some(word) => [Token(SCALAR, word.value, "", "", word.style.Plain?, 0, 0)]
  }

  /** An alias, a property or a text on one line. */
  function Short(how: Settings, s: Spot, t: Token): (r: Laid) {
    var end := Right(Spaced(s), 1 + how.size(t));
    Laid([Piece(Kind.Content(t.typ, false), t, Spaced(s), end)], Spot(end, false, false))
  }

  function Shorts(how: Settings, s: Spot, ts: seq<Token>): (r: Laid) {
    if ts == [] then Laid([], s)
    else
      var before := Shorts(how, s, ts[..|ts| - 1]);
      Join(before, Short(how, before.spot, ts[|ts| - 1]))
  }

  /** More behind what has been laid. */
  function Join(before: Laid, after: Laid): (r: Laid) {
    Laid(before.pieces + after.pieces, after.spot)
  }

  /** The text of a scalar that is no simple key. A block scalar may end with a line break. */
  function Texted(how: Settings, s: Spot, e: Event, level: int, word: Word): (r: Laid) {
    var start, x := Spaced(s), how.extent(e, Spaced(s).column, level);
    var end := if x.breaks == 0 then Right(start, 1 + x.chars) else Mark(start.index + 1 + x.chars, start.line + x.breaks, x.column);
    var anew := word.style.Block? && x.breaks > 0 && x.column == 0;
    var kind := if word.style.Block? then BlockScalar else Kind.Content(SCALAR, false);
    Laid([Piece(kind, TextTokens(Some(word))[0], start, end)], Spot(end, anew, anew))
  }

  /** A scalar without text: a blank if there has to be one. */
  function Blanked(s: Spot): (r: Laid) {
    Laid([], Spot(Spaced(s), false, false))
  }

  function Said(how: Settings, s: Spot, e: Event, level: int, flow: bool, simple: bool): (r: Laid) {
    var w := how.content(e, flow, simple);
    match e
    case Scalar(_, _, _, _) =>
      if simple && w.text.Some? then Shorts(how, s, ContentTokens(e, w))
      else
        var before := Shorts(how, s, WrittenTokens(w.written));
        Join(before, match w.text case None => Blanked(before.spot) case Some(word) => Texted(how, before.spot, e, level, word))
    case _ => Shorts(how, s, ContentTokens(e, w))
  }

  function One(how: Settings, s: Spot, x: Sign): (r: Laid) {
    match x
    case Indicator(_, _, _, _) => Indicated(s, x)
    case Content(e, level, flow, simple) => Said(how, s, e, level, flow, simple)
    case Line(level) => Laid([], Lined(how, s, level))
    case Wrap(level) => Laid([], if how.canonical || s.mark.column > Width(how) then Lined(how, s, level) else s)
  }

  /** Signs, one behind the other. */
  function Lay(how: Settings, s: Spot, signs: seq<Sign>): (r: Laid) {
    if signs == [] then Laid([], s)
    else
      var before := Lay(how, s, signs[..|signs| - 1]);
      Join(before, One(how, before.spot, signs[|signs| - 1]))
  }

  lemma LayMore(how: Settings, s: Spot, signs: seq<Sign>, x: Sign)
    ensures var before := Lay(how, s, signs); Lay(how, s, signs + [x]) == Join(before, One(how, before.spot, x))
  {
    hide One, Join;
    assert (signs + [x])[..|signs|] == signs;
  }

  lemma JoinJoin(a: Laid, b: Laid, c: Laid)
    ensures Join(Join(a, b), c) == Join(a, Join(b, c))
  {
    assert a.pieces + b.pieces + c.pieces == a.pieces + (b.pieces + c.pieces);
  }

  lemma {:induction false} LayConcat(how: Settings, s: Spot, a: seq<Sign>, b: seq<Sign>)
    ensures var first := Lay(how, s, a); Lay(how, s, a + b) == Join(first, Lay(how, first.spot, b))
    decreases |b|
  {
    var first := Lay(how, s, a);
    if b == [] {
      assert a + b == a;
      assert first.pieces + [] == first.pieces;
    } else {
      hide One, Lay;
      var init, last := b[..|b| - 1], b[|b| - 1];
      assert a + b == (a + init) + [last] && b == init + [last];
      LayConcat(how, s, a, init);
      LayMore(how, s, a + init, last);
      LayMore(how, first.spot, init, last);
      var second := Lay(how, first.spot, init);
      JoinJoin(first, second, One(how, second.spot, last));
    }
  }

  lemma LayOne(how: Settings, s: Spot, x: Sign)
    ensures Lay(how, s, [x]) == One(how, s, x)
  {
    hide One;
    assert [x][..0] == [];
    assert [] + One(how, s, x).pieces == One(how, s, x).pieces;
  }

  lemma LayNone(how: Settings, s: Spot)
    ensures Lay(how, s, []) == Laid([], s)
  {
  }

  /** Whether the writing is in the indentation still, behind what stands before a collection. */
  lemma SaidIndention(how: Settings, s: Spot, e: Event, level: int, flow: bool, simple: bool)
    ensures !e.Scalar? ==> Said(how, s, e, level, flow, simple).spot.indention == (s.indention && ContentTokens(e, how.content(e, flow, simple)) == [])
  {
    hide ContentTokens;
  }

  // ---- what is laid is in order

  /** Each piece is on one side of the next, and all are between two places. */
  ghost predicate InPlace(pieces: seq<Piece>, from: Mark, to: Mark) {
    && AtOrBefore(from, to)
    && (forall i | 0 <= i < |pieces| :: AtOrBefore(from, pieces[i].start) && Later(pieces[i].start, pieces[i].end) && AtOrBefore(pieces[i].end, to))
    && (forall i, j | 0 <= i < j < |pieces| :: AtOrBefore(pieces[i].end, pieces[j].start))
  }

  lemma InPlaceConcat(a: seq<Piece>, b: seq<Piece>, from: Mark, mid: Mark, to: Mark)
    requires InPlace(a, from, mid) && InPlace(b, mid, to)
    ensures InPlace(a + b, from, to)
  {
    var c := a + b;
    forall i | 0 <= i < |c|
      ensures AtOrBefore(from, c[i].start) && Later(c[i].start, c[i].end) && AtOrBefore(c[i].end, to)
    {
      assert c[i] == if i < |a| then a[i] else b[i - |a|];
    }
    forall i, j | 0 <= i < j < |c| ensures AtOrBefore(c[i].end, c[j].start) {
      assert c[i] == if i < |a| then a[i] else b[i - |a|];
      assert c[j] == if j < |a| then a[j] else b[j - |a|];
    }
  }

  lemma {:induction false} ShortsInPlace(how: Settings, s: Spot, ts: seq<Token>)
    ensures InPlace(Shorts(how, s, ts).pieces, s.mark, Shorts(how, s, ts).spot.mark)
    decreases |ts|
  {
    if ts != [] {
      var before := Shorts(how, s, ts[..|ts| - 1]);
      ShortsInPlace(how, s, ts[..|ts| - 1]);
      var one := Short(how, before.spot, ts[|ts| - 1]);
      InPlaceConcat(before.pieces, one.pieces, s.mark, before.spot.mark, one.spot.mark);
    }
  }

  lemma TextInPlace(how: Settings, s: Spot, e: Event, level: int, text: Option<Word>)
    ensures var r := match text case None => Blanked(s) case Some(word) => Texted(how, s, e, level, word);
      InPlace(r.pieces, s.mark, r.spot.mark)
  {
  }

  lemma ContentInPlace(how: Settings, s: Spot, e: Event, level: int, flow: bool, simple: bool)
    ensures InPlace(Said(how, s, e, level, flow, simple).pieces, s.mark, Said(how, s, e, level, flow, simple).spot.mark)
  {
    hide Shorts, InPlace, Texted, Blanked;
    var w := how.content(e, flow, simple);
    ShortsInPlace(how, s, ContentTokens(e, w));
    ShortsInPlace(how, s, WrittenTokens(w.written));
    var before := Shorts(how, s, WrittenTokens(w.written));
    TextInPlace(how, before.spot, e, level, w.text);
    var after := match w.text case None => Blanked(before.spot) case Some(word) => Texted(how, before.spot, e, level, word);
    InPlaceConcat(before.pieces, after.pieces, s.mark, before.spot.mark, after.spot.mark);
  }

  lemma OneInPlace(how: Settings, s: Spot, x: Sign)
    ensures InPlace(One(how, s, x).pieces, s.mark, One(how, s, x).spot.mark)
  {
    if x.Content? {
      hide Said, InPlace;
      ContentInPlace(how, s, x.event, x.level, x.flow, x.simple);
    } else {
      hide KindOf, Width, TypeOf;
    }
  }

  lemma {:induction false} LayInPlace(how: Settings, s: Spot, signs: seq<Sign>)
    ensures InPlace(Lay(how, s, signs).pieces, s.mark, Lay(how, s, signs).spot.mark)
    decreases |signs|
  {
    if signs != [] {
      hide One;
      var before := Lay(how, s, signs[..|signs| - 1]);
      LayInPlace(how, s, signs[..|signs| - 1]);
      var one := One(how, before.spot, signs[|signs| - 1]);
      OneInPlace(how, before.spot, signs[|signs| - 1]);
      hide One, InPlace;
      InPlaceConcat(before.pieces, one.pieces, s.mark, before.spot.mark, one.spot.mark);
    }
  }

  /** A piece is no directive, and no line breaks behind it have been read. */
  predicate Bare(p: Piece) {
    !p.kind.Directive? && !(p.kind.Content? && p.kind.breaks)
  }

  lemma {:induction false} AllBare(how: Settings, s: Spot, signs: seq<Sign>)
    ensures forall p | p in Lay(how, s, signs).pieces :: Bare(p)
    decreases |signs|
  {
    if signs != [] {
      var before := Lay(how, s, signs[..|signs| - 1]);
      AllBare(how, s, signs[..|signs| - 1]);
      OneBare(how, before.spot, signs[|signs| - 1]);
      hide One;
    }
  }

  lemma OneBare(how: Settings, s: Spot, x: Sign)
    ensures forall p | p in One(how, s, x).pieces :: Bare(p)
  {
    if x.Content? {
      hide Said;
      SaidBare(how, s, x.event, x.level, x.flow, x.simple);
    } else {
      hide Width, TypeOf;
    }
  }

  lemma SaidBare(how: Settings, s: Spot, e: Event, level: int, flow: bool, simple: bool)
    ensures forall p | p in Said(how, s, e, level, flow, simple).pieces :: Bare(p)
  {
    hide Shorts, ContentTokens, WrittenTokens;
    var w := how.content(e, flow, simple);
    ShortsBare(how, s, ContentTokens(e, w));
    ShortsBare(how, s, WrittenTokens(w.written));
  }

  lemma {:induction false} ShortsBare(how: Settings, s: Spot, ts: seq<Token>)
    ensures forall p | p in Shorts(how, s, ts).pieces :: Bare(p)
    decreases |ts|
  {
    if ts != [] {
      ShortsBare(how, s, ts[..|ts| - 1]);
    }
  }
}
