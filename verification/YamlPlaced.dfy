/** What the emitter lays out is scanned to the tokens of its derivation: the scanner finds the simple keys and the block
    collections from lines and columns alone. */
module YamlPlaced {
  import opened Basics
  import opened YamlEvents
  import opened YamlTokens
  import YamlParser
  import opened YamlGrammar
  import opened YamlScanner
  import opened YamlLayout
  import opened YamlForms
  import A = YamlAccepted

  // ---- reading what is laid

  // Pieces, the lexemes read from them, and the end of the text.
  datatype Reading = Reading(pieces: seq<Piece>, lexemes: seq<Lexeme>, end: Mark)

  /** What is read is the piece; a plain scalar may be read with the line breaks behind it. */
  predicate Like(kind: Kind, p: Piece) {
    (kind == p.kind && !kind.Directive?) || (p.kind == Kind.Content(SCALAR, false) && p.token.plain && kind == Kind.Content(SCALAR, true))
  }

  ghost predicate ReadAt(x: Reading, i: nat)
    requires |x.lexemes| == |x.pieces| && i < |x.pieces|
  {
    var l, p := x.lexemes[i], x.pieces[i];
    && l.start == p.start && l.wellFormed && Like(l.kind, p)
    && (l.newLine ==> (if i == 0 then ORIGIN else x.lexemes[i - 1].end).line < l.start.line)
    && AtOrBefore(p.end, l.end) && AtOrBefore(l.end, Place(x.lexemes, x.end, i + 1))
    && (if l.kind.Content? && l.kind.breaks then p.end.line < l.end.line else !l.kind.BlockScalar? ==> l.end.line == p.end.line)
  }

  /** The lexemes are the pieces, each up to the next one or less. */
  ghost predicate Reads(x: Reading) {
    && InPlace(x.pieces, ORIGIN, x.end) && Tidy(x.lexemes)
    && |x.lexemes| == |x.pieces| && forall i | 0 <= i < |x.pieces| :: ReadAt(x, i)
  }

  predicate Contentful(typ: TokenType) {
    typ == ALIAS || typ == ANCHOR || typ == TAG || typ == SCALAR
  }

  /** The token of an item: what stands at its place, or a mere sign. */
  ghost function TokenOf(pieces: seq<Piece>, t: YamlScanner.Item): (r: Token) {
    if Contentful(t.typ) && exists i :: 0 <= i < |pieces| && pieces[i].start == t.start then
      var i :| 0 <= i < |pieces| && pieces[i].start == t.start; pieces[i].token
    else YamlGrammar.Sign(t.typ)
  }

  ghost function TokensOf(pieces: seq<Piece>, stream: seq<YamlScanner.Item>): (r: seq<Token>) {
    seq(|stream|, i requires 0 <= i < |stream| => TokenOf(pieces, stream[i]))
  }

  lemma TokensConcat(pieces: seq<Piece>, a: seq<YamlScanner.Item>, b: seq<YamlScanner.Item>)
    ensures TokensOf(pieces, a + b) == TokensOf(pieces, a) + TokensOf(pieces, b)
  {
  }

  lemma TokensMore(pieces: seq<Piece>, a: seq<YamlScanner.Item>, t: YamlScanner.Item)
    ensures TokensOf(pieces, a + [t]) == TokensOf(pieces, a) + [TokenOf(pieces, t)]
  {
  }

  /** Different pieces start at different places. */
  lemma PieceAt(x: Reading, n: nat, t: YamlScanner.Item)
    requires Reads(x) && n < |x.pieces| && t.start == x.pieces[n].start && t.typ == x.pieces[n].token.typ
    requires !Contentful(t.typ) ==> x.pieces[n].token == YamlGrammar.Sign(t.typ)
    ensures TokenOf(x.pieces, t) == x.pieces[n].token
  {
    hide Tidy, ReadAt;
    forall i | 0 <= i < |x.pieces| && i != n ensures x.pieces[i].start != t.start {
      if i < n {
        assert AtOrBefore(x.pieces[i].end, x.pieces[n].start);
      } else {
        assert AtOrBefore(x.pieces[n].end, x.pieces[i].start);
      }
    }
  }

  /** Where a line has ended between two pieces, the scanner has noticed. */
  lemma LineNoticed(x: Reading, n: nat)
    requires Reads(x) && 0 < n < |x.pieces| && x.pieces[n - 1].end.line < x.pieces[n].start.line
    ensures x.lexemes[n].newLine || ReadsBreaks(x.lexemes[n - 1].kind)
  {
    assert ReadAt(x, n - 1) && ReadAt(x, n);
  }

  // ---- the state of the scanner behind some lexemes

  /** Behind the first `n` lexemes the scanner is in the state `c`. */
  ghost predicate At(x: Reading, n: nat, c: Core) {
    n <= |x.pieces| && |x.lexemes| == |x.pieces| && Fold(x.lexemes, n) == Go(c)
  }

  /** No key has to be one, and all keys are in lines already read. */
  ghost predicate Soft(x: Reading, n: nat, keys: seq<SimpleKey>) {
    forall i | 0 <= i < |keys| && keys[i].possible :: !keys[i].required && 0 < n <= |x.pieces| && keys[i].mark.line <= x.pieces[n - 1].end.line
  }

  /** The same keys, but some may be too far back now. */
  lemma SoftChecked(x: Reading, n: nat, c: Core)
    requires Soft(x, n, c.keys)
    ensures Check(c) == Go(c.(keys := Fresh(c.keys, c.mark))) && Soft(x, n, Fresh(c.keys, c.mark))
    ensures forall i | 0 <= i < |c.keys| && !c.keys[i].possible :: !Fresh(c.keys, c.mark)[i].possible
  {
  }

  lemma SoftLater(x: Reading, n: nat, keys: seq<SimpleKey>)
    requires Reads(x) && Soft(x, n, keys) && n < |x.pieces|
    ensures Soft(x, n + 1, keys)
  {
    hide Tidy, ReadAt;
    if n > 0 {
      assert AtOrBefore(x.pieces[n - 1].end, x.pieces[n].start);
      assert Later(x.pieces[n].start, x.pieces[n].end);
    }
  }

  /** On to the next lexeme. */
  lemma OneMore(x: Reading, n: nat, c: Core)
    requires At(x, n, c) && n < |x.pieces|
    ensures Fold(x.lexemes, n + 1) == Step(c, x.lexemes[n])
  {
  }

  // What matters of a state in a block context: the indentations and the tokens so far.
  datatype View = View(indent: int, indents: seq<int>, tokens: seq<Token>)

  ghost function ViewOf(x: Reading, c: Core): (v: View) {
    View(c.indent, c.indents, TokensOf(x.pieces, c.stream))
  }

  /** Some more tokens. */
  function Plus(v: View, ts: seq<Token>): (r: View) {
    v.(tokens := v.tokens + ts)
  }

  /** The block collections that are further in than `column` end. */
  function Closed(v: View, column: int): (r: View)
    decreases |v.indents|
  {
    if v.indent <= column || v.indents == [] then v
    else Closed(View(v.indents[|v.indents| - 1], v.indents[..|v.indents| - 1], v.tokens + [YamlGrammar.Sign(BLOCK_END)]), column)
  }

  lemma {:induction false} ClosedAgain(v: View, a: int, b: int)
    requires b <= a
    ensures Closed(Closed(v, a), b) == Closed(v, b)
    decreases |v.indents|
  {
    if v.indent > a && v.indents != [] {
      ClosedAgain(View(v.indents[|v.indents| - 1], v.indents[..|v.indents| - 1], v.tokens + [YamlGrammar.Sign(BLOCK_END)]), a, b);
    }
  }

  lemma {:induction false} UnrolledView(x: Reading, c: Core, column: int)
    requires c.flow == 0
    ensures var u := Unrolled(c, column);
      u == c.(stream := u.stream, indent := u.indent, indents := u.indents) && ViewOf(x, u) == Closed(ViewOf(x, c), column)
    decreases |c.indents|
  {
    if c.indent > column && c.indents != [] {
      var t := YamlScanner.Item(BLOCK_END, c.mark, c.mark);
      var d := c.(stream := c.stream + [t], indent := c.indents[|c.indents| - 1], indents := c.indents[..|c.indents| - 1]);
      TokensMore(x.pieces, c.stream, t);
      UnrolledView(x, d, column);
    }
  }

  // ---- between the parts of a block collection

  /** Outside of flow collections, where the writing has come to the spot `s`: if it is in the indentation still, a key
      may start, and none has; or a line has ended since. */
  ghost predicate Idle(x: Reading, n: nat, c: Core, s: Spot) {
    && c.flow == 0 && Soft(x, n, c.keys) && n <= |x.pieces|
    && (s.indention ==> (c.allowed && !c.keys[0].possible) || (n > 0 && x.pieces[n - 1].end.line < s.mark.line))
    && (n == 0 ==> c.allowed)
    && (n > 0 ==> x.pieces[n - 1].end.line <= s.mark.line)
  }

  /** The next piece is on the same line, or the line is new: the scanner goes on without an error. */
  lemma Arrives(x: Reading, n: nat, c: Core)
    requires Reads(x) && At(x, n, c) && Soft(x, n, c.keys) && n < |x.pieces|
    ensures var a := Arrived(c, x.lexemes[n]);
      && Check(a) == Go(a.(keys := Fresh(c.keys, a.mark))) && Soft(x, n, Fresh(c.keys, a.mark)) && a.mark == x.pieces[n].start
      && forall i | 0 <= i < |c.keys| && !c.keys[i].possible :: !Fresh(c.keys, a.mark)[i].possible
  {
    hide Soft, Tidy;
    SoftChecked(x, n, Arrived(c, x.lexemes[n]));
    assert ReadAt(x, n);
  }

  /** Where lines have ended in a scalar, a key may start behind it. */
  lemma BreaksAllow(s: Core, x: Lexeme)
    requires (x.kind.BlockScalar? || (x.kind.Content? && x.kind.breaks)) && Step(s, x).Go?
    ensures Step(s, x).s.allowed
  {
    hide Fresh, Lost, Unrolled, Needed, Removed, Trapped;
  }

  /** Behind a line break the scanner allows a key. */
  lemma AllowedBehind(x: Reading, n: nat, c: Core)
    requires Reads(x) && At(x, n, c) && 0 < n < |x.pieces| && c.flow == 0 && x.pieces[n - 1].end.line < x.pieces[n].start.line
    ensures Arrived(c, x.lexemes[n]).allowed
  {
    LineNoticed(x, n);
    assert ReadAt(x, n - 1);
    hide Tidy, Reads, Step, ReadAt;
    if !x.lexemes[n].newLine {
      var l := x.lexemes[n - 1];
      assert Fold(x.lexemes, n - 1).Go?;
      BreaksAllow(Fold(x.lexemes, n - 1).s, l);
    }
  }

  /** In a new line, or still in the indentation of the last one, a key may start, and none has. */
  lemma LineArrives(x: Reading, n: nat, c: Core, s: Spot, how: Settings, level: int)
    requires Reads(x) && At(x, n, c) && Idle(x, n, c, s) && n < |x.pieces| && x.pieces[n].start == Lined(how, s, level).mark
    ensures Arrived(c, x.lexemes[n]).allowed && !Fresh(c.keys, x.pieces[n].start)[0].possible
  {
    hide Reads, At;
    if n > 0 && x.pieces[n - 1].end.line < x.pieces[n].start.line {
      AllowedBehind(x, n, c);
    }
  }

  /** A new line, or none where it is not needed. */
  lemma LineIdle(x: Reading, n: nat, c: Core, s: Spot, how: Settings, level: int)
    requires Idle(x, n, c, s)
    ensures Idle(x, n, c, Lined(how, s, level))
  {
  }

  /** A block collection begins at `level` unless it has. */
  function Begun(v: View, level: int, typ: TokenType): (r: View) {
    if v.indent < level then View(level, v.indents + [v.indent], v.tokens + [YamlGrammar.Sign(typ)]) else v
  }

  function BeginOf(kind: Kind): (r: TokenType) {
    if kind.BlockEntry? then BLOCK_SEQUENCE_START else BLOCK_MAPPING_START
  }

  /** An indicator in the indentation, from the state in which the scanner has come to it. */
  lemma Fetched(x: Reading, n: nat, t: Core)
    requires Reads(x) && n < |x.pieces| && t.flow == 0 && t.allowed && !t.keys[0].possible && t.mark == x.pieces[n].start
    requires var p := x.pieces[n]; (p.kind.BlockEntry? || p.kind.KeyIndicator? || p.kind.ValueIndicator?) && p.token == YamlGrammar.Sign(TypeOf(p.kind))
    ensures var r, p := Fetch(t, x.lexemes[n]), x.pieces[n];
      && r.Go? && r.s.flow == 0 && r.s.allowed && !r.s.keys[0].possible
      && ViewOf(x, r.s) == Plus(Begun(ViewOf(x, t), p.start.column, BeginOf(p.kind)), [p.token])
  {
    var p, l := x.pieces[n], x.lexemes[n];
    var o, i := YamlScanner.Item(BeginOf(p.kind), t.mark, t.mark), ItemOf(TypeOf(p.kind), l);
    assert ReadAt(x, n);
    PieceAt(x, n, i);
    TokensMore(x.pieces, t.stream, o);
    TokensMore(x.pieces, Rolled(t, BeginOf(p.kind)).stream, i);
    hide Reads, ReadAt, TokenOf, TokensOf;
    assert TokenOf(x.pieces, o) == YamlGrammar.Sign(o.typ) by { SignOf(x.pieces, o); }
  }

  lemma SignOf(pieces: seq<Piece>, t: YamlScanner.Item)
    requires !Contentful(t.typ)
    ensures TokenOf(pieces, t) == YamlGrammar.Sign(t.typ)
  {
  }

  /** The next lexeme is come to in the indentation: what is further in has ended. */
  lemma LineComes(x: Reading, n: nat, c: Core, s: Spot, how: Settings, level: nat) returns (t: Core)
    requires Reads(x) && At(x, n, c) && Idle(x, n, c, s) && n < |x.pieces| && x.pieces[n].start == Lined(how, s, level).mark
    ensures x.pieces[n].start.column == level && t.mark == x.pieces[n].start
    ensures t.flow == 0 && t.allowed && !t.keys[0].possible && Soft(x, n, t.keys) && ViewOf(x, t) == Closed(ViewOf(x, c), level)
    ensures Fetch(t, x.lexemes[n]).Go? ==> Fold(x.lexemes, n + 1) == Check(Fetch(t, x.lexemes[n]).s)
  {
    var l := x.lexemes[n];
    Arrives(x, n, c);
    LineArrives(x, n, c, s, how, level);
    OneMore(x, n, c);
    LinedColumn(how, s, level);
    hide Reads, Soft, Idle, Fetch, Fresh, Lined, TokensOf, Closed, Fold;
    var a := Arrived(c, l);
    var b := a.(keys := Fresh(c.keys, a.mark));
    UnrolledView(x, b, level);
    t := Unrolled(b, level);
  }

  /** An indicator in the indentation. */
  lemma IndicatorScanned(x: Reading, n: nat, c: Core, s: Spot, how: Settings, level: nat) returns (u: Core)
    requires Reads(x) && At(x, n, c) && Idle(x, n, c, s) && n < |x.pieces| && x.pieces[n].start == Lined(how, s, level).mark
    requires var p := x.pieces[n]; (p.kind.BlockEntry? || p.kind.KeyIndicator? || p.kind.ValueIndicator?) && p.token == YamlGrammar.Sign(TypeOf(p.kind))
    ensures At(x, n + 1, u) && u.flow == 0 && u.allowed && !u.keys[0].possible
    ensures ViewOf(x, u) == Plus(Begun(Closed(ViewOf(x, c), level), level, BeginOf(x.pieces[n].kind)), [x.pieces[n].token])
  {
    hide Reads, Soft, Idle, Fetch, Lined, TokensOf, Closed, Fold;
    var t := LineComes(x, n, c, s, how, level);
    Fetched(x, n, t);
    var r := Fetch(t, x.lexemes[n]).s;
    CheckedClear(r);
    u := Check(r).s;
  }

  lemma LinedColumn(how: Settings, s: Spot, level: nat)
    ensures Lined(how, s, level).mark.column == level
  {
  }

  /** Where no key is possible, none is lost. */
  lemma CheckedClear(r: Core)
    requires r.flow == 0 && !r.keys[0].possible
    ensures Check(r) == Go(r.(keys := Fresh(r.keys, r.mark))) && Fresh(r.keys, r.mark) == r.keys
  {
  }

  // ---- contents

  function Top(c: Core): (r: SimpleKey) {
    c.keys[|c.keys| - 1]
  }

  /** Nothing is unrolled, and no key would have to start here. */
  predicate Inside(c: Core, column: nat) {
    c.flow > 0 || c.indent < column
  }

  lemma InsideStays(c: Core, column: nat)
    requires Inside(c, column)
    ensures Unrolled(c, column) == c
  {
  }

  /** No key of an outer level has begun. */
  predicate Lower(c: Core, u: Core) {
    forall i | 0 <= i < c.flow && !c.keys[i].possible :: i < u.flow ==> !u.keys[i].possible
  }

  /** A content from the state in which the scanner has come to it. */
  lemma ContentFetched(x: Reading, n: nat, t: Core)
    requires Reads(x) && n < |x.pieces| && Soft(x, n, t.keys) && t.mark == x.pieces[n].start && Inside(t, x.pieces[n].start.column)
    requires var p := x.pieces[n];
      p.kind == Kind.Content(p.token.typ, false) || (p.kind.BlockScalar? && p.token.typ == SCALAR)
    requires Contentful(x.pieces[n].token.typ)
    ensures var r, p := Fetch(t, x.lexemes[n]), x.pieces[n];
      && r.Go? && r.s.flow == t.flow && Soft(x, n + 1, r.s.keys) && ViewOf(x, r.s) == Plus(ViewOf(x, t), [p.token])
      && (p.kind.BlockScalar? ==> r.s.allowed && !Top(r.s).possible)
      && (!t.allowed && !Top(t).possible ==> !Top(r.s).possible) && Lower(t, r.s)
      && (!t.allowed && !p.token.plain ==> !r.s.allowed || p.kind.BlockScalar?)
  {
    var p, l := x.pieces[n], x.lexemes[n];
    var i := ItemOf(p.token.typ, l);
    assert ReadAt(x, n);
    PieceAt(x, n, i);
    TokensMore(x.pieces, t.stream, i);
    SoftLater(x, n, t.keys);
    assert p.start.line <= p.end.line by { assert Later(p.start, p.end); }
    hide Reads, ReadAt, TokenOf, TokensOf;
  }

  /** The next lexeme is come to: no key is lost, and nothing is unrolled. */
  lemma Comes(x: Reading, n: nat, c: Core) returns (t: Core)
    requires Reads(x) && At(x, n, c) && n < |x.pieces| && Soft(x, n, c.keys) && Inside(c, x.pieces[n].start.column)
    ensures t == Arrived(c, x.lexemes[n]).(keys := t.keys) && t.mark == x.pieces[n].start && Soft(x, n, t.keys)
    ensures Fewer(c, t) && (c.flow > 0 ==> t.allowed == c.allowed) && ViewOf(x, t) == ViewOf(x, c)
    ensures Fetch(t, x.lexemes[n]).Go? ==> Fold(x.lexemes, n + 1) == Check(Fetch(t, x.lexemes[n]).s)
  {
    var l, p := x.lexemes[n], x.pieces[n];
    Arrives(x, n, c);
    OneMore(x, n, c);
    hide Reads, Soft, Fetch, Fresh, TokensOf, Fold;
    var a := Arrived(c, l);
    t := a.(keys := Fresh(c.keys, a.mark));
    InsideStays(t, p.start.column);
  }

  /** The next lexeme has been fetched: no key is lost. */
  lemma Goes(x: Reading, n: nat, r: Core) returns (u: Core)
    requires Reads(x) && n < |x.pieces| && Fold(x.lexemes, n + 1) == Check(r) && Soft(x, n + 1, r.keys)
    ensures At(x, n + 1, u) && Soft(x, n + 1, u.keys) && u == r.(keys := u.keys) && Fewer(r, u) && ViewOf(x, u) == ViewOf(x, r)
  {
    SoftChecked(x, n + 1, r);
    hide ReadAt, Tidy, InPlace, Soft, Fresh, TokensOf, Fold;
    u := Check(r).s;
  }

  /** Some keys may be gone. */
  predicate Fewer(c: Core, u: Core) {
    u.flow == c.flow && forall i | 0 <= i <= c.flow && !c.keys[i].possible :: !u.keys[i].possible
  }

  lemma ContentScanned(x: Reading, n: nat, c: Core) returns (u: Core)
    requires Reads(x) && At(x, n, c) && n < |x.pieces| && Soft(x, n, c.keys) && Inside(c, x.pieces[n].start.column)
    requires var p := x.pieces[n];
      p.kind == Kind.Content(p.token.typ, false) || (p.kind.BlockScalar? && p.token.typ == SCALAR)
    requires Contentful(x.pieces[n].token.typ)
    ensures At(x, n + 1, u) && u.flow == c.flow && Soft(x, n + 1, u.keys)
    ensures ViewOf(x, u) == Plus(ViewOf(x, c), [x.pieces[n].token])
    ensures x.pieces[n].kind.BlockScalar? ==> u.allowed && !Top(u).possible
    ensures Lower(c, u)
    ensures c.flow > 0 && !c.allowed && !Top(c).possible ==> !Top(u).possible
    ensures c.flow > 0 && !c.allowed && !x.pieces[n].token.plain && !x.pieces[n].kind.BlockScalar? ==> !u.allowed
  {
    hide Reads, Soft, Fetch, TokensOf, Fold, Arrived;
    var t := Comes(x, n, c);
    ContentFetched(x, n, t);
    u := Goes(x, n, Fetch(t, x.lexemes[n]).s);
  }

  /** The pieces from the one with number `n` on begin with `ps`. */
  ghost predicate Ahead(x: Reading, n: nat, ps: seq<Piece>) {
    n + |ps| <= |x.pieces| && x.pieces[n..n + |ps|] == ps
  }

  lemma AheadConcat(x: Reading, n: nat, a: seq<Piece>, b: seq<Piece>)
    requires Ahead(x, n, a + b)
    ensures Ahead(x, n, a) && Ahead(x, n + |a|, b)
  {
    assert x.pieces[n..n + |a + b|][..|a|] == a;
    assert x.pieces[n..n + |a + b|][|a|..] == b;
  }

  lemma AheadOne(x: Reading, n: nat, p: Piece)
    requires Ahead(x, n, [p])
    ensures n < |x.pieces| && x.pieces[n] == p
  {
    assert x.pieces[n..n + 1][0] == p;
  }

  /** The state fits the spot that the writing has come to. In a flow collection any does. */
  ghost predicate Fits(x: Reading, n: nat, c: Core, s: Spot) {
    if c.flow == 0 then Idle(x, n, c, s) else Soft(x, n, c.keys)
  }

  lemma FitsIs(x: Reading, n: nat, c: Core, s: Spot)
    requires Fits(x, n, c, s)
    ensures Soft(x, n, c.keys)
  {
  }

  /** What some pieces are scanned to: the same collections are open, and the tokens are added. */
  ghost predicate Scanned(x: Reading, n: nat, c: Core, n': nat, u: Core, s: Spot, ts: seq<Token>) {
    At(x, n', u) && Fits(x, n', u, s) && u.flow == c.flow && Lower(c, u) && ViewOf(x, u) == Plus(ViewOf(x, c), ts)
  }

  /** In a flow collection, no key has begun where none might, and none may still. */
  predicate Keyless(c: Core) {
    c.flow > 0 && !c.allowed && !Top(c).possible
  }

  lemma ScannedConcat(x: Reading, n: nat, c: Core, n': nat, u: Core, s: Spot, ts: seq<Token>, n'': nat, w: Core, s': Spot, ts': seq<Token>)
    requires Scanned(x, n, c, n', u, s, ts) && Scanned(x, n', u, n'', w, s', ts')
    ensures Scanned(x, n, c, n'', w, s', ts + ts')
  {
    hide Fits, At, TokensOf;
    var tokens := ViewOf(x, c).tokens;
    assert tokens + ts + ts' == tokens + (ts + ts');
  }

  lemma ScannedNothing(x: Reading, n: nat, c: Core, s: Spot, s': Spot)
    requires At(x, n, c) && Fits(x, n, c, s) && (s'.indention ==> s.indention) && s.mark.line <= s'.mark.line
    ensures Scanned(x, n, c, n, c, s', [])
  {
    var tokens := ViewOf(x, c).tokens;
    assert tokens + [] == tokens;
  }

  /** An alias, a property or a text on one line. */
  lemma ShortScanned(x: Reading, how: Settings, n: nat, c: Core, s: Spot, t: Token) returns (u: Core)
    requires Reads(x) && At(x, n, c) && Fits(x, n, c, s) && Inside(c, s.mark.column) && Contentful(t.typ)
    requires Ahead(x, n, Short(how, s, t).pieces)
    ensures Scanned(x, n, c, n + 1, u, Short(how, s, t).spot, [t]) && Inside(u, Short(how, s, t).spot.mark.column)
    ensures Keyless(c) ==> !Top(u).possible && (!t.plain ==> Keyless(u))
  {
    FitsIs(x, n, c, s);
    AheadOne(x, n, Short(how, s, t).pieces[0]);
    hide Reads, At, Ahead, ViewOf, Soft;
    u := ContentScanned(x, n, c);
  }

  /** Some of them, none but the last one a plain text. */
  lemma {:induction false} ShortsScanned(x: Reading, how: Settings, n: nat, c: Core, s: Spot, ts: seq<Token>) returns (u: Core)
    requires Reads(x) && At(x, n, c) && Fits(x, n, c, s) && Inside(c, s.mark.column) && Ahead(x, n, Shorts(how, s, ts).pieces)
    requires forall i | 0 <= i < |ts| :: Contentful(ts[i].typ) && (i < |ts| - 1 ==> !ts[i].plain)
    ensures |Shorts(how, s, ts).pieces| == |ts| && Scanned(x, n, c, n + |ts|, u, Shorts(how, s, ts).spot, ts)
    ensures Inside(u, Shorts(how, s, ts).spot.mark.column)
    ensures Keyless(c) ==> !Top(u).possible && ((ts != [] ==> !ts[|ts| - 1].plain) ==> Keyless(u))
    decreases |ts|
  {
    hide Reads, At, Ahead, Scanned, Fits, Inside, Short, Shorts, Contentful, Top;
    if ts == [] {
      ScannedNothing(x, n, c, s, s);
      NoShorts(how, s);
      u := c;
    } else {
      var init, t := ts[..|ts| - 1], ts[|ts| - 1];
      var before := Shorts(how, s, init);
      ShortsGrow(how, s, ts);
      ShortIs(how, before.spot, t);
      AheadConcat(x, n, before.pieces, Short(how, before.spot, t).pieces);
      var v := ShortsScanned(x, how, n, c, s, init);
      ScannedIs(x, n, c, n + |init|, v, before.spot, init);
      u := ShortScanned(x, how, n + |init|, v, before.spot, t);
      ScannedConcat(x, n, c, n + |init|, v, before.spot, init, n + |ts|, u, Short(how, before.spot, t).spot, [t]);
      assert init + [t] == ts;
    }
  }

  lemma NoShorts(how: Settings, s: Spot)
    ensures Shorts(how, s, []) == Laid([], s)
  {
  }

  lemma ShortsGrow(how: Settings, s: Spot, ts: seq<Token>)
    requires ts != []
    ensures var before := Shorts(how, s, ts[..|ts| - 1]); Shorts(how, s, ts) == Join(before, Short(how, before.spot, ts[|ts| - 1]))
  {
  }

  lemma ShortIs(how: Settings, s: Spot, t: Token)
    ensures |Short(how, s, t).pieces| == 1
  {
  }

  lemma ScannedIs(x: Reading, n: nat, c: Core, n': nat, u: Core, s: Spot, ts: seq<Token>)
    requires Scanned(x, n, c, n', u, s, ts)
    ensures At(x, n', u) && Fits(x, n', u, s) && u.flow == c.flow && u.indent == c.indent && u.indents == c.indents
  {
  }

  lemma WrittenAre(e: Event, w: Writing)
    ensures forall i | 0 <= i < |WrittenTokens(w.written)| :: Contentful(WrittenTokens(w.written)[i].typ) && !WrittenTokens(w.written)[i].plain
    ensures var ts := ContentTokens(e, w); forall i | 0 <= i < |ts| :: Contentful(ts[i].typ) && (i < |ts| - 1 ==> !ts[i].plain)
    ensures !e.Scalar? ==> forall i | 0 <= i < |ContentTokens(e, w)| :: !ContentTokens(e, w)[i].plain
  {
  }

  /** Block style is for scalars outside of flow collections that are no simple keys. */
  predicate Styled(how: Settings, e: Event, flow: bool, simple: bool) {
    var text := how.content(e, flow, simple).text; e.Scalar? && (flow || simple) && text.Some? ==> !text.value.style.Block?
  }

  /** A text that is no simple key. */
  lemma TextScanned(x: Reading, how: Settings, n: nat, c: Core, s: Spot, e: Event, level: int, word: Word) returns (u: Core)
    requires Reads(x) && At(x, n, c) && Fits(x, n, c, s) && Inside(c, s.mark.column) && (c.flow > 0 ==> !word.style.Block?)
    requires Ahead(x, n, Texted(how, s, e, level, word).pieces)
    ensures Scanned(x, n, c, n + 1, u, Texted(how, s, e, level, word).spot, TextTokens(Some(word)))
    ensures Keyless(c) ==> !Top(u).possible
  {
    FitsIs(x, n, c, s);
    AheadOne(x, n, Texted(how, s, e, level, word).pieces[0]);
    hide Reads, At, Ahead, ViewOf, Soft;
    u := ContentScanned(x, n, c);
  }

  /** The content of a node that is no simple key. */
  lemma SaidScanned(x: Reading, how: Settings, n: nat, c: Core, s: Spot, e: Event, level: int) returns (u: Core)
    requires Reads(x) && At(x, n, c) && Fits(x, n, c, s) && Inside(c, s.mark.column) && Styled(how, e, c.flow > 0, false)
    requires Ahead(x, n, Said(how, s, e, level, c.flow > 0, false).pieces)
    ensures var l := Said(how, s, e, level, c.flow > 0, false);
      Scanned(x, n, c, n + |l.pieces|, u, l.spot, ContentTokens(e, how.content(e, c.flow > 0, false)))
    ensures Keyless(c) ==> !Top(u).possible && (!e.Scalar? ==> Keyless(u))
    ensures !e.Scalar? ==> Inside(u, Said(how, s, e, level, c.flow > 0, false).spot.mark.column)
  {
    hide Reads, At, Ahead, Scanned, Fits, Inside, Short, Shorts, Contentful, Top, Texted, WrittenTokens, TextTokens, Keyless;
    var w := how.content(e, c.flow > 0, false);
    WrittenAre(e, w);
    KeylessIs(c);
    if !e.Scalar? {
      u := ShortsScanned(x, how, n, c, s, ContentTokens(e, w));
      KeylessIs(u);
    } else {
      u := ScalarScanned(x, how, n, c, s, e, level, w);
    }
  }

  /** The content of a scalar that is no simple key. */
  lemma ScalarScanned(x: Reading, how: Settings, n: nat, c: Core, s: Spot, e: Event, level: int, w: Writing) returns (u: Core)
    requires Reads(x) && At(x, n, c) && Fits(x, n, c, s) && Inside(c, s.mark.column) && Styled(how, e, c.flow > 0, false)
    requires e.Scalar? && w == how.content(e, c.flow > 0, false) && Ahead(x, n, Said(how, s, e, level, c.flow > 0, false).pieces)
    ensures var l := Said(how, s, e, level, c.flow > 0, false); Scanned(x, n, c, n + |l.pieces|, u, l.spot, WrittenTokens(w.written) + TextTokens(w.text))
    ensures Keyless(c) ==> !Top(u).possible
  {
    hide Reads, At, Ahead, Scanned, Fits, Inside, Short, Shorts, Contentful, Top, Texted, WrittenTokens, TextTokens, Keyless;
    WrittenAre(e, w);
    var ts := WrittenTokens(w.written);
    var before := Shorts(how, s, ts);
    var after := match w.text case None => Blanked(before.spot) case Some(word) => Texted(how, before.spot, e, level, word);
    AheadConcat(x, n, before.pieces, after.pieces);
    var v := ShortsScanned(x, how, n, c, s, ts);
    KeylessIs(c);
    KeylessIs(v);
    ScannedIs(x, n, c, n + |ts|, v, before.spot, ts);
    match w.text {
      case None =>
        u := v;
        ScannedNothing(x, n + |ts|, v, before.spot, after.spot);
        NoText();
      case Some(word) =>
        u := TextScanned(x, how, n + |ts|, v, before.spot, e, level, word);
        TextedIs(how, before.spot, e, level, word);
    }
    ScannedConcat(x, n, c, n + |ts|, v, before.spot, ts, n + |ts| + |after.pieces|, u, after.spot, TextTokens(w.text));
  }

  lemma KeylessIs(c: Core)
    ensures Keyless(c) <==> c.flow > 0 && !c.allowed && !Top(c).possible
  {
  }

  lemma NoText()
    ensures TextTokens(None) == []
  {
  }

  lemma TextedIs(how: Settings, s: Spot, e: Event, level: int, word: Word)
    ensures |Texted(how, s, e, level, word).pieces| == 1
  {
  }

  // ---- flow collections

  /** The opening bracket, from the state in which the scanner has come to it. */
  lemma OpenFetched(x: Reading, n: nat, t: Core)
    requires Reads(x) && n < |x.pieces| && Soft(x, n, t.keys) && t.mark == x.pieces[n].start && Inside(t, x.pieces[n].start.column)
    requires var p := x.pieces[n]; p.kind.FlowStart? && p.token == YamlGrammar.Sign(p.kind.typ) && !Contentful(p.kind.typ)
    ensures var r, p := Fetch(t, x.lexemes[n]), x.pieces[n];
      && r.Go? && r.s.flow == t.flow + 1 && Soft(x, n + 1, r.s.keys) && ViewOf(x, r.s) == Plus(ViewOf(x, t), [p.token])
      && Lower(t, r.s) && r.s.allowed && !Top(r.s).possible && (!t.allowed && !Top(t).possible ==> !r.s.keys[t.flow].possible)
  {
    var p, l := x.pieces[n], x.lexemes[n];
    var i := ItemOf(p.kind.typ, l);
    assert ReadAt(x, n);
    SignOf(x.pieces, i);
    TokensMore(x.pieces, t.stream, i);
    SoftLater(x, n, t.keys);
    assert p.start.line <= p.end.line by { assert Later(p.start, p.end); }
    hide Reads, ReadAt, TokenOf, TokensOf;
  }

  lemma OpenScanned(x: Reading, n: nat, c: Core) returns (u: Core)
    requires Reads(x) && At(x, n, c) && n < |x.pieces| && Soft(x, n, c.keys) && Inside(c, x.pieces[n].start.column)
    requires var p := x.pieces[n]; p.kind.FlowStart? && p.token == YamlGrammar.Sign(p.kind.typ) && !Contentful(p.kind.typ)
    ensures At(x, n + 1, u) && u.flow == c.flow + 1 && Soft(x, n + 1, u.keys) && ViewOf(x, u) == Plus(ViewOf(x, c), [x.pieces[n].token])
    ensures Lower(c, u) && u.allowed && !Top(u).possible && (Keyless(c) ==> !u.keys[c.flow].possible)
  {
    hide Reads, Soft, Fetch, TokensOf, Fold, Arrived;
    var t := Comes(x, n, c);
    OpenFetched(x, n, t);
    u := Goes(x, n, Fetch(t, x.lexemes[n]).s);
  }

  /** The closing bracket. */
  lemma CloseFetched(x: Reading, n: nat, t: Core)
    requires Reads(x) && n < |x.pieces| && Soft(x, n, t.keys) && t.mark == x.pieces[n].start && t.flow > 0
    requires var p := x.pieces[n]; p.kind.FlowEnd? && p.token == YamlGrammar.Sign(p.kind.typ) && !Contentful(p.kind.typ)
    ensures var r, p := Fetch(t, x.lexemes[n]), x.pieces[n];
      && r.Go? && r.s.flow == t.flow - 1 && Soft(x, n + 1, r.s.keys) && ViewOf(x, r.s) == Plus(ViewOf(x, t), [p.token])
      && forall i | 0 <= i < t.flow :: r.s.keys[i] == t.keys[i]
  {
    var p, l := x.pieces[n], x.lexemes[n];
    var i := ItemOf(p.kind.typ, l);
    assert ReadAt(x, n);
    SignOf(x.pieces, i);
    TokensMore(x.pieces, t.stream, i);
    SoftLater(x, n, t.keys);
    hide Reads, ReadAt, TokenOf, TokensOf;
  }

  lemma CloseScanned(x: Reading, n: nat, c: Core) returns (u: Core)
    requires Reads(x) && At(x, n, c) && n < |x.pieces| && Soft(x, n, c.keys) && c.flow > 0
    requires var p := x.pieces[n]; p.kind.FlowEnd? && p.token == YamlGrammar.Sign(p.kind.typ) && !Contentful(p.kind.typ)
    ensures At(x, n + 1, u) && u.flow == c.flow - 1 && Soft(x, n + 1, u.keys) && ViewOf(x, u) == Plus(ViewOf(x, c), [x.pieces[n].token])
    ensures forall i | 0 <= i < c.flow && !c.keys[i].possible :: !u.keys[i].possible
  {
    hide Reads, Soft, Fetch, TokensOf, Fold, Arrived;
    var t := Comes(x, n, c);
    CloseFetched(x, n, t);
    u := Goes(x, n, Fetch(t, x.lexemes[n]).s);
  }

  /** A comma, a question mark, or the colon of what is no simple key. */
  lemma InnerFetched(x: Reading, n: nat, t: Core)
    requires Reads(x) && n < |x.pieces| && Soft(x, n, t.keys) && t.mark == x.pieces[n].start && t.flow > 0
    requires var p := x.pieces[n];
      (p.kind.FlowEntry? || p.kind.KeyIndicator? || (p.kind.ValueIndicator? && !Top(t).possible)) && p.token == YamlGrammar.Sign(TypeOf(p.kind))
    ensures var r, p := Fetch(t, x.lexemes[n]), x.pieces[n];
      && r.Go? && r.s.flow == t.flow && Soft(x, n + 1, r.s.keys) && ViewOf(x, r.s) == Plus(ViewOf(x, t), [p.token])
      && Lower(t, r.s) && r.s.allowed == p.kind.FlowEntry? && !Top(r.s).possible
  {
    var p, l := x.pieces[n], x.lexemes[n];
    var i := ItemOf(TypeOf(p.kind), l);
    assert ReadAt(x, n);
    SignOf(x.pieces, i);
    TokensMore(x.pieces, t.stream, i);
    SoftLater(x, n, t.keys);
    hide Reads, ReadAt, TokenOf, TokensOf;
  }

  lemma InnerScanned(x: Reading, n: nat, c: Core, s: Spot) returns (u: Core)
    requires Reads(x) && At(x, n, c) && n < |x.pieces| && Soft(x, n, c.keys) && c.flow > 0
    requires var p := x.pieces[n];
      (p.kind.FlowEntry? || p.kind.KeyIndicator? || (p.kind.ValueIndicator? && !Top(c).possible)) && p.token == YamlGrammar.Sign(TypeOf(p.kind))
    ensures Scanned(x, n, c, n + 1, u, s, [x.pieces[n].token])
    ensures u.allowed == x.pieces[n].kind.FlowEntry? && !Top(u).possible
  {
    hide Reads, Soft, Fetch, TokensOf, Fold, Arrived;
    var t := Comes(x, n, c);
    InnerFetched(x, n, t);
    u := Goes(x, n, Fetch(t, x.lexemes[n]).s);
  }

  // ---- simple keys

  /** What starts at `a` has its colon at `b`, on the same line and near enough for a key. */
  ghost predicate OneLine(x: Reading, a: nat, b: nat) {
    a < b < |x.pieces| && x.pieces[b].start.line == x.pieces[a].start.line && x.pieces[b].start.index <= x.pieces[a].start.index + 1024
  }

  lemma OnTheLine(x: Reading, a: nat, b: nat, n: nat)
    requires Reads(x) && OneLine(x, a, b) && a <= n < b
    ensures var m, p, l := x.pieces[a].start, x.pieces[n], x.lexemes[n];
      && p.start.line == p.end.line == l.end.line == m.line && p.start.index <= l.end.index <= m.index + 1024
      && (a < n ==> m.column < p.start.column) && m.column < x.pieces[b].start.column
  {
    assert AtOrBefore(x.pieces[n].end, x.pieces[b].start) && Later(x.pieces[n].start, x.pieces[n].end);
    assert AtOrBefore(x.pieces[a].end, x.pieces[b].start) && Later(x.pieces[a].start, x.pieces[a].end);
    if a < n {
      assert AtOrBefore(x.pieces[a].end, x.pieces[n].start) && Later(x.pieces[a].start, x.pieces[a].end);
    }
    assert ReadAt(x, n);
    assert x.lexemes[n].end.index <= x.pieces[b].start.index && x.lexemes[n].end.line <= x.pieces[b].start.line by {
      assert ReadAt(x, n + 1);
      if n + 1 < b {
        assert AtOrBefore(x.pieces[n + 1].end, x.pieces[b].start) && Later(x.pieces[n + 1].start, x.pieces[n + 1].end);
      }
    }
  }

  /** The key of the innermost level. */
  function KeyFrom(x: Reading, a: nat, o: Core): (r: SimpleKey)
    requires a < |x.pieces|
  {
    SimpleKey(true, o.flow == 0 && o.indent == x.pieces[a].start.column, |o.stream|, x.pieces[a].start)
  }

  /** A key has begun at `a` in the state `o`, and its tokens so far are `ts`. */
  ghost predicate KeyOpen(x: Reading, a: nat, n: nat, o: Core, c: Core, ts: seq<Token>) {
    && a < n <= |x.pieces| && c.flow == o.flow && !c.allowed && Top(c) == KeyFrom(x, a, o)
    && (o.flow == 0 ==> o.indent <= x.pieces[a].start.column)
    && Soft(x, n, c.keys[..c.flow]) && Lower(o, c)
    && c.indent == o.indent && c.indents == o.indents
    && |o.stream| <= |c.stream| && c.stream[..|o.stream|] == o.stream && TokensOf(x.pieces, c.stream[|o.stream|..]) == ts
  }

  /** Such a key is not lost on its line. */
  lemma KeyChecked(x: Reading, a: nat, n: nat, o: Core, c: Core, ts: seq<Token>, mark: Mark)
    requires KeyOpen(x, a, n, o, c, ts) && mark.line == x.pieces[a].start.line && mark.index <= x.pieces[a].start.index + 1024
    ensures Check(c.(mark := mark)) == Go(c.(mark := mark, keys := Fresh(c.keys, mark)))
    ensures KeyOpen(x, a, n, o, c.(mark := mark, keys := Fresh(c.keys, mark)), ts)
  {
    var keys := Fresh(c.keys, mark);
    hide TokensOf;
    assert forall i | 0 <= i < c.flow :: c.keys[..c.flow][i] == c.keys[i] && keys[..c.flow][i] == keys[i];
  }

  /** A content that a key begins with. */
  lemma KeyBegins(x: Reading, a: nat, b: nat, o: Core) returns (u: Core)
    requires Reads(x) && OneLine(x, a, b) && o.allowed && !Top(o).possible && Soft(x, a, o.keys) && o.mark == x.pieces[a].start
    requires o.flow == 0 ==> o.indent <= o.mark.column
    requires Fetch(o, x.lexemes[a]).Go? ==> Fold(x.lexemes, a + 1) == Check(Fetch(o, x.lexemes[a]).s)
    requires var p := x.pieces[a]; p.kind == Kind.Content(p.token.typ, false) && Contentful(p.token.typ)
    ensures At(x, a + 1, u) && KeyOpen(x, a, a + 1, o, u, [x.pieces[a].token])
  {
    var p, l := x.pieces[a], x.lexemes[a];
    assert ReadAt(x, a);
    SoftLater(x, a, o.keys);
    OnTheLine(x, a, b, a);
    var i := ItemOf(p.token.typ, l);
    PieceAt(x, a, i);
    TokensMore(x.pieces, [], i);
    hide TokenOf, TokensOf, InPlace, Tidy;
    assert !l.kind.breaks by { NoBreak(x, a, b, a); }
    var r := Fetch(o, l).s;
    assert r == Queued(o.(keys := o.keys[|o.keys| - 1 := KeyFrom(x, a, o)]), p.token.typ, l, false);
    assert r.stream[|o.stream|..] == [] + [i] && r.stream[..|o.stream|] == o.stream;
    assert r.keys[..r.flow] == o.keys[..o.flow];
    NoTokens(x.pieces);
    assert KeyOpen(x, a, a + 1, o, r, [p.token]);
    KeyChecked(x, a, a + 1, o, r, [p.token], l.end);
    u := Check(r).s;
  }

  lemma NoTokens(pieces: seq<Piece>)
    ensures TokensOf(pieces, []) == []
  {
  }

  /** No scalar on the line of a key is read with line breaks. */
  lemma NoBreak(x: Reading, a: nat, b: nat, n: nat)
    requires Reads(x) && OneLine(x, a, b) && a <= n < b
    ensures x.lexemes[n].kind.Content? ==> !x.lexemes[n].kind.breaks
  {
    OnTheLine(x, a, b, n);
    assert ReadAt(x, n);
  }

  /** On the line of a key nothing leads to a new line. */
  lemma SameLine(x: Reading, a: nat, b: nat, n: nat)
    requires Reads(x) && OneLine(x, a, b) && a < n <= b
    ensures n < |x.pieces| == |x.lexemes| && !x.lexemes[n].newLine && x.lexemes[n].start == x.pieces[n].start && x.pieces[n].start.line == x.pieces[a].start.line
    ensures x.pieces[n].start.index <= x.pieces[a].start.index + 1024 && x.pieces[a].start.column < x.pieces[n].start.column
  {
    OnTheLine(x, a, b, n - 1);
    if n < b {
      OnTheLine(x, a, b, n);
    }
    assert ReadAt(x, n);
  }

  /** The next lexeme on the line of a key is come to. */
  lemma KeyComes(x: Reading, a: nat, b: nat, n: nat, o: Core, c: Core, ts: seq<Token>) returns (t: Core)
    requires Reads(x) && OneLine(x, a, b) && a < n <= b && At(x, n, c) && KeyOpen(x, a, n, o, c, ts)
    ensures KeyOpen(x, a, n, o, t, ts) && t.mark == x.pieces[n].start && (t.flow == 0 ==> t.indent < t.mark.column)
    ensures Fetch(t, x.lexemes[n]).Go? ==> Fold(x.lexemes, n + 1) == Check(Fetch(t, x.lexemes[n]).s)
  {
    hide Fold, Fresh, Fetch, Reads, OneLine, KeyOpen;
    SameLine(x, a, b, n);
    OneMore(x, n, c);
    KeyChecked(x, a, n, o, c, ts, x.pieces[n].start);
    KeyOpenIs(x, a, n, o, c, ts);
    t := c.(mark := x.pieces[n].start, keys := Fresh(c.keys, x.pieces[n].start));
    assert Arrived(c, x.lexemes[n]) == c.(mark := x.pieces[n].start);
    InsideStays(t, t.mark.column);
  }

  lemma KeyOpenIs(x: Reading, a: nat, n: nat, o: Core, c: Core, ts: seq<Token>)
    requires KeyOpen(x, a, n, o, c, ts)
    ensures c.flow == o.flow && !c.allowed && (o.flow == 0 ==> c.indent <= x.pieces[a].start.column)
  {
  }

  /** One more content of the key, from the state in which the scanner has come to it. */
  lemma KeyContentFetched(x: Reading, a: nat, b: nat, n: nat, o: Core, t: Core, ts: seq<Token>)
    requires Reads(x) && OneLine(x, a, b) && a < n < b < |x.pieces| && KeyOpen(x, a, n, o, t, ts) && (t.flow == 0 ==> t.indent < t.mark.column)
    requires var p := x.pieces[n]; p.kind == Kind.Content(p.token.typ, false) && Contentful(p.token.typ)
    ensures |x.lexemes| == |x.pieces|
    ensures var r := Fetch(t, x.lexemes[n]); r.Go? && r.s.mark == x.lexemes[n].end && KeyOpen(x, a, n + 1, o, r.s, ts + [x.pieces[n].token])
  {
    var p, l := x.pieces[n], x.lexemes[n];
    var i := ItemOf(p.token.typ, l);
    assert ReadAt(x, n);
    PieceAt(x, n, i);
    NoBreak(x, a, b, n);
    SoftLater(x, n, t.keys[..t.flow]);
    hide TokenOf, TokensOf, InPlace, Tidy, Soft;
    assert Fetch(t, l) == Go(Queued(t, p.token.typ, l, false));
    var rest := t.stream[|o.stream|..];
    TokensMore(x.pieces, rest, i);
    assert (t.stream + [i])[|o.stream|..] == rest + [i];
  }

  lemma KeyGoesOn(x: Reading, a: nat, b: nat, n: nat, o: Core, c: Core, ts: seq<Token>) returns (u: Core)
    requires Reads(x) && OneLine(x, a, b) && a < n < b < |x.pieces| && At(x, n, c) && KeyOpen(x, a, n, o, c, ts)
    requires var p := x.pieces[n]; p.kind == Kind.Content(p.token.typ, false) && Contentful(p.token.typ)
    ensures At(x, n + 1, u) && KeyOpen(x, a, n + 1, o, u, ts + [x.pieces[n].token])
  {
    hide Reads, KeyOpen, Fetch, Fold, Fresh, OneLine;
    var t := KeyComes(x, a, b, n, o, c, ts);
    KeyContentFetched(x, a, b, n, o, t, ts);
    u := KeyGoes(x, a, b, n, o, Fetch(t, x.lexemes[n]).s, ts + [x.pieces[n].token]);
  }

  /** A lexeme of the key has been fetched. */
  lemma KeyGoes(x: Reading, a: nat, b: nat, n: nat, o: Core, r: Core, ts: seq<Token>) returns (u: Core)
    requires Reads(x) && OneLine(x, a, b) && a <= n < b && KeyOpen(x, a, n + 1, o, r, ts)
    requires Fold(x.lexemes, n + 1) == Check(r) && r.mark == x.lexemes[n].end
    ensures At(x, n + 1, u) && KeyOpen(x, a, n + 1, o, u, ts)
  {
    OnTheLine(x, a, b, n);
    hide ReadAt, Tidy, InPlace, KeyOpen, Fold, Fresh;
    KeyChecked(x, a, n + 1, o, r, ts, r.mark);
    assert r.(mark := r.mark) == r;
    u := Check(r).s;
  }

  /** The key is used: it gets its KEY, and its mapping a start if it is the first one of a block mapping. */
  function Used(v: View, flow: nat, column: nat, ts: seq<Token>): (r: View) {
    Plus(if flow == 0 then Begun(v, column, BLOCK_MAPPING_START) else v, [YamlGrammar.Sign(KEY)] + ts + [YamlGrammar.Sign(VALUE)])
  }

  lemma KeyedTokens(x: Reading, stream: seq<YamlScanner.Item>, key: SimpleKey, rolled: bool, value: YamlScanner.Item)
    requires key.number <= |stream|
    ensures TokensOf(x.pieces, YamlScanner.Keyed(stream, key, rolled, value)) ==
      TokensOf(x.pieces, stream[..key.number]) + (if rolled then [YamlGrammar.Sign(BLOCK_MAPPING_START)] else [])
      + [YamlGrammar.Sign(KEY)] + TokensOf(x.pieces, stream[key.number..]) + [TokenOf(x.pieces, value)]
  {
    var opening := if rolled then [YamlScanner.Item(BLOCK_MAPPING_START, key.mark, key.mark)] else [];
    var k := YamlScanner.Item(KEY, key.mark, key.mark);
    var before, behind := stream[..key.number], stream[key.number..];
    SignOf(x.pieces, k);
    SignOf(x.pieces, YamlScanner.Item(BLOCK_MAPPING_START, key.mark, key.mark));
    NoTokens(x.pieces);
    hide TokenOf;
    TokensConcat(x.pieces, before, opening);
    TokensMore(x.pieces, before + opening, k);
    TokensConcat(x.pieces, before + opening + [k], behind);
    TokensMore(x.pieces, before + opening + [k] + behind, value);
    if rolled {
      TokensMore(x.pieces, [], opening[0]);
      assert [] + opening == opening;
    }
  }

  /** The colon, from the state in which the scanner has come to it. */
  lemma ColonFetched(x: Reading, a: nat, n: nat, o: Core, t: Core, ts: seq<Token>)
    requires Reads(x) && a < n < |x.pieces| == |x.lexemes| && KeyOpen(x, a, n, o, t, ts)
    requires x.pieces[n].kind.ValueIndicator? && x.pieces[n].token == YamlGrammar.Sign(VALUE)
    ensures var r := Fetch(t, x.lexemes[n]);
      && r.Go? && r.s.flow == o.flow && !r.s.allowed && Soft(x, n + 1, r.s.keys) && Lower(o, r.s) && !Top(r.s).possible
      && ViewOf(x, r.s) == Used(ViewOf(x, o), o.flow, x.pieces[a].start.column, ts)
  {
    var p, l := x.pieces[n], x.lexemes[n];
    var i := ItemOf(VALUE, l);
    assert ReadAt(x, n);
    SignOf(x.pieces, i);
    SoftLater(x, n, t.keys[..t.flow]);
    var key := Top(t);
    var rolled := t.flow == 0 && t.indent < key.mark.column;
    KeyedTokens(x, t.stream, key, rolled, i);
    hide TokenOf, TokensOf, InPlace, Tidy, YamlScanner.Keyed;
    var before := TokensOf(x.pieces, o.stream);
    assert before + (if rolled then [YamlGrammar.Sign(BLOCK_MAPPING_START)] else []) + [YamlGrammar.Sign(KEY)] + ts + [YamlGrammar.Sign(VALUE)]
      == before + (if rolled then [YamlGrammar.Sign(BLOCK_MAPPING_START)] else []) + ([YamlGrammar.Sign(KEY)] + ts + [YamlGrammar.Sign(VALUE)]);
    assert before + [] == before;
    var r := Fetch(t, l).s;
    assert forall j | 0 <= j < t.flow :: t.keys[..t.flow][j] == t.keys[j] == r.keys[j];
  }

  lemma ColonScanned(x: Reading, a: nat, b: nat, o: Core, c: Core, ts: seq<Token>) returns (u: Core)
    requires Reads(x) && OneLine(x, a, b) && a < b < |x.pieces| && At(x, b, c) && KeyOpen(x, a, b, o, c, ts)
    requires x.pieces[b].kind.ValueIndicator? && x.pieces[b].token == YamlGrammar.Sign(VALUE)
    ensures At(x, b + 1, u) && u.flow == o.flow && Soft(x, b + 1, u.keys) && Lower(o, u) && !Top(u).possible
    ensures ViewOf(x, u) == Used(ViewOf(x, o), o.flow, x.pieces[a].start.column, ts)
  {
    hide Reads, KeyOpen, Fetch, Fold, Fresh, OneLine, ViewOf, Soft;
    var t := KeyComes(x, a, b, b, o, c, ts);
    ColonFetched(x, a, b, o, t, ts);
    u := Goes(x, b, Fetch(t, x.lexemes[b]).s);
  }

  /** The same behind the bracket of an empty flow collection that is a key. */
  ghost predicate BracketOpen(x: Reading, a: nat, n: nat, o: Core, c: Core, ts: seq<Token>) {
    && a < n <= |x.pieces| && c.flow == o.flow + 1 && c.keys[o.flow] == KeyFrom(x, a, o) && !Top(c).possible
    && (o.flow == 0 ==> o.indent <= x.pieces[a].start.column)
    && Soft(x, n, c.keys[..o.flow]) && Lower(o, c)
    && c.indent == o.indent && c.indents == o.indents
    && |o.stream| <= |c.stream| && c.stream[..|o.stream|] == o.stream && TokensOf(x.pieces, c.stream[|o.stream|..]) == ts
  }

  lemma BracketChecked(x: Reading, a: nat, n: nat, o: Core, c: Core, ts: seq<Token>, mark: Mark)
    requires BracketOpen(x, a, n, o, c, ts) && mark.line == x.pieces[a].start.line && mark.index <= x.pieces[a].start.index + 1024
    ensures Check(c.(mark := mark)) == Go(c.(mark := mark, keys := Fresh(c.keys, mark)))
    ensures BracketOpen(x, a, n, o, c.(mark := mark, keys := Fresh(c.keys, mark)), ts)
  {
    var keys := Fresh(c.keys, mark);
    hide TokensOf;
    assert forall i | 0 <= i < o.flow :: c.keys[..o.flow][i] == c.keys[i] && keys[..o.flow][i] == keys[i];
  }

  predicate Bracket(p: Piece, open: bool) {
    (if open then p.kind.FlowStart? else p.kind.FlowEnd?) && !Contentful(p.kind.typ) && p.token == YamlGrammar.Sign(p.kind.typ)
  }

  /** The bracket that a key begins with. */
  lemma FirstBracketFetched(x: Reading, a: nat, b: nat, o: Core)
    requires Reads(x) && OneLine(x, a, b) && o.allowed && !Top(o).possible && Soft(x, a, o.keys) && o.mark == x.pieces[a].start
    requires o.flow == 0 ==> o.indent <= o.mark.column
    requires a < |x.pieces| == |x.lexemes| && Bracket(x.pieces[a], true)
    ensures var r := Fetch(o, x.lexemes[a]); r.Go? && r.s.mark == x.lexemes[a].end && BracketOpen(x, a, a + 1, o, r.s, [x.pieces[a].token])
  {
    var p, l := x.pieces[a], x.lexemes[a];
    assert ReadAt(x, a);
    SoftLater(x, a, o.keys);
    var i := ItemOf(p.kind.typ, l);
    SignOf(x.pieces, i);
    TokensMore(x.pieces, [], i);
    NoTokens(x.pieces);
    hide TokenOf, TokensOf, InPlace, Tidy;
    var r := Fetch(o, l).s;
    assert r.stream[|o.stream|..] == [] + [i] && r.stream[..|o.stream|] == o.stream;
    assert r.keys[..o.flow] == o.keys[..o.flow];
  }

  /** The bracket behind properties of the key. */
  lemma NextBracketFetched(x: Reading, a: nat, n: nat, o: Core, t: Core, ts: seq<Token>)
    requires Reads(x) && a < n < |x.pieces| == |x.lexemes| && KeyOpen(x, a, n, o, t, ts) && (t.flow == 0 ==> t.indent < t.mark.column)
    requires Bracket(x.pieces[n], true)
    ensures var r := Fetch(t, x.lexemes[n]); r.Go? && r.s.mark == x.lexemes[n].end && BracketOpen(x, a, n + 1, o, r.s, ts + [x.pieces[n].token])
  {
    var p, l := x.pieces[n], x.lexemes[n];
    assert ReadAt(x, n);
    SoftLater(x, n, t.keys[..t.flow]);
    var i := ItemOf(p.kind.typ, l);
    SignOf(x.pieces, i);
    var rest := t.stream[|o.stream|..];
    TokensMore(x.pieces, rest, i);
    hide TokenOf, TokensOf, InPlace, Tidy;
    var r := Fetch(t, l).s;
    assert r.stream[|o.stream|..] == rest + [i] && r.stream[..|o.stream|] == o.stream;
    assert r.keys[..o.flow] == t.keys[..o.flow];
  }

  lemma EndBracketFetched(x: Reading, a: nat, n: nat, o: Core, t: Core, ts: seq<Token>)
    requires Reads(x) && a < n < |x.pieces| == |x.lexemes| && BracketOpen(x, a, n, o, t, ts) && Bracket(x.pieces[n], false)
    ensures var r := Fetch(t, x.lexemes[n]); r.Go? && r.s.mark == x.lexemes[n].end && KeyOpen(x, a, n + 1, o, r.s, ts + [x.pieces[n].token])
  {
    var p, l := x.pieces[n], x.lexemes[n];
    assert ReadAt(x, n);
    SoftLater(x, n, t.keys[..o.flow]);
    var i := ItemOf(p.kind.typ, l);
    SignOf(x.pieces, i);
    var rest := t.stream[|o.stream|..];
    TokensMore(x.pieces, rest, i);
    hide TokenOf, TokensOf, InPlace, Tidy;
    var r := Fetch(t, l).s;
    assert r.stream[|o.stream|..] == rest + [i] && r.stream[..|o.stream|] == o.stream;
    assert r.keys[..o.flow] == t.keys[..o.flow] && r.keys[o.flow] == t.keys[o.flow];
  }

  /** Behind the opening bracket of a key, the next lexeme is come to. */
  lemma BracketComes(x: Reading, a: nat, b: nat, n: nat, o: Core, r: Core, ts: seq<Token>) returns (t: Core)
    requires Reads(x) && OneLine(x, a, b) && a <= n && n + 1 < b < |x.pieces| == |x.lexemes|
    requires Fold(x.lexemes, n + 1) == Check(r) && r.mark == x.lexemes[n].end && BracketOpen(x, a, n + 1, o, r, ts)
    ensures BracketOpen(x, a, n + 1, o, t, ts)
    ensures Fetch(t, x.lexemes[n + 1]).Go? ==> Fold(x.lexemes, n + 2) == Check(Fetch(t, x.lexemes[n + 1]).s)
  {
    hide Reads, Fetch, Fold, Fresh, OneLine, BracketOpen;
    OnTheLine(x, a, b, n);
    SameLine(x, a, b, n + 1);
    BracketChecked(x, a, n + 1, o, r, ts, r.mark);
    assert r.(mark := r.mark) == r;
    var c := Check(r).s;
    var m := x.pieces[n + 1].start;
    OneMore(x, n + 1, c);
    BracketChecked(x, a, n + 1, o, c, ts, m);
    BracketIs(x, a, n + 1, o, c, ts);
    assert Arrived(c, x.lexemes[n + 1]) == c.(mark := m);
    t := c.(mark := m, keys := Fresh(c.keys, m));
    InsideStays(t, m.column);
  }

  /** Behind the opening bracket of a key, the closing one. */
  lemma EndBracketScanned(x: Reading, a: nat, b: nat, n: nat, o: Core, r: Core, ts: seq<Token>) returns (u: Core)
    requires Reads(x) && OneLine(x, a, b) && a <= n && n + 1 < b < |x.pieces| == |x.lexemes| && Bracket(x.pieces[n + 1], false)
    requires Fold(x.lexemes, n + 1) == Check(r) && r.mark == x.lexemes[n].end && BracketOpen(x, a, n + 1, o, r, ts)
    ensures At(x, n + 2, u) && KeyOpen(x, a, n + 2, o, u, ts + [x.pieces[n + 1].token])
  {
    hide Reads, KeyOpen, Fetch, Fold, Fresh, OneLine, BracketOpen;
    var t := BracketComes(x, a, b, n, o, r, ts);
    EndBracketFetched(x, a, n + 1, o, t, ts);
    u := KeyGoes(x, a, b, n + 1, o, Fetch(t, x.lexemes[n + 1]).s, ts + [x.pieces[n + 1].token]);
  }

  lemma BracketIs(x: Reading, a: nat, n: nat, o: Core, c: Core, ts: seq<Token>)
    requires BracketOpen(x, a, n, o, c, ts)
    ensures c.flow == o.flow + 1
  {
  }

  // ---- simple keys, as they are laid

  /** Room that is enough for tokens on one line. */
  function Room(how: Settings, ts: seq<Token>): (r: nat) {
    if ts == [] then 0 else Room(how, ts[..|ts| - 1]) + how.size(ts[|ts| - 1]) + 2
  }

  /** What is short enough for a simple key takes no more room than the scanner grants. */
  ghost predicate KeysFit(how: Settings) {
    forall e: Event, flow: bool | how.short(e) :: Room(how, ContentTokens(e, how.content(e, flow, true))) <= 1000
  }

  lemma {:induction false} ShortsRoom(how: Settings, s: Spot, ts: seq<Token>)
    ensures var l := Shorts(how, s, ts);
      && l.spot.mark.line == s.mark.line && l.spot.mark.index <= s.mark.index + Room(how, ts)
      && |l.pieces| == |ts| && (ts != [] ==> l.pieces[0].start == Spaced(s))
    decreases |ts|
  {
    if ts != [] {
      ShortsRoom(how, s, ts[..|ts| - 1]);
      if |ts| == 1 {
        NoShorts(how, s);
      }
    }
  }

  /** The scanner has come to the place `a`, and a key may start there. */
  ghost predicate Poised(x: Reading, a: nat, o: Core) {
    && a < |x.pieces| == |x.lexemes| && o.allowed && !Top(o).possible && Soft(x, a, o.keys) && o.mark == x.pieces[a].start
    && (o.flow == 0 ==> o.indent <= o.mark.column)
    && (Fetch(o, x.lexemes[a]).Go? ==> Fold(x.lexemes, a + 1) == Check(Fetch(o, x.lexemes[a]).s))
  }

  /** The contents of a key. */
  lemma {:induction false} KeyShortsScanned(x: Reading, how: Settings, a: nat, b: nat, o: Core, s: Spot, ts: seq<Token>) returns (u: Core)
    requires Reads(x) && OneLine(x, a, b) && Poised(x, a, o) && ts != [] && a + |ts| <= b < |x.pieces| && Ahead(x, a, Shorts(how, s, ts).pieces)
    requires forall i | 0 <= i < |ts| :: Contentful(ts[i].typ)
    ensures At(x, a + |ts|, u) && KeyOpen(x, a, a + |ts|, o, u, ts)
    decreases |ts|
  {
    hide Reads, KeyOpen, OneLine, At, Ahead, Contentful, Shorts, Short, Poised;
    var init, t := ts[..|ts| - 1], ts[|ts| - 1];
    LastShort(x, how, a, s, ts);
    if |ts| == 1 {
      PoisedIs(x, a, o);
      u := KeyBegins(x, a, b, o);
      assert ts == [t];
    } else {
      var v := KeyShortsScanned(x, how, a, b, o, s, init);
      u := KeyGoesOn(x, a, b, a + |init|, o, v, init);
      assert init + [t] == ts;
    }
  }

  lemma LastShort(x: Reading, how: Settings, n: nat, s: Spot, ts: seq<Token>)
    requires ts != [] && Ahead(x, n, Shorts(how, s, ts).pieces)
    ensures Ahead(x, n, Shorts(how, s, ts[..|ts| - 1]).pieces) && n + |ts| <= |x.pieces|
    ensures var t, p := ts[|ts| - 1], x.pieces[n + |ts| - 1]; p.token == t && p.kind == Kind.Content(t.typ, false)
  {
    hide Ahead, Shorts, Short;
    var init, t := ts[..|ts| - 1], ts[|ts| - 1];
    var before := Shorts(how, s, init);
    ShortsGrow(how, s, ts);
    ShortsRoom(how, s, init);
    AheadConcat(x, n, before.pieces, Short(how, before.spot, t).pieces);
    ShortPiece(how, before.spot, t);
    AheadOne(x, n + |init|, Short(how, before.spot, t).pieces[0]);
  }

  lemma ShortPiece(how: Settings, s: Spot, t: Token)
    ensures |Short(how, s, t).pieces| == 1
    ensures var p := Short(how, s, t).pieces[0]; p.token == t && p.kind == Kind.Content(t.typ, false)
  {
  }

  lemma PoisedIs(x: Reading, a: nat, o: Core)
    requires Poised(x, a, o)
    ensures a < |x.pieces| == |x.lexemes| && o.allowed && !Top(o).possible && Soft(x, a, o.keys) && o.mark == x.pieces[a].start
    ensures o.flow == 0 ==> o.indent <= o.mark.column
    ensures Fetch(o, x.lexemes[a]).Go? ==> Fold(x.lexemes, a + 1) == Check(Fetch(o, x.lexemes[a]).s)
  {
  }

  function BracketSigns(key: Tree): (r: seq<Sign>) {
    match key
    case SequenceTree(_, _, _) => [Opens(LeftBracket), Closes(RightBracket)]
    case MappingTree(_, _, _) => [Opens(LeftBrace), Closes(RightBrace)]
    case _ => []
  }

  function BracketTokens(key: Tree): (r: seq<Token>) {
    match key
    case SequenceTree(_, _, _) => [YamlGrammar.Sign(FLOW_SEQUENCE_START), YamlGrammar.Sign(FLOW_SEQUENCE_END)]
    case MappingTree(_, _, _) => [YamlGrammar.Sign(FLOW_MAPPING_START), YamlGrammar.Sign(FLOW_MAPPING_END)]
    case _ => []
  }

  /** A simple key is its content and maybe two brackets. */
  lemma SimpleKeyIs(how: Settings, directives: seq<YamlParser.TagDirective>, key: Tree, inFlow: bool, level: int, s: Spot)
    requires IsSimpleKey(how, key) && Legible(how, directives, key, inFlow, true)
    ensures var e := Head(key);
      var ts := ContentTokens(e, how.content(e, inFlow, true));
      && Printed(how, key, inFlow, level, Dense, true) == [Sign.Content(e, level, inFlow, true)] + BracketSigns(key)
      && FormTokens(NodeForm(how, key, inFlow, Dense, true)) == ts + BracketTokens(key)
      && Said(how, s, e, level, inFlow, true) == Shorts(how, s, ts) && ts + BracketTokens(key) != []
  {
    hide Said, Shorts, Printed, NodeForm, FormTokens, BracketSigns, ContentTokens, Legible, BracketTokens;
    SimpleKeyPrinted(how, key, inFlow, level);
    SimpleKeyTokens(how, directives, key, inFlow);
    SimpleKeySaid(how, directives, key, inFlow, level, s);
  }

  lemma SimpleKeyPrinted(how: Settings, key: Tree, inFlow: bool, level: int)
    requires IsSimpleKey(how, key)
    ensures Printed(how, key, inFlow, level, Dense, true) == [Sign.Content(Head(key), level, inFlow, true)] + BracketSigns(key)
  {
    match key {
      case AliasTree(_) =>
      case ScalarTree(_, _, _, _) =>
      case SequenceTree(_, _, items) =>
        assert FlowItems(how, [], Increased(how, level, true, false)) + Trailing(how, false, level) == [];
      case MappingTree(_, _, pairs) =>
        assert FlowPairs(how, [], Increased(how, level, true, false)) + Trailing(how, false, level) == [];
    }
  }

  lemma SimpleKeyTokens(how: Settings, directives: seq<YamlParser.TagDirective>, key: Tree, inFlow: bool)
    requires IsSimpleKey(how, key) && Legible(how, directives, key, inFlow, true)
    ensures var ts := ContentTokens(Head(key), how.content(Head(key), inFlow, true)) + BracketTokens(key);
      ts != [] && FormTokens(NodeForm(how, key, inFlow, Dense, true)) == ts
  {
    hide WrittenTokens;
    match key {
      case AliasTree(_) =>
      case ScalarTree(_, _, _, _) =>
      case SequenceTree(_, _, items) =>
        assert FlowItemForms(how, []) == [];
      case MappingTree(_, _, pairs) =>
        assert PairForms(how, [], true) == [];
    }
  }

  lemma SimpleKeySaid(how: Settings, directives: seq<YamlParser.TagDirective>, key: Tree, inFlow: bool, level: int, s: Spot)
    requires IsSimpleKey(how, key) && Legible(how, directives, key, inFlow, true)
    ensures Said(how, s, Head(key), level, inFlow, true) == Shorts(how, s, ContentTokens(Head(key), how.content(Head(key), inFlow, true)))
  {
    hide Shorts, WrittenTokens;
  }

  /** The brackets of a key, if it has some, and its colon. */
  lemma BracketsLaid(how: Settings, s: Spot, key: Tree)
    ensures var l := Lay(how, s, BracketSigns(key));
      && l.spot.mark.line == s.mark.line && l.spot.mark.index <= s.mark.index + 3 && |l.pieces| == |BracketTokens(key)|
      && (l.pieces != [] ==>
            && |l.pieces| == 2 && l.pieces[0].start == Spaced(s) && Bracket(l.pieces[0], true) && Bracket(l.pieces[1], false)
            && BracketTokens(key) == [l.pieces[0].token, l.pieces[1].token])
      && (l.pieces == [] ==> l.spot == s)
  {
    hide Lay;
    match key {
      case SequenceTree(_, _, _) => TwoLaid(how, s, LeftBracket, RightBracket);
      case MappingTree(_, _, _) => TwoLaid(how, s, LeftBrace, RightBrace);
      case _ => LayNone(how, s);
    }
  }

  lemma TwoLaid(how: Settings, s: Spot, open: Chars, close: Chars)
    ensures var first := One(how, s, Opens(open));
      var second := One(how, first.spot, Closes(close));
      Lay(how, s, [Opens(open), Closes(close)]) == Laid([first.pieces[0], second.pieces[0]], second.spot)
  {
    hide KindOf, TypeOf;
    assert [Opens(open), Closes(close)] == [Opens(open)] + [Closes(close)];
    LayConcat(how, s, [Opens(open)], [Closes(close)]);
    LayOne(how, s, Opens(open));
    LayOne(how, One(how, s, Opens(open)).spot, Closes(close));
  }

  lemma ColonLaid(how: Settings, s: Spot, block: bool, spaced: bool)
    ensures var sign := if spaced then Enters(Colon, block) else Closes(Colon);
      var p := Piece(ValueIndicator, YamlGrammar.Sign(VALUE), if spaced then Spaced(s) else s.mark, Right(if spaced then Spaced(s) else s.mark, 1));
      Lay(how, s, [sign]) == Laid([p], Spot(p.end, false, spaced && s.indention && block))
  {
    LayOne(how, s, if spaced then Enters(Colon, block) else Closes(Colon));
  }

  /** The parts of a simple key with its colon, as they are laid. */
  lemma SimpleKeyLaid(how: Settings, directives: seq<YamlParser.TagDirective>, s: Spot, key: Tree, inFlow: bool, level: int)
    requires KeysFit(how) && IsSimpleKey(how, key) && Legible(how, directives, key, inFlow, true)
    ensures var ts := ContentTokens(Head(key), how.content(Head(key), inFlow, true));
      var first := Shorts(how, s, ts);
      var second := Lay(how, first.spot, BracketSigns(key));
      var third := Lay(how, second.spot, [Closes(Colon)]);
      && Lay(how, s, Printed(how, key, inFlow, level, Dense, true) + [Closes(Colon)]) == Join(first, Join(second, third))
      && second.spot.mark.line == s.mark.line && second.spot.mark.index <= s.mark.index + 1003
  {
    hide Shorts, Said, BracketSigns, ContentTokens, Legible, Printed, NodeForm, FormTokens, IsSimpleKey, Lay, Room;
    SimpleKeyIs(how, directives, key, inFlow, level, s);
    var e := Head(key);
    var ts := ContentTokens(e, how.content(e, inFlow, true));
    var first := Shorts(how, s, ts);
    ShortsRoom(how, s, ts);
    BracketsLaid(how, first.spot, key);
    var content := Sign.Content(e, level, inFlow, true);
    assert [content] + BracketSigns(key) + [Closes(Colon)] == [content] + (BracketSigns(key) + [Closes(Colon)]);
    LayConcat(how, s, [content], BracketSigns(key) + [Closes(Colon)]);
    LayConcat(how, first.spot, BracketSigns(key), [Closes(Colon)]);
    LayOne(how, s, content);
    Fit(how, key, inFlow);
  }

  lemma Fit(how: Settings, key: Tree, inFlow: bool)
    requires KeysFit(how) && IsSimpleKey(how, key)
    ensures Room(how, ContentTokens(Head(key), how.content(Head(key), inFlow, true))) <= 1000
  {
    hide Room, ContentTokens;
  }

  /** The brackets of a key. */
  lemma BracketsScanned(x: Reading, a: nat, b: nat, n: nat, o: Core, c: Core, ts: seq<Token>) returns (u: Core)
    requires Reads(x) && OneLine(x, a, b) && a <= n && n + 1 < b < |x.pieces| == |x.lexemes|
    requires Bracket(x.pieces[n], true) && Bracket(x.pieces[n + 1], false)
    requires if n == a then Poised(x, a, o) && ts == [] else At(x, n, c) && KeyOpen(x, a, n, o, c, ts)
    ensures At(x, n + 2, u) && KeyOpen(x, a, n + 2, o, u, ts + [x.pieces[n].token, x.pieces[n + 1].token])
  {
    hide Reads, KeyOpen, Fetch, Fold, OneLine, BracketOpen, Bracket, At, Poised;
    var p, q := x.pieces[n].token, x.pieces[n + 1].token;
    assert ts + [p] + [q] == ts + [p, q];
    if n == a {
      PoisedIs(x, a, o);
      FirstBracketFetched(x, a, b, o);
      assert [] + [p] == [p];
      u := EndBracketScanned(x, a, b, n, o, Fetch(o, x.lexemes[a]).s, [p]);
    } else {
      var t := KeyComes(x, a, b, n, o, c, ts);
      NextBracketFetched(x, a, n, o, t, ts);
      u := EndBracketScanned(x, a, b, n, o, Fetch(t, x.lexemes[n]).s, ts + [p]);
    }
  }

  /** Where the pieces of a simple key are. */
  lemma SimpleKeyAhead(x: Reading, how: Settings, directives: seq<YamlParser.TagDirective>, n: nat, s: Spot, key: Tree, inFlow: bool, level: int)
    returns (m: nat, b: nat)
    requires Reads(x) && KeysFit(how) && IsSimpleKey(how, key) && Legible(how, directives, key, inFlow, true)
    requires Ahead(x, n, Lay(how, s, Printed(how, key, inFlow, level, Dense, true) + [Closes(Colon)]).pieces)
    ensures var ts := ContentTokens(Head(key), how.content(Head(key), inFlow, true));
      && m == n + |ts| && b == m + |BracketTokens(key)| && n < b < |x.pieces| && Ahead(x, n, Shorts(how, s, ts).pieces)
      && OneLine(x, n, b) && x.pieces[n].start == Spaced(s)
      && (m < b ==>
            && m + 2 == b && Bracket(x.pieces[m], true) && Bracket(x.pieces[m + 1], false)
            && BracketTokens(key) == [x.pieces[m].token, x.pieces[m + 1].token])
    ensures x.pieces[n].start.column < x.pieces[b].end.column
    ensures var l := Lay(how, s, Printed(how, key, inFlow, level, Dense, true) + [Closes(Colon)]);
      && n + |l.pieces| == b + 1 && x.pieces[b].kind.ValueIndicator? && x.pieces[b].token == YamlGrammar.Sign(VALUE)
      && l.spot == Spot(x.pieces[b].end, false, false)
  {
    hide Reads, Shorts, BracketSigns, ContentTokens, Legible, Printed, NodeForm, FormTokens, IsSimpleKey, Lay, Room, Ahead, Bracket, KeysFit;
    SimpleKeyLaid(how, directives, s, key, inFlow, level);
    SimpleKeyIs(how, directives, key, inFlow, level, s);
    var ts := ContentTokens(Head(key), how.content(Head(key), inFlow, true));
    var first := Shorts(how, s, ts);
    var second := Lay(how, first.spot, BracketSigns(key));
    ShortsRoom(how, s, ts);
    BracketsLaid(how, first.spot, key);
    ColonLaid(how, second.spot, false, false);
    var third := Lay(how, second.spot, [Closes(Colon)]);
    AheadConcat(x, n, first.pieces, second.pieces + third.pieces);
    AheadConcat(x, n + |ts|, second.pieces, third.pieces);
    AheadOne(x, n + |ts| + |second.pieces|, third.pieces[0]);
    m, b := n + |ts|, n + |ts| + |second.pieces|;
    if ts != [] {
      AheadFirst(x, n, first.pieces);
    }
    if second.pieces != [] {
      assert second.pieces == [second.pieces[0]] + [second.pieces[1]];
      AheadConcat(x, m, [second.pieces[0]], [second.pieces[1]]);
      AheadOne(x, m, second.pieces[0]);
      AheadOne(x, m + 1, second.pieces[1]);
    }
    if ts == [] {
      assert first == Laid([], s) by { NoShorts(how, s); }
    }
    OnTheLine(x, n, b, n);
  }

  lemma AheadFirst(x: Reading, n: nat, ps: seq<Piece>)
    requires Ahead(x, n, ps) && ps != []
    ensures n < |x.pieces| && x.pieces[n] == ps[0]
  {
    assert x.pieces[n..n + |ps|][0] == ps[0];
  }

  /** A simple key with its colon. */
  lemma SimpleKeyScanned(x: Reading, how: Settings, directives: seq<YamlParser.TagDirective>, n: nat, o: Core, s: Spot, key: Tree, level: int)
    returns (u: Core)
    requires Reads(x) && KeysFit(how) && IsSimpleKey(how, key) && Legible(how, directives, key, o.flow > 0, true)
    requires Ahead(x, n, Lay(how, s, Printed(how, key, o.flow > 0, level, Dense, true) + [Closes(Colon)]).pieces) && Poised(x, n, o)
    ensures var l := Lay(how, s, Printed(how, key, o.flow > 0, level, Dense, true) + [Closes(Colon)]);
      && At(x, n + |l.pieces|, u) && u.flow == o.flow && Soft(x, n + |l.pieces|, u.keys) && Lower(o, u) && !Top(u).possible
      && ViewOf(x, u) == Used(ViewOf(x, o), o.flow, Spaced(s).column, FormTokens(NodeForm(how, key, o.flow > 0, Dense, true)))
      && l.pieces != [] && x.pieces[n + |l.pieces| - 1].end == l.spot.mark && !l.spot.indention && Spaced(s).column < l.spot.mark.column
  {
    hide Reads, Shorts, BracketSigns, ContentTokens, BracketTokens, Legible, Printed, NodeForm, FormTokens, IsSimpleKey, Lay, Ahead, Bracket, KeysFit,
         Poised, KeyOpen, OneLine, At, Soft, ViewOf, Used, Lower;
    var inFlow := o.flow > 0;
    var ts := ContentTokens(Head(key), how.content(Head(key), inFlow, true));
    var m, b := SimpleKeyAhead(x, how, directives, n, s, key, inFlow, level);
    SimpleKeyIs(how, directives, key, inFlow, level, s);
    WrittenAre(Head(key), how.content(Head(key), inFlow, true));
    var c := o;
    PoisedIs(x, n, o);
    if ts != [] {
      c := KeyShortsScanned(x, how, n, b, o, s, ts);
    }
    var tokens := ts + BracketTokens(key);
    if m < b {
      c := BracketsScanned(x, n, b, m, o, c, ts);
    } else {
      assert tokens == ts by { assert |BracketTokens(key)| == 0; }
    }
    u := ColonScanned(x, n, b, o, c, tokens);
  }

  // ---- nodes

  /** A block collection that has begun has some entries. */
  function Grown(v: View, level: int, typ: TokenType, some: bool, ts: seq<Token>): (r: View) {
    if some then Plus(Begun(v, level, typ), ts) else v
  }

  lemma PlusPlus(v: View, a: seq<Token>, b: seq<Token>)
    ensures Plus(Plus(v, a), b) == Plus(v, a + b)
  {
    assert v.tokens + a + b == v.tokens + (a + b);
  }

  lemma PlusView(v: View, ts: seq<Token>)
    ensures Plus(v, ts).indent == v.indent
  {
  }

  lemma PlusNone(v: View)
    ensures Plus(v, []) == v
  {
    assert v.tokens + [] == v.tokens;
  }

  /** One more entry, whose first token goes with the beginning of the collection if it is the first entry. */
  lemma GrownMore(v: View, level: int, typ: TokenType, some: bool, ts: seq<Token>, more: seq<Token>)
    requires v.indent <= level && (!some ==> ts == [])
    ensures Plus(Begun(Grown(v, level, typ, some, ts), level, typ), more) == Grown(v, level, typ, true, ts + more)
    ensures Begun(Grown(v, level, typ, some, ts), level, typ).indent == level && Grown(v, level, typ, some, ts).indent <= level
  {
    PlusPlus(Begun(v, level, typ), ts, more);
    assert !some ==> ts + more == more;
  }

  lemma ClosedOpen(v: View, column: int)
    requires v.indent <= column
    ensures Closed(v, column) == v
  {
  }

  /** A block collection ends. */
  lemma CollectionEnds(u: View, v: View, level: int, inner: int, typ: TokenType, ts: seq<Token>)
    requires v.indent == level <= inner && Closed(u, inner) == Grown(v, inner, typ, true, ts)
    ensures Closed(u, level) == Plus(v, if inner == level then ts else [YamlGrammar.Sign(typ)] + ts + [YamlGrammar.Sign(BLOCK_END)])
  {
    ClosedAgain(u, inner, level);
    var w := Grown(v, inner, typ, true, ts);
    if inner > level {
      assert w.indents == v.indents + [level] && w.indents[..|w.indents| - 1] == v.indents;
      assert Closed(w, level) == Closed(View(level, v.indents, w.tokens + [YamlGrammar.Sign(BLOCK_END)]), level);
      ClosedOpen(View(level, v.indents, w.tokens + [YamlGrammar.Sign(BLOCK_END)]), level);
      assert w.tokens + [YamlGrammar.Sign(BLOCK_END)] == v.tokens + ([YamlGrammar.Sign(typ)] + ts + [YamlGrammar.Sign(BLOCK_END)]);
    } else {
      ClosedOpen(w, level);
    }
  }

  /** What the pieces of a node are scanned to; outside of flow collections the ends of block collections wait for the
      next line. */
  ghost predicate Done(x: Reading, c: Core, n: nat, u: Core, s: Spot, level: int, ts: seq<Token>) {
    && At(x, n, u) && Fits(x, n, u, s) && u.flow == c.flow && Lower(c, u) && (Keyless(c) ==> !Top(u).possible)
    && (if c.flow == 0 then Closed(ViewOf(x, u), level) else ViewOf(x, u)) == Plus(ViewOf(x, c), ts)
  }

  lemma ScannedDone(x: Reading, n: nat, c: Core, n': nat, u: Core, s: Spot, level: int, ts: seq<Token>)
    requires Scanned(x, n, c, n', u, s, ts) && (Keyless(c) ==> !Top(u).possible) && (c.flow == 0 ==> c.indent <= level)
    ensures Done(x, c, n', u, s, level, ts)
  {
    hide At, Fits, Lower, TokensOf;
    if c.flow == 0 {
      ClosedOpen(ViewOf(x, u), level);
    }
  }

  /** In a flow collection nothing waits. */
  lemma DoneScanned(x: Reading, n: nat, c: Core, n': nat, u: Core, s: Spot, level: int, ts: seq<Token>)
    requires Done(x, c, n', u, s, level, ts) && c.flow > 0
    ensures Scanned(x, n, c, n', u, s, ts) && (Keyless(c) ==> !Top(u).possible)
  {
    hide At, Fits, Lower, TokensOf;
  }

  /** Signs for a node, from a state that fits them. */
  ghost predicate Due(x: Reading, how: Settings, n: nat, c: Core, s: Spot, level: int, signs: seq<Sign>) {
    && Reads(x) && KeysFit(how) && At(x, n, c) && Fits(x, n, c, s) && Inside(c, s.mark.column) && (c.flow == 0 ==> c.indent == level >= -1)
    && Ahead(x, n, Lay(how, s, signs).pieces)
  }

  lemma DueIs(x: Reading, how: Settings, n: nat, c: Core, s: Spot, level: int, signs: seq<Sign>)
    requires Due(x, how, n, c, s, level, signs)
    ensures Reads(x) && KeysFit(how) && At(x, n, c) && Fits(x, n, c, s) && Inside(c, s.mark.column) && (c.flow == 0 ==> c.indent == level >= -1)
    ensures Ahead(x, n, Lay(how, s, signs).pieces)
  {
  }

  /** The first of the signs is a content. */
  lemma ContentDue(x: Reading, how: Settings, directives: seq<YamlParser.TagDirective>, n: nat, c: Core, s: Spot, t: Tree, level: int, rest: seq<Sign>)
    returns (u: Core)
    requires Due(x, how, n, c, s, level, [Sign.Content(Head(t), level, c.flow > 0, false)] + rest) && Legible(how, directives, t, c.flow > 0, false)
    ensures var l, ts := Said(how, s, Head(t), level, c.flow > 0, false), ContentTokens(Head(t), how.content(Head(t), c.flow > 0, false));
      && Scanned(x, n, c, n + |l.pieces|, u, l.spot, ts)
      && (Keyless(c) ==> !Top(u).possible && (!Head(t).Scalar? ==> Keyless(u)))
      && Lay(how, s, [Sign.Content(Head(t), level, c.flow > 0, false)] + rest) == Join(l, Lay(how, l.spot, rest))
      && (!Head(t).Scalar? ==> Due(x, how, n + |l.pieces|, u, l.spot, level, rest))
  {
    hide Reads, KeysFit, At, Fits, Ahead, Inside, Legible, Said, Lay, ContentTokens;
    var content := Sign.Content(Head(t), level, c.flow > 0, false);
    LayConcat(how, s, [content], rest);
    LayOne(how, s, content);
    LegibleStyled(how, directives, t, c.flow > 0);
    var l := Said(how, s, Head(t), level, c.flow > 0, false);
    AheadConcat(x, n, l.pieces, Lay(how, l.spot, rest).pieces);
    u := SaidScanned(x, how, n, c, s, Head(t), level);
    ScannedIs(x, n, c, n + |l.pieces|, u, l.spot, ContentTokens(Head(t), how.content(Head(t), c.flow > 0, false)));
  }

  lemma LegibleStyled(how: Settings, directives: seq<YamlParser.TagDirective>, t: Tree, inFlow: bool)
    requires Legible(how, directives, t, inFlow, false)
    ensures Styled(how, Head(t), inFlow, false)
  {
  }

  // ---- entries, in flow collections and in block ones

  /** A node, from a state that fits it. */
  lemma {:induction false} NodeScanned(x: Reading, how: Settings, directives: seq<YamlParser.TagDirective>, n: nat, c: Core, s: Spot, t: Tree, level: int,
                                       tie: Tie) returns (u: Core)
    requires Due(x, how, n, c, s, level, Printed(how, t, c.flow > 0, level, tie, false)) && Legible(how, directives, t, c.flow > 0, false)
    requires !tie.Apart? ==> level >= 0
    ensures var l := Lay(how, s, Printed(how, t, c.flow > 0, level, tie, false));
      Done(x, c, n + |l.pieces|, u, l.spot, level, FormTokens(NodeForm(how, t, c.flow > 0, tie, false)))
    decreases t, 1
  {
    hide Due, Legible, Printed, Lay, Done, Fits, At, Scanned, ContentTokens, Said, Ahead, Inside;
    var inFlow := c.flow > 0;
    if t.AliasTree? || t.ScalarTree? {
      SmallIs(how, t, inFlow, level, tie);
      u := ContentDue(x, how, directives, n, c, s, t, level, []);
      var l := Said(how, s, Head(t), level, inFlow, false);
      LayNone(how, l.spot);
      DueIs(x, how, n, c, s, level, [Sign.Content(Head(t), level, inFlow, false)] + []);
      assert Join(l, Laid([], l.spot)) == l;
      ScannedDone(x, n, c, n + |l.pieces|, u, l.spot, level, ContentTokens(Head(t), how.content(Head(t), inFlow, false)));
    } else {
      u := CollectionScanned(x, how, directives, n, c, s, t, level, tie);
    }
  }

  lemma SmallIs(how: Settings, t: Tree, inFlow: bool, level: int, tie: Tie)
    requires t.AliasTree? || t.ScalarTree?
    ensures Printed(how, t, inFlow, level, tie, false) == [Sign.Content(Head(t), level, inFlow, false)] + []
    ensures FormTokens(NodeForm(how, t, inFlow, tie, false)) == ContentTokens(Head(t), how.content(Head(t), inFlow, false))
  {
    hide WrittenTokens;
  }

  lemma {:induction false} CollectionScanned(x: Reading, how: Settings, directives: seq<YamlParser.TagDirective>, n: nat, c: Core, s: Spot, t: Tree, level: int,
                                             tie: Tie) returns (u: Core)
    requires Due(x, how, n, c, s, level, Printed(how, t, c.flow > 0, level, tie, false)) && Legible(how, directives, t, c.flow > 0, false)
    requires (t.SequenceTree? || t.MappingTree?) && (!tie.Apart? ==> level >= 0)
    ensures var l := Lay(how, s, Printed(how, t, c.flow > 0, level, tie, false));
      Done(x, c, n + |l.pieces|, u, l.spot, level, FormTokens(NodeForm(how, t, c.flow > 0, tie, false)))
    decreases t, 0, 4
  {
    hide *;
    DueIs(x, how, n, c, s, level, Printed(how, t, c.flow > 0, level, tie, false));
    if FlowStyle(how, t, c.flow > 0) {
      u := FlowCollectionScanned(x, how, directives, n, c, s, t, level, tie);
    } else {
      assert c.flow == 0 by { InBlock(how, t, c.flow > 0); }
      u := BlockCollectionScanned(x, how, directives, n, c, s, t, level, tie);
    }
  }

  lemma InBlock(how: Settings, t: Tree, inFlow: bool)
    requires (t.SequenceTree? || t.MappingTree?) && !FlowStyle(how, t, inFlow)
    ensures !inFlow
  {
  }

  lemma {:induction false} FlowCollectionScanned(x: Reading, how: Settings, directives: seq<YamlParser.TagDirective>, n: nat, c: Core, s: Spot, t: Tree, level: int,
                                                 tie: Tie) returns (u: Core)
    requires Due(x, how, n, c, s, level, Printed(how, t, c.flow > 0, level, tie, false)) && Legible(how, directives, t, c.flow > 0, false)
    requires (t.SequenceTree? || t.MappingTree?) && FlowStyle(how, t, c.flow > 0) && (c.flow == 0 ==> c.indent <= level)
    ensures var l := Lay(how, s, Printed(how, t, c.flow > 0, level, tie, false));
      Done(x, c, n + |l.pieces|, u, l.spot, level, FormTokens(NodeForm(how, t, c.flow > 0, tie, false)))
    decreases t, 0, 3
  {
    hide Due, Legible, Printed, Lay, Done, Fits, At, Scanned, ContentTokens, Said, Ahead, Inside, EntrySigns, InnerTokens, Idle, Soft, Reads, KeysFit, NodeForm, FormTokens;
    var inFlow := c.flow > 0;
    var w := ContentTokens(Head(t), how.content(Head(t), inFlow, false));
    EntriesLegible(how, directives, t, inFlow);
    var inner := Increased(how, level, true, false);
    var rest := [Opens(Brackets(t).0)] + (EntrySigns(how, t, true, inner) + (Trailing(how, Populated(t), level) + [Closes(Brackets(t).1)]));
    FlowCollectionIs(how, t, inFlow, level, tie);
    var v := ContentDue(x, how, directives, n, c, s, t, level, rest);
    var l := Said(how, s, Head(t), level, inFlow, false);
    u := FlowScanned(x, how, directives, n + |l.pieces|, v, l.spot, t, level);
    FlowDone(x, n, c, v, l, Lay(how, l.spot, rest), u, level, w, BracketedTokens(how, t));
  }

  lemma {:induction false} BlockCollectionScanned(x: Reading, how: Settings, directives: seq<YamlParser.TagDirective>, n: nat, c: Core, s: Spot, t: Tree, level: int,
                                                  tie: Tie) returns (u: Core)
    requires Due(x, how, n, c, s, level, Printed(how, t, false, level, tie, false)) && Legible(how, directives, t, false, false)
    requires (t.SequenceTree? || t.MappingTree?) && !FlowStyle(how, t, false) && (!tie.Apart? ==> level >= 0) && c.flow == 0
    ensures var l := Lay(how, s, Printed(how, t, false, level, tie, false));
      Done(x, c, n + |l.pieces|, u, l.spot, level, FormTokens(NodeForm(how, t, false, tie, false)))
    decreases t, 0, 3
  {
    hide Due, Legible, Printed, Lay, Done, Fits, At, Scanned, ContentTokens, Said, Ahead, Inside, EntrySigns, InnerTokens, Idle, Soft, Reads, KeysFit, NodeForm, FormTokens, Grown, Closed, ViewOf, FlowStyle, Inner;
    DueIs(x, how, n, c, s, level, Printed(how, t, false, level, tie, false));
    var w := ContentTokens(Head(t), how.content(Head(t), false, false));
    EntriesLegible(how, directives, t, false);
    var inner := Inner(how, t, level, tie);
    BlockCollectionIs(how, t, false, level, tie);
    var signs := EntrySigns(how, t, false, inner);
    var v := ContentDue(x, how, directives, n, c, s, t, level, signs);
    var l := Said(how, s, Head(t), level, false, false);
    var m := n + |l.pieces|;
    DueIs(x, how, m, v, l.spot, level, signs);
    ScannedIs(x, n, c, m, v, l.spot, w);
    IdleIs(x, m, v, l.spot);
    u := BlockEntriesScanned(x, how, directives, m, v, l.spot, t, inner);
    BlockDone(x, n, c, v, l, Lay(how, l.spot, signs), u, level, inner, w, StartOf(t), InnerTokens(how, t, false));
  }

  lemma IdleIs(x: Reading, n: nat, c: Core, s: Spot)
    requires c.flow == 0
    ensures Fits(x, n, c, s) <==> Idle(x, n, c, s)
  {
  }

  /** The content of a flow collection, and behind it the collection. */
  lemma FlowDone(x: Reading, n: nat, c: Core, v: Core, l: Laid, l': Laid, u: Core, level: int, w: seq<Token>, ts: seq<Token>)
    requires Scanned(x, n, c, n + |l.pieces|, v, l.spot, w) && Scanned(x, n + |l.pieces|, v, n + |l.pieces| + |l'.pieces|, u, l'.spot, ts)
    requires (Keyless(c) ==> Keyless(v)) && (Keyless(v) ==> !Top(u).possible) && (c.flow == 0 ==> c.indent <= level)
    ensures var j := Join(l, l'); Done(x, c, n + |j.pieces|, u, j.spot, level, w + ts)
  {
    hide Scanned, Done;
    ScannedConcat(x, n, c, n + |l.pieces|, v, l.spot, w, n + |l.pieces| + |l'.pieces|, u, l'.spot, ts);
    ScannedDone(x, n, c, n + |l.pieces| + |l'.pieces|, u, l'.spot, level, w + ts);
  }

  /** The content of a block collection, and behind it the collection. */
  lemma BlockDone(x: Reading, n: nat, c: Core, v: Core, l: Laid, l': Laid, u: Core, level: int, inner: int, w: seq<Token>, typ: TokenType, ts: seq<Token>)
    requires Scanned(x, n, c, n + |l.pieces|, v, l.spot, w) && c.flow == 0 && c.indent == level <= inner
    requires var m := n + |l.pieces| + |l'.pieces|;
      At(x, m, u) && Idle(x, m, u, l'.spot) && Closed(ViewOf(x, u), inner) == Grown(ViewOf(x, v), inner, typ, true, ts)
    ensures var j := Join(l, l');
      Done(x, c, n + |j.pieces|, u, j.spot, level,
        w + if inner == level then ts else [YamlGrammar.Sign(typ)] + ts + [YamlGrammar.Sign(BLOCK_END)])
  {
    hide At, Closed, TokensOf, Grown, Soft, Plus;
    ScannedLower(x, n, c, n + |l.pieces|, v, l.spot, w);
    PlusView(ViewOf(x, c), w);
    CollectionEnds(ViewOf(x, u), ViewOf(x, v), level, inner, typ, ts);
    PlusPlus(ViewOf(x, c), w, if inner == level then ts else [YamlGrammar.Sign(typ)] + ts + [YamlGrammar.Sign(BLOCK_END)]);
  }

  predicate FlowStyle(how: Settings, t: Tree, inFlow: bool)
    requires t.SequenceTree? || t.MappingTree?
  {
    InFlow(how, inFlow, t.flow, !Populated(t))
  }

  /** The collection has an entry. */
  predicate Populated(t: Tree)
    requires t.SequenceTree? || t.MappingTree?
  {
    if t.SequenceTree? then t.items != [] else t.pairs != []
  }

  /** The indentation of a block collection's entries. */
  function Inner(how: Settings, t: Tree, level: int, tie: Tie): (r: int)
    requires t.SequenceTree? || t.MappingTree?
  {
    Increased(how, level, false, t.SequenceTree? && Loose(how, Head(t), tie))
  }

  function Brackets(t: Tree): (r: (Chars, Chars))
    requires t.SequenceTree? || t.MappingTree?
  {
    if t.SequenceTree? then (LeftBracket, RightBracket) else (LeftBrace, RightBrace)
  }

  function StartOf(t: Tree): (r: TokenType)
    requires t.SequenceTree? || t.MappingTree?
  {
    if t.SequenceTree? then BLOCK_SEQUENCE_START else BLOCK_MAPPING_START
  }

  function EntrySigns(how: Settings, t: Tree, flow: bool, level: int): (r: seq<Sign>)
    requires t.SequenceTree? || t.MappingTree?
  {
    if t.SequenceTree? then (if flow then FlowItems(how, t.items, level) else BlockItems(how, t.items, level))
    else if flow then FlowPairs(how, t.pairs, level)
    else BlockPairs(how, t.pairs, level)
  }

  function InnerTokens(how: Settings, t: Tree, flow: bool): (r: seq<Token>)
    requires t.SequenceTree? || t.MappingTree?
  {
    if t.SequenceTree? then (if flow then FlowTokens(FlowItemForms(how, t.items)) else ItemTokens(BlockItemForms(how, t.items)))
    else if flow then FlowTokens(PairForms(how, t.pairs, true))
    else BlockTokens(PairForms(how, t.pairs, false))
  }

  function BracketedTokens(how: Settings, t: Tree): (r: seq<Token>)
    requires t.SequenceTree? || t.MappingTree?
  {
    [BracketTokens(t)[0]] + (InnerTokens(how, t, true) + (YamlGrammar.Comma(how.canonical && Populated(t)) + [BracketTokens(t)[1]]))
  }

  ghost predicate InnerLegible(how: Settings, directives: seq<YamlParser.TagDirective>, t: Tree, flow: bool)
    requires t.SequenceTree? || t.MappingTree?
  {
    if t.SequenceTree? then ItemsLegible(how, directives, t.items, flow) else PairsLegible(how, directives, t.pairs, flow)
  }

  lemma EntriesLegible(how: Settings, directives: seq<YamlParser.TagDirective>, t: Tree, inFlow: bool)
    requires (t.SequenceTree? || t.MappingTree?) && Legible(how, directives, t, inFlow, false)
    ensures InnerLegible(how, directives, t, FlowStyle(how, t, inFlow))
  {
  }

  lemma FlowCollectionIs(how: Settings, t: Tree, inFlow: bool, level: int, tie: Tie)
    requires (t.SequenceTree? || t.MappingTree?) && FlowStyle(how, t, inFlow)
    ensures Printed(how, t, inFlow, level, tie, false) == [Sign.Content(Head(t), level, inFlow, false)]
      + ([Opens(Brackets(t).0)] + (EntrySigns(how, t, true, Increased(how, level, true, false)) + (Trailing(how, Populated(t), level) + [Closes(Brackets(t).1)])))
    ensures FormTokens(NodeForm(how, t, inFlow, tie, false))
      == ContentTokens(Head(t), how.content(Head(t), inFlow, false)) + BracketedTokens(how, t)
  {
    hide FlowItems, FlowPairs, Increased, Trailing, WrittenTokens, FlowTokens, YamlGrammar.Comma;
  }

  lemma BlockCollectionIs(how: Settings, t: Tree, inFlow: bool, level: int, tie: Tie)
    requires (t.SequenceTree? || t.MappingTree?) && !FlowStyle(how, t, inFlow) && level >= -1 && (!tie.Apart? ==> level >= 0)
    ensures var inner := Inner(how, t, level, tie);
      && Printed(how, t, inFlow, level, tie, false) == [Sign.Content(Head(t), level, inFlow, false)] + EntrySigns(how, t, false, inner)
      && level <= inner && inner >= 0 && Populated(t)
      && FormTokens(NodeForm(how, t, inFlow, tie, false)) == ContentTokens(Head(t), how.content(Head(t), inFlow, false))
        + if inner == level then InnerTokens(how, t, false)
          else [YamlGrammar.Sign(StartOf(t))] + InnerTokens(how, t, false) + [YamlGrammar.Sign(BLOCK_END)]
  {
    hide BlockItems, BlockPairs, WrittenTokens, ItemTokens, BlockTokens, BlockItemForms, PairForms;
  }

  lemma {:induction false} FlowScanned(x: Reading, how: Settings, directives: seq<YamlParser.TagDirective>, n: nat, c: Core, s: Spot, t: Tree, level: int)
    returns (u: Core)
    requires t.SequenceTree? || t.MappingTree?
    requires var inner := Increased(how, level, true, false);
      Due(x, how, n, c, s, level, [Opens(Brackets(t).0)] + (EntrySigns(how, t, true, inner) + (Trailing(how, Populated(t), level) + [Closes(Brackets(t).1)])))
    requires InnerLegible(how, directives, t, true)
    ensures var inner := Increased(how, level, true, false);
      var l := Lay(how, s, [Opens(Brackets(t).0)] + (EntrySigns(how, t, true, inner) + (Trailing(how, Populated(t), level) + [Closes(Brackets(t).1)])));
      Scanned(x, n, c, n + |l.pieces|, u, l.spot, BracketedTokens(how, t)) && (Keyless(c) ==> !Top(u).possible)
    decreases t, 0, 2
  {
    hide *;
    BracketedIs(how, t);
    FlowLevel(how, level);
    TwoBrackets(t);
    var inner := Increased(how, level, true, false);
    var a, b, z := [Opens(Brackets(t).0)], EntrySigns(how, t, true, inner), Trailing(how, Populated(t), level) + [Closes(Brackets(t).1)];
    DueIs(x, how, n, c, s, level, a + (b + z));
    FitsIs(x, n, c, s);
    FlowAhead(x, how, n, s, t, b, z);
    var first := Lay(how, s, a);
    var second := Lay(how, first.spot, b);
    var third := Lay(how, second.spot, z);
    BracketIsOne(x.pieces[n]);
    InsideLater(c, s.mark.column, x.pieces[n].start.column);
    var v := OpenScanned(x, n, c);
    var w := FlowEntriesScanned(x, how, directives, n + 1, v, first.spot, t, inner);
    ScannedIs(x, n + 1, v, n + 1 + |second.pieces|, w, second.spot, InnerTokens(how, t, true));
    u := EndScanned(x, how, n + 1 + |second.pieces|, w, second.spot, t, level);
    Bracketed(x, n, c, v, w, u, n + 1 + |second.pieces|, n + |first.pieces| + |second.pieces| + |third.pieces|, second.spot, third.spot,
              BracketTokens(t)[0], InnerTokens(how, t, true), YamlGrammar.Comma(how.canonical && Populated(t)) + [BracketTokens(t)[1]]);
  }

  lemma BracketedIs(how: Settings, t: Tree)
    requires t.SequenceTree? || t.MappingTree?
    ensures |BracketTokens(t)| == 2
    ensures BracketedTokens(how, t)
      == [BracketTokens(t)[0]] + (InnerTokens(how, t, true) + (YamlGrammar.Comma(how.canonical && Populated(t)) + [BracketTokens(t)[1]]))
  {
  }

  lemma FlowLevel(how: Settings, level: int)
    ensures Increased(how, level, true, false) >= 0
  {
  }

  lemma InsideLater(c: Core, column: nat, later: nat)
    requires Inside(c, column) && column <= later
    ensures Inside(c, later)
  {
  }

  lemma BracketIsOne(p: Piece)
    requires Bracket(p, true)
    ensures p.kind.FlowStart? && p.token == YamlGrammar.Sign(p.kind.typ) && !Contentful(p.kind.typ)
  {
  }

  lemma FlowAhead(x: Reading, how: Settings, n: nat, s: Spot, t: Tree, b: seq<Sign>, z: seq<Sign>)
    requires (t.SequenceTree? || t.MappingTree?) && Ahead(x, n, Lay(how, s, [Opens(Brackets(t).0)] + (b + z)).pieces)
    ensures var first := Lay(how, s, [Opens(Brackets(t).0)]);
      var second := Lay(how, first.spot, b);
      var third := Lay(how, second.spot, z);
      var all := Lay(how, s, [Opens(Brackets(t).0)] + (b + z));
      && |all.pieces| == |first.pieces| + |second.pieces| + |third.pieces| && all.spot == third.spot && |first.pieces| == 1
      && n < |x.pieces| && Bracket(x.pieces[n], true) && x.pieces[n].token == BracketTokens(t)[0] && s.mark.column <= x.pieces[n].start.column
      && Ahead(x, n + 1, second.pieces) && Ahead(x, n + 1 + |second.pieces|, third.pieces)
  {
    hide Lay, Ahead, Bracket, BracketTokens, Brackets;
    var a := [Opens(Brackets(t).0)];
    LayConcat(how, s, a, b + z);
    var first := Lay(how, s, a);
    LayConcat(how, first.spot, b, z);
    var second := Lay(how, first.spot, b);
    var third := Lay(how, second.spot, z);
    OpenLaid(how, s, t);
    AheadConcat(x, n, first.pieces, second.pieces + third.pieces);
    AheadConcat(x, n + |first.pieces|, second.pieces, third.pieces);
    AheadFirst(x, n, first.pieces);
  }

  lemma OpenLaid(how: Settings, s: Spot, t: Tree)
    requires t.SequenceTree? || t.MappingTree?
    ensures var l := Lay(how, s, [Opens(Brackets(t).0)]);
      && |l.pieces| == 1 && Bracket(l.pieces[0], true) && l.pieces[0].token == BracketTokens(t)[0] && s.mark.column <= l.pieces[0].start.column
  {
    LayOne(how, s, Opens(Brackets(t).0));
  }

  /** What a flow collection is scanned to, from the state behind its opening bracket and the one before its end. */
  lemma Bracketed(x: Reading, n: nat, c: Core, v: Core, w: Core, u: Core, m: nat, k: nat, s: Spot, s': Spot, open: Token, inner: seq<Token>, end: seq<Token>)
    requires v.flow == c.flow + 1 && ViewOf(x, v) == Plus(ViewOf(x, c), [open]) && Lower(c, v) && (Keyless(c) ==> !v.keys[c.flow].possible)
    requires Scanned(x, n + 1, v, m, w, s, inner)
    requires At(x, k, u) && Fits(x, k, u, s') && u.flow == c.flow && ViewOf(x, u) == Plus(ViewOf(x, w), end)
    requires forall i | 0 <= i < w.flow && !w.keys[i].possible :: !u.keys[i].possible
    ensures Scanned(x, n, c, k, u, s', [open] + (inner + end)) && (Keyless(c) ==> !Top(u).possible)
  {
    hide At, Fits, TokensOf;
    var tokens := ViewOf(x, c).tokens;
    assert tokens + [open] + inner + end == tokens + ([open] + (inner + end));
  }

  /** The end of a flow collection. */
  lemma EndScanned(x: Reading, how: Settings, n: nat, c: Core, s: Spot, t: Tree, level: int) returns (u: Core)
    requires t.SequenceTree? || t.MappingTree?
    requires Reads(x) && At(x, n, c) && Fits(x, n, c, s) && c.flow > 0
    requires Ahead(x, n, Lay(how, s, Trailing(how, Populated(t), level) + [Closes(Brackets(t).1)]).pieces)
    ensures var l := Lay(how, s, Trailing(how, Populated(t), level) + [Closes(Brackets(t).1)]);
      && At(x, n + |l.pieces|, u) && Fits(x, n + |l.pieces|, u, l.spot) && u.flow == c.flow - 1
      && ViewOf(x, u) == Plus(ViewOf(x, c), YamlGrammar.Comma(how.canonical && Populated(t)) + [BracketTokens(t)[1]])
      && forall i | 0 <= i < c.flow && !c.keys[i].possible :: !u.keys[i].possible
  {
    hide *;
    TwoBrackets(t);
    var a, b := Trailing(how, Populated(t), level), [Closes(Brackets(t).1)];
    LaidTwo(x, how, n, s, a, b);
    var first := Lay(how, s, a);
    var v := TrailingScanned(x, how, n, c, s, Populated(t), level);
    var m := n + |first.pieces|;
    ScannedIs(x, n, c, m, v, first.spot, YamlGrammar.Comma(how.canonical && Populated(t)));
    ScannedLower(x, n, c, m, v, first.spot, YamlGrammar.Comma(how.canonical && Populated(t)));
    FitsIs(x, m, v, first.spot);
    CloseLaid(how, first.spot, t);
    AheadFirst(x, m, Lay(how, first.spot, b).pieces);
    u := CloseScanned(x, m, v);
    CloseFits(x, m, u, how, first.spot, t);
    PlusPlus(ViewOf(x, c), YamlGrammar.Comma(how.canonical && Populated(t)), [BracketTokens(t)[1]]);
  }

  lemma TwoBrackets(t: Tree)
    requires t.SequenceTree? || t.MappingTree?
    ensures |BracketTokens(t)| == 2
  {
  }

  /** Some signs, and some behind them. */
  lemma LaidTwo(x: Reading, how: Settings, n: nat, s: Spot, a: seq<Sign>, b: seq<Sign>)
    requires Ahead(x, n, Lay(how, s, a + b).pieces)
    ensures var first := Lay(how, s, a);
      var second := Lay(how, first.spot, b);
      && Ahead(x, n, first.pieces) && Ahead(x, n + |first.pieces|, second.pieces)
      && |Lay(how, s, a + b).pieces| == |first.pieces| + |second.pieces| && Lay(how, s, a + b).spot == second.spot
  {
    hide Lay, Ahead;
    LayConcat(how, s, a, b);
    AheadConcat(x, n, Lay(how, s, a).pieces, Lay(how, Lay(how, s, a).spot, b).pieces);
  }

  lemma ScannedLower(x: Reading, n: nat, c: Core, n': nat, u: Core, s: Spot, ts: seq<Token>)
    requires Scanned(x, n, c, n', u, s, ts)
    ensures u.flow == c.flow && (forall i | 0 <= i < c.flow && !c.keys[i].possible :: !u.keys[i].possible) && ViewOf(x, u) == Plus(ViewOf(x, c), ts)
  {
  }

  lemma CloseLaid(how: Settings, s: Spot, t: Tree)
    requires t.SequenceTree? || t.MappingTree?
    ensures var l := Lay(how, s, [Closes(Brackets(t).1)]);
      && |l.pieces| == 1 && l.pieces[0].token == BracketTokens(t)[1] && l.spot == Spot(l.pieces[0].end, false, false)
      && var p := l.pieces[0]; p.kind.FlowEnd? && p.token == YamlGrammar.Sign(p.kind.typ) && !Contentful(p.kind.typ)
  {
    LayOne(how, s, Closes(Brackets(t).1));
  }

  lemma CloseFits(x: Reading, n: nat, u: Core, how: Settings, s: Spot, t: Tree)
    requires (t.SequenceTree? || t.MappingTree?) && n < |x.pieces| && Soft(x, n + 1, u.keys) && Lay(how, s, [Closes(Brackets(t).1)]).pieces == [x.pieces[n]]
    ensures Fits(x, n + 1, u, Lay(how, s, [Closes(Brackets(t).1)]).spot)
  {
    CloseLaid(how, s, t);
    hide Lay, Soft;
  }

  /** The comma behind the last entry. */
  lemma TrailingScanned(x: Reading, how: Settings, n: nat, c: Core, s: Spot, some: bool, level: int) returns (u: Core)
    requires Reads(x) && At(x, n, c) && Fits(x, n, c, s) && c.flow > 0 && Ahead(x, n, Lay(how, s, Trailing(how, some, level)).pieces)
    ensures var l := Lay(how, s, Trailing(how, some, level)); Scanned(x, n, c, n + |l.pieces|, u, l.spot, YamlGrammar.Comma(how.canonical && some))
  {
    hide Lay, At, Ahead, Soft, Reads, Fits, Scanned;
    FitsIs(x, n, c, s);
    if how.canonical && some {
      assert Trailing(how, some, level) == [Closes(YamlLayout.Comma)] + [Line(level)];
      LayConcat(how, s, [Closes(YamlLayout.Comma)], [Line(level)]);
      CommaLaid(how, s);
      var first := Lay(how, s, [Closes(YamlLayout.Comma)]);
      LayOne(how, first.spot, Line(level));
      AheadConcat(x, n, first.pieces, []);
      AheadFirst(x, n, first.pieces);
      u := InnerScanned(x, n, c, Lay(how, s, Trailing(how, some, level)).spot);
    } else {
      LayNone(how, s);
      u := c;
      ScannedNothing(x, n, c, s, s);
    }
  }

  lemma CommaLaid(how: Settings, s: Spot)
    ensures var l := Lay(how, s, [Closes(YamlLayout.Comma)]); |l.pieces| == 1 && l.pieces[0].kind.FlowEntry? && l.pieces[0].token == YamlGrammar.Sign(FLOW_ENTRY)
  {
    LayOne(how, s, Closes(YamlLayout.Comma));
  }

  /** What stands before an entry of a flow collection. */
  lemma SeparatorScanned(x: Reading, how: Settings, n: nat, c: Core, s: Spot, first: bool, level: int) returns (u: Core)
    requires Reads(x) && At(x, n, c) && Soft(x, n, c.keys) && c.flow > 0 && Ahead(x, n, Lay(how, s, Separator(first, level)).pieces)
    ensures var l := Lay(how, s, Separator(first, level)); Scanned(x, n, c, n + |l.pieces|, u, l.spot, YamlGrammar.Comma(!first))
    ensures if first then u == c else u.allowed && !Top(u).possible
  {
    hide Lay, At, Ahead, Soft, Reads, Scanned;
    var comma := if first then [] else [Closes(YamlLayout.Comma)];
    LayConcat(how, s, comma, [Wrap(level)]);
    var l := Lay(how, s, comma);
    LayOne(how, l.spot, Wrap(level));
    AheadConcat(x, n, l.pieces, []);
    if first {
      LayNone(how, s);
      u := c;
      FlowNothing(x, n, c, Lay(how, s, Separator(first, level)).spot);
    } else {
      CommaLaid(how, s);
      AheadFirst(x, n, l.pieces);
      u := InnerScanned(x, n, c, Lay(how, s, Separator(first, level)).spot);
    }
  }

  lemma FlowNothing(x: Reading, n: nat, c: Core, s: Spot)
    requires At(x, n, c) && Soft(x, n, c.keys) && c.flow > 0
    ensures Scanned(x, n, c, n, c, s, [])
  {
    PlusNone(ViewOf(x, c));
  }

  lemma {:induction false} FlowEntriesScanned(x: Reading, how: Settings, directives: seq<YamlParser.TagDirective>, n: nat, c: Core, s: Spot, t: Tree, level: int)
    returns (u: Core)
    requires (t.SequenceTree? || t.MappingTree?) && Reads(x) && KeysFit(how) && At(x, n, c) && Soft(x, n, c.keys) && c.flow > 0 && level >= 0
    requires c.allowed && !Top(c).possible && Ahead(x, n, Lay(how, s, EntrySigns(how, t, true, level)).pieces) && InnerLegible(how, directives, t, true)
    ensures var l := Lay(how, s, EntrySigns(how, t, true, level)); Scanned(x, n, c, n + |l.pieces|, u, l.spot, InnerTokens(how, t, true))
    decreases t, 0, 1
  {
    hide Reads, KeysFit, At, Soft, Ahead, Lay, FlowItems, FlowPairs, Scanned, FlowItemForms, PairForms, FlowTokens, ItemsLegible, PairsLegible;
    if t.SequenceTree? {
      u := FlowItemsScanned(x, how, directives, n, c, s, t.items, level);
    } else {
      u := FlowPairsScanned(x, how, directives, n, c, s, t.pairs, level);
    }
  }

  lemma {:induction false} FlowItemsScanned(x: Reading, how: Settings, directives: seq<YamlParser.TagDirective>, n: nat, c: Core, s: Spot, items: seq<Tree>, level: int)
    returns (u: Core)
    requires Reads(x) && KeysFit(how) && At(x, n, c) && Soft(x, n, c.keys) && c.flow > 0
    requires Ahead(x, n, Lay(how, s, FlowItems(how, items, level)).pieces) && ItemsLegible(how, directives, items, true)
    ensures var l := Lay(how, s, FlowItems(how, items, level)); Scanned(x, n, c, n + |l.pieces|, u, l.spot, FlowTokens(FlowItemForms(how, items)))
    decreases items, 0
  {
    hide Reads, KeysFit, At, Soft, Ahead, Lay, Scanned, Printed, NodeForm, FlowTokens, Legible, Separator;
    if items == [] {
      LayNone(how, s);
      u := c;
      FlowNothing(x, n, c, s);
      assert FlowTokens([]) == [] by { NoFlowTokens(); }
    } else {
      var init, t := items[..|items| - 1], items[|items| - 1];
      var a, b := FlowItems(how, init, level), Separator(|items| == 1, level) + Printed(how, t, true, level, Apart, false);
      LayConcat(how, s, a, b);
      var l := Lay(how, s, a);
      AheadConcat(x, n, l.pieces, Lay(how, l.spot, b).pieces);
      var v := FlowItemsScanned(x, how, directives, n, c, s, init, level);
      ScannedIs(x, n, c, n + |l.pieces|, v, l.spot, FlowTokens(FlowItemForms(how, init)));
      FitsIs(x, n + |l.pieces|, v, l.spot);
      u := FlowItemScanned(x, how, directives, n + |l.pieces|, v, l.spot, t, |items| == 1, level);
      FlowItemsGrow(x, how, n, c, v, u, l, Lay(how, l.spot, b), init, t);
    }
  }

  lemma NoFlowTokens()
    ensures FlowTokens([]) == []
  {
  }

  lemma FlowItemsGrow(x: Reading, how: Settings, n: nat, c: Core, v: Core, u: Core, l: Laid, l': Laid, init: seq<Tree>, t: Tree)
    requires Scanned(x, n, c, n + |l.pieces|, v, l.spot, FlowTokens(FlowItemForms(how, init)))
    requires var ts := YamlGrammar.Comma(init != []) + FormTokens(NodeForm(how, t, true, Apart, false));
      Scanned(x, n + |l.pieces|, v, n + |l.pieces| + |l'.pieces|, u, l'.spot, ts)
    ensures Scanned(x, n, c, n + |Join(l, l').pieces|, u, l'.spot, FlowTokens(FlowItemForms(how, init + [t])))
  {
    hide Scanned, NodeForm, FormTokens, FlowTokens;
    var f := NodeForm(how, t, true, Apart, false);
    assert (init + [t])[..|init|] == init;
    A.MoreFlowEntries(FlowItemForms(how, init), Single(f));
    assert EntryTokens(Single(f)) == FormTokens(f);
    ScannedConcat(x, n, c, n + |l.pieces|, v, l.spot, FlowTokens(FlowItemForms(how, init)), n + |l.pieces| + |l'.pieces|, u, l'.spot,
                  YamlGrammar.Comma(init != []) + FormTokens(f));
  }

  /** A node in a flow collection. */
  lemma {:induction false} FlowNodeScanned(x: Reading, how: Settings, directives: seq<YamlParser.TagDirective>, n: nat, c: Core, s: Spot, t: Tree, level: int,
                                           tie: Tie) returns (u: Core)
    requires Reads(x) && KeysFit(how) && At(x, n, c) && Soft(x, n, c.keys) && c.flow > 0 && (!tie.Apart? ==> level >= 0)
    requires Ahead(x, n, Lay(how, s, Printed(how, t, true, level, tie, false)).pieces) && Legible(how, directives, t, true, false)
    ensures var l := Lay(how, s, Printed(how, t, true, level, tie, false));
      Scanned(x, n, c, n + |l.pieces|, u, l.spot, FormTokens(NodeForm(how, t, true, tie, false)))
    ensures Keyless(c) ==> !Top(u).possible
    decreases t, 2
  {
    hide Reads, KeysFit, At, Ahead, Lay, Scanned, Printed, NodeForm, FormTokens, Legible, Done;
    u := NodeScanned(x, how, directives, n, c, s, t, level, tie);
    var l := Lay(how, s, Printed(how, t, true, level, tie, false));
    DoneScanned(x, n, c, n + |l.pieces|, u, l.spot, level, FormTokens(NodeForm(how, t, true, tie, false)));
  }

  /** An item of a flow sequence. */
  lemma {:induction false} FlowItemScanned(x: Reading, how: Settings, directives: seq<YamlParser.TagDirective>, n: nat, c: Core, s: Spot, t: Tree,
                                           first: bool, level: int) returns (u: Core)
    requires Reads(x) && KeysFit(how) && At(x, n, c) && Soft(x, n, c.keys) && c.flow > 0
    requires Ahead(x, n, Lay(how, s, Separator(first, level) + Printed(how, t, true, level, Apart, false)).pieces) && Legible(how, directives, t, true, false)
    ensures var l := Lay(how, s, Separator(first, level) + Printed(how, t, true, level, Apart, false));
      Scanned(x, n, c, n + |l.pieces|, u, l.spot, YamlGrammar.Comma(!first) + FormTokens(NodeForm(how, t, true, Apart, false)))
    decreases t, 3
  {
    hide Reads, KeysFit, At, Soft, Ahead, Lay, Scanned, Printed, NodeForm, FormTokens, Legible, Separator, Fits;
    var a, b := Separator(first, level), Printed(how, t, true, level, Apart, false);
    LayConcat(how, s, a, b);
    var l := Lay(how, s, a);
    var l' := Lay(how, l.spot, b);
    AheadConcat(x, n, l.pieces, l'.pieces);
    var v := SeparatorScanned(x, how, n, c, s, first, level);
    ScannedIs(x, n, c, n + |l.pieces|, v, l.spot, YamlGrammar.Comma(!first));
    FitsIs(x, n + |l.pieces|, v, l.spot);
    u := FlowNodeScanned(x, how, directives, n + |l.pieces|, v, l.spot, t, level, Apart);
    ScannedConcat(x, n, c, n + |l.pieces|, v, l.spot, YamlGrammar.Comma(!first), n + |l.pieces| + |l'.pieces|, u, l'.spot,
                  FormTokens(NodeForm(how, t, true, Apart, false)));
  }

  lemma {:induction false} FlowPairsScanned(x: Reading, how: Settings, directives: seq<YamlParser.TagDirective>, n: nat, c: Core, s: Spot, pairs: seq<Pair>, level: int)
    returns (u: Core)
    requires Reads(x) && KeysFit(how) && At(x, n, c) && Soft(x, n, c.keys) && c.flow > 0 && c.allowed && !Top(c).possible && level >= 0
    requires Ahead(x, n, Lay(how, s, FlowPairs(how, pairs, level)).pieces) && PairsLegible(how, directives, pairs, true)
    ensures var l := Lay(how, s, FlowPairs(how, pairs, level)); Scanned(x, n, c, n + |l.pieces|, u, l.spot, FlowTokens(PairForms(how, pairs, true)))
    decreases pairs, 0
  {
    hide Reads, KeysFit, At, Soft, Ahead, Lay, Scanned, PairSigns, PairForm, FlowTokens, PairLegible, Separator, Fits, Top;
    if pairs == [] {
      LayNone(how, s);
      u := c;
      FlowNothing(x, n, c, s);
      NoFlowTokens();
    } else {
      var init, p := pairs[..|pairs| - 1], pairs[|pairs| - 1];
      var a, b := FlowPairs(how, init, level), Separator(|pairs| == 1, level) + PairSigns(how, p, true, level);
      LayConcat(how, s, a, b);
      var l := Lay(how, s, a);
      AheadConcat(x, n, l.pieces, Lay(how, l.spot, b).pieces);
      var v := FlowPairsScanned(x, how, directives, n, c, s, init, level);
      var w := v;
      if init == [] {
        LayNone(how, s);
        w := c;
      } else {
        ScannedIs(x, n, c, n + |l.pieces|, v, l.spot, FlowTokens(PairForms(how, init, true)));
        FitsIs(x, n + |l.pieces|, v, l.spot);
      }
      u := FlowPairScanned(x, how, directives, n + |l.pieces|, w, l.spot, p, |pairs| == 1, level);
      FlowPairsGrow(x, how, n, c, w, u, l, Lay(how, l.spot, b), init, p);
    }
  }

  lemma FlowPairsGrow(x: Reading, how: Settings, n: nat, c: Core, v: Core, u: Core, l: Laid, l': Laid, init: seq<Pair>, p: Pair)
    requires if init == [] then v == c && l.pieces == [] else Scanned(x, n, c, n + |l.pieces|, v, l.spot, FlowTokens(PairForms(how, init, true)))
    requires var ts := YamlGrammar.Comma(init != []) + EntryTokens(PairForm(how, p, true));
      Scanned(x, n + |l.pieces|, v, n + |l.pieces| + |l'.pieces|, u, l'.spot, ts)
    ensures Scanned(x, n, c, n + |Join(l, l').pieces|, u, l'.spot, FlowTokens(PairForms(how, init + [p], true)))
  {
    hide Scanned, PairForm, EntryTokens, FlowTokens;
    var e := PairForm(how, p, true);
    assert (init + [p])[..|init|] == init;
    A.MoreFlowEntries(PairForms(how, init, true), e);
    if init == [] {
      NoFlowTokens();
      assert [] + (YamlGrammar.Comma(false) + EntryTokens(e)) == YamlGrammar.Comma(false) + EntryTokens(e);
    } else {
      ScannedConcat(x, n, c, n + |l.pieces|, v, l.spot, FlowTokens(PairForms(how, init, true)), n + |l.pieces| + |l'.pieces|, u, l'.spot,
                    YamlGrammar.Comma(init != []) + EntryTokens(e));
    }
  }

  /** A pair of a flow mapping. */
  lemma {:induction false} FlowPairScanned(x: Reading, how: Settings, directives: seq<YamlParser.TagDirective>, n: nat, c: Core, s: Spot, p: Pair,
                                           first: bool, level: int) returns (u: Core)
    requires Reads(x) && KeysFit(how) && At(x, n, c) && Soft(x, n, c.keys) && c.flow > 0 && (first ==> c.allowed && !Top(c).possible) && level >= 0
    requires Ahead(x, n, Lay(how, s, Separator(first, level) + PairSigns(how, p, true, level)).pieces) && PairLegible(how, directives, p, true)
    ensures var l := Lay(how, s, Separator(first, level) + PairSigns(how, p, true, level));
      Scanned(x, n, c, n + |l.pieces|, u, l.spot, YamlGrammar.Comma(!first) + EntryTokens(PairForm(how, p, true)))
    decreases p, 5
  {
    hide Reads, KeysFit, At, Soft, Ahead, Lay, Scanned, PairSigns, PairForm, EntryTokens, PairLegible, Separator, Fits, Top;
    var a, b := Separator(first, level), PairSigns(how, p, true, level);
    LayConcat(how, s, a, b);
    var l := Lay(how, s, a);
    var l' := Lay(how, l.spot, b);
    AheadConcat(x, n, l.pieces, l'.pieces);
    var v := SeparatorScanned(x, how, n, c, s, first, level);
    ScannedIs(x, n, c, n + |l.pieces|, v, l.spot, YamlGrammar.Comma(!first));
    FitsIs(x, n + |l.pieces|, v, l.spot);
    if Unmarked(how, p.key, true) {
      u := SimplePairScanned(x, how, directives, n + |l.pieces|, v, l.spot, p, level);
    } else {
      u := ComplexPairScanned(x, how, directives, n + |l.pieces|, v, l.spot, p, level);
    }
    ScannedConcat(x, n, c, n + |l.pieces|, v, l.spot, YamlGrammar.Comma(!first), n + |l.pieces| + |l'.pieces|, u, l'.spot,
                  EntryTokens(PairForm(how, p, true)));
  }

  lemma {:induction false} SimplePairScanned(x: Reading, how: Settings, directives: seq<YamlParser.TagDirective>, n: nat, c: Core, s: Spot, p: Pair, level: int)
    returns (u: Core)
    requires Reads(x) && KeysFit(how) && At(x, n, c) && Soft(x, n, c.keys) && c.flow > 0 && c.allowed && !Top(c).possible && level >= 0
    requires Unmarked(how, p.key, true) && Ahead(x, n, Lay(how, s, PairSigns(how, p, true, level)).pieces) && PairLegible(how, directives, p, true)
    ensures var l := Lay(how, s, PairSigns(how, p, true, level)); Scanned(x, n, c, n + |l.pieces|, u, l.spot, EntryTokens(PairForm(how, p, true)))
    decreases p, 4
  {
    hide *;
    match p case Pair(key, value) =>
      PairIs(how, directives, p, true, level);
      UnmarkedIs(how, key, true);
      var a, b := Printed(how, key, true, level, Dense, true) + [Closes(Colon)], Printed(how, value, true, level, Tight, false);
      LaidTwo(x, how, n, s, a, b);
      var first := Lay(how, s, a);
      var m := n + |first.pieces|;
      var v := FlowKeyScanned(x, how, directives, n, c, s, key, level);
      ScannedIs(x, n, c, m, v, first.spot, [YamlGrammar.Sign(KEY)] + FormTokens(NodeForm(how, key, true, Dense, true)) + [YamlGrammar.Sign(VALUE)]);
      FitsIs(x, m, v, first.spot);
      u := FlowNodeScanned(x, how, directives, m, v, first.spot, value, level, Tight);
      ScannedConcat(x, n, c, m, v, first.spot, [YamlGrammar.Sign(KEY)] + FormTokens(NodeForm(how, key, true, Dense, true)) + [YamlGrammar.Sign(VALUE)],
                    m + |Lay(how, first.spot, b).pieces|, u, Lay(how, first.spot, b).spot, FormTokens(NodeForm(how, value, true, Tight, false)));
  }

  lemma UnmarkedIs(how: Settings, key: Tree, inFlow: bool)
    requires Unmarked(how, key, inFlow)
    ensures IsSimpleKey(how, key)
  {
  }

  /** The signs and the tokens of a pair. */
  lemma PairIs(how: Settings, directives: seq<YamlParser.TagDirective>, p: Pair, inFlow: bool, level: int)
    requires PairLegible(how, directives, p, inFlow)
    ensures var simple, tie := Unmarked(how, p.key, inFlow), ValueTie(how, p.key, inFlow);
      var k, v := Printed(how, p.key, inFlow, level, Dense, simple), Printed(how, p.value, inFlow, level, tie, false);
      && tie == (if simple then Tight else Dense)
      && PairSigns(how, p, inFlow, level) ==
        (if simple then (k + [Closes(Colon)]) + v
         else ([Enters(Question, !inFlow)] + k) + ([if inFlow then Wrap(level) else Line(level)] + [Enters(Colon, !inFlow)]) + v)
    ensures var simple, tie := Unmarked(how, p.key, inFlow), ValueTie(how, p.key, inFlow);
      var k, v := FormTokens(NodeForm(how, p.key, inFlow, Dense, simple)), FormTokens(NodeForm(how, p.value, inFlow, tie, false));
      && Legible(how, directives, p.key, inFlow, simple) && Legible(how, directives, p.value, inFlow, false)
      && EntryTokens(PairForm(how, p, inFlow)) == [YamlGrammar.Sign(KEY)] + k + [YamlGrammar.Sign(VALUE)] + v
  {
    hide Printed, NodeForm, FormTokens, Legible, Unmarked;
  }

  /** A simple key in a flow mapping, with its colon. */
  lemma FlowKeyScanned(x: Reading, how: Settings, directives: seq<YamlParser.TagDirective>, n: nat, c: Core, s: Spot, key: Tree, level: int) returns (u: Core)
    requires Reads(x) && KeysFit(how) && At(x, n, c) && Soft(x, n, c.keys) && c.flow > 0 && c.allowed && !Top(c).possible
    requires IsSimpleKey(how, key) && Legible(how, directives, key, true, true)
    requires Ahead(x, n, Lay(how, s, Printed(how, key, true, level, Dense, true) + [Closes(Colon)]).pieces)
    ensures var l := Lay(how, s, Printed(how, key, true, level, Dense, true) + [Closes(Colon)]);
      Scanned(x, n, c, n + |l.pieces|, u, l.spot, [YamlGrammar.Sign(KEY)] + FormTokens(NodeForm(how, key, true, Dense, true)) + [YamlGrammar.Sign(VALUE)])
  {
    hide *;
    var m, b := SimpleKeyAhead(x, how, directives, n, s, key, true, level);
    FlowInside(x, n, c);
    var t := Comes(x, n, c);
    FlowPoised(x, n, c, t);
    u := SimpleKeyScanned(x, how, directives, n, t, s, key, level);
    var l := Lay(how, s, Printed(how, key, true, level, Dense, true) + [Closes(Colon)]);
    FlowUsed(x, n, c, t, u, n + |l.pieces|, l.spot, Spaced(s).column, FormTokens(NodeForm(how, key, true, Dense, true)));
  }

  lemma FlowInside(x: Reading, n: nat, c: Core)
    requires c.flow > 0 && n < |x.pieces|
    ensures Inside(c, x.pieces[n].start.column)
  {
  }

  lemma FlowPoised(x: Reading, n: nat, c: Core, t: Core)
    requires n < |x.pieces| && At(x, n, c) && c.flow > 0 && c.allowed && !Top(c).possible
    requires t == Arrived(c, x.lexemes[n]).(keys := t.keys) && t.mark == x.pieces[n].start && Soft(x, n, t.keys)
    requires Fewer(c, t) && t.allowed == c.allowed
    requires Fetch(t, x.lexemes[n]).Go? ==> Fold(x.lexemes, n + 1) == Check(Fetch(t, x.lexemes[n]).s)
    ensures Poised(x, n, t) && t.flow == c.flow
  {
    hide Fetch, Fold, Soft, Check;
  }

  lemma FlowUsed(x: Reading, n: nat, c: Core, t: Core, u: Core, m: nat, s: Spot, column: nat, ts: seq<Token>)
    requires c.flow > 0 && Fewer(c, t) && ViewOf(x, t) == ViewOf(x, c) && t.flow == c.flow
    requires At(x, m, u) && u.flow == t.flow && Soft(x, m, u.keys) && Lower(t, u) && ViewOf(x, u) == Used(ViewOf(x, t), t.flow, column, ts)
    ensures Scanned(x, n, c, m, u, s, [YamlGrammar.Sign(KEY)] + ts + [YamlGrammar.Sign(VALUE)])
  {
    hide At, Soft, ViewOf;
  }

  lemma {:induction false} ComplexPairScanned(x: Reading, how: Settings, directives: seq<YamlParser.TagDirective>, n: nat, c: Core, s: Spot, p: Pair, level: int)
    returns (u: Core)
    requires Reads(x) && KeysFit(how) && At(x, n, c) && Soft(x, n, c.keys) && c.flow > 0 && level >= 0
    requires !Unmarked(how, p.key, true) && Ahead(x, n, Lay(how, s, PairSigns(how, p, true, level)).pieces) && PairLegible(how, directives, p, true)
    ensures var l := Lay(how, s, PairSigns(how, p, true, level)); Scanned(x, n, c, n + |l.pieces|, u, l.spot, EntryTokens(PairForm(how, p, true)))
    decreases p, 4
  {
    hide *;
    match p case Pair(key, value) =>
      PairIs(how, directives, p, true, level);
      var q, k := [Enters(Question, false)], Printed(how, key, true, level, Dense, false);
      var z, v := [Wrap(level)] + [Enters(Colon, false)], Printed(how, value, true, level, Dense, false);
      LaidTwo(x, how, n, s, q + k + z, v);
      LaidTwo(x, how, n, s, q + k, z);
      LaidTwo(x, how, n, s, q, k);
      var l1 := Lay(how, s, q);
      var l2 := Lay(how, l1.spot, k);
      var l3 := Lay(how, l2.spot, z);
      var l4 := Lay(how, l3.spot, v);
      var ks, vs := FormTokens(NodeForm(how, key, true, Dense, false)), FormTokens(NodeForm(how, value, true, Dense, false));
      var a := FlowMarkScanned(x, how, n, c, s, q, KEY);
      var n1 := n + |l1.pieces|;
      ScannedIs(x, n, c, n1, a, l1.spot, [YamlGrammar.Sign(KEY)]);
      FitsIs(x, n1, a, l1.spot);
      var b := FlowNodeScanned(x, how, directives, n1, a, l1.spot, key, level, Dense);
      var n2 := n1 + |l2.pieces|;
      ScannedIs(x, n1, a, n2, b, l2.spot, ks);
      FitsIs(x, n2, b, l2.spot);
      KeylessIs(a);
      var d := FlowMarkScanned(x, how, n2, b, l2.spot, z, VALUE);
      var n3 := n2 + |l3.pieces|;
      ScannedIs(x, n2, b, n3, d, l3.spot, [YamlGrammar.Sign(VALUE)]);
      FitsIs(x, n3, d, l3.spot);
      u := FlowNodeScanned(x, how, directives, n3, d, l3.spot, value, level, Dense);
      ScannedConcat(x, n, c, n1, a, l1.spot, [YamlGrammar.Sign(KEY)], n2, b, l2.spot, ks);
      ScannedConcat(x, n, c, n2, b, l2.spot, [YamlGrammar.Sign(KEY)] + ks, n3, d, l3.spot, [YamlGrammar.Sign(VALUE)]);
      ScannedConcat(x, n, c, n3, d, l3.spot, [YamlGrammar.Sign(KEY)] + ks + [YamlGrammar.Sign(VALUE)], n3 + |l4.pieces|, u, l4.spot, vs);
  }

  /** A question mark, or the colon of what is no simple key, in a flow mapping. */
  lemma FlowMarkScanned(x: Reading, how: Settings, n: nat, c: Core, s: Spot, signs: seq<Sign>, typ: TokenType) returns (u: Core)
    requires Reads(x) && At(x, n, c) && Soft(x, n, c.keys) && c.flow > 0 && Ahead(x, n, Lay(how, s, signs).pieces)
    requires (typ == KEY && signs == [Enters(Question, false)])
      || (typ == VALUE && !Top(c).possible && exists level :: signs == [Wrap(level)] + [Enters(Colon, false)])
    ensures var l := Lay(how, s, signs); Scanned(x, n, c, n + |l.pieces|, u, l.spot, [YamlGrammar.Sign(typ)])
    ensures !u.allowed && !Top(u).possible
  {
    hide *;
    MarkLaid(how, s, signs, typ);
    AheadFirst(x, n, Lay(how, s, signs).pieces);
    MarkIs(x.pieces[n], typ);
    u := InnerScanned(x, n, c, Lay(how, s, signs).spot);
  }

  predicate Marking(p: Piece, typ: TokenType) {
    p.token == YamlGrammar.Sign(typ) && ((typ == KEY && p.kind.KeyIndicator?) || (typ == VALUE && p.kind.ValueIndicator?) || (typ == BLOCK_ENTRY && p.kind.BlockEntry?))
  }

  lemma MarkIs(p: Piece, typ: TokenType)
    requires Marking(p, typ)
    ensures p.token == YamlGrammar.Sign(TypeOf(p.kind)) && TypeOf(p.kind) == typ && !p.kind.FlowEntry?
    ensures p.kind.BlockEntry? || p.kind.KeyIndicator? || p.kind.ValueIndicator?
    ensures (typ == KEY ==> p.kind.KeyIndicator?) && (typ == VALUE ==> p.kind.ValueIndicator?)
    ensures BeginOf(p.kind) == if typ == BLOCK_ENTRY then BLOCK_SEQUENCE_START else BLOCK_MAPPING_START
  {
  }

  lemma MarkLaid(how: Settings, s: Spot, signs: seq<Sign>, typ: TokenType)
    requires (typ == KEY && signs == [Enters(Question, false)]) || (typ == VALUE && exists level :: signs == [Wrap(level)] + [Enters(Colon, false)])
    ensures |Lay(how, s, signs).pieces| == 1 && Marking(Lay(how, s, signs).pieces[0], typ)
  {
    if typ == KEY {
      LayOne(how, s, Enters(Question, false));
    } else {
      var level :| signs == [Wrap(level)] + [Enters(Colon, false)];
      LayConcat(how, s, [Wrap(level)], [Enters(Colon, false)]);
      LayOne(how, s, Wrap(level));
      LayOne(how, Lay(how, s, [Wrap(level)]).spot, Enters(Colon, false));
    }
  }

  // ---- entries of block collections

  lemma {:induction false} BlockEntriesScanned(x: Reading, how: Settings, directives: seq<YamlParser.TagDirective>, n: nat, c: Core, s: Spot, t: Tree, level: nat)
    returns (u: Core)
    requires (t.SequenceTree? || t.MappingTree?) && Populated(t) && Reads(x) && KeysFit(how) && At(x, n, c) && Idle(x, n, c, s) && c.flow == 0 && c.indent <= level
    requires Ahead(x, n, Lay(how, s, EntrySigns(how, t, false, level)).pieces) && InnerLegible(how, directives, t, false)
    ensures var l := Lay(how, s, EntrySigns(how, t, false, level));
      var m := n + |l.pieces|;
      && At(x, m, u) && Idle(x, m, u, l.spot) && Closed(ViewOf(x, u), level) == Grown(ViewOf(x, c), level, StartOf(t), true, InnerTokens(how, t, false))
    decreases t, 0, 1
  {
    hide Reads, KeysFit, At, Idle, Ahead, Lay, BlockItems, BlockPairs, BlockItemForms, PairForms, ItemTokens, BlockTokens, ItemsLegible, PairsLegible, Closed, Grown;
    if t.SequenceTree? {
      u := BlockItemsScanned(x, how, directives, n, c, s, t.items, level);
    } else {
      u := BlockPairsScanned(x, how, directives, n, c, s, t.pairs, level);
    }
  }

  lemma IdleStays(x: Reading, n: nat, c: Core, s: Spot, level: int)
    requires c.flow == 0 && c.indent <= level
    ensures Closed(ViewOf(x, c), level) == ViewOf(x, c)
  {
  }

  lemma {:induction false} BlockItemsScanned(x: Reading, how: Settings, directives: seq<YamlParser.TagDirective>, n: nat, c: Core, s: Spot, items: seq<Tree>, level: nat)
    returns (u: Core)
    requires Reads(x) && KeysFit(how) && At(x, n, c) && Idle(x, n, c, s) && c.flow == 0 && c.indent <= level
    requires Ahead(x, n, Lay(how, s, BlockItems(how, items, level)).pieces) && ItemsLegible(how, directives, items, false)
    ensures var l := Lay(how, s, BlockItems(how, items, level));
      var m := n + |l.pieces|;
      && At(x, m, u) && Idle(x, m, u, l.spot) && u.flow == 0
      && Closed(ViewOf(x, u), level) == Grown(ViewOf(x, c), level, BLOCK_SEQUENCE_START, items != [], ItemTokens(BlockItemForms(how, items)))
    decreases items, 0
  {
    hide Reads, KeysFit, At, Idle, Ahead, Lay, Printed, NodeForm, FormTokens, ItemTokens, Legible, Closed, Grown, Begun, Plus, ViewOf;
    if items == [] {
      LayNone(how, s);
      u := c;
      IdleStays(x, n, c, s, level);
      GrownNone(ViewOf(x, c), level, BLOCK_SEQUENCE_START, ItemTokens(BlockItemForms(how, items)));
    } else {
      var init, t := items[..|items| - 1], items[|items| - 1];
      var a, b := BlockItems(how, init, level), [Line(level), Enters(Dash, true)] + Printed(how, t, false, level, Apart, false);
      LaidTwo(x, how, n, s, a, b);
      var l := Lay(how, s, a);
      var m := n + |l.pieces|;
      var v := BlockItemsScanned(x, how, directives, n, c, s, init, level);
      GrownNotes(x, c, level, BLOCK_SEQUENCE_START, init != [], ItemTokens(BlockItemForms(how, init)));
      u := BlockItemScanned(x, how, directives, m, v, l.spot, t, level);
      A.MoreItems(BlockItemForms(how, init), NodeForm(how, t, false, Apart, false));
      assert init == [] ==> ItemTokens(BlockItemForms(how, init)) == [] by { NoItemTokens(how); }
      GrownMore(ViewOf(x, c), level, BLOCK_SEQUENCE_START, init != [], ItemTokens(BlockItemForms(how, init)),
                [YamlGrammar.Sign(BLOCK_ENTRY)] + FormTokens(NodeForm(how, t, false, Apart, false)));
    }
  }

  lemma NoItemTokens(how: Settings)
    ensures ItemTokens(BlockItemForms(how, [])) == [] && BlockTokens(PairForms(how, [], false)) == []
  {
  }

  lemma GrownNone(v: View, level: int, typ: TokenType, ts: seq<Token>)
    ensures Grown(v, level, typ, false, ts) == v
  {
  }

  lemma GrownNotes(x: Reading, c: Core, level: int, typ: TokenType, some: bool, ts: seq<Token>)
    requires c.indent <= level
    ensures ViewOf(x, c).indent <= level && Grown(ViewOf(x, c), level, typ, some, ts).indent <= level
  {
  }

  /** A node of a block collection. */
  lemma {:induction false} BlockNodeScanned(x: Reading, how: Settings, directives: seq<YamlParser.TagDirective>, n: nat, c: Core, s: Spot, t: Tree, level: nat,
                                            tie: Tie) returns (u: Core)
    requires Reads(x) && KeysFit(how) && At(x, n, c) && Idle(x, n, c, s) && c.flow == 0 && c.indent == level && level < s.mark.column
    requires Ahead(x, n, Lay(how, s, Printed(how, t, false, level, tie, false)).pieces) && Legible(how, directives, t, false, false)
    ensures var l := Lay(how, s, Printed(how, t, false, level, tie, false));
      var m := n + |l.pieces|;
      && At(x, m, u) && Idle(x, m, u, l.spot) && u.flow == 0
      && Closed(ViewOf(x, u), level) == Plus(ViewOf(x, c), FormTokens(NodeForm(how, t, false, tie, false)))
    decreases t, 2
  {
    hide Reads, KeysFit, At, Ahead, Lay, Printed, NodeForm, FormTokens, Legible, Closed, ViewOf, Idle;
    IdleIs(x, n, c, s);
    u := NodeScanned(x, how, directives, n, c, s, t, level, tie);
    var l := Lay(how, s, Printed(how, t, false, level, tie, false));
    IdleIs(x, n + |l.pieces|, u, l.spot);
  }

  /** A dash, a question mark, or the colon of what is no simple key, in the indentation. */
  lemma BlockMarkScanned(x: Reading, how: Settings, n: nat, c: Core, s: Spot, level: nat, chars: Chars, typ: TokenType) returns (u: Core)
    requires Reads(x) && At(x, n, c) && Idle(x, n, c, s) && Closed(ViewOf(x, c), level).indent <= level
    requires (chars == Dash && typ == BLOCK_ENTRY) || (chars == Question && typ == KEY) || (chars == Colon && typ == VALUE)
    requires Ahead(x, n, Lay(how, s, [Line(level), Enters(chars, true)]).pieces)
    ensures var l := Lay(how, s, [Line(level), Enters(chars, true)]);
      && |l.pieces| == 1 && At(x, n + 1, u) && Idle(x, n + 1, u, l.spot) && u.flow == 0 && u.indent == level < l.spot.mark.column
      && ViewOf(x, u) == Plus(Begun(Closed(ViewOf(x, c), level), level, if typ == BLOCK_ENTRY then BLOCK_SEQUENCE_START else BLOCK_MAPPING_START),
                              [YamlGrammar.Sign(typ)])
  {
    hide *;
    BlockMarkLaid(how, s, level, chars, typ);
    AheadFirst(x, n, Lay(how, s, [Line(level), Enters(chars, true)]).pieces);
    MarkIs(x.pieces[n], typ);
    u := IndicatorScanned(x, n, c, s, how, level);
    BlockMarkFits(x, n, u, Closed(ViewOf(x, c), level), how, s, level, chars, typ);
  }

  lemma BlockMarkLaid(how: Settings, s: Spot, level: nat, chars: Chars, typ: TokenType)
    requires (chars == Dash && typ == BLOCK_ENTRY) || (chars == Question && typ == KEY) || (chars == Colon && typ == VALUE)
    ensures var l := Lay(how, s, [Line(level), Enters(chars, true)]);
      && |l.pieces| == 1 && Marking(l.pieces[0], typ) && l.pieces[0].start == Lined(how, s, level).mark
      && l.spot == Spot(l.pieces[0].end, false, true) && l.pieces[0].end == Right(l.pieces[0].start, 1)
  {
    assert [Line(level), Enters(chars, true)] == [Line(level)] + [Enters(chars, true)];
    LayConcat(how, s, [Line(level)], [Enters(chars, true)]);
    LayOne(how, s, Line(level));
    LayOne(how, Lined(how, s, level), Enters(chars, true));
  }

  lemma BlockMarkFits(x: Reading, n: nat, u: Core, v: View, how: Settings, s: Spot, level: nat, chars: Chars, typ: TokenType)
    requires (chars == Dash && typ == BLOCK_ENTRY) || (chars == Question && typ == KEY) || (chars == Colon && typ == VALUE)
    requires n < |x.pieces| && Lay(how, s, [Line(level), Enters(chars, true)]).pieces == [x.pieces[n]]
    requires u.flow == 0 && u.allowed && !u.keys[0].possible && v.indent <= level
    requires exists b :: ViewOf(x, u) == Plus(Begun(v, level, b), [YamlGrammar.Sign(typ)])
    ensures var l := Lay(how, s, [Line(level), Enters(chars, true)]); Idle(x, n + 1, u, l.spot) && u.indent == level < l.spot.mark.column
  {
    BlockMarkLaid(how, s, level, chars, typ);
    LinedColumn(how, s, level);
    hide Lay, Lined, Marking;
  }

  lemma {:induction false} BlockItemScanned(x: Reading, how: Settings, directives: seq<YamlParser.TagDirective>, n: nat, c: Core, s: Spot, t: Tree, level: nat)
    returns (u: Core)
    requires Reads(x) && KeysFit(how) && At(x, n, c) && Idle(x, n, c, s) && Closed(ViewOf(x, c), level).indent <= level
    requires Ahead(x, n, Lay(how, s, [Line(level), Enters(Dash, true)] + Printed(how, t, false, level, Apart, false)).pieces) && Legible(how, directives, t, false, false)
    ensures var l := Lay(how, s, [Line(level), Enters(Dash, true)] + Printed(how, t, false, level, Apart, false));
      var m := n + |l.pieces|;
      && At(x, m, u) && Idle(x, m, u, l.spot) && u.flow == 0
      && Closed(ViewOf(x, u), level) == Plus(Begun(Closed(ViewOf(x, c), level), level, BLOCK_SEQUENCE_START),
                                             [YamlGrammar.Sign(BLOCK_ENTRY)] + FormTokens(NodeForm(how, t, false, Apart, false)))
    decreases t, 3
  {
    hide *;
    var a, b := [Line(level), Enters(Dash, true)], Printed(how, t, false, level, Apart, false);
    LaidTwo(x, how, n, s, a, b);
    var v := BlockMarkScanned(x, how, n, c, s, level, Dash, BLOCK_ENTRY);
    u := BlockNodeScanned(x, how, directives, n + 1, v, Lay(how, s, a).spot, t, level, Apart);
    PlusPlus(Begun(Closed(ViewOf(x, c), level), level, BLOCK_SEQUENCE_START), [YamlGrammar.Sign(BLOCK_ENTRY)], FormTokens(NodeForm(how, t, false, Apart, false)));
  }

  lemma {:induction false} BlockPairsScanned(x: Reading, how: Settings, directives: seq<YamlParser.TagDirective>, n: nat, c: Core, s: Spot, pairs: seq<Pair>, level: nat)
    returns (u: Core)
    requires Reads(x) && KeysFit(how) && At(x, n, c) && Idle(x, n, c, s) && c.flow == 0 && c.indent <= level
    requires Ahead(x, n, Lay(how, s, BlockPairs(how, pairs, level)).pieces) && PairsLegible(how, directives, pairs, false)
    ensures var l := Lay(how, s, BlockPairs(how, pairs, level));
      var m := n + |l.pieces|;
      && At(x, m, u) && Idle(x, m, u, l.spot) && u.flow == 0
      && Closed(ViewOf(x, u), level) == Grown(ViewOf(x, c), level, BLOCK_MAPPING_START, pairs != [], BlockTokens(PairForms(how, pairs, false)))
    decreases pairs, 0
  {
    hide Reads, KeysFit, At, Idle, Ahead, Lay, PairSigns, PairForm, EntryTokens, BlockTokens, PairLegible, Closed, Grown, Begun, Plus, ViewOf;
    if pairs == [] {
      LayNone(how, s);
      u := c;
      IdleStays(x, n, c, s, level);
      GrownNone(ViewOf(x, c), level, BLOCK_MAPPING_START, BlockTokens(PairForms(how, pairs, false)));
    } else {
      var init, p := pairs[..|pairs| - 1], pairs[|pairs| - 1];
      var a, b := BlockPairs(how, init, level), [Line(level)] + PairSigns(how, p, false, level);
      LaidTwo(x, how, n, s, a, b);
      var l := Lay(how, s, a);
      var m := n + |l.pieces|;
      var v := BlockPairsScanned(x, how, directives, n, c, s, init, level);
      GrownNotes(x, c, level, BLOCK_MAPPING_START, init != [], BlockTokens(PairForms(how, init, false)));
      if Unmarked(how, p.key, false) {
        u := SimpleBlockPairScanned(x, how, directives, m, v, l.spot, p, level);
      } else {
        u := ComplexBlockPairScanned(x, how, directives, m, v, l.spot, p, level);
      }
      A.MoreBlockEntries(PairForms(how, init, false), PairForm(how, p, false));
      assert init == [] ==> BlockTokens(PairForms(how, init, false)) == [] by { NoItemTokens(how); }
      GrownMore(ViewOf(x, c), level, BLOCK_MAPPING_START, init != [], BlockTokens(PairForms(how, init, false)), EntryTokens(PairForm(how, p, false)));
    }
  }

  lemma {:induction false} SimpleBlockPairScanned(x: Reading, how: Settings, directives: seq<YamlParser.TagDirective>, n: nat, c: Core, s: Spot, p: Pair, level: nat)
    returns (u: Core)
    requires Reads(x) && KeysFit(how) && At(x, n, c) && Idle(x, n, c, s) && Closed(ViewOf(x, c), level).indent <= level && Unmarked(how, p.key, false)
    requires Ahead(x, n, Lay(how, s, [Line(level)] + PairSigns(how, p, false, level)).pieces) && PairLegible(how, directives, p, false)
    ensures var l := Lay(how, s, [Line(level)] + PairSigns(how, p, false, level));
      var m := n + |l.pieces|;
      && At(x, m, u) && Idle(x, m, u, l.spot) && u.flow == 0
      && Closed(ViewOf(x, u), level) == Plus(Begun(Closed(ViewOf(x, c), level), level, BLOCK_MAPPING_START), EntryTokens(PairForm(how, p, false)))
    decreases p, 4
  {
    hide *;
    match p case Pair(key, value) =>
      PairIs(how, directives, p, false, level);
      UnmarkedIs(how, key, false);
      var a, b := Printed(how, key, false, level, Dense, true) + [Closes(Colon)], Printed(how, value, false, level, Tight, false);
      assert [Line(level)] + (a + b) == ([Line(level)] + a) + b;
      LaidTwo(x, how, n, s, [Line(level)] + a, b);
      var l := Lay(how, s, [Line(level)] + a);
      var ks, vs := FormTokens(NodeForm(how, key, false, Dense, true)), FormTokens(NodeForm(how, value, false, Tight, false));
      var v := BlockKeyScanned(x, how, directives, n, c, s, key, level);
      u := BlockNodeScanned(x, how, directives, n + |l.pieces|, v, l.spot, value, level, Tight);
      PlusPlus(Begun(Closed(ViewOf(x, c), level), level, BLOCK_MAPPING_START), [YamlGrammar.Sign(KEY)] + ks + [YamlGrammar.Sign(VALUE)], vs);
  }

  /** A simple key in a block mapping, with its colon. */
  lemma BlockKeyScanned(x: Reading, how: Settings, directives: seq<YamlParser.TagDirective>, n: nat, c: Core, s: Spot, key: Tree, level: nat) returns (u: Core)
    requires Reads(x) && KeysFit(how) && At(x, n, c) && Idle(x, n, c, s) && Closed(ViewOf(x, c), level).indent <= level
    requires IsSimpleKey(how, key) && Legible(how, directives, key, false, true)
    requires Ahead(x, n, Lay(how, s, [Line(level)] + (Printed(how, key, false, level, Dense, true) + [Closes(Colon)])).pieces)
    ensures var l := Lay(how, s, [Line(level)] + (Printed(how, key, false, level, Dense, true) + [Closes(Colon)]));
      var m := n + |l.pieces|;
      && At(x, m, u) && Idle(x, m, u, l.spot) && u.flow == 0 && u.indent == level < l.spot.mark.column
      && ViewOf(x, u) == Plus(Begun(Closed(ViewOf(x, c), level), level, BLOCK_MAPPING_START),
                              [YamlGrammar.Sign(KEY)] + FormTokens(NodeForm(how, key, false, Dense, true)) + [YamlGrammar.Sign(VALUE)])
  {
    hide *;
    var signs := Printed(how, key, false, level, Dense, true) + [Closes(Colon)];
    LaidTwo(x, how, n, s, [Line(level)], signs);
    LineLaid(how, s, level);
    var s' := Lined(how, s, level);
    var m, b := SimpleKeyAhead(x, how, directives, n, s', key, false, level);
    var t := LineComes(x, n, c, s, how, level);
    AtIs(x, n, c);
    BlockPoised(x, n, t, level, Closed(ViewOf(x, c), level));
    u := SimpleKeyScanned(x, how, directives, n, t, s', key, level);
    var l := Lay(how, s', signs);
    BlockUsed(x, n + |l.pieces|, u, l.spot, level, Closed(ViewOf(x, c), level), FormTokens(NodeForm(how, key, false, Dense, true)));
  }

  lemma AtIs(x: Reading, n: nat, c: Core)
    requires At(x, n, c)
    ensures |x.lexemes| == |x.pieces|
  {
  }

  lemma LineLaid(how: Settings, s: Spot, level: nat)
    ensures var l := Lay(how, s, [Line(level)]); l == Laid([], Lined(how, s, level)) && l.spot.mark.column == level && Spaced(l.spot) == l.spot.mark
  {
    LayOne(how, s, Line(level));
  }

  lemma BlockPoised(x: Reading, n: nat, t: Core, level: nat, v: View)
    requires n < |x.pieces| == |x.lexemes| && t.flow == 0 && t.allowed && !t.keys[0].possible && Soft(x, n, t.keys) && ViewOf(x, t) == v && v.indent <= level
    requires t.mark == x.pieces[n].start && x.pieces[n].start.column == level
    requires Fetch(t, x.lexemes[n]).Go? ==> Fold(x.lexemes, n + 1) == Check(Fetch(t, x.lexemes[n]).s)
    ensures Poised(x, n, t)
  {
    hide Fetch, Fold, Soft, Check;
  }

  lemma BlockUsed(x: Reading, m: nat, u: Core, s: Spot, level: nat, v: View, ts: seq<Token>)
    requires 0 < m <= |x.pieces| && u.flow == 0 && Soft(x, m, u.keys) && !s.indention && x.pieces[m - 1].end == s.mark && ViewOf(x, u) == Used(v, 0, level, ts)
    requires v.indent <= level < s.mark.column
    ensures Idle(x, m, u, s) && u.indent == level
    ensures Used(v, 0, level, ts) == Plus(Begun(v, level, BLOCK_MAPPING_START), [YamlGrammar.Sign(KEY)] + ts + [YamlGrammar.Sign(VALUE)])
  {
  }

  lemma {:induction false} ComplexBlockPairScanned(x: Reading, how: Settings, directives: seq<YamlParser.TagDirective>, n: nat, c: Core, s: Spot, p: Pair, level: nat)
    returns (u: Core)
    requires Reads(x) && KeysFit(how) && At(x, n, c) && Idle(x, n, c, s) && Closed(ViewOf(x, c), level).indent <= level && !Unmarked(how, p.key, false)
    requires Ahead(x, n, Lay(how, s, [Line(level)] + PairSigns(how, p, false, level)).pieces) && PairLegible(how, directives, p, false)
    ensures var l := Lay(how, s, [Line(level)] + PairSigns(how, p, false, level));
      var m := n + |l.pieces|;
      && At(x, m, u) && Idle(x, m, u, l.spot) && u.flow == 0
      && Closed(ViewOf(x, u), level) == Plus(Begun(Closed(ViewOf(x, c), level), level, BLOCK_MAPPING_START), EntryTokens(PairForm(how, p, false)))
    decreases p, 4
  {
    hide *;
    match p case Pair(key, value) =>
      PairIs(how, directives, p, false, level);
      var q, k := [Line(level), Enters(Question, true)], Printed(how, key, false, level, Dense, false);
      var z, v := [Line(level), Enters(Colon, true)], Printed(how, value, false, level, Dense, false);
      assert [Line(level)] + (([Enters(Question, true)] + k) + ([Line(level)] + [Enters(Colon, true)]) + v) == q + k + z + v;
      LaidTwo(x, how, n, s, q + k + z, v);
      LaidTwo(x, how, n, s, q + k, z);
      LaidTwo(x, how, n, s, q, k);
      var l1 := Lay(how, s, q);
      var l2 := Lay(how, l1.spot, k);
      var l3 := Lay(how, l2.spot, z);
      var ks, vs := FormTokens(NodeForm(how, key, false, Dense, false)), FormTokens(NodeForm(how, value, false, Dense, false));
      var start := Begun(Closed(ViewOf(x, c), level), level, BLOCK_MAPPING_START);
      var a := BlockMarkScanned(x, how, n, c, s, level, Question, KEY);
      var b := BlockNodeScanned(x, how, directives, n + 1, a, l1.spot, key, level, Dense);
      PlusPlus(start, [YamlGrammar.Sign(KEY)], ks);
      var n2 := n + 1 + |l2.pieces|;
      BegunLevel(Closed(ViewOf(x, c), level), level, [YamlGrammar.Sign(KEY)] + ks);
      var d := BlockMarkScanned(x, how, n2, b, l2.spot, level, Colon, VALUE);
      PlusPlus(start, [YamlGrammar.Sign(KEY)] + ks, [YamlGrammar.Sign(VALUE)]);
      u := BlockNodeScanned(x, how, directives, n2 + 1, d, l3.spot, value, level, Dense);
      PlusPlus(start, [YamlGrammar.Sign(KEY)] + ks + [YamlGrammar.Sign(VALUE)], vs);
  }

  /** A mapping that has begun does not begin again. */
  lemma BegunLevel(v: View, level: nat, ts: seq<Token>)
    requires v.indent <= level
    ensures var w := Plus(Begun(v, level, BLOCK_MAPPING_START), ts); w.indent == level && Begun(w, level, BLOCK_MAPPING_START) == w
  {
  }

  // ---- documents and streams

  /** Between documents: no collection is left when the next line begins. */
  ghost predicate Between(x: Reading, n: nat, c: Core, s: Spot, ts: seq<Token>) {
    At(x, n, c) && Idle(x, n, c, s) && Closed(ViewOf(x, c), -1) == View(-1, [], ts)
  }

  /** The mark of a document, from the state in which the scanner has come to it. */
  lemma DocumentMarkFetched(x: Reading, n: nat, t: Core)
    requires Reads(x) && n < |x.pieces| && t.flow == 0 && !t.keys[0].possible
    requires var p := x.pieces[n]; p.kind.DocumentIndicator? && p.token == YamlGrammar.Sign(p.kind.typ) && !Contentful(p.kind.typ)
    ensures var r := Fetch(t, x.lexemes[n]);
      r.Go? && r.s.flow == 0 && !r.s.keys[0].possible && ViewOf(x, r.s) == Plus(Closed(ViewOf(x, t), -1), [x.pieces[n].token])
  {
    var p, l := x.pieces[n], x.lexemes[n];
    assert ReadAt(x, n);
    UnrolledView(x, t, -1);
    var u := Unrolled(t, -1);
    var i := ItemOf(p.kind.typ, l);
    SignOf(x.pieces, i);
    TokensMore(x.pieces, u.stream, i);
    hide TokenOf, TokensOf, InPlace, Tidy, Unrolled, Closed;
  }

  /** The mark of a document is at the beginning of a line. */
  lemma DocumentMarkScanned(x: Reading, how: Settings, n: nat, c: Core, s: Spot, chars: Chars, typ: TokenType, ts: seq<Token>) returns (u: Core)
    requires Reads(x) && Between(x, n, c, s, ts) && ((chars == Dashes && typ == DOCUMENT_START) || (chars == Dots && typ == DOCUMENT_END))
    requires Ahead(x, n, Lay(how, s, [Line(-1), Enters(chars, false)]).pieces)
    ensures var l := Lay(how, s, [Line(-1), Enters(chars, false)]);
      |l.pieces| == 1 && Between(x, n + 1, u, l.spot, ts + [YamlGrammar.Sign(typ)]) && u.indent == -1 && u.indents == []
  {
    DocumentMarkLaid(how, s, chars, typ);
    AheadFirst(x, n, Lay(how, s, [Line(-1), Enters(chars, false)]).pieces);
    hide Lay, Ahead, Reads, Idle, At, ViewOf, Closed, Lined, Fetch, Fold, Soft, Check, Fresh;
    var t := LineComes(x, n, c, s, how, 0);
    DocumentMarkFetched(x, n, t);
    ClosedAgain(ViewOf(x, c), 0, -1);
    var r := Fetch(t, x.lexemes[n]).s;
    CheckedClear(r);
    u := r;
    DocumentMarkIdle(x, n, u, Lay(how, s, [Line(-1), Enters(chars, false)]).spot);
    ClosedOpen(ViewOf(x, u), -1);
    ViewIs(x, u);
  }

  lemma ViewIs(x: Reading, c: Core)
    ensures ViewOf(x, c).indent == c.indent && ViewOf(x, c).indents == c.indents
  {
  }

  lemma DocumentMarkIdle(x: Reading, n: nat, u: Core, s: Spot)
    requires u.flow == 0 && !u.keys[0].possible && n < |x.pieces| && s == Spot(x.pieces[n].end, false, false)
    ensures Idle(x, n + 1, u, s)
  {
  }

  lemma DocumentMarkLaid(how: Settings, s: Spot, chars: Chars, typ: TokenType)
    requires (chars == Dashes && typ == DOCUMENT_START) || (chars == Dots && typ == DOCUMENT_END)
    ensures var l := Lay(how, s, [Line(-1), Enters(chars, false)]);
      && |l.pieces| == 1 && l.pieces[0].kind == DocumentIndicator(typ) && l.pieces[0].token == YamlGrammar.Sign(typ)
      && l.pieces[0].start == Lined(how, s, 0).mark && l.spot == Spot(l.pieces[0].end, false, false)
  {
    assert [Line(-1), Enters(chars, false)] == [Line(-1)] + [Enters(chars, false)];
    LayConcat(how, s, [Line(-1)], [Enters(chars, false)]);
    LayOne(how, s, Line(-1));
    LayOne(how, Lined(how, s, -1), Enters(chars, false));
    assert Lined(how, s, -1) == Lined(how, s, 0);
  }

  /** On to a new line between documents. */
  lemma LineBetween(x: Reading, how: Settings, n: nat, c: Core, s: Spot, ts: seq<Token>)
    requires Between(x, n, c, s, ts)
    ensures Lay(how, s, [Line(-1)]) == Laid([], Lined(how, s, -1)) && Between(x, n, c, Lined(how, s, -1), ts)
  {
    LayOne(how, s, Line(-1));
    LineIdle(x, n, c, s, how, -1);
    hide Idle, Lined;
  }

  /** What stands before the root of a document. */
  lemma StartScanned(x: Reading, how: Settings, n: nat, c: Core, s: Spot, d: Document, first: bool, ts: seq<Token>) returns (u: Core)
    requires Reads(x) && Between(x, n, c, s, ts) && Ahead(x, n, Lay(how, s, StartSigns(how, d.start, first)).pieces)
    requires first ==> c.indent == -1 && c.indents == []
    ensures var l := Lay(how, s, StartSigns(how, d.start, first));
      Between(x, n + |l.pieces|, u, l.spot, ts + MarkTokens(!Bareheaded(how, d.start, first))) && u.indent == -1 && u.indents == []
  {
    hide Lay, Ahead, Reads, Between, Lined;
    var start := [Line(-1), Enters(Dashes, false)];
    if Bareheaded(how, d.start, first) {
      LayNone(how, s);
      u := c;
      assert ts + [] == ts;
    } else if how.canonical {
      LaidTwo(x, how, n, s, start, [Line(-1)]);
      u := DocumentMarkScanned(x, how, n, c, s, Dashes, DOCUMENT_START, ts);
      LineBetween(x, how, n + 1, u, Lay(how, s, start).spot, ts + [YamlGrammar.Sign(DOCUMENT_START)]);
    } else {
      assert StartSigns(how, d.start, first) == start;
      u := DocumentMarkScanned(x, how, n, c, s, Dashes, DOCUMENT_START, ts);
    }
  }

  /** What stands behind the root of a document. */
  lemma EndSignsScanned(x: Reading, how: Settings, n: nat, c: Core, s: Spot, end: bool, ts: seq<Token>) returns (u: Core)
    requires Reads(x) && Between(x, n, c, s, ts) && Ahead(x, n, Lay(how, s, EndSigns(end)).pieces)
    ensures var l := Lay(how, s, EndSigns(end));
      Between(x, n + |l.pieces|, u, l.spot, ts + if end then [] else [YamlGrammar.Sign(DOCUMENT_END)])
  {
    hide Lay, Ahead, Reads, Between, Lined;
    if end {
      LineBetween(x, how, n, c, s, ts);
      assert EndSigns(end) == [Line(-1)];
      u := c;
      assert ts + [] == ts;
    } else {
      var dots := [Line(-1), Enters(Dots, false)];
      assert EndSigns(end) == dots + [Line(-1)];
      LaidTwo(x, how, n, s, dots, [Line(-1)]);
      u := DocumentMarkScanned(x, how, n, c, s, Dots, DOCUMENT_END, ts);
      LineBetween(x, how, n + 1, u, Lay(how, s, dots).spot, ts + [YamlGrammar.Sign(DOCUMENT_END)]);
    }
  }

  /** The root of a document. */
  lemma RootScanned(x: Reading, how: Settings, directives: seq<YamlParser.TagDirective>, n: nat, c: Core, s: Spot, t: Tree, ts: seq<Token>) returns (u: Core)
    requires Reads(x) && KeysFit(how) && Between(x, n, c, s, ts) && c.indent == -1 && c.indents == []
    requires Ahead(x, n, Lay(how, s, Printed(how, t, false, -1, Apart, false)).pieces) && Legible(how, directives, t, false, false)
    ensures var l := Lay(how, s, Printed(how, t, false, -1, Apart, false));
      Between(x, n + |l.pieces|, u, l.spot, ts + FormTokens(NodeForm(how, t, false, Apart, false)))
  {
    hide Lay, Ahead, Reads, Printed, NodeForm, FormTokens, Legible, Idle, At, TokensOf, Closed;
    FlatIs(x, n, c, s);
    IdleIs(x, n, c, s);
    ClosedOpen(ViewOf(x, c), -1);
    u := NodeScanned(x, how, directives, n, c, s, t, -1, Apart);
    IdleIs(x, n + |Lay(how, s, Printed(how, t, false, -1, Apart, false)).pieces|, u, Lay(how, s, Printed(how, t, false, -1, Apart, false)).spot);
  }

  lemma FlatIs(x: Reading, n: nat, c: Core, s: Spot)
    requires Idle(x, n, c, s)
    ensures c.flow == 0
  {
  }

  lemma DocumentScanned(x: Reading, how: Settings, directives: seq<YamlParser.TagDirective>, n: nat, c: Core, s: Spot, d: Document, first: bool, ts: seq<Token>)
    returns (u: Core)
    requires Reads(x) && KeysFit(how) && Between(x, n, c, s, ts) && (first ==> c.indent == -1 && c.indents == [])
    requires Ahead(x, n, Lay(how, s, DocumentSigns(how, d, first)).pieces) && Legible(how, directives, d.root, false, false)
    ensures var l := Lay(how, s, DocumentSigns(how, d, first)); Between(x, n + |l.pieces|, u, l.spot, ts + ScriptTokens(ScriptOf(how, d, first)))
  {
    hide Lay, Ahead, Reads, Between, Lined, KeysFit, Printed, StartSigns, EndSigns, NodeForm, FormTokens, Legible;
    var a, b, z := StartSigns(how, d.start, first), Printed(how, d.root, false, -1, Apart, false), EndSigns(d.end);
    LaidTwo(x, how, n, s, a + b, z);
    LaidTwo(x, how, n, s, a, b);
    var l1 := Lay(how, s, a);
    var l2 := Lay(how, l1.spot, b);
    var marks := MarkTokens(!Bareheaded(how, d.start, first));
    var v := StartScanned(x, how, n, c, s, d, first, ts);
    var w := RootScanned(x, how, directives, n + |l1.pieces|, v, l1.spot, d.root, ts + marks);
    var root := FormTokens(NodeForm(how, d.root, false, Apart, false));
    u := EndSignsScanned(x, how, n + |l1.pieces| + |l2.pieces|, w, l2.spot, d.end, ts + marks + root);
    var end := if d.end then [] else [YamlGrammar.Sign(DOCUMENT_END)];
    assert EndTokens(ScriptOf(how, d, first).ends) == end;
    assert ts + marks + root + end == ts + ([] + marks + root + end);
  }

  lemma {:induction false} DocumentsScanned(x: Reading, how: Settings, docs: seq<Document>) returns (u: Core)
    requires Reads(x) && KeysFit(how) && DocumentsLegible(how, docs) && Ahead(x, 0, Lay(how, TOP, PrintedDocuments(how, docs)).pieces)
    ensures var l := Lay(how, TOP, PrintedDocuments(how, docs));
      Between(x, |l.pieces|, u, l.spot, [YamlGrammar.Sign(STREAM_START)] + ScriptsTokens(ScriptsOf(how, docs)))
    ensures docs == [] ==> u == FIRST
    decreases |docs|
  {
    hide Lay, Ahead, Reads, Between, KeysFit, DocumentSigns, ScriptOf, ScriptTokens, Legible, DirectivesOf;
    if docs == [] {
      LayNone(how, TOP);
      u := FIRST;
      FirstBetween(x);
      assert [YamlGrammar.Sign(STREAM_START)] + [] == [YamlGrammar.Sign(STREAM_START)];
    } else {
      var init, d := docs[..|docs| - 1], docs[|docs| - 1];
      var first := |docs| == 1;
      LaidTwo(x, how, 0, TOP, PrintedDocuments(how, init), DocumentSigns(how, d, first));
      var v := DocumentsScanned(x, how, init);
      var l := Lay(how, TOP, PrintedDocuments(how, init));
      var before := [YamlGrammar.Sign(STREAM_START)] + ScriptsTokens(ScriptsOf(how, init));
      u := DocumentScanned(x, how, DirectivesOf([]), |l.pieces|, v, l.spot, d, first, before);
      A.MoreScripts(ScriptsOf(how, init), ScriptOf(how, d, first));
      assert before + ScriptTokens(ScriptOf(how, d, first))
        == [YamlGrammar.Sign(STREAM_START)] + (ScriptsTokens(ScriptsOf(how, init)) + ScriptTokens(ScriptOf(how, d, first)));
    }
  }

  lemma FirstBetween(x: Reading)
    requires Reads(x)
    ensures Between(x, 0, FIRST, TOP, [YamlGrammar.Sign(STREAM_START)])
  {
    var i := YamlScanner.Item(STREAM_START, ORIGIN, ORIGIN);
    SignOf(x.pieces, i);
    NoTokens(x.pieces);
    TokensMore(x.pieces, [], i);
    assert [] + [i] == [i] && [] + [YamlGrammar.Sign(STREAM_START)] == [YamlGrammar.Sign(STREAM_START)];
    hide TokensOf, ReadAt, Tidy, InPlace;
  }

  /** The end of the text. */
  lemma EndOfText(x: Reading, c: Core, s: Spot, ts: seq<Token>)
    requires Reads(x) && Between(x, |x.pieces|, c, s, ts)
    ensures var r := Whole(x.lexemes, x.end); r.Go? && TokensOf(x.pieces, r.s.stream) == ts + [YamlGrammar.Sign(STREAM_END)]
  {
    SoftChecked(x, |x.pieces|, c.(mark := x.end));
    var t := c.(mark := x.end, keys := Fresh(c.keys, x.end));
    UnrolledView(x, t, x.end.column);
    var u := Unrolled(t, x.end.column);
    var v := u.(mark := LastLine(u.mark));
    UnrolledView(x, v, -1);
    ClosedAgain(ViewOf(x, t), x.end.column, -1);
    var w := Unrolled(v, -1);
    var i := YamlScanner.Item(STREAM_END, w.mark, w.mark);
    SignOf(x.pieces, i);
    TokensMore(x.pieces, w.stream, i);
    hide ReadAt, Tidy, InPlace, TokensOf, Fold, Unrolled, Closed, Fresh, Soft;
    NotNeeded(x, t);
    var r := w.(keys := Removed(w.keys), stream := w.stream + [i], allowed := false);
    CheckedClear(r);
  }

  lemma NotNeeded(x: Reading, t: Core)
    requires t.flow == 0 && Soft(x, |x.pieces|, t.keys)
    ensures !Needed(t.keys) && !Removed(t.keys)[0].possible
  {
  }

  /** What is laid out for a stream is scanned, without an error or a panic, to the tokens of its derivation. */
  lemma StreamScanned(x: Reading, how: Settings, docs: seq<Document>)
    requires Reads(x) && KeysFit(how) && DocumentsLegible(how, docs) && x.pieces == Lay(how, TOP, PrintedDocuments(how, docs)).pieces
    ensures var r := Whole(x.lexemes, x.end); r.Go? && TokensOf(x.pieces, r.s.stream) == StreamTokens(ScriptsOf(how, docs))
  {
    hide *;
    AheadAll(x);
    var u := DocumentsScanned(x, how, docs);
    EndOfText(x, u, Lay(how, TOP, PrintedDocuments(how, docs)).spot, [YamlGrammar.Sign(STREAM_START)] + ScriptsTokens(ScriptsOf(how, docs)));
    StreamTokensAre(ScriptsOf(how, docs));
  }

  lemma AheadAll(x: Reading)
    ensures Ahead(x, 0, x.pieces)
  {
  }

  lemma StreamTokensAre(ds: seq<Script>)
    ensures StreamTokens(ds) == [YamlGrammar.Sign(STREAM_START)] + ScriptsTokens(ds) + [YamlGrammar.Sign(STREAM_END)]
  {
  }
}
