/** The round trip: what the emitter lays out for a stream is scanned to tokens, and parsed to the same documents. */
module YamlRoundTrip {
  import opened Basics
  import opened YamlEvents
  import opened YamlTokens
  import opened YamlParser
  import opened YamlGrammar
  import opened YamlLayout
  import opened YamlForms
  import opened YamlPlaced
  import S = YamlScanner
  import C = YamlComposer

  // ---- reading what is laid

  /** The scanner reads on behind plain scalars and block scalars, up to the next piece. */
  predicate ReadsOn(p: Piece) {
    p.kind.BlockScalar? || (p.kind == S.Kind.Content(SCALAR, false) && p.token.plain)
  }

  function StartFrom(pieces: seq<Piece>, end: S.Mark, i: nat): (r: S.Mark) {
    if i < |pieces| then pieces[i].start else end
  }

  function LexemeOf(pieces: seq<Piece>, end: S.Mark, i: nat): (r: S.Lexeme)
    requires i < |pieces|
  {
    var p, next := pieces[i], StartFrom(pieces, end, i + 1);
    var broken := p.kind.Content? && ReadsOn(p) && p.end.line < next.line;
    S.Lexeme(if broken then S.Kind.Content(SCALAR, true) else p.kind,
             i > 0 && !ReadsOn(pieces[i - 1]) && pieces[i - 1].end.line < p.start.line,
             p.start, if ReadsOn(p) then next else p.end, true)
  }

  function LexemesOf(pieces: seq<Piece>, end: S.Mark): (r: seq<S.Lexeme>) {
    seq(|pieces|, i requires 0 <= i < |pieces| => LexemeOf(pieces, end, i))
  }

  /** What is laid can be read. */
  lemma CanBeRead(how: Settings, signs: seq<Sign>, end: S.Mark)
    requires S.AtOrBefore(Lay(how, TOP, signs).spot.mark, end)
    ensures var pieces := Lay(how, TOP, signs).pieces; Reads(Reading(pieces, LexemesOf(pieces, end), end))
  {
    var l := Lay(how, TOP, signs);
    LayInPlace(how, TOP, signs);
    AllBare(how, TOP, signs);
    hide Lay;
    var x := Reading(l.pieces, LexemesOf(l.pieces, end), end);
    UpTo(l.pieces, S.ORIGIN, l.spot.mark, end);
    forall i | 0 <= i < |l.pieces| ensures ReadAt(x, i) {
      assert l.pieces[i] in l.pieces;
      LexemeReads(x, i);
    }
    forall i | 0 < i < |l.pieces| && !x.lexemes[i].newLine
      ensures x.lexemes[i - 1].end.line == x.lexemes[i].start.line || S.ReadsBreaks(x.lexemes[i - 1].kind)
    {
      assert S.AtOrBefore(l.pieces[i - 1].end, l.pieces[i].start);
    }
  }

  lemma UpTo(pieces: seq<Piece>, from: S.Mark, to: S.Mark, end: S.Mark)
    requires InPlace(pieces, from, to) && S.AtOrBefore(to, end)
    ensures InPlace(pieces, from, end)
  {
  }

  lemma LexemeReads(x: Reading, i: nat)
    requires x.lexemes == LexemesOf(x.pieces, x.end) && InPlace(x.pieces, S.ORIGIN, x.end) && i < |x.pieces| && YamlLayout.Bare(x.pieces[i])
    ensures ReadAt(x, i)
  {
    if i > 0 {
      assert S.AtOrBefore(x.pieces[i - 1].end, x.pieces[i].start);
    }
    if i + 1 < |x.pieces| {
      assert S.AtOrBefore(x.pieces[i].end, x.pieces[i + 1].start);
    }
  }

  // ---- whole streams

  /** What the emitter writes for a stream: with a mark behind it if the last scalar is open-ended. */
  predicate Issued(how: Settings, docs: seq<Document>, signs: seq<Sign>) {
    signs == PrintedDocuments(how, docs)
    || (docs != [] && docs[|docs| - 1].end && signs == PrintedDocuments(how, docs) + DOTS)
  }

  /** The documents with the last one ended explicitly. */
  function Marked(docs: seq<Document>): (r: seq<Document>)
    requires docs != []
  {
    docs[|docs| - 1 := docs[|docs| - 1].(end := false)]
  }

  /** A mark behind a stream is one of its last document. */
  lemma OpenEnd(how: Settings, docs: seq<Document>)
    requires docs != [] && docs[|docs| - 1].end
    ensures PrintedDocuments(how, docs) + DOTS == PrintedDocuments(how, Marked(docs))
  {
    hide Printed, StartSigns;
    assert Marked(docs)[..|docs| - 1] == docs[..|docs| - 1];
  }

  /** The same roots. */
  predicate SameRoots(a: seq<Document>, b: seq<Document>) {
    |a| == |b| && forall i | 0 <= i < |a| :: Same(a[i].root, b[i].root)
  }

  /** The round trip: whatever the emitter writes for a legible stream, and however the scanner reads it, it is scanned to its
      end, and from the tokens the parser delivers the events of the same documents, unless the first one vanishes. */
  lemma RoundTrip(how: Settings, docs: seq<Document>, signs: seq<Sign>, x: Reading) returns (again: seq<Document>)
    requires DocumentsLegible(how, docs) && KeysFit(how) && Issued(how, docs, signs)
    requires x.pieces == Lay(how, TOP, signs).pieces && Reads(x)
    ensures SameRoots(docs, again)
    ensures var r := S.Whole(x.lexemes, x.end);
      && r.Go?
      && (!Vanishes(how, docs) ==>
            var o := After(TokensOf(x.pieces, r.s.stream), Initial, StreamEvents(again)); o.Some? && o.value.state == EndState)
  {
    hide *;
    var docs' := Printing(how, docs, signs);
    StreamScanned(x, how, docs');
    StreamReread(how, docs');
    again := DocumentsOf(ScriptsOf(how, docs'));
    SameRootsAre(docs, docs', again);
    if !Vanishes(how, docs') {
      StreamParsed(StreamTokens(ScriptsOf(how, docs')), ScriptsOf(how, docs'));
    }
  }

  /** The documents that the signs are printed for. */
  lemma Printing(how: Settings, docs: seq<Document>, signs: seq<Sign>) returns (docs': seq<Document>)
    requires DocumentsLegible(how, docs) && Issued(how, docs, signs)
    ensures signs == PrintedDocuments(how, docs') && DocumentsLegible(how, docs') && (Vanishes(how, docs') <==> Vanishes(how, docs))
    ensures |docs'| == |docs| && forall i | 0 <= i < |docs| :: docs'[i].root == docs[i].root
  {
    if signs == PrintedDocuments(how, docs) {
      docs' := docs;
    } else {
      hide Legible, NodeForm, PrintedDocuments;
      OpenEnd(how, docs);
      docs' := Marked(docs);
      forall d | d in docs' ensures Legible(how, DirectivesOf([]), d.root, false, false) {
        var i :| 0 <= i < |docs'| && docs'[i] == d;
        assert docs[i] in docs && docs[i].root == d.root;
      }
    }
  }

  lemma SameRootsAre(docs: seq<Document>, docs': seq<Document>, again: seq<Document>)
    requires |docs'| == |docs| && (forall i | 0 <= i < |docs| :: docs'[i].root == docs[i].root) && SameDocuments(docs', again)
    ensures SameRoots(docs, again)
  {
    hide Same;
  }

  // ---- different documents are laid out differently

  lemma {:induction false} Alike(a: Tree, b: Tree, c: Tree)
    requires Same(a, c) && Same(b, c)
    ensures Same(a, b)
    decreases a, 1
  {
    match a {
      case SequenceTree(_, _, items) => ItemsAlike(items, b.items, c.items);
      case MappingTree(_, _, pairs) => PairsAlike(pairs, b.pairs, c.pairs);
      case _ =>
    }
  }

  lemma {:induction false} ItemsAlike(a: seq<Tree>, b: seq<Tree>, c: seq<Tree>)
    requires SameItems(a, c) && SameItems(b, c)
    ensures SameItems(a, b)
    decreases a, 0
  {
    if a != [] {
      ItemsAlike(a[..|a| - 1], b[..|b| - 1], c[..|c| - 1]);
      Alike(a[|a| - 1], b[|b| - 1], c[|c| - 1]);
    }
  }

  lemma {:induction false} PairsAlike(a: seq<Pair>, b: seq<Pair>, c: seq<Pair>)
    requires SamePairs(a, c) && SamePairs(b, c)
    ensures SamePairs(a, b)
    decreases a, 0
  {
    if a != [] {
      PairsAlike(a[..|a| - 1], b[..|b| - 1], c[..|c| - 1]);
      PairAlike(a[|a| - 1], b[|b| - 1], c[|c| - 1]);
    }
  }

  lemma {:induction false} PairAlike(a: Pair, b: Pair, c: Pair)
    requires SamePair(a, c) && SamePair(b, c)
    ensures SamePair(a, b)
    decreases a, 2
  {
    match a case Pair(key, value) =>
      Alike(key, b.key, c.key);
      Alike(value, b.value, c.value);
  }

  lemma RootsAlike(a: seq<Document>, b: seq<Document>, c: seq<Document>)
    requires SameRoots(a, c) && SameRoots(b, c)
    ensures SameRoots(a, b)
  {
    hide Same;
    forall i | 0 <= i < |a| ensures Same(a[i].root, b[i].root) {
      Alike(a[i].root, b[i].root, c[i].root);
    }
  }

  /** So what is laid out determines the documents: two streams that look alike on the page have the same roots. */
  lemma LaidAlike(how: Settings, docs: seq<Document>, docs': seq<Document>, signs: seq<Sign>, signs': seq<Sign>)
    requires DocumentsLegible(how, docs) && DocumentsLegible(how, docs') && KeysFit(how)
    requires Issued(how, docs, signs) && Issued(how, docs', signs') && !Vanishes(how, docs) && !Vanishes(how, docs')
    requires Lay(how, TOP, signs).pieces == Lay(how, TOP, signs').pieces
    ensures SameRoots(docs, docs')
  {
    hide *;
    var end := Furthest(Lay(how, TOP, signs).spot.mark, Lay(how, TOP, signs').spot.mark);
    var pieces := Lay(how, TOP, signs).pieces;
    CanBeRead(how, signs, end);
    var x := Reading(pieces, LexemesOf(pieces, end), end);
    var again := RoundTrip(how, docs, signs, x);
    var again' := RoundTrip(how, docs', signs', x);
    var tokens := TokensOf(x.pieces, S.Whole(x.lexemes, x.end).s.stream);
    OneEnd(tokens, StreamEvents(again), StreamEvents(again'));
    StreamIsUnique(again, again');
    RootsAlike(docs, docs', again);
  }

  lemma OneEnd(tokens: seq<Token>, a: seq<Event>, b: seq<Event>)
    requires After(tokens, Initial, a).Some? && After(tokens, Initial, a).value.state == EndState
    requires After(tokens, Initial, b).Some? && After(tokens, Initial, b).value.state == EndState
    ensures a == b
  {
    hide After;
    if |a| <= |b| {
      C.SameDelivered(tokens, Initial, a, b);
      C.NoneBehind(tokens, Initial, a, b);
    } else {
      C.SameDelivered(tokens, Initial, b, a);
      C.NoneBehind(tokens, Initial, b, a);
    }
  }

  lemma Furthest(a: S.Mark, b: S.Mark) returns (m: S.Mark)
    ensures S.AtOrBefore(a, m) && S.AtOrBefore(b, m)
  {
    m := S.Mark(a.index + b.index, a.line + b.line + 1, 0);
  }

  /** A document that vanishes: an empty plain scalar without properties, alone in an unmarked document. Nothing is printed
      for it, and the parser delivers a stream without documents. */
  lemma EmptyDocumentIsLost(how: Settings, docs: seq<Document>)
    requires docs == [Document(true, EMPTY_TREE, true)] && !how.canonical
    requires how.content(Head(EMPTY_TREE), false, false) == Writing(Written(None, None, false), None)
    ensures DocumentsLegible(how, docs) && Vanishes(how, docs)
    ensures StreamTokens(ScriptsOf(how, docs)) == StreamTokens([])
    ensures var o := After(StreamTokens([]), Initial, StreamEvents([])); o.Some? && o.value.state == EndState
  {
    var d := docs[0];
    hide DirectivesOf, After;
    assert docs[..0] == [];
    assert ScriptsOf(how, docs) == [ScriptOf(how, d, true)];
    assert ScriptTokens(ScriptOf(how, d, true)) == [];
    assert [ScriptOf(how, d, true)][..0] == [];
    StreamParsed(StreamTokens([]), []);
    assert DocumentsOf([]) == [];
  }
}
