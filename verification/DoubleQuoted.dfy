/** Double-quoted scalars: what the emitter writes, and what the scanner reads back.

    Text is bytes in UTF-8 (RFC 3629). The writer's output buffer is taken as the
    logical output, and the reader's buffer as the whole input with a NUL behind it. */
module DoubleQuoted {
  import opened Basics

  type Byte = b: int | 0 <= b < 256

  // A Unicode scalar value.
  type Rune = c: int | 0 <= c < 0xD800 || 0xE000 <= c <= 0x10FFFF

  datatype LineBreak = CR | LN | CRLN | NEL | LS | PS

  // The ones that are written.
  type WrittenBreak = b: LineBreak | b.CR? || b.LN? || b.CRLN? witness LN

  const QUOTE: Byte := 0x22
  const BACKSLASH: Byte := 0x5C
  const SPACE: Byte := 0x20

  // ---- UTF-8

  function Encode(c: Rune): (r: seq<Byte>)
    ensures 1 <= |r| <= 4 && Width(r[0]) == |r|
  {
    if c <= 0x7F then [c]
    else if c <= 0x7FF then [0xC0 + c / 64, 0x80 + c % 64]
    else if c <= 0xFFFF then [0xE0 + c / 4096, 0x80 + c / 64 % 64, 0x80 + c % 64]
    else [0xF0 + c / 262144, 0x80 + c / 4096 % 64, 0x80 + c / 64 % 64, 0x80 + c % 64]
  }

  function EncodeAll(cs: seq<Rune>): (r: seq<Byte>) {
    if cs == [] then [] else EncodeAll(cs[..|cs| - 1]) + Encode(cs[|cs| - 1])
  }

  /** The width of a character, from its first byte. */
  function Width(b: Byte): (w: nat) {
    if b < 0x80 then 1
    else if 0xC0 <= b < 0xE0 then 2
    else if 0xE0 <= b < 0xF0 then 3
    else if 0xF0 <= b < 0xF8 then 4
    else 0
  }

  /** The byte at `i`, and NUL behind the end. */
  function At(b: seq<Byte>, i: nat): (r: Byte) {
    if i < |b| then b[i] else 0
  }

  // ---- classes of characters

  predicate IsPrintable(b: seq<Byte>, i: nat) {
    || At(b, i) == 0x0A
    || 0x20 <= At(b, i) <= 0x7E
    || (At(b, i) == 0xC2 && At(b, i + 1) >= 0xA0)
    || 0xC2 < At(b, i) < 0xED
    || (At(b, i) == 0xED && At(b, i + 1) < 0xA0)
    || At(b, i) == 0xEE
    || (At(b, i) == 0xEF
        && !(At(b, i + 1) == 0xBB && At(b, i + 2) == 0xBF)
        && !(At(b, i + 1) == 0xBF && (At(b, i + 2) == 0xBE || At(b, i + 2) == 0xBF)))
  }

  /** Whatever the position, it is the start of the buffer that is looked at. */
  predicate IsBom(b: seq<Byte>, i: nat) {
    At(b, 0) == 0xEF && At(b, 1) == 0xBB && At(b, 2) == 0xBF
  }

  predicate IsBlank(b: seq<Byte>, i: nat) {
    At(b, i) == 0x20 || At(b, i) == 0x09
  }

  predicate IsBreak(b: seq<Byte>, i: nat) {
    || At(b, i) == 0x0D
    || At(b, i) == 0x0A
    || (At(b, i) == 0xC2 && At(b, i + 1) == 0x85)
    || (At(b, i) == 0xE2 && At(b, i + 1) == 0x80 && (At(b, i + 2) == 0xA8 || At(b, i + 2) == 0xA9))
  }

  predicate IsBlankz(b: seq<Byte>, i: nat) {
    IsBlank(b, i) || IsBreak(b, i) || At(b, i) == 0
  }

  predicate IsHex(b: Byte) {
    0x30 <= b <= 0x39 || 0x41 <= b <= 0x46 || 0x61 <= b <= 0x66
  }

  function AsHex(b: Byte): (r: nat)
    requires IsHex(b)
    ensures r < 16
  {
    if 0x41 <= b <= 0x46 then b - 0x41 + 10
    else if 0x61 <= b <= 0x66 then b - 0x61 + 10
    else b - 0x30
  }

  // ---- escapes

  /** The letter that the writer escapes `c` with, or 0. */
  function Letter(c: Rune): (r: Byte) {
    match c
    case 0x00 => '0' as int
    case 0x07 => 'a' as int
    case 0x08 => 'b' as int
    case 0x09 => 't' as int
    case 0x0A => 'n' as int
    case 0x0B => 'v' as int
    case 0x0C => 'f' as int
    case 0x0D => 'r' as int
    case 0x1B => 'e' as int
    case 0x22 => QUOTE
    case 0x5C => BACKSLASH
    case 0x85 => 'N' as int
    case 0xA0 => '_' as int
    case 0x2028 => 'L' as int
    case 0x2029 => 'P' as int
    case _ => 0
  }

  /** What the scanner takes an escape letter for, if it is not the start of a code. */
  function Escaped(letter: Byte): (r: Option<seq<Byte>>) {
    if letter == '0' as int then Some([0])
    else if letter == 'a' as int then Some([0x07])
    else if letter == 'b' as int then Some([0x08])
    else if letter == 't' as int || letter == 0x09 then Some([0x09])
    else if letter == 'n' as int then Some([0x0A])
    else if letter == 'v' as int then Some([0x0B])
    else if letter == 'f' as int then Some([0x0C])
    else if letter == 'r' as int then Some([0x0D])
    else if letter == 'e' as int then Some([0x1B])
    else if letter == SPACE then Some([0x20])
    else if letter == QUOTE then Some([0x22])
    else if letter == 0x27 then Some([0x27])
    else if letter == BACKSLASH then Some([0x5C])
    else if letter == 'N' as int then Some([0xC2, 0x85])
    else if letter == '_' as int then Some([0xC2, 0xA0])
    else if letter == 'L' as int then Some([0xE2, 0x80, 0xA8])
    else if letter == 'P' as int then Some([0xE2, 0x80, 0xA9])
    else None
  }

  function CodeLength(letter: Byte): (r: nat) {
    if letter == 'x' as int then 2 else if letter == 'u' as int then 4 else if letter == 'U' as int then 8 else 0
  }

  function Digit(d: nat): (r: Byte)
    requires d < 16
    ensures IsHex(r) && AsHex(r) == d
  {
    if d < 10 then 0x30 + d else 0x41 + d - 10
  }

  function Hex(v: nat, w: nat): (r: seq<Byte>)
    ensures |r| == w && forall i | 0 <= i < w :: IsHex(r[i])
  {
    if w == 0 then [] else Hex(v / 16, w - 1) + [Digit(v % 16)]
  }

  function HexValue(bs: seq<Byte>): (r: nat)
    requires forall i | 0 <= i < |bs| :: IsHex(bs[i])
  {
    if bs == [] then 0 else HexValue(bs[..|bs| - 1]) * 16 + AsHex(bs[|bs| - 1])
  }

  function Pow16(n: nat): (r: nat)
    ensures r > 0
  {
    if n == 0 then 1 else 16 * Pow16(n - 1)
  }

  lemma {:induction false} HexRoundTrip(v: nat, w: nat)
    requires v < Pow16(w)
    ensures HexValue(Hex(v, w)) == v
  {
    if w > 0 {
      HexRoundTrip(v / 16, w - 1);
      assert Hex(v, w)[..w - 1] == Hex(v / 16, w - 1);
    }
  }

  /** The width of the hexadecimal code of `c`. */
  function CodeWidth(c: Rune): (r: nat)
    ensures c < Pow16(r) && (r == 2 || r == 4 || r == 8)
  {
    assert Pow16(2) == 256;
    assert Pow16(4) == 65536;
    assert Pow16(8) == 256 * Pow16(6) && Pow16(6) == 16777216;
    if c <= 0xFF then 2 else if c <= 0xFFFF then 4 else 8
  }

  function CodeLetter(c: Rune): (r: Byte)
    ensures CodeLength(r) == CodeWidth(c)
  {
    if c <= 0xFF then 'x' as int else if c <= 0xFFFF then 'u' as int else 'U' as int
  }

  // ---- what escapes stand for

  const LOWER_DIGITS := "0123456789abcdef"
  const UPPER_DIGITS := "0123456789ABCDEF"

  predicate IsDigitFor(b: Byte, d: nat) {
    d < 16 && (b == LOWER_DIGITS[d] as int || b == UPPER_DIGITS[d] as int)
  }

  lemma DigitIs(b: Byte, d: nat)
    requires IsDigitFor(b, d)
    ensures IsHex(b) && AsHex(b) == d
  {
  }

  lemma KnownDigit(b: Byte)
    requires IsHex(b)
    ensures IsDigitFor(b, AsHex(b))
  {
  }

  /** The scanner knows the sixteen digits in both cases, and no others. */
  lemma DigitsAre(b: Byte)
    ensures IsHex(b) <==> exists d :: IsDigitFor(b, d)
    ensures IsHex(b) ==> forall d :: IsDigitFor(b, d) <==> d == AsHex(b)
  {
    hide IsDigitFor, IsHex, AsHex;
    forall d | IsDigitFor(b, d) ensures IsHex(b) && AsHex(b) == d {
      DigitIs(b, d);
    }
    if IsHex(b) {
      KnownDigit(b);
    }
  }

  /** The digits are those of the number `v`. */
  ghost predicate Denotes(digits: seq<Byte>, v: nat) {
    if digits == [] then v == 0
    else IsDigitFor(digits[|digits| - 1], v % 16) && Denotes(digits[..|digits| - 1], v / 16)
  }

  lemma {:induction false} DenotesIs(digits: seq<Byte>, v: nat)
    requires forall i | 0 <= i < |digits| :: IsHex(digits[i])
    ensures Denotes(digits, v) <==> v == HexValue(digits)
  {
    if digits != [] {
      var init, last := digits[..|digits| - 1], digits[|digits| - 1];
      DigitsAre(last);
      DenotesIs(init, v / 16);
      assert v == v / 16 * 16 + v % 16;
      hide IsDigitFor, IsHex, AsHex;
      assert (HexValue(init) * 16 + AsHex(last)) / 16 == HexValue(init) && (HexValue(init) * 16 + AsHex(last)) % 16 == AsHex(last);
    }
  }

  lemma {:induction false} DenotedDigits(digits: seq<Byte>, v: nat)
    requires Denotes(digits, v)
    ensures forall i | 0 <= i < |digits| :: IsHex(digits[i])
  {
    if digits != [] {
      var init, last := digits[..|digits| - 1], digits[|digits| - 1];
      DigitsAre(last);
      DenotedDigits(init, v / 16);
      assert digits == init + [last];
    }
  }

  /** The character that a letter behind a backslash names (section 5.7 of YAML 1.1, and the single quote). */
  function Named(letter: Byte): (r: Option<Rune>) {
    match letter
    case 0x09 => Some(0x09)
    case 0x20 => Some(0x20)
    case 0x22 => Some(0x22)
    case 0x27 => Some(0x27)
    case 0x30 => Some(0)          // 0
    case 0x4C => Some(0x2028)     // L
    case 0x4E => Some(0x85)       // N
    case 0x50 => Some(0x2029)     // P
    case 0x5C => Some(0x5C)
    case 0x5F => Some(0xA0)       // _
    case 0x61 => Some(7)          // a
    case 0x62 => Some(8)          // b
    case 0x65 => Some(0x1B)       // e
    case 0x66 => Some(0x0C)       // f
    case 0x6E => Some(0x0A)       // n
    case 0x72 => Some(0x0D)       // r
    case 0x74 => Some(0x09)       // t
    case 0x76 => Some(0x0B)       // v
    case _ => None
  }

  /** The scanner has the bytes of the characters named. */
  lemma EscapedIs(letter: Byte)
    ensures Escaped(letter) == match Named(letter) case Some(c) => Some(Encode(c)) case None => None
    ensures CodeLength(letter) > 0 ==> Named(letter) == None && letter != 0
    ensures Named(letter).Some? ==> letter !in {0, 0x0D, 0x0A, 0xC2, 0xE2}
  {
  }

  // ---- the pieces that the text between the quotes is made of

  datatype Notation = ByName(letter: Byte) | ByCode(digits: seq<Byte>)

  // What stands between two lines: line breaks, and blanks that do not count.
  datatype Filler = Skip(b: Byte) | Break(kind: LineBreak)

  datatype Piece =
    | Escape(c: Rune, notation: Notation)
    | Literal(text: seq<Byte>)
    | White(before: seq<Byte>, lines: seq<Filler>)   // blanks, or a folded line
    | Joined(lines: seq<Filler>)   // an escaped line break

  predicate IsBlankByte(b: Byte) {
    b == SPACE || b == 0x09
  }

  /** A character that may stand for itself. */
  predicate Plain(text: seq<Byte>) {
    text != [] && Width(text[0]) == |text| && !IsBlankz(text, 0) && text[0] != QUOTE && text[0] != BACKSLASH
  }

  ghost predicate NotationOk(c: Rune, n: Notation) {
    match n
    case ByName(letter) => Named(letter) == Some(c)
    case ByCode(digits) => (|digits| == 2 || |digits| == 4 || |digits| == 8) && Denotes(digits, c)
  }

  predicate LinesOk(lines: seq<Filler>) {
    && (lines != [] ==> lines[0].Break?)
    && (forall i | 0 <= i < |lines| :: lines[i].Skip? ==> IsBlankByte(lines[i].b))
    && (forall i | 0 < i < |lines| :: !(lines[i - 1] == Break(CR) && lines[i] == Break(LN)))
  }

  ghost predicate PieceOk(p: Piece) {
    match p
    case Escape(c, n) => NotationOk(c, n)
    case Literal(text) => Plain(text)
    case White(before, lines) => (before != [] || lines != []) && (forall i | 0 <= i < |before| :: IsBlankByte(before[i])) && LinesOk(lines)
    case Joined(lines) => lines != [] && LinesOk(lines)
  }

  /** The white space between two characters is one piece. */
  predicate Neighbours(p: Piece, q: Piece) {
    p.White? || p.Joined? ==> !q.White?
  }

  ghost predicate WellPieced(ps: seq<Piece>) {
    && (forall k | 0 <= k < |ps| :: PieceOk(ps[k]))
    && (forall k | 0 < k < |ps| :: Neighbours(ps[k - 1], ps[k]))
  }

  function CodeText(digits: seq<Byte>): (r: seq<Byte>) {
    [if |digits| == 2 then 'x' as int else if |digits| == 4 then 'u' as int else 'U' as int] + digits
  }

  function EscapeText(n: Notation): (r: seq<Byte>)
    ensures |r| >= 1
  {
    [BACKSLASH] + match n case ByName(letter) => [letter] case ByCode(digits) => CodeText(digits)
  }

  function BreakText(b: LineBreak): (r: seq<Byte>)
    ensures 1 <= |r| <= 3
  {
    match b
    case CR => [0x0D]
    case LN => [0x0A]
    case CRLN => [0x0D, 0x0A]
    case NEL => [0xC2, 0x85]
    case LS => [0xE2, 0x80, 0xA8]
    case PS => [0xE2, 0x80, 0xA9]
  }

  /** All but two kinds of line breaks become a line feed. */
  function BreakValue(b: LineBreak): (r: seq<Byte>) {
    if b == LS || b == PS then BreakText(b) else [0x0A]
  }

  function FillerText(f: Filler): (r: seq<Byte>) {
    match f case Skip(b) => [b] case Break(kind) => BreakText(kind)
  }

  function LinesText(lines: seq<Filler>): (r: seq<Byte>) {
    if lines == [] then [] else LinesText(lines[..|lines| - 1]) + FillerText(lines[|lines| - 1])
  }

  /** The line breaks behind the first one, which stand for themselves. */
  function MoreBreaks(lines: seq<Filler>): (r: seq<Byte>) {
    if |lines| <= 1 then []
    else MoreBreaks(lines[..|lines| - 1]) + match lines[|lines| - 1] case Skip(_) => [] case Break(kind) => BreakValue(kind)
  }

  /** A single line break becomes a space, and is dropped in front of others, unless it separates lines or paragraphs. */
  function Folded(lines: seq<Filler>): (r: seq<Byte>)
    requires lines != [] && lines[0].Break?
  {
    if BreakValue(lines[0].kind) != [0x0A] then BreakValue(lines[0].kind) + MoreBreaks(lines)
    else if MoreBreaks(lines) == [] then [SPACE]
    else MoreBreaks(lines)
  }

  function PieceText(p: Piece): (r: seq<Byte>) {
    match p
    case Escape(_, n) => EscapeText(n)
    case Literal(text) => text
    case White(before, lines) => before + LinesText(lines)
    case Joined(lines) => [BACKSLASH] + LinesText(lines)
  }

  function PieceValue(p: Piece): (r: seq<Byte>) {
    match p
    case Escape(c, _) => Encode(c)
    case Literal(text) => text
    case White(before, lines) => if lines == [] || !lines[0].Break? then before else Folded(lines)
    case Joined(lines) => MoreBreaks(lines)
  }

  function Text(ps: seq<Piece>): (r: seq<Byte>) {
    if ps == [] then [] else Text(ps[..|ps| - 1]) + PieceText(ps[|ps| - 1])
  }

  function Value(ps: seq<Piece>): (r: seq<Byte>) {
    if ps == [] then [] else Value(ps[..|ps| - 1]) + PieceValue(ps[|ps| - 1])
  }

  // ---- pieces in a buffer

  /** `t` is at `pos`. */
  predicate Here(b: seq<Byte>, pos: nat, t: seq<Byte>) {
    pos + |t| <= |b| && b[pos..pos + |t|] == t
  }

  lemma HereAt(b: seq<Byte>, pos: nat, t: seq<Byte>, j: nat)
    requires Here(b, pos, t) && j < |t|
    ensures pos + j < |b| && At(b, pos + j) == b[pos + j] == t[j]
  {
    assert b[pos..pos + |t|][j] == t[j];
  }

  lemma HereSplit(b: seq<Byte>, pos: nat, s: seq<Byte>, t: seq<Byte>)
    ensures Here(b, pos, s + t) <==> Here(b, pos, s) && Here(b, pos + |s|, t)
  {
    if Here(b, pos, s + t) {
      var u := s + t;
      assert b[pos..pos + |u|][..|s|] == s && b[pos..pos + |u|][|s|..] == t;
    }
    if Here(b, pos, s) && Here(b, pos + |s|, t) {
      assert b[pos..pos + |s + t|] == s + t;
    }
  }

  /** `---` or `...` in front of a blank. */
  predicate Indicator(b: seq<Byte>, pos: nat) {
    && (  (At(b, pos) == 0x2D && At(b, pos + 1) == 0x2D && At(b, pos + 2) == 0x2D)
       || (At(b, pos) == 0x2E && At(b, pos + 1) == 0x2E && At(b, pos + 2) == 0x2E))
    && IsBlankz(b, pos + 3)
  }

  /** The next piece begins a line. */
  predicate EndsLine(p: Piece) {
    (p.White? || p.Joined?) && p.lines != [] && p.lines[|p.lines| - 1].Break?
  }

  /** No line begins with a document indicator. */
  predicate Unmarked(b: seq<Byte>, base: nat, ps: seq<Piece>) {
    forall k | 0 <= k < |ps| && EndsLine(ps[k]) :: !Indicator(b, base + |Text(ps[..k + 1])|)
  }

  // A scalar in a buffer: `base` is behind its opening quote.
  datatype Script = Script(base: nat, pieces: seq<Piece>)

  ghost predicate Fits(b: seq<Byte>, sc: Script) {
    && WellPieced(sc.pieces) && Here(b, sc.base, Text(sc.pieces) + [QUOTE]) && Unmarked(b, sc.base, sc.pieces)
  }

  /** The pieces `ps` have been read, and what they stand for is `s`. */
  ghost predicate Made(b: seq<Byte>, base: nat, ps: seq<Piece>, pos: nat, s: seq<Byte>) {
    && WellPieced(ps) && Here(b, base, Text(ps)) && pos == base + |Text(ps)| && s == Value(ps)
  }

  /** If there is a scalar, what has been read is the beginning of it. */
  ghost predicate Follows(b: seq<Byte>, sc: Script, base: nat, ps: seq<Piece>) {
    sc.base == base && Fits(b, sc) ==> ps <= sc.pieces
  }

  lemma MadeNothing(b: seq<Byte>, base: nat)
    requires base <= |b|
    ensures Made(b, base, [], base, []) && Unmarked(b, base, [])
  {
  }

  lemma PiecesGrow(ps: seq<Piece>, p: Piece)
    ensures Text(ps + [p]) == Text(ps) + PieceText(p)
    ensures Value(ps + [p]) == Value(ps) + PieceValue(p)
  {
    assert (ps + [p])[..|ps|] == ps;
    hide PieceText, PieceValue;
  }

  lemma WellPiecedGrows(ps: seq<Piece>, p: Piece)
    requires WellPieced(ps) && PieceOk(p) && (ps != [] ==> Neighbours(ps[|ps| - 1], p))
    ensures WellPieced(ps + [p])
  {
    hide PieceOk, Neighbours;
  }

  lemma MadeMore(b: seq<Byte>, base: nat, ps: seq<Piece>, pos: nat, s: seq<Byte>, p: Piece)
    requires Made(b, base, ps, pos, s) && PieceOk(p) && (ps != [] ==> Neighbours(ps[|ps| - 1], p)) && Here(b, pos, PieceText(p))
    ensures Made(b, base, ps + [p], pos + |PieceText(p)|, s + PieceValue(p))
  {
    hide PieceOk, Neighbours, PieceText, PieceValue, Text, Value, WellPieced;
    WellPiecedGrows(ps, p);
    PiecesGrow(ps, p);
    HereSplit(b, base, Text(ps), PieceText(p));
  }

  lemma UnmarkedMore(b: seq<Byte>, base: nat, ps: seq<Piece>, p: Piece)
    requires Unmarked(b, base, ps)
    requires EndsLine(p) ==> !Indicator(b, base + |Text(ps + [p])|)
    ensures Unmarked(b, base, ps + [p])
  {
    hide Text, EndsLine, Indicator;
    forall k | 0 <= k < |ps + [p]| && EndsLine((ps + [p])[k]) ensures !Indicator(b, base + |Text((ps + [p])[..k + 1])|) {
      if k < |ps| {
        assert (ps + [p])[..k + 1] == ps[..k + 1];
      } else {
        assert (ps + [p])[..k + 1] == ps + [p];
      }
    }
  }

  lemma {:induction false} TextSplit(ps: seq<Piece>, k: nat)
    requires k <= |ps|
    ensures |Text(ps[..k])| <= |Text(ps)| && Text(ps)[..|Text(ps[..k])|] == Text(ps[..k])
    decreases |ps|
  {
    hide PieceText;
    if k == |ps| {
      assert ps[..k] == ps;
    } else {
      TextSplit(ps[..|ps| - 1], k);
      assert ps[..|ps| - 1][..k] == ps[..k];
    }
  }

  /** What comes next in a scalar of which `ps` have been read: its closing quote, or one more piece. */
  lemma NextPiece(b: seq<Byte>, sc: Script, ps: seq<Piece>, pos: nat, s: seq<Byte>)
    requires Made(b, sc.base, ps, pos, s) && Fits(b, sc) && ps <= sc.pieces
    ensures ps == sc.pieces ==> pos < |b| && b[pos] == QUOTE
    ensures ps < sc.pieces ==>
      var q := sc.pieces[|ps|];
      PieceOk(q) && Here(b, pos, PieceText(q)) && (ps != [] ==> Neighbours(ps[|ps| - 1], q)) && ps + [q] <= sc.pieces
      && (EndsLine(q) ==> !Indicator(b, pos + |PieceText(q)|))
  {
    var all := Text(sc.pieces);
    hide PieceOk, Neighbours, PieceText, PieceValue, Text, Value, EndsLine, Indicator;
    HereSplit(b, sc.base, all, [QUOTE]);
    if ps == sc.pieces {
      HereAt(b, pos, [QUOTE], 0);
    } else {
      var k := |ps|;
      var q := sc.pieces[k];
      assert sc.pieces[..k] == ps && sc.pieces[..k + 1] == ps + [q];
      PiecesGrow(ps, q);
      TextSplit(sc.pieces, k + 1);
      assert all == (Text(ps) + PieceText(q)) + all[|Text(ps + [q])|..];
      HereSplit(b, sc.base, Text(ps) + PieceText(q), all[|Text(ps + [q])|..]);
      HereSplit(b, sc.base, Text(ps), PieceText(q));
    }
  }

  // ---- how pieces begin

  predicate StartsEscape(b: seq<Byte>, pos: nat) {
    At(b, pos) == BACKSLASH && !IsBreak(b, pos + 1)
  }

  predicate StartsJoined(b: seq<Byte>, pos: nat) {
    At(b, pos) == BACKSLASH && IsBreak(b, pos + 1)
  }

  predicate StartsWhite(b: seq<Byte>, pos: nat) {
    IsBlank(b, pos) || IsBreak(b, pos)
  }

  predicate StartsLiteral(b: seq<Byte>, pos: nat) {
    !IsBlankz(b, pos) && At(b, pos) != QUOTE && At(b, pos) != BACKSLASH
  }

  lemma BreakHere(b: seq<Byte>, pos: nat, kind: LineBreak)
    requires Here(b, pos, BreakText(kind))
    ensures IsBreak(b, pos) && !IsBlank(b, pos) && pos < |b| && At(b, pos) != 0
    ensures !(kind == CR && At(b, pos + 1) == 0x0A) ==> kind == KindAt(b, pos)
    ensures kind == LN <==> At(b, pos) == 0x0A
  {
    HereAt(b, pos, BreakText(kind), 0);
    if |BreakText(kind)| >= 2 { HereAt(b, pos, BreakText(kind), 1); }
    if |BreakText(kind)| >= 3 { HereAt(b, pos, BreakText(kind), 2); }
  }

  lemma TextHere(b: seq<Byte>, pos: nat, text: seq<Byte>)
    requires Here(b, pos, text) && text != [] && Width(text[0]) == |text|
    ensures pos < |b| && At(b, pos) == text[0] && (IsBlankz(b, pos) <==> IsBlankz(text, 0))
  {
    forall j | 0 <= j < |text| ensures At(b, pos + j) == At(text, j) {
      HereAt(b, pos, text, j);
    }
    assert At(b, pos + 0) == At(text, 0);
    if |text| >= 2 { assert At(b, pos + 1) == At(text, 1); }
    if |text| >= 3 { assert At(b, pos + 2) == At(text, 2); }
  }

  lemma {:induction false} FirstFiller(lines: seq<Filler>)
    requires lines != []
    ensures exists rest :: LinesText(lines) == FillerText(lines[0]) + rest
  {
    hide FillerText;
    var last := FillerText(lines[|lines| - 1]);
    if |lines| == 1 {
      assert lines[..0] == [];
      assert LinesText(lines) == last + [];
    } else {
      FirstFiller(lines[..|lines| - 1]);
      var rest :| LinesText(lines[..|lines| - 1]) == FillerText(lines[0]) + rest;
      assert LinesText(lines) == FillerText(lines[0]) + (rest + last);
    }
  }

  /** Each kind of piece is known by its first bytes. */
  lemma Starts(b: seq<Byte>, pos: nat, p: Piece)
    requires PieceOk(p) && Here(b, pos, PieceText(p))
    ensures p.Escape? ==> StartsEscape(b, pos)
    ensures p.Joined? ==> StartsJoined(b, pos)
    ensures p.White? ==> StartsWhite(b, pos)
    ensures p.Literal? ==> StartsLiteral(b, pos)
  {
    hide LinesText, FillerText, Denotes, LinesOk, IsBlankz, Named;
    match p {
      case Escape(c, n) => EscapeStarts(b, pos, n, c);
      case Literal(text) => TextHere(b, pos, text);
      case White(before, lines) =>
        if before != [] {
          HereAt(b, pos, before + LinesText(lines), 0);
        } else {
          assert before + LinesText(lines) == LinesText(lines);
          LinesStart(b, pos, lines);
        }
      case Joined(lines) =>
        HereSplit(b, pos, [BACKSLASH], LinesText(lines));
        HereAt(b, pos, [BACKSLASH], 0);
        LinesStart(b, pos + 1, lines);
    }
  }

  lemma LinesStart(b: seq<Byte>, pos: nat, lines: seq<Filler>)
    requires lines != [] && LinesOk(lines) && Here(b, pos, LinesText(lines))
    ensures IsBreak(b, pos) && !IsBlank(b, pos)
  {
    FirstFiller(lines);
    var rest :| LinesText(lines) == FillerText(lines[0]) + rest;
    hide LinesText, IsBreak, IsBlank;
    HereSplit(b, pos, FillerText(lines[0]), rest);
    BreakHere(b, pos, lines[0].kind);
  }

  lemma EscapeStarts(b: seq<Byte>, pos: nat, n: Notation, c: Rune)
    requires NotationOk(c, n) && Here(b, pos, EscapeText(n))
    ensures At(b, pos) == BACKSLASH && !IsBreak(b, pos + 1) && pos + 1 < |b|
    ensures n.ByName? ==> At(b, pos + 1) == n.letter
    ensures n.ByCode? ==> CodeLength(At(b, pos + 1)) == |n.digits| && Here(b, pos + 2, n.digits)
  {
    HereAt(b, pos, EscapeText(n), 0);
    HereAt(b, pos, EscapeText(n), 1);
    if n.ByName? {
      EscapedIs(n.letter);
      hide Named;
    } else {
      assert EscapeText(n) == [BACKSLASH, CodeText(n.digits)[0]] + n.digits;
      HereSplit(b, pos, [BACKSLASH, CodeText(n.digits)[0]], n.digits);
      hide Denotes;
    }
  }

  /** What begins a piece does not begin a different one, nor end the scalar. */
  lemma StartsDiffer(b: seq<Byte>, pos: nat)
    ensures StartsEscape(b, pos) ==> !StartsJoined(b, pos) && !StartsWhite(b, pos) && !StartsLiteral(b, pos) && At(b, pos) != QUOTE && !IsBlankz(b, pos)
    ensures StartsJoined(b, pos) ==> !StartsWhite(b, pos) && !StartsLiteral(b, pos) && At(b, pos) != QUOTE && !IsBlankz(b, pos)
    ensures StartsWhite(b, pos) ==> !StartsLiteral(b, pos) && At(b, pos) != QUOTE && IsBlankz(b, pos) && At(b, pos) != 0
    ensures StartsEscape(b, pos) || StartsJoined(b, pos) || StartsWhite(b, pos) || StartsLiteral(b, pos) || At(b, pos) == QUOTE || At(b, pos) == 0
    ensures At(b, pos) == 0 ==> !StartsEscape(b, pos) && !StartsJoined(b, pos) && !StartsWhite(b, pos) && !StartsLiteral(b, pos)
    ensures At(b, pos) == QUOTE ==> !StartsWhite(b, pos) && !StartsLiteral(b, pos) && !IsBlankz(b, pos)
  {
  }

  lemma NextStarts(b: seq<Byte>, sc: Script, ps: seq<Piece>, pos: nat, s: seq<Byte>)
    requires Made(b, sc.base, ps, pos, s) && Fits(b, sc) && ps <= sc.pieces
    ensures pos < |b| && At(b, pos) != 0
    ensures ps == sc.pieces <==> At(b, pos) == QUOTE
    ensures ps < sc.pieces ==>
      var q := sc.pieces[|ps|];
      && (q.Escape? <==> StartsEscape(b, pos)) && (q.Joined? <==> StartsJoined(b, pos))
      && (q.White? <==> StartsWhite(b, pos)) && (q.Literal? <==> StartsLiteral(b, pos))
    ensures ps != [] && (ps[|ps| - 1].White? || ps[|ps| - 1].Joined?) ==> !StartsWhite(b, pos)
  {
    NextPiece(b, sc, ps, pos, s);
    StartsDiffer(b, pos);
    hide Made, Fits, PieceOk, PieceText, StartsEscape, StartsJoined, StartsWhite, StartsLiteral, EndsLine, Indicator, IsBlankz;
    if ps != sc.pieces {
      Starts(b, pos, sc.pieces[|ps|]);
    }
  }

  // ---- the scanner

  /** The line break at `pos`. */
  function KindAt(b: seq<Byte>, pos: nat): (r: LineBreak) {
    if At(b, pos) == 0x0D && At(b, pos + 1) == 0x0A then CRLN
    else if At(b, pos) == 0x0D then CR
    else if At(b, pos) == 0x0A then LN
    else if At(b, pos) == 0xC2 then NEL
    else if At(b, pos + 2) == 0xA8 then LS
    else PS
  }

  lemma KindIsHere(b: seq<Byte>, pos: nat)
    requires IsBreak(b, pos)
    ensures Here(b, pos, BreakText(KindAt(b, pos))) && pos < |b| && !IsBlank(b, pos)
    ensures At(b, pos) == 0x0D && At(b, pos + 1) == 0x0A ==> |BreakText(KindAt(b, pos))| == 2
    ensures !(At(b, pos) == 0x0D && At(b, pos + 1) == 0x0A) ==> Width(At(b, pos)) == |BreakText(KindAt(b, pos))|
    ensures KindAt(b, pos) == CR ==> At(b, pos + 1) != 0x0A
    ensures KindAt(b, pos) == LN <==> At(b, pos) == 0x0A
  {
    assert b[pos..pos + |BreakText(KindAt(b, pos))|] == BreakText(KindAt(b, pos));
  }

  /** The scanner's own encoding of an escape code. */
  method WriteCode(value: nat) returns (ok: bool, s: seq<Byte>)
    ensures ok <==> 0 <= value < 0xD800 || 0xE000 <= value <= 0x10FFFF
    ensures ok ==> s == Encode(value)
  {
    s := [];
    if (value >= 0xD800 && value <= 0xDFFF) || value > 0x10FFFF {
      return false, s;
    }
    if value <= 0x7F {
      s := s + [value];
    } else if value <= 0x7FF {
      s := s + [0xC0 + value / 64];
      s := s + [0x80 + value % 64];
    } else if value <= 0xFFFF {
      s := s + [0xE0 + value / 4096];
      s := s + [0x80 + value / 64 % 64];
      s := s + [0x80 + value % 64];
    } else {
      s := s + [0xF0 + value / 262144];
      s := s + [0x80 + value / 4096 % 64];
      s := s + [0x80 + value / 64 % 64];
      s := s + [0x80 + value % 64];
    }
    return true, s;
  }

  /** An escape that has been read is the one that is there. */
  lemma SameEscape(b: seq<Byte>, pos: nat, p: Piece, q: Piece)
    requires p.Escape? && q.Escape? && PieceOk(p) && PieceOk(q)
    requires Here(b, pos, PieceText(p)) && Here(b, pos, PieceText(q))
    ensures p == q
  {
    hide Denotes, Named, IsBreak, Here;
    EscapeStarts(b, pos, p.notation, p.c);
    EscapeStarts(b, pos, q.notation, q.c);
    if p.notation.ByName? {
      EscapedIs(p.notation.letter);
    }
    if q.notation.ByName? {
      EscapedIs(q.notation.letter);
    }
    if p.notation.ByCode? && q.notation.ByCode? {
      SameHere(b, pos + 2, p.notation.digits, q.notation.digits);
      OneNumber(p.notation.digits, p.c, q.c);
    }
  }

  lemma SameHere(b: seq<Byte>, pos: nat, s: seq<Byte>, t: seq<Byte>)
    requires Here(b, pos, s) && Here(b, pos, t) && |s| == |t|
    ensures s == t
  {
  }

  lemma OneNumber(digits: seq<Byte>, v: nat, w: nat)
    requires Denotes(digits, v) && Denotes(digits, w)
    ensures v == w
  {
    DenotedDigits(digits, v);
    DenotesIs(digits, v);
    DenotesIs(digits, w);
  }

  lemma SameLiteral(b: seq<Byte>, pos: nat, p: Piece, q: Piece)
    requires p.Literal? && q.Literal? && PieceOk(p) && PieceOk(q)
    requires Here(b, pos, PieceText(p)) && Here(b, pos, PieceText(q))
    ensures p == q
  {
    hide IsBlankz;
    HereAt(b, pos, p.text, 0);
    HereAt(b, pos, q.text, 0);
    SameHere(b, pos, p.text, q.text);
  }

  lemma LiteralMade(b: seq<Byte>, pos: nat)
    requires StartsLiteral(b, pos) && pos < |b| && Width(b[pos]) > 0 && pos + Width(b[pos]) <= |b|
    ensures PieceOk(Literal(b[pos..pos + Width(b[pos])])) && Here(b, pos, b[pos..pos + Width(b[pos])])
  {
    var t := b[pos..pos + Width(b[pos])];
    TextHere(b, pos, t);
    hide IsBlankz;
  }

  lemma EscapeMade(b: seq<Byte>, pos: nat, c: Rune, n: Notation)
    requires At(b, pos) == BACKSLASH && pos + 1 < |b|
    requires n.ByName? ==> n.letter == At(b, pos + 1) && Named(n.letter) == Some(c)
    requires n.ByCode? ==> CodeLength(At(b, pos + 1)) == |n.digits| > 0 && Here(b, pos + 2, n.digits) && Denotes(n.digits, c)
    ensures PieceOk(Escape(c, n)) && Here(b, pos, PieceText(Escape(c, n)))
  {
    hide Denotes, Named;
    match n {
      case ByName(letter) =>
        assert b[pos..pos + 2] == [BACKSLASH, letter];
      case ByCode(digits) =>
        assert b[pos..pos + 2] == [BACKSLASH, CodeText(digits)[0]];
        HereSplit(b, pos, [BACKSLASH, CodeText(digits)[0]], digits);
        assert [BACKSLASH, CodeText(digits)[0]] + digits == EscapeText(n);
    }
  }

  // ---- white space, as it is read

  /** From `start` on, behind `head`, there are these fillers. */
  ghost predicate Filling(b: seq<Byte>, start: nat, head: seq<Byte>, lines: seq<Filler>, pos: nat) {
    && LinesOk(lines) && Here(b, start, head + LinesText(lines)) && pos == start + |head| + |LinesText(lines)|
    && (lines != [] && lines[|lines| - 1] == Break(CR) ==> At(b, pos) != 0x0A)
  }

  lemma LinesGrow(lines: seq<Filler>, f: Filler)
    ensures LinesText(lines + [f]) == LinesText(lines) + FillerText(f)
    ensures lines != [] ==> MoreBreaks(lines + [f]) == MoreBreaks(lines) + match f case Skip(_) => [] case Break(kind) => BreakValue(kind)
    ensures lines == [] ==> MoreBreaks(lines + [f]) == []
  {
    assert (lines + [f])[..|lines|] == lines;
  }

  lemma LinesOkGrow(lines: seq<Filler>, f: Filler)
    requires LinesOk(lines) && (f.Break? || (lines != [] && IsBlankByte(f.b)))
    requires lines != [] && lines[|lines| - 1] == Break(CR) ==> f != Break(LN)
    ensures LinesOk(lines + [f])
  {
  }

  lemma FillsMore(b: seq<Byte>, start: nat, head: seq<Byte>, lines: seq<Filler>, pos: nat, f: Filler)
    requires Filling(b, start, head, lines, pos)
    requires (f == Skip(At(b, pos)) && IsBlank(b, pos) && lines != []) || (IsBreak(b, pos) && f == Break(KindAt(b, pos)))
    ensures Filling(b, start, head, lines + [f], pos + |FillerText(f)|) && pos + |FillerText(f)| <= |b| && |FillerText(f)| > 0
  {
    hide LinesText, LinesOk, FillerText, IsBreak, IsBlank, KindAt;
    LinesGrow(lines, f);
    OneFiller(b, pos, f);
    LinesOkGrow(lines, f);
    HereSplit(b, start, head + LinesText(lines), FillerText(f));
    AssociateBytes(head, LinesText(lines), FillerText(f));
  }

  lemma AssociateBytes(a: seq<Byte>, b: seq<Byte>, c: seq<Byte>)
    ensures (a + b) + c == a + (b + c)
  {
  }

  lemma OneFiller(b: seq<Byte>, pos: nat, f: Filler)
    requires (f == Skip(At(b, pos)) && IsBlank(b, pos)) || (IsBreak(b, pos) && f == Break(KindAt(b, pos)))
    ensures Here(b, pos, FillerText(f)) && |FillerText(f)| > 0 && (f.Skip? ==> IsBlankByte(f.b) && |FillerText(f)| == 1)
    ensures f == Break(LN) ==> At(b, pos) == 0x0A
    ensures f == Break(CR) ==> At(b, pos + |FillerText(f)|) != 0x0A
  {
    if f.Break? {
      KindIsHere(b, pos);
    } else {
      assert pos < |b| && b[pos..pos + 1] == [f.b];
    }
  }

  lemma HeadGrows(b: seq<Byte>, start: nat, head: seq<Byte>, pos: nat)
    requires Filling(b, start, head, [], pos) && IsBlank(b, pos)
    ensures pos < |b| && Filling(b, start, head + [b[pos]], [], pos + 1) && IsBlankByte(b[pos])
  {
    HereSplit(b, start, head, [b[pos]]);
    assert head + [] == head && head + [b[pos]] + [] == head + [b[pos]];
  }

  lemma {:induction false} LinesSplit(lines: seq<Filler>, k: nat)
    requires k <= |lines|
    ensures exists rest :: LinesText(lines) == LinesText(lines[..k]) + rest
    decreases |lines|
  {
    hide FillerText;
    if k == |lines| {
      assert lines[..k] == lines;
      assert LinesText(lines) == LinesText(lines) + [];
    } else {
      var init, last := lines[..|lines| - 1], FillerText(lines[|lines| - 1]);
      LinesSplit(init, k);
      assert init[..k] == lines[..k];
      var rest :| LinesText(init) == LinesText(lines[..k]) + rest;
      assert LinesText(lines) == LinesText(lines[..k]) + (rest + last);
    }
  }

  /** The next filler is where the ones before end. */
  lemma FillerHere(b: seq<Byte>, start: nat, head: seq<Byte>, lines: seq<Filler>, k: nat, pos: nat)
    requires Here(b, start, head + LinesText(lines)) && k < |lines| && pos == start + |head| + |LinesText(lines[..k])|
    ensures Here(b, pos, FillerText(lines[k]))
  {
    hide LinesText, FillerText, Here, MoreBreaks;
    LinesSplit(lines, k + 1);
    var rest :| LinesText(lines) == LinesText(lines[..k + 1]) + rest;
    assert lines[..k + 1] == lines[..k] + [lines[k]];
    LinesGrow(lines[..k], lines[k]);
    HereSplit(b, start, head, LinesText(lines));
    HereSplit(b, start + |head|, LinesText(lines[..k + 1]), rest);
    HereSplit(b, start + |head|, LinesText(lines[..k]), FillerText(lines[k]));
  }

  /** Behind all its fillers `all` there is no white space. */
  ghost predicate Closed(b: seq<Byte>, start: nat, head: seq<Byte>, all: seq<Filler>) {
    && LinesOk(all) && Here(b, start, head + LinesText(all))
    && !StartsWhite(b, start + |head| + |LinesText(all)|)
  }

  /** What is read next is the next filler, as long as there is white space. */
  lemma FillerFound(b: seq<Byte>, start: nat, head: seq<Byte>, lines: seq<Filler>, pos: nat, all: seq<Filler>)
    requires Filling(b, start, head, lines, pos) && Closed(b, start, head, all) && lines <= all
    ensures lines == all ==> !StartsWhite(b, pos)
    ensures lines < all && all[|lines|].Skip? ==> IsBlank(b, pos) && !IsBreak(b, pos) && all[|lines|] == Skip(At(b, pos))
    ensures lines < all && all[|lines|].Break? ==> !IsBlank(b, pos) && IsBreak(b, pos) && all[|lines|] == Break(KindAt(b, pos))
  {
    hide LinesText, IsBreak, KindAt;
    var k := |lines|;
    assert all[..k] == lines;
    if k < |all| {
      FillerHere(b, start, head, all, k, pos);
      match all[k] {
        case Skip(c) =>
          HereAt(b, pos, [c], 0);
          NoBreak(b, pos);
        case Break(kind) =>
          if kind == CR && At(b, pos + 1) == 0x0A {
            CrIsAlone(b, start, head, all, k, pos);
          }
          BreakHere(b, pos, kind);
      }
    }
  }

  lemma NoBreak(b: seq<Byte>, pos: nat)
    requires IsBlankByte(At(b, pos))
    ensures IsBlank(b, pos) && !IsBreak(b, pos)
  {
  }

  lemma CrIsAlone(b: seq<Byte>, start: nat, head: seq<Byte>, all: seq<Filler>, k: nat, pos: nat)
    requires Closed(b, start, head, all) && k < |all| && all[k] == Break(CR) && pos == start + |head| + |LinesText(all[..k])|
    ensures At(b, pos + 1) != 0x0A
  {
    hide LinesText, IsBreak, MoreBreaks, Here, IsBlank;
    assert all[..k + 1] == all[..k] + [all[k]];
    LinesGrow(all[..k], all[k]);
    LnIsBreak(b, pos + 1);
    if k + 1 < |all| {
      FillerHere(b, start, head, all, k + 1, pos + 1);
      match all[k + 1] {
        case Skip(c) => HereAt(b, pos + 1, [c], 0);
        case Break(kind) => BreakHere(b, pos + 1, kind);
      }
    } else {
      assert all[..k + 1] == all;
    }
  }

  lemma LnIsBreak(b: seq<Byte>, pos: nat)
    ensures At(b, pos) == 0x0A ==> IsBreak(b, pos)
  {
  }

  /** If there is a scalar whose next piece is this white space, what has been read of it is its beginning. */
  ghost predicate Whitening(b: seq<Byte>, start: nat, q: Piece, before: seq<Byte>, lines: seq<Filler>) {
    && q.White? && PieceOk(q) && Closed(b, start, q.before, q.lines)
    && (if lines == [] then before <= q.before else before == q.before && lines <= q.lines)
  }

  lemma WhiteFound(b: seq<Byte>, start: nat, q: Piece, before: seq<Byte>, lines: seq<Filler>, pos: nat)
    requires Whitening(b, start, q, before, lines) && Filling(b, start, before, lines, pos)
    ensures IsBlank(b, pos) && lines == [] ==> pos < |b| && Whitening(b, start, q, before + [b[pos]], [])
    ensures IsBlank(b, pos) && lines != [] ==> Whitening(b, start, q, before, lines + [Skip(At(b, pos))])
    ensures IsBreak(b, pos) ==> Whitening(b, start, q, before, lines + [Break(KindAt(b, pos))])
    ensures !StartsWhite(b, pos) ==> before == q.before && lines == q.lines
  {
    hide KindAt, LinesText, IsBreak;
    if lines == [] && |before| < |q.before| {
      HereSplit(b, start, q.before, LinesText(q.lines));
      HereAt(b, start, q.before, |before|);
      NothingFilled();
      assert pos == start + |before|;
      NoBreak(b, pos);
      assert before + [b[pos]] == q.before[..|before| + 1];
    } else {
      FillerFound(b, start, before, lines, pos, q.lines);
      if lines < q.lines {
        assert lines + [q.lines[|lines|]] == q.lines[..|lines| + 1];
      }
      BlankOrBreak(b, pos);
    }
  }

  lemma BlankOrBreak(b: seq<Byte>, pos: nat)
    ensures IsBlank(b, pos) ==> !IsBreak(b, pos) && pos < |b| && IsBlankByte(At(b, pos)) && At(b, pos) == b[pos]
    ensures IsBreak(b, pos) ==> pos < |b|
  {
  }

  lemma NothingFilled()
    ensures LinesText([]) == [] && MoreBreaks([]) == []
  {
  }

  /** The same for an escaped line break. */
  ghost predicate Joining(b: seq<Byte>, start: nat, q: Piece, lines: seq<Filler>) {
    q.Joined? && PieceOk(q) && Closed(b, start, [BACKSLASH], q.lines) && lines <= q.lines
  }

  lemma JoinFound(b: seq<Byte>, start: nat, q: Piece, lines: seq<Filler>, pos: nat)
    requires Joining(b, start, q, lines) && Filling(b, start, [BACKSLASH], lines, pos)
    ensures IsBlank(b, pos) ==> Joining(b, start, q, lines + [Skip(At(b, pos))])
    ensures IsBreak(b, pos) ==> Joining(b, start, q, lines + [Break(KindAt(b, pos))])
    ensures !StartsWhite(b, pos) ==> lines == q.lines
  {
    hide KindAt, LinesText, IsBreak;
    FillerFound(b, start, [BACKSLASH], lines, pos, q.lines);
    if lines < q.lines {
      assert lines + [q.lines[|lines|]] == q.lines[..|lines| + 1];
    }
    BlankOrBreak(b, pos);
  }

  lemma WhiteIs(b: seq<Byte>, pos: nat, q: Piece)
    requires q.White? && PieceOk(q) && Here(b, pos, PieceText(q)) && !StartsWhite(b, pos + |PieceText(q)|)
    ensures Whitening(b, pos, q, [], [])
  {
    hide LinesText, StartsWhite, LinesOk;
  }

  lemma JoinIs(b: seq<Byte>, pos: nat, q: Piece)
    requires q.Joined? && PieceOk(q) && Here(b, pos, PieceText(q)) && !StartsWhite(b, pos + |PieceText(q)|)
    ensures Joining(b, pos, q, [])
  {
    hide LinesText, StartsWhite, LinesOk;
  }

  /** The white space that comes next in a scalar is read to its end. */
  lemma WhiteBegins(b: seq<Byte>, sc: Script, ps: seq<Piece>, pos: nat, s: seq<Byte>)
    requires Made(b, sc.base, ps, pos, s) && Fits(b, sc) && ps <= sc.pieces && StartsWhite(b, pos)
    ensures ps < sc.pieces && Whitening(b, pos, sc.pieces[|ps|], [], []) && ps + [sc.pieces[|ps|]] <= sc.pieces
  {
    hide Made, Fits, StartsWhite, StartsJoined, StartsEscape, StartsLiteral, PieceOk, PieceText, PieceValue, IsBlankz, EndsLine, Indicator, Here;
    NextStarts(b, sc, ps, pos, s);
    NextPiece(b, sc, ps, pos, s);
    StartsDiffer(b, pos);
    var q := sc.pieces[|ps|];
    MadeMore(b, sc.base, ps, pos, s, q);
    NextStarts(b, sc, ps + [q], pos + |PieceText(q)|, s + PieceValue(q));
    WhiteIs(b, pos, q);
  }

  lemma JoinBegins(b: seq<Byte>, sc: Script, ps: seq<Piece>, pos: nat, s: seq<Byte>)
    requires Made(b, sc.base, ps, pos, s) && Fits(b, sc) && ps <= sc.pieces && StartsJoined(b, pos)
    ensures ps < sc.pieces && Joining(b, pos, sc.pieces[|ps|], []) && ps + [sc.pieces[|ps|]] <= sc.pieces
  {
    hide Made, Fits, StartsWhite, StartsJoined, StartsEscape, StartsLiteral, PieceOk, PieceText, PieceValue, IsBlankz, EndsLine, Indicator, Here;
    NextStarts(b, sc, ps, pos, s);
    NextPiece(b, sc, ps, pos, s);
    StartsDiffer(b, pos);
    var q := sc.pieces[|ps|];
    MadeMore(b, sc.base, ps, pos, s, q);
    NextStarts(b, sc, ps + [q], pos + |PieceText(q)|, s + PieceValue(q));
    JoinIs(b, pos, q);
  }

  /** Reading `sc`, if there is one: these pieces have been read. */
  ghost predicate BeenRead(b: seq<Byte>, sc: Script, ps: seq<Piece>, pos: nat, s: seq<Byte>) {
    Made(b, sc.base, ps, pos, s) && (Fits(b, sc) ==> ps <= sc.pieces)
  }

  /** The same at the start of a round: the last piece may have led to a line that has not been looked at yet. */
  ghost predicate Settled(b: seq<Byte>, sc: Script, ps: seq<Piece>, pos: nat, s: seq<Byte>, column: nat) {
    && BeenRead(b, sc, ps, pos, s)
    && (ps != [] ==> Unmarked(b, sc.base, ps[..|ps| - 1]))
    && (column == 0 <==> ps != [] && EndsLine(ps[|ps| - 1]))
    && (ps != [] && (ps[|ps| - 1].White? || ps[|ps| - 1].Joined?) ==> !StartsWhite(b, pos))
  }

  /** An escaped line break has been read at `start`, behind the pieces. */
  ghost predicate InJoin(b: seq<Byte>, sc: Script, ps: seq<Piece>, start: nat, s: seq<Byte>, lines: seq<Filler>, pos: nat) {
    && BeenRead(b, sc, ps, start, s) && lines != [] && Filling(b, start, [BACKSLASH], lines, pos) && Unmarked(b, sc.base, ps)
    && (Fits(b, sc) ==> ps < sc.pieces && ps + [sc.pieces[|ps|]] <= sc.pieces && Joining(b, start, sc.pieces[|ps|], lines))
  }

  /** White space is being read from `start` on, behind the pieces. */
  ghost predicate InWhite(b: seq<Byte>, sc: Script, ps: seq<Piece>, start: nat, s: seq<Byte>, before: seq<Byte>, lines: seq<Filler>, pos: nat) {
    && BeenRead(b, sc, ps, start, s) && Filling(b, start, before, lines, pos) && Unmarked(b, sc.base, ps)
    && (forall i | 0 <= i < |before| :: IsBlankByte(before[i]))
    && (ps != [] ==> !ps[|ps| - 1].White? && !ps[|ps| - 1].Joined?)
    && (Fits(b, sc) ==> ps < sc.pieces && ps + [sc.pieces[|ps|]] <= sc.pieces && Whitening(b, start, sc.pieces[|ps|], before, lines))
  }

  lemma LookedAt(b: seq<Byte>, sc: Script, ps: seq<Piece>, pos: nat, s: seq<Byte>, column: nat)
    requires Settled(b, sc, ps, pos, s, column) && (column == 0 ==> !Indicator(b, pos))
    ensures Unmarked(b, sc.base, ps)
  {
    hide Text, Value, EndsLine, Indicator, Unmarked, StartsWhite, WellPieced, Fits, Here;
    if ps != [] {
      assert ps == ps[..|ps| - 1] + [ps[|ps| - 1]];
      UnmarkedMore(b, sc.base, ps[..|ps| - 1], ps[|ps| - 1]);
    } else {
      NothingUnmarked(b, sc.base);
    }
  }

  lemma NothingUnmarked(b: seq<Byte>, base: nat)
    ensures Unmarked(b, base, [])
  {
  }

  /** There is no mark where the scalar goes on. */
  lemma NoMark(b: seq<Byte>, sc: Script, ps: seq<Piece>, pos: nat, s: seq<Byte>, column: nat)
    requires Settled(b, sc, ps, pos, s, column) && Fits(b, sc)
    ensures column == 0 ==> !Indicator(b, pos)
    ensures At(b, pos) != 0
  {
    hide Text, Indicator, StartsWhite, EndsLine, WellPieced, Value, Here;
    NextStarts(b, sc, ps, pos, s);
    if column == 0 {
      var k := |ps| - 1;
      assert sc.pieces[..k + 1] == ps && sc.pieces[k] == ps[k];
    }
  }

  lemma SettledAfter(b: seq<Byte>, sc: Script, ps: seq<Piece>, pos: nat, s: seq<Byte>, p: Piece, column: nat)
    requires BeenRead(b, sc, ps, pos, s) && Unmarked(b, sc.base, ps) && PieceOk(p) && Here(b, pos, PieceText(p))
    requires ps != [] ==> Neighbours(ps[|ps| - 1], p)
    requires Fits(b, sc) ==> ps + [p] <= sc.pieces
    requires column == 0 <==> EndsLine(p)
    requires p.White? || p.Joined? ==> !StartsWhite(b, pos + |PieceText(p)|)
    ensures Settled(b, sc, ps + [p], pos + |PieceText(p)|, s + PieceValue(p), column)
  {
    hide PieceOk, Fits, PieceText, PieceValue, EndsLine, StartsWhite, Unmarked, Neighbours;
    MadeMore(b, sc.base, ps, pos, s, p);
    assert (ps + [p])[..|ps + [p]| - 1] == ps;
    hide Made;
  }

  /** One character more. */
  lemma SolidRead(b: seq<Byte>, sc: Script, ps: seq<Piece>, pos: nat, s: seq<Byte>, p: Piece)
    requires BeenRead(b, sc, ps, pos, s) && Unmarked(b, sc.base, ps) && PieceOk(p) && Here(b, pos, PieceText(p)) && (p.Escape? || p.Literal?)
    ensures BeenRead(b, sc, ps + [p], pos + |PieceText(p)|, s + PieceValue(p)) && Unmarked(b, sc.base, ps + [p])
  {
    if Fits(b, sc) {
      NextStarts(b, sc, ps, pos, s);
      NextPiece(b, sc, ps, pos, s);
      Starts(b, pos, p);
      StartsDiffer(b, pos);
      hide StartsEscape, StartsJoined, StartsWhite, StartsLiteral, Made, Fits, PieceOk, PieceText, IsBlankz, Unmarked;
      var q := sc.pieces[|ps|];
      if p.Escape? {
        SameEscape(b, pos, p, q);
      } else {
        SameLiteral(b, pos, p, q);
      }
    }
    hide PieceOk, Fits, PieceText, PieceValue, Unmarked, Text;
    MadeMore(b, sc.base, ps, pos, s, p);
    hide Made;
    UnmarkedMore(b, sc.base, ps, p);
  }

  /** If there is a scalar, the character is there to be read. */
  lemma SolidThere(b: seq<Byte>, sc: Script, ps: seq<Piece>, pos: nat, s: seq<Byte>) returns (q: Piece)
    requires BeenRead(b, sc, ps, pos, s) && (StartsEscape(b, pos) || StartsLiteral(b, pos))
    ensures Fits(b, sc) ==> PieceOk(q) && Here(b, pos, PieceText(q)) && (q.Escape? <==> StartsEscape(b, pos)) && (q.Literal? <==> StartsLiteral(b, pos))
  {
    q := Literal([]);
    StartsDiffer(b, pos);
    if Fits(b, sc) {
      NextStarts(b, sc, ps, pos, s);
      NextPiece(b, sc, ps, pos, s);
      q := sc.pieces[|ps|];
    }
  }

  lemma BreakIsBreak(b: seq<Byte>, pos: nat)
    ensures IsBreak(b, pos) ==> StartsWhite(b, pos) && !IsBlank(b, pos)
  {
  }

  lemma NothingJoined(b: seq<Byte>, pos: nat)
    requires At(b, pos) == BACKSLASH
    ensures Filling(b, pos, [BACKSLASH], [], pos + 1)
  {
    NothingFilled();
    assert [BACKSLASH] + LinesText([]) == [BACKSLASH] == b[pos..pos + 1];
  }

  lemma FirstJoined(b: seq<Byte>, pos: nat)
    requires StartsJoined(b, pos)
    ensures Filling(b, pos, [BACKSLASH], [Break(KindAt(b, pos + 1))], pos + 1 + |BreakText(KindAt(b, pos + 1))|)
  {
    hide Filling, KindAt, IsBreak, BreakText;
    NothingJoined(b, pos);
    FillsMore(b, pos, [BACKSLASH], [], pos + 1, Break(KindAt(b, pos + 1)));
    assert [] + [Break(KindAt(b, pos + 1))] == [Break(KindAt(b, pos + 1))];
  }

  lemma JoinStarts(b: seq<Byte>, sc: Script, ps: seq<Piece>, pos: nat, s: seq<Byte>)
    requires BeenRead(b, sc, ps, pos, s) && Unmarked(b, sc.base, ps) && StartsJoined(b, pos) && pos < |b|
    ensures InJoin(b, sc, ps, pos, s, [Break(KindAt(b, pos + 1))], pos + 1 + |BreakText(KindAt(b, pos + 1))|)
  {
    hide Made, Fits, Unmarked, PieceText, IsBreak, KindAt, Filling, Closed, BreakText, PieceOk;
    var kind := KindAt(b, pos + 1);
    FirstJoined(b, pos);
    if Fits(b, sc) {
      JoinBegins(b, sc, ps, pos, s);
      NothingJoined(b, pos);
      BreakIsBreak(b, pos + 1);
      FillerFound(b, pos, [BACKSLASH], [], pos + 1, sc.pieces[|ps|].lines);
      assert [Break(kind)] <= sc.pieces[|ps|].lines;
    }
  }

  lemma JoinGoesOn(b: seq<Byte>, sc: Script, ps: seq<Piece>, start: nat, s: seq<Byte>, lines: seq<Filler>, pos: nat)
    requires InJoin(b, sc, ps, start, s, lines, pos)
    ensures IsBlank(b, pos) ==> InJoin(b, sc, ps, start, s, lines + [Skip(At(b, pos))], pos + 1) && pos < |b| && !IsBreak(b, pos)
    ensures IsBreak(b, pos) ==>
      var kind := KindAt(b, pos); InJoin(b, sc, ps, start, s, lines + [Break(kind)], pos + |BreakText(kind)|) && pos + |BreakText(kind)| <= |b|
  {
    hide BeenRead, Fits, Unmarked, IsBreak, KindAt, Filling, Joining, IsBlank;
    if Fits(b, sc) {
      JoinFound(b, start, sc.pieces[|ps|], lines, pos);
    }
    BlankOrBreak(b, pos);
    if IsBlank(b, pos) {
      FillsMore(b, start, [BACKSLASH], lines, pos, Skip(At(b, pos)));
    }
    if IsBreak(b, pos) {
      FillsMore(b, start, [BACKSLASH], lines, pos, Break(KindAt(b, pos)));
    }
  }

  lemma JoinEnds(b: seq<Byte>, sc: Script, ps: seq<Piece>, start: nat, s: seq<Byte>, lines: seq<Filler>, pos: nat, column: nat)
    requires InJoin(b, sc, ps, start, s, lines, pos) && !StartsWhite(b, pos)
    requires column == 0 <==> lines[|lines| - 1].Break?
    ensures Settled(b, sc, ps + [Joined(lines)], pos, s + MoreBreaks(lines), column)
  {
    hide Made, Fits, Unmarked, StartsWhite, LinesText, LinesOk, MoreBreaks;
    var p := Joined(lines);
    if Fits(b, sc) {
      JoinFound(b, start, sc.pieces[|ps|], lines, pos);
    }
    SettledAfter(b, sc, ps, start, s, p, column);
  }

  lemma WhiteStarts(b: seq<Byte>, sc: Script, ps: seq<Piece>, pos: nat, s: seq<Byte>, column: nat)
    requires Settled(b, sc, ps, pos, s, column) && Unmarked(b, sc.base, ps) && StartsWhite(b, pos) && pos < |b|
    ensures InWhite(b, sc, ps, pos, s, [], [], pos)
  {
    hide Made, Fits, Unmarked, StartsWhite;
    NothingFilled();
    assert [] + LinesText([]) == [];
    assert Filling(b, pos, [], [], pos);
    if Fits(b, sc) {
      WhiteBegins(b, sc, ps, pos, s);
    }
  }

  lemma WhiteGoesOn(b: seq<Byte>, sc: Script, ps: seq<Piece>, start: nat, s: seq<Byte>, before: seq<Byte>, lines: seq<Filler>, pos: nat)
    requires InWhite(b, sc, ps, start, s, before, lines, pos)
    ensures IsBlank(b, pos) ==> pos < |b| && !IsBreak(b, pos)
    ensures IsBlank(b, pos) && lines == [] ==> InWhite(b, sc, ps, start, s, before + [b[pos]], [], pos + 1)
    ensures IsBlank(b, pos) && lines != [] ==> InWhite(b, sc, ps, start, s, before, lines + [Skip(At(b, pos))], pos + 1)
    ensures IsBreak(b, pos) ==>
      var kind := KindAt(b, pos); InWhite(b, sc, ps, start, s, before, lines + [Break(kind)], pos + |BreakText(kind)|) && pos + |BreakText(kind)| <= |b|
  {
    hide BeenRead, Fits, Unmarked, IsBreak, KindAt, Filling, Whitening, IsBlank;
    if Fits(b, sc) {
      WhiteFound(b, start, sc.pieces[|ps|], before, lines, pos);
    }
    BlankOrBreak(b, pos);
    if IsBlank(b, pos) {
      if lines == [] {
        HeadGrows(b, start, before, pos);
      } else {
        FillsMore(b, start, before, lines, pos, Skip(At(b, pos)));
      }
    }
    if IsBreak(b, pos) {
      FillsMore(b, start, before, lines, pos, Break(KindAt(b, pos)));
    }
  }

  lemma WhiteEnds(b: seq<Byte>, sc: Script, ps: seq<Piece>, start: nat, s: seq<Byte>, before: seq<Byte>, lines: seq<Filler>, pos: nat, column: nat)
    requires InWhite(b, sc, ps, start, s, before, lines, pos) && !StartsWhite(b, pos) && (before != [] || lines != [])
    requires column == 0 <==> lines != [] && lines[|lines| - 1].Break?
    ensures LinesOk(lines)
    ensures Settled(b, sc, ps + [White(before, lines)], pos, s + (if lines == [] then before else Folded(lines)), column)
  {
    hide Made, Fits, Unmarked, StartsWhite, LinesText, MoreBreaks, Folded;
    var p := White(before, lines);
    if Fits(b, sc) {
      WhiteFound(b, start, sc.pieces[|ps|], before, lines, pos);
    }
    SettledAfter(b, sc, ps, start, s, p, column);
  }

  /** The closing quote. */
  lemma Finished(b: seq<Byte>, sc: Script, ps: seq<Piece>, pos: nat, s: seq<Byte>)
    requires BeenRead(b, sc, ps, pos, s) && Unmarked(b, sc.base, ps) && pos < |b| && b[pos] == QUOTE
    ensures Fits(b, Script(sc.base, ps)) && s == Value(ps) && pos == sc.base + |Text(ps)|
    ensures Fits(b, sc) ==> ps == sc.pieces
  {
    hide Unmarked, WellPieced, Text, Value, Here;
    if Fits(b, sc) {
      NextStarts(b, sc, ps, pos, s);
    }
    QuoteHere(b, pos);
    HereSplit(b, sc.base, Text(ps), [QUOTE]);
  }

  lemma QuoteHere(b: seq<Byte>, pos: nat)
    requires pos < |b| && b[pos] == QUOTE
    ensures Here(b, pos, [QUOTE]) && At(b, pos) == QUOTE
  {
  }

  lemma CodeLengths(letter: Byte)
    ensures CodeLength(letter) == 0 || CodeLength(letter) == 2 || CodeLength(letter) == 4 || CodeLength(letter) == 8
    ensures Escaped(letter).Some? || CodeLength(letter) > 0 ==> letter != 0
  {
  }

  lemma EscapeReads(b: seq<Byte>, pos: nat, q: Piece)
    requires q.Escape? && PieceOk(q) && Here(b, pos, PieceText(q))
    ensures Escaped(At(b, pos + 1)).Some? || CodeLength(At(b, pos + 1)) > 0
  {
    hide Denotes, Named, Escaped, CodeLength;
    EscapeStarts(b, pos, q.notation, q.c);
    EscapedIs(At(b, pos + 1));
  }

  lemma CodeReads(b: seq<Byte>, pos: nat, q: Piece)
    requires q.Escape? && PieceOk(q) && Here(b, pos, PieceText(q)) && CodeLength(At(b, pos + 1)) > 0
    ensures var n := CodeLength(At(b, pos + 1));
      && pos + 2 + n <= |b| && (forall j | pos + 2 <= j < pos + 2 + n :: IsHex(b[j])) && HexValue(b[pos + 2..pos + 2 + n]) == q.c
  {
    hide Denotes, Named, Escaped, CodeLength, IsHex, HexValue;
    EscapeStarts(b, pos, q.notation, q.c);
    EscapedIs(At(b, pos + 1));
    if q.notation.ByCode? {
      var n, digits := CodeLength(At(b, pos + 1)), q.notation.digits;
      DenotedDigits(digits, q.c);
      DenotesIs(digits, q.c);
      forall j | pos + 2 <= j < pos + 2 + n ensures IsHex(b[j]) {
        HereAt(b, pos + 2, digits, j - pos - 2);
      }
    }
  }

  lemma OneEscape(b: seq<Byte>, pos: nat, p: Piece)
    requires p.Escape? && PieceOk(p) && Here(b, pos, PieceText(p))
    ensures forall q: Piece | q.Escape? && PieceOk(q) && Here(b, pos, PieceText(q)) :: q == p
  {
    hide PieceOk, PieceText, Here;
    forall q: Piece | q.Escape? && PieceOk(q) && Here(b, pos, PieceText(q)) ensures q == p {
      SameEscape(b, pos, p, q);
    }
  }

  lemma EscapeLength(p: Piece)
    requires p.Escape?
    ensures |PieceText(p)| == 2 + match p.notation case ByName(_) => 0 case ByCode(digits) => |digits|
  {
  }

  lemma DigitsHere(b: seq<Byte>, pos: nat, n: nat)
    requires pos + n <= |b|
    ensures Here(b, pos, b[pos..pos + n])
  {
  }

  class Scanner {
    const buffer: seq<Byte>
    var pos: nat
    var column: nat

    constructor (buffer: seq<Byte>, pos: nat, column: nat)
      ensures this.buffer == buffer && this.pos == pos && this.column == column
    {
      this.buffer, this.pos, this.column := buffer, pos, column;
    }

    /** Reads the digits of an escape code. */
    method ScanCode(length: nat) returns (ok: bool, value: nat)
      requires pos <= |buffer|
      ensures ok <==> pos + length <= |buffer| && forall j | pos <= j < pos + length :: IsHex(buffer[j])
      ensures ok ==> value == HexValue(buffer[pos..pos + length])
    {
      value := 0;
      for k := 0 to length
        invariant pos + k <= |buffer| && forall j | pos <= j < pos + k :: IsHex(buffer[j])
        invariant value == HexValue(buffer[pos..pos + k])
      {
        if !IsHex(At(buffer, pos + k)) {
          return false, value;
        }
        value := value * 16 + AsHex(At(buffer, pos + k));
        assert buffer[pos..pos + k + 1][..k] == buffer[pos..pos + k];
      }
      return true, value;
    }

    /** Reads an escape sequence, in any of its notations; it fails exactly if there is none. */
    method ScanEscape() returns (ok: bool, s: seq<Byte>, ghost p: Piece)
      requires pos < |buffer| && StartsEscape(buffer, pos)
      modifies this
      ensures ok ==> p.Escape? && PieceOk(p) && Here(buffer, old(pos), PieceText(p))
      ensures ok ==> s == PieceValue(p) && pos == old(pos) + |PieceText(p)| && old(pos) < pos <= |buffer| && column > old(column)
      ensures forall q: Piece | q.Escape? && PieceOk(q) && Here(buffer, old(pos), PieceText(q)) :: ok && p == q
    {
      hide Escaped, CodeLength, Encode, IsBreak, HexValue, Denotes, PieceText, Named, AsHex, IsHex, PieceOk;
      ghost var start := pos;
      s, p := [], Literal([]);
      var letter := At(buffer, pos + 1);
      var simple, length := Escaped(letter), CodeLength(letter);
      EscapedIs(letter);
      CodeLengths(letter);
      if simple.None? && length == 0 {
        forall q: Piece | q.Escape? && PieceOk(q) && Here(buffer, start, PieceText(q)) ensures false {
          EscapeReads(buffer, start, q);
        }
        return false, s, p;
      }
      pos, column := pos + 2, column + 2;
      if simple.Some? {
        p := Escape(Named(letter).value, ByName(letter));
        EscapeMade(buffer, start, p.c, p.notation);
        OneEscape(buffer, start, p);
        EscapeLength(p);
        return true, simple.value, p;
      }
      var value;
      ok, value := ScanCode(length);
      if !ok {
        forall q: Piece | q.Escape? && PieceOk(q) && Here(buffer, start, PieceText(q)) ensures false {
          CodeReads(buffer, start, q);
        }
        return false, s, p;
      }
      ghost var digits := buffer[pos..pos + length];
      DigitsHere(buffer, pos, length);
      DenotesIs(digits, value);
      ok, s := WriteCode(value);
      if ok {
        p := Escape(value, ByCode(digits));
        EscapeMade(buffer, start, p.c, p.notation);
        OneEscape(buffer, start, p);
        EscapeLength(p);
      } else {
        forall q: Piece | q.Escape? && PieceOk(q) && Here(buffer, start, PieceText(q)) ensures false {
          CodeReads(buffer, start, q);
        }
      }
      pos, column := pos + length, column + length;
    }

    /** Reads a character that stands for itself. */
    method Read() returns (ok: bool, t: seq<Byte>)
      requires pos < |buffer| && StartsLiteral(buffer, pos)
      modifies this
      ensures ok ==> PieceOk(Literal(t)) && Here(buffer, old(pos), t)
      ensures ok ==> pos == old(pos) + |t| && old(pos) < pos <= |buffer| && column > old(column)
      ensures forall q: Piece | q.Literal? && PieceOk(q) && Here(buffer, old(pos), PieceText(q)) :: ok && q == Literal(t)
    {
      hide IsBlankz;
      var w := Width(buffer[pos]);
      if w == 0 || pos + w > |buffer| {
        forall q: Piece | q.Literal? && PieceOk(q) && Here(buffer, pos, PieceText(q)) ensures false {
          HereAt(buffer, pos, q.text, 0);
        }
        return false, [];
      }
      t := buffer[pos..pos + w];
      LiteralMade(buffer, pos);
      forall q: Piece | q.Literal? && PieceOk(q) && Here(buffer, pos, PieceText(q)) ensures q == Literal(t) {
        SameLiteral(buffer, pos, Literal(t), q);
      }
      pos, column := pos + w, column + 1;
      return true, t;
    }

    /** The loop over characters that are not blank. A line break that is escaped ends it. */
    method ScanNonBlanks(s0: seq<Byte>, ghost sc: Script, ghost ps0: seq<Piece>)
      returns (ok: bool, s: seq<Byte>, leadingBlanks: bool, ghost ps: seq<Piece>, ghost start: nat)
      requires pos < |buffer| && Settled(buffer, sc, ps0, pos, s0, column) && Unmarked(buffer, sc.base, ps0)
      modifies this
      ensures Fits(buffer, sc) ==> ok
      ensures ok ==> old(pos) <= pos <= |buffer| && (leadingBlanks ==> old(pos) < pos)
      ensures ok && !leadingBlanks ==> Settled(buffer, sc, ps, pos, s, column) && Unmarked(buffer, sc.base, ps)
      ensures ok && !leadingBlanks ==> At(buffer, pos) == QUOTE || IsBlankz(buffer, pos)
      ensures ok && leadingBlanks ==> column == 0 && start < |buffer| && InJoin(buffer, sc, ps, start, s, [Break(KindAt(buffer, start + 1))], pos)
    {
      hide *;
      s, leadingBlanks, ps, start := s0, false, ps0, pos;
      SettledIs(buffer, sc, ps, pos, s, column);
      while !IsBlankz(buffer, pos)
        invariant old(pos) <= pos <= |buffer|
        invariant Settled(buffer, sc, ps, pos, s, column) && Unmarked(buffer, sc.base, ps)
        decreases |buffer| - pos
      {
        BlankzBehind(buffer, pos);
        SettledIs(buffer, sc, ps, pos, s, column);
        if At(buffer, pos) == QUOTE {
          return true, s, false, ps, start;
        }
        StartsAre(buffer, pos);
        if At(buffer, pos) == BACKSLASH && IsBreak(buffer, pos + 1) {
          start := pos;
          JoinStarts(buffer, sc, ps, pos, s);
          pos, column := pos + 1, column + 1;
          SkipLine();
          return true, s, true, ps, start;
        }
        ghost var q := SolidThere(buffer, sc, ps, pos, s);
        ghost var p: Piece, from := Literal([]), pos;
        var t;
        if At(buffer, pos) == BACKSLASH {
          ok, t, p := ScanEscape();
        } else {
          ok, t := Read();
          p := Literal(t);
          LiteralIs(p);
        }
        if !ok {
          return;
        }
        SolidRead(buffer, sc, ps, from, s, p);
        SettledSolid(buffer, sc, ps, from, s, p, column);
        s, ps := s + t, ps + [p];
      }
      ok := true;
    }

    /** Takes a line break; all but two kinds become a line feed. */
    method ReadLine() returns (t: seq<Byte>)
      requires pos <= |buffer| && IsBreak(buffer, pos)
      modifies this
      ensures var kind := KindAt(buffer, old(pos));
        pos == old(pos) + |BreakText(kind)| <= |buffer| && old(pos) < pos && column == 0 && t == BreakValue(kind)
    {
      KindIsHere(buffer, pos);
      if At(buffer, pos) == 0x0D && At(buffer, pos + 1) == 0x0A {
        t := [0x0A];
        pos := pos + 2;
      } else if At(buffer, pos) == 0x0D || At(buffer, pos) == 0x0A {
        t := [0x0A];
        pos := pos + 1;
      } else if At(buffer, pos) == 0xC2 {
        t := [0x0A];
        pos := pos + 2;
      } else {
        t := buffer[pos..pos + 3];
        pos := pos + 3;
      }
      column := 0;
    }

    /** The loop over blanks and line breaks, and what it adds to the text. */
    method ScanBlanks(s0: seq<Byte>, leading0: bool, ghost sc: Script, ghost ps0: seq<Piece>, ghost start: nat)
      returns (s: seq<Byte>, ghost ps: seq<Piece>)
      requires pos <= |buffer|
      requires !leading0 ==> Settled(buffer, sc, ps0, pos, s0, column) && Unmarked(buffer, sc.base, ps0)
      requires leading0 ==> column == 0 && InJoin(buffer, sc, ps0, start, s0, [Break(KindAt(buffer, start + 1))], pos)
      modifies this
      ensures old(pos) <= pos <= |buffer| && (!leading0 && StartsWhite(buffer, old(pos)) ==> old(pos) < pos)
      ensures Settled(buffer, sc, ps, pos, s, column)
    {
      hide *;
      var leading := leading0;
      var leadingBreak: seq<Byte>, trailingBreaks: seq<Byte>, whitespaces: seq<Byte> := [], [], [];
      ghost var lines: seq<Filler>, before: seq<Byte>, from := [], [], start;
      StartsWhiteIs(buffer, pos);
      NothingFilled();
      ps := ps0;
      if leading {
        lines := [Break(KindAt(buffer, start + 1))];
        LinesGrow([], lines[0]);
        assert [] + [lines[0]] == lines;
      } else if StartsWhite(buffer, pos) {
        from := pos;
        WhiteStarts(buffer, sc, ps, pos, s0, column);
      }
      ghost var white := StartsWhite(buffer, pos);
      while IsBlank(buffer, pos) || IsBreak(buffer, pos)
        invariant old(pos) <= pos <= |buffer| && (pos == old(pos) ==> (white <==> StartsWhite(buffer, pos)) && column == old(column))
        invariant leading0 ==> InJoin(buffer, sc, ps, from, s0, lines, pos) && leading && leadingBreak == []
        invariant !leading0 && white ==> InWhite(buffer, sc, ps, from, s0, before, lines, pos)
        invariant !leading0 && !white ==> pos == old(pos) && before == [] && lines == []
        invariant (leading <==> lines != []) && (pos == old(pos) || before != [] || lines != [])
        invariant !leading0 && lines != [] ==> lines[0].Break? && leadingBreak == BreakValue(lines[0].kind)
        invariant lines != [] ==> trailingBreaks == MoreBreaks(lines) && (column == 0 <==> lines[|lines| - 1].Break?)
        invariant lines == [] ==> whitespaces == before && (before != [] ==> column > 0) && trailingBreaks == [] && !leading0
        decreases |buffer| - pos
      {
        StartsWhiteIs(buffer, pos);
        if leading0 {
          JoinGoesOn(buffer, sc, ps, from, s0, lines, pos);
        } else {
          WhiteGoesOn(buffer, sc, ps, from, s0, before, lines, pos);
        }
        if IsBlank(buffer, pos) {
          if !leading {
            whitespaces := whitespaces + [buffer[pos]];
            before := before + [buffer[pos]];
          } else {
            ghost var f := Skip(At(buffer, pos));
            LinesGrow(lines, f);
            lines := lines + [f];
          }
          pos, column := pos + 1, column + 1;
        } else {
          ghost var f := Break(KindAt(buffer, pos));
          LinesGrow(lines, f);
          if !leading {
            whitespaces := [];
            leadingBreak := ReadLine();
            leading := true;
          } else {
            var t := ReadLine();
            trailingBreaks := trailingBreaks + t;
          }
          lines := lines + [f];
        }
      }
      StartsWhiteIs(buffer, pos);
      if leading0 {
        JoinEnds(buffer, sc, ps, from, s0, lines, pos, column);
        ps := ps + [Joined(lines)];
      } else if white {
        WhiteEnds(buffer, sc, ps, from, s0, before, lines, pos, column);
        ps := ps + [White(before, lines)];
      }
      if lines != [] && lines[0].Break? {
        FoldedIs(lines);
      }
      if leading {
        if |leadingBreak| > 0 && leadingBreak[0] == 0x0A {
          if |trailingBreaks| == 0 {
            s := s0 + [SPACE];
          } else {
            s := s0 + trailingBreaks;
          }
        } else {
          s := s0 + leadingBreak + trailingBreaks;
          assert s == s0 + (leadingBreak + trailingBreaks);
          assert leadingBreak == [] ==> s == s0 + trailingBreaks;
        }
      } else {
        s := s0 + whitespaces;
        assert whitespaces == [] ==> s == s0;
      }
    }

    /** yaml_parser_scan_flow_scalar, from a double quote: it reads the scalar if there is one, and fails if not. */
    method Scan(ghost sc: Script) returns (ok: bool, s: seq<Byte>, ghost ps: seq<Piece>)
      requires pos < |buffer| && buffer[pos] == QUOTE
      modifies this
      ensures ok ==> Fits(buffer, Script(old(pos) + 1, ps)) && s == Value(ps) && pos == old(pos) + 1 + |Text(ps)| + 1
      ensures Fits(buffer, sc) && sc.base == old(pos) + 1 ==> ok && ps == sc.pieces
    {
      hide *;
      pos, column, s, ps := pos + 1, column + 1, [], [];
      ghost var base := pos;
      ghost var sc1 := if sc.base == base then sc else Script(base, []);
      SettledAtStart(buffer, sc1, column);
      while true
        invariant old(pos) < pos <= |buffer|
        invariant Settled(buffer, sc1, ps, pos, s, column)
        decreases |buffer| - pos
      {
        if Fits(buffer, sc1) {
          NoMark(buffer, sc1, ps, pos, s, column);
        }
        if column == 0 && Indicator(buffer, pos) {
          return false, s, ps;
        }
        if At(buffer, pos) == 0 {
          return false, s, ps;
        }
        LookedAt(buffer, sc1, ps, pos, s, column);
        NotBehind(buffer, pos);
        ghost var round := pos;
        var leading;
        ghost var start;
        ok, s, leading, ps, start := ScanNonBlanks(s, sc1, ps);
        if !ok {
          return;
        }
        if At(buffer, pos) == QUOTE {
          NotWhite(buffer, pos);
          if leading {
            ghost var lines := [Break(KindAt(buffer, start + 1))];
            JoinEnds(buffer, sc1, ps, start, s, lines, pos, column);
            NothingMore(s, lines);
            ps := ps + [Joined(lines)];
            LookedAt(buffer, sc1, ps, pos, s, column);
          }
          break;
        }
        BlankzIs(buffer, pos);
        StartsWhiteIs(buffer, pos);
        s, ps := ScanBlanks(s, leading, sc1, ps, start);
      }
      SettledIs(buffer, sc1, ps, pos, s, column);
      NotBehind(buffer, pos);
      Finished(buffer, sc1, ps, pos, s);
      pos, column := pos + 1, column + 1;
      ok := true;
    }

    method SkipLine()
      requires pos <= |buffer| && IsBreak(buffer, pos)
      modifies this
      ensures pos == old(pos) + |BreakText(KindAt(buffer, old(pos)))| && old(pos) < pos <= |buffer| && column == 0
    {
      KindIsHere(buffer, pos);
      if At(buffer, pos) == 0x0D && At(buffer, pos + 1) == 0x0A {
        pos := pos + 2;
      } else {
        pos := pos + Width(At(buffer, pos));
      }
      column := 0;
    }
  }

  lemma BlankzBehind(b: seq<Byte>, pos: nat)
    requires !IsBlankz(b, pos)
    ensures pos < |b| && At(b, pos) == b[pos]
  {
  }

  lemma NotBehind(b: seq<Byte>, pos: nat)
    requires At(b, pos) != 0
    ensures pos < |b| && At(b, pos) == b[pos]
  {
  }

  lemma BlankzIs(b: seq<Byte>, pos: nat)
    ensures At(b, pos) != 0 ==> (IsBlankz(b, pos) <==> IsBlank(b, pos) || IsBreak(b, pos))
  {
  }

  lemma NotWhite(b: seq<Byte>, pos: nat)
    requires At(b, pos) == QUOTE
    ensures !StartsWhite(b, pos) && !Indicator(b, pos) && At(b, pos) != 0
  {
  }

  lemma StartsWhiteIs(b: seq<Byte>, pos: nat)
    ensures StartsWhite(b, pos) <==> IsBlank(b, pos) || IsBreak(b, pos)
    ensures StartsWhite(b, pos) ==> pos < |b|
  {
  }

  lemma StartsAre(b: seq<Byte>, pos: nat)
    requires !IsBlankz(b, pos) && At(b, pos) != QUOTE
    ensures At(b, pos) == BACKSLASH && IsBreak(b, pos + 1) ==> StartsJoined(b, pos)
    ensures At(b, pos) == BACKSLASH && !IsBreak(b, pos + 1) ==> StartsEscape(b, pos) && !StartsLiteral(b, pos)
    ensures At(b, pos) != BACKSLASH ==> StartsLiteral(b, pos) && !StartsEscape(b, pos)
  {
  }

  lemma LiteralIs(p: Piece)
    requires p.Literal?
    ensures PieceText(p) == PieceValue(p) == p.text
  {
  }

  lemma SettledIs(b: seq<Byte>, sc: Script, ps: seq<Piece>, pos: nat, s: seq<Byte>, column: nat)
    requires Settled(b, sc, ps, pos, s, column)
    ensures BeenRead(b, sc, ps, pos, s)
  {
  }

  lemma SettledSolid(b: seq<Byte>, sc: Script, ps: seq<Piece>, pos: nat, s: seq<Byte>, p: Piece, column: nat)
    requires BeenRead(b, sc, ps + [p], pos + |PieceText(p)|, s + PieceValue(p)) && Unmarked(b, sc.base, ps) && (p.Escape? || p.Literal?) && column > 0
    ensures Settled(b, sc, ps + [p], pos + |PieceText(p)|, s + PieceValue(p), column)
  {
    assert (ps + [p])[..|ps + [p]| - 1] == ps;
    hide BeenRead, Unmarked, PieceText, PieceValue;
  }

  lemma SettledAtStart(b: seq<Byte>, sc: Script, column: nat)
    requires sc.base <= |b| && column > 0
    ensures Settled(b, sc, [], sc.base, [], column)
  {
    MadeNothing(b, sc.base);
  }

  lemma FoldedIs(lines: seq<Filler>)
    requires lines != [] && lines[0].Break?
    ensures var first, more := BreakValue(lines[0].kind), MoreBreaks(lines);
      && first != [] && (first == [0x0A] <==> first[0] == 0x0A)
      && Folded(lines) == if first != [0x0A] then first + more else if more == [] then [SPACE] else more
  {
  }

  lemma NothingMore(s: seq<Byte>, lines: seq<Filler>)
    requires |lines| == 1
    ensures s + MoreBreaks(lines) == s
  {
  }

  // ---- the writer

  /** The bits of a character's first byte. */
  function LeadBits(b: Byte): (r: nat) {
    match Width(b) case 1 => b % 128 case 2 => b % 32 case 3 => b % 16 case _ => b % 8
  }

  function DecodeTo(e: seq<Byte>, k: nat): (r: nat)
    requires 1 <= k <= |e|
  {
    if k == 1 then LeadBits(e[0]) else DecodeTo(e, k - 1) * 64 + e[k - 1] % 64
  }

  lemma DecodedBack(c: Rune)
    ensures DecodeTo(Encode(c), |Encode(c)|) == c
  {
    hide DecodeTo, LeadBits;
    var e := Encode(c);
    DecodeStep(e, 1);
    LeadIs(e[0]);
    Sextets(c);
    if |e| >= 2 { DecodeStep(e, 2); }
    if |e| >= 3 { DecodeStep(e, 3); }
    if |e| >= 4 { DecodeStep(e, 4); }
    Followers(c / 4096 % 64, c / 64 % 64, c % 64);
  }

  lemma LeadIs(b: Byte)
    ensures b < 0x80 ==> LeadBits(b) == b
    ensures 0xC0 <= b < 0xE0 ==> LeadBits(b) == b - 0xC0
    ensures 0xE0 <= b < 0xF0 ==> LeadBits(b) == b - 0xE0
    ensures 0xF0 <= b < 0xF8 ==> LeadBits(b) == b - 0xF0
  {
  }

  lemma Followers(x: nat, y: nat, z: nat)
    requires x < 64 && y < 64 && z < 64
    ensures (0x80 + x) % 64 == x && (0x80 + y) % 64 == y && (0x80 + z) % 64 == z
  {
  }

  lemma Sextets(c: nat)
    ensures c == c / 64 * 64 + c % 64
    ensures c / 64 == c / 4096 * 64 + c / 64 % 64
    ensures c / 4096 == c / 262144 * 64 + c / 4096 % 64
  {
    assert c / 4096 == c / 64 / 64;
    assert c / 262144 == c / 4096 / 64;
  }

  /** The characters that are escaped. */
  predicate Special(value: seq<Byte>, i: nat, unicode: bool) {
    || !IsPrintable(value, i)
    || (!unicode && At(value, i) > 0x7F)
    || IsBom(value, i)
    || IsBreak(value, i)
    || At(value, i) == QUOTE
    || At(value, i) == BACKSLASH
  }

  /** What may not stand for itself: what is not printable (section 5.1 of YAML 1.1), line breaks, the byte order mark and the
      two signs with a meaning of their own; and what is not ASCII, unless that is wanted. The tab is escaped too, and
      whatever is beyond the basic plane. */
  predicate MustEscape(c: Rune, unicode: bool) {
    || c < 0x20 || 0x7F <= c < 0xA0 || c == 0x2028 || c == 0x2029 || c == 0xFEFF || c >= 0xFFFE
    || c == 0x22 || c == 0x5C
    || (!unicode && c > 0x7F)
  }

  predicate StartsWithBom(value: seq<Byte>) {
    |value| >= 3 && value[..3] == [0xEF, 0xBB, 0xBF]
  }

  /** The writer looks for the byte order mark at the start of the value alone, and then escapes whatever there is. */
  lemma SpecialIs(value: seq<Byte>, i: nat, unicode: bool, c: Rune)
    requires Here(value, i, Encode(c))
    ensures Special(value, i, unicode) <==> MustEscape(c, unicode) || StartsWithBom(value)
    ensures At(value, i) == SPACE <==> c == SPACE
  {
    EncodedHere(value, i, c);
    EncodedSpecial(c, unicode);
    BomIs(value, i);
    hide IsPrintable, IsBreak, IsBlankz, MustEscape, StartsWithBom;
  }

  lemma BomIs(value: seq<Byte>, i: nat)
    ensures IsBom(value, i) <==> StartsWithBom(value)
  {
  }

  lemma EncodedSpecial(c: Rune, unicode: bool)
    ensures var e := Encode(c);
      MustEscape(c, unicode) <==>
        !IsPrintable(e, 0) || (!unicode && e[0] > 0x7F) || IsBreak(e, 0) || e[0] == QUOTE || e[0] == BACKSLASH
    ensures Encode(c)[0] == SPACE <==> c == SPACE
  {
    if c <= 0x7F {
    } else if c <= 0x7FF {
      TwoBytes(c);
    } else if c <= 0xFFFF {
      ThreeBytes(c);
    }
  }

  lemma TwoBytes(c: Rune)
    requires 0x7F < c <= 0x7FF
    ensures var e := Encode(c); (IsPrintable(e, 0) <==> c >= 0xA0) && (IsBreak(e, 0) <==> c == 0x85) && e[0] > 0x7F
  {
    var h, l := c / 64, c % 64;
    assert c == h * 64 + l && Encode(c) == [0xC0 + h, 0x80 + l];
  }

  lemma ThreeBytes(c: Rune)
    requires 0x7FF < c <= 0xFFFF
    ensures var e := Encode(c);
      (IsPrintable(e, 0) <==> c != 0xFEFF && c < 0xFFFE) && (IsBreak(e, 0) <==> c == 0x2028 || c == 0x2029) && e[0] > 0x7F
  {
    var h, m, l := c / 4096, c / 64 % 64, c % 64;
    Sextets(c);
    assert c == h * 4096 + m * 64 + l && Encode(c) == [0xE0 + h, 0x80 + m, 0x80 + l];
  }

  /** The text of a character looks the same wherever it stands. */
  lemma EncodedHere(b: seq<Byte>, pos: nat, c: Rune)
    requires Here(b, pos, Encode(c))
    ensures At(b, pos) == Encode(c)[0] && pos < |b|
    ensures IsBlankz(b, pos) <==> IsBlankz(Encode(c), 0)
    ensures IsBreak(b, pos) <==> IsBreak(Encode(c), 0)
    ensures IsPrintable(b, pos) <==> IsPrintable(Encode(c), 0)
  {
    var e := Encode(c);
    forall j | 0 <= j < |e| ensures At(b, pos + j) == At(e, j) {
      HereAt(b, pos, e, j);
    }
    assert At(b, pos + 0) == At(e, 0);
    if |e| >= 2 { assert At(b, pos + 1) == At(e, 1); }
    if |e| >= 3 { assert At(b, pos + 2) == At(e, 2); }
  }

  lemma LiteralIsPlain(value: seq<Byte>, i: nat, unicode: bool, c: Rune)
    requires Here(value, i, Encode(c)) && !Special(value, i, unicode) && At(value, i) != SPACE
    ensures Plain(Encode(c)) && !MustEscape(c, unicode)
  {
    EncodedHere(value, i, c);
    SpecialIs(value, i, unicode, c);
    hide MustEscape, StartsWithBom;
  }

  lemma SpaceIsPlain(value: seq<Byte>, i: nat, j: nat, unicode: bool)
    requires !Special(value, i, unicode) && At(value, j) == SPACE
    ensures !Special(value, j, unicode)
  {
  }

  lemma SpaceIs(value: seq<Byte>, i: nat, c: Rune)
    requires Here(value, i, Encode(c)) && At(value, i) == SPACE
    ensures c == SPACE && Encode(c) == [SPACE]
  {
    HereAt(value, i, Encode(c), 0);
  }

  lemma {:induction false} EncodedSplit(cs: seq<Rune>, k: nat)
    requires k <= |cs|
    ensures |EncodeAll(cs[..k])| <= |EncodeAll(cs)| && EncodeAll(cs)[..|EncodeAll(cs[..k])|] == EncodeAll(cs[..k])
    decreases |cs|
  {
    if k == |cs| {
      assert cs[..k] == cs;
    } else {
      EncodedSplit(cs[..|cs| - 1], k);
      assert cs[..|cs| - 1][..k] == cs[..k];
    }
  }

  /** The next character of the value. */
  lemma NextRune(value: seq<Byte>, cs: seq<Rune>, k: nat, i: nat)
    requires value == EncodeAll(cs) && k <= |cs| && i == |EncodeAll(cs[..k])|
    ensures i <= |value| && (i == |value| <==> k == |cs|)
    ensures k < |cs| ==> Here(value, i, Encode(cs[k])) && i + |Encode(cs[k])| == |EncodeAll(cs[..k + 1])| <= |value|
    ensures k < |cs| ==> value[..i + |Encode(cs[k])|] == value[..i] + Encode(cs[k]) && Width(At(value, i)) == |Encode(cs[k])|
  {
    EncodedSplit(cs, k);
    if k == |cs| {
      assert cs[..k] == cs;
    } else {
      EncodedSplit(cs, k + 1);
      assert cs[..k + 1][..k] == cs[..k];
      var e := Encode(cs[k]);
      assert EncodeAll(cs[..k + 1]) == EncodeAll(cs[..k]) + e;
      hide EncodeAll, Encode;
      assert value[..i] + e == value[..i + |e|];
      assert value[i..i + |e|] == e;
      HereAt(value, i, e, 0);
    }
  }

  /** The notation that the writer has for `c`. */
  function NotationOf(c: Rune): (r: Notation) {
    if Letter(c) != 0 then ByName(Letter(c)) else ByCode(Hex(c, CodeWidth(c)))
  }

  lemma LetterNames(c: Rune)
    requires Letter(c) != 0
    ensures Named(Letter(c)) == Some(c)
  {
  }

  lemma NotationIsOk(c: Rune)
    ensures PieceOk(Escape(c, NotationOf(c)))
  {
    if Letter(c) != 0 {
      LetterNames(c);
    } else {
      hide Letter, Denotes;
      HexRoundTrip(c, CodeWidth(c));
      DenotesIs(Hex(c, CodeWidth(c)), c);
    }
  }

  // How lines are folded.
  datatype Layout = Layout(lineBreak: WrittenBreak, indent: nat)

  function Spaces(n: nat): (r: seq<Byte>) {
    seq(n, _ => SPACE)
  }

  function Skips(n: nat): (r: seq<Filler>) {
    seq(n, _ => Skip(SPACE))
  }

  function Fold(y: Layout): (r: Piece) {
    White([], [Break(y.lineBreak)] + Skips(y.indent))
  }

  lemma {:induction false} SkipsText(b: LineBreak, n: nat)
    ensures LinesText([Break(b)] + Skips(n)) == BreakText(b) + Spaces(n) && MoreBreaks([Break(b)] + Skips(n)) == []
  {
    hide BreakText, LinesText, MoreBreaks;
    if n == 0 {
      NothingFilled();
      LinesGrow([], Break(b));
      assert [] + [Break(b)] == [Break(b)] + Skips(0);
      assert BreakText(b) + Spaces(0) == BreakText(b);
    } else {
      SkipsText(b, n - 1);
      LinesGrow([Break(b)] + Skips(n - 1), Skip(SPACE));
      assert ([Break(b)] + Skips(n - 1)) + [Skip(SPACE)] == [Break(b)] + Skips(n);
      assert (BreakText(b) + Spaces(n - 1)) + [SPACE] == BreakText(b) + Spaces(n);
    }
  }

  lemma FoldIs(y: Layout)
    requires y.indent >= 1
    ensures PieceOk(Fold(y)) && !EndsLine(Fold(y))
    ensures PieceText(Fold(y)) == BreakText(y.lineBreak) + Spaces(y.indent) && PieceValue(Fold(y)) == [SPACE]
  {
    SkipsText(y.lineBreak, y.indent);
    hide MoreBreaks, LinesText;
  }

  predicate Solid(p: Piece) {
    p.Escape? || p.Literal?
  }

  predicate IsFold(p: Piece) {
    p.White? && p.lines != []
  }

  /** What the writer makes: literals for what need not be escaped, and escapes for the rest, and for a space behind a fold. */
  ghost predicate AsWritten(ps: seq<Piece>, bom: bool, unicode: bool) {
    forall k | 0 <= k < |ps| ::
      match ps[k]
      case Escape(c, n) => (n == NotationOf(c) && (MustEscape(c, unicode) || bom)) || (c == SPACE && n == ByName(SPACE))
      case Literal(text) => exists c: Rune :: text == Encode(c) && !MustEscape(c, unicode)
      case White(_, lines) => !EndsLine(ps[k])
      case Joined(_) => false
  }

  // ---- where lines are broken

  // The room for a scalar: the column behind its quote, the indentation, the best width, and whether lines may be broken.
  datatype Room = Room(from: nat, indent: nat, width: int, breaks: bool)

  /** Where the writing goes on behind the pieces, counted in characters. */
  function ColumnBehind(room: Room, ps: seq<Piece>): (r: nat) {
    if ps == [] then room.from
    else
      var column := ColumnBehind(room, ps[..|ps| - 1]);
      match ps[|ps| - 1]
      case Escape(_, n) => column + |EscapeText(n)|
      case Literal(_) => column + 1
      case White(before, lines) => if lines == [] then column + |before| else room.indent
      case Joined(_) => room.indent
  }

  /** The last piece is a space that had to be escaped, behind a fold. */
  predicate SpaceEscaped(ps: seq<Piece>) {
    |ps| >= 2 && ps[|ps| - 1] == Escape(SPACE, ByName(SPACE)) && IsFold(ps[|ps| - 2])
  }

  /** Whether `p` may stand behind the pieces `ps`. A line is broken at a space inside the value that is behind the best
      width, unless another space is in front of it, and nowhere else; a space is escaped behind a fold alone. */
  predicate StandsBehind(room: Room, bom: bool, ps: seq<Piece>, p: Piece, last: bool) {
    match p
    case White(before, lines) =>
      if lines != [] then room.breaks && ColumnBehind(room, ps) > room.width && ps != [] && !last
      else !room.breaks || ColumnBehind(room, ps) <= room.width || ps == [] || (last && |before| == 1) || SpaceEscaped(ps)
    case Escape(c, _) => c == SPACE ==> bom || (ps != [] && IsFold(ps[|ps| - 1]))
    case _ => true
  }

  /** The pieces are broken into lines as they have to be. */
  predicate Broken(room: Room, bom: bool, ps: seq<Piece>, ended: bool) {
    forall k | 0 <= k < |ps| :: StandsBehind(room, bom, ps[..k], ps[k], ended && k == |ps| - 1)
  }

  /** How far the breaking is: the pieces so far, and what the writer knows of them. */
  predicate Breaking(room: Room, bom: bool, ps: seq<Piece>, pending: bool, spaces: bool, column: nat, started: bool, ended: bool) {
    && Broken(room, bom, ps, ended)
    && (started <==> ps != []) && (bom ==> !spaces)
    && (spaces <==> ps != [] && (ps[|ps| - 1].White? || SpaceEscaped(ps)))
    && column == ColumnBehind(room, ps) + if pending then 1 else 0
  }

  lemma BreakingStarts(room: Room, bom: bool, ended: bool)
    ensures Breaking(room, bom, [], false, false, room.from, false, ended)
  {
  }

  lemma BrokenGrows(room: Room, bom: bool, ps: seq<Piece>, p: Piece, ended: bool)
    requires Broken(room, bom, ps, false) && StandsBehind(room, bom, ps, p, ended)
    ensures Broken(room, bom, ps + [p], ended)
    ensures (ps + [p])[..|ps|] == ps
  {
    var qs := ps + [p];
    hide StandsBehind;
    forall k | 0 <= k < |qs| ensures StandsBehind(room, bom, qs[..k], qs[k], ended && k == |qs| - 1) {
      if k < |ps| {
        assert qs[..k] == ps[..k] && qs[k] == ps[k];
        assert StandsBehind(room, bom, ps[..k], ps[k], false && k == |ps| - 1);
      }
    }
  }

  lemma SolidBreaks(room: Room, bom: bool, ps: seq<Piece>, spaces: bool, column: nat, started: bool, p: Piece, ended: bool)
    requires Breaking(room, bom, ps, false, spaces, column, started, false) && Solid(p) && (p.Escape? && p.c == SPACE ==> bom)
    ensures Breaking(room, bom, ps + [p], false, false, column + if p.Escape? then |EscapeText(p.notation)| else 1, true, ended)
  {
    BrokenGrows(room, bom, ps, p, ended);
    hide Broken;
  }

  /** A space is written as it stands. */
  lemma SpaceBreaks(room: Room, bom: bool, ps: seq<Piece>, spaces: bool, column: nat, started: bool, ended: bool)
    requires Breaking(room, bom, ps, false, spaces, column, started, false) && !bom
    requires !room.breaks || spaces || column <= room.width || !started || ended
    requires ps != [] ==> !IsFold(ps[|ps| - 1])
    ensures Breaking(room, bom, WithSpace(ps), false, true, column + 1, true, ended)
  {
    if ps != [] && ps[|ps| - 1].White? {
      var init, before := ps[..|ps| - 1], ps[|ps| - 1].before;
      assert ps == init + [ps[|ps| - 1]];
      assert WithSpace(ps) == init + [White(before + [SPACE], [])];
      assert StandsBehind(room, bom, ps[..|ps| - 1], ps[|ps| - 1], false);
      BrokenInit(room, bom, ps);
      BrokenGrows(room, bom, init, White(before + [SPACE], []), ended);
    } else {
      BrokenGrows(room, bom, ps, White([SPACE], []), ended);
    }
  }

  lemma BrokenInit(room: Room, bom: bool, ps: seq<Piece>)
    requires Broken(room, bom, ps, false) && ps != []
    ensures Broken(room, bom, ps[..|ps| - 1], false)
  {
    hide StandsBehind;
    var init := ps[..|ps| - 1];
    forall k | 0 <= k < |init| ensures StandsBehind(room, bom, init[..k], init[k], false && k == |init| - 1) {
      assert init[..k] == ps[..k];
      assert StandsBehind(room, bom, ps[..k], ps[k], false && k == |ps| - 1);
    }
  }

  /** A space behind a fold, escaped. */
  lemma EscapedBreaks(room: Room, bom: bool, ps: seq<Piece>, column: nat, started: bool, ended: bool)
    requires Breaking(room, bom, ps, true, true, column, started, false) && !bom && ps != [] && IsFold(ps[|ps| - 1])
    ensures Breaking(room, bom, ps + [Escape(SPACE, ByName(SPACE))], false, true, column + 1, true, ended)
  {
    var p := Escape(SPACE, ByName(SPACE));
    BrokenGrows(room, bom, ps, p, ended);
    hide Broken;
  }

  /** The line is broken for a space; `pending` if another one is behind it. */
  lemma FoldBreaks(room: Room, y: Layout, bom: bool, ps: seq<Piece>, column: nat, pending: bool)
    requires Breaking(room, bom, ps, false, false, column, true, false) && !bom && y.indent == room.indent
    requires room.breaks && column > room.width
    ensures Breaking(room, bom, ps + [Fold(y)], pending, true, room.indent + if pending then 1 else 0, true, false)
  {
    BrokenGrows(room, bom, ps, Fold(y), false);
    hide Broken;
  }

  /** How far the writer is. `pending`: a backslash has been put for the space that comes next. */
  ghost predicate Writing(value: seq<Byte>, i: nat, ps: seq<Piece>, pending: bool, spaces: bool, unicode: bool) {
    && WellPieced(ps) && AsWritten(ps, StartsWithBom(value), unicode) && i <= |value| && Value(ps) == value[..i]
    && (pending ==> ps != [] && IsFold(ps[|ps| - 1]))
    && (ps != [] && IsFold(ps[|ps| - 1]) ==>
          spaces && i < |value| && (pending <==> At(value, i) == SPACE) && (pending ==> !Special(value, i, unicode)))
    && (ps != [] && !spaces ==> Solid(ps[|ps| - 1]))
  }

  /** What has been written for the pieces. */
  function Written(ps: seq<Piece>, pending: bool): (r: seq<Byte>) {
    if pending then Text(ps) + [BACKSLASH] else Text(ps)
  }

  lemma StartWriting(value: seq<Byte>, unicode: bool)
    ensures Writing(value, 0, [], false, false, unicode) && Written([], false) == []
  {
  }

  lemma AsWrittenGrows(ps: seq<Piece>, p: Piece, bom: bool, unicode: bool)
    requires AsWritten(ps, bom, unicode) && AsWritten([p], bom, unicode)
    ensures AsWritten(ps + [p], bom, unicode)
  {
    hide MustEscape, NotationOf, EndsLine;
    assert [p][0] == p;
  }

  lemma SolidGrows(value: seq<Byte>, i: nat, ps: seq<Piece>, pending: bool, spaces: bool, unicode: bool, p: Piece, i': nat, spaces': bool)
    requires Writing(value, i, ps, pending, spaces, unicode) && Solid(p) && PieceOk(p) && AsWritten([p], StartsWithBom(value), unicode)
    requires i <= i' <= |value| && value[..i'] == value[..i] + PieceValue(p)
    ensures Writing(value, i', ps + [p], false, spaces', unicode)
    ensures Text(ps + [p]) == Text(ps) + PieceText(p)
  {
    hide Text, Value, PieceValue, Plain, Special, PieceText, PieceOk, AsWritten, StartsWithBom;
    PiecesGrow(ps, p);
    AsWrittenGrows(ps, p, StartsWithBom(value), unicode);
    WellPiecedGrows(ps, p);
  }

  lemma NotPending(value: seq<Byte>, i: nat, ps: seq<Piece>, pending: bool, spaces: bool, unicode: bool)
    requires Writing(value, i, ps, pending, spaces, unicode)
    requires Special(value, i, unicode) || At(value, i) != SPACE
    ensures !pending
  {
  }

  lemma EscapedOrSpace(value: seq<Byte>, i: nat, unicode: bool, c: Rune)
    requires Here(value, i, Encode(c))
    ensures StartsWithBom(value) ==> Special(value, i, unicode)
    ensures Special(value, i, unicode) && c == SPACE ==> StartsWithBom(value)
    ensures Solid(Escape(c, NotationOf(c))) && Solid(Literal(Encode(c)))
  {
    SpecialIs(value, i, unicode, c);
    hide Special, StartsWithBom, NotationOf;
  }

  lemma FoldIsPending(value: seq<Byte>, i: nat, ps: seq<Piece>, spaces: bool, unicode: bool)
    requires Writing(value, i, ps, false, spaces, unicode) && At(value, i) == SPACE
    ensures ps != [] ==> !IsFold(ps[|ps| - 1])
  {
    hide Special, WellPieced, AsWritten, Value, StartsWithBom;
  }

  lemma FoldGrows(y: Layout, value: seq<Byte>, i: nat, ps: seq<Piece>, pending: bool, unicode: bool)
    requires Writing(value, i, ps, pending, false, unicode) && 0 < i < |value| - 1 && At(value, i) == SPACE && !Special(value, i, unicode)
    requires y.indent >= 1
    ensures !pending && value[..i + 1] == value[..i] + [SPACE]
    ensures Writing(value, i + 1, ps + [Fold(y)], At(value, i + 1) == SPACE, true, unicode)
    ensures Text(ps + [Fold(y)]) == Text(ps) + (BreakText(y.lineBreak) + Spaces(y.indent))
  {
    hide Text, Value, Special, PieceText, PieceValue, PieceOk, EndsLine, AsWritten, StartsWithBom, BreakText, WellPieced, Spaces;
    FoldIs(y);
    FoldAsWritten(y, StartsWithBom(value), unicode);
    PiecesGrow(ps, Fold(y));
    AsWrittenGrows(ps, Fold(y), StartsWithBom(value), unicode);
    WellPiecedGrows(ps, Fold(y));
    if At(value, i + 1) == SPACE {
      SpaceIsPlain(value, i, i + 1, unicode);
    }
    assert value[..i + 1] == value[..i] + [SPACE];
  }

  lemma FoldAsWritten(y: Layout, bom: bool, unicode: bool)
    requires y.indent >= 1
    ensures AsWritten([Fold(y)], bom, unicode)
  {
    hide NotationOf, MustEscape;
    FoldIs(y);
  }

  /** Spaces in a row are one piece. */
  function WithSpace(ps: seq<Piece>): (r: seq<Piece>)
    ensures |r| >= 1
  {
    if ps != [] && ps[|ps| - 1].White? then ps[..|ps| - 1] + [White(ps[|ps| - 1].before + [SPACE], ps[|ps| - 1].lines)]
    else ps + [White([SPACE], [])]
  }

  lemma BlankGrows(value: seq<Byte>, i: nat, ps: seq<Piece>, spaces: bool, unicode: bool)
    requires Writing(value, i, ps, false, spaces, unicode) && i < |value| && At(value, i) == SPACE
    ensures Writing(value, i + 1, WithSpace(ps), false, true, unicode)
    ensures Text(WithSpace(ps)) == Text(ps) + [SPACE]
  {
    hide Text, Value, Special, PieceOk, AsWritten, StartsWithBom, PieceText, PieceValue, WellPieced;
    assert value[..i + 1] == value[..i] + [SPACE];
    if ps != [] && ps[|ps| - 1].White? {
      var init, before := ps[..|ps| - 1], ps[|ps| - 1].before;
      assert ps == init + [White(before, [])];
      MoreSpace(init, before);
      WhiteAsWritten(ps, init, before, StartsWithBom(value), unicode);
    } else {
      var p := White([SPACE], []);
      assert [] + [SPACE] == [SPACE];
      WhiteMore([]);
      SpaceIsOk();
      NoneJoined(ps, StartsWithBom(value), unicode);
      PiecesGrow(ps, p);
      WellPiecedGrows(ps, p);
      WhiteAsWritten(ps, ps, [], StartsWithBom(value), unicode);
    }
  }

  lemma NoneJoined(ps: seq<Piece>, bom: bool, unicode: bool)
    requires AsWritten(ps, bom, unicode)
    ensures forall k | 0 <= k < |ps| :: !ps[k].Joined?
  {
    hide MustEscape, NotationOf, EndsLine;
  }

  lemma SpaceIsOk()
    ensures PieceOk(White([SPACE], []))
  {
  }

  lemma WhiteAsWritten(ps: seq<Piece>, init: seq<Piece>, before: seq<Byte>, bom: bool, unicode: bool)
    requires AsWritten(ps, bom, unicode) && init <= ps
    ensures AsWritten(init + [White(before + [SPACE], [])], bom, unicode)
  {
    hide MustEscape, NotationOf;
    assert forall k | 0 <= k < |init| :: init[k] == ps[k];
  }

  lemma MoreSpace(init: seq<Piece>, before: seq<Byte>)
    requires WellPieced(init + [White(before, [])])
    ensures var p, q := White(before, []), White(before + [SPACE], []);
      && WellPieced(init + [q]) && Text(init + [q]) == Text(init + [p]) + [SPACE] && Value(init + [q]) == Value(init + [p]) + [SPACE]
  {
    hide Text, Value, PieceText, PieceValue, WellPieced, PieceOk;
    var p, q := White(before, []), White(before + [SPACE], []);
    WhiteMore(before);
    PiecesGrow(init, p);
    PiecesGrow(init, q);
    AssociateBytes(Text(init), before, [SPACE]);
    AssociateBytes(Value(init), before, [SPACE]);
    LastReplaced(init, p, q);
  }

  lemma WhiteMore(before: seq<Byte>)
    ensures var p, q := White(before, []), White(before + [SPACE], []);
      && PieceText(p) == before == PieceValue(p) && PieceText(q) == before + [SPACE] == PieceValue(q) && (PieceOk(p) ==> PieceOk(q))
      && !EndsLine(q)
  {
    NothingFilled();
    hide LinesText;
    assert before + [] == before && (before + [SPACE]) + [] == before + [SPACE];
  }

  lemma LastReplaced(init: seq<Piece>, p: Piece, q: Piece)
    requires WellPieced(init + [p]) && p.White? && q.White? && (PieceOk(p) ==> PieceOk(q))
    ensures WellPieced(init + [q])
  {
    hide PieceOk;
    var ps, qs := init + [p], init + [q];
    assert PieceOk(ps[|init|]);
    forall k | 0 <= k < |qs| ensures PieceOk(qs[k]) {
      assert k < |init| ==> qs[k] == ps[k];
    }
    forall k | 0 < k < |qs| ensures Neighbours(qs[k - 1], qs[k]) {
      assert Neighbours(ps[k - 1], ps[k]);
    }
  }

  lemma EndWriting(value: seq<Byte>, ps: seq<Piece>, pending: bool, spaces: bool, unicode: bool)
    requires Writing(value, |value|, ps, pending, spaces, unicode)
    ensures WellPieced(ps) && Value(ps) == value && AsWritten(ps, StartsWithBom(value), unicode)
    ensures Written(ps, pending) == Text(ps)
  {
  }

  // ---- the writer's steps

  /** How far the writer is, with the lines broken as they have to be. */
  ghost predicate Drawing(room: Room, value: seq<Byte>, i: nat, ps: seq<Piece>, pending: bool, spaces: bool, unicode: bool, column: nat) {
    && Writing(value, i, ps, pending, spaces, unicode)
    && Breaking(room, StartsWithBom(value), ps, pending, spaces, column, i > 0, i == |value|)
  }

  lemma StartDrawing(room: Room, value: seq<Byte>, unicode: bool)
    ensures Drawing(room, value, 0, [], false, false, unicode, room.from) && Written([], false) == []
  {
    StartWriting(value, unicode);
    BreakingStarts(room, StartsWithBom(value), |value| == 0);
  }

  lemma EndDrawing(room: Room, value: seq<Byte>, ps: seq<Piece>, pending: bool, spaces: bool, unicode: bool, column: nat)
    requires Drawing(room, value, |value|, ps, pending, spaces, unicode, column)
    ensures WellPieced(ps) && Value(ps) == value && AsWritten(ps, StartsWithBom(value), unicode)
    ensures Written(ps, pending) == Text(ps) && Broken(room, StartsWithBom(value), ps, true)
  {
    hide Writing, Broken, StartsWithBom;
    EndWriting(value, ps, pending, spaces, unicode);
  }

  lemma SpecialDrawn(room: Room, value: seq<Byte>, i: nat, ps: seq<Piece>, pending: bool, spaces: bool, unicode: bool, column: nat, c: Rune, i': nat)
    returns (ps': seq<Piece>)
    requires Drawing(room, value, i, ps, pending, spaces, unicode, column) && Special(value, i, unicode) && i < i' <= |value|
    requires Here(value, i, Encode(c)) && i' == i + |Encode(c)| && value[..i'] == value[..i] + Encode(c)
    ensures Drawing(room, value, i', ps', false, false, unicode, column + |EscapeText(NotationOf(c))|)
    ensures Written(ps', false) == Written(ps, pending) + EscapeText(NotationOf(c))
  {
    hide Writing, Breaking, Special, StartsWithBom, NotationOf, EscapeText, Written, Here;
    EscapedOrSpace(value, i, unicode, c);
    NotPending(value, i, ps, pending, spaces, unicode);
    SolidBreaks(room, StartsWithBom(value), ps, spaces, column, i > 0, Escape(c, NotationOf(c)), i' == |value|);
    ps' := SpecialWritten(value, i, ps, spaces, unicode, c, i');
  }

  lemma LiteralDrawn(room: Room, value: seq<Byte>, i: nat, ps: seq<Piece>, pending: bool, spaces: bool, unicode: bool, column: nat, c: Rune, i': nat)
    returns (ps': seq<Piece>)
    requires Drawing(room, value, i, ps, pending, spaces, unicode, column) && !Special(value, i, unicode) && At(value, i) != SPACE
    requires i < i' <= |value| && Here(value, i, Encode(c)) && i' == i + |Encode(c)| && value[..i'] == value[..i] + Encode(c)
    ensures Drawing(room, value, i', ps', false, false, unicode, column + 1)
    ensures Written(ps', false) == Written(ps, pending) + value[i..i']
  {
    hide Writing, Breaking, Special, StartsWithBom, Written, Here;
    EscapedOrSpace(value, i, unicode, c);
    NotPending(value, i, ps, pending, spaces, unicode);
    SolidBreaks(room, StartsWithBom(value), ps, spaces, column, i > 0, Literal(Encode(c)), i' == |value|);
    ps' := LiteralWritten(value, i, ps, spaces, unicode, c, i');
  }

  lemma SpaceDrawn(room: Room, value: seq<Byte>, i: nat, ps: seq<Piece>, pending: bool, spaces: bool, unicode: bool, column: nat, c: Rune)
    returns (ps': seq<Piece>)
    requires Drawing(room, value, i, ps, pending, spaces, unicode, column) && !Special(value, i, unicode)
    requires i < |value| && At(value, i) == SPACE && value[i..i + 1] == [SPACE] && Here(value, i, Encode(c))
    requires !(room.breaks && !spaces && column > room.width && 0 < i < |value| - 1)
    ensures Drawing(room, value, i + 1, ps', false, true, unicode, column + 1)
    ensures Written(ps', false) == Written(ps, pending) + [SPACE]
  {
    hide Writing, Special, StartsWithBom, Written, Here, Broken, ColumnBehind, SpaceEscaped;
    EscapedOrSpace(value, i, unicode, c);
    var bom := StartsWithBom(value);
    if pending {
      FoldsPending(value, i, ps, spaces, unicode);
      EscapedBreaks(room, bom, ps, column, i > 0, i + 1 == |value|);
    } else {
      FoldIsPending(value, i, ps, spaces, unicode);
      SpaceBreaks(room, bom, ps, spaces, column, i > 0, i + 1 == |value|);
    }
    ps' := SpaceWritten(value, i, ps, pending, spaces, unicode);
  }

  lemma FoldDrawn(room: Room, y: Layout, value: seq<Byte>, i: nat, ps: seq<Piece>, pending: bool, unicode: bool, column: nat)
    requires Drawing(room, value, i, ps, pending, false, unicode, column) && !Special(value, i, unicode)
    requires 0 < i < |value| - 1 && At(value, i) == SPACE && room.breaks && column > room.width && y.indent == room.indent >= 1
    requires exists c: Rune :: Here(value, i, Encode(c))
    ensures !pending
    ensures var pending' := At(value, i + 1) == SPACE;
      Drawing(room, value, i + 1, ps + [Fold(y)], pending', true, unicode, room.indent + if pending' then 1 else 0)
    ensures Text(ps + [Fold(y)]) == Text(ps) + (BreakText(y.lineBreak) + Spaces(y.indent))
  {
    hide Writing, Special, StartsWithBom, Breaking, Fold, Text, Spaces, BreakText, Here;
    var c: Rune :| Here(value, i, Encode(c));
    EscapedOrSpace(value, i, unicode, c);
    FoldGrows(y, value, i, ps, pending, unicode);
    FoldBreaks(room, y, StartsWithBom(value), ps, column, At(value, i + 1) == SPACE);
  }

  lemma FoldsPending(value: seq<Byte>, i: nat, ps: seq<Piece>, spaces: bool, unicode: bool)
    requires Writing(value, i, ps, true, spaces, unicode)
    ensures spaces && ps != [] && IsFold(ps[|ps| - 1])
  {
    hide Special, WellPieced, AsWritten, Value, StartsWithBom;
  }

  /** v >> 4 * n */
  function Shifted(v: nat, n: nat): (r: nat) {
    if n == 0 then v else Shifted(v, n - 1) / 16
  }

  class Writer {
    const layout: Layout
    const bestWidth: int
    const unicode: bool
    var output: seq<Byte>
    var column: nat
    var whitespace: bool
    var indention: bool

    constructor (layout: Layout, bestWidth: int, unicode: bool, column: nat, whitespace: bool, indention: bool)
      ensures this.layout == layout && this.bestWidth == bestWidth && this.unicode == unicode && output == []
      ensures this.column == column && this.whitespace == whitespace && this.indention == indention
    {
      this.layout, this.bestWidth, this.unicode, this.output := layout, bestWidth, unicode, [];
      this.column, this.whitespace, this.indention := column, whitespace, indention;
    }

    method Put(b: Byte)
      modifies this`output, this`column
      ensures output == old(output) + [b] && column == old(column) + 1
    {
      output, column := output + [b], column + 1;
    }

    method PutBreak()
      modifies this`output, this`column
      ensures output == old(output) + BreakText(layout.lineBreak) && column == 0
    {
      match layout.lineBreak {
        case CR => output := output + [0x0D];
        case LN => output := output + [0x0A];
        case CRLN => output := output + [0x0D, 0x0A];
      }
      column := 0;
    }

    method Write(value: seq<Byte>, i: nat) returns (i': nat)
      requires i < |value| && i + Width(value[i]) <= |value|
      modifies this`output, this`column
      ensures i' == i + Width(value[i]) && output == old(output) + value[i..i'] && column == old(column) + 1
    {
      i' := i + Width(value[i]);
      output, column := output + value[i..i'], column + 1;
    }

    method WriteIndent()
      modifies this
      ensures var broken := old(!indention || column > layout.indent || (column == layout.indent && !whitespace));
        output == old(output) + (if broken then BreakText(layout.lineBreak) + Spaces(layout.indent) else Spaces(layout.indent - old(column)))
      ensures column == layout.indent && whitespace && indention
    {
      if !indention || column > layout.indent || (column == layout.indent && !whitespace) {
        PutBreak();
      }
      ghost var before, start := output, column;
      while column < layout.indent
        invariant start <= column <= layout.indent && output == before + Spaces(column - start)
      {
        Put(SPACE);
      }
      whitespace, indention := true, true;
    }

    method WriteQuote(needWhitespace: bool)
      modifies this
      ensures output == old(output) + (if needWhitespace && !old(whitespace) then [SPACE] else []) + [QUOTE]
      ensures column == old(column) + (if needWhitespace && !old(whitespace) then 2 else 1) && !whitespace && !indention
    {
      if needWhitespace && !whitespace {
        Put(SPACE);
      }
      Put(QUOTE);
      whitespace, indention := false, false;
    }

    method WriteHex(v: nat, w: nat)
      modifies this`output, this`column
      ensures output == old(output) + Hex(v, w) && column == old(column) + w
    {
      for j := 0 to w
        invariant output == old(output) + Hex(Shifted(v, w - j), j) && column == old(column) + j
      {
        Put(Digit(Shifted(v, w - 1 - j) % 16));
      }
    }

    /** Decodes the character at `i`, which is `c`. */
    method Decode(value: seq<Byte>, i: nat, ghost c: Rune) returns (v: nat, w: nat)
      requires Here(value, i, Encode(c))
      ensures v == c && w == |Encode(c)|
    {
      hide Encode, DecodeTo, LeadBits;
      HereAt(value, i, Encode(c), 0);
      DecodedBack(c);
      w := Width(value[i]);
      v := LeadBits(value[i]);
      DecodeStep(Encode(c), 1);
      for k := 1 to w
        invariant v == DecodeTo(Encode(c), k)
      {
        HereAt(value, i, Encode(c), k);
        DecodeStep(Encode(c), k + 1);
        v := v * 64 + value[i + k] % 64;
      }
    }

    /** Writes the character at `i`, which is `c`, as an escape sequence. */
    method WriteEscaped(value: seq<Byte>, i: nat, ghost c: Rune) returns (i': nat)
      requires Here(value, i, Encode(c))
      modifies this`output, this`column
      ensures output == old(output) + EscapeText(NotationOf(c)) && column == old(column) + |EscapeText(NotationOf(c))|
      ensures i' == i + |Encode(c)|
    {
      hide *;
      var v, w := Decode(value, i, c);
      i' := i + w;
      Put(BACKSLASH);
      var letter := Letter(v);
      EscapeTextIs(c);
      ghost var before := old(output);
      if letter != 0 {
        Put(letter);
        assert output == before + [BACKSLASH, letter];
      } else {
        Put(CodeLetter(v));
        assert output == before + [BACKSLASH, CodeLetter(v)];
        WriteHex(v, CodeWidth(v));
        assert output == before + ([BACKSLASH, CodeLetter(v)] + Hex(v, CodeWidth(v)));
      }
    }

    /** yaml_emitter_write_double_quoted_scalar. */
    method WriteDoubleQuoted(value: seq<Byte>, allowBreaks: bool, ghost cs: seq<Rune>) returns (ghost ps: seq<Piece>)
      requires value == EncodeAll(cs) && layout.indent >= 1
      modifies this
      ensures Broken(Room(old(column) + (if old(whitespace) then 1 else 2), layout.indent, bestWidth, allowBreaks), StartsWithBom(value), ps, true)
      ensures WellPieced(ps) && Value(ps) == value && AsWritten(ps, StartsWithBom(value), unicode)
      ensures output == old(output) + (if old(whitespace) then [] else [SPACE]) + [QUOTE] + Text(ps) + [QUOTE]
      ensures !whitespace && !indention
    {
      hide *;
      var spaces := false;
      WriteQuote(true);
      ghost var start := output;
      ghost var k, pending := 0, false;
      ps := [];
      ghost var room := Room(column, layout.indent, bestWidth, allowBreaks);
      StartDrawing(room, value, unicode);
      NothingEncoded(cs);
      NextRune(value, cs, 0, 0);
      var i := 0;
      while i < |value|
        invariant k <= |cs| && i == |EncodeAll(cs[..k])| && i <= |value|
        invariant Drawing(room, value, i, ps, pending, spaces, unicode, column)
        invariant output == start + Written(ps, pending)
        invariant indention ==> column >= layout.indent && (spaces || column > layout.indent)
      {
        NextRune(value, cs, k, i);
        ghost var c, j, place := cs[k], i, column;
        if Special(value, i, unicode) {
          i := WriteEscaped(value, i, c);
          Associate(start, Written(ps, pending), EscapeText(NotationOf(c)));
          ps := SpecialDrawn(room, value, j, ps, pending, spaces, unicode, place, c, i);
          spaces, pending := false, false;
        } else if At(value, i) == SPACE {
          SpaceIs(value, i, c);
          if allowBreaks && !spaces && column > bestWidth && i > 0 && i < |value| - 1 {
            FoldDrawn(room, layout, value, i, ps, pending, unicode, column);
            WrittenIs(ps);
            WrittenIs(ps + [Fold(layout)]);
            Associate(start, Text(ps), BreakText(layout.lineBreak) + Spaces(layout.indent));
            WriteIndent();
            pending := At(value, i + 1) == SPACE;
            Associate(start, Text(ps + [Fold(layout)]), [BACKSLASH]);
            if At(value, i + 1) == SPACE {
              Put(BACKSLASH);
            }
            ps, i := ps + [Fold(layout)], i + 1;
          } else {
            assert value[i..i + 1] == [SPACE];
            i := Write(value, i);
            Associate(start, Written(ps, pending), [SPACE]);
            ps := SpaceDrawn(room, value, j, ps, pending, spaces, unicode, place, c);
            pending := false;
          }
          spaces := true;
        } else {
          i := Write(value, i);
          Associate(start, Written(ps, pending), value[j..i]);
          ps := LiteralDrawn(room, value, j, ps, pending, spaces, unicode, place, c, i);
          spaces, pending := false, false;
        }
        k := k + 1;
      }
      EndDrawing(room, value, ps, pending, spaces, unicode, column);
      WriteQuote(false);
      whitespace, indention := false, false;
    }
  }

  lemma EscapeTextIs(c: Rune)
    ensures Letter(c) != 0 ==> EscapeText(NotationOf(c)) == [BACKSLASH, Letter(c)]
    ensures Letter(c) == 0 ==> EscapeText(NotationOf(c)) == [BACKSLASH, CodeLetter(c)] + Hex(c, CodeWidth(c))
  {
    hide Letter, Hex;
    if Letter(c) == 0 {
      CodeLetterIs(c);
      assert [BACKSLASH] + ([CodeLetter(c)] + Hex(c, CodeWidth(c))) == [BACKSLASH, CodeLetter(c)] + Hex(c, CodeWidth(c));
    }
  }

  lemma CodeLetterIs(c: Rune)
    ensures CodeText(Hex(c, CodeWidth(c))) == [CodeLetter(c)] + Hex(c, CodeWidth(c))
  {
    hide Hex;
  }

  lemma WrittenIs(ps: seq<Piece>)
    ensures Written(ps, false) == Text(ps) && Written(ps, true) == Text(ps) + [BACKSLASH]
  {
  }

  lemma NothingEncoded(cs: seq<Rune>)
    ensures EncodeAll(cs[..0]) == []
  {
  }

  lemma DecodeStep(e: seq<Byte>, k: nat)
    requires 1 <= k <= |e|
    ensures DecodeTo(e, k) == if k == 1 then LeadBits(e[0]) else DecodeTo(e, k - 1) * 64 + e[k - 1] % 64
  {
  }

  lemma Associate(a: seq<Byte>, b: seq<Byte>, c: seq<Byte>)
    ensures (a + b) + c == a + (b + c)
  {
  }

  lemma SpecialWritten(value: seq<Byte>, i: nat, ps: seq<Piece>, spaces: bool, unicode: bool, c: Rune, i': nat) returns (ps': seq<Piece>)
    requires Writing(value, i, ps, false, spaces, unicode) && Special(value, i, unicode)
    requires Here(value, i, Encode(c)) && i' == i + |Encode(c)| && value[..i'] == value[..i] + Encode(c)
    ensures Writing(value, i', ps', false, false, unicode) && Written(ps', false) == Written(ps, false) + EscapeText(NotationOf(c))
    ensures ps' == ps + [Escape(c, NotationOf(c))]
  {
    var p := Escape(c, NotationOf(c));
    NotationIsOk(c);
    SpecialIs(value, i, unicode, c);
    assert AsWritten([p], StartsWithBom(value), unicode);
    hide Writing, Text, Value, PieceOk, AsWritten, Special, NotationOf, EscapeText;
    ps' := ps + [p];
    SolidGrows(value, i, ps, false, spaces, unicode, p, i', false);
  }

  lemma LiteralWritten(value: seq<Byte>, i: nat, ps: seq<Piece>, spaces: bool, unicode: bool, c: Rune, i': nat) returns (ps': seq<Piece>)
    requires Writing(value, i, ps, false, spaces, unicode) && !Special(value, i, unicode) && At(value, i) != SPACE
    requires Here(value, i, Encode(c)) && i' == i + |Encode(c)| && value[..i'] == value[..i] + Encode(c)
    ensures Writing(value, i', ps', false, false, unicode) && Written(ps', false) == Written(ps, false) + value[i..i']
    ensures ps' == ps + [Literal(Encode(c))]
  {
    var p := Literal(Encode(c));
    LiteralIsPlain(value, i, unicode, c);
    assert AsWritten([p], StartsWithBom(value), unicode);
    hide Writing, Text, Value, AsWritten, Special;
    ps' := ps + [p];
    SolidGrows(value, i, ps, false, spaces, unicode, p, i', false);
  }

  lemma SpaceWritten(value: seq<Byte>, i: nat, ps: seq<Piece>, pending: bool, spaces: bool, unicode: bool)
    returns (ps': seq<Piece>)
    requires Writing(value, i, ps, pending, spaces, unicode) && i < |value| && At(value, i) == SPACE
    requires value[i..i + 1] == [SPACE]
    ensures Writing(value, i + 1, ps', false, true, unicode)
    ensures Written(ps', false) == Written(ps, pending) + [SPACE]
    ensures ps' == if pending then ps + [Escape(SPACE, ByName(SPACE))] else WithSpace(ps)
  {
    hide Writing, Text, Value;
    assert value[..i + 1] == value[..i] + [SPACE];
    if pending {
      var p := Escape(SPACE, ByName(SPACE));
      ps' := ps + [p];
      SolidGrows(value, i, ps, pending, spaces, unicode, p, i + 1, true);
      AssociateBytes(Text(ps), [BACKSLASH], [SPACE]);
    } else {
      ps' := WithSpace(ps);
      BlankGrows(value, i, ps, spaces, unicode);
    }
  }

  /** The indentation inside a scalar: emit_scalar increases the one around it, -1 at the top, by the
      best indentation, which emit_stream_start has brought between 2 and 9. */
  function IncreasedIndent(indent: int, best: nat): (r: int)
    requires indent >= -1 && 2 <= best <= 9
    ensures r >= 2 && r - indent == if indent == -1 then best + 1 else best
  {
    if indent < 0 then best else indent + best
  }

  /** Whatever the value, the settings, the place in the line and the text behind,
      the scanner reads back what the writer has been given. */
  method RoundTrip(value: seq<Byte>, ghost cs: seq<Rune>, lineBreak: WrittenBreak, indent: int, bestIndent: nat, bestWidth: int, unicode: bool,
                   allowBreaks: bool, column: nat, whitespace: bool, indention: bool, rest: seq<Byte>) returns (ok: bool, back: seq<Byte>)
    requires value == EncodeAll(cs) && indent >= -1 && 2 <= bestIndent <= 9
    ensures ok && back == value
  {
    var layout := Layout(lineBreak, IncreasedIndent(indent, bestIndent));
    var writer := new Writer(layout, bestWidth, unicode, column, whitespace, indention);
    ghost var ps := writer.WriteDoubleQuoted(value, allowBreaks, cs);
    var text := writer.output + rest;
    var start := if whitespace then 0 else 1;
    var scanner := new Scanner(text, start, column + start);
    ghost var sc := Script(start + 1, ps);
    WrittenFits(sc, start, text, rest, StartsWithBom(value), unicode);
    ghost var again;
    ok, back, again := scanner.Scan(sc);
  }

  lemma WrittenFits(sc: Script, start: nat, text: seq<Byte>, rest: seq<Byte>, bom: bool, unicode: bool)
    requires start <= 1 && sc.base == start + 1 && WellPieced(sc.pieces) && AsWritten(sc.pieces, bom, unicode)
    requires text == ([] + (if start == 0 then [] else [SPACE]) + [QUOTE] + Text(sc.pieces) + [QUOTE]) + rest
    ensures start < |text| && text[start] == QUOTE && Fits(text, sc)
  {
    hide Text, WellPieced, NotationOf, MustEscape, Indicator;
    var t := Text(sc.pieces) + [QUOTE];
    assert text[sc.base..sc.base + |t|] == t;
  }
}
