/** The scanner's token queue: simple keys are recognised only at their ':', and the
    tokens that make a key of what has already been queued are inserted in front of it.

    Reading characters is left out: the text is a list of lexemes, each with its
    place and what it is; anything can follow anything. */
module YamlScanner {
  import opened YamlTokens

  datatype Mark = Mark(index: nat, line: nat, column: nat)

  /** Behind another place, as reading goes. */
  predicate Later(a: Mark, b: Mark) {
    a.index < b.index && (a.line < b.line || (a.line == b.line && a.column < b.column))
  }

  predicate NotBefore(a: Mark, b: Mark) {
    a == b || Later(a, b)
  }

  /** The same, but an end of line may have been put in without a character. */
  predicate AtOrBefore(a: Mark, b: Mark) {
    a.index <= b.index && (a.line < b.line || (a.line == b.line && a.column <= b.column))
  }

  datatype Kind =
    | Directive(typ: TokenType)
    | DocumentIndicator(typ: TokenType)
    | FlowStart(typ: TokenType)
    | FlowEnd(typ: TokenType)
    | FlowEntry
    | BlockEntry
    | KeyIndicator
    | ValueIndicator
    | Content(typ: TokenType, breaks: bool)   // alias, anchor, tag, quoted or plain scalar
    | BlockScalar
    | Unknown

  // `newLine`: line breaks lead to it. `wellFormed`: it can be read to its end.
  datatype Lexeme = Lexeme(kind: Kind, newLine: bool, start: Mark, end: Mark, wellFormed: bool)

  // What is queued: a token with its place.
  datatype Item = Item(typ: TokenType, start: Mark, end: Mark)

  datatype SimpleKey = SimpleKey(possible: bool, required: bool, number: nat, mark: Mark)

  /** Too far back from `mark` to be a key. */
  predicate IsStale(key: SimpleKey, mark: Mark) {
    key.possible && (key.mark.line < mark.line || key.mark.index + 1024 < mark.index)
  }

  const ORIGIN := Mark(0, 0, 0)
  const NO_KEY := SimpleKey(false, false, 0, ORIGIN)

  // ---- the queue

  /** The tokens read and not yet consumed: a part of an array that moves to its front
      when the array is full. */
  class TokenQueue {
    var tokens: array<Item>
    var head: nat
    var count: nat

    constructor ()
      ensures Valid() && Contents() == [] && fresh(tokens)
    {
      tokens := new Item[0];
      head, count := 0, 0;
    }

    ghost predicate Valid()
      reads this
    {
      head <= count <= tokens.Length
    }

    ghost function Contents(): (r: seq<Item>)
      reads this, tokens
      requires Valid()
    {
      tokens[head..count]
    }

    method Append(token: Item)
      requires Valid()
      modifies this`tokens, this`count, tokens
      ensures Valid() && (tokens == old(tokens) || fresh(tokens)) && head == old(head)
      ensures Contents() == old(Contents()) + [token]
    {
      ghost var before := Contents();
      if count == tokens.Length {
        var grown := new Item[2 * tokens.Length + 1](i requires 0 <= i reads this, tokens =>
          if i < tokens.Length then tokens[i] else token);
        tokens := grown;
      }
      assert forall i | 0 <= i < |before| :: tokens[head + i] == before[i];
      tokens[count] := token;
      count := count + 1;
      assert forall i | 0 <= i < |before| :: Contents()[i] == before[i];
    }

    /** Moves the tokens to the front if the array is full. */
    method Compact()
      requires Valid()
      modifies this`head, this`count, tokens
      ensures Valid() && Contents() == old(Contents())
    {
      if head > 0 && count == tokens.Length {
        forall i | 0 <= i < count - head {
          tokens[i] := tokens[head + i];
        }
        count := count - head;
        head := 0;
      }
    }

    /** Puts `token` in the place of the one at `pos`, which moves on with those behind it; the last one is dropped. */
    method Overwrite(pos: nat, token: Item)
      requires Valid() && pos < |Contents()|
      modifies tokens
      ensures Valid() && Contents() == old(Contents())[..pos] + [token] + old(Contents())[pos..|Contents()| - 1]
    {
      ghost var before := Contents();
      var first := head + pos;
      forall i | first < i < count {
        tokens[i] := tokens[i - 1];
      }
      tokens[first] := token;
      ghost var after := Contents();
      assert forall i | 0 <= i < |before| :: after[i] == tokens[head + i];
      Overwritten(after, before, pos, token);
    }

    /** yaml_insert_token: at the end if `pos` is negative. */
    method Insert(pos: int, token: Item)
      requires Valid() && pos <= |Contents()|
      modifies this, tokens
      ensures Valid() && (tokens == old(tokens) || fresh(tokens))
      ensures Contents() == if pos < 0 then old(Contents()) + [token] else old(Contents())[..pos] + [token] + old(Contents())[pos..]
    {
      Compact();
      Append(token);
      if pos < 0 {
        return;
      }
      Overwrite(pos, token);
    }

    method Remove() returns (token: Item)
      requires Valid() && |Contents()| > 0
      modifies this`head
      ensures Valid() && token == old(Contents())[0] && Contents() == old(Contents())[1..]
    {
      token := tokens[head];
      head := head + 1;
    }
  }

  lemma Overwritten(after: seq<Item>, before: seq<Item>, pos: nat, token: Item)
    requires pos < |before| == |after|
    requires forall i | 0 <= i < pos :: after[i] == before[i]
    requires after[pos] == token
    requires forall i | pos < i < |before| :: after[i] == before[i - 1]
    ensures after == before[..pos] + [token] + before[pos..|before| - 1]
  {
    var a, b := before[..pos] + [token], before[pos..|before| - 1];
    var r := a + b;
    assert |a| == pos + 1 && |b| == |before| - 1 - pos;
    forall i | 0 <= i < |after| ensures after[i] == r[i] {
      if i <= pos {
        assert r[i] == a[i];
      } else {
        assert r[i] == b[i - pos - 1] == before[i - 1];
      }
    }
  }

  // ---- the tokens of a run: those consumed and behind them those queued

  /** Behind all tokens if `number` is negative. */
  function InsertAt(stream: seq<Item>, number: int, t: Item): (r: seq<Item>)
    requires number <= |stream|
    ensures |r| == |stream| + 1
  {
    if number < 0 then stream + [t] else stream[..number] + [t] + stream[number..]
  }

  /** An inserted token that only makes sense in front of the one it was inserted for. */
  predicate Opener(t: Item) {
    t.start == t.end && (t.typ == KEY || t.typ == BLOCK_MAPPING_START || t.typ == BLOCK_SEQUENCE_START)
  }

  /** Each inserted token is directly in front of a token that starts at its place, and nothing is behind STREAM-END. */
  ghost predicate Placed(stream: seq<Item>) {
    && (forall i | 0 <= i < |stream| && Opener(stream[i]) :: i + 1 < |stream| && stream[i + 1].start == stream[i].start)
    && (forall i | 0 <= i < |stream| && stream[i].typ == STREAM_END :: i == |stream| - 1)
  }

  /** The tokens are in the order of the places where they start. */
  ghost predicate InOrder(stream: seq<Item>) {
    forall i, j | 0 <= i < j < |stream| :: AtOrBefore(stream[i].start, stream[j].start)
  }

  /** No token starts behind `mark`. */
  ghost predicate UpTo(stream: seq<Item>, mark: Mark) {
    forall i | 0 <= i < |stream| :: AtOrBefore(stream[i].start, mark)
  }

  predicate Unended(stream: seq<Item>) {
    stream == [] || stream[|stream| - 1].typ != STREAM_END
  }

  ghost predicate Arranged(stream: seq<Item>, mark: Mark) {
    Placed(stream) && Unended(stream) && InOrder(stream) && UpTo(stream, mark)
  }

  predicate Ordinary(t: Item) {
    !Opener(t) && LevelOf(t) == 0 && t.typ != STREAM_END
  }

  function LevelOf(t: Item): int {
    if t.typ == BLOCK_MAPPING_START || t.typ == BLOCK_SEQUENCE_START then 1 else if t.typ == BLOCK_END then -1 else 0
  }

  /** The block collections that have been started and not ended. */
  function Level(stream: seq<Item>): (r: int) {
    if stream == [] then 0 else Level(stream[..|stream| - 1]) + LevelOf(stream[|stream| - 1])
  }

  lemma {:induction false} LevelInsert(stream: seq<Item>, number: int, t: Item)
    requires number <= |stream|
    ensures Level(InsertAt(stream, number, t)) == Level(stream) + LevelOf(t)
    decreases |stream|
  {
    if number < 0 || number == |stream| {
      assert InsertAt(stream, number, t) == stream + [t];
      assert (stream + [t])[..|stream|] == stream;
    } else {
      LevelInsert(stream[..|stream| - 1], number, t);
      assert InsertAt(stream, number, t)[..|stream|] == InsertAt(stream[..|stream| - 1], number, t);
    }
  }

  lemma LevelAppend(stream: seq<Item>, t: Item)
    ensures Level(stream + [t]) == Level(stream) + LevelOf(t)
  {
    LevelInsert(stream, -1, t);
  }

  lemma PlacedAppend(stream: seq<Item>, t: Item)
    requires Placed(stream) && Unended(stream) && !Opener(t)
    ensures Placed(stream + [t]) && (t.typ != STREAM_END ==> Unended(stream + [t]))
  {
  }

  lemma OrderAppend(stream: seq<Item>, mark: Mark, t: Item, mark': Mark)
    requires InOrder(stream) && UpTo(stream, mark) && t.start == mark && AtOrBefore(mark, mark')
    ensures InOrder(stream + [t]) && UpTo(stream + [t], mark')
  {
  }

  /** One token at the end, read up to `mark'`. */
  lemma ArrangedAppend(stream: seq<Item>, mark: Mark, t: Item, mark': Mark)
    requires Arranged(stream, mark) && !Opener(t) && t.typ != STREAM_END && t.start == mark && AtOrBefore(mark, mark')
    ensures Arranged(stream + [t], mark')
  {
    hide Placed, InOrder, UpTo, Unended, Opener;
    PlacedAppend(stream, t);
    OrderAppend(stream, mark, t, mark');
  }

  lemma ArrangedLater(stream: seq<Item>, mark: Mark, mark': Mark)
    requires Arranged(stream, mark) && AtOrBefore(mark, mark')
    ensures Arranged(stream, mark')
  {
    hide Placed, InOrder, Unended;
  }

  /** A collection is started with its first token. */
  lemma ArrangedPair(stream: seq<Item>, mark: Mark, o: Item, t: Item, mark': Mark)
    requires Arranged(stream, mark) && o.start == t.start == mark && AtOrBefore(mark, mark')
    requires !Opener(t) && o.typ != STREAM_END && t.typ != STREAM_END
    ensures Arranged(stream + [o] + [t], mark')
  {
    hide InOrder, UpTo;
    OrderAppend(stream, mark, o, mark);
    OrderAppend(stream + [o], mark, t, mark');
  }

  lemma PlacedInsert(stream: seq<Item>, n: nat, t: Item)
    requires Placed(stream) && Unended(stream) && n < |stream| && stream[n].start == t.start && t.typ != STREAM_END
    ensures Placed(InsertAt(stream, n, t)) && Unended(InsertAt(stream, n, t))
  {
    var r := InsertAt(stream, n, t);
    assert r[|r| - 1] == stream[|stream| - 1];
    forall i | 0 <= i < |r| ensures r[i].typ == STREAM_END ==> i == |r| - 1 {
      if i < n { assert r[i] == stream[i]; } else if i > n { assert r[i] == stream[i - 1]; }
    }
    forall i | 0 <= i < |r| && Opener(r[i]) ensures i + 1 < |r| && r[i + 1].start == r[i].start {
      if i < n {
        assert r[i] == stream[i];
      } else if i > n {
        assert r[i] == stream[i - 1] && r[i - 1 + 1] == r[i];
        assert i < |stream| && r[i + 1] == stream[i];
      }
    }
  }

  lemma OrderInsert(stream: seq<Item>, n: nat, t: Item, mark: Mark)
    requires InOrder(stream) && UpTo(stream, mark) && n < |stream| && stream[n].start == t.start
    ensures InOrder(InsertAt(stream, n, t)) && UpTo(InsertAt(stream, n, t), mark)
  {
    var r := InsertAt(stream, n, t);
    assert forall i | 0 <= i < |r| :: r[i].start == stream[if i <= n then i else i - 1].start;
  }

  /** A token inserted in front of one that starts at its place. */
  lemma ArrangedInsert(stream: seq<Item>, mark: Mark, n: nat, t: Item)
    requires Arranged(stream, mark) && n < |stream| && stream[n].start == t.start && t.typ != STREAM_END
    ensures Arranged(InsertAt(stream, n, t), mark)
  {
    hide Placed, InOrder, UpTo, Unended, InsertAt;
    PlacedInsert(stream, n, t);
    OrderInsert(stream, n, t, mark);
  }

  // ---- simple keys

  /** Every possible key is the number of a token not yet consumed, the one that starts where it
      was saved; the keys of inner levels have larger numbers. */
  ghost predicate KeysOk(keys: seq<SimpleKey>, parsed: nat, stream: seq<Item>, mark: Mark) {
    && (forall i | 0 <= i < |keys| && keys[i].possible ::
          parsed <= keys[i].number < |stream| && stream[keys[i].number].start == keys[i].mark && Later(keys[i].mark, mark))
    && (forall i, j | 0 <= i < j < |keys| && keys[i].possible && keys[j].possible :: keys[i].number < keys[j].number)
  }

  function Removed(keys: seq<SimpleKey>): (r: seq<SimpleKey>)
    requires keys != []
    ensures |r| == |keys|
  {
    keys[|keys| - 1 := keys[|keys| - 1].(possible := false)]
  }

  /** Some keys are not possible any more. */
  ghost predicate Fewer(before: seq<SimpleKey>, after: seq<SimpleKey>) {
    |after| == |before| && forall i | 0 <= i < |after| :: after[i] == before[i] || after[i] == before[i].(possible := false)
  }

  lemma KeysFewer(keys: seq<SimpleKey>, keys': seq<SimpleKey>, parsed: nat, stream: seq<Item>, mark: Mark)
    requires KeysOk(keys, parsed, stream, mark) && Fewer(keys, keys')
    ensures KeysOk(keys', parsed, stream, mark)
  {
  }

  lemma RemovedFewer(keys: seq<SimpleKey>)
    requires keys != []
    ensures Fewer(keys, Removed(keys)) && !Removed(keys)[|keys| - 1].possible && |Removed(keys)| == |keys|
  {
  }

  lemma KeysAppend(keys: seq<SimpleKey>, parsed: nat, stream: seq<Item>, mark: Mark, t: Item, mark': Mark)
    requires KeysOk(keys, parsed, stream, mark) && NotBefore(mark, mark')
    ensures KeysOk(keys, parsed, stream + [t], mark')
  {
  }

  lemma KeysLater(keys: seq<SimpleKey>, parsed: nat, stream: seq<Item>, mark: Mark, mark': Mark)
    requires KeysOk(keys, parsed, stream, mark) && NotBefore(mark, mark')
    ensures KeysOk(keys, parsed, stream, mark')
  {
  }

  /** A key saved at a token that is then appended. */
  lemma KeysSave(keys: seq<SimpleKey>, parsed: nat, stream: seq<Item>, mark: Mark, required: bool, t: Item, mark': Mark)
    requires keys != [] && parsed <= |stream| && KeysOk(keys, parsed, stream, mark) && t.start == mark && Later(mark, mark')
    ensures KeysOk(keys[|keys| - 1 := SimpleKey(true, required, |stream|, mark)], parsed, stream + [t], mark')
  {
    KeysAppend(keys, parsed, stream, mark, t, mark');
  }

  /** The key of the innermost level is used: a token is inserted in front of the one it was saved at. */
  lemma KeysInsert(keys: seq<SimpleKey>, parsed: nat, stream: seq<Item>, mark: Mark, t: Item)
    requires KeysOk(keys, parsed, stream, mark) && keys != []
    requires var k := keys[|keys| - 1]; k.possible && t.start == k.mark
    ensures parsed <= keys[|keys| - 1].number < |stream| && stream[keys[|keys| - 1].number].start == t.start
    ensures KeysOk(keys, parsed, InsertAt(stream, keys[|keys| - 1].number, t), mark)
  {
    var n := keys[|keys| - 1].number;
    var r := InsertAt(stream, n, t);
    forall i | 0 <= i < |keys| && keys[i].possible ensures r[keys[i].number].start == keys[i].mark {
      if i < |keys| - 1 {
        assert r[keys[i].number] == stream[keys[i].number];
      }
    }
  }

  lemma KeyInserted(keys: seq<SimpleKey>, parsed: nat, stream: seq<Item>, mark: Mark, t: Item)
    requires KeysOk(keys, parsed, stream, mark) && Arranged(stream, mark) && keys != [] && t.typ != STREAM_END
    requires var k := keys[|keys| - 1]; k.possible && t.start == k.mark
    ensures parsed <= keys[|keys| - 1].number < |stream| && stream[keys[|keys| - 1].number].start == t.start
    ensures var r := InsertAt(stream, keys[|keys| - 1].number, t);
      KeysOk(keys, parsed, r, mark) && Arranged(r, mark) && Level(r) == Level(stream) + LevelOf(t)
  {
    hide Arranged, Level, InsertAt, KeysOk;
    var n := keys[|keys| - 1].number;
    KeysInsert(keys, parsed, stream, mark, t);
    ArrangedInsert(stream, mark, n, t);
    LevelInsert(stream, n, t);
  }

  lemma KeysPush(keys: seq<SimpleKey>, parsed: nat, stream: seq<Item>, mark: Mark)
    requires KeysOk(keys, parsed, stream, mark)
    ensures KeysOk(keys + [NO_KEY], parsed, stream, mark)
    ensures keys != [] ==> KeysOk(keys[..|keys| - 1], parsed, stream, mark)
  {
  }

  // ---- indentation

  /** The indentations in force, from the outermost one inwards. */
  ghost predicate IndentsOk(indents: seq<int>, indent: int) {
    var all := indents + [indent];
    all[0] == -1 && forall i, j | 0 <= i < j < |all| :: all[i] < all[j]
  }

  lemma IndentsPop(indents: seq<int>, indent: int)
    requires IndentsOk(indents, indent) && indent > -1
    ensures indents != [] && IndentsOk(indents[..|indents| - 1], indents[|indents| - 1]) && indents[|indents| - 1] < indent
  {
    var all, last := indents + [indent], |indents| - 1;
    assert indents != [];
    assert indents[..last] + [indents[last]] == indents;
    assert forall i | 0 <= i < |indents| :: all[i] == indents[i];
    assert all[|indents|] == indent;
  }

  lemma IndentsPush(indents: seq<int>, indent: int, column: nat)
    requires IndentsOk(indents, indent) && indent < column
    ensures IndentsOk(indents + [indent], column)
  {
    var old', all := indents + [indent], indents + [indent] + [column as int];
    forall i, j | 0 <= i < j < |all| ensures all[i] < all[j] {
      if j < |old'| {
        assert all[i] == old'[i] && all[j] == old'[j];
      } else if i < |old'| - 1 {
        assert old'[i] < old'[|old'| - 1] == indent;
      }
    }
  }

  lemma IndentsBottom(indents: seq<int>, indent: int)
    requires IndentsOk(indents, indent)
    ensures indents != [] ==> indent > -1
    ensures indent >= -1
  {
    var all := indents + [indent];
    assert all[|indents|] == indent && all[0] == -1;
  }

  // ---- scanning, as a fold over the lexemes

  // What decides how the reading goes on, and the tokens so far. Keys have the numbers of their tokens in the whole run.
  datatype Fields = Fields(
    allowed: bool, keys: seq<SimpleKey>, flow: nat, indent: int, indents: seq<int>, mark: Mark, stream: seq<Item>)

  type Core = s: Fields | |s.keys| == s.flow + 1 witness Fields(true, [NO_KEY], 0, -1, [], ORIGIN, [])

  datatype Result = Go(s: Core) | Error | Panicked

  /** A key that has to be one is too far back. */
  predicate Lost(keys: seq<SimpleKey>, mark: Mark) {
    exists i | 0 <= i < |keys| :: IsStale(keys[i], mark) && keys[i].required
  }

  function Fresh(keys: seq<SimpleKey>, mark: Mark): (r: seq<SimpleKey>)
    ensures |r| == |keys|
  {
    seq(|keys|, i requires 0 <= i < |keys| => if IsStale(keys[i], mark) then keys[i].(possible := false) else keys[i])
  }

  function Check(s: Core): (r: Result) {
    if Lost(s.keys, s.mark) then Error else Go(s.(keys := Fresh(s.keys, s.mark)))
  }

  predicate Needed(keys: seq<SimpleKey>) {
    keys != [] && keys[|keys| - 1].possible && keys[|keys| - 1].required
  }

  function Remove(s: Core): (r: Result) {
    if Needed(s.keys) then Error else Go(s.(keys := Removed(s.keys)))
  }

  /** A key would have to start here, but none is allowed to. */
  predicate Trapped(s: Core) {
    s.flow == 0 && s.indent == s.mark.column && !s.allowed
  }

  function Save(s: Core): (r: Result) {
    if Trapped(s) then Panicked
    else if !s.allowed then Go(s)
    else if Needed(s.keys) then Error
    else Go(s.(keys := s.keys[|s.keys| - 1 := SimpleKey(true, s.flow == 0 && s.indent == s.mark.column, |s.stream|, s.mark)]))
  }

  /** The block collections that are further in than `column` end. */
  function Unrolled(s: Core, column: int): (r: Core)
    decreases |s.indents|
  {
    if s.flow > 0 || s.indent <= column || s.indents == [] then s
    else Unrolled(s.(stream := s.stream + [Item(BLOCK_END, s.mark, s.mark)],
                     indent := s.indents[|s.indents| - 1], indents := s.indents[..|s.indents| - 1]), column)
  }

  /** A block collection starts at the next token, if that is further in. */
  function Rolled(s: Core, typ: TokenType): (r: Core) {
    if s.flow > 0 || s.indent >= s.mark.column then s
    else s.(stream := s.stream + [Item(typ, s.mark, s.mark)], indents := s.indents + [s.indent], indent := s.mark.column)
  }

  function Start(s: Core, typ: TokenType): (r: Result) {
    if s.flow == 0 && !s.allowed then Error else Go(Rolled(s, typ))
  }

  /** The token of a lexeme. */
  function ItemOf(typ: TokenType, x: Lexeme): (r: Item) {
    Item(typ, x.start, x.end)
  }

  function Queued(s: Core, typ: TokenType, x: Lexeme, allowed: bool): (r: Core) {
    s.(stream := s.stream + [ItemOf(typ, x)], mark := x.end, allowed := allowed)
  }

  function Directed(s: Core, x: Lexeme): (r: Result)
    requires x.kind.Directive? || x.kind.DocumentIndicator?
  {
    match Remove(Unrolled(s, -1))
    case Go(t) => if x.wellFormed then Go(Queued(t, x.kind.typ, x, false)) else Error
    case r => r
  }

  /** A flow collection may be a simple key; inside, keys are another matter. */
  function FlowStarted(s: Core, x: Lexeme): (r: Result)
    requires x.kind.FlowStart?
  {
    match Save(s)
    case Go(t) =>
      Go(t.(keys := t.keys + [NO_KEY], flow := t.flow + 1, stream := t.stream + [ItemOf(x.kind.typ, x)], mark := x.end, allowed := true))
    case r => r
  }

  function FlowEnded(s: Core, x: Lexeme): (r: Result)
    requires x.kind.FlowEnd?
  {
    match Remove(s)
    case Go(t) =>
      var q := Queued(t, x.kind.typ, x, false);
      if s.flow == 0 then Go(q) else Go(q.(keys := q.keys[..|q.keys| - 1], flow := q.flow - 1))
    case r => r
  }

  function Removing(s: Core, typ: TokenType, x: Lexeme, allowed: bool): (r: Result) {
    match Remove(s)
    case Go(t) => if x.wellFormed || !x.kind.BlockScalar? then Go(Queued(t, typ, x, allowed)) else Error
    case r => r
  }

  /** A block entry or an explicit key. */
  function Entered(s: Core, start: TokenType, typ: TokenType, x: Lexeme, allowed: bool): (r: Result) {
    match Start(s, start)
    case Go(t) => Removing(t, typ, x, allowed)
    case r => r
  }

  /** The innermost simple key is used: KEY, and maybe BLOCK-MAPPING-START in front of it, go directly
      in front of the token it was saved at, and VALUE to the end. */
  function Keyed(stream: seq<Item>, key: SimpleKey, rolled: bool, value: Item): (r: seq<Item>)
    requires key.number <= |stream|
  {
    stream[..key.number]
    + (if rolled then [Item(BLOCK_MAPPING_START, key.mark, key.mark)] else [])
    + [Item(KEY, key.mark, key.mark)] + stream[key.number..] + [value]
  }

  /** A ':', behind a simple key or not. */
  function Valued(s: Core, x: Lexeme): (r: Result) {
    var key := s.keys[|s.keys| - 1];
    if key.possible && key.number <= |s.stream| then
      var rolled := s.flow == 0 && s.indent < key.mark.column;
      Go(s.(stream := Keyed(s.stream, key, rolled, ItemOf(VALUE, x)), keys := Removed(s.keys), mark := x.end, allowed := false,
            indents := if rolled then s.indents + [s.indent] else s.indents,
            indent := if rolled then key.mark.column else s.indent))
    else
      match Start(s, BLOCK_MAPPING_START)
      case Go(t) => Go(Queued(t, VALUE, x, s.flow == 0))
      case r => r
  }

  /** Aliases, anchors, tags, quoted and plain scalars may be simple keys. */
  function Contained(s: Core, x: Lexeme): (r: Result)
    requires x.kind.Content?
  {
    match Save(s)
    case Go(t) => if x.wellFormed then Go(Queued(t, x.kind.typ, x, x.kind.breaks)) else Error
    case r => r
  }

  /** The tokens of the lexeme at hand. */
  function Fetch(s: Core, x: Lexeme): (r: Result) {
    match x.kind
    case Directive(_) => Directed(s, x)
    case DocumentIndicator(_) => Directed(s, x)
    case FlowStart(_) => FlowStarted(s, x)
    case FlowEnd(_) => FlowEnded(s, x)
    case FlowEntry => Removing(s, FLOW_ENTRY, x, true)
    case BlockEntry => Entered(s, BLOCK_SEQUENCE_START, BLOCK_ENTRY, x, true)
    case KeyIndicator => Entered(s, BLOCK_MAPPING_START, KEY, x, s.flow == 0)
    case ValueIndicator => Valued(s, x)
    case Content(_, _) => Contained(s, x)
    case BlockScalar => Removing(s, SCALAR, x, true)
    case Unknown => Error
  }

  /** Reads as far as the next lexeme. */
  function Arrived(s: Core, x: Lexeme): (r: Core) {
    s.(mark := x.start, allowed := s.allowed || (x.newLine && s.flow == 0))
  }

  /** One lexeme; keys that are too far back when it has been read are not possible any more. */
  function Step(s: Core, x: Lexeme): (r: Result) {
    match Check(Arrived(s, x))
    case Go(t) => (
      match Fetch(Unrolled(t, x.start.column), x)
      case Go(u) => Check(u)
      case r => r)
    case r => r
  }

  const FIRST: Core := Fields(true, [NO_KEY], 0, -1, [], ORIGIN, [Item(STREAM_START, ORIGIN, ORIGIN)])

  /** The first `n` lexemes. */
  function Fold(lexemes: seq<Lexeme>, n: nat): (r: Result)
    requires n <= |lexemes|
  {
    if n == 0 then Go(FIRST)
    else match Fold(lexemes, n - 1)
      case Go(s) => Step(s, lexemes[n - 1])
      case r => r
  }

  /** The end of the text starts a new line. */
  function LastLine(mark: Mark): (r: Mark) {
    if mark.column != 0 then Mark(mark.index, mark.line + 1, 0) else mark
  }

  /** All block collections end. */
  function Stopped(u: Core): (r: Result) {
    match Remove(Unrolled(u.(mark := LastLine(u.mark)), -1))
    case Go(v) => Go(v.(stream := v.stream + [Item(STREAM_END, v.mark, v.mark)], allowed := false))
    case r => r
  }

  /** The end of the text, reached. */
  function Closing(t: Core): (r: Result) {
    Stopped(Unrolled(t, t.mark.column))
  }

  function Finish(s: Core, end: Mark): (r: Result) {
    match Check(s.(mark := end))
    case Go(t) => (
      match Closing(t)
      case Go(u) => Check(u)
      case r => r)
    case r => r
  }

  /** All tokens of a text, if it has no error and the scanner does not panic. */
  function Whole(lexemes: seq<Lexeme>, end: Mark): (r: Result) {
    match Fold(lexemes, |lexemes|)
    case Go(s) => Finish(s, end)
    case r => r
  }

  // ---- what every fetch keeps

  predicate KindOk(kind: Kind) {
    match kind
    case Directive(typ) => typ == VERSION_DIRECTIVE || typ == TAG_DIRECTIVE
    case DocumentIndicator(typ) => typ == DOCUMENT_START || typ == DOCUMENT_END
    case FlowStart(typ) => typ == FLOW_SEQUENCE_START || typ == FLOW_MAPPING_START
    case FlowEnd(typ) => typ == FLOW_SEQUENCE_END || typ == FLOW_MAPPING_END
    case Content(typ, _) => typ == ALIAS || typ == ANCHOR || typ == TAG || typ == SCALAR
    case _ => true
  }

  predicate LexemeOk(x: Lexeme) {
    KindOk(x.kind) && Later(x.start, x.end)
    // only contents extend over several lines
    && (x.kind.Content? || x.kind.BlockScalar? || x.kind.Unknown? || x.start.line == x.end.line)
  }

  /** Where the reading goes on. */
  function Place(lexemes: seq<Lexeme>, end: Mark, next: nat): (r: Mark) {
    if next < |lexemes| then lexemes[next].start else end
  }

  /** The lexemes follow each other, and each one has some extent. */
  ghost predicate Ordered(lexemes: seq<Lexeme>, end: Mark) {
    && NotBefore(ORIGIN, Place(lexemes, end, 0))
    && forall i | 0 <= i < |lexemes| :: LexemeOk(lexemes[i]) && NotBefore(lexemes[i].end, Place(lexemes, end, i + 1))
  }

  /** `parsed` tokens have been consumed. */
  ghost predicate Ready(parsed: nat, s: Core) {
    && parsed <= |s.stream|
    && IndentsOk(s.indents, s.indent)
    && KeysOk(s.keys, parsed, s.stream, s.mark)
    && Arranged(s.stream, s.mark)
    && Level(s.stream) == |s.indents|
  }

  /** `after` has more tokens than `before`; those consumed are the same. */
  ghost predicate Grown(parsed: nat, before: Core, after: Core) {
    parsed <= |before.stream| <= |after.stream| && after.stream[..parsed] == before.stream[..parsed]
  }

  ghost predicate More(parsed: nat, before: Core, after: Core) {
    Grown(parsed, before, after) && |before.stream| < |after.stream|
  }

  lemma ReadyIs(parsed: nat, s: Core)
    requires Ready(parsed, s)
    ensures parsed <= |s.stream| && IndentsOk(s.indents, s.indent) && KeysOk(s.keys, parsed, s.stream, s.mark)
    ensures Arranged(s.stream, s.mark) && Level(s.stream) == |s.indents|
  {
  }

  lemma ReadyAgain(parsed: nat, s: Core)
    requires parsed <= |s.stream| && IndentsOk(s.indents, s.indent) && KeysOk(s.keys, parsed, s.stream, s.mark)
    requires Arranged(s.stream, s.mark) && Level(s.stream) == |s.indents|
    ensures Ready(parsed, s)
  {
  }

  lemma LaterIs(x: Lexeme)
    requires LexemeOk(x)
    ensures NotBefore(x.start, x.end) && AtOrBefore(x.start, x.end) && Later(x.start, x.end)
  {
  }

  lemma SameMark(m: Mark)
    ensures NotBefore(m, m) && AtOrBefore(m, m)
  {
  }

  lemma ItemIs(typ: TokenType, x: Lexeme)
    requires LexemeOk(x) && typ != BLOCK_MAPPING_START && typ != BLOCK_SEQUENCE_START && typ != BLOCK_END && typ != STREAM_END
    ensures Ordinary(ItemOf(typ, x)) && ItemOf(typ, x).start == x.start
  {
  }

  lemma KindTyp(x: Lexeme)
    requires LexemeOk(x)
    requires x.kind.Directive? || x.kind.DocumentIndicator? || x.kind.FlowStart? || x.kind.FlowEnd? || x.kind.Content?
    ensures var t := x.kind.typ; t != BLOCK_MAPPING_START && t != BLOCK_SEQUENCE_START && t != BLOCK_END && t != STREAM_END
  {
  }

  lemma OrdinaryIs(t: Item)
    requires Ordinary(t)
    ensures !Opener(t) && LevelOf(t) == 0 && t.typ != STREAM_END
  {
  }

  lemma FreshFewer(keys: seq<SimpleKey>, mark: Mark)
    ensures Fewer(keys, Fresh(keys, mark))
  {
  }

  lemma CheckKeeps(parsed: nat, s: Core)
    requires Ready(parsed, s) && Check(s).Go?
    ensures Ready(parsed, Check(s).s) && Check(s).s.stream == s.stream
  {
    hide IndentsOk, KeysOk, Arranged, Level, Fresh, Ready, Lost;
    ReadyIs(parsed, s);
    FreshFewer(s.keys, s.mark);
    KeysFewer(s.keys, Fresh(s.keys, s.mark), parsed, s.stream, s.mark);
    ReadyAgain(parsed, Check(s).s);
  }

  /** What has been checked needs no further check at the same place. */
  lemma CheckedTwice(s: Core)
    requires Check(s).Go?
    ensures Check(Check(s).s) == Check(s)
  {
    var keys := Fresh(s.keys, s.mark);
    assert Fresh(keys, s.mark) == keys;
  }

  lemma RemoveKeeps(parsed: nat, s: Core)
    requires Ready(parsed, s) && Remove(s).Go?
    ensures Ready(parsed, Remove(s).s) && Remove(s).s.stream == s.stream
  {
    hide IndentsOk, KeysOk, Arranged, Level, Removed, Ready, Needed, Fewer;
    ReadyIs(parsed, s);
    RemovedFewer(s.keys);
    KeysFewer(s.keys, Removed(s.keys), parsed, s.stream, s.mark);
    ReadyAgain(parsed, Remove(s).s);
  }

  lemma ArrivedKeeps(parsed: nat, s: Core, mark: Mark, allowed: bool)
    requires Ready(parsed, s) && NotBefore(s.mark, mark)
    ensures Ready(parsed, s.(mark := mark, allowed := allowed))
  {
    hide IndentsOk, KeysOk, Arranged, Level, Ready;
    ReadyIs(parsed, s);
    KeysLater(s.keys, parsed, s.stream, s.mark, mark);
    ArrangedLater(s.stream, s.mark, mark);
    ReadyAgain(parsed, s.(mark := mark, allowed := allowed));
  }

  lemma EndedKeeps(parsed: nat, s: Core)
    requires Ready(parsed, s) && s.indents != []
    ensures var r := s.(stream := s.stream + [Item(BLOCK_END, s.mark, s.mark)],
                     indent := s.indents[|s.indents| - 1], indents := s.indents[..|s.indents| - 1]);
      Ready(parsed, r) && Grown(parsed, s, r)
  {
    hide IndentsOk, KeysOk, Arranged, Level, Ready;
    ReadyIs(parsed, s);
    var t := Item(BLOCK_END, s.mark, s.mark);
    var r := s.(stream := s.stream + [t], indent := s.indents[|s.indents| - 1], indents := s.indents[..|s.indents| - 1]);
    IndentsBottom(s.indents, s.indent);
    IndentsPop(s.indents, s.indent);
    SameMark(s.mark);
    KeysAppend(s.keys, parsed, s.stream, s.mark, t, s.mark);
    ArrangedAppend(s.stream, s.mark, t, s.mark);
    LevelAppend(s.stream, t);
    ReadyAgain(parsed, r);
  }

  lemma {:induction false} UnrolledKeeps(parsed: nat, s: Core, column: int)
    requires Ready(parsed, s) && column >= -1
    ensures Ready(parsed, Unrolled(s, column)) && Grown(parsed, s, Unrolled(s, column))
    ensures var r := Unrolled(s, column);
      && r.mark == s.mark && r.flow == s.flow && r.keys == s.keys && r.allowed == s.allowed
      && (s.flow == 0 ==> r.indent <= column) && (s.flow > 0 ==> r == s)
    decreases |s.indents|
  {
    hide KeysOk, Arranged, Level;
    IndentsBottom(s.indents, s.indent);
    if s.flow == 0 && s.indent > column {
      IndentsPop(s.indents, s.indent);
      EndedKeeps(parsed, s);
      hide Ready;
      UnrolledKeeps(parsed, s.(stream := s.stream + [Item(BLOCK_END, s.mark, s.mark)],
                     indent := s.indents[|s.indents| - 1], indents := s.indents[..|s.indents| - 1]), column);
    }
  }

  /** A token of a lexeme at the end. */
  lemma QueuedKeeps(parsed: nat, s: Core, typ: TokenType, x: Lexeme, allowed: bool)
    requires Ready(parsed, s) && LexemeOk(x) && s.mark == x.start
    requires typ != BLOCK_MAPPING_START && typ != BLOCK_SEQUENCE_START && typ != BLOCK_END && typ != STREAM_END
    ensures Ready(parsed, Queued(s, typ, x, allowed)) && More(parsed, s, Queued(s, typ, x, allowed))
  {
    hide IndentsOk, KeysOk, Arranged, Level, Ready, LexemeOk, NotBefore, Later, AtOrBefore, Ordinary;
    ReadyIs(parsed, s);
    LaterIs(x);
    ItemIs(typ, x);
    OrdinaryIs(ItemOf(typ, x));
    KeysAppend(s.keys, parsed, s.stream, s.mark, ItemOf(typ, x), x.end);
    ArrangedAppend(s.stream, s.mark, ItemOf(typ, x), x.end);
    LevelAppend(s.stream, ItemOf(typ, x));
    ReadyAgain(parsed, Queued(s, typ, x, allowed));
  }

  /** The same with a collection started in front of it. */
  lemma RolledKeeps(parsed: nat, s: Core, start: TokenType, typ: TokenType, x: Lexeme, allowed: bool)
    requires Ready(parsed, s) && LexemeOk(x) && s.mark == x.start && s.flow == 0 && s.indent < s.mark.column
    requires start == BLOCK_MAPPING_START || start == BLOCK_SEQUENCE_START
    requires typ != BLOCK_MAPPING_START && typ != BLOCK_SEQUENCE_START && typ != BLOCK_END && typ != STREAM_END
    ensures Ready(parsed, Queued(Rolled(s, start), typ, x, allowed)) && More(parsed, s, Queued(Rolled(s, start), typ, x, allowed))
  {
    hide IndentsOk, KeysOk, Arranged, Level, Ready, LexemeOk, NotBefore, Later, AtOrBefore, Ordinary;
    ReadyIs(parsed, s);
    LaterIs(x);
    SameMark(s.mark);
    ItemIs(typ, x);
    OrdinaryIs(ItemOf(typ, x));
    var o, t := Item(start, s.mark, s.mark), ItemOf(typ, x);
    KeysAppend(s.keys, parsed, s.stream, s.mark, o, s.mark);
    KeysAppend(s.keys, parsed, s.stream + [o], s.mark, t, x.end);
    ArrangedPair(s.stream, s.mark, o, t, x.end);
    LevelAppend(s.stream, o);
    LevelAppend(s.stream + [o], t);
    IndentsPush(s.indents, s.indent, s.mark.column);
    assert (s.stream + [o] + [t])[..parsed] == s.stream[..parsed];
    ReadyAgain(parsed, Queued(Rolled(s, start), typ, x, allowed));
  }

  /** Saving a key, and then the token it is for; a flow collection goes a level deeper. */
  lemma SavedKeeps(parsed: nat, s: Core, typ: TokenType, x: Lexeme, allowed: bool)
    requires Ready(parsed, s) && LexemeOk(x) && s.mark == x.start && Save(s).Go?
    requires typ != BLOCK_MAPPING_START && typ != BLOCK_SEQUENCE_START && typ != BLOCK_END && typ != STREAM_END
    ensures var q := Queued(Save(s).s, typ, x, allowed);
      && Ready(parsed, q) && More(parsed, s, q)
      && Ready(parsed, q.(keys := q.keys + [NO_KEY], flow := q.flow + 1))
      && More(parsed, s, q.(keys := q.keys + [NO_KEY], flow := q.flow + 1))
  {
    hide IndentsOk, KeysOk, Arranged, Level, Ready, LexemeOk, NotBefore, Later, AtOrBefore, Ordinary, Needed;
    ReadyIs(parsed, s);
    LaterIs(x);
    ItemIs(typ, x);
    OrdinaryIs(ItemOf(typ, x));
    var q := Queued(Save(s).s, typ, x, allowed);
    KeysAppend(s.keys, parsed, s.stream, s.mark, ItemOf(typ, x), x.end);
    KeysSave(s.keys, parsed, s.stream, s.mark, s.flow == 0 && s.indent == s.mark.column, ItemOf(typ, x), x.end);
    ArrangedAppend(s.stream, s.mark, ItemOf(typ, x), x.end);
    LevelAppend(s.stream, ItemOf(typ, x));
    KeysPush(q.keys, parsed, q.stream, q.mark);
    ReadyAgain(parsed, q);
    ReadyAgain(parsed, q.(keys := q.keys + [NO_KEY], flow := q.flow + 1));
  }

  lemma FlowEndedKeeps(parsed: nat, s: Core, x: Lexeme)
    requires Ready(parsed, s) && LexemeOk(x) && s.mark == x.start && x.kind.FlowEnd? && FlowEnded(s, x).Go?
    ensures Ready(parsed, FlowEnded(s, x).s) && More(parsed, s, FlowEnded(s, x).s)
  {
    hide IndentsOk, KeysOk, Arranged, Level, Ready, LexemeOk;
    RemoveKeeps(parsed, s);
    KindTyp(x);
    var q := Queued(Remove(s).s, x.kind.typ, x, false);
    QueuedKeeps(parsed, Remove(s).s, x.kind.typ, x, false);
    ReadyIs(parsed, q);
    KeysPush(q.keys, parsed, q.stream, q.mark);
    if s.flow > 0 {
      ReadyAgain(parsed, q.(keys := q.keys[..|q.keys| - 1], flow := q.flow - 1));
    }
  }

  lemma EnteredKeeps(parsed: nat, s: Core, start: TokenType, typ: TokenType, x: Lexeme, allowed: bool)
    requires Ready(parsed, s) && LexemeOk(x) && s.mark == x.start && Entered(s, start, typ, x, allowed).Go?
    requires start == BLOCK_MAPPING_START || start == BLOCK_SEQUENCE_START
    requires typ != BLOCK_MAPPING_START && typ != BLOCK_SEQUENCE_START && typ != BLOCK_END && typ != STREAM_END
    ensures Ready(parsed, Entered(s, start, typ, x, allowed).s) && More(parsed, s, Entered(s, start, typ, x, allowed).s)
  {
    hide IndentsOk, KeysOk, Arranged, Level, Ready, LexemeOk, Removed, Needed;
    var t := Remove(s).s;
    RemoveKeeps(parsed, s);
    if s.flow == 0 && s.indent < s.mark.column {
      RolledKeeps(parsed, t, start, typ, x, allowed);
      assert Entered(s, start, typ, x, allowed).s == Queued(Rolled(t, start), typ, x, allowed);
    } else {
      QueuedKeeps(parsed, t, typ, x, allowed);
    }
  }

  lemma ComplexKeeps(parsed: nat, s: Core, x: Lexeme)
    requires Ready(parsed, s) && LexemeOk(x) && s.mark == x.start && Start(s, BLOCK_MAPPING_START).Go?
    ensures var r := Queued(Rolled(s, BLOCK_MAPPING_START), VALUE, x, s.flow == 0); Ready(parsed, r) && More(parsed, s, r)
  {
    hide IndentsOk, KeysOk, Arranged, Level, Ready, LexemeOk;
    if s.flow == 0 && s.indent < s.mark.column {
      RolledKeeps(parsed, s, BLOCK_MAPPING_START, VALUE, x, s.flow == 0);
    } else {
      QueuedKeeps(parsed, s, VALUE, x, s.flow == 0);
    }
  }

  lemma PlaceIs(lexemes: seq<Lexeme>, end: Mark, next: nat)
    ensures Place(lexemes, end, next) == if next < |lexemes| then lexemes[next].start else end
  {
  }

  /** KEY, and maybe BLOCK-MAPPING-START, go in front of a token that starts at their place and is not consumed. */
  lemma KeyedKeeps(parsed: nat, s: Core, x: Lexeme)
    requires Ready(parsed, s) && LexemeOk(x) && s.mark == x.start && s.keys[|s.keys| - 1].possible
    ensures var key := s.keys[|s.keys| - 1];
      parsed <= key.number < |s.stream| && s.stream[key.number].start == key.mark
    ensures Valued(s, x).Go? && Ready(parsed, Valued(s, x).s) && More(parsed, s, Valued(s, x).s)
  {
    hide Arranged, Level, IndentsOk, KeysOk, Ready, Fewer, Removed, NotBefore, Later, AtOrBefore, LexemeOk, Ordinary, LevelOf, Keyed;
    hide Opener, Start, Needed;
    ReadyIs(parsed, s);
    var key := s.keys[|s.keys| - 1];
    var rolled := s.flow == 0 && s.indent < key.mark.column;
    var value := ItemOf(VALUE, x);
    LaterIs(x);
    ItemIs(VALUE, x);
    OrdinaryIs(value);
    TwoInserted(s.keys, parsed, s.stream, s.mark, rolled, value);
    if rolled {
      IndentsPush(s.indents, s.indent, key.mark.column);
    }
    var stream := Keyed(s.stream, key, rolled, value);
    var two := stream[..|stream| - 1];
    RemovedFewer(s.keys);
    KeysFewer(s.keys, Removed(s.keys), parsed, two, s.mark);
    KeysAppend(Removed(s.keys), parsed, two, s.mark, value, x.end);
    ArrangedAppend(two, s.mark, value, x.end);
    LevelAppend(two, value);
    ReadyAgain(parsed, Valued(s, x).s);
  }

  lemma TwoInserted(keys: seq<SimpleKey>, parsed: nat, stream: seq<Item>, mark: Mark, rolled: bool, value: Item)
    requires keys != [] && keys[|keys| - 1].possible && KeysOk(keys, parsed, stream, mark) && Arranged(stream, mark)
    ensures var key := keys[|keys| - 1]; parsed <= key.number < |stream| && stream[key.number].start == key.mark
    ensures var key := keys[|keys| - 1];
      var r := Keyed(stream, key, rolled, value);
      var two := r[..|r| - 1];
      && |r| > |stream| + 1 && r == two + [value] && r[..parsed] == stream[..parsed]
      && KeysOk(keys, parsed, two, mark) && Arranged(two, mark)
      && Level(two) == Level(stream) + if rolled then 1 else 0
  {
    hide Arranged, Level, KeysOk, LevelOf, Keyed;
    var key := keys[|keys| - 1];
    var n, k, b := key.number, Item(KEY, key.mark, key.mark), Item(BLOCK_MAPPING_START, key.mark, key.mark);
    LevelOfKeys(key.mark);
    KeyInserted(keys, parsed, stream, mark, k);
    var one := InsertAt(stream, n, k);
    if rolled {
      KeyInserted(keys, parsed, one, mark, b);
    }
    var two := if rolled then InsertAt(one, n, b) else one;
    KeyedIs(stream, key, rolled, value);
    assert (two + [value])[..|two|] == two;
    assert (two + [value])[..parsed] == stream[..parsed];
  }

  lemma LevelOfKeys(mark: Mark)
    ensures LevelOf(Item(KEY, mark, mark)) == 0 && LevelOf(Item(BLOCK_MAPPING_START, mark, mark)) == 1
  {
  }

  lemma KeyedIs(stream: seq<Item>, key: SimpleKey, rolled: bool, value: Item)
    requires key.number <= |stream|
    ensures var n, k, b := key.number, Item(KEY, key.mark, key.mark), Item(BLOCK_MAPPING_START, key.mark, key.mark);
      var one := InsertAt(stream, n, k);
      Keyed(stream, key, rolled, value) == (if rolled then InsertAt(one, n, b) else one) + [value]
  {
    var n, k := key.number, Item(KEY, key.mark, key.mark);
    var one := InsertAt(stream, n, k);
    assert one[..n] == stream[..n] && one[n..] == [k] + stream[n..];
  }

  lemma RemovingKeeps(parsed: nat, s: Core, typ: TokenType, x: Lexeme, allowed: bool)
    requires Ready(parsed, s) && LexemeOk(x) && s.mark == x.start && Removing(s, typ, x, allowed).Go?
    requires typ != BLOCK_MAPPING_START && typ != BLOCK_SEQUENCE_START && typ != BLOCK_END && typ != STREAM_END
    ensures Ready(parsed, Removing(s, typ, x, allowed).s) && More(parsed, s, Removing(s, typ, x, allowed).s)
  {
    hide Ready, LexemeOk, Removed, Needed;
    RemoveKeeps(parsed, s);
    QueuedKeeps(parsed, Remove(s).s, typ, x, allowed);
  }

  lemma DirectedKeeps(parsed: nat, s: Core, x: Lexeme)
    requires Ready(parsed, s) && LexemeOk(x) && s.mark == x.start && (x.kind.Directive? || x.kind.DocumentIndicator?)
    requires Directed(s, x).Go?
    ensures Ready(parsed, Directed(s, x).s) && More(parsed, s, Directed(s, x).s)
  {
    hide Ready, LexemeOk, Removed, Needed, Unrolled;
    KindTyp(x);
    UnrolledKeeps(parsed, s, -1);
    var u := Unrolled(s, -1);
    RemoveKeeps(parsed, u);
    QueuedKeeps(parsed, Remove(u).s, x.kind.typ, x, false);
  }

  lemma FetchKeeps(parsed: nat, s: Core, x: Lexeme)
    requires Ready(parsed, s) && LexemeOk(x) && s.mark == x.start && Fetch(s, x).Go?
    ensures Ready(parsed, Fetch(s, x).s) && More(parsed, s, Fetch(s, x).s) && Fetch(s, x).s.mark == x.end
  {
    hide Ready, More, LexemeOk, Removed, Needed, Fresh, Unrolled, Keyed, Trapped;
    match x.kind {
      case Directive(_) => DirectedKeeps(parsed, s, x);
      case DocumentIndicator(_) => DirectedKeeps(parsed, s, x);
      case FlowStart(typ) => KindTyp(x); SavedKeeps(parsed, s, typ, x, true);
      case FlowEnd(_) => FlowEndedKeeps(parsed, s, x);
      case FlowEntry => RemovingKeeps(parsed, s, FLOW_ENTRY, x, true);
      case BlockEntry => EnteredKeeps(parsed, s, BLOCK_SEQUENCE_START, BLOCK_ENTRY, x, true);
      case KeyIndicator => EnteredKeeps(parsed, s, BLOCK_MAPPING_START, KEY, x, s.flow == 0);
      case ValueIndicator =>
        if s.keys[|s.keys| - 1].possible {
          KeyedKeeps(parsed, s, x);
        } else {
          ComplexKeeps(parsed, s, x);
        }
      case Content(typ, _) => KindTyp(x); SavedKeeps(parsed, s, typ, x, x.kind.breaks);
      case BlockScalar => RemovingKeeps(parsed, s, SCALAR, x, true);
      case Unknown =>
    }
  }

  lemma FirstReady()
    ensures Ready(0, FIRST)
  {
    LevelAppend([], Item(STREAM_START, ORIGIN, ORIGIN));
    assert [] + [Item(STREAM_START, ORIGIN, ORIGIN)] == FIRST.stream;
  }

  lemma LexemeAt(lexemes: seq<Lexeme>, end: Mark, i: nat)
    requires Ordered(lexemes, end) && i < |lexemes|
    ensures LexemeOk(lexemes[i]) && Place(lexemes, end, i) == lexemes[i].start
    ensures NotBefore(lexemes[i].end, Place(lexemes, end, i + 1))
  {
    hide LexemeOk, NotBefore;
  }

  lemma StepKeeps(parsed: nat, s: Core, x: Lexeme)
    requires Ready(parsed, s) && LexemeOk(x) && NotBefore(s.mark, x.start) && Step(s, x).Go?
    ensures Ready(parsed, Step(s, x).s) && Grown(parsed, s, Step(s, x).s) && Step(s, x).s.mark == x.end
  {
    hide Ready, Grown, LexemeOk, Unrolled, Fetch, Fresh, Lost;
    var a := Arrived(s, x);
    ArrivedKeeps(parsed, s, x.start, a.allowed);
    CheckKeeps(parsed, a);
    var t := Check(a).s;
    UnrolledKeeps(parsed, t, x.start.column);
    var u := Unrolled(t, x.start.column);
    FetchKeeps(parsed, u, x);
    CheckKeeps(parsed, Fetch(u, x).s);
    GrownStep(parsed, s, t, u, Fetch(u, x).s, Step(s, x).s);
  }

  lemma GrownStep(parsed: nat, s: Core, t: Core, u: Core, v: Core, w: Core)
    requires s.stream == t.stream && Grown(parsed, t, u) && Grown(parsed, u, v) && v.stream == w.stream
    ensures Grown(parsed, s, w)
  {
  }

  lemma {:induction false} FoldReady(lexemes: seq<Lexeme>, end: Mark, n: nat)
    requires Ordered(lexemes, end) && n <= |lexemes| && Fold(lexemes, n).Go?
    ensures Ready(0, Fold(lexemes, n).s) && NotBefore(Fold(lexemes, n).s.mark, Place(lexemes, end, n))
  {
    hide Ready, LexemeOk, Step, Ordered, Place, NotBefore;
    if n == 0 {
      FirstReady();
      AtBegin(lexemes, end);
    } else {
      FoldReady(lexemes, end, n - 1);
      LexemeAt(lexemes, end, n - 1);
      StepKeeps(0, Fold(lexemes, n - 1).s, lexemes[n - 1]);
    }
  }

  lemma AtBegin(lexemes: seq<Lexeme>, end: Mark)
    requires Ordered(lexemes, end)
    ensures NotBefore(ORIGIN, Place(lexemes, end, 0))
  {
  }

  /** Everything has been fetched. */
  ghost predicate Ended(parsed: nat, s: Core) {
    && parsed <= |s.stream| && s.stream != [] && s.stream[|s.stream| - 1].typ == STREAM_END
    && Placed(s.stream) && InOrder(s.stream)
    && Level(s.stream) == |s.indents| && (s.flow == 0 ==> s.indents == [])
  }

  ghost predicate NoKeys(keys: seq<SimpleKey>) {
    forall i | 0 <= i < |keys| :: !keys[i].possible
  }

  lemma ClosingKeeps(parsed: nat, t: Core)
    requires Ready(parsed, t) && Closing(t).Go?
    ensures Ended(parsed, Closing(t).s) && parsed < |Closing(t).s.stream| && Grown(parsed, t, Closing(t).s)
    ensures Check(Closing(t).s).Go? ==> NoKeys(Check(Closing(t).s).s.keys)
  {
    hide Ready, Arranged, KeysOk, Level, Unrolled, Needed, IndentsOk;
    UnrolledKeeps(parsed, t, t.mark.column);
    var u := Unrolled(t, t.mark.column);
    var l := u.(mark := LastLine(u.mark));
    ReadyIs(parsed, u);
    NewLine(u.keys, parsed, u.stream, u.mark);
    ReadyAgain(parsed, l);
    UnrolledKeeps(parsed, l, -1);
    var w := Unrolled(l, -1);
    RemoveKeeps(parsed, w);
    var v := Remove(w).s;
    ReadyIs(parsed, v);
    var end := Item(STREAM_END, v.mark, v.mark);
    EndPlaced(v.stream, v.mark, end);
    LevelAppend(v.stream, end);
    IndentsBottom(v.indents, v.indent);
    assert Closing(t).s.stream == v.stream + [end];
    assert (v.stream + [end])[..parsed] == v.stream[..parsed];
    NoneLeft(v.keys, parsed, v.stream, v.mark);
  }

  lemma NewLine(keys: seq<SimpleKey>, parsed: nat, stream: seq<Item>, mark: Mark)
    requires KeysOk(keys, parsed, stream, mark) && Arranged(stream, mark)
    ensures KeysOk(keys, parsed, stream, LastLine(mark)) && Arranged(stream, LastLine(mark)) && LastLine(mark).column == 0
  {
    hide Placed, InOrder;
  }

  lemma EndPlaced(stream: seq<Item>, mark: Mark, t: Item)
    requires Arranged(stream, mark) && t.start == mark && t.typ == STREAM_END
    ensures Placed(stream + [t]) && InOrder(stream + [t])
  {
    SameMark(mark);
    OrderAppend(stream, mark, t, mark);
  }

  /** At the start of a line every possible key is on an earlier one. */
  lemma NoneLeft(keys: seq<SimpleKey>, parsed: nat, stream: seq<Item>, mark: Mark)
    requires KeysOk(keys, parsed, stream, mark) && mark.column == 0
    ensures NoKeys(Fresh(keys, mark))
  {
  }

  // ---- the scanner

  datatype Outcome = Ok | Failed | Panic

  /** How a fetch ends, and in what state if it does. */
  predicate Ends(r: Result, o: Outcome) {
    match r case Go(_) => o.Ok? case Error => o.Failed? case Panicked => o.Panic?
  }

  /** The columns behind the remaining ones have been left, all of them deeper than `column`, with a BLOCK-END for each. */
  ghost predicate IsUnrolled(before: seq<int>, after: seq<int>, column: int, stream: seq<Item>, stream': seq<Item>, mark: Mark) {
    && after <= before && (forall i | |after| <= i < |before| :: before[i] > column)
    && stream' == stream + seq(|before| - |after|, _ => Item(BLOCK_END, mark, mark))
  }

  lemma NothingUnrolled(indents: seq<int>, indent: int, column: int, stream: seq<Item>, mark: Mark)
    ensures IsUnrolled(indents + [indent], indents + [indent], column, stream, stream, mark)
  {
  }

  lemma OneUnrolled(before: seq<int>, indents: seq<int>, indent: int, column: int, stream: seq<Item>, stream': seq<Item>, mark: Mark)
    requires IsUnrolled(before, indents + [indent], column, stream, stream', mark) && indent > column && indents != []
    ensures IsUnrolled(before, indents[..|indents| - 1] + [indents[|indents| - 1]], column, stream, stream' + [Item(BLOCK_END, mark, mark)], mark)
  {
    assert indents[..|indents| - 1] + [indents[|indents| - 1]] == indents;
    assert before[|indents|] == indent;
    var n := |before| - |indents|;
    assert seq(n, _ => Item(BLOCK_END, mark, mark)) == seq(n - 1, _ => Item(BLOCK_END, mark, mark)) + [Item(BLOCK_END, mark, mark)];
  }

  class Scanner {
    const lexemes: seq<Lexeme>
    const end: Mark
    const queue: TokenQueue
    var next: nat
    var parsed: nat
    var available: bool
    var simpleKeys: seq<SimpleKey>
    var simpleKeyAllowed: bool
    var flowLevel: nat
    var indent: int
    var indents: seq<int>
    var started: bool
    var finished: bool
    var mark: Mark
    ghost var ended: bool
    // all tokens, consumed and queued
    ghost var stream: seq<Item>

    constructor (lexemes: seq<Lexeme>, end: Mark)
      ensures this.lexemes == lexemes && this.end == end && fresh(queue) && fresh(queue.tokens)
      ensures Valid() && parsed == next == 0 && stream == [] && !finished
    {
      this.lexemes, this.end, next, parsed, available := lexemes, end, 0, 0, false;
      simpleKeys, simpleKeyAllowed, flowLevel, indent, indents := [], false, 0, 0, [];
      started, finished, ended, mark, stream := false, false, false, ORIGIN, [];
      queue := new TokenQueue();
    }

    ghost predicate Leveled()
      reads this`simpleKeys, this`flowLevel
    {
      |simpleKeys| == flowLevel + 1
    }

    ghost function Now(): Core
      requires Leveled()
      reads this`simpleKeys, this`simpleKeyAllowed, this`flowLevel, this`indent, this`indents, this`mark, this`stream
    {
      Fields(simpleKeyAllowed, simpleKeys, flowLevel, indent, indents, mark, stream)
    }

    /** The queue holds what has not been consumed. */
    ghost predicate Linked()
      reads this`parsed, this`stream, queue, queue.tokens
    {
      queue.Valid() && parsed <= |stream| && queue.Contents() == stream[parsed..]
    }

    /** What has been fetched is what the fold gives. */
    ghost predicate OnTrack()
      reads this
    {
      if !started then
        simpleKeys == [] && indents == [] && stream == [] && flowLevel == 0 && mark == ORIGIN && parsed == next == 0 && !ended
      else
        && Leveled() && next <= |lexemes|
        && if ended then Whole(lexemes, end) == Go(Now()) && Ended(parsed, Now()) && NoKeys(simpleKeys)
           else Fold(lexemes, next) == Go(Now()) && Ready(parsed, Now()) && NotBefore(mark, Place(lexemes, end, next))
    }

    ghost predicate Valid()
      reads this, queue, queue.tokens
    {
      && Linked() && OnTrack()
      && (available ==> started && parsed < |stream| && forall i | 0 <= i < |simpleKeys| && simpleKeys[i].possible :: simpleKeys[i].number > parsed)
      && (finished ==> ended && parsed == |stream|)
      && (ended && !finished ==> parsed < |stream|)
    }

    /** Inserts at `number` of the whole run, or at the end if that is -1. */
    method InsertToken(number: int, t: Item)
      requires Linked() && (number == -1 || parsed <= number <= |stream|)
      modifies this`stream, queue, queue.tokens
      ensures Linked() && stream == InsertAt(old(stream), number, t)
      ensures queue.tokens == old(queue.tokens) || fresh(queue.tokens)
    {
      queue.Insert(if number > -1 then number - parsed else -1, t);
      stream := InsertAt(stream, number, t);
    }

    /** Removes the keys that are too far back; fails if one of them has to be a key. */
    method StaleSimpleKeys() returns (ok: bool)
      modifies this`simpleKeys
      ensures (ok <==> !Lost(old(simpleKeys), mark)) && |simpleKeys| == |old(simpleKeys)|
      ensures ok ==> simpleKeys == Fresh(old(simpleKeys), mark)
      ensures !ok ==> exists i | 0 <= i < |old(simpleKeys)| :: var key := old(simpleKeys)[i];
        key.possible && key.required && (key.mark.line < mark.line || key.mark.index + 1024 < mark.index)
      ensures ok ==> forall i | 0 <= i < |simpleKeys| :: var key := old(simpleKeys)[i];
        if key.possible && (key.mark.line < mark.line || key.mark.index + 1024 < mark.index)
        then !key.required && simpleKeys[i] == key.(possible := false) else simpleKeys[i] == key
    {
      for i := 0 to |simpleKeys|
        invariant |simpleKeys| == |old(simpleKeys)|
        invariant forall j | 0 <= j < i :: simpleKeys[j] == Fresh(old(simpleKeys), mark)[j]
        invariant forall j | i <= j < |simpleKeys| :: simpleKeys[j] == old(simpleKeys)[j]
        invariant forall j | 0 <= j < i :: !(IsStale(old(simpleKeys)[j], mark) && old(simpleKeys)[j].required)
      {
        if IsStale(simpleKeys[i], mark) {
          if simpleKeys[i].required {
            return false;
          }
          simpleKeys := simpleKeys[i := simpleKeys[i].(possible := false)];
        }
      }
      ok := true;
    }

    method RemoveSimpleKey() returns (ok: bool)
      requires simpleKeys != []
      modifies this`simpleKeys
      ensures ok <==> !Needed(old(simpleKeys))
      ensures simpleKeys == if ok then Removed(old(simpleKeys)) else old(simpleKeys)
      ensures var key := old(simpleKeys)[|old(simpleKeys)| - 1];
        && (ok <==> !(key.possible && key.required))
        && (ok ==> simpleKeys == old(simpleKeys)[|old(simpleKeys)| - 1 := key.(possible := false)])
    {
      var i := |simpleKeys| - 1;
      if simpleKeys[i].possible && simpleKeys[i].required {
        return false;
      }
      simpleKeys := simpleKeys[i := simpleKeys[i].(possible := false)];
      ok := true;
    }

    /** Panics exactly if a key would have to start here and none is allowed. */
    method SaveSimpleKey() returns (o: Outcome)
      requires Linked() && Leveled()
      modifies this`simpleKeys
      ensures Leveled() && Ends(Save(old(Now())), o) && (o.Ok? ==> Go(Now()) == Save(old(Now())))
      ensures o.Panic? <==> flowLevel == 0 && indent == mark.column && !simpleKeyAllowed
      ensures var key := old(simpleKeys)[|old(simpleKeys)| - 1]; o.Failed? <==> simpleKeyAllowed && key.possible && key.required
      ensures o.Ok? ==> simpleKeys == if !simpleKeyAllowed then old(simpleKeys)
        else old(simpleKeys)[|old(simpleKeys)| - 1 := SimpleKey(true, flowLevel == 0 && indent == mark.column, |stream|, mark)]
    {
      var required := flowLevel == 0 && indent == mark.column;
      if required && !simpleKeyAllowed {
        return Panic;
      }
      if simpleKeyAllowed {
        var key := SimpleKey(true, required, parsed + (queue.count - queue.head), mark);
        var ok := RemoveSimpleKey();
        if !ok {
          return Failed;
        }
        simpleKeys := simpleKeys[|simpleKeys| - 1 := key];
      }
      o := Ok;
    }

    /** Starts a block collection if `column` is further in. */
    method RollIndent(column: nat, number: int, typ: TokenType, at: Mark) returns (ghost rolled: bool)
      requires Linked() && (number == -1 || parsed <= number <= |stream|)
      modifies this`stream, this`indent, this`indents, queue, queue.tokens
      ensures Linked() && (queue.tokens == old(queue.tokens) || fresh(queue.tokens))
      ensures rolled <==> flowLevel == 0 && old(indent) < column
      ensures stream == if rolled then InsertAt(old(stream), number, Item(typ, at, at)) else old(stream)
      ensures indents == if rolled then old(indents) + [old(indent)] else old(indents)
      ensures indent == if rolled then column else old(indent)
    {
      if flowLevel > 0 {
        return false;
      }
      if indent < column {
        indents := indents + [indent];
        indent := column;
        InsertToken(number, Item(typ, at, at));
        return true;
      }
      return false;
    }

    /** What '-', '?' and ':' check and do in the block context. */
    method StartBlock(typ: TokenType) returns (ok: bool)
      requires Linked() && Leveled()
      modifies this`stream, this`indent, this`indents, queue, queue.tokens
      ensures Linked() && (queue.tokens == old(queue.tokens) || fresh(queue.tokens))
      ensures if ok then Go(Now()) == Start(old(Now()), typ) else Start(old(Now()), typ) == Error
      ensures ok <==> flowLevel > 0 || simpleKeyAllowed
      ensures ok && flowLevel == 0 && old(indent) < mark.column ==>
        indent == mark.column && indents == old(indents) + [old(indent)] && stream == old(stream) + [Item(typ, mark, mark)]
      ensures flowLevel > 0 || old(indent) >= mark.column ==> indent == old(indent) && indents == old(indents) && stream == old(stream)
    {
      if flowLevel == 0 {
        if !simpleKeyAllowed {
          return false;
        }
        ghost var rolled := RollIndent(mark.column, -1, typ, mark);
      }
      ok := true;
    }

    /** Ends the block collections that are further in than `column`. */
    method UnrollIndent(column: int)
      requires Linked() && Leveled() && IndentsOk(indents, indent) && column >= -1
      modifies this`stream, this`indent, this`indents, queue, queue.tokens
      ensures Linked() && (queue.tokens == old(queue.tokens) || fresh(queue.tokens))
      ensures Now() == Unrolled(old(Now()), column)
      ensures flowLevel > 0 ==> stream == old(stream) && indents == old(indents) && indent == old(indent)
      ensures flowLevel == 0 ==> indent <= column && IsUnrolled(old(indents) + [old(indent)], indents + [indent], column, old(stream), stream, mark)
    {
      hide IndentsOk, IsUnrolled;
      NothingUnrolled(indents, indent, column, stream, mark);
      if flowLevel > 0 {
        return;
      }
      while indent > column
        invariant Linked() && (queue.tokens == old(queue.tokens) || fresh(queue.tokens)) && Leveled() && IndentsOk(indents, indent)
        invariant Unrolled(Now(), column) == Unrolled(old(Now()), column)
        invariant IsUnrolled(old(indents) + [old(indent)], indents + [indent], column, old(stream), stream, mark)
        decreases indent
      {
        IndentsPop(indents, indent);
        OneUnrolled(old(indents) + [old(indent)], indents, indent, column, old(stream), stream, mark);
        InsertToken(-1, Item(BLOCK_END, mark, mark));
        indent, indents := indents[|indents| - 1], indents[..|indents| - 1];
      }
    }

    method FetchStreamStart()
      requires Linked() && simpleKeys == [] && indents == [] && stream == [] && flowLevel == 0 && mark == ORIGIN
      modifies this`stream, this`indent, this`simpleKeys, this`simpleKeyAllowed, this`started, queue, queue.tokens
      ensures Linked() && (queue.tokens == old(queue.tokens) || fresh(queue.tokens))
      ensures Leveled() && Now() == FIRST && started
      ensures simpleKeyAllowed && indent == -1 && stream == [Item(STREAM_START, Mark(0, 0, 0), Mark(0, 0, 0))]
    {
      hide Linked;
      indent := -1;
      simpleKeys := simpleKeys + [NO_KEY];
      simpleKeyAllowed := true;
      started := true;
      InsertToken(-1, Item(STREAM_START, mark, mark));
    }

    /** All that is behind the last lexeme is the end. */
    method FetchStreamEnd() returns (o: Outcome)
      requires Linked() && Leveled() && IndentsOk(indents, indent)
      modifies this`stream, this`indent, this`indents, this`simpleKeys, this`simpleKeyAllowed, this`mark, this`ended, queue, queue.tokens
      ensures Linked() && Leveled() && (queue.tokens == old(queue.tokens) || fresh(queue.tokens))
      ensures Ends(Stopped(old(Now())), o) && (o.Ok? ==> ended && Stopped(old(Now())) == Go(Now()))
      ensures mark == if old(mark).column == 0 then old(mark) else Mark(old(mark).index, old(mark).line + 1, 0)
      ensures o.Ok? ==> !simpleKeyAllowed && stream != [] && stream[|stream| - 1] == Item(STREAM_END, mark, mark)
      ensures o.Failed? <==> old(simpleKeys)[|old(simpleKeys)| - 1].possible && old(simpleKeys)[|old(simpleKeys)| - 1].required
    {
      hide Unrolled, IndentsOk, Removed, Linked, IsUnrolled, Stopped, Needed, LastLine;
      ghost var u := Now();
      EndLine();
      UnrollIndent(-1);
      UnrolledKeys(u.(mark := mark), -1);
      ghost var v := Now();
      StoppedIs(u, v);
      var ok := RemoveSimpleKey();
      if !ok {
        return Failed;
      }
      simpleKeyAllowed := false;
      AppendIs(stream, Item(STREAM_END, mark, mark));
      InsertToken(-1, Item(STREAM_END, mark, mark));
      ended := true;
      o := Ok;
    }

    /** The end is at the beginning of a line. */
    method EndLine()
      modifies this`mark
      ensures mark == LastLine(old(mark))
      ensures mark == if old(mark).column == 0 then old(mark) else Mark(old(mark).index, old(mark).line + 1, 0)
    {
      if mark.column != 0 {
        mark := Mark(mark.index, mark.line + 1, 0);
      }
    }

    /** Directives and document indicators start at the left. */
    method FetchDirective(x: Lexeme) returns (o: Outcome)
      requires Linked() && Leveled() && Ready(parsed, Now()) && (x.kind.Directive? || x.kind.DocumentIndicator?) && mark == x.start
      modifies this`stream, this`indent, this`indents, this`simpleKeys, this`simpleKeyAllowed, this`mark, queue, queue.tokens
      ensures Linked() && Leveled() && (queue.tokens == old(queue.tokens) || fresh(queue.tokens))
      ensures Ends(Directed(old(Now()), x), o) && (o.Ok? ==> Directed(old(Now()), x) == Go(Now()))
      ensures o.Ok? ==> !simpleKeyAllowed && mark == x.end && stream != [] && stream[|stream| - 1] == Item(x.kind.typ, x.start, x.end)
      ensures o.Failed? <==> !x.wellFormed || (old(simpleKeys)[|old(simpleKeys)| - 1].possible && old(simpleKeys)[|old(simpleKeys)| - 1].required)
    {
      hide Unrolled, KeysOk, Arranged, Level, IndentsOk, Removed, Linked, IsUnrolled;
      ReadyIs(parsed, Now());
      UnrollIndent(-1);
      var ok := RemoveSimpleKey();
      if !ok {
        return Failed;
      }
      simpleKeyAllowed := false;
      if !x.wellFormed {
        return Failed;
      }
      InsertToken(-1, ItemOf(x.kind.typ, x));
      mark := x.end;
      o := Ok;
    }

    /** A flow collection may be a simple key. */
    method FetchFlowStart(x: Lexeme) returns (o: Outcome)
      requires Linked() && Leveled() && x.kind.FlowStart? && mark == x.start
      modifies this`stream, this`flowLevel, this`simpleKeys, this`simpleKeyAllowed, this`mark, queue, queue.tokens
      ensures Linked() && Leveled() && (queue.tokens == old(queue.tokens) || fresh(queue.tokens))
      ensures Ends(FlowStarted(old(Now()), x), o) && (o.Ok? ==> FlowStarted(old(Now()), x) == Go(Now()))
      ensures o.Ok? ==> simpleKeyAllowed && flowLevel == old(flowLevel) + 1 && !simpleKeys[|simpleKeys| - 1].possible
      ensures o.Ok? ==> mark == x.end && stream == old(stream) + [Item(x.kind.typ, x.start, x.end)]
    {
      hide Linked, Save;
      o := SaveSimpleKey();
      if !o.Ok? {
        return;
      }
      simpleKeys := simpleKeys + [NO_KEY];
      flowLevel := flowLevel + 1;
      simpleKeyAllowed := true;
      InsertToken(-1, ItemOf(x.kind.typ, x));
      mark := x.end;
    }

    method FetchFlowEnd(x: Lexeme) returns (o: Outcome)
      requires Linked() && Leveled() && x.kind.FlowEnd? && mark == x.start
      modifies this`stream, this`flowLevel, this`simpleKeys, this`simpleKeyAllowed, this`mark, queue, queue.tokens
      ensures Linked() && Leveled() && (queue.tokens == old(queue.tokens) || fresh(queue.tokens))
      ensures Ends(FlowEnded(old(Now()), x), o) && (o.Ok? ==> FlowEnded(old(Now()), x) == Go(Now()))
      ensures var key := old(simpleKeys)[|old(simpleKeys)| - 1]; o.Failed? <==> key.possible && key.required
      ensures o.Ok? ==> !simpleKeyAllowed && flowLevel == (if old(flowLevel) == 0 then 0 else old(flowLevel) - 1)
      ensures o.Ok? ==> mark == x.end && stream == old(stream) + [Item(x.kind.typ, x.start, x.end)]
    {
      hide Linked, Removed;
      var ok := RemoveSimpleKey();
      if !ok {
        return Failed;
      }
      if flowLevel > 0 {
        flowLevel := flowLevel - 1;
        simpleKeys := simpleKeys[..|simpleKeys| - 1];
      }
      simpleKeyAllowed := false;
      InsertToken(-1, ItemOf(x.kind.typ, x));
      mark := x.end;
      o := Ok;
    }

    method FetchFlowEntry(x: Lexeme) returns (o: Outcome)
      requires Linked() && Leveled() && x.kind.FlowEntry? && mark == x.start
      modifies this`stream, this`simpleKeys, this`simpleKeyAllowed, this`mark, queue, queue.tokens
      ensures Linked() && Leveled() && (queue.tokens == old(queue.tokens) || fresh(queue.tokens))
      ensures var r := Removing(old(Now()), FLOW_ENTRY, x, true); Ends(r, o) && (o.Ok? ==> r == Go(Now()))
      ensures var key := old(simpleKeys)[|old(simpleKeys)| - 1]; o.Failed? <==> key.possible && key.required
      ensures o.Ok? ==> simpleKeyAllowed && mark == x.end && stream == old(stream) + [Item(FLOW_ENTRY, x.start, x.end)]
    {
      hide Linked, Removed;
      var ok := RemoveSimpleKey();
      if !ok {
        return Failed;
      }
      simpleKeyAllowed := true;
      InsertToken(-1, ItemOf(FLOW_ENTRY, x));
      mark := x.end;
      o := Ok;
    }

    method FetchBlockEntry(x: Lexeme) returns (o: Outcome)
      requires Linked() && Leveled() && x.kind.BlockEntry? && mark == x.start
      modifies this`stream, this`indent, this`indents, this`simpleKeys, this`simpleKeyAllowed, this`mark, queue, queue.tokens
      ensures Linked() && Leveled() && (queue.tokens == old(queue.tokens) || fresh(queue.tokens))
      ensures var r := Entered(old(Now()), BLOCK_SEQUENCE_START, BLOCK_ENTRY, x, true); Ends(r, o) && (o.Ok? ==> r == Go(Now()))
      ensures o.Ok? ==> (flowLevel > 0 || old(simpleKeyAllowed)) && simpleKeyAllowed && mark == x.end
      ensures o.Ok? ==>
        stream == old(stream) + (if flowLevel == 0 && old(indent) < x.start.column then [Item(BLOCK_SEQUENCE_START, x.start, x.start)] else []) + [Item(BLOCK_ENTRY, x.start, x.end)]
      ensures var key := old(simpleKeys)[|old(simpleKeys)| - 1]; o.Failed? <==> (flowLevel == 0 && !old(simpleKeyAllowed)) || (key.possible && key.required)
    {
      hide Linked, Removed, Start, Entered, Needed;
      StartFails(Now(), BLOCK_SEQUENCE_START, BLOCK_ENTRY, x, true);
      ghost var s := Now();
      var ok := StartBlock(BLOCK_SEQUENCE_START);
      if !ok {
        return Failed;
      }
      EnteredIs(s, Now(), BLOCK_SEQUENCE_START, BLOCK_ENTRY, x, true);
      ok := RemoveSimpleKey();
      if !ok {
        return Failed;
      }
      simpleKeyAllowed := true;
      InsertToken(-1, ItemOf(BLOCK_ENTRY, x));
      mark := x.end;
      o := Ok;
    }

    method FetchKey(x: Lexeme) returns (o: Outcome)
      requires Linked() && Leveled() && x.kind.KeyIndicator? && mark == x.start
      modifies this`stream, this`indent, this`indents, this`simpleKeys, this`simpleKeyAllowed, this`mark, queue, queue.tokens
      ensures Linked() && Leveled() && (queue.tokens == old(queue.tokens) || fresh(queue.tokens))
      ensures var r := Entered(old(Now()), BLOCK_MAPPING_START, KEY, x, old(flowLevel) == 0); Ends(r, o) && (o.Ok? ==> r == Go(Now()))
      ensures o.Ok? ==> (flowLevel > 0 || old(simpleKeyAllowed)) && (simpleKeyAllowed <==> flowLevel == 0) && mark == x.end
      ensures o.Ok? ==>
        stream == old(stream) + (if flowLevel == 0 && old(indent) < x.start.column then [Item(BLOCK_MAPPING_START, x.start, x.start)] else []) + [Item(KEY, x.start, x.end)]
      ensures var key := old(simpleKeys)[|old(simpleKeys)| - 1]; o.Failed? <==> (flowLevel == 0 && !old(simpleKeyAllowed)) || (key.possible && key.required)
    {
      hide Linked, Removed, Start, Entered, Needed;
      StartFails(Now(), BLOCK_MAPPING_START, KEY, x, flowLevel == 0);
      ghost var s := Now();
      var ok := StartBlock(BLOCK_MAPPING_START);
      if !ok {
        return Failed;
      }
      EnteredIs(s, Now(), BLOCK_MAPPING_START, KEY, x, flowLevel == 0);
      ok := RemoveSimpleKey();
      if !ok {
        return Failed;
      }
      simpleKeyAllowed := flowLevel == 0;
      InsertToken(-1, ItemOf(KEY, x));
      mark := x.end;
      o := Ok;
    }

    /** A ':' behind a simple key: the tokens that make it one go directly in front of it, behind everything consumed. */
    method FetchSimpleValue(x: Lexeme)
      requires Linked() && Leveled() && Ready(parsed, Now()) && LexemeOk(x) && x.kind.ValueIndicator? && mark == x.start
      requires simpleKeys[|simpleKeys| - 1].possible
      modifies this`stream, this`indent, this`indents, this`simpleKeys, this`simpleKeyAllowed, this`mark, queue, queue.tokens
      ensures Linked() && Leveled() && (queue.tokens == old(queue.tokens) || fresh(queue.tokens))
      ensures Valued(old(Now()), x) == Go(Now())
      ensures var key := old(simpleKeys)[|old(simpleKeys)| - 1];
        && old(parsed) == parsed <= key.number < |old(stream)| && old(stream)[key.number].start == key.mark
        && stream == Keyed(old(stream), key, old(flowLevel == 0 && indent < key.mark.column), ItemOf(VALUE, x))
    {
      hide Ready, Linked, InsertAt, Keyed, LexemeOk;
      var last := |simpleKeys| - 1;
      var key := simpleKeys[last];
      ghost var before := Now();
      KeyedKeeps(parsed, before, x);
      InsertedBehind(stream, key.number, Item(KEY, key.mark, key.mark));
      InsertToken(key.number, Item(KEY, key.mark, key.mark));
      ghost var rolled := RollIndent(key.mark.column, key.number, BLOCK_MAPPING_START, key.mark);
      simpleKeys := simpleKeys[last := key.(possible := false)];
      simpleKeyAllowed := false;
      KeyedIs(before.stream, key, rolled, ItemOf(VALUE, x));
      AppendIs(stream, ItemOf(VALUE, x));
      InsertToken(-1, ItemOf(VALUE, x));
      mark := x.end;
    }

    /** A ':', behind a simple key or not. */
    method FetchValue(x: Lexeme) returns (o: Outcome)
      requires Linked() && Leveled() && Ready(parsed, Now()) && LexemeOk(x) && x.kind.ValueIndicator? && mark == x.start
      modifies this`stream, this`indent, this`indents, this`simpleKeys, this`simpleKeyAllowed, this`mark, queue, queue.tokens
      ensures Linked() && Leveled() && (queue.tokens == old(queue.tokens) || fresh(queue.tokens))
      ensures Ends(Valued(old(Now()), x), o) && (o.Ok? ==> Valued(old(Now()), x) == Go(Now()))
      ensures o.Ok? ==> mark == x.end
      ensures var key := old(simpleKeys)[|old(simpleKeys)| - 1];
        && (o.Failed? <==> !key.possible && flowLevel == 0 && !old(simpleKeyAllowed))
        && (o.Ok? ==> (simpleKeyAllowed <==> !key.possible && flowLevel == 0))
        && (o.Ok? && !key.possible ==>
              stream == old(stream) + (if flowLevel == 0 && old(indent) < x.start.column then [Item(BLOCK_MAPPING_START, x.start, x.start)] else [])
                + [Item(VALUE, x.start, x.end)])
    {
      hide Ready, Linked, Keyed, LexemeOk, Start;
      if simpleKeys[|simpleKeys| - 1].possible {
        FetchSimpleValue(x);
        return Ok;
      }
      var ok := StartBlock(BLOCK_MAPPING_START);
      if !ok {
        return Failed;
      }
      simpleKeyAllowed := flowLevel == 0;
      InsertToken(-1, ItemOf(VALUE, x));
      mark := x.end;
      o := Ok;
    }

    /** Aliases, anchors, tags, quoted and plain scalars may be simple keys. */
    method FetchContent(x: Lexeme) returns (o: Outcome)
      requires Linked() && Leveled() && x.kind.Content? && mark == x.start
      modifies this`stream, this`simpleKeys, this`simpleKeyAllowed, this`mark, queue, queue.tokens
      ensures Linked() && Leveled() && (queue.tokens == old(queue.tokens) || fresh(queue.tokens))
      ensures Ends(Contained(old(Now()), x), o) && (o.Ok? ==> Contained(old(Now()), x) == Go(Now()))
      ensures o.Ok? ==> x.wellFormed && simpleKeyAllowed == x.kind.breaks && mark == x.end && stream == old(stream) + [Item(x.kind.typ, x.start, x.end)]
    {
      hide Linked, Save;
      o := SaveSimpleKey();
      if !o.Ok? {
        return;
      }
      simpleKeyAllowed := false;
      if !x.wellFormed {
        return Failed;
      }
      if x.kind.breaks {
        simpleKeyAllowed := true;
      }
      InsertToken(-1, ItemOf(x.kind.typ, x));
      mark := x.end;
    }

    method FetchBlockScalar(x: Lexeme) returns (o: Outcome)
      requires Linked() && Leveled() && x.kind.BlockScalar? && mark == x.start
      modifies this`stream, this`simpleKeys, this`simpleKeyAllowed, this`mark, queue, queue.tokens
      ensures Linked() && Leveled() && (queue.tokens == old(queue.tokens) || fresh(queue.tokens))
      ensures var r := Removing(old(Now()), SCALAR, x, true); Ends(r, o) && (o.Ok? ==> r == Go(Now()))
      ensures var key := old(simpleKeys)[|old(simpleKeys)| - 1]; o.Failed? <==> !x.wellFormed || (key.possible && key.required)
      ensures o.Ok? ==> x.wellFormed && simpleKeyAllowed && mark == x.end && stream == old(stream) + [Item(SCALAR, x.start, x.end)]
    {
      hide Linked, Removed;
      var ok := RemoveSimpleKey();
      if !ok {
        return Failed;
      }
      simpleKeyAllowed := true;
      if !x.wellFormed {
        return Failed;
      }
      InsertToken(-1, ItemOf(SCALAR, x));
      mark := x.end;
      o := Ok;
    }

    method Dispatch(x: Lexeme) returns (o: Outcome)
      requires Linked() && Leveled() && Ready(parsed, Now()) && LexemeOk(x) && mark == x.start
      modifies this`stream, this`flowLevel, this`indent, this`indents, this`simpleKeys, this`simpleKeyAllowed, this`mark, queue, queue.tokens
      ensures Linked() && Leveled() && (queue.tokens == old(queue.tokens) || fresh(queue.tokens))
      ensures Ends(Fetch(old(Now()), x), o) && (o.Ok? ==> Fetch(old(Now()), x) == Go(Now()))
    {
      hide Ready, Linked, LexemeOk, Directed, FlowStarted, FlowEnded, Removing, Entered, Valued, Contained;
      match x.kind {
        case Directive(_) => o := FetchDirective(x);
        case DocumentIndicator(_) => o := FetchDirective(x);
        case FlowStart(_) => o := FetchFlowStart(x);
        case FlowEnd(_) => o := FetchFlowEnd(x);
        case FlowEntry => o := FetchFlowEntry(x);
        case BlockEntry => o := FetchBlockEntry(x);
        case KeyIndicator => o := FetchKey(x);
        case ValueIndicator => o := FetchValue(x);
        case Content(_, _) => o := FetchContent(x);
        case BlockScalar => o := FetchBlockScalar(x);
        case Unknown => o := Failed;
      }
    }

    /** Reads as far as the next lexeme. */
    method ScanToNextToken()
      modifies this`mark, this`simpleKeyAllowed
      ensures mark == Place(lexemes, end, next)
      ensures simpleKeyAllowed == (old(simpleKeyAllowed) || (next < |lexemes| && lexemes[next].newLine && flowLevel == 0))
    {
      if next < |lexemes| && lexemes[next].newLine && flowLevel == 0 {
        simpleKeyAllowed := true;
      }
      mark := Place(lexemes, end, next);
    }

    /** What is still to be fetched. */
    ghost function Remaining(): nat
      reads this`next, this`started, this`ended
      requires next <= |lexemes|
    {
      |lexemes| - next + (if started then 0 else 1) + (if ended then 0 else 1)
    }

    /** A token has been fetched; the keys that are too far back are still to be removed. */
    ghost predicate Due()
      reads this
    {
      && started && Leveled() && next <= |lexemes| && parsed < |stream|
      && if ended then
           && Whole(lexemes, end) == Check(Now()) && Ended(parsed, Now())
           && (Check(Now()).Go? ==> NoKeys(Check(Now()).s.keys))
         else Fold(lexemes, next) == Check(Now()) && Ready(parsed, Now()) && NotBefore(mark, Place(lexemes, end, next))
    }

    /** Up to the next lexeme or to the end. */
    method Arrive() returns (ok: bool)
      requires Leveled() && IndentsOk(indents, indent)
      modifies this`mark, this`simpleKeyAllowed, this`simpleKeys
      ensures Leveled() && mark == Place(lexemes, end, next)
      ensures var a := if next < |lexemes| then Arrived(old(Now()), lexemes[next]) else old(Now()).(mark := end);
        if ok then Check(a) == Go(Now()) else Check(a) == Error
    {
      hide Lost, Fresh, Check;
      PlaceIs(lexemes, end, next);
      ScanToNextToken();
      ghost var a := Now();
      ok := StaleSimpleKeys();
      StaleIs(a, ok, simpleKeys);
    }

    method FetchNextToken() returns (o: Outcome)
      requires Ordered(lexemes, end) && Linked() && OnTrack() && !ended
      modifies this`stream, this`flowLevel, this`indent, this`indents, this`simpleKeys, this`simpleKeyAllowed, this`mark,
               this`started, this`ended, this`next, queue, queue.tokens
      ensures Linked() && (queue.tokens == old(queue.tokens) || fresh(queue.tokens))
      ensures if o.Ok? then Due() && stream[..parsed] == old(stream)[..parsed] else Ends(Whole(lexemes, end), o)
      ensures o.Ok? ==> Remaining() < old(Remaining())
    {
      hide Ready, Linked, NotBefore, Place, Ordered, Fold, Check, Whole, Ended, NoKeys;
      if !started {
        FetchStreamStart();
        StartDue(lexemes, end);
        o := Ok;
      } else if next < |lexemes| {
        o := FetchLexeme();
      } else {
        o := FetchLast();
      }
    }

    method FetchLexeme() returns (o: Outcome)
      requires Ordered(lexemes, end) && Linked() && OnTrack() && started && !ended && next < |lexemes|
      modifies this`stream, this`flowLevel, this`indent, this`indents, this`simpleKeys, this`simpleKeyAllowed, this`mark,
               this`next, queue, queue.tokens
      ensures Linked() && (queue.tokens == old(queue.tokens) || fresh(queue.tokens))
      ensures if o.Ok? then Due() && stream[..parsed] == old(stream)[..parsed] else Ends(Whole(lexemes, end), o)
      ensures o.Ok? ==> next == old(next) + 1
    {
      hide Ready, Linked, LexemeOk, NotBefore, Place, Ordered, Fold, Check, Fetch, Unrolled, Whole, IndentsOk, Arrived, Ended, IsUnrolled;
      hide KeysOk, Arranged, Level, NoKeys;
      ReadyIs(parsed, Now());
      var ok := Arrive();
      if !ok {
        StepStale(lexemes, end, next);
        return Failed;
      }
      LexemeFetched(parsed, lexemes, end, next);
      UnrollIndent(mark.column);
      o := Dispatch(lexemes[next]);
      if o.Ok? {
        next := next + 1;
      }
    }

    method FetchLast() returns (o: Outcome)
      requires Ordered(lexemes, end) && Linked() && OnTrack() && started && !ended && next == |lexemes|
      modifies this`stream, this`indent, this`indents, this`simpleKeys, this`simpleKeyAllowed, this`mark,
               this`ended, queue, queue.tokens
      ensures Linked() && (queue.tokens == old(queue.tokens) || fresh(queue.tokens))
      ensures if o.Ok? then Due() && ended && stream[..parsed] == old(stream)[..parsed] else Ends(Whole(lexemes, end), o)
    {
      hide Ready, Linked, NotBefore, Place, Ordered, Fold, Check, Unrolled, Whole, IndentsOk, Ended, Stopped, IsUnrolled;
      hide KeysOk, Arranged, Level, NoKeys, Arrived, Linked, IsUnrolled, LastLine, Closing;
      ReadyIs(parsed, Now());
      PlaceIs(lexemes, end, next);
      var ok := Arrive();
      if !ok {
        FinishStale(lexemes, end);
        return Failed;
      }
      EndFetched(parsed, lexemes, end, Now());
      UnrollIndent(mark.column);
      o := FetchStreamEnd();
    }

    /** Whether a key may still be put in front of the first token queued. */
    method KeyAtHead() returns (need: bool)
      ensures need <==> exists i | 0 <= i < |simpleKeys| :: simpleKeys[i].possible && simpleKeys[i].number == parsed
    {
      for i := 0 to |simpleKeys|
        invariant forall j | 0 <= j < i :: simpleKeys[j].possible ==> simpleKeys[j].number != parsed
      {
        if simpleKeys[i].possible && simpleKeys[i].number == parsed {
          return true;
        }
      }
      need := false;
    }

    /** Whether another token has to be fetched before the first one queued can be consumed. */
    method NeedToken() returns (o: Outcome, need: bool)
      requires Linked() && ((OnTrack() && (ended ==> parsed < |stream|)) || Due())
      modifies this`simpleKeys
      ensures if o.Ok? then OnTrack() else Ends(Whole(lexemes, end), o)
      ensures o.Ok? && need ==> !ended
      ensures o.Ok? && !need ==> started && parsed < |stream| && forall i | 0 <= i < |simpleKeys| && simpleKeys[i].possible :: simpleKeys[i].number > parsed
    {
      hide Ready, NotBefore, Place, Fold, Check, Whole, Ended, Ends;
      if queue.head == queue.count {
        return Ok, true;
      }
      ghost var s := Now();
      TrackDue(lexemes, end, next, ended);
      var ok := StaleSimpleKeys();
      StaleIs(s, ok, simpleKeys);
      if !ok {
        DueFails(lexemes, end, next, ended);
        return Failed, false;
      }
      DueChecked(parsed, s, ended);
      need := KeyAtHead();
      if !need && !ended {
        NotParsed(parsed, Now());
      }
      o := Ok;
    }

    /** Fetches until the first token queued cannot become part of a key any more. */
    method FetchMoreTokens() returns (o: Outcome)
      requires Ordered(lexemes, end) && Valid() && !available && !finished
      modifies this, queue, queue.tokens
      ensures parsed == old(parsed) && (queue.tokens == old(queue.tokens) || fresh(queue.tokens))
      ensures if o.Ok? then Valid() && available && !finished && stream[..parsed] == old(stream)[..parsed] else Ends(Whole(lexemes, end), o)
      ensures o.Ok? ==> next <= |lexemes| && old(next) <= |lexemes| && Remaining() <= old(Remaining()) && (Remaining() == old(Remaining()) ==> stream == old(stream))
    {
      hide Ready, NotBefore, Place, Ordered, Fold, Check, Whole, Ended, Ends, NoKeys;
      var need := true;
      while need
        invariant Linked() && (queue.tokens == old(queue.tokens) || fresh(queue.tokens)) && !available && !finished
        invariant need ==> (OnTrack() && (ended ==> parsed < |stream|)) || Due()
        invariant !need ==> OnTrack() && started && parsed < |stream| && forall i | 0 <= i < |simpleKeys| && simpleKeys[i].possible :: simpleKeys[i].number > parsed
        invariant next <= |lexemes| && Remaining() <= old(Remaining()) && (Remaining() == old(Remaining()) ==> stream == old(stream))
        invariant parsed == old(parsed) && stream[..parsed] == old(stream)[..parsed]
        decreases Remaining(), need
      {
        o, need := NeedToken();
        if !o.Ok? {
          return;
        }
        if need {
          o := FetchNextToken();
          if !o.Ok? {
            return;
          }
        }
      }
      available := true;
      o := Ok;
    }

    method PeekToken() returns (o: Outcome, token: Item)
      requires Ordered(lexemes, end) && Valid() && !finished
      modifies this, queue, queue.tokens
      ensures parsed == old(parsed) && (queue.tokens == old(queue.tokens) || fresh(queue.tokens))
      ensures if o.Ok? then Valid() && available && !finished && stream[..parsed] == old(stream)[..parsed] else Ends(Whole(lexemes, end), o)
      ensures o.Ok? ==> next <= |lexemes| && old(next) <= |lexemes| && Remaining() <= old(Remaining()) && (Remaining() == old(Remaining()) ==> stream == old(stream))
      ensures o.Ok? ==> parsed < |stream| && token == stream[parsed]
    {
      hide Ordered, Ends;
      o, token := Ok, Item(STREAM_START, ORIGIN, ORIGIN);
      if !available {
        o := FetchMoreTokens();
      }
      if o.Ok? {
        token := queue.tokens[queue.head];
        assert token == queue.Contents()[0];
      }
    }

    lemma AllParsed()
      requires Valid() && finished
      ensures parsed == |stream| && Whole(lexemes, end) == Go(Now())
    {
      hide Ready, Ended, Whole, Fold, Place, NotBefore, Linked;
    }

    /** Consumes a token that has been looked at. */
    method SkipToken()
      requires Valid() && available && !finished
      modifies this`parsed, this`available, this`finished, queue`head
      ensures Valid() && !available && parsed == old(parsed) + 1
      ensures finished == (stream[old(parsed)].typ == STREAM_END)
    {
      hide Ready, Ended, Whole, Fold, Place, NotBefore, Linked;
      if ended {
        EndedSkipped(parsed, Now());
      } else {
        ReadySkipped(parsed, Now());
      }
      available := false;
      var token := TakeHead();
      finished := token.typ == STREAM_END;
    }

    method TakeHead() returns (token: Item)
      requires Linked() && parsed < |stream|
      modifies this`parsed, queue`head
      ensures Linked() && parsed == old(parsed) + 1 && token == stream[old(parsed)]
    {
      assert stream[parsed..][0] == stream[parsed] && stream[parsed..][1..] == stream[parsed + 1..];
      parsed := parsed + 1;
      token := queue.Remove();
    }
  }

  lemma InsertedBehind(stream: seq<Item>, number: nat, t: Item)
    requires number < |stream|
    ensures |InsertAt(stream, number, t)| == |stream| + 1
  {
  }

  lemma StartFails(s: Core, start: TokenType, typ: TokenType, x: Lexeme, allowed: bool)
    ensures Start(s, start) == Error ==> Entered(s, start, typ, x, allowed) == Error
  {
    hide Start;
  }

  lemma EnteredIs(s: Core, t: Core, start: TokenType, typ: TokenType, x: Lexeme, allowed: bool)
    requires Start(s, start) == Go(t) && !x.kind.BlockScalar?
    ensures Entered(s, start, typ, x, allowed) ==
      if Needed(t.keys) then Error
      else Go(t.(keys := Removed(t.keys), stream := t.stream + [ItemOf(typ, x)], mark := x.end, allowed := allowed))
  {
    hide Start, Needed, Removed;
  }

  lemma StoppedIs(u: Core, v: Core)
    requires v == Unrolled(u.(mark := LastLine(u.mark)), -1) && v.mark == LastLine(u.mark)
    ensures Stopped(u) ==
      if Needed(v.keys) then Error
      else Go(v.(keys := Removed(v.keys), stream := v.stream + [Item(STREAM_END, v.mark, v.mark)], allowed := false))
  {
    hide Unrolled, Removed, Needed, LastLine;
  }

  lemma UnrolledKeys(s: Core, column: int)
    ensures Unrolled(s, column).keys == s.keys && Unrolled(s, column).mark == s.mark
  {
    UnrolledIs(s, column);
  }

  lemma AppendIs(stream: seq<Item>, t: Item)
    ensures InsertAt(stream, -1, t) == stream + [t]
  {
  }

  lemma StaleIs(a: Core, ok: bool, keys: seq<SimpleKey>)
    requires ok == !Lost(a.keys, a.mark) && (ok ==> keys == Fresh(a.keys, a.mark))
    ensures if ok then |keys| == a.flow + 1 && Check(a) == Go(a.(keys := keys)) else Check(a) == Error
  {
  }

  lemma StartDue(lexemes: seq<Lexeme>, end: Mark)
    requires Ordered(lexemes, end)
    ensures Fold(lexemes, 0) == Check(FIRST) == Go(FIRST) && Ready(0, FIRST) && NotBefore(ORIGIN, Place(lexemes, end, 0))
  {
    FirstReady();
    assert Fresh([NO_KEY], ORIGIN) == [NO_KEY];
    assert FIRST.(keys := [NO_KEY]) == FIRST;
  }

  /** What fails is not gone on with. */
  lemma {:induction false} FoldFails(lexemes: seq<Lexeme>, end: Mark, n: nat)
    requires n <= |lexemes| && !Fold(lexemes, n).Go?
    ensures Whole(lexemes, end) == Fold(lexemes, n)
    decreases |lexemes| - n
  {
    hide Step, Finish;
    if n < |lexemes| {
      FoldFails(lexemes, end, n + 1);
    }
  }

  lemma StepStale(lexemes: seq<Lexeme>, end: Mark, n: nat)
    requires n < |lexemes| && Fold(lexemes, n).Go? && Check(Arrived(Fold(lexemes, n).s, lexemes[n])) == Error
    ensures Ends(Whole(lexemes, end), Failed)
  {
    FoldFails(lexemes, end, n + 1);
  }

  lemma FinishStale(lexemes: seq<Lexeme>, end: Mark)
    requires Fold(lexemes, |lexemes|).Go? && Check(Fold(lexemes, |lexemes|).s.(mark := end)) == Error
    ensures Ends(Whole(lexemes, end), Failed)
  {
  }

  /** What one more lexeme gives. */
  lemma LexemeFetched(parsed: nat, lexemes: seq<Lexeme>, end: Mark, n: nat)
    requires Ordered(lexemes, end) && n < |lexemes| && Fold(lexemes, n).Go? && Ready(parsed, Fold(lexemes, n).s)
    requires NotBefore(Fold(lexemes, n).s.mark, Place(lexemes, end, n))
    requires Check(Arrived(Fold(lexemes, n).s, lexemes[n])).Go?
    ensures var s, x := Fold(lexemes, n).s, lexemes[n];
      var t := Check(Arrived(s, x)).s;
      var u := Unrolled(t, x.start.column);
      && LexemeOk(x) && Place(lexemes, end, n) == x.start && IndentsOk(t.indents, t.indent)
      && Ready(parsed, u) && u.mark == x.start
      && (if Fetch(u, x).Go? then
            var v := Fetch(u, x).s;
            && Fold(lexemes, n + 1) == Check(v) && Ready(parsed, v) && parsed < |v.stream|
            && NotBefore(v.mark, Place(lexemes, end, n + 1)) && parsed <= |s.stream| && v.stream[..parsed] == s.stream[..parsed]
          else Whole(lexemes, end) == Fetch(u, x))
  {
    hide Ready, LexemeOk, Unrolled, Fetch, NotBefore, Place, Ordered, Check, IndentsOk, KeysOk, Arranged, Level;
    PlaceIs(lexemes, end, n);
    var s, x := Fold(lexemes, n).s, lexemes[n];
    CheckIs(Arrived(s, x));
    LexemeAt(lexemes, end, n);
    ArrivedKeeps(parsed, s, x.start, Arrived(s, x).allowed);
    CheckKeeps(parsed, Arrived(s, x));
    var t := Check(Arrived(s, x)).s;
    ReadyIs(parsed, t);
    UnrolledKeeps(parsed, t, x.start.column);
    var u := Unrolled(t, x.start.column);
    if Fetch(u, x).Go? {
      FetchKeeps(parsed, u, x);
    } else {
      FoldFails(lexemes, end, n + 1);
    }
  }

  lemma CheckIs(s: Core)
    requires Check(s).Go?
    ensures var t := Check(s).s; t.mark == s.mark && t.flow == s.flow && t.stream == s.stream
  {
  }

  /** What the end of the text gives. */
  lemma EndFetched(parsed: nat, lexemes: seq<Lexeme>, end: Mark, t: Core)
    requires Fold(lexemes, |lexemes|).Go? && Ready(parsed, Fold(lexemes, |lexemes|).s)
    requires NotBefore(Fold(lexemes, |lexemes|).s.mark, end)
    requires Check(Fold(lexemes, |lexemes|).s.(mark := end)) == Go(t)
    ensures IndentsOk(t.indents, t.indent) && IndentsOk(Unrolled(t, t.mark.column).indents, Unrolled(t, t.mark.column).indent)
    ensures var u := Unrolled(t, t.mark.column);
      if Stopped(u).Go? then
        var v := Stopped(u).s;
        && Whole(lexemes, end) == Check(v) && Ended(parsed, v) && parsed < |v.stream|
        && Grown(parsed, Fold(lexemes, |lexemes|).s, v) && (Check(v).Go? ==> NoKeys(Check(v).s.keys))
      else Whole(lexemes, end) == Stopped(u)
  {
    hide Ready, Unrolled, NotBefore, Ended, Stopped;
    var s := Fold(lexemes, |lexemes|).s;
    ArrivedKeeps(parsed, s, end, s.allowed);
    CheckKeeps(parsed, s.(mark := end));
    ReadyIs(parsed, t);
    UnrolledKeeps(parsed, t, t.mark.column);
    ReadyIs(parsed, Unrolled(t, t.mark.column));
    if Closing(t).Go? {
      ClosingKeeps(parsed, t);
    }
  }

  // ---- the parser's side

  lemma FoldChecked(lexemes: seq<Lexeme>, end: Mark, n: nat)
    requires n <= |lexemes| && Fold(lexemes, n).Go?
    ensures Check(Fold(lexemes, n).s) == Fold(lexemes, n)
  {
    if n == 0 {
      assert Fresh([NO_KEY], ORIGIN) == [NO_KEY];
      assert FIRST.(keys := [NO_KEY]) == FIRST;
    } else {
      var s, x := Fold(lexemes, n - 1).s, lexemes[n - 1];
      CheckedTwice(Fetch(Unrolled(Check(Arrived(s, x)).s, x.start.column), x).s);
    }
  }

  lemma WholeChecked(lexemes: seq<Lexeme>, end: Mark)
    requires Whole(lexemes, end).Go?
    ensures Check(Whole(lexemes, end).s) == Whole(lexemes, end)
  {
    hide Fold;
    var s := Fold(lexemes, |lexemes|).s;
    CheckedTwice(Closing(Check(s.(mark := end)).s).s);
  }

  /** Keys that are possible are not behind what has been consumed. */
  lemma NotParsed(parsed: nat, s: Core)
    requires Ready(parsed, s) && forall i | 0 <= i < |s.keys| :: s.keys[i].possible ==> s.keys[i].number != parsed
    ensures forall i | 0 <= i < |s.keys| && s.keys[i].possible :: s.keys[i].number > parsed
  {
  }

  /** A token is consumed that no key can be put in front of. */
  lemma ReadySkipped(parsed: nat, s: Core)
    requires Ready(parsed, s) && parsed < |s.stream|
    requires forall i | 0 <= i < |s.keys| && s.keys[i].possible :: s.keys[i].number > parsed
    ensures Ready(parsed + 1, s) && s.stream[parsed].typ != STREAM_END
  {
    hide Level, IndentsOk, InOrder, UpTo;
  }

  lemma EndedSkipped(parsed: nat, s: Core)
    requires Ended(parsed, s) && parsed < |s.stream|
    ensures Ended(parsed + 1, s) && (s.stream[parsed].typ == STREAM_END <==> parsed + 1 == |s.stream|)
  {
    hide Level, InOrder;
  }

  lemma TrackDue(lexemes: seq<Lexeme>, end: Mark, n: nat, ended: bool)
    requires n <= |lexemes|
    ensures !ended && Fold(lexemes, n).Go? ==> Check(Fold(lexemes, n).s) == Fold(lexemes, n)
    ensures ended && Whole(lexemes, end).Go? ==> Check(Whole(lexemes, end).s) == Whole(lexemes, end)
  {
    hide Fold, Whole, Check;
    if !ended && Fold(lexemes, n).Go? {
      FoldChecked(lexemes, end, n);
    }
    if ended && Whole(lexemes, end).Go? {
      WholeChecked(lexemes, end);
    }
  }

  lemma DueFails(lexemes: seq<Lexeme>, end: Mark, n: nat, ended: bool)
    requires n <= |lexemes| && (if ended then Whole(lexemes, end) else Fold(lexemes, n)) == Error
    ensures Ends(Whole(lexemes, end), Failed)
  {
    hide Fold, Whole;
    if !ended {
      FoldFails(lexemes, end, n);
    }
  }

  /** The keys too far back have been removed. */
  lemma DueChecked(parsed: nat, s: Core, ended: bool)
    requires Check(s).Go?
    ensures !ended && Ready(parsed, s) ==> Ready(parsed, Check(s).s) && Check(s).s.mark == s.mark && Check(s).s.stream == s.stream
    ensures ended && Ended(parsed, s) ==> Ended(parsed, Check(s).s)
  {
    hide Ready, Fresh, Placed, InOrder, Level;
    if !ended && Ready(parsed, s) {
      CheckKeeps(parsed, s);
    }
  }

  lemma EndsIs()
    ensures forall s: Core :: Ends(Go(s), Ok)
  {
  }

  lemma EndedIs(parsed: nat, s: Core)
    requires Ended(parsed, s)
    ensures s.stream != [] && s.stream[|s.stream| - 1].typ == STREAM_END && Placed(s.stream) && InOrder(s.stream)
  {
  }

  /** The scanner that is asked for one token after the other, and puts keys in front of tokens that are still queued,
      gives the tokens of the fold; it fails and it panics exactly if the fold does. */
  method Scan(lexemes: seq<Lexeme>, end: Mark) returns (o: Outcome, tokens: seq<Item>)
    requires Ordered(lexemes, end)
    ensures Ends(Whole(lexemes, end), o)
    ensures o.Ok? ==> tokens == Whole(lexemes, end).s.stream
    ensures o.Ok? ==> tokens != [] && tokens[|tokens| - 1].typ == STREAM_END && Placed(tokens) && InOrder(tokens)
    ensures o.Ok? ==>
      if OpenFlow(lexemes, |lexemes|) == 0 then Level(tokens) == 0
      else
        var k := Outermost(lexemes, |lexemes|);
        k < |lexemes| && Fold(lexemes, k + 1).Go? && Level(tokens) == |Fold(lexemes, k + 1).s.indents|
  {
    hide OpenFlow, Outermost, Level, Placed, InOrder, Scanner.Valid;
    hide Ordered, Whole, Fold, Place, NotBefore, Ready, Ended, NoKeys, Ends;
    EndsIs();
    var scanner := new Scanner(lexemes, end);
    tokens := [];
    while !scanner.finished
      invariant fresh(scanner) && fresh(scanner.queue) && fresh(scanner.queue.tokens) && scanner.lexemes == lexemes && scanner.end == end
      invariant scanner.Valid() && scanner.next <= |lexemes| && scanner.parsed <= |scanner.stream| && tokens == scanner.stream[..scanner.parsed]
      decreases scanner.Remaining(), |scanner.stream| - scanner.parsed
    {
      var token;
      o, token := scanner.PeekToken();
      if !o.Ok? {
        return;
      }
      tokens := tokens + [token];
      scanner.SkipToken();
    }
    scanner.AllParsed();
    assert tokens == scanner.stream;
    Scanned(lexemes, end);
    o := Ok;
  }

  lemma Scanned(lexemes: seq<Lexeme>, end: Mark)
    requires Ordered(lexemes, end) && Whole(lexemes, end).Go?
    ensures var tokens := Whole(lexemes, end).s.stream;
      && tokens != [] && tokens[|tokens| - 1].typ == STREAM_END && Placed(tokens) && InOrder(tokens)
      && if OpenFlow(lexemes, |lexemes|) == 0 then Level(tokens) == 0
         else
           var k := Outermost(lexemes, |lexemes|);
           k < |lexemes| && Fold(lexemes, k + 1).Go? && Level(tokens) == |Fold(lexemes, k + 1).s.indents|
  {
    hide *;
    WholeEnded(lexemes, end);
    LevelIs(lexemes, end);
    EndedIs(0, Whole(lexemes, end).s);
  }

  // ---- flow collections left open, and block collections inside of which they are

  /** The flow collections that `n` lexemes leave open. */
  function OpenFlow(lexemes: seq<Lexeme>, n: nat): (r: nat)
    requires n <= |lexemes|
  {
    if n == 0 then 0
    else
      var before := OpenFlow(lexemes, n - 1);
      match lexemes[n - 1].kind
      case FlowStart(_) => before + 1
      case FlowEnd(_) => if before == 0 then 0 else before - 1
      case _ => before
  }

  /** Where the outermost of them starts. */
  function Outermost(lexemes: seq<Lexeme>, n: nat): (r: nat)
    requires n <= |lexemes|
  {
    if n == 0 then 0
    else if OpenFlow(lexemes, n - 1) == 0 then n - 1
    else Outermost(lexemes, n - 1)
  }

  function FlowAfter(flow: nat, kind: Kind): (r: nat) {
    match kind case FlowStart(_) => flow + 1 case FlowEnd(_) => (if flow == 0 then 0 else flow - 1) case _ => flow
  }

  lemma {:induction false} UnrolledIs(s: Core, column: int)
    ensures var r := Unrolled(s, column); r.flow == s.flow && r.keys == s.keys && r.allowed == s.allowed && r.mark == s.mark
    ensures s.flow > 0 ==> Unrolled(s, column) == s
    ensures Unrolled(s, column).indent in s.indents + [s.indent]
    decreases |s.indents|
  {
    if !(s.flow > 0 || s.indent <= column || s.indents == []) {
      UnrolledIs(s.(stream := s.stream + [Item(BLOCK_END, s.mark, s.mark)],
                    indent := s.indents[|s.indents| - 1], indents := s.indents[..|s.indents| - 1]), column);
    }
  }

  /** What a fetch makes of the flow level and, inside a flow collection, of the indentation. */
  lemma FetchFlow(s: Core, x: Lexeme)
    requires Fetch(s, x).Go?
    ensures var r := Fetch(s, x).s;
      && r.flow == FlowAfter(s.flow, x.kind)
      && (s.flow > 0 ==> r.indents == s.indents && r.indent == s.indent)
      && (x.kind.FlowStart? ==> r.indents == s.indents && r.indent == s.indent)
  {
    hide Unrolled, Trapped, Needed, Keyed, Removed, InsertAt;
    match x.kind {
      case Directive(_) => UnrolledIs(s, -1);
      case DocumentIndicator(_) => UnrolledIs(s, -1);
      case FlowStart(_) =>
      case FlowEnd(_) =>
      case ValueIndicator =>
      case Content(_, _) =>
      case _ =>
    }
  }

  lemma StepFlow(s: Core, x: Lexeme)
    requires Step(s, x).Go?
    ensures var r := Step(s, x).s;
      && r.flow == FlowAfter(s.flow, x.kind)
      && (s.flow > 0 ==> r.indents == s.indents && r.indent == s.indent)
  {
    hide Fetch, Unrolled, Lost, Fresh;
    var t := Check(Arrived(s, x)).s;
    UnrolledIs(t, x.start.column);
    FetchFlow(Unrolled(t, x.start.column), x);
  }

  lemma {:induction false} FlowIs(lexemes: seq<Lexeme>, n: nat)
    requires n <= |lexemes| && Fold(lexemes, n).Go?
    ensures Fold(lexemes, n).s.flow == OpenFlow(lexemes, n)
  {
    if n > 0 {
      hide Step;
      FlowIs(lexemes, n - 1);
      StepFlow(Fold(lexemes, n - 1).s, lexemes[n - 1]);
    }
  }

  /** Inside a flow collection the indentation stays as it was where the outermost one started. */
  lemma {:induction false} InsideFlow(lexemes: seq<Lexeme>, n: nat)
    requires n <= |lexemes| && Fold(lexemes, n).Go? && OpenFlow(lexemes, n) > 0
    ensures var k := Outermost(lexemes, n);
      && k < n && lexemes[k].kind.FlowStart? && OpenFlow(lexemes, k) == 0 && Fold(lexemes, k).Go? && Fold(lexemes, k + 1).Go?
      && Fold(lexemes, n).s.indents == Fold(lexemes, k + 1).s.indents
      && Fold(lexemes, n).s.indent == Fold(lexemes, k + 1).s.indent
  {
    hide Step;
    if OpenFlow(lexemes, n - 1) > 0 {
      InsideFlow(lexemes, n - 1);
      FlowIs(lexemes, n - 1);
      StepFlow(Fold(lexemes, n - 1).s, lexemes[n - 1]);
    }
  }

  /** A text whose tokens can all be read. */
  lemma WholeEnded(lexemes: seq<Lexeme>, end: Mark)
    requires Ordered(lexemes, end) && Whole(lexemes, end).Go?
    ensures Ended(0, Whole(lexemes, end).s)
    ensures Fold(lexemes, |lexemes|).Go? && Whole(lexemes, end).s.flow == OpenFlow(lexemes, |lexemes|)
    ensures OpenFlow(lexemes, |lexemes|) > 0 ==> Whole(lexemes, end).s.indents == Fold(lexemes, |lexemes|).s.indents
  {
    hide Ready, Ended, Unrolled, Fold, Fresh, Lost, Ordered, Place, NotBefore, Needed, Removed;
    var n := |lexemes|;
    var s := Fold(lexemes, n).s;
    FoldReady(lexemes, end, n);
    FlowIs(lexemes, n);
    PlaceIs(lexemes, end, n);
    var t := Check(s.(mark := end)).s;
    EndFetched(0, lexemes, end, t);
    UnrolledIs(t, t.mark.column);
    var u := Unrolled(t, t.mark.column);
    UnrolledIs(u.(mark := LastLine(u.mark)), -1);
    DueChecked(0, Stopped(u).s, true);
  }

  /** In a text whose tokens can all be read, the block collections that have been started and not ended are those that
      the outermost flow collection left open is inside of; with none left open, there are none. */
  lemma LevelIs(lexemes: seq<Lexeme>, end: Mark)
    requires Ordered(lexemes, end) && Whole(lexemes, end).Go?
    ensures var n, tokens := |lexemes|, Whole(lexemes, end).s.stream;
      && (OpenFlow(lexemes, n) == 0 ==> Level(tokens) == 0)
      && (OpenFlow(lexemes, n) > 0 ==>
            && Outermost(lexemes, n) < n && Fold(lexemes, Outermost(lexemes, n) + 1).Go?
            && Level(tokens) == |Fold(lexemes, Outermost(lexemes, n) + 1).s.indents|)
  {
    hide Fold, Whole, Ordered, OpenFlow, Outermost, Placed, InOrder, Level;
    WholeEnded(lexemes, end);
    if OpenFlow(lexemes, |lexemes|) > 0 {
      InsideFlow(lexemes, |lexemes|);
    }
  }

  // ---- when the scanner panics

  /** Lines end in a lexeme, or between two. */
  predicate ReadsBreaks(kind: Kind) {
    kind.Directive? || kind.BlockScalar? || (kind.Content? && kind.breaks)
  }

  /** A lexeme is on the line on which the one before it ends, unless line breaks lead to it. */
  ghost predicate Tidy(lexemes: seq<Lexeme>) {
    forall i | 0 < i < |lexemes| && !lexemes[i].newLine ::
      lexemes[i - 1].end.line == lexemes[i].start.line || ReadsBreaks(lexemes[i - 1].kind)
  }

  /** Outside of flow collections, a quoted scalar, or a whole flow collection, ends on a later line than it starts. */
  predicate Straddles(lexemes: seq<Lexeme>, i: nat)
    requires i < |lexemes|
  {
    var x := lexemes[i];
    || (x.kind.Content? && !x.kind.breaks && OpenFlow(lexemes, i) == 0 && x.start.line < x.end.line)
    || (x.kind.FlowEnd? && OpenFlow(lexemes, i) == 1 && Outermost(lexemes, i) < i && lexemes[Outermost(lexemes, i)].start.line < x.end.line)
  }

  /** The columns at which keys and entries of block collections go on. */
  function Columns(s: Core): (r: seq<int>) {
    s.indents + [s.indent]
  }

  /** The lexeme could be a key, and follows, without a line break, what straddles lines; and the keys or the entries
      of a block collection start at its column. */
  ghost predicate PanicsAt(lexemes: seq<Lexeme>, k: nat) {
    && 0 < k < |lexemes|
    && (lexemes[k].kind.Content? || lexemes[k].kind.FlowStart?) && !lexemes[k].newLine && Straddles(lexemes, k - 1)
    && Fold(lexemes, k).Go? && !Lost(Fold(lexemes, k).s.keys, lexemes[k].start)
    && lexemes[k].start.column in Columns(Fold(lexemes, k).s)
  }

  lemma {:induction false} UnrolledTo(s: Core, column: int)
    requires IndentsOk(s.indents, s.indent) && s.flow == 0 && column in Columns(s)
    ensures Unrolled(s, column).indent == column
    decreases |s.indents|
  {
    var all := Columns(s);
    var i :| 0 <= i < |all| && all[i] == column;
    assert all[|s.indents|] == s.indent;
    if s.indent > column {
      assert i < |s.indents| && s.indents != [];
      IndentsPop(s.indents, s.indent);
      var r := s.(stream := s.stream + [Item(BLOCK_END, s.mark, s.mark)],
                  indent := s.indents[|s.indents| - 1], indents := s.indents[..|s.indents| - 1]);
      assert Columns(r) == s.indents;
      UnrolledTo(r, column);
    }
  }

  /** What a fetch outside of flow collections leaves behind where no key is allowed. */
  lemma FetchClear(s: Core, x: Lexeme)
    requires Ready(0, s) && s.mark == x.start && LexemeOk(x) && Fetch(s, x).Go?
    requires s.flow == 0 && s.indent <= x.start.column && Fresh(s.keys, s.mark) == s.keys
    requires var r := Fetch(s, x).s; r.flow == 0 && !r.allowed
    requires x.kind.Content? && !x.kind.breaks ==> x.start.line == x.end.line
    ensures Fetch(s, x).s.indent < x.end.column
  {
    hide Ready, Removed, Needed, Keyed, Arranged, Level, Fresh;
    ReadyIs(0, s);
    match x.kind {
      case Directive(_) => UnrolledKeeps(0, s, -1);
      case DocumentIndicator(_) => UnrolledKeeps(0, s, -1);
      case ValueIndicator => KeyOnLine(s);
      case _ =>
    }
  }

  /** A simple key is on the line of its colon. */
  lemma KeyOnLine(s: Core)
    requires Ready(0, s) && Fresh(s.keys, s.mark) == s.keys
    ensures var key := s.keys[|s.keys| - 1]; key.possible ==> key.mark.column < s.mark.column
  {
    hide Arranged, Level, IndentsOk;
    var key := s.keys[|s.keys| - 1];
    assert Fresh(s.keys, s.mark)[|s.keys| - 1] == key;
  }

  lemma FreshTwice(keys: seq<SimpleKey>, mark: Mark)
    ensures Fresh(Fresh(keys, mark), mark) == Fresh(keys, mark)
  {
  }

  lemma CheckedFresh(s: Core)
    requires Check(s).Go?
    ensures var t := Check(s).s; Fresh(t.keys, t.mark) == t.keys && t == s.(keys := t.keys)
  {
    FreshTwice(s.keys, s.mark);
  }

  lemma {:induction false} LexemesInOrder(lexemes: seq<Lexeme>, end: Mark, i: nat, j: nat)
    requires Ordered(lexemes, end) && i < j < |lexemes|
    ensures NotBefore(lexemes[i].end, lexemes[j].start) && Later(lexemes[i].start, lexemes[j].end)
    decreases j - i
  {
    hide Later, NotBefore, Ordered, LexemeOk;
    LexemeAt(lexemes, end, i);
    LexemeAt(lexemes, end, j);
    LexemeAt(lexemes, end, j - 1);
    PlaceIs(lexemes, end, j);
    LaterIs(lexemes[i]);
    LaterIs(lexemes[j - 1]);
    LaterIs(lexemes[j]);
    if i + 1 < j {
      LexemesInOrder(lexemes, end, i, j - 1);
      Chain(lexemes[i].end, lexemes[j - 1].start, lexemes[j - 1].end, lexemes[j].start);
    }
    Between(lexemes[i].start, lexemes[i].end, lexemes[j].start, lexemes[j].end);
  }

  lemma Chain(a: Mark, b: Mark, c: Mark, d: Mark)
    requires NotBefore(a, b) && Later(b, c) && NotBefore(c, d)
    ensures NotBefore(a, d)
  {
  }

  lemma Between(a: Mark, b: Mark, c: Mark, d: Mark)
    requires Later(a, b) && NotBefore(b, c) && Later(c, d)
    ensures Later(a, d)
  {
  }

  /** Where no key is allowed outside of flow collections, and nothing has straddled lines, the reading stands
      further in than the innermost block collection. */
  lemma Clear(lexemes: seq<Lexeme>, end: Mark, n: nat)
    requires Ordered(lexemes, end) && n < |lexemes| && Fold(lexemes, n).Go? && Fold(lexemes, n + 1).Go?
    requires var r := Fold(lexemes, n + 1).s; r.flow == 0 && !r.allowed
    requires !Straddles(lexemes, n)
    ensures Fold(lexemes, n + 1).s.indent < lexemes[n].end.column
  {
    hide Ready, Fetch, Unrolled, Lost, Fresh, NotBefore, OpenFlow, Outermost, Ordered;
    var s, x := Fold(lexemes, n).s, lexemes[n];
    FoldReady(lexemes, end, n);
    LexemeAt(lexemes, end, n);
    FlowIs(lexemes, n);
    ArrivedKeeps(0, s, x.start, Arrived(s, x).allowed);
    CheckKeeps(0, Arrived(s, x));
    var t := Check(Arrived(s, x)).s;
    CheckedFresh(Arrived(s, x));
    UnrolledKeeps(0, t, x.start.column);
    var u := Unrolled(t, x.start.column);
    FetchFlow(u, x);
    if s.flow == 0 {
      LexemeLines(x);
      FetchClear(u, x);
    } else {
      FlowIs(lexemes, n + 1);
      BracketClear(lexemes, end, n);
    }
  }

  lemma LexemeLines(x: Lexeme)
    requires LexemeOk(x)
    ensures x.start.line <= x.end.line
  {
  }

  /** A flow collection that ends on the line on which it starts. */
  lemma BracketClear(lexemes: seq<Lexeme>, end: Mark, n: nat)
    requires Ordered(lexemes, end) && n < |lexemes| && Fold(lexemes, n).Go? && Fold(lexemes, n + 1).Go?
    requires OpenFlow(lexemes, n) > 0 && OpenFlow(lexemes, n + 1) == 0 && !Straddles(lexemes, n)
    ensures Fold(lexemes, n + 1).s.indent < lexemes[n].end.column
  {
    hide Ready, Fetch, Unrolled, Lost, Fresh, Ordered, Step;
    var k := Outermost(lexemes, n);
    InsideFlow(lexemes, n);
    FlowIs(lexemes, n);
    StepFlow(Fold(lexemes, n).s, lexemes[n]);
    LexemesInOrder(lexemes, end, k, n);
    StartIndent(lexemes, end, k);
  }

  lemma StartIndent(lexemes: seq<Lexeme>, end: Mark, k: nat)
    requires Ordered(lexemes, end) && k < |lexemes| && lexemes[k].kind.FlowStart? && OpenFlow(lexemes, k) == 0
    requires Fold(lexemes, k).Go? && Fold(lexemes, k + 1).Go?
    ensures Fold(lexemes, k + 1).s.indent <= lexemes[k].start.column
  {
    hide Ready, Fetch, Unrolled, Lost, Fresh, NotBefore, OpenFlow, Ordered;
    var s, x := Fold(lexemes, k).s, lexemes[k];
    FoldReady(lexemes, end, k);
    LexemeAt(lexemes, end, k);
    FlowIs(lexemes, k);
    ArrivedKeeps(0, s, x.start, Arrived(s, x).allowed);
    CheckKeeps(0, Arrived(s, x));
    var t := Check(Arrived(s, x)).s;
    UnrolledKeeps(0, t, x.start.column);
    FetchFlow(Unrolled(t, x.start.column), x);
  }

  lemma {:induction false} FoldPanics(lexemes: seq<Lexeme>, n: nat) returns (k: nat)
    requires n <= |lexemes| && Fold(lexemes, n) == Panicked
    ensures k < n && Fold(lexemes, k).Go? && Step(Fold(lexemes, k).s, lexemes[k]) == Panicked
  {
    hide Step;
    if Fold(lexemes, n - 1).Go? {
      k := n - 1;
    } else {
      k := FoldPanics(lexemes, n - 1);
    }
  }

  /** A step panics exactly where a key would have to start that is not allowed. */
  lemma StepPanics(s: Core, x: Lexeme)
    ensures Step(s, x) == Panicked <==>
      && !Lost(s.keys, x.start) && (x.kind.Content? || x.kind.FlowStart?)
      && Trapped(Unrolled(Check(Arrived(s, x)).s, x.start.column))
  {
    hide Unrolled, Lost, Needed, Fresh, Keyed, Removed, Trapped, Rolled;
  }

  /** What a straddling lexeme leaves behind. */
  lemma Straddled(lexemes: seq<Lexeme>, n: nat)
    requires n < |lexemes| && Straddles(lexemes, n) && Fold(lexemes, n + 1).Go?
    ensures Fold(lexemes, n + 1).s.flow == 0 && !Fold(lexemes, n + 1).s.allowed
  {
    hide Unrolled, Lost, Needed, Fresh, Removed, Trapped;
    FlowIs(lexemes, n);
    FlowIs(lexemes, n + 1);
  }

  lemma EndPanicsNot(s: Core, end: Mark)
    ensures Finish(s, end) != Panicked
  {
  }

  /** The scanner panics exactly if, up to there without an error, what could be a key follows something that straddles
      lines, without a line break, in a column at which the entries of a block collection start. */
  lemma PanicsExactly(lexemes: seq<Lexeme>, end: Mark)
    requires Ordered(lexemes, end) && Tidy(lexemes)
    ensures Whole(lexemes, end) == Panicked <==> exists k: nat :: PanicsAt(lexemes, k)
  {
    if Whole(lexemes, end) == Panicked {
      if Fold(lexemes, |lexemes|).Go? {
        EndPanicsNot(Fold(lexemes, |lexemes|).s, end);
      }
      var k := FoldPanics(lexemes, |lexemes|);
      PanicIsAt(lexemes, end, k);
    }
    if k: nat :| PanicsAt(lexemes, k) {
      PanicAtIs(lexemes, end, k);
    }
  }

  lemma PanicAtIs(lexemes: seq<Lexeme>, end: Mark, k: nat)
    requires Ordered(lexemes, end) && PanicsAt(lexemes, k)
    ensures Whole(lexemes, end) == Panicked
  {
    hide Ready, Step, Unrolled, Lost, Fresh, Ordered, OpenFlow, Outermost, Straddles, NotBefore, Whole, Arranged, KeysOk, Level, IndentsOk;
    var s, x := Fold(lexemes, k).s, lexemes[k];
    Straddled(lexemes, k - 1);
    FoldReady(lexemes, end, k);
    ReadyIs(0, s);
    var t := s.(keys := Fresh(s.keys, x.start), mark := x.start);
    UnrolledTo(t, x.start.column);
    UnrolledIs(t, x.start.column);
    StepPanics(s, x);
    assert Check(Arrived(s, x)).s == t;
    FoldFails(lexemes, end, k + 1);
  }

  lemma PanicIsAt(lexemes: seq<Lexeme>, end: Mark, k: nat)
    requires Ordered(lexemes, end) && Tidy(lexemes)
    requires k < |lexemes| && Fold(lexemes, k).Go? && Step(Fold(lexemes, k).s, lexemes[k]) == Panicked
    ensures PanicsAt(lexemes, k)
  {
    hide Ready, Step, Unrolled, Lost, Fresh, Ordered, OpenFlow, Outermost, Straddles, Arranged, KeysOk, Level, IndentsOk;
    var s, x := Fold(lexemes, k).s, lexemes[k];
    StepPanics(s, x);
    var t := s.(keys := Fresh(s.keys, x.start), mark := x.start);
    UnrolledIs(Check(Arrived(s, x)).s, x.start.column);
    FoldReady(lexemes, end, k);
    ReadyIs(0, s);
    LexemeAt(lexemes, end, k);
    if !Straddles(lexemes, k - 1) {
      Clear(lexemes, end, k - 1);
      ClearStays(lexemes, end, k);
    }
  }

  /** Further in than the innermost block collection, on the same line, no key has to start. */
  lemma ClearStays(lexemes: seq<Lexeme>, end: Mark, k: nat)
    requires Ordered(lexemes, end) && Tidy(lexemes) && 0 < k < |lexemes| && Fold(lexemes, k).Go?
    requires !Lost(Fold(lexemes, k).s.keys, lexemes[k].start)
    requires var s := Fold(lexemes, k).s; s.flow == 0 && !s.allowed && s.indent < lexemes[k - 1].end.column && !lexemes[k].newLine
    ensures !Trapped(Unrolled(Check(Arrived(Fold(lexemes, k).s, lexemes[k])).s, lexemes[k].start.column))
  {
    hide Fold, Ready, Lost, Fresh, Ordered, Unrolled, IndentsOk, Arranged, KeysOk, Level;
    var s, x, y := Fold(lexemes, k).s, lexemes[k], lexemes[k - 1];
    LexemeAt(lexemes, end, k - 1);
    LexemeAt(lexemes, end, k);
    FoldBefore(lexemes, k);
    var t := s.(keys := Fresh(s.keys, x.start), mark := x.start);
    assert Check(Arrived(s, x)).s == t;
    if ReadsBreaks(y.kind) {
      BreaksRead(lexemes, end, k - 1);
      FoldReady(lexemes, end, k);
      ReadyIs(0, s);
      IndentsBottom(s.indents, s.indent);
    }
    UnrolledIs(t, x.start.column);
    NotFurther(t, x.start.column);
  }

  lemma FoldBefore(lexemes: seq<Lexeme>, n: nat)
    requires 0 < n <= |lexemes| && Fold(lexemes, n).Go?
    ensures Fold(lexemes, n - 1).Go?
  {
  }

  lemma NotFurther(t: Core, column: int)
    ensures t.indent <= column ==> Unrolled(t, column) == t
    ensures t.indents == [] ==> Unrolled(t, column) == t
  {
  }

  /** Behind a directive there is no block collection; behind a block scalar, and behind a plain one that line breaks
      follow, keys are allowed. */
  lemma BreaksRead(lexemes: seq<Lexeme>, end: Mark, n: nat)
    requires Ordered(lexemes, end) && n < |lexemes| && Fold(lexemes, n).Go? && Fold(lexemes, n + 1).Go?
    requires ReadsBreaks(lexemes[n].kind) && Fold(lexemes, n + 1).s.flow == 0 && !Fold(lexemes, n + 1).s.allowed
    ensures Fold(lexemes, n + 1).s.indent <= -1
  {
    hide Ready, Unrolled, Lost, Fresh, NotBefore, Ordered, Arranged, KeysOk, Level, IndentsOk, Needed, Removed, Trapped;
    var s, x := Fold(lexemes, n).s, lexemes[n];
    FoldReady(lexemes, end, n);
    LexemeAt(lexemes, end, n);
    ArrivedKeeps(0, s, x.start, Arrived(s, x).allowed);
    CheckKeeps(0, Arrived(s, x));
    var t := Check(Arrived(s, x)).s;
    UnrolledKeeps(0, t, x.start.column);
    var u := Unrolled(t, x.start.column);
    UnrolledKeeps(0, u, -1);
    FetchFlow(u, x);
  }

  /** So nothing panics where every quoted scalar and every flow collection over several lines has a line break, or
      nothing, behind it. */
  lemma NoPanic(lexemes: seq<Lexeme>, end: Mark)
    requires Ordered(lexemes, end) && Tidy(lexemes)
    requires forall i | 0 < i < |lexemes| && Straddles(lexemes, i - 1) :: lexemes[i].newLine
    ensures Whole(lexemes, end) != Panicked
  {
    PanicsExactly(lexemes, end);
  }

  // ---- three texts

  /** On one line. */
  function Lex(kind: Kind, index: nat, line: nat, column: nat, size: nat): (x: Lexeme) {
    Lexeme(kind, false, Mark(index, line, column), Mark(index + size, line, column + size), true)
  }

  // ` a: "x` and on the next line `"b`
  const QUOTED: seq<Lexeme> := [
    Lex(Content(SCALAR, false), 1, 0, 1, 1), Lex(ValueIndicator, 2, 0, 2, 1),
    Lexeme(Content(SCALAR, false), false, Mark(4, 0, 4), Mark(8, 1, 1), true), Lex(Content(SCALAR, false), 8, 1, 1, 1)]

  // ` a: [x` and on the next line `]b`
  const BRACKETED: seq<Lexeme> := [
    Lex(Content(SCALAR, false), 1, 0, 1, 1), Lex(ValueIndicator, 2, 0, 2, 1), Lex(FlowStart(FLOW_SEQUENCE_START), 4, 0, 4, 1),
    Lex(Content(SCALAR, true), 5, 0, 5, 1), Lex(FlowEnd(FLOW_SEQUENCE_END), 7, 1, 0, 1), Lex(Content(SCALAR, false), 8, 1, 1, 1)]

  // `a: [`
  const UNCLOSED: seq<Lexeme> := [
    Lex(Content(SCALAR, false), 0, 0, 0, 1), Lex(ValueIndicator, 1, 0, 1, 1), Lex(FlowStart(FLOW_SEQUENCE_START), 3, 0, 3, 1)]

  lemma FoldNext(lexemes: seq<Lexeme>, n: nat, s: Core, r: Result)
    requires n < |lexemes| && Fold(lexemes, n) == Go(s) && Step(s, lexemes[n]) == r
    ensures Fold(lexemes, n + 1) == r
  {
    hide Step;
  }

  /** No key is too far back. */
  lemma AllFresh(s: Core)
    requires forall i | 0 <= i < |s.keys| :: !IsStale(s.keys[i], s.mark)
    ensures Check(s) == Go(s)
  {
    assert Fresh(s.keys, s.mark) == s.keys;
  }

  /** ` a:` */
  function AfterColon(column: nat): (s: Core) {
    var m := Mark(column, 0, column);
    Fields(false, [SimpleKey(false, false, 1, m)], 0, column, [-1], Mark(column + 2, 0, column + 2),
      [Item(STREAM_START, ORIGIN, ORIGIN), Item(BLOCK_MAPPING_START, m, m), Item(KEY, m, m),
       Item(SCALAR, m, Mark(column + 1, 0, column + 1)), Item(VALUE, Mark(column + 1, 0, column + 1), Mark(column + 2, 0, column + 2))])
  }

  lemma {:induction false} ColonRead(lexemes: seq<Lexeme>, column: nat)
    requires |lexemes| >= 2 && lexemes[0] == Lex(Content(SCALAR, false), column, 0, column, 1)
    requires lexemes[1] == Lex(ValueIndicator, column + 1, 0, column + 1, 1)
    ensures Fold(lexemes, 2) == Go(AfterColon(column))
  {
    hide Fold, Fresh, Lost;
    var m, n := Mark(column, 0, column), Mark(column + 1, 0, column + 1);
    FoldNone(lexemes);
    var a := FIRST.(mark := m);
    AllFresh(a);
    var key := SimpleKey(true, false, 1, m);
    var s := Fields(false, [key], 0, -1, [], n, [Item(STREAM_START, ORIGIN, ORIGIN), Item(SCALAR, m, n)]);
    assert Contained(a, lexemes[0]) == Go(s);
    AllFresh(s);
    FoldNext(lexemes, 0, FIRST, Go(s));
    var b := AfterColon(column);
    assert Keyed(s.stream, key, true, ItemOf(VALUE, lexemes[1])) == b.stream;
    assert Valued(s, lexemes[1]) == Go(b);
    AllFresh(b);
    FoldNext(lexemes, 1, s, Go(b));
  }

  lemma FoldNone(lexemes: seq<Lexeme>)
    ensures Fold(lexemes, 0) == Go(FIRST)
  {
  }

  lemma QuotedIs()
    ensures Ordered(QUOTED, Mark(9, 1, 2)) && Tidy(QUOTED) && Straddles(QUOTED, 2)
  {
  }

  lemma BracketedIs()
    ensures Ordered(BRACKETED, Mark(9, 1, 2)) && Tidy(BRACKETED) && Straddles(BRACKETED, 4)
  {
    assert OpenFlow(BRACKETED, 2) == 0;
    assert OpenFlow(BRACKETED, 4) == 1 && Outermost(BRACKETED, 4) == 2;
  }

  lemma UnclosedIs()
    ensures Ordered(UNCLOSED, Mark(4, 0, 4)) && OpenFlow(UNCLOSED, 3) == 1
  {
    assert OpenFlow(UNCLOSED, 2) == 0;
  }

  /** Behind a quoted scalar over two lines. */
  lemma {:induction false} QuotedPanics()
    ensures Ordered(QUOTED, Mark(9, 1, 2)) && Whole(QUOTED, Mark(9, 1, 2)) == Panicked
  {
    hide Fold, Fresh, Lost, Ordered, Straddles, Whole;
    QuotedIs();
    ColonRead(QUOTED, 1);
    var s := AfterColon(1);
    var x := QUOTED[2];
    var a := s.(mark := x.start);
    AllFresh(a);
    var t := s.(stream := s.stream + [ItemOf(SCALAR, x)], mark := x.end);
    assert Contained(a, x) == Go(t);
    AllFresh(t);
    FoldNext(QUOTED, 2, s, Go(t));
    NothingLost(t, QUOTED[3].start);
    assert Columns(t)[1] == 1;
    PanicAtIs(QUOTED, Mark(9, 1, 2), 3);
  }

  lemma NothingLost(s: Core, mark: Mark)
    requires forall i | 0 <= i < |s.keys| :: !s.keys[i].required
    ensures !Lost(s.keys, mark)
  {
  }

  /** `[`, behind ` a:` */
  function AfterBracket(column: nat): (s: Core) {
    var b := AfterColon(column);
    var m, n := Mark(column + 3, 0, column + 3), Mark(column + 4, 0, column + 4);
    b.(allowed := true, keys := b.keys + [NO_KEY], flow := 1, mark := n, stream := b.stream + [Item(FLOW_SEQUENCE_START, m, n)])
  }

  lemma {:induction false} BracketRead(lexemes: seq<Lexeme>, column: nat)
    requires |lexemes| >= 3 && lexemes[0] == Lex(Content(SCALAR, false), column, 0, column, 1)
    requires lexemes[1] == Lex(ValueIndicator, column + 1, 0, column + 1, 1)
    requires lexemes[2] == Lex(FlowStart(FLOW_SEQUENCE_START), column + 3, 0, column + 3, 1)
    ensures Fold(lexemes, 3) == Go(AfterBracket(column))
  {
    hide Fold, Fresh, Lost;
    ColonRead(lexemes, column);
    var a := AfterColon(column).(mark := lexemes[2].start);
    AllFresh(a);
    assert FlowStarted(a, lexemes[2]) == Go(AfterBracket(column));
    AllFresh(AfterBracket(column));
    FoldNext(lexemes, 2, AfterColon(column), Go(AfterBracket(column)));
  }

  /** Behind a flow collection over two lines. */
  lemma {:induction false} BracketedPanics()
    ensures Ordered(BRACKETED, Mark(9, 1, 2)) && Whole(BRACKETED, Mark(9, 1, 2)) == Panicked
  {
    hide Fold, Fresh, Lost, Ordered, Straddles, Whole;
    BracketedIs();
    BracketRead(BRACKETED, 1);
    var s, x, y := AfterBracket(1), BRACKETED[3], BRACKETED[4];
    var key := SimpleKey(true, false, 6, x.start);
    var t := s.(allowed := true, keys := [s.keys[0], key], stream := s.stream + [ItemOf(SCALAR, x)], mark := x.end);
    assert s.(mark := x.start) == s;
    AllFresh(s);
    assert Contained(s, x) == Go(t);
    AllFresh(t);
    FoldNext(BRACKETED, 3, s, Go(t));
    var late := key.(possible := false);
    var a := t.(mark := y.start);
    KeyGone(a, late);
    var b := a.(keys := [s.keys[0], late]);
    var u := b.(allowed := false, keys := [s.keys[0]], flow := 0, stream := t.stream + [ItemOf(FLOW_SEQUENCE_END, y)], mark := y.end);
    assert FlowEnded(b, y) == Go(u);
    AllFresh(u);
    FoldNext(BRACKETED, 4, t, Go(u));
    NothingLost(u, BRACKETED[5].start);
    assert Columns(u)[1] == 1;
    PanicAtIs(BRACKETED, Mark(9, 1, 2), 5);
  }

  /** The innermost key is too far back. */
  lemma KeyGone(s: Core, late: SimpleKey)
    requires |s.keys| == 2 && !s.keys[0].possible && IsStale(s.keys[1], s.mark) && !s.keys[1].required
    requires late == s.keys[1].(possible := false)
    ensures Check(s) == Go(s.(keys := [s.keys[0], late]))
  {
    assert Fresh(s.keys, s.mark) == [s.keys[0], late];
  }

  /** A flow collection left open inside of a block collection: that one is not ended. */
  lemma {:induction false} UnclosedIsUnbalanced()
    ensures Ordered(UNCLOSED, Mark(4, 0, 4)) && Whole(UNCLOSED, Mark(4, 0, 4)).Go?
    ensures Level(Whole(UNCLOSED, Mark(4, 0, 4)).s.stream) == 1
  {
    hide Fold, Fresh, Lost, Ordered, Straddles, OpenFlow, Outermost, Level;
    var end := Mark(4, 0, 4);
    UnclosedIs();
    BracketRead(UNCLOSED, 0);
    var s := AfterBracket(0);
    AllFresh(s);
    var l := s.(mark := LastLine(s.mark));
    var r := s.(mark := LastLine(s.mark), stream := s.stream + [Item(STREAM_END, l.mark, l.mark)], allowed := false);
    assert Removed(s.keys) == s.keys;
    assert Closing(s) == Go(r);
    AllFresh(r);
    assert s.(mark := end) == s;
    assert Whole(UNCLOSED, end) == Go(r);
    WholeEnded(UNCLOSED, end);
  }

  /** The panic, reached. */
  method ReachPanic() returns (quoted: Outcome, bracketed: Outcome)
    ensures quoted == Panic && bracketed == Panic
  {
    QuotedPanics();
    BracketedPanics();
    var tokens;
    quoted, tokens := Scan(QUOTED, Mark(9, 1, 2));
    bracketed, tokens := Scan(BRACKETED, Mark(9, 1, 2));
  }
}
