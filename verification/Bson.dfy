/** The BSON codec: an encoder that appends to a buffer and patches lengths in behind,
    and a decoder that moves a cursor through the input.

    Values take the place of reflection: they are the Go values that a D document
    holds and that decoding into one gives back. Strings are their bytes. */
module Bson {

  type Byte = b: int | 0 <= b < 256

  type Bytes = seq<Byte>

  const TWO_31 := 0x8000_0000
  const TWO_32 := 0x1_0000_0000
  const TWO_63 := 0x8000_0000_0000_0000
  const TWO_64 := 0x1_0000_0000_0000_0000

  type Int32 = x: int | -0x8000_0000 <= x < 0x8000_0000
  type Int64 = x: int | -0x8000_0000_0000_0000 <= x < 0x8000_0000_0000_0000
  type Nanos = n: int | 0 <= n < 1_000_000_000
  type Word64 = x: int | 0 <= x < 0x1_0000_0000_0000_0000

  datatype Value =
    | Double(bits: Word64)
    | Str(s: Bytes)
    | Doc(elems: seq<Elem>)
    | Array(items: seq<Value>)
    | Data(data: Bytes)                    // []byte
    | Binary(subtype: Byte, data: Bytes)
    | Undefined
    | ObjectId(id: Bytes)
    | Bool(b: bool)
    | Time(sec: Int64, nsec: Nanos)
    | Null
    | RegEx(pattern: Bytes, options: Bytes)
    | JavaScript(code: Bytes)              // without scope
    | Symbol(s: Bytes)
    | Int(i: Int64)                        // int, 64 bits wide
    | Timestamp(t: Int64)
    | Long(l: Int64)                       // int64
    | MaxKey
    | MinKey

  datatype Elem = Elem(name: Bytes, value: Value)

  // ---- integers

  /** byte(u), byte(u>>8), byte(u>>16), byte(u>>24) */
  function LittleEndian(u: int): (r: Bytes)
    ensures |r| == 4
  {
    [u % 256, u / 256 % 256, u / 65536 % 256, u / 16777216 % 256]
  }

  function LittleEndian8(u: int): (r: Bytes)
    ensures |r| == 8
  {
    LittleEndian(u) + LittleEndian(u / TWO_32)
  }

  function Unsigned(b: Bytes): (r: nat)
    requires |b| == 4
    ensures r < TWO_32
  {
    var b0: int, b1: int, b2: int, b3: int := b[0], b[1], b[2], b[3];
    b0 + b1 * 256 + b2 * 65536 + b3 * 16777216
  }

  /** The conversion of an unsigned integer to int32. */
  function Signed32(u: nat): (r: Int32)
    requires u < TWO_32
  {
    if u < TWO_31 then u else u - TWO_32
  }

  function Signed64(u: nat): (r: Int64)
    requires u < TWO_64
  {
    if u < TWO_63 then u else u - TWO_64
  }

  lemma LittleEndianBack(u: int)
    ensures Unsigned(LittleEndian(u)) == u % TWO_32
  {
    var a, b, c := u / 256, u / 65536, u / 16777216;
    assert u == a * 256 + u % 256;
    assert b == a / 256 && a == b * 256 + a % 256;
    assert c == b / 256 && b == c * 256 + b % 256;
    var q := c / 256;
    assert c == q * 256 + c % 256;
    assert u == q * TWO_32 + Unsigned(LittleEndian(u));
  }

  lemma Int32Back(x: int)
    requires -TWO_31 <= x < TWO_31
    ensures Signed32(Unsigned(LittleEndian(x))) == x
  {
    LittleEndianBack(x);
  }

  lemma Word64Back(u: int)
    ensures var r := LittleEndian8(u);
      Unsigned(r[..4]) + Unsigned(r[4..]) * TWO_32 == u % TWO_64
  {
    var r := LittleEndian8(u);
    assert r[..4] == LittleEndian(u) && r[4..] == LittleEndian(u / TWO_32);
    hide LittleEndian, LittleEndian8, Unsigned;
    LittleEndianBack(u);
    LittleEndianBack(u / TWO_32);
    Halves(u);
  }

  lemma Halves(u: int)
    ensures u % TWO_32 + u / TWO_32 % TWO_32 * TWO_32 == u % TWO_64
  {
    var h := u / TWO_32;
    var q := h / TWO_32;
    assert u == h * TWO_32 + u % TWO_32;
    assert h == q * TWO_32 + h % TWO_32;
    assert u == q * TWO_64 + (h % TWO_32 * TWO_32 + u % TWO_32);
  }

  /** An int64 that something has been stored in. */
  function Wrap64(x: int): (r: Int64) {
    Signed64(x % TWO_64)
  }

  lemma Wrap64Same(x: int)
    requires -TWO_63 <= x < TWO_63
    ensures Wrap64(x) == x
  {
  }

  // ---- what the encoder writes

  function Itoa(n: nat): (r: Bytes)
    ensures forall i | 0 <= i < |r| :: r[i] != 0
  {
    if n < 10 then [0x30 + n] else Itoa(n / 10) + [0x30 + n % 10]
  }

  /** The number that `b` is read as, digit by digit, on behind `n`. */
  function Decimal(b: Bytes, n: int): (r: int) {
    if b == [] then n else Decimal(b[1..], n * 10 - 0x30 + b[0])
  }

  /** The digits of `n`, without a zero too many. */
  predicate IsDecimal(b: Bytes, n: nat) {
    && b != [] && (forall i | 0 <= i < |b| :: 0x30 <= b[i] <= 0x39)
    && (b[0] == 0x30 ==> |b| == 1)
    && Decimal(b, 0) == n
  }

  lemma {:induction false} OneDigitMore(b: Bytes, d: Byte, n: int)
    ensures Decimal(b + [d], n) == Decimal(b, n) * 10 - 0x30 + d
  {
    if b == [] {
      assert b + [d] == [d] && [d][1..] == [];
    } else {
      assert (b + [d])[1..] == b[1..] + [d];
      OneDigitMore(b[1..], d, n * 10 - 0x30 + b[0]);
    }
  }

  /** A number is written in decimal digits. */
  lemma {:induction false} ItoaIsDecimal(n: nat)
    ensures IsDecimal(Itoa(n), n)
    decreases n
  {
    if n < 10 {
      OneDigitMore([], 0x30 + n, 0);
      assert [] + [0x30 + n] == Itoa(n);
    } else {
      ItoaIsDecimal(n / 10);
      OneDigitMore(Itoa(n / 10), 0x30 + n % 10, 0);
      assert Itoa(n / 10) != [0x30] by {
        assert Decimal([0x30], 0) == 0;
      }
    }
  }

  function Kind(v: Value): (k: Byte)
    ensures k != 0
  {
    match v
    case Double(_) => 0x01
    case Str(_) => 0x02
    case Doc(_) => 0x03
    case Array(_) => 0x04
    case Data(_) => 0x05
    case Binary(_, _) => 0x05
    case Undefined => 0x06
    case ObjectId(_) => 0x07
    case Bool(_) => 0x08
    case Time(_, _) => 0x09
    case Null => 0x0A
    case RegEx(_, _) => 0x0B
    case JavaScript(_) => 0x0D
    case Symbol(_) => 0x0E
    case Int(i) => if -TWO_31 <= i < TWO_31 then 0x10 else 0x12
    case Timestamp(_) => 0x11
    case Long(_) => 0x12
    case MaxKey => 0x7F
    case MinKey => 0xFF
  }

  function StrBytes(s: Bytes): (r: Bytes) {
    LittleEndian(|s| + 1) + s + [0]
  }

  function BinaryBytes(subtype: Byte, data: Bytes): (r: Bytes) {
    if subtype == 2 then LittleEndian(|data| + 4) + [subtype] + LittleEndian(|data|) + data
    else LittleEndian(|data|) + [subtype] + data
  }

  /** Milliseconds since 1970, in 64 bits. */
  function Millis(sec: Int64, nsec: Nanos): (r: Int64) {
    Wrap64(sec * 1000 + nsec / 1000000)
  }

  function ValueBytes(v: Value): (r: Bytes)
    decreases v, 1
  {
    match v
    case Double(bits) => LittleEndian8(bits)
    case Str(s) => StrBytes(s)
    case Doc(elems) => Framed(ElemsBytes(elems))
    case Array(items) => Framed(ItemsBytes(items))
    case Data(data) => BinaryBytes(0, data)
    case Binary(subtype, data) => BinaryBytes(subtype, data)
    case Undefined => []
    case ObjectId(id) => id
    case Bool(b) => [if b then 1 else 0]
    case Time(sec, nsec) => LittleEndian8(Millis(sec, nsec))
    case Null => []
    case RegEx(pattern, options) => pattern + [0] + options + [0]
    case JavaScript(code) => StrBytes(code)
    case Symbol(t) => StrBytes(t)
    case Int(i) => if -TWO_31 <= i < TWO_31 then LittleEndian(i) else LittleEndian8(i)
    case Timestamp(t) => LittleEndian8(t)
    case Long(l) => LittleEndian8(l)
    case MaxKey => []
    case MinKey => []
  }

  /** A document: its length in bytes, its elements, and a NUL. */
  function Framed(body: Bytes): (r: Bytes) {
    LittleEndian(|body| + 5) + body + [0]
  }

  function Header(name: Bytes, v: Value): (r: Bytes) {
    [Kind(v)] + name + [0]
  }

  function ElemsBytes(elems: seq<Elem>): (r: Bytes)
    decreases elems, 0
  {
    if elems == [] then []
    else ElemsBytes(elems[..|elems| - 1]) + ElemBytes(elems[|elems| - 1])
  }

  function ElemBytes(e: Elem): (r: Bytes)
    decreases e, 2
  {
    match e case Elem(name, v) => Header(name, v) + ValueBytes(v)
  }

  function ItemsBytes(items: seq<Value>): (r: Bytes)
    decreases items, 0
  {
    if items == [] then []
    else
      var last := items[|items| - 1];
      ItemsBytes(items[..|items| - 1]) + (Header(Itoa(|items| - 1), last) + ValueBytes(last))
  }

  /** The items under their numbers as names. */
  ghost predicate Numbered(items: seq<Value>, elems: seq<Elem>) {
    |elems| == |items| && forall k | 0 <= k < |items| :: elems[k].value == items[k] && IsDecimal(elems[k].name, k)
  }

  /** An array is written like a document that has the decimal numbers as names. */
  lemma {:induction false} ArrayIsNumbered(items: seq<Value>) returns (elems: seq<Elem>)
    ensures Numbered(items, elems) && ItemsBytes(items) == ElemsBytes(elems)
  {
    hide Header, ValueBytes, IsDecimal;
    if items == [] {
      elems := [];
    } else {
      var n := |items| - 1;
      var init := ArrayIsNumbered(items[..n]);
      ItoaIsDecimal(n);
      elems := init + [Elem(Itoa(n), items[n])];
      assert elems[..n] == init;
    }
  }

  // ---- the bytes of each type

  /** The bytes of ASCII characters. */
  function Ascii(s: string): (r: Bytes)
    requires forall i | 0 <= i < |s| :: s[i] as int < 0x80
    ensures |r| == |s| && forall i | 0 <= i < |s| :: r[i] == s[i] as int
  {
    seq(|s|, i requires 0 <= i < |s| => s[i] as int)
  }

  /** What a document holds whose one element has the name "_". */
  function Only(v: Value): (r: Bytes) {
    ElemBytes(Elem([0x5F], v))
  }

  lemma OnlyIs(v: Value)
    ensures Only(v) == [Kind(v), 0x5F, 0] + ValueBytes(v)
  {
    hide Kind, ValueBytes;
    assert [Kind(v)] + [0x5F] + [0] == [Kind(v), 0x5F, 0];
  }

  lemma SmallIs(n: nat)
    requires n < 0x100
    ensures LittleEndian(n) == [n, 0, 0, 0]
  {
  }

  lemma WordsAre()
    ensures LittleEndian(258) == [2, 1, 0, 0] && LittleEndian8(258) == [2, 1, 0, 0, 0, 0, 0, 0]
    ensures LittleEndian8(258 * 0x1_0000_0000) == [0, 0, 0, 0, 2, 1, 0, 0]
    ensures LittleEndian8(-2) == [0xFE, 0xFF, 0xFF, 0xFF, 0xFF, 0xFF, 0xFF, 0xFF]
    ensures LittleEndian8(0x4014_3333_3333_3333) == [0x33, 0x33, 0x33, 0x33, 0x33, 0x33, 0x14, 0x40]
  {
    assert LittleEndian(258) == [2, 1, 0, 0] && LittleEndian(0) == [0, 0, 0, 0];
    assert LittleEndian(-2) == [0xFE, 0xFF, 0xFF, 0xFF] && LittleEndian(-1) == [0xFF, 0xFF, 0xFF, 0xFF];
    assert LittleEndian(0x4014_3333_3333_3333) == [0x33, 0x33, 0x33, 0x33] && LittleEndian(0x4014_3333) == [0x33, 0x33, 0x14, 0x40];
  }

  /** Types without contents, or with one byte of them, type flag by type flag. */
  lemma FlagItems()
    ensures Only(Undefined) == [6, 0x5F, 0] && Only(Null) == [10, 0x5F, 0]
    ensures Only(Bool(false)) == [8, 0x5F, 0, 0] && Only(Bool(true)) == [8, 0x5F, 0, 1]
    ensures Only(MaxKey) == [0x7F, 0x5F, 0] && Only(MinKey) == [0xFF, 0x5F, 0]
  {
  }

  /** Types of four or eight bytes. */
  lemma WordItems()
    ensures Only(Double(0x4014_3333_3333_3333)) == [1, 0x5F, 0] + [0x33, 0x33, 0x33, 0x33, 0x33, 0x33, 0x14, 0x40]
    ensures Only(Int(258)) == [16, 0x5F, 0] + [2, 1, 0, 0] && Only(Timestamp(258)) == [17, 0x5F, 0] + [2, 1, 0, 0, 0, 0, 0, 0]
    ensures Only(Long(258)) == [18, 0x5F, 0] + [2, 1, 0, 0, 0, 0, 0, 0]
    ensures Only(Int(258 * 0x1_0000_0000)) == [18, 0x5F, 0] + [0, 0, 0, 0, 2, 1, 0, 0]
  {
    WordsAre();
    hide LittleEndian, LittleEndian8, Only;
    OnlyIs(Double(0x4014_3333_3333_3333));
    OnlyIs(Int(258));
    OnlyIs(Timestamp(258));
    OnlyIs(Long(258));
    OnlyIs(Int(258 * 0x1_0000_0000));
  }

  /** 258 milliseconds after the beginning of 1970, and two before it. */
  lemma TimeItems()
    ensures Only(Time(0, 258_000_000)) == [9, 0x5F, 0] + [2, 1, 0, 0, 0, 0, 0, 0]
    ensures Only(Time(-1, 998_000_000)) == [9, 0x5F, 0] + [0xFE, 0xFF, 0xFF, 0xFF, 0xFF, 0xFF, 0xFF, 0xFF]
  {
    WordsAre();
    assert Millis(0, 258_000_000) == 258 && Millis(-1, 998_000_000) == -2;
    hide LittleEndian, LittleEndian8, Only, Millis;
    OnlyIs(Time(0, 258_000_000));
    OnlyIs(Time(-1, 998_000_000));
  }

  /** Types that hold bytes, whatever these are: behind a length or up to a NUL. */
  lemma SizedItems(b: Bytes, c: Bytes)
    requires |b| < 0xF0
    ensures Only(Str(b)) == [2, 0x5F, 0] + ([|b| + 1, 0, 0, 0] + b + [0])
    ensures Only(Data(b)) == [5, 0x5F, 0] + ([|b|, 0, 0, 0] + [0] + b)
    ensures Only(Binary(0x80, b)) == [5, 0x5F, 0] + ([|b|, 0, 0, 0] + [0x80] + b)
    ensures Only(Binary(2, b)) == [5, 0x5F, 0] + ([|b| + 4, 0, 0, 0] + [2] + [|b|, 0, 0, 0] + b)
    ensures Only(ObjectId(b)) == [7, 0x5F, 0] + b
    ensures Only(RegEx(b, c)) == [11, 0x5F, 0] + (b + [0] + c + [0])
    ensures Only(JavaScript(b)) == [13, 0x5F, 0] + ([|b| + 1, 0, 0, 0] + b + [0])
    ensures Only(Symbol(b)) == [14, 0x5F, 0] + ([|b| + 1, 0, 0, 0] + b + [0])
  {
    SmallIs(|b|);
    SmallIs(|b| + 1);
    SmallIs(|b| + 4);
    hide LittleEndian, Only;
    forall v ensures Only(v) == [Kind(v), 0x5F, 0] + ValueBytes(v) {
      OnlyIs(v);
    }
  }

  /** {a: true}, [true, false], and the document {hello: "world"}. */
  lemma NestedItems()
    ensures Only(Doc([Elem([0x61], Bool(true))])) == [3, 0x5F, 0] + ([9, 0, 0, 0] + [8, 0x61, 0, 1] + [0])
    ensures Only(Array([Bool(true), Bool(false)])) == [4, 0x5F, 0] + ([13, 0, 0, 0] + [8, 0x30, 0, 1, 8, 0x31, 0, 0] + [0])
    ensures Framed(ElemsBytes([Elem(Ascii("hello"), Str(Ascii("world")))])) ==
      [0x16, 0, 0, 0] + ([2] + Ascii("hello") + [0] + ([6, 0, 0, 0] + Ascii("world") + [0])) + [0]
  {
    var a, h := Elem([0x61], Bool(true)), Elem(Ascii("hello"), Str(Ascii("world")));
    SmallIs(6);
    SmallIs(9);
    SmallIs(13);
    SmallIs(22);
    OneElem(a);
    OneElem(h);
    assert ElemBytes(a) == [8, 0x61, 0, 1];
    assert ElemBytes(h) == [2] + Ascii("hello") + [0] + ([6, 0, 0, 0] + Ascii("world") + [0]);
    TrueAndFalse();
    hide LittleEndian, Only, ElemsBytes, ItemsBytes, ElemBytes, Ascii;
    OnlyIs(Doc([a]));
    OnlyIs(Array([Bool(true), Bool(false)]));
  }

  lemma TrueAndFalse()
    ensures ItemsBytes([Bool(true), Bool(false)]) == [8, 0x30, 0, 1, 8, 0x31, 0, 0]
  {
    assert [Bool(true)][..0] == [];
    assert ItemsBytes([Bool(true)]) == [8, 0x30, 0, 1];
    assert [Bool(true), Bool(false)][..1] == [Bool(true)];
  }

  lemma OneElem(e: Elem)
    ensures ElemsBytes([e]) == ElemBytes(e)
  {
    assert [e][..0] == [];
  }

  // ---- what becomes of a value: the value that decoding its encoding gives

  function Normal(v: Value): (r: Value)
    decreases v, 1
  {
    match v
    case Doc(elems) => Doc(NormalElems(elems))
    case Array(items) => Array(NormalItems(items))
    case Binary(subtype, data) => if subtype == 0 || subtype == 2 then Data(data) else v
    case Time(sec, nsec) =>
      var m := Millis(sec, nsec);
      Time(m / 1000, m % 1000 * 1000000)
    case Int(i) => if -TWO_31 <= i < TWO_31 then v else Long(i)
    case _ => v
  }

  function NormalElems(elems: seq<Elem>): (r: seq<Elem>)
    ensures |r| == |elems|
    decreases elems, 0
  {
    if elems == [] then [] else NormalElems(elems[..|elems| - 1]) + [NormalElem(elems[|elems| - 1])]
  }

  function NormalElem(e: Elem): (r: Elem)
    decreases e, 2
  {
    match e case Elem(name, v) => Elem(name, Normal(v))
  }

  function NormalItems(items: seq<Value>): (r: seq<Value>)
    ensures |r| == |items|
    decreases items, 0
  {
    if items == [] then [] else NormalItems(items[..|items| - 1]) + [Normal(items[|items| - 1])]
  }

  /** No NUL where it would end a text too early: in names and regular expressions. */
  ghost predicate NulFree(v: Value) {
    match v
    case Doc(elems) => forall i | 0 <= i < |elems| :: 0 !in elems[i].name && NulFree(elems[i].value)
    case Array(items) => forall i | 0 <= i < |items| :: NulFree(items[i])
    case RegEx(pattern, options) => 0 !in pattern && 0 !in options
    case _ => true
  }

  /** Object ids are 12 bytes long. */
  ghost predicate IdsOk(v: Value) {
    match v
    case Doc(elems) => forall i | 0 <= i < |elems| :: IdsOk(elems[i].value)
    case Array(items) => forall i | 0 <= i < |items| :: IdsOk(items[i])
    case ObjectId(id) => |id| == 12
    case _ => true
  }

  /** Values of the types that decoding gives, with times in whole milliseconds. */
  ghost predicate Canonical(v: Value) {
    match v
    case Doc(elems) => forall i | 0 <= i < |elems| :: Canonical(elems[i].value)
    case Array(items) => forall i | 0 <= i < |items| :: Canonical(items[i])
    case Binary(subtype, _) => subtype != 0 && subtype != 2
    case Time(sec, nsec) => nsec % 1000000 == 0 && -TWO_63 <= sec * 1000 + nsec / 1000000 < TWO_63
    case Int(i) => -TWO_31 <= i < TWO_31
    case _ => true
  }

  /** Exactly the canonical values stay what they are. */
  lemma {:induction false} NormalIsSame(v: Value)
    ensures Normal(v) == v <==> Canonical(v)
    decreases v
  {
    match v {
      case Doc(elems) =>
        NormalElemsAt(elems);
        forall i | 0 <= i < |elems| ensures Normal(elems[i].value) == elems[i].value <==> Canonical(elems[i].value) {
          NormalIsSame(elems[i].value);
        }
        if NormalElems(elems) == elems {
          forall i | 0 <= i < |elems| ensures Canonical(elems[i].value) {
            assert NormalElems(elems)[i] == elems[i];
          }
        }
      case Array(items) =>
        NormalItemsAt(items);
        forall i | 0 <= i < |items| ensures Normal(items[i]) == items[i] <==> Canonical(items[i]) {
          NormalIsSame(items[i]);
        }
        if NormalItems(items) == items {
          forall i | 0 <= i < |items| ensures Canonical(items[i]) {
            assert NormalItems(items)[i] == items[i];
          }
        }
      case Time(sec, nsec) => TimeIsSame(sec, nsec);
      case _ =>
    }
  }

  lemma {:induction false} NormalElemsAt(elems: seq<Elem>)
    ensures forall i | 0 <= i < |elems| :: NormalElems(elems)[i] == NormalElem(elems[i])
  {
    if elems != [] {
      NormalElemsAt(elems[..|elems| - 1]);
    }
  }

  lemma {:induction false} NormalItemsAt(items: seq<Value>)
    ensures forall i | 0 <= i < |items| :: NormalItems(items)[i] == Normal(items[i])
  {
    if items != [] {
      NormalItemsAt(items[..|items| - 1]);
    }
  }

  lemma TimeIsSame(sec: Int64, nsec: Nanos)
    ensures Normal(Time(sec, nsec)) == Time(sec, nsec)
      <==> nsec % 1000000 == 0 && -TWO_63 <= sec * 1000 + nsec / 1000000 < TWO_63
  {
    var ms := sec * 1000 + nsec / 1000000;
    var m := Millis(sec, nsec);
    Milliseconds(m);
    if -TWO_63 <= ms < TWO_63 {
      Wrap64Same(ms);
      assert m / 1000 == sec && m % 1000 == nsec / 1000000;
      assert nsec == nsec / 1000000 * 1000000 + nsec % 1000000;
    }
  }

  /** A time comes back as the whole milliseconds since 1970 at or before it, as far as 64 bits hold these. */
  lemma TimeIsCut(sec: Int64, nsec: Nanos)
    requires -TWO_63 <= sec * 1000 + nsec / 1000000 < TWO_63
    ensures Normal(Time(sec, nsec)) == Time(sec, nsec - nsec % 1000000)
  {
    var ms := sec * 1000 + nsec / 1000000;
    Wrap64Same(ms);
    Milliseconds(ms);
    assert ms / 1000 == sec && ms % 1000 == nsec / 1000000;
    assert nsec == nsec / 1000000 * 1000000 + nsec % 1000000;
  }

  /** Beyond that, 2^64 milliseconds are lost, or so many times that. */
  lemma TimeIsWrapped(sec: Int64, nsec: Nanos)
    ensures var t := Normal(Time(sec, nsec));
      && t.Time? && t.nsec % 1000000 == 0 && -TWO_63 <= t.sec * 1000 + t.nsec / 1000000 < TWO_63
      && (sec * 1000 + nsec / 1000000 - (t.sec * 1000 + t.nsec / 1000000)) % TWO_64 == 0
  {
    var ms := sec * 1000 + nsec / 1000000;
    var m := Millis(sec, nsec);
    Milliseconds(m);
    assert m == ms % TWO_64 || m == ms % TWO_64 - TWO_64;
    assert ms == ms / TWO_64 * TWO_64 + ms % TWO_64;
  }

  lemma Milliseconds(m: int)
    ensures m == m / 1000 * 1000 + m % 1000 && m % 1000 * 1000000 / 1000000 == m % 1000
  {
  }

  // ---- the encoder

  lemma ElemsStep(elems: seq<Elem>, k: nat)
    requires k < |elems|
    ensures ElemsBytes(elems[..k + 1]) == ElemsBytes(elems[..k]) + (Header(elems[k].name, elems[k].value) + ValueBytes(elems[k].value))
    ensures NormalElems(elems[..k + 1]) == NormalElems(elems[..k]) + [Elem(elems[k].name, Normal(elems[k].value))]
  {
    assert elems[..k + 1][..k] == elems[..k];
    assert elems[k] == Elem(elems[k].name, elems[k].value);
    hide Header, ValueBytes, Normal;
  }

  lemma ItemsStep(items: seq<Value>, k: nat)
    requires k < |items|
    ensures ItemsBytes(items[..k + 1]) == ItemsBytes(items[..k]) + (Header(Itoa(k), items[k]) + ValueBytes(items[k]))
    ensures NormalItems(items[..k + 1]) == NormalItems(items[..k]) + [Normal(items[k])]
  {
    assert items[..k + 1][..k] == items[..k];
    hide Header, ValueBytes, Normal;
  }

  lemma Associate(a: Bytes, b: Bytes, c: Bytes)
    ensures (a + b) + c == a + (b + c)
  {
  }

  lemma IdIs(v: Value)
    ensures v.ObjectId? ==> (IdsOk(v) <==> |v.id| == 12)
  {
  }

  lemma NoElems()
    ensures ElemsBytes([]) == [] && NormalElems([]) == []
  {
  }

  lemma NoItems()
    ensures ItemsBytes([]) == [] && NormalItems([]) == []
  {
  }

  class Encoder {
    var out: Bytes

    constructor ()
      ensures out == []
    {
      out := [];
    }

    method AddBytes(b: Bytes)
      modifies this
      ensures out == old(out) + b
    {
      out := out + b;
    }

    method ReserveInt32() returns (pos: nat)
      modifies this
      ensures pos == |old(out)| && out == old(out) + [0, 0, 0, 0]
    {
      pos := |out|;
      AddBytes([0, 0, 0, 0]);
    }

    /** Patches four bytes. */
    method SetInt32(pos: nat, v: int)
      requires pos + 4 <= |out|
      modifies this
      ensures out == old(out)[..pos] + LittleEndian(v) + old(out)[pos + 4..]
    {
      ghost var before := out;
      out := out[pos := v % 256];
      out := out[pos + 1 := v / 256 % 256];
      out := out[pos + 2 := v / 65536 % 256];
      out := out[pos + 3 := v / 16777216 % 256];
      assert out == before[..pos] + LittleEndian(v) + before[pos + 4..];
    }

    method AddInt32(v: int)
      modifies this
      ensures out == old(out) + LittleEndian(v)
    {
      AddBytes([v % 256, v / 256 % 256, v / 65536 % 256, v / 16777216 % 256]);
    }

    method AddInt64(v: int)
      modifies this
      ensures out == old(out) + LittleEndian8(v)
    {
      AddInt32(v);
      AddInt32(v / TWO_32);
      assert old(out) + LittleEndian(v) + LittleEndian(v / TWO_32) == old(out) + LittleEndian8(v);
    }

    method AddCStr(s: Bytes)
      modifies this
      ensures out == old(out) + (s + [0])
    {
      AddBytes(s);
      AddBytes([0]);
    }

    method AddStr(s: Bytes)
      modifies this
      ensures out == old(out) + StrBytes(s)
    {
      AddInt32(|s| + 1);
      AddCStr(s);
      assert old(out) + LittleEndian(|s| + 1) + (s + [0]) == old(out) + StrBytes(s);
    }

    method AddBinary(subtype: Byte, data: Bytes)
      modifies this
      ensures out == old(out) + BinaryBytes(subtype, data)
    {
      hide LittleEndian;
      ghost var before := out;
      if subtype == 2 {
        AddInt32(|data| + 4);
        AddBytes([subtype]);
        AddInt32(|data|);
      } else {
        AddInt32(|data|);
        AddBytes([subtype]);
      }
      AddBytes(data);
      assert out == before + BinaryBytes(subtype, data);
    }

    method AddElemName(v: Value, name: Bytes)
      modifies this
      ensures out == old(out) + Header(name, v)
    {
      ghost var before := out;
      AddBytes([Kind(v)]);
      AddBytes(name);
      AddBytes([0]);
      assert out == before + Header(name, v);
    }

    /** False is the panic for an object id of the wrong length. */
    method AddElem(name: Bytes, v: Value) returns (ok: bool)
      modifies this
      ensures ok <==> IdsOk(v)
      ensures ok ==> out == old(out) + (Header(name, v) + ValueBytes(v))
      decreases v, 1
    {
      hide *;
      IdIs(v);
      if v.ObjectId? && |v.id| != 12 {
        return false;
      }
      ghost var before := out;
      AddElemName(v, name);
      ok := AddValue(v);
      if ok {
        Associate(before, Header(name, v), ValueBytes(v));
      }
    }

    method AddValue(v: Value) returns (ok: bool)
      requires v.ObjectId? ==> |v.id| == 12
      modifies this
      ensures ok <==> IdsOk(v)
      ensures ok ==> out == old(out) + ValueBytes(v)
      decreases v, 0
    {
      hide ElemsBytes, ItemsBytes, Framed, StrBytes, BinaryBytes, LittleEndian, LittleEndian8, Millis;
      ok := true;
      match v {
        case Double(bits) => AddInt64(bits);
        case Str(s) => AddStr(s);
        case Doc(elems) => ok := AddDoc(elems);
        case Array(items) => ok := AddSlice(items);
        case Data(data) => AddBinary(0, data);
        case Binary(subtype, data) => AddBinary(subtype, data);
        case Undefined =>
        case ObjectId(id) => AddBytes(id);
        case Bool(b) => AddBytes([if b then 1 else 0]);
        case Time(sec, nsec) => AddInt64(Millis(sec, nsec));
        case Null =>
        case RegEx(pattern, options) => AddRegEx(pattern, options);
        case JavaScript(code) => AddStr(code);
        case Symbol(s) => AddStr(s);
        case Int(i) =>
          if -TWO_31 <= i < TWO_31 {
            AddInt32(i);
          } else {
            AddInt64(i);
          }
        case Timestamp(t) => AddInt64(t);
        case Long(l) => AddInt64(l);
        case MaxKey =>
        case MinKey =>
      }
    }

    method AddRegEx(pattern: Bytes, options: Bytes)
      modifies this
      ensures out == old(out) + (pattern + [0] + options + [0])
    {
      ghost var before := out;
      AddCStr(pattern);
      AddCStr(options);
      assert out == before + (pattern + [0] + options + [0]);
    }

    method AddDoc(elems: seq<Elem>) returns (ok: bool)
      modifies this
      ensures ok <==> forall i | 0 <= i < |elems| :: IdsOk(elems[i].value)
      ensures ok ==> out == old(out) + Framed(ElemsBytes(elems))
      decreases elems
    {
      hide ElemsBytes, ValueBytes, Header, LittleEndian, NormalElems, IdsOk, Itoa, Framed;
      ghost var before := out;
      var start := ReserveInt32();
      NoElems();
      for k := 0 to |elems|
        invariant forall i | 0 <= i < k :: IdsOk(elems[i].value)
        invariant out == before + [0, 0, 0, 0] + ElemsBytes(elems[..k])
      {
        ok := AddElem(elems[k].name, elems[k].value);
        if !ok {
          return;
        }
        ElemsStep(elems, k);
        Associate(before + [0, 0, 0, 0], ElemsBytes(elems[..k]), Header(elems[k].name, elems[k].value) + ValueBytes(elems[k].value));
      }
      assert elems[..|elems|] == elems;
      AddBytes([0]);
      SetInt32(start, |out| - start);
      Patched(before, ElemsBytes(elems), out);
      ok := true;
    }

    method AddSlice(items: seq<Value>) returns (ok: bool)
      modifies this
      ensures ok <==> forall i | 0 <= i < |items| :: IdsOk(items[i])
      ensures ok ==> out == old(out) + Framed(ItemsBytes(items))
      ensures ok ==> exists elems :: Numbered(items, elems) && out == old(out) + Framed(ElemsBytes(elems))
      decreases items
    {
      hide ItemsBytes, ElemsBytes, ValueBytes, Header, LittleEndian, NormalItems, IdsOk, Itoa, Framed, Numbered;
      ghost var before := out;
      var start := ReserveInt32();
      NoItems();
      for k := 0 to |items|
        invariant forall i | 0 <= i < k :: IdsOk(items[i])
        invariant out == before + [0, 0, 0, 0] + ItemsBytes(items[..k])
      {
        ok := AddElem(Itoa(k), items[k]);
        if !ok {
          return;
        }
        ItemsStep(items, k);
        Associate(before + [0, 0, 0, 0], ItemsBytes(items[..k]), Header(Itoa(k), items[k]) + ValueBytes(items[k]));
      }
      assert items[..|items|] == items;
      AddBytes([0]);
      SetInt32(start, |out| - start);
      Patched(before, ItemsBytes(items), out);
      ghost var elems := ArrayIsNumbered(items);
      ok := true;
    }
  }

  /** A length patched in is the length in front of the body. */
  lemma Patched(before: Bytes, body: Bytes, out: Bytes)
    requires var all := before + [0, 0, 0, 0] + body + [0];
      out == all[..|before|] + LittleEndian(|all| - |before|) + all[|before| + 4..]
    ensures out == before + Framed(body)
  {
    var all := before + [0, 0, 0, 0] + body + [0];
    assert all[..|before|] == before;
    assert all[|before| + 4..] == body + [0];
    hide LittleEndian;
    assert out == before + (LittleEndian(|body| + 5) + body + [0]);
  }

  // ---- bytes in the input

  /** `t` is at `i`. */
  predicate Here(b: Bytes, i: nat, t: Bytes) {
    i + |t| <= |b| && b[i..i + |t|] == t
  }

  lemma HereSplit(b: Bytes, i: nat, s: Bytes, t: Bytes)
    requires Here(b, i, s + t)
    ensures Here(b, i, s) && Here(b, i + |s|, t)
  {
    var u := s + t;
    assert b[i..i + |u|][..|s|] == s && b[i..i + |u|][|s|..] == t;
  }

  lemma HereAt(b: Bytes, i: nat, t: Bytes, j: nat)
    requires Here(b, i, t) && j < |t|
    ensures i + j < |b| && b[i + j] == t[j]
  {
    assert b[i..i + |t|][j] == t[j];
  }

  lemma {:induction false} ElemsSplit(elems: seq<Elem>, k: nat)
    requires k <= |elems|
    ensures |ElemsBytes(elems[..k])| <= |ElemsBytes(elems)| && ElemsBytes(elems)[..|ElemsBytes(elems[..k])|] == ElemsBytes(elems[..k])
    decreases |elems|
  {
    if k == |elems| {
      assert elems[..k] == elems;
    } else {
      ElemsSplit(elems[..|elems| - 1], k);
      assert elems[..|elems| - 1][..k] == elems[..k];
    }
  }

  lemma {:induction false} ItemsSplit(items: seq<Value>, k: nat)
    requires k <= |items|
    ensures |ItemsBytes(items[..k])| <= |ItemsBytes(items)| && ItemsBytes(items)[..|ItemsBytes(items[..k])|] == ItemsBytes(items[..k])
    decreases |items|
  {
    if k == |items| {
      assert items[..k] == items;
    } else {
      ItemsSplit(items[..|items| - 1], k);
      assert items[..|items| - 1][..k] == items[..k];
    }
  }

  /** A part that follows a prefix of a body. */
  lemma PartHere(b: Bytes, base: nat, body: Bytes, prefix: Bytes, part: Bytes)
    requires Here(b, base, body + [0]) && |prefix + part| <= |body| && body[..|prefix + part|] == prefix + part
    ensures Here(b, base + |prefix|, part)
  {
    HereSplit(b, base, body, [0]);
    assert body == body[..|prefix + part|] + body[|prefix + part|..];
    HereSplit(b, base, prefix + part, body[|prefix + part|..]);
    HereSplit(b, base, prefix, part);
  }

  /** The next element of a document. */
  lemma ElemHere(b: Bytes, base: nat, elems: seq<Elem>, k: nat)
    requires Here(b, base, ElemsBytes(elems) + [0]) && k <= |elems|
    ensures var p := base + |ElemsBytes(elems[..k])|;
      && p < |b| && p <= base + |ElemsBytes(elems)|
      && (b[p] == 0 <==> k == |elems|)
      && (k == |elems| ==> p == base + |ElemsBytes(elems)|)
      && (k < |elems| ==>
            var e := elems[k];
            Here(b, p, Header(e.name, e.value)) && Here(b, p + |Header(e.name, e.value)|, ValueBytes(e.value))
            && b[p] == Kind(e.value) && p + |Header(e.name, e.value)| + |ValueBytes(e.value)| == base + |ElemsBytes(elems[..k + 1])|
            && |ElemsBytes(elems[..k + 1])| <= |ElemsBytes(elems)|)
  {
    hide ElemsBytes, Header, ValueBytes, Kind;
    var all := ElemsBytes(elems);
    if k == |elems| {
      assert elems[..k] == elems;
      HereAt(b, base, all + [0], |all|);
    } else {
      var e := elems[k];
      var h, v := Header(e.name, e.value), ValueBytes(e.value);
      ElemsStep(elems, k);
      ElemsSplit(elems, k);
      ElemsSplit(elems, k + 1);
      PartHere(b, base, all, ElemsBytes(elems[..k]), h + v);
      HereSplit(b, base + |ElemsBytes(elems[..k])|, h, v);
      KindHere(b, base + |ElemsBytes(elems[..k])|, e.name, e.value);
    }
  }

  lemma KindHere(b: Bytes, p: nat, name: Bytes, v: Value)
    requires Here(b, p, Header(name, v))
    ensures p < |b| && b[p] == Kind(v) != 0 && Here(b, p + 1, name + [0]) && |Header(name, v)| == |name| + 2
  {
    hide Kind;
    assert Header(name, v) == [Kind(v)] + (name + [0]);
    HereSplit(b, p, [Kind(v)], name + [0]);
    HereAt(b, p, [Kind(v)], 0);
    assert b[p] != 0 by { KindIsNotNul(v); }
  }

  lemma KindIsNotNul(v: Value)
    ensures Kind(v) != 0
  {
  }

  lemma ItemHere(b: Bytes, base: nat, items: seq<Value>, k: nat)
    requires Here(b, base, ItemsBytes(items) + [0]) && k <= |items|
    ensures var p := base + |ItemsBytes(items[..k])|;
      && p < |b| && p <= base + |ItemsBytes(items)|
      && (b[p] == 0 <==> k == |items|)
      && (k == |items| ==> p == base + |ItemsBytes(items)|)
      && (k < |items| ==>
            Here(b, p, Header(Itoa(k), items[k])) && Here(b, p + |Header(Itoa(k), items[k])|, ValueBytes(items[k]))
            && b[p] == Kind(items[k]) && p + |Header(Itoa(k), items[k])| + |ValueBytes(items[k])| == base + |ItemsBytes(items[..k + 1])|
            && |ItemsBytes(items[..k + 1])| <= |ItemsBytes(items)|)
  {
    hide ItemsBytes, Header, ValueBytes, Kind, Itoa;
    var all := ItemsBytes(items);
    if k == |items| {
      assert items[..k] == items;
      HereAt(b, base, all + [0], |all|);
    } else {
      var h, v := Header(Itoa(k), items[k]), ValueBytes(items[k]);
      ItemsStep(items, k);
      ItemsSplit(items, k);
      ItemsSplit(items, k + 1);
      PartHere(b, base, all, ItemsBytes(items[..k]), h + v);
      HereSplit(b, base + |ItemsBytes(items[..k])|, h, v);
      KindHere(b, base + |ItemsBytes(items[..k])|, Itoa(k), items[k]);
    }
  }

  // ---- times

  /** Go's division and remainder, which truncate towards zero. */
  function GoDiv(a: int, b: nat): int
    requires b > 0
  {
    if a >= 0 then a / b else -(-a / b)
  }

  function GoMod(a: int, b: nat): int
    requires b > 0
  {
    a - GoDiv(a, b) * b
  }

  /** time.Unix, for less than a second of nanoseconds, either way. */
  function Unix(sec: int, nsec: int): (r: Value)
    requires -1_000_000_000 < nsec < 1_000_000_000 && -TWO_63 < sec < TWO_63
  {
    if nsec < 0 then Time(sec - 1, nsec + 1_000_000_000) else Time(sec, nsec)
  }

  const ZERO_TIME := -62135596800000

  function TimeOf(m: Int64): (r: Value)
    ensures r == Time(m / 1000, m % 1000 * 1000000)
  {
    var i: int := m;
    assert i < 0 ==> i == -(-i / 1000) * 1000 - -i % 1000;
    if i == ZERO_TIME then Time(-62135596800, 0) else Unix(GoDiv(i, 1000), GoMod(i, 1000) * 1000000)
  }

  // ---- the decoder

  /** The value `v` of kind `kind` is at `i`, and can be told from what is behind it. */
  ghost predicate Expected(b: Bytes, i: nat, kind: Byte, v: Value) {
    kind == Kind(v) && Here(b, i, ValueBytes(v)) && NulFree(v) && IdsOk(v) && |ValueBytes(v)| < TWO_31
  }

  /** What is there is `r`, up to `end`. */
  ghost predicate Matches(v: Value, i: nat, r: Value, end: nat) {
    r == Normal(v) && end == i + |ValueBytes(v)|
  }

  /** A name or a text that ends at its first NUL. */
  lemma CStrHere(b: Bytes, i: nat, s: Bytes, t: Bytes)
    requires Here(b, i, s + [0]) && 0 !in s
    requires i + |t| < |b| && b[i..i + |t|] == t && 0 !in t && b[i + |t|] == 0
    ensures t == s
  {
    HereSplit(b, i, s, [0]);
    HereAt(b, i, s + [0], |s|);
    forall j | i <= j < i + |t| ensures b[j] != 0 {
      assert b[i..i + |t|][j - i] == b[j];
    }
    forall j | i <= j < i + |s| ensures b[j] != 0 {
      assert b[i..i + |s|][j - i] == b[j];
    }
    assert |s| >= |t| && |t| >= |s|;
  }

  lemma StrHere(b: Bytes, i: nat, s: Bytes)
    requires Here(b, i, StrBytes(s))
    ensures Here(b, i, LittleEndian(|s| + 1)) && Here(b, i + 4, s) && i + 4 + |s| < |b| && b[i + 4 + |s|] == 0
    ensures |StrBytes(s)| == |s| + 5
  {
    HereSplit(b, i, LittleEndian(|s| + 1) + s, [0]);
    HereSplit(b, i, LittleEndian(|s| + 1), s);
    HereAt(b, i + 4 + |s|, [0], 0);
  }

  lemma BinaryHere(b: Bytes, i: nat, subtype: Byte, data: Bytes)
    requires Here(b, i, BinaryBytes(subtype, data))
    ensures var rest := if subtype == 2 then LittleEndian(|data|) + data else data;
      Here(b, i, LittleEndian(|rest|)) && i + 4 < |b| && b[i + 4] == subtype && Here(b, i + 5, rest)
      && |BinaryBytes(subtype, data)| == 5 + |rest|
  {
    var rest := if subtype == 2 then LittleEndian(|data|) + data else data;
    assert BinaryBytes(subtype, data) == LittleEndian(|rest|) + [subtype] + rest;
    HereSplit(b, i, LittleEndian(|rest|) + [subtype], rest);
    HereSplit(b, i, LittleEndian(|rest|), [subtype]);
    HereAt(b, i + 4, [subtype], 0);
  }

  /** A document or an array: its length leads to its end. */
  lemma FrameHere(b: Bytes, i: nat, body: Bytes)
    requires Here(b, i, Framed(body))
    ensures Here(b, i, LittleEndian(|body| + 5)) && Here(b, i + 4, body + [0])
    ensures i + 4 + |body| < |b| && b[i + 4 + |body|] == 0 && |Framed(body)| == |body| + 5
  {
    assert Framed(body) == LittleEndian(|body| + 5) + (body + [0]);
    HereSplit(b, i, LittleEndian(|body| + 5), body + [0]);
    HereAt(b, i + 4, body + [0], |body|);
  }

  lemma Int32Here(b: Bytes, i: nat, x: int)
    requires Here(b, i, LittleEndian(x)) && -TWO_31 <= x < TWO_31
    ensures i + 4 <= |b| && Signed32(Unsigned(b[i..i + 4])) == x
  {
    hide LittleEndian, Signed32, Unsigned;
    Int32Back(x);
  }

  lemma Int64Here(b: Bytes, i: nat, x: int)
    requires Here(b, i, LittleEndian8(x))
    ensures i + 8 <= |b|
    ensures Signed64(Unsigned(b[i..i + 4]) + Unsigned(b[i + 4..i + 8]) * TWO_32) == Wrap64(x)
  {
    var r := LittleEndian8(x);
    hide LittleEndian8, LittleEndian, Unsigned, Signed64;
    assert b[i..i + 8] == r;
    assert b[i..i + 4] == r[..4] && b[i + 4..i + 8] == r[4..];
    Word64Back(x);
  }

  /** What is to be found for each kind. */
  lemma Number(b: Bytes, i: nat, kind: Byte, v: Value)
    requires Expected(b, i, kind, v)
    ensures kind == 0x01 ==> v.Double? && Here(b, i, LittleEndian8(v.bits)) && Matches(v, i, v, i + 8)
    ensures kind == 0x09 ==> v.Time? && Here(b, i, LittleEndian8(Millis(v.sec, v.nsec))) && Matches(v, i, TimeOf(Millis(v.sec, v.nsec)), i + 8)
    ensures kind == 0x10 ==> v.Int? && Here(b, i, LittleEndian(v.i)) && -TWO_31 <= v.i < TWO_31 && Matches(v, i, v, i + 4)
    ensures kind == 0x11 ==> v.Timestamp? && Here(b, i, LittleEndian8(v.t)) && Matches(v, i, v, i + 8)
    ensures kind == 0x12 && v.Int? ==> Here(b, i, LittleEndian8(v.i)) && Matches(v, i, Long(v.i), i + 8)
    ensures kind == 0x12 && !v.Int? ==> v.Long? && Here(b, i, LittleEndian8(v.l)) && Matches(v, i, v, i + 8)
  {
    hide ElemsBytes, ItemsBytes, LittleEndian, LittleEndian8, NormalElems, NormalItems;
  }

  lemma Text(b: Bytes, i: nat, kind: Byte, v: Value)
    requires Expected(b, i, kind, v)
    ensures kind == 0x02 ==> v.Str? && Here(b, i, StrBytes(v.s)) && |v.s| + 1 < TWO_31 && Matches(v, i, v, i + |v.s| + 5)
    ensures kind == 0x0D ==> v.JavaScript? && Here(b, i, StrBytes(v.code)) && |v.code| + 1 < TWO_31 && Matches(v, i, v, i + |v.code| + 5)
    ensures kind == 0x0E ==> v.Symbol? && Here(b, i, StrBytes(v.s)) && |v.s| + 1 < TWO_31 && Matches(v, i, v, i + |v.s| + 5)
  {
    hide ElemsBytes, ItemsBytes, LittleEndian, LittleEndian8, NormalElems, NormalItems;
  }

  function SubtypeOf(v: Value): Byte {
    if v.Binary? then v.subtype else 0
  }

  /** Binary data as the decoder delivers it. */
  function BinaryOf(subtype: Byte, data: Bytes): Value {
    if subtype == 0 || subtype == 2 then Data(data) else Binary(subtype, data)
  }

  lemma Blob(b: Bytes, i: nat, kind: Byte, v: Value)
    requires Expected(b, i, kind, v)
    ensures kind == 0x05 ==> v.Data? || v.Binary?
    ensures kind == 0x05 ==>
      Here(b, i, BinaryBytes(SubtypeOf(v), v.data)) && |BinaryBytes(SubtypeOf(v), v.data)| < TWO_31
    ensures kind == 0x05 ==>
      Matches(v, i, BinaryOf(SubtypeOf(v), v.data), i + |BinaryBytes(SubtypeOf(v), v.data)|)
    ensures kind == 0x07 ==> v.ObjectId? && Here(b, i, v.id) && |v.id| == 12 && Matches(v, i, v, i + 12)
    ensures kind == 0x08 ==> v.Bool? && i < |b| && b[i] == (if v.b then 1 else 0) && Matches(v, i, v, i + 1)
    ensures kind == 0x0B ==> v.RegEx? && 0 !in v.pattern && 0 !in v.options
    ensures kind == 0x0B ==> Here(b, i, v.pattern + [0]) && Here(b, i + |v.pattern| + 1, v.options + [0])
    ensures kind == 0x0B ==> Matches(v, i, v, i + |v.pattern| + 1 + |v.options| + 1)
  {
    hide ElemsBytes, ItemsBytes, LittleEndian, LittleEndian8, NormalElems, NormalItems;
    if v.RegEx? {
      var s, t := v.pattern + [0], v.options + [0];
      assert ValueBytes(v) == s + t;
      HereSplit(b, i, s, t);
    } else if v.Bool? {
      HereAt(b, i, ValueBytes(v), 0);
    }
  }

  lemma Constant(b: Bytes, i: nat, kind: Byte, v: Value)
    requires Expected(b, i, kind, v)
    ensures kind == 0x06 ==> v == Undefined && Matches(v, i, v, i)
    ensures kind == 0x0A ==> v == Null && Matches(v, i, v, i)
    ensures kind == 0x7F ==> v == MaxKey && Matches(v, i, v, i)
    ensures kind == 0xFF ==> v == MinKey && Matches(v, i, v, i)
    ensures kind in {0x01, 0x02, 0x03, 0x04, 0x05, 0x06, 0x07, 0x08, 0x09, 0x0A, 0x0B, 0x0D, 0x0E, 0x10, 0x11, 0x12, 0x7F, 0xFF}
  {
    hide ElemsBytes, ItemsBytes, LittleEndian, LittleEndian8, NormalElems, NormalItems;
  }

  lemma Nested(b: Bytes, i: nat, kind: Byte, v: Value)
    requires Expected(b, i, kind, v)
    ensures kind == 0x03 ==> v.Doc? && ExpectedDoc(b, i, v.elems)
    ensures kind == 0x03 ==> Matches(v, i, Doc(NormalElems(v.elems)), i + |Framed(ElemsBytes(v.elems))|)
    ensures kind == 0x04 ==> v.Array? && ExpectedArray(b, i, v.items)
    ensures kind == 0x04 ==> Matches(v, i, Array(NormalItems(v.items)), i + |Framed(ItemsBytes(v.items))|)
  {
    hide ElemsBytes, ItemsBytes, LittleEndian, LittleEndian8, NormalElems, NormalItems, Framed;
  }

  ghost predicate ElemsOk(elems: seq<Elem>) {
    forall k | 0 <= k < |elems| :: 0 !in elems[k].name && NulFree(elems[k].value) && IdsOk(elems[k].value)
  }

  ghost predicate ItemsOk(items: seq<Value>) {
    forall k | 0 <= k < |items| :: NulFree(items[k]) && IdsOk(items[k])
  }

  ghost predicate ExpectedDoc(b: Bytes, i: nat, elems: seq<Elem>) {
    Here(b, i, Framed(ElemsBytes(elems))) && |Framed(ElemsBytes(elems))| < TWO_31 && ElemsOk(elems)
  }

  ghost predicate ExpectedArray(b: Bytes, i: nat, items: seq<Value>) {
    Here(b, i, Framed(ItemsBytes(items))) && |Framed(ItemsBytes(items))| < TWO_31 && ItemsOk(items)
  }

  class Decoder {
    const input: Bytes
    var i: nat

    constructor (input: Bytes)
      ensures this.input == input && i == 0
    {
      this.input, i := input, 0;
    }

    method ReadByte() returns (ok: bool, b: Byte)
      modifies this
      ensures ok <==> old(i) < |input|
      ensures ok ==> b == input[old(i)] && i == old(i) + 1
    {
      if i >= |input| {
        return false, 0;
      }
      b := input[i];
      i := i + 1;
      ok := true;
    }

    method ReadBytes(length: int) returns (ok: bool, b: Bytes)
      modifies this
      ensures ok <==> length >= 0 && old(i) + length <= |input|
      ensures ok ==> b == input[old(i)..old(i) + length] && i == old(i) + length
      ensures !ok ==> i == old(i)
    {
      if length < 0 || i + length > |input| {
        return false, [];
      }
      b := input[i..i + length];
      i := i + length;
      ok := true;
    }

    method ReadInt32(ghost x: int) returns (ok: bool, r: Int32)
      modifies this
      ensures ok ==> i == old(i) + 4 <= |input|
      ensures Here(input, old(i), LittleEndian(x)) && -TWO_31 <= x < TWO_31 ==> ok && r == x
    {
      if Here(input, i, LittleEndian(x)) && -TWO_31 <= x < TWO_31 {
        Int32Here(input, i, x);
      }
      hide LittleEndian, Unsigned, Signed32;
      var b;
      ok, b := ReadBytes(4);
      r := if ok then Signed32(Unsigned(b)) else 0;
    }

    method ReadInt64(ghost x: int) returns (ok: bool, r: Int64)
      modifies this
      ensures ok ==> i == old(i) + 8 <= |input|
      ensures Here(input, old(i), LittleEndian8(x)) ==> ok && r == Wrap64(x)
    {
      hide LittleEndian8, Unsigned, Signed64, Wrap64;
      if Here(input, i, LittleEndian8(x)) {
        Int64Here(input, i, x);
      }
      var b;
      ok, b := ReadBytes(8);
      r := if ok then Signed64(Unsigned(b[..4]) + Unsigned(b[4..]) * TWO_32) else 0;
      if ok {
        assert b[..4] == input[old(i)..old(i) + 4] && b[4..] == input[old(i) + 4..old(i) + 8];
      }
    }

    method ReadCStr(ghost s: Bytes) returns (ok: bool, t: Bytes)
      modifies this
      ensures ok ==> old(i) < i <= |input| && 0 !in t
      ensures Here(input, old(i), s + [0]) && 0 !in s ==> ok && t == s && i == old(i) + |s| + 1
    {
      var start, end := i, i;
      if Here(input, i, s + [0]) {
        HereAt(input, i, s + [0], |s|);
      }
      while end < |input|
        invariant start <= end && (start <= |input| ==> end <= |input| && 0 !in input[start..end])
        invariant start > |input| ==> end == start
        invariant Here(input, start, s + [0]) ==> end <= start + |s|
      {
        if input[end] == 0 {
          break;
        }
        assert input[start..end + 1] == input[start..end] + [input[end]];
        end := end + 1;
      }
      i := end + 1;
      if i > |input| {
        return false, [];
      }
      t := input[start..end];
      if Here(input, start, s + [0]) && 0 !in s {
        CStrHere(input, start, s, t);
      }
      ok := true;
    }

    method ReadStr(ghost s: Bytes) returns (ok: bool, t: Bytes)
      modifies this
      ensures ok ==> old(i) < i <= |input|
      ensures Here(input, old(i), StrBytes(s)) && |s| + 1 < TWO_31 ==> ok && t == s && i == old(i) + |s| + 5
    {
      hide StrBytes, LittleEndian;
      if Here(input, i, StrBytes(s)) {
        StrHere(input, i, s);
      }
      t := [];
      var l, b;
      ok, l := ReadInt32(|s| + 1);
      if !ok {
        return;
      }
      var length: int := if l == -TWO_31 then TWO_31 - 1 else l as int - 1;
      ok, t := ReadBytes(length);
      if !ok {
        return;
      }
      ok, b := ReadByte();
      ok := ok && b == 0;
    }

    method ReadBinary(ghost subtype: Byte, ghost data: Bytes) returns (ok: bool, k: Byte, d: Bytes)
      modifies this
      ensures ok ==> old(i) < i <= |input|
      ensures Here(input, old(i), BinaryBytes(subtype, data)) && |BinaryBytes(subtype, data)| < TWO_31 ==>
        ok && k == subtype && d == data && i == old(i) + |BinaryBytes(subtype, data)|
    {
      hide BinaryBytes, LittleEndian;
      ghost var rest := if subtype == 2 then LittleEndian(|data|) + data else data;
      ghost var here := Here(input, i, BinaryBytes(subtype, data)) && |BinaryBytes(subtype, data)| < TWO_31;
      if here {
        BinaryHere(input, i, subtype, data);
      }
      k, d := 0, [];
      var l;
      ok, l := ReadInt32(|rest|);
      if !ok {
        return;
      }
      ok, k := ReadByte();
      if !ok {
        return;
      }
      ok, d := ReadBytes(l);
      if !ok {
        return;
      }
      if k == 2 && |d| >= 4 {
        d := d[4..];
      }
    }

    /** The contents of an element. The ghost `v` is what to expect, if it is there. */
    method ReadElem(kind: Byte, ghost v: Value) returns (ok: bool, r: Value)
      modifies this
      ensures ok ==> old(i) <= i <= |input| && NulFree(r)
      ensures Expected(input, old(i), kind, v) && old(i) <= |input| ==> ok && Matches(v, old(i), r, i)
      decreases |input| - i, 2
    {
      hide *;
      ghost var expected := Expected(input, i, kind, v);
      r := Null;
      NullIsNulFree();
      if i > |input| {
        return false, r;
      }
      if kind == 0x03 {
        if expected {
          Nested(input, i, kind, v);
        }
        var elems;
        ghost var es := if expected then v.elems else [];
        ok, elems := ReadDoc(es);
        r := Doc(elems);
      } else if kind == 0x04 {
        if expected {
          Nested(input, i, kind, v);
        }
        var items;
        ghost var vs := if expected then v.items else [];
        ok, items := ReadArray(vs);
        r := Array(items);
      } else if kind in {0x01, 0x09, 0x10, 0x11, 0x12} {
        ok, r := ReadNumber(kind, v);
      } else if kind in {0x02, 0x0D, 0x0E} {
        ok, r := ReadText(kind, v);
      } else if kind in {0x05, 0x07, 0x08, 0x0B} {
        ok, r := ReadBlob(kind, v);
      } else {
        ok, r := ReadConstant(kind, v);
      }
    }

    method ReadNumber(kind: Byte, ghost v: Value) returns (ok: bool, r: Value)
      requires kind in {0x01, 0x09, 0x10, 0x11, 0x12} && i <= |input|
      modifies this
      ensures ok ==> old(i) <= i <= |input| && NulFree(r)
      ensures Expected(input, old(i), kind, v) ==> ok && Matches(v, old(i), r, i)
    {
      hide Expected, Matches, LittleEndian, LittleEndian8, TimeOf, Normal, ValueBytes, Wrap64, Millis;
      ghost var x: int := 0;
      if Expected(input, i, kind, v) {
        Number(input, i, kind, v);
        x := match v case Double(bits) => bits case Time(s, n) => Millis(s, n) case Int(j) => j
                     case Timestamp(t) => t case Long(l) => l case _ => 0;
      }
      r := Null;
      if kind == 0x10 {
        var j;
        ok, j := ReadInt32(x);
        r := Int(j);
        return;
      }
      var l;
      ok, l := ReadInt64(x);
      Wrapped(x);
      match kind {
        case 0x01 => r := Double(l as int % TWO_64);
        case 0x09 => r := TimeOf(l);
        case 0x11 => r := Timestamp(l);
        case _ => r := Long(l);
      }
    }

    method ReadText(kind: Byte, ghost v: Value) returns (ok: bool, r: Value)
      requires kind in {0x02, 0x0D, 0x0E} && i <= |input|
      modifies this
      ensures ok ==> old(i) <= i <= |input| && NulFree(r)
      ensures Expected(input, old(i), kind, v) ==> ok && Matches(v, old(i), r, i)
    {
      hide Expected, Matches, StrBytes, Normal, ValueBytes;
      ghost var x := [];
      if Expected(input, i, kind, v) {
        Text(input, i, kind, v);
        x := match v case Str(s) => s case JavaScript(s) => s case Symbol(s) => s case _ => [];
      }
      var t;
      ok, t := ReadStr(x);
      match kind {
        case 0x02 => r := Str(t);
        case 0x0D => r := JavaScript(t);
        case _ => r := Symbol(t);
      }
    }

    method ReadBlob(kind: Byte, ghost v: Value) returns (ok: bool, r: Value)
      requires kind in {0x05, 0x07, 0x08, 0x0B} && i <= |input|
      modifies this
      ensures ok ==> old(i) <= i <= |input| && NulFree(r)
      ensures Expected(input, old(i), kind, v) ==> ok && Matches(v, old(i), r, i)
    {
      hide Expected, Matches, BinaryBytes, Normal, ValueBytes;
      ghost var subtype, data, pattern, options := 0, [], [], [];
      ghost var expected := Expected(input, i, kind, v);
      if expected {
        Blob(input, i, kind, v);
        if kind == 0x05 {
          subtype, data := SubtypeOf(v), v.data;
        } else if kind == 0x0B {
          pattern, options := v.pattern, v.options;
        }
      }
      r := Null;
      match kind {
        case 0x05 =>
          var k, d;
          ok, k, d := ReadBinary(subtype, data);
          r := BinaryOf(k, d);
        case 0x07 =>
          var b;
          ok, b := ReadBytes(12);
          r := ObjectId(b);
        case 0x08 =>
          var b;
          ok, b := ReadByte();
          r := Bool(b == 1);
        case _ =>
          var s, t;
          ok, s := ReadCStr(pattern);
          if !ok {
            return;
          }
          ok, t := ReadCStr(options);
          r := RegEx(s, t);
      }
    }

    method ReadConstant(kind: Byte, ghost v: Value) returns (ok: bool, r: Value)
      requires kind !in {0x01, 0x02, 0x03, 0x04, 0x05, 0x07, 0x08, 0x09, 0x0B, 0x0D, 0x0E, 0x10, 0x11, 0x12} && i <= |input|
      ensures ok ==> NulFree(r)
      ensures Expected(input, i, kind, v) ==> ok && Matches(v, i, r, i)
    {
      hide Expected, Matches, Normal, ValueBytes;
      if Expected(input, i, kind, v) {
        Constant(input, i, kind, v);
      }
      ok := true;
      match kind {
        case 0x06 => r := Undefined;
        case 0x0A => r := Null;
        case 0x7F => r := MaxKey;
        case 0xFF => r := MinKey;
        case _ => ok, r := false, Null;
      }
    }

    /** The length of a document or an array, checked against the input: where it ends. */
    method ReadFrame(ghost body: Bytes) returns (ok: bool, end: nat)
      requires i <= |input|
      modifies this
      ensures ok ==> old(i) + 4 == i < end <= |input| && input[end - 1] == 0
      ensures Here(input, old(i), Framed(body)) && |Framed(body)| < TWO_31 ==> ok && end == old(i) + |body| + 5
    {
      hide Framed, LittleEndian;
      ghost var here := Here(input, i, Framed(body)) && |Framed(body)| < TWO_31;
      if here {
        FrameHere(input, i, body);
      }
      end := 0;
      var l;
      ok, l := ReadInt32(|body| + 5);
      if !ok {
        return;
      }
      var e: int := l as int + i - 4;
      if e <= i || e > |input| || input[e - 1] != 0 {
        return false, end;
      }
      end := e;
    }

    /** readDocWith, for the elements of a D. */
    method ReadDoc(ghost elems: seq<Elem>) returns (ok: bool, r: seq<Elem>)
      requires i <= |input|
      modifies this
      ensures ok ==> old(i) < i <= |input| && NulFree(Doc(r))
      ensures ExpectedDoc(input, old(i), elems) ==>
        ok && r == NormalElems(elems) && i == old(i) + |Framed(ElemsBytes(elems))|
      decreases |input| - i, 1
    {
      hide *;
      ghost var expected, base, k := ExpectedDoc(input, i, elems), i + 4, 0;
      r := [];
      if expected {
        DocExpected(input, i, elems);
      }
      NoElems();
      NulFreeEmpty();
      var end;
      ok, end := ReadFrame(ElemsBytes(elems));
      if !ok {
        return;
      }
      assert elems[..0] == [];
      while input[i] != 0
        invariant old(i) < i < end <= |input|
        invariant expected ==> k <= |elems| && i == base + |ElemsBytes(elems[..k])| && r == NormalElems(elems[..k])
        invariant NulFree(Doc(r))
        decreases |input| - i
      {
        ghost var v, name := Null, [];
        if expected {
          ElemHere(input, base, elems, k);
          v, name := elems[k].value, elems[k].name;
          KindHere(input, i, name, v);
          ElemOk(elems, k);
        }
        var kind, n, e;
        ghost var start := i;
        ok, kind := ReadByte();
        ok, n := ReadCStr(name);
        if !ok {
          return;
        }
        if i >= end {
          return false, r;
        }
        if expected {
          ValueExpected(input, i, v);
        }
        ok, e := ReadElem(kind, v);
        if !ok {
          return;
        }
        if expected {
          MatchIs(v, start + |Header(name, v)|, e, i);
          ElemsStep(elems, k);
          ElemHere(input, base, elems, k);
        }
        NulFreeGrows(r, n, e);
        r, k := r + [Elem(n, e)], k + 1;
        if expected {
          ElemHere(input, base, elems, k);
        }
        if i >= end {
          return false, r;
        }
      }
      if expected {
        ElemHere(input, base, elems, k);
        assert elems[..|elems|] == elems;
      }
      i := i + 1;
      ok := i == end;
    }

    /** readSliceDoc: the names are skipped. */
    method ReadArray(ghost items: seq<Value>) returns (ok: bool, r: seq<Value>)
      requires i <= |input|
      modifies this
      ensures ok ==> old(i) < i <= |input| && NulFree(Array(r))
      ensures ExpectedArray(input, old(i), items) ==>
        ok && r == NormalItems(items) && i == old(i) + |Framed(ItemsBytes(items))|
      decreases |input| - i, 1
    {
      hide *;
      ghost var expected, base, k := ExpectedArray(input, i, items), i + 4, 0;
      r := [];
      if expected {
        ArrayExpected(input, i, items);
      }
      NoItems();
      NulFreeEmpty();
      var end;
      ok, end := ReadFrame(ItemsBytes(items));
      if !ok {
        return;
      }
      assert items[..0] == [];
      while input[i] != 0
        invariant old(i) < i < end <= |input|
        invariant expected ==> k <= |items| && i == base + |ItemsBytes(items[..k])| && r == NormalItems(items[..k])
        invariant NulFree(Array(r))
        decreases |input| - i
      {
        ghost var v := Null;
        if expected {
          ItemHere(input, base, items, k);
          v := items[k];
          KindHere(input, i, Itoa(k), v);
          ItemOk(items, k);
          ItoaIsNulFree(k);
        }
        var kind, e;
        ghost var start := i;
        ok, kind := ReadByte();
        ok := SkipName(end, Itoa(k));
        if !ok {
          return;
        }
        if expected {
          ValueExpected(input, i, v);
        }
        ok, e := ReadElem(kind, v);
        if !ok {
          return;
        }
        if expected {
          MatchIs(v, start + |Header(Itoa(k), v)|, e, i);
          ItemsStep(items, k);
          ItemHere(input, base, items, k);
        }
        NulFreeAdds(r, e);
        r, k := r + [e], k + 1;
        if expected {
          ItemHere(input, base, items, k);
        }
        if i >= end {
          return false, r;
        }
      }
      if expected {
        ItemHere(input, base, items, k);
        assert items[..|items|] == items;
      }
      i := i + 1;
      ok := i == end;
    }

    method SkipName(end: nat, ghost name: Bytes) returns (ok: bool)
      requires i <= end <= |input|
      modifies this
      ensures ok ==> old(i) < i <= end
      ensures Here(input, old(i), name + [0]) && 0 !in name && old(i) + |name| < end ==> ok && i == old(i) + |name| + 1
    {
      ghost var start := i;
      if Here(input, i, name + [0]) {
        HereAt(input, i, name + [0], |name|);
      }
      while i < end && input[i] != 0
        invariant start <= i <= end && 0 !in input[start..i]
        invariant Here(input, start, name + [0]) ==> i <= start + |name|
      {
        i := i + 1;
      }
      if i >= end {
        return false;
      }
      if Here(input, start, name + [0]) && 0 !in name {
        CStrHere(input, start, name, input[start..i]);
      }
      i := i + 1;
      ok := true;
    }
  }

  lemma NullIsNulFree()
    ensures NulFree(Null)
  {
  }

  lemma NulFreeEmpty()
    ensures NulFree(Doc([])) && NulFree(Array([]))
  {
  }

  lemma NulFreeGrows(r: seq<Elem>, n: Bytes, e: Value)
    requires NulFree(Doc(r)) && 0 !in n && NulFree(e)
    ensures NulFree(Doc(r + [Elem(n, e)]))
  {
  }

  lemma NulFreeAdds(r: seq<Value>, e: Value)
    requires NulFree(Array(r)) && NulFree(e)
    ensures NulFree(Array(r + [e]))
  {
  }

  /** Reinterpreting the bits of an int64 as those of a float, and back. */
  lemma Wrapped(x: int)
    ensures 0 <= x < TWO_64 ==> Wrap64(x) as int % TWO_64 == x
    ensures -TWO_63 <= x < TWO_63 ==> Wrap64(x) == x
  {
  }

  lemma MatchIs(v: Value, i: nat, r: Value, end: nat)
    requires Matches(v, i, r, end)
    ensures r == Normal(v) && end == i + |ValueBytes(v)|
  {
    hide Normal, ValueBytes;
  }

  lemma DocExpected(b: Bytes, i: nat, elems: seq<Elem>)
    requires ExpectedDoc(b, i, elems)
    ensures Here(b, i, Framed(ElemsBytes(elems))) && |Framed(ElemsBytes(elems))| < TWO_31
    ensures Here(b, i + 4, ElemsBytes(elems) + [0]) && |Framed(ElemsBytes(elems))| == |ElemsBytes(elems)| + 5
    ensures ElemsOk(elems)
  {
    hide Framed, ElemsBytes;
    FrameHere(b, i, ElemsBytes(elems));
  }

  lemma ArrayExpected(b: Bytes, i: nat, items: seq<Value>)
    requires ExpectedArray(b, i, items)
    ensures Here(b, i, Framed(ItemsBytes(items))) && |Framed(ItemsBytes(items))| < TWO_31
    ensures Here(b, i + 4, ItemsBytes(items) + [0]) && |Framed(ItemsBytes(items))| == |ItemsBytes(items)| + 5
    ensures ItemsOk(items)
  {
    hide Framed, ItemsBytes;
    FrameHere(b, i, ItemsBytes(items));
  }

  lemma ElemOk(elems: seq<Elem>, k: nat)
    requires ElemsOk(elems) && k < |elems|
    ensures 0 !in elems[k].name && NulFree(elems[k].value) && IdsOk(elems[k].value)
  {
  }

  lemma ItemOk(items: seq<Value>, k: nat)
    requires ItemsOk(items) && k < |items|
    ensures NulFree(items[k]) && IdsOk(items[k])
  {
  }

  lemma ItoaIsNulFree(k: nat)
    ensures 0 !in Itoa(k)
  {
  }

  lemma ValueExpected(b: Bytes, i: nat, v: Value)
    requires Here(b, i, ValueBytes(v)) && NulFree(v) && IdsOk(v) && |ValueBytes(v)| < TWO_31
    ensures Expected(b, i, Kind(v), v)
  {
    hide ValueBytes, NulFree, IdsOk, Kind;
  }

  // ---- there and back

  lemma {:induction false} NormalNulFree(v: Value)
    ensures NulFree(Normal(v)) <==> NulFree(v)
    decreases v
  {
    match v {
      case Doc(elems) =>
        NormalElemsAt(elems);
        forall i | 0 <= i < |elems|
          ensures NormalElems(elems)[i].name == elems[i].name
          ensures NulFree(NormalElems(elems)[i].value) <==> NulFree(elems[i].value)
        {
          assert NormalElems(elems)[i] == NormalElem(elems[i]);
          NormalNulFree(elems[i].value);
        }
      case Array(items) =>
        NormalItemsAt(items);
        forall i | 0 <= i < |items| ensures NulFree(NormalItems(items)[i]) <==> NulFree(items[i]) {
          NormalNulFree(items[i]);
        }
      case _ =>
    }
  }

  lemma FramedHere(elems: seq<Elem>, out: Bytes, rest: Bytes)
    requires NulFree(Doc(elems)) && IdsOk(Doc(elems)) && |Framed(ElemsBytes(elems))| < TWO_31
    requires out == [] + Framed(ElemsBytes(elems))
    ensures ExpectedDoc(out + rest, 0, elems)
  {
    hide Framed, ElemsBytes;
    assert (out + rest)[0..|out|] == out;
  }

  /** A document below 2^31 bytes that can be encoded is decoded to the same document, whatever is
      behind it, exactly if no name and no regular expression in it contains a NUL. */
  method RoundTrip(elems: seq<Elem>, rest: Bytes) returns (encoded: bool, ok: bool, back: seq<Elem>, ghost used: nat)
    requires |Framed(ElemsBytes(elems))| < TWO_31
    ensures encoded <==> IdsOk(Doc(elems))
    ensures encoded ==> (ok && back == NormalElems(elems) <==> NulFree(Doc(elems)))
    ensures encoded && NulFree(Doc(elems)) ==> used == |Framed(ElemsBytes(elems))|
  {
    hide Framed, ElemsBytes, NulFree, NormalElems, ExpectedDoc;
    var encoder := new Encoder();
    encoded := encoder.AddDoc(elems);
    ok, back, used := false, [], 0;
    if !encoded {
      return;
    }
    if NulFree(Doc(elems)) {
      FramedHere(elems, encoder.out, rest);
    }
    NormalNulFree(Doc(elems));
    NormalDoc(elems);
    var decoder := new Decoder(encoder.out + rest);
    ok, back := decoder.ReadDoc(elems);
    used := decoder.i;
  }

  lemma NormalDoc(elems: seq<Elem>)
    ensures Normal(Doc(elems)) == Doc(NormalElems(elems))
  {
  }
}
