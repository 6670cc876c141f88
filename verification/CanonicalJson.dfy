/**
 The canonical JSON text the source hashes: minified, keys sorted, string escapes of
 section 7 of RFC 8259 as Python writes them, with `ensure_ascii` on (`ascii`) or off. A
 decoder reads the text back, so the text delimits every component whatever its characters.
 */
module CanonicalJson {
  import opened Wrappers
  import opened Unicode
  import opened Sorting

  const QUOTE: CodePoint := 0x22
  const BACKSLASH: CodePoint := 0x5C
  const COMMA: CodePoint := 0x2C
  const COLON: CodePoint := 0x3A
  const OPEN: CodePoint := 0x7B
  const CLOSE: CodePoint := 0x7D

  // ----- string bodies -----

  function HexDigit(d: int): (c: CodePoint)
    requires 0 <= d < 16
    ensures 0x30 <= c <= 0x66
  {
    if d < 10 then 0x30 + d else 0x57 + d
  }

  function HexValue(c: CodePoint): (d: int)
    ensures d == -1 || 0 <= d < 16
  {
    if 0x30 <= c <= 0x39 then c - 0x30 else if 0x61 <= c <= 0x66 then c - 0x57 else -1
  }

  function Hex4(u: Unit): Text {
    [HexDigit(u / 0x1000), HexDigit(u / 0x100 % 16), HexDigit(u / 0x10 % 16), HexDigit(u % 16)]
  }

  /** The letter of a two-character escape, or 0 when the symbol has none. */
  function ShortEscape(u: CodePoint): CodePoint {
    if u == QUOTE then QUOTE
    else if u == BACKSLASH then BACKSLASH
    else if u == 8 then 0x62
    else if u == 12 then 0x66
    else if u == 10 then 0x6E
    else if u == 13 then 0x72
    else if u == 9 then 0x74
    else 0
  }

  function ShortValue(c: CodePoint): CodePoint {
    if c == QUOTE then QUOTE
    else if c == BACKSLASH then BACKSLASH
    else if c == 0x62 then 8
    else if c == 0x66 then 12
    else if c == 0x6E then 10
    else if c == 0x72 then 13
    else if c == 0x74 then 9
    else 0
  }

  /** One symbol: a code point, or in ASCII mode a UTF-16 unit. */
  predicate SymbolOk(ascii: bool, u: CodePoint) {
    ascii ==> u < 0x10000
  }

  function Escape(ascii: bool, u: CodePoint): (t: Text)
    requires SymbolOk(ascii, u)
    ensures t != [] && t[0] != QUOTE
  {
    if ShortEscape(u) != 0 then [BACKSLASH, ShortEscape(u)]
    else if u < 0x20 || (ascii && u > 0x7E) then [BACKSLASH, 0x75] + Hex4(u)
    else [u]
  }

  function EscapeAll(ascii: bool, us: Text): Text
    requires forall i :: 0 <= i < |us| ==> SymbolOk(ascii, us[i])
  {
    if us == [] then [] else Escape(ascii, us[0]) + EscapeAll(ascii, us[1..])
  }

  function ReadSymbol(t: Text): (r: Option<(CodePoint, Text)>)
    ensures r.Some? ==> |r.value.1| < |t|
  {
    if t == [] || t[0] == QUOTE then None
    else if t[0] != BACKSLASH then Some((t[0], t[1..]))
    else if |t| < 2 then None
    else if t[1] == 0x75 then ReadHex(t)
    else if ShortValue(t[1]) != 0 then Some((ShortValue(t[1]), t[2..]))
    else None
  }

  function ReadHex(t: Text): (r: Option<(CodePoint, Text)>)
    requires |t| >= 2
    ensures r.Some? ==> |r.value.1| < |t|
  {
    if |t| < 6 then None
    else
      var a, b, c, d := HexValue(t[2]), HexValue(t[3]), HexValue(t[4]), HexValue(t[5]);
      if a < 0 || b < 0 || c < 0 || d < 0 then None
      else Some((a * 0x1000 + b * 0x100 + c * 0x10 + d, t[6..]))
  }

  /** Symbols up to the closing quote, and the text after it. */
  function ReadBody(t: Text): (r: Option<(Text, Text)>)
    ensures r.Some? ==> |r.value.1| < |t|
    decreases |t|
  {
    if t == [] then None
    else if t[0] == QUOTE then Some(([], t[1..]))
    else
      match ReadSymbol(t)
      case None => None
      case Some((u, rest)) =>
        match ReadBody(rest)
        case None => None
        case Some((us, after)) => Some(([u] + us, after))
  }

  lemma HexDigitRoundTrip(d: int)
    requires 0 <= d < 16
    ensures HexValue(HexDigit(d)) == d
  {
  }

  lemma SecondQuotient(u: nat)
    ensures u / 0x100 == u / 0x10 / 0x10
  {
  }

  lemma ThirdQuotient(u: nat)
    ensures u / 0x1000 == u / 0x100 / 0x10
  {
  }

  lemma HexRoundTrip(u: Unit)
    ensures HexValue(HexDigit(u / 0x1000)) * 0x1000 + HexValue(HexDigit(u / 0x100 % 16)) * 0x100
            + HexValue(HexDigit(u / 0x10 % 16)) * 0x10 + HexValue(HexDigit(u % 16)) == u
  {
    HexDigitRoundTrip(u / 0x1000);
    HexDigitRoundTrip(u / 0x100 % 16);
    HexDigitRoundTrip(u / 0x10 % 16);
    HexDigitRoundTrip(u % 16);
    SecondQuotient(u);
    ThirdQuotient(u);
  }

  lemma SymbolRoundTrip(ascii: bool, u: CodePoint, rest: Text)
    requires SymbolOk(ascii, u)
    ensures ReadSymbol(Escape(ascii, u) + rest) == Some((u, rest))
  {
    var t := Escape(ascii, u) + rest;
    assert t[|Escape(ascii, u)|..] == rest;
    if ShortEscape(u) == 0 && (u < 0x20 || (ascii && u > 0x7E)) {
      HexRoundTrip(u);
      assert t[2..6] == Hex4(u);
    }
  }

  lemma Regroup<T>(a: seq<T>, b: seq<T>, c: seq<T>, d: seq<T>)
    ensures a + b + c + d == a + (b + c + d)
    ensures a + b + c == a + (b + c)
  {
  }

  lemma ReadBodyStep(t: Text, u: CodePoint, rest: Text, us: Text, after: Text)
    requires t != [] && t[0] != QUOTE
    requires ReadSymbol(t) == Some((u, rest)) && ReadBody(rest) == Some((us, after))
    ensures ReadBody(t) == Some(([u] + us, after))
  {
  }

  lemma BodyRoundTripStep(ascii: bool, u: CodePoint, tail: Text, us: Text, rest: Text)
    requires SymbolOk(ascii, u) && ReadBody(tail) == Some((us, rest))
    ensures ReadBody(Escape(ascii, u) + tail) == Some(([u] + us, rest))
  {
    SymbolRoundTrip(ascii, u, tail);
    ReadBodyStep(Escape(ascii, u) + tail, u, tail, us, rest);
  }

  lemma {:induction false} BodyRoundTrip(ascii: bool, us: Text, rest: Text)
    requires forall i :: 0 <= i < |us| ==> SymbolOk(ascii, us[i])
    ensures ReadBody(EscapeAll(ascii, us) + [QUOTE] + rest) == Some((us, rest))
  {
    if us == [] {
      assert (EscapeAll(ascii, us) + [QUOTE] + rest)[1..] == rest;
    } else {
      var tail := EscapeAll(ascii, us[1..]) + [QUOTE] + rest;
      BodyRoundTrip(ascii, us[1..], rest);
      BodyRoundTripStep(ascii, us[0], tail, us[1..], rest);
      Regroup(Escape(ascii, us[0]), EscapeAll(ascii, us[1..]), [QUOTE], rest);
      assert us == [us[0]] + us[1..];
    }
  }

  // ----- strings -----

  function Symbols(ascii: bool, s: Text): (us: Text)
    ensures forall i :: 0 <= i < |us| ==> SymbolOk(ascii, us[i])
  {
    if ascii then Units(s) else s
  }

  function PrintString(ascii: bool, s: Text): (t: Text)
    ensures t != [] && t[0] == QUOTE
  {
    [QUOTE] + EscapeAll(ascii, Symbols(ascii, s)) + [QUOTE]
  }

  /** What reading a printed string gives back: the string with split pairs joined. */
  function Recovered(ascii: bool, s: Text): Text {
    if ascii then Join(Units(s)) else s
  }

  function ReadString(ascii: bool, t: Text): (r: Option<(Text, Text)>)
    ensures r.Some? ==> |r.value.1| < |t|
  {
    if t == [] || t[0] != QUOTE then None
    else
      match ReadBody(t[1..])
      case None => None
      case Some((us, rest)) =>
        if !ascii then Some((us, rest))
        else if exists i :: 0 <= i < |us| && us[i] >= 0x10000 then None
        else Some((Join(us), rest))
  }

  lemma StringRoundTrip(ascii: bool, s: Text, rest: Text)
    ensures ReadString(ascii, PrintString(ascii, s) + rest) == Some((Recovered(ascii, s), rest))
  {
    var us := Symbols(ascii, s);
    BodyRoundTrip(ascii, us, rest);
    assert (PrintString(ascii, s) + rest)[1..] == EscapeAll(ascii, us) + [QUOTE] + rest;
  }

  // ----- what is printed, character by character -----

  /** Printable ASCII without quote and backslash. */
  ghost predicate Plain(s: Text) {
    forall i :: 0 <= i < |s| ==> 0x20 <= s[i] <= 0x7E && s[i] != 0x22 && s[i] != 0x5C
  }

  lemma {:induction false} PlainUnits(s: Text)
    requires Plain(s)
    ensures Units(s) == s
  {
    if s != [] {
      PlainUnits(s[1..]);
      assert s == [s[0]] + s[1..];
    }
  }

  lemma {:induction false} PlainEscapes(ascii: bool, s: Text)
    requires Plain(s)
    ensures (forall i :: 0 <= i < |s| ==> SymbolOk(ascii, s[i])) && EscapeAll(ascii, s) == s
  {
    if s != [] {
      PlainEscapes(ascii, s[1..]);
      assert s == [s[0]] + s[1..];
    }
  }

  /** Plain text is printed as it is, between quotes, in both modes. */
  lemma PlainPrints(ascii: bool, s: Text)
    requires Plain(s)
    ensures PrintString(ascii, s) == [0x22] + s + [0x22]
  {
    PlainUnits(s);
    PlainEscapes(ascii, s);
  }

  lemma {:induction false} EscapeConcat(ascii: bool, us: Text, vs: Text)
    requires forall i :: 0 <= i < |us| ==> SymbolOk(ascii, us[i])
    requires forall i :: 0 <= i < |vs| ==> SymbolOk(ascii, vs[i])
    ensures forall i :: 0 <= i < |us + vs| ==> SymbolOk(ascii, (us + vs)[i])
    ensures EscapeAll(ascii, us + vs) == EscapeAll(ascii, us) + EscapeAll(ascii, vs)
  {
    if us == [] {
      assert us + vs == vs;
    } else {
      EscapeConcat(ascii, us[1..], vs);
      assert (us + vs)[0] == us[0] && (us + vs)[1..] == us[1..] + vs;
      Associates(Escape(ascii, us[0]), EscapeAll(ascii, us[1..]), EscapeAll(ascii, vs));
    }
  }

  /** What is printed between the quotes. */
  function Body(ascii: bool, s: Text): Text {
    PrintString(ascii, s)[1..|PrintString(ascii, s)| - 1]
  }

  /** A string is printed piece by piece between two quotes. */
  lemma PrintConcat(ascii: bool, s: Text, t: Text)
    ensures PrintString(ascii, s + t) == [0x22] + Body(ascii, s) + Body(ascii, t) + [0x22]
  {
    UnitsConcat(s, t);
    EscapeConcat(ascii, Symbols(ascii, s), Symbols(ascii, t));
    BodyIs(ascii, s);
    BodyIs(ascii, t);
    Associates([QUOTE], Body(ascii, s), Body(ascii, t));
  }

  lemma BodyIs(ascii: bool, s: Text)
    ensures Body(ascii, s) == EscapeAll(ascii, Symbols(ascii, s))
  {
  }

  const HEX_DIGITS: Text := Lit("0123456789abcdef")

  /** A backslash, the letter u and the four lowercase hexadecimal digits of `u`. */
  ghost predicate SpellsUnit(t: Text, u: int) {
    && |t| == 6 && t[0] == 0x5C && t[1] == 0x75
    && exists a, b, c, d :: Spells(t, u, a, b, c, d)
  }

  ghost predicate Spells(t: Text, u: int, a: int, b: int, c: int, d: int)
    requires |t| == 6
  {
    && 0 <= a < 16 && 0 <= b < 16 && 0 <= c < 16 && 0 <= d < 16 && u == 0x1000 * a + 0x100 * b + 0x10 * c + d
    && t[2] == HEX_DIGITS[a] && t[3] == HEX_DIGITS[b] && t[4] == HEX_DIGITS[c] && t[5] == HEX_DIGITS[d]
  }

  lemma HexDigitIs(d: int)
    requires 0 <= d < 16
    ensures HexDigit(d) == HEX_DIGITS[d]
  {
  }

  lemma HexSpells(u: Unit)
    ensures SpellsUnit([BACKSLASH, 0x75] + Hex4(u), u)
  {
    var a, b, c, d := u / 0x1000, u / 0x100 % 16, u / 0x10 % 16, u % 16;
    HexDigitIs(a);
    HexDigitIs(b);
    HexDigitIs(c);
    HexDigitIs(d);
    SecondQuotient(u);
    ThirdQuotient(u);
    assert Spells([BACKSLASH, 0x75] + Hex4(u), u, a, b, c, d);
  }

  /** The seven two-character escapes, in both modes. */
  lemma ShortEscapesPrint(ascii: bool)
    ensures Body(ascii, [0x22]) == Lit("\\\"") && Body(ascii, [0x5C]) == Lit("\\\\")
    ensures Body(ascii, [0x08]) == Lit("\\b") && Body(ascii, [0x0C]) == Lit("\\f") && Body(ascii, [0x0A]) == Lit("\\n")
    ensures Body(ascii, [0x0D]) == Lit("\\r") && Body(ascii, [0x09]) == Lit("\\t")
  {
    ShortBody(ascii, 0x22, "\\\"");
    ShortBody(ascii, 0x5C, "\\\\");
    ShortBody(ascii, 0x08, "\\b");
    ShortBody(ascii, 0x0C, "\\f");
    ShortBody(ascii, 0x0A, "\\n");
    ShortBody(ascii, 0x0D, "\\r");
    ShortBody(ascii, 0x09, "\\t");
  }

  lemma ShortBody(ascii: bool, c: CodePoint, escape: string)
    requires HasShortEscape(c) && |escape| == 2 && escape[0] as int == 0x5C && escape[1] as int == ShortEscape(c)
    ensures Body(ascii, [c]) == Lit(escape)
  {
    UnitBody(ascii, c);
    assert Lit(escape) == [0x5C, ShortEscape(c)];
  }

  lemma UnitBody(ascii: bool, c: CodePoint)
    requires SymbolOk(ascii, c)
    ensures Body(ascii, [c]) == Escape(ascii, c)
  {
    UnitsOfOne(c);
    assert Symbols(ascii, [c]) == [c] && [c][1..] == [];
    assert EscapeAll(ascii, [c]) == Escape(ascii, c);
  }

  predicate HasShortEscape(c: CodePoint) {
    c in {0x22, 0x5C, 0x08, 0x09, 0x0A, 0x0C, 0x0D}
  }

  /** Every other character: itself, or the hexadecimal digits of its UTF-16 units. */
  lemma OthersPrint(ascii: bool, c: CodePoint)
    requires !HasShortEscape(c)
    ensures 0x20 <= c <= 0x7E || (!ascii && c > 0x7E) ==> Body(ascii, [c]) == [c]
    ensures c < 0x20 || (ascii && 0x7E < c < 0x10000) ==> SpellsUnit(Body(ascii, [c]), c)
    ensures ascii && c >= 0x10000 ==>
              |Body(ascii, [c])| == 12
              && SpellsUnit(Body(ascii, [c])[..6], 0xD800 + (c - 0x10000) / 0x400)
              && SpellsUnit(Body(ascii, [c])[6..], 0xDC00 + (c - 0x10000) % 0x400)
  {
    if SymbolOk(ascii, c) {
      UnitBody(ascii, c);
      if c < 0x10000 {
        HexSpells(c);
      }
    } else {
      PairBody(c);
    }
  }

  lemma PairBody(c: CodePoint)
    requires c >= 0x10000
    ensures |Body(true, [c])| == 12
    ensures SpellsUnit(Body(true, [c])[..6], 0xD800 + (c - 0x10000) / 0x400)
    ensures SpellsUnit(Body(true, [c])[6..], 0xDC00 + (c - 0x10000) % 0x400)
  {
    PairUnits(c);
    PairSpells(c, HighOf(c), LowOf(c));
  }

  lemma PairSpells(c: CodePoint, h: Unit, l: Unit)
    requires Units([c]) == [h, l] && h > 0x7E && l > 0x7E
    ensures |Body(true, [c])| == 12 && SpellsUnit(Body(true, [c])[..6], h) && SpellsUnit(Body(true, [c])[6..], l)
  {
    BodyIs(true, [c]);
    PairEscapes(h, l);
    HexSpells(h);
    HexSpells(l);
    var a, b := [BACKSLASH, 0x75] + Hex4(h), [BACKSLASH, 0x75] + Hex4(l);
    assert Body(true, [c]) == a + b;
    assert (a + b)[..6] == a && (a + b)[6..] == b;
  }

  lemma PairEscapes(h: Unit, l: Unit)
    requires h > 0x7E && l > 0x7E
    ensures EscapeAll(true, [h, l]) == ([BACKSLASH, 0x75] + Hex4(h)) + ([BACKSLASH, 0x75] + Hex4(l))
  {
    EscapeConcat(true, [h], [l]);
    assert [h] + [l] == [h, l] && [h][1..] == [] && [l][1..] == [];
  }

  lemma PairUnits(c: CodePoint)
    requires c >= 0x10000
    ensures Units([c]) == [HighOf(c), LowOf(c)]
  {
    assert [c][1..] == [];
  }

  // ----- values and objects -----

  /** The values the source ever writes; the one number is the schema version. */
  datatype Value = Null | Version2 | Str(text: Text)

  function PrintValue(ascii: bool, v: Value): (t: Text)
    ensures t != []
  {
    match v
    case Null => [0x6E, 0x75, 0x6C, 0x6C]
    case Version2 => [0x32]
    case Str(s) => PrintString(ascii, s)
  }

  function ReadValue(ascii: bool, t: Text): (r: Option<(Value, Text)>)
    ensures r.Some? ==> |r.value.1| < |t|
  {
    if t == [] then None
    else if t[0] == 0x32 then Some((Version2, t[1..]))
    else if |t| >= 4 && t[..4] == [0x6E, 0x75, 0x6C, 0x6C] then Some((Null, t[4..]))
    else
      match ReadString(ascii, t)
      case None => None
      case Some((s, rest)) => Some((Str(s), rest))
  }

  function RecoveredValue(ascii: bool, v: Value): Value {
    if v.Str? then Str(Recovered(ascii, v.text)) else v
  }

  lemma ValueRoundTrip(ascii: bool, v: Value, rest: Text)
    ensures ReadValue(ascii, PrintValue(ascii, v) + rest) == Some((RecoveredValue(ascii, v), rest))
  {
    var t := PrintValue(ascii, v) + rest;
    match v
    case Null => assert t[4..] == rest;
    case Version2 => assert t[1..] == rest;
    case Str(s) =>
      StringRoundTrip(ascii, s, rest);
      assert t[0] == QUOTE;
  }

  type Item = (Text, Value)

  function PrintItem(ascii: bool, item: Item): Text {
    PrintString(ascii, item.0) + [COLON] + PrintValue(ascii, item.1)
  }

  function PrintItems(ascii: bool, items: seq<Item>): Text {
    if items == [] then [CLOSE]
    else PrintItem(ascii, items[0]) + (if |items| == 1 then [] else [COMMA]) + PrintItems(ascii, items[1..])
  }

  function PrintObject(ascii: bool, items: seq<Item>): Text {
    [OPEN] + PrintItems(ascii, items)
  }

  function ReadItem(ascii: bool, t: Text): (r: Option<(Item, Text)>)
    ensures r.Some? ==> |r.value.1| < |t|
  {
    match ReadString(ascii, t)
    case None => None
    case Some((key, rest)) =>
      if rest == [] || rest[0] != COLON then None
      else
        match ReadValue(ascii, rest[1..])
        case None => None
        case Some((v, after)) => Some(((key, v), after))
  }

  function ReadItems(ascii: bool, t: Text): Option<seq<Item>>
    decreases |t|
  {
    if t == [CLOSE] then Some([])
    else
      match ReadItem(ascii, t)
      case None => None
      case Some((item, rest)) =>
        if rest == [CLOSE] then Some([item])
        else if rest == [] || rest[0] != COMMA || rest[1..] == [CLOSE] then None
        else
          match ReadItems(ascii, rest[1..])
          case None => None
          case Some(items) => Some([item] + items)
  }

  function Read(ascii: bool, t: Text): Option<seq<Item>> {
    if t == [] || t[0] != OPEN then None else ReadItems(ascii, t[1..])
  }

  function RecoveredItem(ascii: bool, item: Item): Item {
    (Recovered(ascii, item.0), RecoveredValue(ascii, item.1))
  }

  function RecoveredItems(ascii: bool, items: seq<Item>): seq<Item> {
    seq(|items|, i requires 0 <= i < |items| => RecoveredItem(ascii, items[i]))
  }

  lemma ItemRoundTrip(ascii: bool, item: Item, rest: Text)
    ensures ReadItem(ascii, PrintItem(ascii, item) + rest) == Some((RecoveredItem(ascii, item), rest))
  {
    var key, value := PrintString(ascii, item.0), PrintValue(ascii, item.1);
    StringRoundTrip(ascii, item.0, [COLON] + (value + rest));
    ValueRoundTrip(ascii, item.1, rest);
    ReadItemStep(ascii, key + ([COLON] + (value + rest)), Recovered(ascii, item.0), value + rest,
                 RecoveredValue(ascii, item.1), rest);
    Fourfold(key, [COLON], value, rest);
  }

  lemma Fourfold<T>(a: seq<T>, b: seq<T>, c: seq<T>, d: seq<T>)
    ensures a + b + c + d == a + (b + (c + d))
  {
  }

  lemma ReadItemStep(ascii: bool, t: Text, key: Text, after: Text, v: Value, rest: Text)
    requires ReadString(ascii, t) == Some((key, [COLON] + after)) && ReadValue(ascii, after) == Some((v, rest))
    ensures ReadItem(ascii, t) == Some(((key, v), rest))
  {
    assert ([COLON] + after)[1..] == after;
  }

  lemma ReadItemsStep(ascii: bool, t: Text, item: Item, more: Text, items: seq<Item>)
    requires t != [CLOSE] && more != [CLOSE]
    requires ReadItem(ascii, t) == Some((item, [COMMA] + more)) && ReadItems(ascii, more) == Some(items)
    ensures ReadItems(ascii, t) == Some([item] + items)
  {
    assert ([COMMA] + more)[1..] == more;
  }

  lemma PrintItemsHead(ascii: bool, items: seq<Item>)
    requires items != []
    ensures PrintItems(ascii, items) != [] && PrintItems(ascii, items)[0] == QUOTE
  {
  }

  lemma {:induction false} ItemsRoundTrip(ascii: bool, items: seq<Item>)
    ensures ReadItems(ascii, PrintItems(ascii, items)) == Some(RecoveredItems(ascii, items))
  {
    if |items| == 1 {
      LastItemRoundTrip(ascii, items);
    } else if items != [] {
      ItemsRoundTrip(ascii, items[1..]);
      MoreItemsRoundTrip(ascii, items);
    } else {
      assert RecoveredItems(ascii, items) == [];
    }
  }

  lemma LastItemRoundTrip(ascii: bool, items: seq<Item>)
    requires |items| == 1
    ensures ReadItems(ascii, PrintItems(ascii, items)) == Some(RecoveredItems(ascii, items))
  {
    ItemRoundTrip(ascii, items[0], [CLOSE]);
    assert items[1..] == [];
    assert PrintItems(ascii, items) == PrintItem(ascii, items[0]) + [CLOSE];
    PrintItemsHead(ascii, items);
    assert RecoveredItems(ascii, items) == [RecoveredItem(ascii, items[0])];
  }

  lemma MoreItemsRoundTrip(ascii: bool, items: seq<Item>)
    requires |items| > 1
    requires ReadItems(ascii, PrintItems(ascii, items[1..])) == Some(RecoveredItems(ascii, items[1..]))
    ensures ReadItems(ascii, PrintItems(ascii, items)) == Some(RecoveredItems(ascii, items))
  {
    var more := PrintItems(ascii, items[1..]);
    PrintItemsMore(ascii, items);
    ItemRoundTrip(ascii, items[0], [COMMA] + more);
    PrintItemsHead(ascii, items);
    PrintItemsHead(ascii, items[1..]);
    ReadItemsStep(ascii, PrintItems(ascii, items), RecoveredItem(ascii, items[0]), more,
                  RecoveredItems(ascii, items[1..]));
    RecoveredMore(ascii, items);
  }

  lemma PrintItemsMore(ascii: bool, items: seq<Item>)
    requires |items| > 1
    ensures PrintItems(ascii, items) == PrintItem(ascii, items[0]) + ([COMMA] + PrintItems(ascii, items[1..]))
  {
    Regroup(PrintItem(ascii, items[0]), [COMMA], PrintItems(ascii, items[1..]), []);
  }

  lemma RecoveredMore(ascii: bool, items: seq<Item>)
    requires items != []
    ensures RecoveredItems(ascii, items) == [RecoveredItem(ascii, items[0])] + RecoveredItems(ascii, items[1..])
  {
  }

  /** A plain key between quotes, and the colon. */
  function Label(key: Text): Text {
    [0x22] + key + [0x22, 0x3A]
  }

  lemma LabelPrints(ascii: bool, key: Text, v: Value)
    requires Plain(key)
    ensures PrintItem(ascii, (key, v)) == Label(key) + PrintValue(ascii, v)
  {
    PlainPrints(ascii, key);
    assert [0x22, 0x3A] == [0x22] + [COLON];
    Regroup([0x22] + key, [0x22], [COLON], PrintValue(ascii, v));
  }

  lemma LabelIs(key: Text)
    ensures [OPEN] + Label(key) == Lit("{\"") + key + Lit("\":") && [COMMA] + Label(key) == Lit(",\"") + key + Lit("\":")
  {
    assert Lit("{\"") == [OPEN, 0x22] && Lit(",\"") == [COMMA, 0x22] && Lit("\":") == [0x22, 0x3A];
  }

  /** Reading a printed object gives back its items, whatever characters they hold. */
  lemma ObjectRoundTrip(ascii: bool, items: seq<Item>)
    ensures Read(ascii, PrintObject(ascii, items)) == Some(RecoveredItems(ascii, items))
  {
    ItemsRoundTrip(ascii, items);
    assert PrintObject(ascii, items)[1..] == PrintItems(ascii, items);
  }

  lemma PlainObjectReads(items: seq<Item>)
    ensures Read(false, PrintObject(false, items)) == Some(items)
  {
    ObjectRoundTrip(false, items);
    forall i | 0 <= i < |items| ensures RecoveredItem(false, items[i]) == items[i] {
    }
    assert RecoveredItems(false, items) == items;
  }

  // ----- the canonical text of a dictionary -----

  predicate PointLess(a: CodePoint, b: CodePoint) {
    a < b
  }

  predicate ItemLeq(a: Item, b: Item) {
    LexLeq(PointLess, a.0, b.0)
  }

  /** A dictionary in insertion order: its keys differ. */
  ghost predicate DistinctKeys(d: seq<Item>) {
    forall i, j :: 0 <= i < j < |d| ==> d[i].0 != d[j].0
  }

  /** `json.dumps(d, sort_keys=True, separators=(",", ":"), ensure_ascii=ascii)`. */
  function Canonical(ascii: bool, d: seq<Item>): Text {
    PrintObject(ascii, Sort(ItemLeq, d))
  }

  lemma ItemOrder()
    ensures TotalPreorder(ItemLeq)
  {
    assert StrictTotal(PointLess);
    forall a: Item, b: Item ensures ItemLeq(a, b) || ItemLeq(b, a) {
      LexTotal(PointLess, a.0, b.0);
    }
    forall a: Item, b: Item, c: Item | ItemLeq(a, b) && ItemLeq(b, c) ensures ItemLeq(a, c) {
      LexTransitive(PointLess, a.0, b.0, c.0);
    }
  }

  lemma DistinctKeysNoTies(d: seq<Item>)
    requires DistinctKeys(d)
    ensures NoTies(ItemLeq, multiset(d))
  {
    assert StrictTotal(PointLess);
    forall a, b | a in multiset(d) && b in multiset(d) && ItemLeq(a, b) && ItemLeq(b, a) ensures a == b {
      LexTotal(PointLess, a.0, b.0);
      var i :| 0 <= i < |d| && d[i] == a;
      var j :| 0 <= j < |d| && d[j] == b;
      assert i == j;
    }
  }

  /** With `ensure_ascii` off, two dictionaries have the same canonical text exactly when they
      hold the same items: insertion order never shows, and nothing else is lost. */
  lemma CanonicalIffSameItems(d: seq<Item>, e: seq<Item>)
    requires DistinctKeys(d)
    ensures Canonical(false, d) == Canonical(false, e) <==> multiset(d) == multiset(e)
  {
    ItemOrder();
    DistinctKeysNoTies(d);
    SortedEqualIffSameContents(ItemLeq, d, e);
    PlainObjectReads(Sort(ItemLeq, d));
    PlainObjectReads(Sort(ItemLeq, e));
  }

  ghost predicate Unsplit(item: Item) {
    NoSplitPair(item.0) && (item.1.Str? ==> NoSplitPair(item.1.text))
  }

  lemma AsciiObjectReads(items: seq<Item>)
    requires forall i :: 0 <= i < |items| ==> Unsplit(items[i])
    ensures Read(true, PrintObject(true, items)) == Some(items)
  {
    ObjectRoundTrip(true, items);
    forall i | 0 <= i < |items| ensures RecoveredItem(true, items[i]) == items[i] {
      assert Unsplit(items[i]);
      JoinLength(items[i].0);
      if items[i].1.Str? {
        JoinLength(items[i].1.text);
      }
    }
    assert RecoveredItems(true, items) == items;
  }

  lemma SortKeepsUnsplit(d: seq<Item>)
    requires forall i :: 0 <= i < |d| ==> Unsplit(d[i])
    ensures forall i :: 0 <= i < |Sort(ItemLeq, d)| ==> Unsplit(Sort(ItemLeq, d)[i])
  {
    SortContents(ItemLeq, d);
    forall i | 0 <= i < |Sort(ItemLeq, d)| ensures Unsplit(Sort(ItemLeq, d)[i]) {
      assert Sort(ItemLeq, d)[i] in multiset(d);
    }
  }

  /** With `ensure_ascii` on, the same holds of dictionaries without split pairs. */
  lemma AsciiCanonicalIffSameItems(d: seq<Item>, e: seq<Item>)
    requires DistinctKeys(d)
    requires forall i :: 0 <= i < |d| ==> Unsplit(d[i])
    requires forall i :: 0 <= i < |e| ==> Unsplit(e[i])
    ensures Canonical(true, d) == Canonical(true, e) <==> multiset(d) == multiset(e)
  {
    ItemOrder();
    DistinctKeysNoTies(d);
    SortedEqualIffSameContents(ItemLeq, d, e);
    SortKeepsUnsplit(d);
    SortKeepsUnsplit(e);
    AsciiObjectReads(Sort(ItemLeq, d));
    AsciiObjectReads(Sort(ItemLeq, e));
  }

  /** With `ensure_ascii` on, the text is still independent of the insertion order. */
  lemma CanonicalIgnoresOrder(ascii: bool, d: seq<Item>, e: seq<Item>)
    requires DistinctKeys(d) && multiset(d) == multiset(e)
    ensures Canonical(ascii, d) == Canonical(ascii, e)
  {
    ItemOrder();
    DistinctKeysNoTies(d);
    SortedEqualIffSameContents(ItemLeq, d, e);
  }

  // ----- with `ensure_ascii` on, every character is printable ASCII -----

  ghost predicate Printable(t: Text) {
    forall i :: 0 <= i < |t| ==> 0x20 <= t[i] <= 0x7E
  }

  lemma {:induction false} EscapedPrintable(us: Text)
    requires forall i :: 0 <= i < |us| ==> SymbolOk(true, us[i])
    ensures Printable(EscapeAll(true, us))
  {
    if us != [] {
      EscapedPrintable(us[1..]);
      assert Printable(Escape(true, us[0]));
    }
  }

  lemma StringPrintable(s: Text)
    ensures Printable(PrintString(true, s))
  {
    EscapedPrintable(Symbols(true, s));
  }

  lemma {:induction false} ItemsPrintable(items: seq<Item>)
    ensures Printable(PrintItems(true, items))
  {
    if items != [] {
      ItemsPrintable(items[1..]);
      ItemPrintable(items[0]);
      var separator := if |items| == 1 then [] else [COMMA];
      PrintableConcat(PrintItem(true, items[0]), separator);
      PrintableConcat(PrintItem(true, items[0]) + separator, PrintItems(true, items[1..]));
    }
  }

  lemma PrintableConcat(a: Text, b: Text)
    requires Printable(a) && Printable(b)
    ensures Printable(a + b)
  {
  }

  lemma ItemPrintable(item: Item)
    ensures Printable(PrintItem(true, item))
  {
    StringPrintable(item.0);
    ValuePrintable(item.1);
    PrintableConcat(PrintString(true, item.0), [COLON]);
    PrintableConcat(PrintString(true, item.0) + [COLON], PrintValue(true, item.1));
  }

  lemma ValuePrintable(v: Value)
    ensures Printable(PrintValue(true, v))
  {
    if v.Str? {
      StringPrintable(v.text);
    }
  }

  /** The ASCII form always encodes, even when the strings hold lone surrogates. */
  lemma AsciiFormEncodes(d: seq<Item>)
    ensures Printable(Canonical(true, d))
    ensures Encode(Canonical(true, d)).Some?
  {
    ItemsPrintable(Sort(ItemLeq, d));
    EncodeTotal(Canonical(true, d));
  }

  // ----- with `ensure_ascii` off, surrogates are what the text keeps of its strings -----

  ghost predicate ScalarItem(item: Item) {
    Scalar(item.0) && (item.1.Str? ==> Scalar(item.1.text))
  }

  lemma {:induction false} EscapedScalar(us: Text)
    ensures Scalar(EscapeAll(false, us)) <==> Scalar(us)
  {
    if us != [] {
      EscapedScalar(us[1..]);
      ScalarConcat(Escape(false, us[0]), EscapeAll(false, us[1..]));
      ScalarConcat([us[0]], us[1..]);
      assert us == [us[0]] + us[1..];
      assert Scalar(Escape(false, us[0])) <==> Scalar([us[0]]) by {
        assert Escape(false, us[0])[0] == us[0] || ShortEscape(us[0]) != 0 || us[0] < 0x20;
        assert [us[0]][0] == us[0];
      }
    }
  }

  lemma ScalarConcat(a: Text, b: Text)
    ensures Scalar(a + b) <==> Scalar(a) && Scalar(b)
  {
    if Scalar(a + b) {
      forall i | 0 <= i < |a| ensures !Surrogate(a[i]) { assert (a + b)[i] == a[i]; }
      forall i | 0 <= i < |b| ensures !Surrogate(b[i]) { assert (a + b)[|a| + i] == b[i]; }
    }
  }

  lemma StringScalar(s: Text)
    ensures Scalar(PrintString(false, s)) <==> Scalar(s)
  {
    EscapedScalar(s);
    ScalarConcat([QUOTE], EscapeAll(false, s));
    ScalarConcat([QUOTE] + EscapeAll(false, s), [QUOTE]);
  }

  lemma ItemScalar(item: Item)
    ensures Scalar(PrintItem(false, item)) <==> ScalarItem(item)
  {
    StringScalar(item.0);
    if item.1.Str? {
      StringScalar(item.1.text);
    }
    ScalarConcat(PrintString(false, item.0), [COLON]);
    ScalarConcat(PrintString(false, item.0) + [COLON], PrintValue(false, item.1));
  }

  lemma {:induction false} ItemsScalar(items: seq<Item>)
    ensures Scalar(PrintItems(false, items)) <==> forall i :: 0 <= i < |items| ==> ScalarItem(items[i])
  {
    if items != [] {
      ItemsScalar(items[1..]);
      ItemScalar(items[0]);
      var first := PrintItem(false, items[0]);
      var comma: Text := if |items| == 1 then [] else [COMMA];
      ScalarConcat(first, comma);
      ScalarConcat(first + comma, PrintItems(false, items[1..]));
      assert items == [items[0]] + items[1..];
    }
  }

  /** The plain form encodes exactly when no string of the dictionary holds a surrogate. */
  lemma PlainFormEncodes(d: seq<Item>)
    ensures Encode(Canonical(false, d)).Some? <==> forall i :: 0 <= i < |d| ==> ScalarItem(d[i])
  {
    var items := Sort(ItemLeq, d);
    ItemsScalar(items);
    ScalarConcat([OPEN], PrintItems(false, items));
    EncodeTotal(Canonical(false, d));
    SortContents(ItemLeq, d);
    assert forall i :: 0 <= i < |d| ==> d[i] in multiset(items);
    assert forall i :: 0 <= i < |items| ==> items[i] in multiset(d);
  }
}
