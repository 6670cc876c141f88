/**
 Python strings, their UTF-16 code units and their UTF-8 bytes. A Python string is a
 sequence of code points and may hold lone surrogates; UTF-16 units of a surrogate are the
 surrogate itself, and UTF-8 encoding refuses it.
 */
module Unicode {
  import opened Wrappers

  type CodePoint = c: int | 0 <= c < 0x110000
  type Unit = u: int | 0 <= u < 0x10000
  type Byte = b: int | 0 <= b < 0x100

  type Text = seq<CodePoint>

  /** A literal of the source, all of it ASCII there. */
  function Lit(s: string): (t: Text)
    ensures |t| == |s|
    ensures forall i :: 0 <= i < |s| ==> t[i] == s[i] as int
  {
    seq(|s|, i requires 0 <= i < |s| => s[i] as int)
  }

  // ----- UTF-16 units -----

  predicate High(u: int) { 0xD800 <= u < 0xDC00 }
  predicate Low(u: int) { 0xDC00 <= u < 0xE000 }
  predicate Surrogate(c: int) { 0xD800 <= c < 0xE000 }

  function HighOf(c: CodePoint): (u: Unit)
    requires c >= 0x10000
    ensures High(u)
  {
    0xD800 + (c - 0x10000) / 0x400
  }

  function LowOf(c: CodePoint): (u: Unit)
    requires c >= 0x10000
    ensures Low(u)
  {
    0xDC00 + (c - 0x10000) % 0x400
  }

  function Pair(h: Unit, l: Unit): (c: CodePoint)
    requires High(h) && Low(l)
    ensures c >= 0x10000 && HighOf(c) == h && LowOf(c) == l
  {
    0x10000 + (h - 0xD800) * 0x400 + (l - 0xDC00)
  }

  function Units(s: Text): seq<Unit> {
    if s == [] then []
    else if s[0] < 0x10000 then [s[0]] + Units(s[1..])
    else [HighOf(s[0]), LowOf(s[0])] + Units(s[1..])
  }

  /** Below 0x10000 a point is its own unit; above, section 2.1 of RFC 2781 gives its two. */
  lemma UnitsOfOne(c: CodePoint)
    ensures var us: seq<int> := Units([c]);
            if c < 0x10000 then us == [c]
            else
              && |us| == 2 && 0xD800 <= us[0] <= 0xDBFF && 0xDC00 <= us[1] <= 0xDFFF
              && c == 0x10000 + 0x400 * (us[0] - 0xD800) + us[1] - 0xDC00
  {
    assert [c][1..] == [];
  }

  lemma UnitsFirst(c: CodePoint, t: Text)
    ensures Units([c] + t) == Units([c]) + Units(t)
  {
    assert ([c] + t)[1..] == t && [c][1..] == [];
  }

  lemma {:induction false} UnitsConcat(s: Text, t: Text)
    ensures Units(s + t) == Units(s) + Units(t)
  {
    if s == [] {
      assert s + t == t;
    } else {
      UnitsConcat(s[1..], t);
      UnitsTogether(s[0], s[1..], t);
      assert s == [s[0]] + s[1..] && s + t == [s[0]] + (s[1..] + t);
    }
  }

  lemma UnitsTogether(c: CodePoint, s: Text, t: Text)
    requires Units(s + t) == Units(s) + Units(t)
    ensures Units([c] + (s + t)) == Units([c] + s) + Units(t)
  {
    UnitsFirst(c, s);
    UnitsFirst(c, s + t);
    Associates(Units([c]), Units(s), Units(t));
  }

  lemma Associates<T>(a: seq<T>, b: seq<T>, c: seq<T>)
    ensures a + (b + c) == a + b + c
  {
  }

  /** Reading units back: a high unit followed by a low one is one code point. */
  function Join(us: seq<Unit>): Text {
    if us == [] then []
    else if |us| >= 2 && High(us[0]) && Low(us[1]) then [Pair(us[0], us[1])] + Join(us[2..])
    else [us[0]] + Join(us[1..])
  }

  /** Two separate code points that read back as one. */
  predicate SplitPairAt(s: Text, i: int) {
    0 <= i && i + 1 < |s| && High(s[i]) && Low(s[i + 1])
  }

  ghost predicate NoSplitPair(s: Text) {
    forall i :: !SplitPairAt(s, i)
  }

  lemma {:induction false} UnitsJoin(us: seq<Unit>)
    ensures Units(Join(us)) == us
  {
    if us == [] {
    } else if |us| >= 2 && High(us[0]) && Low(us[1]) {
      UnitsJoin(us[2..]);
      var s := Join(us);
      assert s[0] == Pair(us[0], us[1]) && s[1..] == Join(us[2..]);
      assert us == [us[0], us[1]] + us[2..];
    } else {
      UnitsJoin(us[1..]);
      var s := Join(us);
      assert s[0] == us[0] && s[1..] == Join(us[1..]);
      assert us == [us[0]] + us[1..];
    }
  }

  /** How the first code point of `s` sits at the front of its units. */
  lemma UnitsHead(s: Text)
    requires s != []
    ensures Units(s) != []
    ensures s[0] >= 0x10000 ==> |Units(s)| >= 2 && Units(s)[0] == HighOf(s[0]) && Units(s)[1] == LowOf(s[0])
                                && Units(s)[2..] == Units(s[1..])
    ensures s[0] < 0x10000 ==> Units(s)[0] == s[0] && Units(s)[1..] == Units(s[1..])
    ensures Low(Units(s)[0]) <==> Low(s[0])
  {
  }

  lemma {:induction false} JoinLength(s: Text)
    ensures |Join(Units(s))| <= |s|
    ensures Join(Units(s)) == s <==> NoSplitPair(s)
    ensures NoSplitPair(s) || |Join(Units(s))| < |s|
  {
    if s == [] {
    } else {
      JoinLength(s[1..]);
      JoinHead(s);
      forall i | SplitPairAt(s[1..], i) ensures SplitPairAt(s, i + 1) {
      }
      forall i | SplitPairAt(s, i) && i > 0 ensures SplitPairAt(s[1..], i - 1) {
      }
      assert s == [s[0]] + s[1..];
    }
  }

  lemma JoinHead(s: Text)
    requires s != []
    requires |Join(Units(s[1..]))| <= |s| - 1
    ensures !SplitPairAt(s, 0) ==> Join(Units(s)) == [s[0]] + Join(Units(s[1..]))
    ensures SplitPairAt(s, 0) ==> |Join(Units(s))| < |s|
  {
    if s[0] >= 0x10000 {
      JoinHeadPair(s);
    } else if SplitPairAt(s, 0) {
      JoinHeadSplit(s);
    } else {
      JoinHeadSingle(s);
    }
  }

  lemma JoinHeadPair(s: Text)
    requires s != [] && s[0] >= 0x10000
    ensures Join(Units(s)) == [s[0]] + Join(Units(s[1..]))
  {
    UnitsHead(s);
    JoinPair(Units(s));
    PairOfParts(s[0]);
  }

  lemma JoinHeadSplit(s: Text)
    requires SplitPairAt(s, 0)
    requires |Join(Units(s[1..]))| <= |s| - 1
    ensures |Join(Units(s))| < |s|
  {
    UnitsHead(s);
    UnitsHead(s[1..]);
    var us := Units(s);
    assert us[1..] == Units(s[1..]);
    JoinPair(us);
    JoinSingle(us[1..]);
    assert us[2..] == us[1..][1..];
  }

  lemma JoinHeadSingle(s: Text)
    requires s != [] && s[0] < 0x10000 && !SplitPairAt(s, 0)
    ensures Join(Units(s)) == [s[0]] + Join(Units(s[1..]))
  {
    UnitsHead(s);
    if |s| > 1 {
      UnitsHead(s[1..]);
    }
    assert Units(s)[1..] == Units(s[1..]);
    JoinSingle(Units(s));
  }

  lemma PairOfParts(c: CodePoint)
    requires c >= 0x10000
    ensures Pair(HighOf(c), LowOf(c)) == c
  {
  }

  lemma JoinPair(us: seq<Unit>)
    requires |us| >= 2 && High(us[0]) && Low(us[1])
    ensures Join(us) == [Pair(us[0], us[1])] + Join(us[2..])
  {
  }

  lemma JoinSingle(us: seq<Unit>)
    requires us != [] && !(|us| >= 2 && High(us[0]) && Low(us[1]))
    ensures Join(us) == [us[0]] + Join(us[1..])
  {
  }

  /** Two strings have the same units exactly when they read back the same. */
  lemma SameUnits(s: Text, t: Text)
    ensures Units(s) == Units(t) <==> Join(Units(s)) == Join(Units(t))
  {
    UnitsJoin(Units(s));
    UnitsJoin(Units(t));
  }

  // ----- UTF-8 -----

  ghost predicate Scalar(s: Text) {
    forall i :: 0 <= i < |s| ==> !Surrogate(s[i])
  }

  function EncodePoint(c: CodePoint): (bs: seq<Byte>)
    ensures 1 <= |bs| <= 4
  {
    if c < 0x80 then [c]
    else if c < 0x800 then [0xC0 + c / 0x40, 0x80 + c % 0x40]
    else if c < 0x10000 then [0xE0 + c / 0x1000, 0x80 + c / 0x40 % 0x40, 0x80 + c % 0x40]
    else [0xF0 + c / 0x40000, 0x80 + c / 0x1000 % 0x40, 0x80 + c / 0x40 % 0x40, 0x80 + c % 0x40]
  }

  /** `str.encode("utf-8")`: None is the encoding error a surrogate raises. */
  function Encode(s: Text): Option<seq<Byte>> {
    if s == [] then Some([])
    else if Surrogate(s[0]) then None
    else
      match Encode(s[1..])
      case None => None
      case Some(rest) => Some(EncodePoint(s[0]) + rest)
  }

  /** The shortest form of section 3 of RFC 3629: a lead byte, and six bits in each byte after it. */
  lemma PointBytes(c: CodePoint)
    ensures var bs: seq<int> := EncodePoint(c);
            if c < 0x80 then bs == [c]
            else if c < 0x800 then
              |bs| == 2 && 0xC2 <= bs[0] <= 0xDF && 0x80 <= bs[1] <= 0xBF && c == 0x40 * (bs[0] - 0xC0) + bs[1] - 0x80
            else if c < 0x10000 then
              && |bs| == 3 && 0xE0 <= bs[0] <= 0xEF && 0x80 <= bs[1] <= 0xBF && 0x80 <= bs[2] <= 0xBF
              && c == 0x1000 * (bs[0] - 0xE0) + 0x40 * (bs[1] - 0x80) + bs[2] - 0x80
            else
              && |bs| == 4 && 0xF0 <= bs[0] <= 0xF4
              && 0x80 <= bs[1] <= 0xBF && 0x80 <= bs[2] <= 0xBF && 0x80 <= bs[3] <= 0xBF
              && c == 0x40000 * (bs[0] - 0xF0) + 0x1000 * (bs[1] - 0x80) + 0x40 * (bs[2] - 0x80) + bs[3] - 0x80
  {
    Sextets(c);
  }

  lemma Sextets(c: nat)
    ensures c == c / 0x40 * 0x40 + c % 0x40
    ensures c / 0x40 == c / 0x1000 * 0x40 + c / 0x40 % 0x40
    ensures c / 0x1000 == c / 0x40000 * 0x40 + c / 0x1000 % 0x40
  {
    assert c / 0x40 / 0x40 == c / 0x1000 && c / 0x1000 / 0x40 == c / 0x40000;
  }

  ghost predicate Ascii(s: Text) {
    forall i :: 0 <= i < |s| ==> s[i] < 0x80
  }

  /** ASCII text is its own encoding. */
  lemma {:induction false} AsciiEncodes(s: Text)
    requires Ascii(s)
    ensures Encode(s) == Some(s)
  {
    if s != [] {
      AsciiEncodes(s[1..]);
      assert s == [s[0]] + s[1..];
    }
  }

  /** Texts are encoded point by point, and exactly the surrogates are refused. */
  lemma {:induction false} EncodeConcat(s: Text, t: Text)
    ensures Encode(s + t) == if Encode(s).Some? && Encode(t).Some? then Some(Encode(s).value + Encode(t).value) else None
  {
    if s == [] {
      assert s + t == t;
      assert Encode(t).Some? ==> [] + Encode(t).value == Encode(t).value;
    } else {
      EncodeConcat(s[1..], t);
      assert (s + t)[0] == s[0] && (s + t)[1..] == s[1..] + t;
      if Encode(s).Some? && Encode(t).Some? {
        var a, b, c := EncodePoint(s[0]), Encode(s[1..]).value, Encode(t).value;
        assert a + (b + c) == (a + b) + c;
      }
    }
  }

  lemma EncodeOne(c: CodePoint)
    ensures Encode([c]) == if 0xD800 <= c <= 0xDFFF then None else Some(EncodePoint(c))
  {
    assert [c][1..] == [] && EncodePoint(c) + [] == EncodePoint(c);
  }

  predicate Continues(b: int) { 0x80 <= b < 0xC0 }

  /** The code point the bytes start with, and how many bytes it takes. */
  function DecodePoint(bs: seq<int>): (r: Option<(int, nat)>)
    ensures r.Some? ==> 1 <= r.value.1 <= |bs|
  {
    if bs == [] then None
    else if 0 <= bs[0] < 0x80 then Some((bs[0], 1))
    else if 0xC0 <= bs[0] < 0xE0 && |bs| >= 2 && Continues(bs[1])
    then Some(((bs[0] - 0xC0) * 0x40 + (bs[1] - 0x80), 2))
    else if 0xE0 <= bs[0] < 0xF0 && |bs| >= 3 && Continues(bs[1]) && Continues(bs[2])
    then Some(((bs[0] - 0xE0) * 0x1000 + (bs[1] - 0x80) * 0x40 + (bs[2] - 0x80), 3))
    else if 0xF0 <= bs[0] < 0xF8 && |bs| >= 4 && Continues(bs[1]) && Continues(bs[2]) && Continues(bs[3])
    then Some(((bs[0] - 0xF0) * 0x40000 + (bs[1] - 0x80) * 0x1000 + (bs[2] - 0x80) * 0x40 + (bs[3] - 0x80), 4))
    else None
  }

  function Decode(bs: seq<Byte>): Option<Text> {
    if bs == [] then Some([])
    else
      match DecodePoint(bs)
      case None => None
      case Some((c, n)) =>
        if !(0 <= c < 0x110000) then None
        else
          match Decode(bs[n..])
          case None => None
          case Some(rest) => Some([c] + rest)
  }

  lemma PointRoundTrip(c: CodePoint, rest: seq<Byte>)
    ensures DecodePoint(EncodePoint(c) + rest) == Some((c, |EncodePoint(c)|))
  {
    Sextets(c);
  }

  lemma {:induction false} EncodeTotal(s: Text)
    ensures Encode(s).Some? <==> Scalar(s)
  {
    if s != [] {
      EncodeTotal(s[1..]);
    }
  }

  lemma {:induction false} Utf8RoundTrip(s: Text)
    requires Scalar(s)
    ensures Encode(s).Some? && Decode(Encode(s).value) == Some(s)
  {
    EncodeTotal(s);
    if s != [] {
      EncodeTotal(s[1..]);
      var rest := Encode(s[1..]).value;
      Utf8RoundTrip(s[1..]);
      PointRoundTrip(s[0], rest);
      assert (EncodePoint(s[0]) + rest)[|EncodePoint(s[0])|..] == rest;
      assert s == [s[0]] + s[1..];
    }
  }
}
