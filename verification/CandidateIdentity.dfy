/**
 The identities of a serving candidate: the readable v1 row key, which is a delimiter
 concatenation, and the canonical v2 id, a digest of the canonical JSON of the full tuple.
 */
module CandidateIdentity {
  import opened Wrappers
  import opened Unicode
  import opened Sorting
  import opened CanonicalJson

  type Sha256 = seq<Byte> -> Text

  datatype ServingTuple = ServingTuple(provider: Text, family: Text, revision: Text, deployment: Option<Text>)

  // ----- the canonical text -----

  const V: Text := Lit("v")
  const PROVIDER: Text := Lit("provider_id")
  const FAMILY: Text := Lit("model_family")
  const REVISION: Text := Lit("model_revision")
  const DEPLOYMENT: Text := Lit("deployment")

  function DeploymentValue(d: Option<Text>): Value {
    if d.Some? then Str(d.value) else Null
  }

  function CandidateItems(t: ServingTuple): seq<Item> {
    [(V, Version2), (PROVIDER, Str(t.provider)), (FAMILY, Str(t.family)), (REVISION, Str(t.revision)),
     (DEPLOYMENT, DeploymentValue(t.deployment))]
  }

  function CandidateText(t: ServingTuple): Text {
    Canonical(false, CandidateItems(t))
  }

  lemma KeyLengths()
    ensures |V| == 1 && |PROVIDER| == 11 && |FAMILY| == 12 && |REVISION| == 14 && |DEPLOYMENT| == 10
  {
  }

  lemma CandidateKeysDistinct(t: ServingTuple)
    ensures DistinctKeys(CandidateItems(t))
  {
    KeyLengths();
  }

  /** The value a list of items holds under a key. */
  function Lookup(items: seq<Item>, key: Text): Option<Value> {
    if items == [] then None
    else if items[0].0 == key then Some(items[0].1)
    else Lookup(items[1..], key)
  }

  ghost predicate KeysUnique(items: multiset<Item>) {
    forall a, b :: a in items && b in items && a.0 == b.0 ==> a == b
  }

  lemma {:induction false} LookupFinds(items: seq<Item>, item: Item)
    requires KeysUnique(multiset(items)) && item in items
    ensures Lookup(items, item.0) == Some(item.1)
  {
    assert items[0] in multiset(items) && item in multiset(items);
    if items[0].0 != item.0 {
      assert items == [items[0]] + items[1..];
      assert item in items[1..];
      assert forall a :: a in multiset(items[1..]) ==> a in multiset(items);
      LookupFinds(items[1..], item);
    }
  }

  /** The tuple a canonical text spells, read back by key. */
  function ReadCandidate(text: Text): Option<ServingTuple> {
    match Read(false, text)
    case None => None
    case Some(items) =>
      match (Lookup(items, PROVIDER), Lookup(items, FAMILY), Lookup(items, REVISION), Lookup(items, DEPLOYMENT))
      case (Some(Str(p)), Some(Str(f)), Some(Str(r)), Some(Str(d))) => Some(ServingTuple(p, f, r, Some(d)))
      case (Some(Str(p)), Some(Str(f)), Some(Str(r)), Some(Null)) => Some(ServingTuple(p, f, r, None))
      case _ => None
  }

  lemma SortedLookup(t: ServingTuple, i: int)
    requires 0 <= i < 5
    ensures Lookup(Sort(ItemLeq, CandidateItems(t)), CandidateItems(t)[i].0) == Some(CandidateItems(t)[i].1)
  {
    var d := CandidateItems(t);
    CandidateKeysDistinct(t);
    SortContents(ItemLeq, d);
    assert KeysUnique(multiset(d)) by {
      forall a: Item, b: Item | a in multiset(d) && b in multiset(d) && a.0 == b.0 ensures a == b {
        var j :| 0 <= j < |d| && d[j] == a;
        var k :| 0 <= k < |d| && d[k] == b;
      }
    }
    assert d[i] in multiset(d);
    assert d[i] in Sort(ItemLeq, d);
    LookupFinds(Sort(ItemLeq, d), d[i]);
  }

  /** Every tuple is recovered from its canonical text, whatever characters its parts hold;
      a null deployment comes back as null and an empty one as empty. */
  lemma CandidateReads(t: ServingTuple)
    ensures ReadCandidate(CandidateText(t)) == Some(t)
  {
    PlainObjectReads(Sort(ItemLeq, CandidateItems(t)));
    SortedLookup(t, 1);
    SortedLookup(t, 2);
    SortedLookup(t, 3);
    SortedLookup(t, 4);
  }

  // ----- the text itself -----

  /** The items in the order of their keys. */
  function OrderedItems(t: ServingTuple): seq<Item> {
    [(DEPLOYMENT, DeploymentValue(t.deployment)), (FAMILY, Str(t.family)), (REVISION, Str(t.revision)),
     (PROVIDER, Str(t.provider)), (V, Version2)]
  }

  lemma KeysAscend()
    ensures DEPLOYMENT[0] == 0x64 && FAMILY[0] == REVISION[0] == 0x6D && PROVIDER[0] == 0x70 && V[0] == 0x76
    ensures LexLeq(PointLess, FAMILY, REVISION)
  {
    assert FAMILY[..6] == REVISION[..6];
    assert DiffersAt(PointLess, FAMILY, REVISION, 6);
    LexLeqIff(PointLess, FAMILY, REVISION);
  }

  lemma {:induction false} InsertLast<T>(leq: (T, T) -> bool, x: T, s: seq<T>)
    requires forall i :: 0 <= i < |s| ==> !leq(x, s[i])
    ensures Insert(leq, x, s) == s + [x]
  {
    if s != [] {
      InsertLast(leq, x, s[1..]);
      assert s == [s[0]] + s[1..];
    }
  }

  lemma InsertSecond<T>(leq: (T, T) -> bool, x: T, a: T, c: T)
    requires !leq(x, a) && leq(x, c)
    ensures Insert(leq, x, [a, c]) == [a, x, c]
  {
    assert [a, c][1..] == [c];
    assert Insert(leq, x, [c]) == [x] + [c];
  }

  lemma SortFirst<T>(leq: (T, T) -> bool, x: T, s: seq<T>)
    ensures Sort(leq, [x] + s) == Insert(leq, x, Sort(leq, s))
  {
    assert ([x] + s)[1..] == s;
  }

  /** The items are given as `e`, `d`, `b`, `c` and `a`. */
  lemma FiveSort<T>(leq: (T, T) -> bool, a: T, b: T, c: T, d: T, e: T)
    requires !leq(c, a) && !leq(b, a) && leq(b, c) && !leq(d, a) && !leq(d, b) && !leq(d, c)
    requires !leq(e, a) && !leq(e, b) && !leq(e, c) && !leq(e, d)
    ensures Sort(leq, [e] + ([d] + ([b] + ([c] + [a])))) == [a, b, c, d, e]
  {
    assert [a][1..] == [] && Sort(leq, [a]) == [a];
    SortFirst(leq, c, [a]);
    InsertLast(leq, c, [a]);
    assert [a] + [c] == [a, c];
    SortFirst(leq, b, [c] + [a]);
    InsertSecond(leq, b, a, c);
    SortFirst(leq, d, [b] + ([c] + [a]));
    InsertLast(leq, d, [a, b, c]);
    SortFirst(leq, e, [d] + ([b] + ([c] + [a])));
    InsertLast(leq, e, [a, b, c] + [d]);
  }

  lemma ItemsOrdered(t: ServingTuple)
    ensures Sort(ItemLeq, CandidateItems(t)) == OrderedItems(t)
  {
    var o := OrderedItems(t);
    KeysAscend();
    FiveSort(ItemLeq, o[0], o[1], o[2], o[3], o[4]);
    assert CandidateItems(t) == [o[4]] + ([o[3]] + ([o[1]] + ([o[2]] + [o[0]])));
  }

  /** A deployment as it is printed. */
  function DeploymentText(d: Option<Text>): Text {
    if d.None? then Lit("null") else PrintString(false, d.value)
  }

  lemma KeysPlain()
    ensures Plain(V) && Plain(PROVIDER) && Plain(FAMILY) && Plain(REVISION) && Plain(DEPLOYMENT)
  {
  }

  lemma LastPrints(ascii: bool, item: Item)
    requires Plain(item.0)
    ensures PrintItems(ascii, [item]) == Label(item.0) + PrintValue(ascii, item.1) + [CLOSE]
  {
    LabelPrints(ascii, item.0, item.1);
    assert [item][1..] == [] && PrintItem(ascii, item) + [] == PrintItem(ascii, item);
  }

  lemma NextPrints(ascii: bool, item: Item, items: seq<Item>)
    requires items != [] && Plain(item.0)
    ensures PrintItems(ascii, [item] + items)
         == Label(item.0) + PrintValue(ascii, item.1) + ([COMMA] + PrintItems(ascii, items))
  {
    LabelPrints(ascii, item.0, item.1);
    assert ([item] + items)[1..] == items;
    PrintItemsMore(ascii, [item] + items);
  }

  lemma PutFirst(c: CodePoint, name: Text, value: Text, rest: Text)
    ensures [c] + (name + value + rest) == ([c] + name) + value + rest
  {
  }

  /** What is printed from an item on: the separator, the label, the value and the rest. */
  function Printed(c: CodePoint, item: Item, rest: Text): Text {
    ([c] + Label(item.0)) + PrintValue(false, item.1) + rest
  }

  lemma PrintedNext(c: CodePoint, item: Item, items: seq<Item>)
    requires items != [] && Plain(item.0)
    ensures [c] + PrintItems(false, [item] + items) == Printed(c, item, [COMMA] + PrintItems(false, items))
  {
    NextPrints(false, item, items);
    PutFirst(c, Label(item.0), PrintValue(false, item.1), [COMMA] + PrintItems(false, items));
  }

  lemma FivePrint(a: Item, b: Item, c: Item, d: Item, e: Item)
    requires Plain(a.0) && Plain(b.0) && Plain(c.0) && Plain(d.0) && Plain(e.0)
    ensures PrintObject(false, [a, b, c, d, e])
         == Printed(OPEN, a, Printed(COMMA, b, Printed(COMMA, c, Printed(COMMA, d, Printed(COMMA, e, [CLOSE])))))
  {
    LastPrints(false, e);
    PutFirst(COMMA, Label(e.0), PrintValue(false, e.1), [CLOSE]);
    PrintedNext(COMMA, d, [e]);
    assert [d] + [e] == [d, e];
    PrintedNext(COMMA, c, [d, e]);
    assert [c] + [d, e] == [c, d, e];
    PrintedNext(COMMA, b, [c, d, e]);
    assert [b] + [c, d, e] == [b, c, d, e];
    PrintedNext(OPEN, a, [b, c, d, e]);
    assert [a] + [b, c, d, e] == [a, b, c, d, e];
  }

  /** `,"key":value` and what follows. */
  function Field(opening: string, key: string, value: Text, rest: Text): Text {
    Lit(opening) + Lit(key) + Lit("\":") + value + rest
  }

  lemma PrintedFields(key: string, v: Value, value: Text, rest: Text)
    requires PrintValue(false, v) == value
    ensures Printed(OPEN, (Lit(key), v), rest) == Field("{\"", key, value, rest)
    ensures Printed(COMMA, (Lit(key), v), rest) == Field(",\"", key, value, rest)
  {
    LabelIs(Lit(key));
  }

  /** The whole text of every tuple. */
  lemma CandidateTextIs(t: ServingTuple)
    ensures CandidateText(t)
         == Field("{\"", "deployment", DeploymentText(t.deployment),
              Field(",\"", "model_family", PrintString(false, t.family),
                Field(",\"", "model_revision", PrintString(false, t.revision),
                  Field(",\"", "provider_id", PrintString(false, t.provider),
                    Field(",\"", "v", Lit("2"), Lit("}"))))))
  {
    var o := OrderedItems(t);
    ItemsOrdered(t);
    KeysPlain();
    FivePrint(o[0], o[1], o[2], o[3], o[4]);
    FieldsPrint(t);
  }

  lemma FieldsPrint(t: ServingTuple)
    ensures Printed(OPEN, OrderedItems(t)[0], Printed(COMMA, OrderedItems(t)[1], Printed(COMMA, OrderedItems(t)[2],
              Printed(COMMA, OrderedItems(t)[3], Printed(COMMA, OrderedItems(t)[4], [CLOSE])))))
         == Field("{\"", "deployment", DeploymentText(t.deployment),
              Field(",\"", "model_family", PrintString(false, t.family),
                Field(",\"", "model_revision", PrintString(false, t.revision),
                  Field(",\"", "provider_id", PrintString(false, t.provider),
                    Field(",\"", "v", Lit("2"), Lit("}"))))))
  {
    assert Lit("}") == [CLOSE] && Lit("2") == [0x32] && Lit("null") == [0x6E, 0x75, 0x6C, 0x6C];
    var v := Field(",\"", "v", Lit("2"), Lit("}"));
    var p := Field(",\"", "provider_id", PrintString(false, t.provider), v);
    var r := Field(",\"", "model_revision", PrintString(false, t.revision), p);
    var f := Field(",\"", "model_family", PrintString(false, t.family), r);
    PrintedFields("v", Version2, Lit("2"), [CLOSE]);
    PrintedFields("provider_id", Str(t.provider), PrintString(false, t.provider), v);
    PrintedFields("model_revision", Str(t.revision), PrintString(false, t.revision), p);
    PrintedFields("model_family", Str(t.family), PrintString(false, t.family), r);
    PrintedFields("deployment", DeploymentValue(t.deployment), DeploymentText(t.deployment), f);
  }

  // ----- the v2 id -----

  const PREFIX: Text := Lit("cand2_")

  /** `derive_candidate_identity_v2`: None is the encoding error a surrogate raises. */
  function CandidateId(sha: Sha256, t: ServingTuple): Option<Text> {
    match Encode(CandidateText(t))
    case None => None
    case Some(bytes) => Some(PREFIX + sha(bytes))
  }

  ghost predicate ScalarTuple(t: ServingTuple) {
    Scalar(t.provider) && Scalar(t.family) && Scalar(t.revision) && (t.deployment.Some? ==> Scalar(t.deployment.value))
  }

  lemma KeysScalar()
    ensures Scalar(V) && Scalar(PROVIDER) && Scalar(FAMILY) && Scalar(REVISION) && Scalar(DEPLOYMENT)
  {
  }

  /** The id exists exactly when no component holds a surrogate. */
  lemma CandidateIdDefined(sha: Sha256, t: ServingTuple)
    ensures CandidateId(sha, t).Some? <==> ScalarTuple(t)
  {
    var d := CandidateItems(t);
    PlainFormEncodes(d);
    KeysScalar();
    assert (forall i :: 0 <= i < |d| ==> ScalarItem(d[i])) <==> ScalarTuple(t) by {
      if forall i :: 0 <= i < |d| ==> ScalarItem(d[i]) {
        assert ScalarItem(d[1]) && ScalarItem(d[2]) && ScalarItem(d[3]) && ScalarItem(d[4]);
      }
    }
  }

  /** The id is the prefix and the digest of the text's UTF-8 bytes. */
  lemma CandidateIdIs(sha: Sha256, t: ServingTuple)
    requires ScalarTuple(t)
    ensures Encode(CandidateText(t)).Some?
    ensures CandidateId(sha, t) == Some(Lit("cand2_") + sha(Encode(CandidateText(t)).value))
  {
    CandidateIdDefined(sha, t);
  }

  /** The digest tells the two tuples' texts apart. */
  ghost predicate NoCollision(sha: Sha256, t: ServingTuple, u: ServingTuple) {
    var b, c := Encode(CandidateText(t)), Encode(CandidateText(u));
    b.Some? && c.Some? && sha(b.value) == sha(c.value) ==> b == c
  }

  /** Absent a collision, two tuples share an id exactly when they are the same tuple. */
  lemma CandidateIdIff(sha: Sha256, t: ServingTuple, u: ServingTuple)
    requires ScalarTuple(t) && ScalarTuple(u) && NoCollision(sha, t, u)
    ensures CandidateId(sha, t).Some? && (CandidateId(sha, t) == CandidateId(sha, u) <==> t == u)
  {
    CandidateIdDefined(sha, t);
    CandidateIdDefined(sha, u);
    var b, c := Encode(CandidateText(t)).value, Encode(CandidateText(u)).value;
    if CandidateId(sha, t) == CandidateId(sha, u) {
      assert (PREFIX + sha(b))[|PREFIX|..] == sha(b) && (PREFIX + sha(c))[|PREFIX|..] == sha(c);
      EncodeTotal(CandidateText(t));
      EncodeTotal(CandidateText(u));
      Utf8RoundTrip(CandidateText(t));
      Utf8RoundTrip(CandidateText(u));
      CandidateReads(t);
      CandidateReads(u);
    }
  }

  // ----- the v1 row key -----

  const DELIMITER: CodePoint := 0x3A

  /** `derive_model_catalogue_entry_id`. */
  function V1Key(provider: Text, revision: Text, deployment: Option<Text>): Text {
    var base := provider + [DELIMITER] + revision;
    if deployment.Some? && deployment.value != [] then base + [DELIMITER] + deployment.value else base
  }

  /** `deployment or ""`: null and the empty string are one deployment to the row key. */
  function DeploymentKey(deployment: Option<Text>): Text {
    if deployment.Some? then deployment.value else []
  }

  /** The parts, colon after colon; an absent and an empty deployment leave no trace. */
  lemma V1KeyIs(p: Text, r: Text, d: Text)
    ensures V1Key(p, r, None) == V1Key(p, r, Some([])) == p + Lit(":") + r
    ensures d != [] ==> V1Key(p, r, Some(d)) == p + Lit(":") + r + Lit(":") + d
    ensures DeploymentKey(None) == [] && DeploymentKey(Some(d)) == d
  {
    assert Lit(":") == [DELIMITER];
  }

  lemma FirstDelimiter(a: Text, b: Text, c: Text, d: Text)
    requires DELIMITER !in a && DELIMITER !in c
    requires a + [DELIMITER] + b == c + [DELIMITER] + d
    ensures a == c && b == d
  {
    var s, t := a + [DELIMITER] + b, c + [DELIMITER] + d;
    assert s[|a|] == DELIMITER && t[|c|] == DELIMITER;
    assert forall i :: 0 <= i < |a| ==> s[i] == a[i] != DELIMITER;
    assert forall i :: 0 <= i < |c| ==> t[i] == c[i] != DELIMITER;
    assert |a| == |c|;
    assert a == s[..|a|] && c == t[..|c|];
    assert b == s[|a| + 1..] && d == t[|c| + 1..];
  }

  /** What follows the provider in a row key. */
  function KeyTail(revision: Text, key: Text): Text {
    if key != [] then revision + [DELIMITER] + key else revision
  }

  lemma KeyTailDelimiter(revision: Text, key: Text)
    ensures key != [] ==> DELIMITER in KeyTail(revision, key)
  {
    assert key != [] ==> KeyTail(revision, key)[|revision|] == DELIMITER;
  }

  lemma V1KeySplits(p: Text, r: Text, d: Option<Text>)
    ensures V1Key(p, r, d) == p + [DELIMITER] + KeyTail(r, DeploymentKey(d))
  {
  }

  /** Among tuples whose provider and revision are free of the delimiter, the key determines
      provider, revision and deployment, null and empty being one. */
  lemma V1KeyDetermines(p: Text, r: Text, d: Option<Text>, p': Text, r': Text, d': Option<Text>)
    requires DELIMITER !in p && DELIMITER !in r && DELIMITER !in p' && DELIMITER !in r'
    requires V1Key(p, r, d) == V1Key(p', r', d')
    ensures p == p' && r == r' && DeploymentKey(d) == DeploymentKey(d')
  {
    V1KeySplits(p, r, d);
    V1KeySplits(p', r', d');
    FirstDelimiter(p, KeyTail(r, DeploymentKey(d)), p', KeyTail(r', DeploymentKey(d')));
    KeyTailDelimiter(r, DeploymentKey(d));
    KeyTailDelimiter(r', DeploymentKey(d'));
    if DeploymentKey(d) != [] {
      FirstDelimiter(r, DeploymentKey(d), r', DeploymentKey(d'));
    }
  }

  /** Some tuple that differs from this one, beyond null versus empty, has the same key. */
  ghost predicate SharesKey(p: Text, r: Text, d: Option<Text>) {
    exists p', r', d' :: V1Key(p', r', d') == V1Key(p, r, d) && (p', r', DeploymentKey(d')) != (p, r, DeploymentKey(d))
  }

  lemma DelimiterAt(s: Text) returns (i: nat)
    requires DELIMITER in s
    ensures i < |s| && s == s[..i] + [DELIMITER] + s[i + 1..]
  {
    i :| 0 <= i < |s| && s[i] == DELIMITER;
  }

  lemma DelimiterInProvider(p: Text, r: Text, d: Option<Text>)
    requires DELIMITER in p
    ensures SharesKey(p, r, d)
  {
    var i := DelimiterAt(p);
    var r' := p[i + 1..] + [DELIMITER] + r;
    assert p + [DELIMITER] + r == p[..i] + [DELIMITER] + r';
    assert V1Key(p[..i], r', d) == V1Key(p, r, d);
  }

  lemma DelimiterInRevision(p: Text, r: Text, d: Option<Text>)
    requires DELIMITER in r
    ensures SharesKey(p, r, d)
  {
    var i := DelimiterAt(r);
    var p' := p + [DELIMITER] + r[..i];
    assert p + [DELIMITER] + r == p' + [DELIMITER] + r[i + 1..];
    assert V1Key(p', r[i + 1..], d) == V1Key(p, r, d);
    assert p' != p;
  }

  lemma DeploymentAbsorbed(p: Text, r: Text, d: Option<Text>)
    requires DeploymentKey(d) != []
    ensures SharesKey(p, r, d)
  {
    var r' := r + [DELIMITER] + DeploymentKey(d);
    assert V1Key(p, r', None) == V1Key(p, r, d);
  }

  /** A key is ambiguous exactly when its text holds a second delimiter. */
  lemma V1KeyAmbiguousIff(p: Text, r: Text, d: Option<Text>)
    ensures SharesKey(p, r, d) <==> DELIMITER in p || DELIMITER in r || DeploymentKey(d) != []
  {
    if DELIMITER in p {
      DelimiterInProvider(p, r, d);
    } else if DELIMITER in r {
      DelimiterInRevision(p, r, d);
    } else if DeploymentKey(d) != [] {
      DeploymentAbsorbed(p, r, d);
    } else if SharesKey(p, r, d) {
      V1KeySplits(p, r, d);
      var p', r', d' :| V1Key(p', r', d') == V1Key(p, r, d) && (p', r', DeploymentKey(d')) != (p, r, DeploymentKey(d));
      OneDelimiter(p, r, p', r', d');
      assert false;
    }
  }

  lemma OneDelimiter(p: Text, r: Text, p': Text, r': Text, d': Option<Text>)
    requires DELIMITER !in p && DELIMITER !in r
    requires V1Key(p', r', d') == p + [DELIMITER] + r
    ensures p' == p && r' == r && DeploymentKey(d') == []
  {
    var s, tail := p + [DELIMITER] + r, KeyTail(r', DeploymentKey(d'));
    V1KeySplits(p', r', d');
    assert forall i :: 0 <= i < |p| ==> s[i] == p[i];
    assert forall i :: |p| < i < |s| ==> s[i] == r[i - |p| - 1];
    assert (p' + [DELIMITER] + tail)[|p'|] == DELIMITER;
    assert |p'| == |p|;
    assert p' == s[..|p|] == p && tail == s[|p| + 1..] == r;
    KeyTailDelimiter(r', DeploymentKey(d'));
  }

  ghost predicate HexDigest(d: Text) {
    |d| == 64 && forall i :: 0 <= i < |d| ==> 0x30 <= d[i] <= 0x39 || 0x61 <= d[i] <= 0x66
  }

  /** A row key always holds a delimiter and a canonical id never does. */
  lemma KeysNeverClash(sha: Sha256, t: ServingTuple, p: Text, r: Text, d: Option<Text>)
    requires forall bytes :: HexDigest(sha(bytes))
    ensures CandidateId(sha, t) != Some(V1Key(p, r, d))
  {
    assert V1Key(p, r, d)[|p|] == DELIMITER;
    assert forall i :: 0 <= i < |PREFIX| ==> PREFIX[i] != DELIMITER;
    if CandidateId(sha, t).Some? {
      var digest := sha(Encode(CandidateText(t)).value);
      assert HexDigest(digest);
      assert DELIMITER !in PREFIX + digest;
    }
  }
}
