/**
 The branch-protection gate: a shape check of the policy document, and a field-by-field
 comparison of the live settings with it. Both read untyped JSON, so both can raise.
 */
module BranchProtection {
  import opened Wrappers
  import opened Json
  import opened Sorting

  type Fields = seq<(string, Json)>

  datatype Failure = KeyError | TypeError

  // ----- Python on JSON values -----

  predicate Has(d: Fields, key: string) {
    Get(d, key).Some?
  }

  /** `d.get(key)`: a missing key and an explicit null read alike. */
  function Lookup(d: Fields, key: string): Json {
    if Get(d, key).Some? then Get(d, key).value else Null
  }

  /** The value of the first field of that name, and null when there is none. */
  lemma LookupIs(d: Fields, key: string, i: nat)
    ensures i < |d| && d[i].0 == key && (forall j :: 0 <= j < i ==> d[j].0 != key) ==>
              Has(d, key) && Lookup(d, key) == d[i].1
    ensures (forall j :: 0 <= j < |d| ==> d[j].0 != key) ==> !Has(d, key) && Lookup(d, key) == Null
  {
    GetIs(d, key);
    if i < |d| && d[i].0 == key && forall j :: 0 <= j < i ==> d[j].0 != key {
      GetAt(d, key, i);
    }
  }

  predicate Truthy(v: Json) {
    match v
    case Null => false
    case Bool(b) => b
    case Int(n) => n != 0
    case Float(r) => r != 0.0
    case Str(s) => s != ""
    case Arr(items) => items != []
    case Obj(fields) => fields != []
  }

  function Number(v: Json): Option<real> {
    match v
    case Bool(b) => Some(if b then 1.0 else 0.0)
    case Int(n) => Some(n as real)
    case Float(r) => Some(r)
    case _ => None
  }

  /** `==`, under which True, 1 and 1.0 are equal. */
  predicate Equal(a: Json, b: Json) {
    if Number(a).Some? && Number(b).Some? then Number(a) == Number(b) else a == b
  }

  /** What a `for` loop over the value visits. */
  function Iterated(v: Json): Option<seq<Json>> {
    match v
    case Arr(items) => Some(items)
    case Obj(fields) => Some(seq(|fields|, i requires 0 <= i < |fields| => Str(fields[i].0)))
    case Str(s) => Some(seq(|s|, i requires 0 <= i < |s| => Str([s[i]])))
    case _ => None
  }

  predicate AllStrings(items: seq<Json>) {
    forall i :: 0 <= i < |items| ==> items[i].Str?
  }

  predicate JsonLeq(a: Json, b: Json) {
    if a.Str? && b.Str? then StringLeq(a.s, b.s) else b.Str? || !a.Str?
  }

  /** Python's order on lists that are not all strings; it may raise. */
  type OtherOrder = seq<Json> -> Option<seq<Json>>

  ghost predicate Permutes(other: OtherOrder) {
    forall items :: other(items).Some? ==> multiset(other(items).value) == multiset(items)
  }

  function SortedList(items: seq<Json>, other: OtherOrder): Option<seq<Json>> {
    if AllStrings(items) then Some(Sort(JsonLeq, items)) else other(items)
  }

  /** Strings are sorted as strings; any other list as Python would, or not at all. */
  lemma SortedListIs(items: seq<Json>, other: OtherOrder)
    ensures AllStrings(items) ==>
              && SortedList(items, other).Some? && multiset(SortedList(items, other).value) == multiset(items)
              && forall i, j :: 0 <= i < j < |SortedList(items, other).value| ==>
                   var a, b := SortedList(items, other).value[i], SortedList(items, other).value[j];
                   a.Str? && b.Str? && StringLeq(a.s, b.s)
    ensures !AllStrings(items) ==> SortedList(items, other) == other(items)
  {
    if AllStrings(items) {
      var sorted := Sort(JsonLeq, items);
      StringOrder();
      assert TotalPreorder(JsonLeq);
      SortSorted(JsonLeq, items);
      SortContents(JsonLeq, items);
      forall i | 0 <= i < |sorted| ensures sorted[i].Str? {
        assert sorted[i] in multiset(sorted);
        assert sorted[i] in items;
      }
    }
  }

  predicate ListsEqual(a: seq<Json>, b: seq<Json>) {
    |a| == |b| && forall i :: 0 <= i < |a| ==> Equal(a[i], b[i])
  }

  // ----- the keys -----

  const SWITCHES := ["enforce_admins", "required_linear_history", "allow_force_pushes", "allow_deletions",
                     "required_conversation_resolution"]
  const BOOLEAN_EXPECTED_KEYS := SWITCHES + ["restrictions_present", "codeowners_present"]
  const REQUIRED_EXPECTED_KEYS :=
    SWITCHES + ["required_status_checks", "required_pull_request_reviews", "restrictions_present", "codeowners_present"]
  const COUNT := "required_approving_review_count"
  const BYPASS := "bypass_pull_request_allowances"
  const REVIEW_FLAGS := ["dismiss_stale_reviews", "require_code_owner_reviews", "require_last_push_approval"]
  const REQUIRED_REVIEW_KEYS := [COUNT] + REVIEW_FLAGS + [BYPASS]
  const BOOLEAN_REVIEW_KEYS := ["present"] + REVIEW_FLAGS
  const CATEGORIES := ["users", "teams", "apps"]
  const EXCEPTION_KEYS := {"field", "value", "reason", "compensating_controls", "retires_when"}

  // ----- what a complete policy document is -----

  predicate HasAll(d: Fields, keys: seq<string>) {
    forall i :: 0 <= i < |keys| ==> Has(d, keys[i])
  }

  predicate Booleans(d: Fields, keys: seq<string>) {
    forall i :: 0 <= i < |keys| && Has(d, keys[i]) ==> Lookup(d, keys[i]).Bool?
  }

  /** Present, and not a blank string: any other value prints as some text. */
  predicate Documented(d: Fields, key: string) {
    Has(d, key) && (Lookup(d, key).Str? ==> !Blank(Lookup(d, key).s))
  }

  predicate CompleteChecks(v: Json) {
    && v.Obj?
    && Lookup(v.fields, "strict").Bool?
    && Lookup(v.fields, "contexts").Arr?
    && AllStrings(Lookup(v.fields, "contexts").items)
    && Lookup(v.fields, "contexts").items != []
  }

  predicate Lists(d: Fields, categories: seq<string>) {
    forall i :: 0 <= i < |categories| ==> Lookup(d, categories[i]).Arr?
  }

  /** The review block; its fields matter only when it is declared present. */
  predicate CompleteReviews(v: Json) {
    && v.Obj? && Has(v.fields, "present")
    && (Truthy(Lookup(v.fields, "present")) ==>
          && HasAll(v.fields, REQUIRED_REVIEW_KEYS)
          && Booleans(v.fields, BOOLEAN_REVIEW_KEYS)
          && (Lookup(v.fields, COUNT).Null? || Lookup(v.fields, COUNT).Int?)
          && Lookup(v.fields, BYPASS).Obj? && Lists(Lookup(v.fields, BYPASS).fields, CATEGORIES))
  }

  predicate CompleteExpected(v: Json) {
    && v.Obj?
    && HasAll(v.fields, REQUIRED_EXPECTED_KEYS) && Booleans(v.fields, BOOLEAN_EXPECTED_KEYS)
    && CompleteChecks(Lookup(v.fields, "required_status_checks"))
    && CompleteReviews(Lookup(v.fields, "required_pull_request_reviews"))
  }

  /** `d.get(key, default)` where the default is an empty container. */
  function LookupOr(d: Fields, key: string, default_: Json): Json {
    if Has(d, key) then Lookup(d, key) else default_
  }

  /** `set(exception)`: the keys of an object, the members of a list, the characters of a string. */
  function Members(v: Json): Option<set<string>> {
    match v
    case Obj(fields) => Some(set i | 0 <= i < |fields| :: fields[i].0)
    case Str(s) => Some(set i | 0 <= i < |s| :: [s[i]])
    case Arr(items) =>
      if exists i :: 0 <= i < |items| && (items[i].Arr? || items[i].Obj?) then None
      else Some(set i | 0 <= i < |items| && items[i].Str? :: items[i].s)
    case _ => None
  }

  predicate CompleteException(v: Json) {
    Members(v).Some? && EXCEPTION_KEYS <= Members(v).value
  }

  const ZERO_APPROVALS := "required_pull_request_reviews.required_approving_review_count"

  predicate ExceptsZero(v: Json) {
    v.Obj? && Lookup(v.fields, "field") == Str(ZERO_APPROVALS)
  }

  /** The deliberate zero is documented, and the search for it meets only objects. */
  predicate ZeroDocumented(exceptions: seq<Json>) {
    exists i :: 0 <= i < |exceptions| && ExceptsZero(exceptions[i]) && forall j :: 0 <= j < i ==> exceptions[j].Obj?
  }

  predicate CompleteExceptions(v: Json) {
    Iterated(v).Some? && forall i :: 0 <= i < |Iterated(v).value| ==> CompleteException(Iterated(v).value[i])
  }

  const POLICY_KEYS := ["repository", "protected_branch", "expected", "documented_exceptions"]
  const AUTHORITY_KEYS := ["review_lead", "mergeable_meaning", "escalation"]

  predicate CompleteAuthority(v: Json) {
    v.Obj? && forall i :: 0 <= i < |AUTHORITY_KEYS| ==> Documented(v.fields, AUTHORITY_KEYS[i])
  }

  function Reviews(expected: Json): Json {
    if expected.Obj? then Lookup(expected.fields, "required_pull_request_reviews") else Null
  }

  predicate ZeroAllowed(reviews: Json, exceptions: Json) {
    reviews.Obj? && Equal(Lookup(reviews.fields, COUNT), Int(0)) ==>
      Iterated(exceptions).Some? && ZeroDocumented(Iterated(exceptions).value)
  }

  predicate CompletePolicy(policy: Fields) {
    && HasAll(policy, POLICY_KEYS)
    && CompleteAuthority(LookupOr(policy, "review_authority", Obj([])))
    && CompleteExpected(Lookup(policy, "expected"))
    && CompleteExceptions(Lookup(policy, "documented_exceptions"))
    && ZeroAllowed(Reviews(Lookup(policy, "expected")), Lookup(policy, "documented_exceptions"))
  }

  // ----- the same, key by key -----

  lemma TruthyIff(v: Json)
    ensures !Truthy(v) <==> v == Null || v == Bool(false) || v == Int(0) || v == Float(0.0) || v == Str("")
                            || v == Arr([]) || v == Obj([])
  {
  }

  /** Numbers and booleans are equal as numbers, anything else only to itself. */
  lemma EqualIff(a: Json, b: Json)
    ensures a == b ==> Equal(a, b)
    ensures Equal(a, Bool(true)) <==> a == Bool(true) || a == Int(1) || a == Float(1.0)
    ensures Equal(a, Bool(false)) <==> a == Bool(false) || a == Int(0) || a == Float(0.0)
    ensures a.Int? && b.Int? ==> (Equal(a, b) <==> a == b)
    ensures !(a.Bool? || a.Int? || a.Float?) ==> (Equal(a, b) <==> a == b)
  {
  }

  /** A complete review block: absent fields matter only when it is declared present. */
  lemma ReviewsCompleteIff(v: Json)
    ensures CompleteReviews(v) <==>
            && v.Obj? && Has(v.fields, "present")
            && (Truthy(Lookup(v.fields, "present")) ==>
                  && Lookup(v.fields, "present").Bool? && Lookup(v.fields, "dismiss_stale_reviews").Bool?
                  && Lookup(v.fields, "require_code_owner_reviews").Bool?
                  && Lookup(v.fields, "require_last_push_approval").Bool?
                  && Has(v.fields, "required_approving_review_count")
                  && (Lookup(v.fields, "required_approving_review_count") == Null
                      || Lookup(v.fields, "required_approving_review_count").Int?)
                  && Lookup(v.fields, "bypass_pull_request_allowances").Obj?
                  && var bypass := Lookup(v.fields, "bypass_pull_request_allowances").fields;
                  Lookup(bypass, "users").Arr? && Lookup(bypass, "teams").Arr? && Lookup(bypass, "apps").Arr?)
  {
    if v.Obj? {
      ReviewKeysAre(v.fields);
      if Lookup(v.fields, BYPASS).Obj? {
        ReviewKeysAre(Lookup(v.fields, BYPASS).fields);
      }
    }
  }

  lemma ReviewKeysAre(d: Fields)
    ensures HasAll(d, REQUIRED_REVIEW_KEYS) <==>
            && Has(d, "required_approving_review_count") && Has(d, "dismiss_stale_reviews")
            && Has(d, "require_code_owner_reviews") && Has(d, "require_last_push_approval")
            && Has(d, "bypass_pull_request_allowances")
    ensures Booleans(d, BOOLEAN_REVIEW_KEYS) <==>
            && BooleanIfAny(d, "present") && BooleanIfAny(d, "dismiss_stale_reviews")
            && BooleanIfAny(d, "require_code_owner_reviews") && BooleanIfAny(d, "require_last_push_approval")
    ensures Lists(d, CATEGORIES) <==> Lookup(d, "users").Arr? && Lookup(d, "teams").Arr? && Lookup(d, "apps").Arr?
  {
    var keys, flags, names := REQUIRED_REVIEW_KEYS, BOOLEAN_REVIEW_KEYS, CATEGORIES;
    assert keys == ["required_approving_review_count", "dismiss_stale_reviews", "require_code_owner_reviews",
                    "require_last_push_approval", "bypass_pull_request_allowances"];
    assert HasAll(d, keys) <==> Has(d, keys[0]) && Has(d, keys[1]) && Has(d, keys[2]) && Has(d, keys[3]) && Has(d, keys[4]);
    assert flags == ["present", "dismiss_stale_reviews", "require_code_owner_reviews", "require_last_push_approval"];
    assert Booleans(d, flags) <==>
           BooleanIfAny(d, flags[0]) && BooleanIfAny(d, flags[1]) && BooleanIfAny(d, flags[2]) && BooleanIfAny(d, flags[3]);
    assert Lists(d, names) <==> Lookup(d, names[0]).Arr? && Lookup(d, names[1]).Arr? && Lookup(d, names[2]).Arr?;
  }

  predicate BooleanIfAny(d: Fields, key: string) {
    Has(d, key) ==> Lookup(d, key).Bool?
  }

  /** What the document must expect: seven booleans, required checks and a review block. */
  lemma ExpectedCompleteIff(v: Json)
    ensures CompleteExpected(v) <==>
            && v.Obj?
            && Lookup(v.fields, "enforce_admins").Bool? && Lookup(v.fields, "required_linear_history").Bool?
            && Lookup(v.fields, "allow_force_pushes").Bool? && Lookup(v.fields, "allow_deletions").Bool?
            && Lookup(v.fields, "required_conversation_resolution").Bool?
            && Lookup(v.fields, "restrictions_present").Bool? && Lookup(v.fields, "codeowners_present").Bool?
            && CompleteReviews(Lookup(v.fields, "required_pull_request_reviews"))
            && Lookup(v.fields, "required_status_checks").Obj?
            && var checks := Lookup(v.fields, "required_status_checks").fields;
            && Lookup(checks, "strict").Bool? && Lookup(checks, "contexts").Arr? && Lookup(checks, "contexts").items != []
            && forall x :: x in Lookup(checks, "contexts").items ==> x.Str?
  {
    if v.Obj? {
      ExpectedKeysAre(v.fields);
    }
  }

  lemma ExpectedKeysAre(d: Fields)
    ensures HasAll(d, REQUIRED_EXPECTED_KEYS) <==>
            && Has(d, "enforce_admins") && Has(d, "required_linear_history") && Has(d, "allow_force_pushes")
            && Has(d, "allow_deletions") && Has(d, "required_conversation_resolution") && Has(d, "required_status_checks")
            && Has(d, "required_pull_request_reviews") && Has(d, "restrictions_present") && Has(d, "codeowners_present")
    ensures Booleans(d, BOOLEAN_EXPECTED_KEYS) <==>
            && BooleanIfAny(d, "enforce_admins") && BooleanIfAny(d, "required_linear_history")
            && BooleanIfAny(d, "allow_force_pushes") && BooleanIfAny(d, "allow_deletions")
            && BooleanIfAny(d, "required_conversation_resolution") && BooleanIfAny(d, "restrictions_present")
            && BooleanIfAny(d, "codeowners_present")
  {
    var keys, flags := REQUIRED_EXPECTED_KEYS, BOOLEAN_EXPECTED_KEYS;
    assert keys == ["enforce_admins", "required_linear_history", "allow_force_pushes", "allow_deletions",
                    "required_conversation_resolution", "required_status_checks", "required_pull_request_reviews",
                    "restrictions_present", "codeowners_present"];
    assert HasAll(d, keys) <==>
           && Has(d, keys[0]) && Has(d, keys[1]) && Has(d, keys[2]) && Has(d, keys[3]) && Has(d, keys[4])
                                && Has(d, keys[5]) && Has(d, keys[6]) && Has(d, keys[7]) && Has(d, keys[8]);
    assert flags == ["enforce_admins", "required_linear_history", "allow_force_pushes", "allow_deletions",
                     "required_conversation_resolution", "restrictions_present", "codeowners_present"];
    assert Booleans(d, flags) <==> && BooleanIfAny(d, flags[0]) && BooleanIfAny(d, flags[1]) && BooleanIfAny(d, flags[2])
                                   && BooleanIfAny(d, flags[3]) && BooleanIfAny(d, flags[4]) && BooleanIfAny(d, flags[5])
                                   && BooleanIfAny(d, flags[6]);
  }

  /** A documented exception that is an object: it has the five fields. */
  lemma ExceptionCompleteIff(fields: Fields)
    ensures CompleteException(Obj(fields)) <==>
            && Has(fields, "field") && Has(fields, "value") && Has(fields, "reason")
            && Has(fields, "compensating_controls") && Has(fields, "retires_when")
  {
    forall key ensures key in Members(Obj(fields)).value <==> Has(fields, key) {
      GetIs(fields, key);
    }
  }

  /** One that is a list of plain values: it names all five. */
  lemma ExceptionListIff(items: seq<Json>)
    ensures CompleteException(Arr(items)) <==>
            && (forall x :: x in items ==> !x.Arr? && !x.Obj?)
            && Str("field") in items && Str("value") in items && Str("reason") in items
            && Str("compensating_controls") in items && Str("retires_when") in items
  {
    if Members(Arr(items)).Some? {
      forall key ensures key in Members(Arr(items)).value <==> Str(key) in items {
        if Str(key) in items {
          var i :| 0 <= i < |items| && items[i] == Str(key);
        }
      }
    }
  }

  /** The document as a whole, when its exceptions are a list of objects. */
  lemma PolicyCompleteIff(policy: Fields, exceptions: seq<Json>)
    requires Lookup(policy, "documented_exceptions") == Arr(exceptions)
    requires forall i :: 0 <= i < |exceptions| ==> exceptions[i].Obj?
    ensures CompletePolicy(policy) <==>
            && Has(policy, "repository") && Has(policy, "protected_branch") && CompleteExpected(Lookup(policy, "expected"))
            && Lookup(policy, "review_authority").Obj?
            && var authority := Lookup(policy, "review_authority").fields;
            && Documented(authority, "review_lead") && Documented(authority, "mergeable_meaning")
            && Documented(authority, "escalation")
            && (forall i :: 0 <= i < |exceptions| ==> CompleteException(exceptions[i]))
            && (Lookup(Lookup(Lookup(policy, "expected").fields, "required_pull_request_reviews").fields,
                       "required_approving_review_count") in {Int(0), Bool(false), Float(0.0)} ==>
                  exists i :: 0 <= i < |exceptions| && Lookup(exceptions[i].fields, "field")
                              == Str("required_pull_request_reviews.required_approving_review_count"))
  {
    var keys, roles := POLICY_KEYS, AUTHORITY_KEYS;
    assert HasAll(policy, keys) <==>
           Has(policy, keys[0]) && Has(policy, keys[1]) && Has(policy, keys[2]) && Has(policy, keys[3]);
    var authority := LookupOr(policy, "review_authority", Obj([]));
    assert CompleteAuthority(authority) <==>
           && authority.Obj? && Documented(authority.fields, roles[0]) && Documented(authority.fields, roles[1])
           && Documented(authority.fields, roles[2]);
    ZeroDocumentedIff(exceptions);
  }

  lemma {:induction false} ZeroDocumentedIff(exceptions: seq<Json>)
    requires forall i :: 0 <= i < |exceptions| ==> exceptions[i].Obj?
    ensures ZeroDocumented(exceptions) <==> exists i :: 0 <= i < |exceptions| && ExceptsZero(exceptions[i])
  {
  }

  // ----- the shape check -----

  type Verdict = Result<seq<string>, Failure>

  method Undeclared(d: Fields, keys: seq<string>) returns (issues: seq<string>)
    ensures issues == [] <==> HasAll(d, keys)
  {
    issues := [];
    for i := 0 to |keys|
      invariant issues == [] <==> HasAll(d, keys[..i])
    {
      assert keys[..i + 1] == keys[..i] + [keys[i]];
      if !Has(d, keys[i]) {
        issues := issues + [keys[i]];
      }
    }
    assert keys[..|keys|] == keys;
  }

  method NotBoolean(d: Fields, keys: seq<string>) returns (issues: seq<string>)
    ensures issues == [] <==> Booleans(d, keys)
  {
    issues := [];
    for i := 0 to |keys|
      invariant issues == [] <==> Booleans(d, keys[..i])
    {
      assert keys[..i + 1] == keys[..i] + [keys[i]];
      if Has(d, keys[i]) && !Lookup(d, keys[i]).Bool? {
        issues := issues + [keys[i]];
      }
    }
    assert keys[..|keys|] == keys;
  }

  method ValidateAuthority(v: Json) returns (verdict: Verdict)
    ensures verdict == Ok([]) <==> CompleteAuthority(v)
  {
    if !v.Obj? {
      return Err(TypeError);
    }
    var keys, issues := AUTHORITY_KEYS, [];
    for i := 0 to |keys|
      invariant issues == [] <==> forall j :: 0 <= j < i ==> Documented(v.fields, keys[j])
    {
      if !Documented(v.fields, keys[i]) {
        issues := issues + [keys[i]];
      }
    }
    verdict := Ok(issues);
  }

  method ValidateChecks(v: Json) returns (verdict: Verdict)
    ensures verdict == Ok([]) <==> CompleteChecks(v)
  {
    if !v.Obj? {
      return Err(TypeError);
    }
    var issues := Undeclared(v.fields, ["strict", "contexts"]);
    var contexts := Lookup(v.fields, "contexts");
    if Has(v.fields, "contexts") {
      if !contexts.Arr? || !AllStrings(contexts.items) {
        issues := issues + ["contexts must be a list of strings"];
      } else if contexts.items == [] {
        issues := issues + ["contexts is empty"];
      }
    }
    if Has(v.fields, "strict") && !Lookup(v.fields, "strict").Bool? {
      issues := issues + ["strict"];
    }
    assert HasAll(v.fields, ["strict", "contexts"]) <==> Has(v.fields, "strict") && Has(v.fields, "contexts") by {
      assert ["strict", "contexts"][0] == "strict" && ["strict", "contexts"][1] == "contexts";
    }
    verdict := Ok(issues);
  }

  /** `key in v`, which on a string looks for a substring. */
  predicate Within(key: string, v: Json) {
    match v
    case Obj(fields) => Has(fields, key)
    case Arr(items) => Str(key) in items
    case Str(s) => exists i :: 0 <= i <= |s| && key <= s[i..]
    case _ => false
  }

  method ValidateBypass(v: Json) returns (verdict: Verdict)
    ensures verdict == Ok([]) <==> v.Obj? && Lists(v.fields, CATEGORIES)
  {
    if !(v.Obj? || v.Arr? || v.Str?) {
      return Err(TypeError);
    }
    var categories, issues := CATEGORIES, [];
    for i := 0 to |categories|
      invariant i > 0 && !v.Obj? ==> issues != []
      invariant v.Obj? ==> (issues == [] <==> Lists(v.fields, categories[..i]))
    {
      assert categories[..i + 1] == categories[..i] + [categories[i]];
      if !Within(categories[i], v) {
        issues := issues + [categories[i]];
      } else if !v.Obj? {
        return Err(TypeError);
      } else if !Lookup(v.fields, categories[i]).Arr? {
        issues := issues + [categories[i]];
      }
    }
    assert categories[..|categories|] == categories;
    verdict := Ok(issues);
  }

  method ValidateReviews(v: Json) returns (verdict: Verdict)
    ensures verdict == Ok([]) <==> CompleteReviews(v)
  {
    if !v.Obj? {
      return Err(TypeError);
    }
    if !Has(v.fields, "present") {
      return Ok(["present"]);
    }
    if !Truthy(Lookup(v.fields, "present")) {
      return Ok([]);
    }
    var issues := Undeclared(v.fields, REQUIRED_REVIEW_KEYS);
    var flags := NotBoolean(v.fields, BOOLEAN_REVIEW_KEYS);
    issues := issues + flags;
    var count := Lookup(v.fields, COUNT);
    if !count.Null? && !count.Int? {
      issues := issues + [COUNT];
    }
    var bypass := ValidateBypass(LookupOr(v.fields, BYPASS, Obj([])));
    if bypass.Err? {
      return bypass;
    }
    assert HasAll(v.fields, REQUIRED_REVIEW_KEYS) ==> Has(v.fields, BYPASS) by {
      assert REQUIRED_REVIEW_KEYS[4] == BYPASS;
    }
    verdict := Ok(issues + bypass.value);
  }

  method ValidateExceptions(v: Json) returns (verdict: Verdict)
    ensures verdict == Ok([]) <==> CompleteExceptions(v)
  {
    if Iterated(v).None? {
      return Err(TypeError);
    }
    var exceptions, issues := Iterated(v).value, [];
    for i := 0 to |exceptions|
      invariant issues == [] <==> forall j :: 0 <= j < i ==> CompleteException(exceptions[j])
    {
      if Members(exceptions[i]).None? {
        return Err(TypeError);
      }
      if !(EXCEPTION_KEYS <= Members(exceptions[i]).value) {
        issues := issues + ["documented_exceptions"];
      }
    }
    verdict := Ok(issues);
  }

  /** The `any(...)` over the exceptions. */
  method AnyExceptsZero(v: Json) returns (found: Result<bool, Failure>)
    ensures found == Ok(true) <==> Iterated(v).Some? && ZeroDocumented(Iterated(v).value)
  {
    if Iterated(v).None? {
      return Err(TypeError);
    }
    var exceptions := Iterated(v).value;
    for i := 0 to |exceptions|
      invariant forall j :: 0 <= j < i ==> exceptions[j].Obj? && !ExceptsZero(exceptions[j])
    {
      if !exceptions[i].Obj? {
        return Err(TypeError);
      }
      if ExceptsZero(exceptions[i]) {
        return Ok(true);
      }
    }
    found := Ok(false);
  }

  method ValidateExpected(v: Json) returns (verdict: Verdict)
    ensures verdict == Ok([]) <==> CompleteExpected(v)
  {
    if !v.Obj? {
      return Err(TypeError);
    }
    var issues := Undeclared(v.fields, REQUIRED_EXPECTED_KEYS);
    var checks := ValidateChecks(LookupOr(v.fields, "required_status_checks", Obj([])));
    if checks.Err? {
      return checks;
    }
    var flags := NotBoolean(v.fields, BOOLEAN_EXPECTED_KEYS);
    var reviews := ValidateReviews(LookupOr(v.fields, "required_pull_request_reviews", Obj([])));
    if reviews.Err? {
      return reviews;
    }
    assert HasAll(v.fields, REQUIRED_EXPECTED_KEYS) ==>
      Has(v.fields, "required_status_checks") && Has(v.fields, "required_pull_request_reviews")
    by {
      assert REQUIRED_EXPECTED_KEYS[5] == "required_status_checks";
      assert REQUIRED_EXPECTED_KEYS[6] == "required_pull_request_reviews";
    }
    verdict := Ok(issues + checks.value + flags + reviews.value);
  }

  /** `validate_policy_document` reports nothing exactly on complete policies. */
  method ValidatePolicy(policy: Fields) returns (verdict: Verdict)
    ensures verdict == Ok([]) <==> CompletePolicy(policy)
  {
    var issues := Undeclared(policy, POLICY_KEYS);
    var authority := ValidateAuthority(LookupOr(policy, "review_authority", Obj([])));
    if authority.Err? {
      return authority;
    }
    var declared := LookupOr(policy, "expected", Obj([]));
    var expected := ValidateExpected(declared);
    if expected.Err? {
      return expected;
    }
    var listed := LookupOr(policy, "documented_exceptions", Arr([]));
    var exceptions := ValidateExceptions(listed);
    if exceptions.Err? {
      return exceptions;
    }
    issues := issues + authority.value + expected.value + exceptions.value;
    var reviews := Reviews(declared);
    if reviews.Obj? && Equal(Lookup(reviews.fields, COUNT), Int(0)) {
      var found := AnyExceptsZero(listed);
      if found.Err? {
        return Err(found.error);
      }
      if !found.value {
        issues := issues + [ZERO_APPROVALS];
      }
    }
    assert HasAll(policy, POLICY_KEYS) ==> Has(policy, "expected") && Has(policy, "documented_exceptions") by {
      assert POLICY_KEYS[2] == "expected" && POLICY_KEYS[3] == "documented_exceptions";
    }
    verdict := Ok(issues);
  }
}
