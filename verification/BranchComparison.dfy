/** `compare_live_to_policy`, for whatever the live response holds. */
module BranchComparison {
  import opened Wrappers
  import opened Json
  import opened Sorting
  import opened BranchProtection

  datatype Issue =
    | Switch(name: string)
    | Restrictions
    | Strict
    | Contexts
    | ReviewPresence
    | ReviewField(key: string)
    | Bypass
    | CodeOwners

  type Report = Result<seq<Issue>, Failure>

  const COMPARED_REVIEW_KEYS := [COUNT] + REVIEW_FLAGS

  function Enabled(v: Json): Json {
    if v.Obj? then Lookup(v.fields, "enabled") else v
  }

  /** `v or {}`; iterated it visits what `v or []` does. */
  function OrEmpty(v: Json): Json {
    if Truthy(v) then v else Obj([])
  }

  // ----- sorted lists -----

  lemma JsonOrder(items: seq<Json>)
    requires AllStrings(items)
    ensures TotalPreorder(JsonLeq) && NoTies(JsonLeq, multiset(items))
  {
    StringOrder();
    assert forall a: Json, b: Json, c: Json :: JsonLeq(a, b) && JsonLeq(b, c) ==> JsonLeq(a, c);
    forall a, b | a in multiset(items) && b in multiset(items) && JsonLeq(a, b) && JsonLeq(b, a) ensures a == b {
      assert a in items && b in items;
      StringAntisymmetric(a.s, b.s);
    }
  }

  lemma ListsEqualToStrings(a: seq<Json>, b: seq<Json>)
    requires AllStrings(b)
    ensures ListsEqual(a, b) <==> a == b
  {
    if ListsEqual(a, b) {
      forall i | 0 <= i < |a| ensures a[i] == b[i] {
        assert b[i].Str?;
      }
    }
  }

  lemma SortedStrings(items: seq<Json>, other: OtherOrder)
    requires AllStrings(items)
    ensures SortedList(items, other).Some? && AllStrings(SortedList(items, other).value)
  {
    SortContents(JsonLeq, items);
    var b := SortedList(items, other).value;
    forall i | 0 <= i < |b| ensures b[i].Str? {
      assert b[i] in multiset(b);
      assert b[i] in items;
    }
  }

  lemma StringsLike(a: seq<Json>, b: seq<Json>)
    requires AllStrings(a) && multiset(a) == multiset(b)
    ensures AllStrings(b)
  {
    forall i | 0 <= i < |b| ensures b[i].Str? {
      assert b[i] in multiset(b);
      assert b[i] in a;
    }
  }

  lemma SortedContents(items: seq<Json>, other: OtherOrder)
    requires Permutes(other) && SortedList(items, other).Some?
    ensures multiset(SortedList(items, other).value) == multiset(items)
  {
    SortContents(JsonLeq, items);
  }

  /** Where one side is all strings, comparing sorted lists is comparing multisets. */
  lemma SortedListsEqualIff(live: seq<Json>, declared: seq<Json>, other: OtherOrder)
    requires Permutes(other) && SortedList(live, other).Some? && SortedList(declared, other).Some?
    requires AllStrings(declared) || AllStrings(live)
    ensures ListsEqual(SortedList(live, other).value, SortedList(declared, other).value)
            <==> multiset(live) == multiset(declared)
  {
    var a, b := SortedList(live, other).value, SortedList(declared, other).value;
    SortedContents(live, other);
    SortedContents(declared, other);
    if AllStrings(declared) {
      SortedStrings(declared, other);
      ListsEqualToStrings(a, b);
    } else {
      SortedStrings(live, other);
      ListsEqualToStrings(b, a);
      assert ListsEqual(a, b) <==> ListsEqual(b, a);
    }
    if multiset(live) == multiset(declared) {
      if AllStrings(declared) {
        StringsLike(declared, live);
      } else {
        StringsLike(live, declared);
      }
      JsonOrder(declared);
      SortedEqualIffSameContents(JsonLeq, declared, live);
    }
  }

  // ----- what differs -----

  function LiveChecks(live: Fields): Fields {
    var checks := OrEmpty(Lookup(live, "required_status_checks"));
    if checks.Obj? then checks.fields else []
  }

  function LiveContexts(live: Fields): seq<Json> {
    var contexts := OrEmpty(Lookup(LiveChecks(live), "contexts"));
    if Iterated(contexts).Some? then Iterated(contexts).value else []
  }

  function NameField(category: string): string {
    if category == "users" then "login" else "slug"
  }

  predicate AllObjects(items: seq<Json>) {
    forall i :: 0 <= i < |items| ==> items[i].Obj?
  }

  /** The names a live bypass category lists; a missing category lists none. */
  function Names(bypass: Fields, category: string): Option<seq<Json>> {
    var listed := Iterated(LookupOr(bypass, category, Arr([])));
    if listed.Some? && AllObjects(listed.value)
    then Some(seq(|listed.value|, i requires 0 <= i < |listed.value| =>
                    LookupOr(listed.value[i].fields, NameField(category), Str(""))))
    else None
  }

  function LiveBypass(reviews: Fields): Fields {
    var bypass := OrEmpty(Lookup(reviews, BYPASS));
    if bypass.Obj? then bypass.fields else []
  }

  predicate OnlyCategories(declared: Fields) {
    forall i :: 0 <= i < |declared| ==> declared[i].0 in CATEGORIES
  }

  /** The same names, however often and in whatever order each is listed; where neither side is all strings, the
      same list once Python has sorted both. */
  ghost predicate CategoryAgrees(declared: Fields, live: Fields, category: string, other: OtherOrder) {
    && Lookup(declared, category).Arr? && Names(live, category).Some?
    && if Comparable(declared, live, category)
       then multiset(Names(live, category).value) == multiset(Lookup(declared, category).items)
       else CategoryMatches(declared, live, category, other)
  }

  /** The names are strings, the declared or the live ones. */
  predicate Comparable(declared: Fields, live: Fields, category: string) {
    && Lookup(declared, category).Arr?
    && (AllStrings(Lookup(declared, category).items)
        || (Names(live, category).Some? && AllStrings(Names(live, category).value)))
  }

  /** One entry of the two dictionaries, compared as the sorted lists they hold. */
  predicate CategoryMatches(declared: Fields, live: Fields, category: string, other: OtherOrder) {
    var names, listed := Names(live, category), Iterated(Lookup(declared, category));
    && names.Some? && listed.Some?
    && SortedList(names.value, other).Some? && SortedList(listed.value, other).Some?
    && ListsEqual(SortedList(names.value, other).value, SortedList(listed.value, other).value)
  }

  ghost predicate BypassAgrees(declared: Fields, live: Fields, other: OtherOrder) {
    OnlyCategories(declared) && forall i :: 0 <= i < |CATEGORIES| ==> CategoryAgrees(declared, live, CATEGORIES[i], other)
  }

  ghost predicate SwitchDiffers(issue: Issue, expected: Fields, live: Fields) {
    match issue
    case Switch(name) => name in SWITCHES && !Equal(Enabled(Lookup(live, name)), Lookup(expected, name))
    case Restrictions => !Equal(Bool(Lookup(live, "restrictions") != Null), Lookup(expected, "restrictions_present"))
    case _ => false
  }

  ghost predicate ChecksDiffer(issue: Issue, declared: Json, live: Fields)
    requires CompleteChecks(declared)
  {
    match issue
    case Strict => !Equal(Lookup(LiveChecks(live), "strict"), Lookup(declared.fields, "strict"))
    case Contexts => multiset(LiveContexts(live)) != multiset(Lookup(declared.fields, "contexts").items)
    case _ => false
  }

  ghost predicate ReviewsDiffer(issue: Issue, declared: Json, live: Json, other: OtherOrder)
    requires CompleteReviews(declared)
  {
    var same := Equal(Bool(live != Null), Lookup(declared.fields, "present"));
    match issue
    case ReviewPresence => !same
    case ReviewField(key) =>
      same && live.Obj? && key in COMPARED_REVIEW_KEYS && !Equal(Lookup(live.fields, key), Lookup(declared.fields, key))
    case Bypass =>
      same && live.Obj? && Lookup(declared.fields, BYPASS).Obj?
      && !BypassAgrees(Lookup(declared.fields, BYPASS).fields, LiveBypass(live.fields), other)
    case _ => false
  }

  // ----- when the comparison raises -----

  /** `sorted` returns: it was given something to visit, and all strings or what Python can order. */
  predicate Sortable(visited: Option<seq<Json>>, other: OtherOrder) {
    visited.Some? && (AllStrings(visited.value) || other(visited.value).Some?)
  }

  /** The required checks are an object or nothing, and so are sortable contexts. */
  predicate ChecksReadable(live: Fields, other: OtherOrder) {
    var checks := Lookup(live, "required_status_checks");
    && (checks.Obj? || !Truthy(checks))
    && (checks.Obj? && Truthy(Lookup(checks.fields, "contexts")) ==>
          Sortable(Iterated(Lookup(checks.fields, "contexts")), other))
  }

  /** Every live category lists objects, and every list of names can be sorted, the declared ones too. */
  predicate BypassReadable(declared: Fields, live: Fields, other: OtherOrder) {
    && Sortable(Names(live, "users"), other) && Sortable(Names(live, "teams"), other) && Sortable(Names(live, "apps"), other)
    && forall i :: 0 <= i < |declared| ==> Sortable(Iterated(declared[i].1), other)
  }

  /** The review block matters when its presence is as declared: then it is nothing, or an object whose allowances
      are an object or nothing. */
  predicate ReviewsReadable(declared: Fields, live: Json, other: OtherOrder) {
    Equal(Bool(live != Null), Lookup(declared, "present")) && live != Null ==>
      && live.Obj? && Lookup(declared, "bypass_pull_request_allowances").Obj?
      && var bypass := Lookup(live.fields, "bypass_pull_request_allowances");
      && (bypass.Obj? || !Truthy(bypass))
      && BypassReadable(Lookup(declared, "bypass_pull_request_allowances").fields,
                        if bypass.Obj? then bypass.fields else [], other)
  }

  predicate Readable(expected: Fields, live: Fields, other: OtherOrder) {
    && ChecksReadable(live, other) && Lookup(expected, "required_pull_request_reviews").Obj?
    && ReviewsReadable(Lookup(expected, "required_pull_request_reviews").fields,
                       Lookup(live, "required_pull_request_reviews"), other)
  }

  // ----- the comparison -----

  /** The keys from `keys` whose live value, as `reading` takes it, is not the declared one. */
  method CompareKeys(declared: Fields, live: Fields, keys: seq<string>, reading: Json -> Json)
    returns (differing: Result<seq<string>, Failure>)
    ensures HasAll(declared, keys) ==> differing.Ok?
    ensures differing.Ok? ==> forall key :: key in differing.value <==>
      key in keys && !Equal(reading(Lookup(live, key)), Lookup(declared, key))
  {
    var found: seq<string> := [];
    for i := 0 to |keys|
      invariant forall key :: key in found ==> key in keys && !Equal(reading(Lookup(live, key)), Lookup(declared, key))
      invariant forall j :: 0 <= j < i && !Equal(reading(Lookup(live, keys[j])), Lookup(declared, keys[j])) ==>
            keys[j] in found
    {
      if !Has(declared, keys[i]) {
        return Err(KeyError);
      }
      if !Equal(reading(Lookup(live, keys[i])), Lookup(declared, keys[i])) {
        found := found + [keys[i]];
      }
    }
    differing := Ok(found);
  }

  function Same(v: Json): Json {
    v
  }

  function Switched(names: seq<string>): seq<Issue> {
    seq(|names|, i requires 0 <= i < |names| => Switch(names[i]))
  }

  lemma SwitchedIn(names: seq<string>, issue: Issue)
    ensures issue in Switched(names) <==> issue.Switch? && issue.name in names
  {
    if issue.Switch? && issue.name in names {
      var i :| 0 <= i < |names| && names[i] == issue.name;
      assert Switched(names)[i] == issue;
    }
  }

  method CompareSwitches(expected: Fields, live: Fields) returns (report: Report)
    ensures HasAll(expected, SWITCHES) && Has(expected, "restrictions_present") ==> report.Ok?
    ensures report.Ok? ==> forall issue :: issue in report.value <==> SwitchDiffers(issue, expected, live)
  {
    var differing := CompareKeys(expected, live, SWITCHES, Enabled);
    if differing.Err? {
      return Err(differing.error);
    }
    if !Has(expected, "restrictions_present") {
      return Err(KeyError);
    }
    var issues := Switched(differing.value);
    forall issue ensures issue in issues <==> issue.Switch? && issue.name in differing.value {
      SwitchedIn(differing.value, issue);
    }
    if !Equal(Bool(Lookup(live, "restrictions") != Null), Lookup(expected, "restrictions_present")) {
      issues := issues + [Restrictions];
    }
    report := Ok(issues);
  }

  method CompareChecks(declared: Json, live: Fields, other: OtherOrder) returns (report: Report)
    ensures CompleteChecks(declared) ==> report != Err(KeyError) && (report.Ok? <==> ChecksReadable(live, other))
    ensures report.Ok? && CompleteChecks(declared) && Permutes(other) ==>
      forall issue :: issue in report.value <==> ChecksDiffer(issue, declared, live)
  {
    var checks := OrEmpty(Lookup(live, "required_status_checks"));
    if !checks.Obj? || !declared.Obj? {
      return Err(TypeError);
    }
    if !Has(declared.fields, "strict") {
      return Err(KeyError);
    }
    var issues: seq<Issue> := [];
    if !Equal(Lookup(checks.fields, "strict"), Lookup(declared.fields, "strict")) {
      issues := issues + [Strict];
    }
    var contexts := OrEmpty(Lookup(checks.fields, "contexts"));
    if Iterated(contexts).None? || SortedList(Iterated(contexts).value, other).None? {
      return Err(TypeError);
    }
    if !Has(declared.fields, "contexts") {
      return Err(KeyError);
    }
    var wanted := Lookup(declared.fields, "contexts");
    if Iterated(wanted).None? || SortedList(Iterated(wanted).value, other).None? {
      return Err(TypeError);
    }
    if CompleteChecks(declared) {
      if Permutes(other) {
        SortedListsEqualIff(LiveContexts(live), wanted.items, other);
      }
    }
    if !ListsEqual(SortedList(Iterated(contexts).value, other).value, SortedList(Iterated(wanted).value, other).value) {
      issues := issues + [Contexts];
    }
    report := Ok(issues);
  }

  ghost predicate SortedNames(actual: seq<seq<Json>>, live: Fields, categories: seq<string>, other: OtherOrder) {
    |actual| == |categories| && forall i :: 0 <= i < |actual| ==>
      Names(live, categories[i]).Some? && SortedList(Names(live, categories[i]).value, other) == Some(actual[i])
  }

  /** `actual_bypass`. */
  method CollectNames(live: Fields, categories: seq<string>, other: OtherOrder) returns (actual: Option<seq<seq<Json>>>)
    ensures actual.Some? ==> SortedNames(actual.value, live, categories, other)
    ensures actual.Some? <==> forall i :: 0 <= i < |categories| ==> Sortable(Names(live, categories[i]), other)
  {
    var lists: seq<seq<Json>> := [];
    for i := 0 to |categories|
      invariant SortedNames(lists, live, categories[..i], other)
      invariant forall j :: 0 <= j < i ==> Sortable(Names(live, categories[j]), other)
    {
      var names := Names(live, categories[i]);
      if names.None? || SortedList(names.value, other).None? {
        return None;
      }
      lists := lists + [SortedList(names.value, other).value];
    }
    assert categories[..|categories|] == categories;
    actual := Some(lists);
  }

  /** Whether `actual_bypass` is the declared dictionary with its lists sorted. */
  method SameBypass(declared: Json, live: Fields, other: OtherOrder) returns (same: Result<bool, Failure>)
    ensures same != Err(KeyError)
    ensures same.Ok? <==> declared.Obj? && BypassReadable(declared.fields, live, other)
    ensures same.Ok? && Permutes(other) && Lists(declared.fields, CATEGORIES) ==>
      (same.value <==> BypassAgrees(declared.fields, live, other))
  {
    var categories := CATEGORIES;
    var actual := CollectNames(live, categories, other);
    EachCategorySortable(live, other);
    if actual.None? || !declared.Obj? {
      return Err(TypeError);
    }
    for i := 0 to |declared.fields|
      invariant forall j :: 0 <= j < i ==> Sortable(Iterated(declared.fields[j].1), other)
    {
      var listed := Iterated(declared.fields[i].1);
      if listed.None? || SortedList(listed.value, other).None? {
        return Err(TypeError);
      }
    }
    same := Ok(OnlyCategories(declared.fields)
               && forall i :: 0 <= i < |categories| ==> CategoryMatches(declared.fields, live, categories[i], other));
    if Permutes(other) && Lists(declared.fields, CATEGORIES) {
      EachCategoryMatchesIff(declared.fields, live, other);
    }
  }

  lemma EachCategorySortable(live: Fields, other: OtherOrder)
    ensures (forall i :: 0 <= i < |CATEGORIES| ==> Sortable(Names(live, CATEGORIES[i]), other)) <==>
            && Sortable(Names(live, "users"), other) && Sortable(Names(live, "teams"), other)
            && Sortable(Names(live, "apps"), other)
  {
    var c := CATEGORIES;
    assert c[0] == "users" && c[1] == "teams" && c[2] == "apps";
  }

  lemma EachCategoryMatchesIff(declared: Fields, live: Fields, other: OtherOrder)
    requires Permutes(other) && Lists(declared, CATEGORIES)
    requires forall i :: 0 <= i < |CATEGORIES| ==> Sortable(Names(live, CATEGORIES[i]), other)
    ensures forall i :: 0 <= i < |CATEGORIES| ==>
              (CategoryMatches(declared, live, CATEGORIES[i], other) <==>
               CategoryAgrees(declared, live, CATEGORIES[i], other))
  {
    forall i | 0 <= i < |CATEGORIES|
      ensures CategoryMatches(declared, live, CATEGORIES[i], other) <==> CategoryAgrees(declared, live, CATEGORIES[i], other)
    {
      CategoryMatchesIff(declared, live, CATEGORIES[i], other);
    }
  }

  lemma CategoryMatchesIff(declared: Fields, live: Fields, category: string, other: OtherOrder)
    requires Permutes(other) && Lookup(declared, category).Arr?
    requires Names(live, category).Some? && SortedList(Names(live, category).value, other).Some?
    ensures CategoryMatches(declared, live, category, other) <==> CategoryAgrees(declared, live, category, other)
  {
    var names, items := Names(live, category).value, Lookup(declared, category).items;
    if Comparable(declared, live, category) {
      if SortedList(items, other).Some? {
        SortedListsEqualIff(names, items, other);
      } else if multiset(names) == multiset(items) {
        StringsLike(names, items);
        assert false;
      }
    }
  }

  function Fielded(keys: seq<string>): seq<Issue> {
    seq(|keys|, i requires 0 <= i < |keys| => ReviewField(keys[i]))
  }

  lemma FieldedIn(keys: seq<string>, issue: Issue)
    ensures issue in Fielded(keys) <==> issue.ReviewField? && issue.key in keys
  {
    if issue.ReviewField? && issue.key in keys {
      var i :| 0 <= i < |keys| && keys[i] == issue.key;
      assert Fielded(keys)[i] == issue;
    }
  }

  /** The fields of a review block that is present on both sides. */
  method CompareReviewFields(declared: Fields, live: Fields) returns (report: Report)
    ensures HasAll(declared, COMPARED_REVIEW_KEYS) ==> report.Ok?
    ensures report.Ok? ==> forall issue :: issue in report.value <==>
      && issue.ReviewField? && issue.key in COMPARED_REVIEW_KEYS
      && !Equal(Lookup(live, issue.key), Lookup(declared, issue.key))
  {
    var differing := CompareKeys(declared, live, COMPARED_REVIEW_KEYS, Same);
    if differing.Err? {
      return Err(differing.error);
    }
    forall issue ensures issue in Fielded(differing.value) <==> issue.ReviewField? && issue.key in differing.value {
      FieldedIn(differing.value, issue);
    }
    report := Ok(Fielded(differing.value));
  }

  lemma ReviewKeysDeclared(declared: Json)
    requires CompleteReviews(declared) && Truthy(Lookup(declared.fields, "present"))
    ensures HasAll(declared.fields, COMPARED_REVIEW_KEYS) && Has(declared.fields, BYPASS)
  {
    assert REQUIRED_REVIEW_KEYS[..4] == COMPARED_REVIEW_KEYS && REQUIRED_REVIEW_KEYS[4] == BYPASS;
    forall i | 0 <= i < |COMPARED_REVIEW_KEYS| ensures Has(declared.fields, COMPARED_REVIEW_KEYS[i]) {
      assert REQUIRED_REVIEW_KEYS[i] == COMPARED_REVIEW_KEYS[i];
    }
  }

  method CompareReviews(declared: Json, live: Json, other: OtherOrder) returns (report: Report)
    ensures CompleteReviews(declared) ==>
              report != Err(KeyError) && (report.Ok? <==> ReviewsReadable(declared.fields, live, other))
    ensures report.Ok? && CompleteReviews(declared) && Permutes(other) ==>
      forall issue :: issue in report.value <==> ReviewsDiffer(issue, declared, live, other)
  {
    if !declared.Obj? {
      return Err(TypeError);
    }
    if !Has(declared.fields, "present") {
      return Err(KeyError);
    }
    if !Equal(Bool(live != Null), Lookup(declared.fields, "present")) {
      return Ok([ReviewPresence]);
    }
    if live == Null {
      return Ok([]);
    }
    if !live.Obj? {
      return Err(TypeError);
    }
    assert Truthy(Lookup(declared.fields, "present"));
    if CompleteReviews(declared) {
      ReviewKeysDeclared(declared);
    }
    report := CompareReviewFields(declared.fields, live.fields);
    if report.Err? {
      return;
    }
    if !OrEmpty(Lookup(live.fields, BYPASS)).Obj? {
      return Err(TypeError);
    }
    if !Has(declared.fields, BYPASS) {
      return Err(KeyError);
    }
    var same := SameBypass(Lookup(declared.fields, BYPASS), LiveBypass(live.fields), other);
    if same.Err? {
      return Err(same.error);
    }
    if !same.value {
      report := Ok(report.value + [Bypass]);
    }
  }

  // ----- the whole comparison -----

  ghost predicate Differs(issue: Issue, expected: Json, live: Fields, codeowners: bool, other: OtherOrder)
    requires CompleteExpected(expected)
  {
    || SwitchDiffers(issue, expected.fields, live)
    || ChecksDiffer(issue, Lookup(expected.fields, "required_status_checks"), live)
    || ReviewsDiffer(issue, Lookup(expected.fields, "required_pull_request_reviews"),
                     Lookup(live, "required_pull_request_reviews"), other)
    || (issue == CodeOwners && !Equal(Bool(codeowners), Lookup(expected.fields, "codeowners_present")))
  }

  lemma PolicyKeysDeclared(policy: Fields)
    requires HasAll(policy, POLICY_KEYS)
    ensures Has(policy, "expected")
  {
    assert POLICY_KEYS[2] == "expected";
  }

  lemma ExpectedKeysDeclared(expected: Fields)
    requires HasAll(expected, REQUIRED_EXPECTED_KEYS)
    ensures HasAll(expected, SWITCHES) && Has(expected, "restrictions_present") && Has(expected, "codeowners_present")
    ensures Has(expected, "required_status_checks") && Has(expected, "required_pull_request_reviews")
  {
    var keys := REQUIRED_EXPECTED_KEYS;
    assert keys[5] == "required_status_checks" && keys[6] == "required_pull_request_reviews";
    assert keys[7] == "restrictions_present" && keys[8] == "codeowners_present";
    forall i | 0 <= i < |SWITCHES| ensures Has(expected, SWITCHES[i]) {
      assert keys[i] == SWITCHES[i];
    }
  }

  /**
   `compare_live_to_policy`. On a complete policy no lookup of a declared key fails, and the
   issues are exactly the settings that differ. Whether CODEOWNERS exists is given.
   */
  method Compare(policy: Fields, live: Fields, codeowners: bool, other: OtherOrder) returns (report: Report)
    ensures CompletePolicy(policy) ==>
              report != Err(KeyError) && (report.Ok? <==> Readable(Lookup(policy, "expected").fields, live, other))
    ensures report.Ok? && CompletePolicy(policy) && Permutes(other) ==>
      var expected := Lookup(policy, "expected");
      && (forall issue :: issue in report.value <==> Differs(issue, expected, live, codeowners, other))
      && (report.value == [] <==> Agrees(expected, live, codeowners, other))
  {
    if HasAll(policy, POLICY_KEYS) {
      PolicyKeysDeclared(policy);
    }
    if !Has(policy, "expected") {
      return Err(KeyError);
    }
    if !Lookup(policy, "expected").Obj? {
      return Err(TypeError);
    }
    var expected := Lookup(policy, "expected").fields;
    if HasAll(expected, REQUIRED_EXPECTED_KEYS) {
      ExpectedKeysDeclared(expected);
    }
    var switches := CompareSwitches(expected, live);
    if switches.Err? {
      return switches;
    }
    if !Has(expected, "required_status_checks") {
      return Err(KeyError);
    }
    var checks := CompareChecks(Lookup(expected, "required_status_checks"), live, other);
    if checks.Err? {
      return checks;
    }
    if !Has(expected, "required_pull_request_reviews") {
      return Err(KeyError);
    }
    var reviews := CompareReviews(Lookup(expected, "required_pull_request_reviews"),
                                  Lookup(live, "required_pull_request_reviews"), other);
    if reviews.Err? {
      return reviews;
    }
    if !Has(expected, "codeowners_present") {
      return Err(KeyError);
    }
    var owners: seq<Issue> := [];
    if !Equal(Bool(codeowners), Lookup(expected, "codeowners_present")) {
      owners := [CodeOwners];
    }
    var issues := switches.value + checks.value + reviews.value + owners;
    if CompletePolicy(policy) {
      CleanIffAgrees(Lookup(policy, "expected"), live, codeowners, other);
      assert issues != [] ==> issues[0] in issues;
    }
    report := Ok(issues);
  }

  // ----- what an empty report means -----

  ghost predicate ReviewsAgree(declared: Json, live: Json, other: OtherOrder)
    requires CompleteReviews(declared)
  {
    && Equal(Bool(live != Null), Lookup(declared.fields, "present"))
    && (live.Obj? ==>
          && (forall key :: key in COMPARED_REVIEW_KEYS ==> Equal(Lookup(live.fields, key), Lookup(declared.fields, key)))
          && (Lookup(declared.fields, BYPASS).Obj? ==>
                BypassAgrees(Lookup(declared.fields, BYPASS).fields, LiveBypass(live.fields), other)))
  }

  lemma ReviewsCleanIffAgree(declared: Json, live: Json, other: OtherOrder)
    requires CompleteReviews(declared)
    ensures (forall issue :: !ReviewsDiffer(issue, declared, live, other)) <==> ReviewsAgree(declared, live, other)
  {
    if forall issue :: !ReviewsDiffer(issue, declared, live, other) {
      assert !ReviewsDiffer(ReviewPresence, declared, live, other) && !ReviewsDiffer(Bypass, declared, live, other);
      forall key | key in COMPARED_REVIEW_KEYS ensures !ReviewsDiffer(ReviewField(key), declared, live, other) {
      }
    }
  }

  ghost predicate SwitchesAgree(expected: Fields, live: Fields) {
    && (forall name :: name in SWITCHES ==> Equal(Enabled(Lookup(live, name)), Lookup(expected, name)))
    && Equal(Bool(Lookup(live, "restrictions") != Null), Lookup(expected, "restrictions_present"))
  }

  lemma SwitchesCleanIffAgree(expected: Fields, live: Fields)
    ensures (forall issue :: !SwitchDiffers(issue, expected, live)) <==> SwitchesAgree(expected, live)
  {
    if forall issue :: !SwitchDiffers(issue, expected, live) {
      assert !SwitchDiffers(Restrictions, expected, live);
      forall name | name in SWITCHES ensures !SwitchDiffers(Switch(name), expected, live) {
      }
    }
  }

  ghost predicate ChecksAgree(declared: Json, live: Fields)
    requires CompleteChecks(declared)
  {
    && Equal(Lookup(LiveChecks(live), "strict"), Lookup(declared.fields, "strict"))
    && multiset(LiveContexts(live)) == multiset(Lookup(declared.fields, "contexts").items)
  }

  ghost predicate Agrees(expected: Json, live: Fields, codeowners: bool, other: OtherOrder)
    requires CompleteExpected(expected)
  {
    && SwitchesAgree(expected.fields, live)
    && ChecksAgree(Lookup(expected.fields, "required_status_checks"), live)
    && ReviewsAgree(Reviews(expected), Lookup(live, "required_pull_request_reviews"), other)
    && Equal(Bool(codeowners), Lookup(expected.fields, "codeowners_present"))
  }

  /** Nothing differs exactly when every setting agrees, lists as multisets. */
  lemma CleanIffAgrees(expected: Json, live: Fields, codeowners: bool, other: OtherOrder)
    requires CompleteExpected(expected)
    ensures (forall issue :: !Differs(issue, expected, live, codeowners, other))
       <==> Agrees(expected, live, codeowners, other)
  {
    var checks, reviews := Lookup(expected.fields, "required_status_checks"), Reviews(expected);
    var liveReviews := Lookup(live, "required_pull_request_reviews");
    SwitchesCleanIffAgree(expected.fields, live);
    ReviewsCleanIffAgree(reviews, liveReviews, other);
    if forall issue :: !Differs(issue, expected, live, codeowners, other) {
      assert !Differs(CodeOwners, expected, live, codeowners, other);
      assert !Differs(Strict, expected, live, codeowners, other) && !Differs(Contexts, expected, live, codeowners, other);
      forall issue
        ensures !SwitchDiffers(issue, expected.fields, live) && !ReviewsDiffer(issue, reviews, liveReviews, other)
      {
        assert !Differs(issue, expected, live, codeowners, other);
      }
    }
  }

  // ----- what is read, key by key -----

  predicate SwitchName(name: string) {
    || name == "enforce_admins" || name == "required_linear_history" || name == "allow_force_pushes"
    || name == "allow_deletions" || name == "required_conversation_resolution"
  }

  /** A live switch is what its "enabled" says, or the bare boolean. */
  predicate LiveSwitch(live: Fields, name: string, b: bool) {
    || Lookup(live, name) == Bool(b)
    || (Lookup(live, name).Obj? && Lookup(Lookup(live, name).fields, "enabled") == Bool(b))
  }

  lemma SwitchNames(name: string)
    ensures name in SWITCHES <==> SwitchName(name)
  {
    var s := SWITCHES;
    assert s[0] == "enforce_admins" && s[1] == "required_linear_history" && s[2] == "allow_force_pushes";
    assert s[3] == "allow_deletions" && s[4] == "required_conversation_resolution";
  }

  /** A switch that is on or off differs exactly when the document says otherwise; an object that does not say
      whether it is enabled always differs, and nothing but the five switches is reported as one. */
  lemma SwitchReads(expected: Json, live: Fields, codeowners: bool, name: string, b: bool, other: OtherOrder)
    requires CompleteExpected(expected)
    ensures SwitchName(name) && LiveSwitch(live, name, b) ==>
              (Differs(Switch(name), expected, live, codeowners, other) <==> Lookup(expected.fields, name) != Bool(b))
    ensures SwitchName(name) && Lookup(live, name).Obj? && !Has(Lookup(live, name).fields, "enabled") ==>
              Differs(Switch(name), expected, live, codeowners, other)
    ensures !SwitchName(name) ==> !Differs(Switch(name), expected, live, codeowners, other)
  {
    SwitchNames(name);
    ExpectedCompleteIff(expected);
  }

  /** Push restrictions and CODEOWNERS differ exactly when their presence does. */
  lemma PresencesRead(expected: Json, live: Fields, codeowners: bool, other: OtherOrder)
    requires CompleteExpected(expected)
    ensures Differs(Restrictions, expected, live, codeowners, other) <==>
            Lookup(expected.fields, "restrictions_present") != Bool(Lookup(live, "restrictions") != Null)
    ensures Differs(CodeOwners, expected, live, codeowners, other) <==>
            Lookup(expected.fields, "codeowners_present") != Bool(codeowners)
  {
    ExpectedCompleteIff(expected);
  }

  /** Required checks: the strict flag, and the contexts as a multiset. */
  lemma ChecksRead(expected: Json, live: Fields, codeowners: bool, checks: Fields, b: bool, contexts: seq<Json>,
                   other: OtherOrder)
    requires CompleteExpected(expected) && Lookup(live, "required_status_checks") == Obj(checks)
    ensures Lookup(checks, "strict") == Bool(b) ==>
              (Differs(Strict, expected, live, codeowners, other) <==>
               Lookup(Lookup(expected.fields, "required_status_checks").fields, "strict") != Bool(b))
    ensures Lookup(checks, "contexts") == Arr(contexts) ==>
              (Differs(Contexts, expected, live, codeowners, other) <==>
               multiset(contexts) !=
                 multiset(Lookup(Lookup(expected.fields, "required_status_checks").fields, "contexts").items))
  {
    ExpectedCompleteIff(expected);
  }

  predicate ReviewFlag(key: string) {
    key == "dismiss_stale_reviews" || key == "require_code_owner_reviews" || key == "require_last_push_approval"
  }

  lemma ReviewFieldNames(key: string)
    ensures key in COMPARED_REVIEW_KEYS <==> key == "required_approving_review_count" || ReviewFlag(key)
  {
    var k := COMPARED_REVIEW_KEYS;
    assert k[0] == "required_approving_review_count" && k[1] == "dismiss_stale_reviews";
    assert k[2] == "require_code_owner_reviews" && k[3] == "require_last_push_approval";
  }

  /** The review block: whether it is there, its three flags and its count. */
  lemma ReviewsRead(expected: Json, live: Fields, codeowners: bool, reviews: Fields, key: string, b: bool, n: int,
                    other: OtherOrder)
    requires CompleteExpected(expected) && Lookup(Reviews(expected).fields, "present").Bool?
    ensures Differs(ReviewPresence, expected, live, codeowners, other) <==>
            Lookup(Reviews(expected).fields, "present") != Bool(Lookup(live, "required_pull_request_reviews") != Null)
    ensures Lookup(Reviews(expected).fields, "present") == Bool(true)
            && Lookup(live, "required_pull_request_reviews") == Obj(reviews) ==>
              var declared := Lookup(Reviews(expected).fields, key);
              && (ReviewFlag(key) && Lookup(reviews, key) == Bool(b) ==>
                    (Differs(ReviewField(key), expected, live, codeowners, other) <==> declared != Bool(b)))
              && (key == "required_approving_review_count" && Lookup(reviews, key) == Int(n) ==>
                    (Differs(ReviewField(key), expected, live, codeowners, other) <==> declared != Int(n)))
              && (!ReviewFlag(key) && key != "required_approving_review_count" ==>
                    !Differs(ReviewField(key), expected, live, codeowners, other))
  {
    ReviewFieldNames(key);
    ReviewsCompleteIff(Reviews(expected));
  }

  /** Users are listed by login, teams and apps by slug; one without is listed as the empty string. */
  lemma NamesRead(bypass: Fields, items: seq<Json>, i: nat)
    requires AllObjects(items) && i < |items|
    ensures Lookup(bypass, "users") == Arr(items) && Has(bypass, "users") ==>
              Names(bypass, "users").Some? && |Names(bypass, "users").value| == |items|
              && Names(bypass, "users").value[i]
                 == if Has(items[i].fields, "login") then Lookup(items[i].fields, "login") else Str("")
    ensures forall category :: (category == "teams" || category == "apps") && Lookup(bypass, category) == Arr(items) ==>
              Names(bypass, category).Some? && |Names(bypass, category).value| == |items|
              && Names(bypass, category).value[i]
                 == if Has(items[i].fields, "slug") then Lookup(items[i].fields, "slug") else Str("")
  {
    assert "teams" != "users" && "apps" != "users";
  }

  /** The bypass names of a category, where the document lists strings, agree as multisets. */
  predicate SameNames(declared: Fields, live: Fields, category: string) {
    && Lookup(declared, category).Arr? && Names(live, category).Some?
    && multiset(Names(live, category).value) == multiset(Lookup(declared, category).items)
  }

  lemma BypassReads(expected: Json, live: Fields, codeowners: bool, reviews: Fields, bypass: Fields, other: OtherOrder)
    requires CompleteExpected(expected) && Lookup(Reviews(expected).fields, "present") == Bool(true)
    requires Lookup(live, "required_pull_request_reviews") == Obj(reviews)
    requires Lookup(reviews, "bypass_pull_request_allowances") == Obj(bypass)
    requires var declared := Lookup(Reviews(expected).fields, "bypass_pull_request_allowances").fields;
             forall category :: category in ["users", "teams", "apps"] && Lookup(declared, category).Arr? ==>
               AllStrings(Lookup(declared, category).items)
    ensures var declared := Lookup(Reviews(expected).fields, "bypass_pull_request_allowances").fields;
            Differs(Bypass, expected, live, codeowners, other) <==>
            || !SameNames(declared, bypass, "users") || !SameNames(declared, bypass, "teams")
            || !SameNames(declared, bypass, "apps")
            || exists i :: 0 <= i < |declared| && declared[i].0 !in ["users", "teams", "apps"]
  {
    var declared := Lookup(Reviews(expected).fields, BYPASS).fields;
    ReviewsCompleteIff(Reviews(expected));
    assert LiveBypass(reviews) == bypass;
    BypassAgreesIff(declared, bypass, other);
  }

  lemma BypassAgreesIff(declared: Fields, bypass: Fields, other: OtherOrder)
    requires forall category :: category in ["users", "teams", "apps"] && Lookup(declared, category).Arr? ==>
               AllStrings(Lookup(declared, category).items)
    ensures BypassAgrees(declared, bypass, other) <==>
            && SameNames(declared, bypass, "users") && SameNames(declared, bypass, "teams")
            && SameNames(declared, bypass, "apps")
            && forall i :: 0 <= i < |declared| ==> declared[i].0 in ["users", "teams", "apps"]
  {
    var c := CATEGORIES;
    assert c == ["users", "teams", "apps"];
    assert BypassAgrees(declared, bypass, other) <==>
           && OnlyCategories(declared) && CategoryAgrees(declared, bypass, c[0], other)
           && CategoryAgrees(declared, bypass, c[1], other) && CategoryAgrees(declared, bypass, c[2], other);
    forall category | category in c
      ensures CategoryAgrees(declared, bypass, category, other) <==> SameNames(declared, bypass, category)
    {
    }
  }

  // ----- absent settings -----

  lemma BooleanKey(d: Fields, keys: seq<string>, key: string)
    requires HasAll(d, keys) && key in keys && Booleans(d, keys)
    ensures Lookup(d, key).Bool?
  {
    var i :| 0 <= i < |keys| && keys[i] == key;
    assert Has(d, keys[i]);
  }

  lemma ExpectedBoolean(expected: Json, name: string)
    requires CompleteExpected(expected) && name in BOOLEAN_EXPECTED_KEYS
    ensures Lookup(expected.fields, name).Bool?
  {
    forall i | 0 <= i < |BOOLEAN_EXPECTED_KEYS| ensures Has(expected.fields, BOOLEAN_EXPECTED_KEYS[i]) {
      assert BOOLEAN_EXPECTED_KEYS[i] == REQUIRED_EXPECTED_KEYS[if i < 5 then i else i + 2];
    }
    BooleanKey(expected.fields, BOOLEAN_EXPECTED_KEYS, name);
  }

  /** A switch the response lacks is reported, whatever the policy expects of it. */
  lemma AbsentSwitchReported(expected: Json, live: Fields, codeowners: bool, name: string, other: OtherOrder)
    requires CompleteExpected(expected) && name in SWITCHES && !Has(live, name)
    ensures Differs(Switch(name), expected, live, codeowners, other)
  {
    assert name in BOOLEAN_EXPECTED_KEYS;
    ExpectedBoolean(expected, name);
  }

  /** So is each half of an absent status-check block, though its contexts are read as an empty list. */
  lemma AbsentChecksReported(expected: Json, live: Fields, codeowners: bool, other: OtherOrder)
    requires CompleteExpected(expected)
    ensures !Has(LiveChecks(live), "strict") ==> Differs(Strict, expected, live, codeowners, other)
    ensures !Has(LiveChecks(live), "contexts") ==> Differs(Contexts, expected, live, codeowners, other)
    ensures !Has(live, "required_status_checks") ==>
      Differs(Strict, expected, live, codeowners, other) && Differs(Contexts, expected, live, codeowners, other)
  {
    var declared := Lookup(Lookup(expected.fields, "required_status_checks").fields, "contexts").items;
    assert declared[0] in multiset(declared);
  }

  /** A declared review block that is absent is reported. */
  lemma AbsentReviewsReported(expected: Json, live: Fields, codeowners: bool, other: OtherOrder)
    requires CompleteExpected(expected) && Truthy(Lookup(Reviews(expected).fields, "present"))
    requires !Has(live, "required_pull_request_reviews")
    ensures Differs(ReviewPresence, expected, live, codeowners, other)
  {
  }

  /**
   The shape check lets `present` be any false value. Some live posture agrees with it exactly
   when it is a boolean or a number: null, "" and empty containers always differ.
   */
  lemma PresenceSatisfiableIff(declared: Json, other: OtherOrder)
    requires CompleteReviews(declared)
    ensures (exists live :: !ReviewsDiffer(ReviewPresence, declared, live, other))
            <==> Number(Lookup(declared.fields, "present")).Some?
  {
    var present := Lookup(declared.fields, "present");
    if Truthy(present) {
      PresentIsTrue(declared);
      assert !ReviewsDiffer(ReviewPresence, declared, Obj([]), other);
    } else if Number(present).Some? {
      assert !ReviewsDiffer(ReviewPresence, declared, Null, other);
    }
  }

  /** Inside a present block an absent field is reported, save a review count declared null. */
  lemma AbsentReviewFieldReported(expected: Json, live: Fields, codeowners: bool, key: string, other: OtherOrder)
    requires CompleteExpected(expected) && Truthy(Lookup(Reviews(expected).fields, "present"))
    requires Lookup(live, "required_pull_request_reviews").Obj? && key in COMPARED_REVIEW_KEYS
    requires !Has(Lookup(live, "required_pull_request_reviews").fields, key)
    ensures Differs(ReviewField(key), expected, live, codeowners, other) <==> Lookup(Reviews(expected).fields, key) != Null
    ensures key in REVIEW_FLAGS ==> Lookup(Reviews(expected).fields, key) != Null
  {
    var declared := Reviews(expected);
    ReviewKeysDeclared(declared);
    PresentIsTrue(declared);
    if key in REVIEW_FLAGS {
      ReviewFlagBoolean(declared, key);
    }
  }

  lemma ReviewFlagBoolean(declared: Json, key: string)
    requires CompleteReviews(declared) && Truthy(Lookup(declared.fields, "present"))
    requires key == "present" || key in REVIEW_FLAGS
    ensures Lookup(declared.fields, key).Bool?
  {
    assert BOOLEAN_REVIEW_KEYS[0] == "present" && BOOLEAN_REVIEW_KEYS[1..] == REVIEW_FLAGS;
    forall i | 0 <= i < |BOOLEAN_REVIEW_KEYS| ensures Has(declared.fields, BOOLEAN_REVIEW_KEYS[i]) {
      assert i > 0 ==> BOOLEAN_REVIEW_KEYS[i] == REQUIRED_REVIEW_KEYS[i];
    }
    BooleanKey(declared.fields, BOOLEAN_REVIEW_KEYS, key);
  }

  lemma PresentIsTrue(declared: Json)
    requires CompleteReviews(declared) && Truthy(Lookup(declared.fields, "present"))
    ensures Lookup(declared.fields, "present") == Bool(true)
  {
    ReviewFlagBoolean(declared, "present");
  }

  /** Absent bypass allowances are read as empty, so they are reported only against a name or a further category. */
  lemma AbsentBypassReportedIff(expected: Json, live: Fields, codeowners: bool, other: OtherOrder)
    requires CompleteExpected(expected) && Truthy(Lookup(Reviews(expected).fields, "present"))
    requires Lookup(live, "required_pull_request_reviews").Obj?
    requires !Has(Lookup(live, "required_pull_request_reviews").fields, BYPASS)
    ensures var declared := Lookup(Reviews(expected).fields, BYPASS).fields;
            Differs(Bypass, expected, live, codeowners, other) <==>
            || !OnlyCategories(declared)
            || exists i :: 0 <= i < |CATEGORIES| && Lookup(declared, CATEGORIES[i]) != Arr([])
  {
    PresentIsTrue(Reviews(expected));
    var declared := Lookup(Reviews(expected).fields, BYPASS).fields;
    assert LiveBypass(Lookup(live, "required_pull_request_reviews").fields) == [];
    forall i | 0 <= i < |CATEGORIES|
      ensures CategoryAgrees(declared, [], CATEGORIES[i], other) <==> Lookup(declared, CATEGORIES[i]) == Arr([])
    {
      assert Names([], CATEGORIES[i]).value == [];
      var items := Lookup(declared, CATEGORIES[i]).items;
      assert items != [] ==> items[0] in multiset(items);
    }
  }
}
