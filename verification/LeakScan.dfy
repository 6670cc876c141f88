/**
 The leak scan of the source-safe proof: a recursion over a JSON value that collects
 forbidden keys and sensitive markers, sorted and without repeats.
 */
module LeakScan {
  import opened Wrappers
  import opened Json
  import opened Sorting

  const SCHEMA_VERSION := "lotus-ai.rfc0002.idea-explanation-workflow-proof.v1"
  const SENSITIVE_MARKERS := ["PB_SG_GLOBAL_BAL_001"]
  const FORBIDDEN_PROOF_KEYS := {"raw_payload", "raw_prompt", "raw_provider_output", "provider_response"}

  // ----- what leaks: a place in the tree, not a traversal -----

  function Children(v: Json): seq<Json> {
    match v
    case Obj(fields) => seq(|fields|, i requires 0 <= i < |fields| => fields[i].1)
    case Arr(items) => items
    case _ => []
  }

  /** The value found by following child positions down from `v`. */
  ghost function Node(v: Json, path: seq<nat>): Option<Json> {
    if path == [] then Some(v)
    else if path[0] < |Children(v)| then Node(Children(v)[path[0]], path[1..])
    else None
  }

  predicate OccursAt(s: string, part: string, i: nat) {
    i + |part| <= |s| && s[i..i + |part|] == part
  }

  predicate Contains(s: string, part: string) {
    exists i :: 0 <= i <= |s| && OccursAt(s, part, i)
  }

  ghost predicate LeaksHere(v: Json, x: string, forbidden: set<string>, markers: seq<string>) {
    match v
    case Obj(fields) => x in forbidden && exists i :: 0 <= i < |fields| && fields[i].0 == x
    case Str(s) => x in markers && Contains(s, x)
    case _ => false
  }

  /** `x` is a forbidden key, or a marker inside a string value, at some depth of `v`. */
  ghost predicate Leaks(v: Json, x: string, forbidden: set<string>, markers: seq<string>) {
    exists path :: Node(v, path).Some? && LeaksHere(Node(v, path).value, x, forbidden, markers)
  }

  lemma LeaksUnfold(v: Json, x: string, forbidden: set<string>, markers: seq<string>)
    ensures Leaks(v, x, forbidden, markers) <==>
            || LeaksHere(v, x, forbidden, markers)
            || exists i :: 0 <= i < |Children(v)| && Leaks(Children(v)[i], x, forbidden, markers)
  {
    if path :| Node(v, path).Some? && LeaksHere(Node(v, path).value, x, forbidden, markers) {
      if path != [] {
        assert Node(v, path) == Node(Children(v)[path[0]], path[1..]);
        assert Leaks(Children(v)[path[0]], x, forbidden, markers);
      }
    }
    if LeaksHere(v, x, forbidden, markers) {
      assert Node(v, []) == Some(v);
    }
    if i :| 0 <= i < |Children(v)| && Leaks(Children(v)[i], x, forbidden, markers) {
      var rest :| Node(Children(v)[i], rest).Some? && LeaksHere(Node(Children(v)[i], rest).value, x, forbidden, markers);
      var path: seq<nat> := [i] + rest;
      assert path[1..] == rest;
      assert Node(v, path) == Node(Children(v)[i], rest);
    }
  }

  // ----- sorted(set(...)) -----

  function Dedup(s: seq<string>): seq<string> {
    if s == [] then [] else (if s[0] in s[1..] then [] else [s[0]]) + Dedup(s[1..])
  }

  lemma {:induction false} DedupContents(s: seq<string>, x: string)
    ensures multiset(Dedup(s))[x] == if x in s then 1 else 0
  {
    if s != [] {
      DedupContents(s[1..], x);
      assert s == [s[0]] + s[1..];
    }
  }

  function SortedSet(s: seq<string>): seq<string> {
    Sort(StringLeq, Dedup(s))
  }

  ghost predicate IsSortedSet(list: seq<string>) {
    Sorted(StringLeq, list) && forall x :: multiset(list)[x] <= 1
  }

  lemma SortedSetIs(s: seq<string>)
    ensures IsSortedSet(SortedSet(s))
    ensures forall x :: x in SortedSet(s) <==> x in s
  {
    StringOrder();
    SortSorted(StringLeq, Dedup(s));
    SortContents(StringLeq, Dedup(s));
    forall x ensures multiset(SortedSet(s))[x] <= 1 && (x in SortedSet(s) <==> x in s) {
      DedupContents(s, x);
      assert x in multiset(SortedSet(s)) <==> x in s;
    }
  }

  // ----- the scan -----

  ghost predicate LeaksBelow(v: Json, n: nat, x: string, forbidden: set<string>, markers: seq<string>)
    requires n <= |Children(v)|
  {
    exists i :: 0 <= i < n && Leaks(Children(v)[i], x, forbidden, markers)
  }

  method MarkersIn(s: string, markers: seq<string>) returns (found: seq<string>)
    ensures forall x :: x in found <==> x in markers && Contains(s, x)
  {
    found := [];
    for i := 0 to |markers|
      invariant forall x :: x in found <==> x in markers[..i] && Contains(s, x)
    {
      if Contains(s, markers[i]) {
        found := found + [markers[i]];
      }
    }
    assert markers[..|markers|] == markers;
  }

  /** `_find_sensitive_proof_entries`. */
  method FindSensitiveEntries(v: Json, forbidden: set<string>, markers: seq<string>) returns (leaked: seq<string>)
    ensures IsSortedSet(leaked)
    ensures forall x :: x in leaked <==> Leaks(v, x, forbidden, markers)
    decreases v
  {
    var found: seq<string> := [];
    if v.Obj? {
      for i := 0 to |v.fields|
        invariant forall x :: x in found <==>
          || (x in forbidden && exists j :: 0 <= j < i && v.fields[j].0 == x)
          || LeaksBelow(v, i, x, forbidden, markers)
      {
        if v.fields[i].0 in forbidden {
          found := found + [v.fields[i].0];
        }
        var below := FindSensitiveEntries(v.fields[i].1, forbidden, markers);
        assert Children(v)[i] == v.fields[i].1;
        found := found + below;
      }
    } else if v.Arr? {
      for i := 0 to |v.items|
        invariant forall x :: x in found <==> LeaksBelow(v, i, x, forbidden, markers)
      {
        var below := FindSensitiveEntries(v.items[i], forbidden, markers);
        assert Children(v)[i] == v.items[i];
        found := found + below;
      }
    } else if v.Str? {
      found := MarkersIn(v.s, markers);
    }
    SortedSetIs(found);
    forall x ensures x in found <==> Leaks(v, x, forbidden, markers) {
      LeaksUnfold(v, x, forbidden, markers);
    }
    leaked := SortedSet(found);
  }

  /** The list is determined: no other sorted, duplicate-free list holds the same entries. */
  lemma SortedSetUnique(a: seq<string>, b: seq<string>)
    requires IsSortedSet(a) && IsSortedSet(b) && forall x :: x in a <==> x in b
    ensures a == b
  {
    StringOrder();
    forall x ensures multiset(a)[x] == multiset(b)[x] {
      assert x in a <==> x in multiset(a);
      assert x in b <==> x in multiset(b);
    }
    assert multiset(a) == multiset(b);
    SortedUnique(StringLeq, a, b);
  }

  /** A marker leaks from every string it is part of, and from no other. */
  lemma ContainsIff(s: string, part: string)
    ensures Contains(s, part) <==> exists before, after :: s == before + part + after
  {
    if i :| 0 <= i <= |s| && OccursAt(s, part, i) {
      assert s == s[..i] + part + s[i + |part|..];
    }
    if before, after :| s == before + part + after {
      assert OccursAt(s, part, |before|);
    }
  }

  /** Each of the four keys leaks wherever it occurs, whatever it holds, and the one marker in whatever text. */
  lemma ForbiddenLeaks(v: Json, path: seq<nat>, fields: seq<(string, Json)>, i: nat)
    requires Node(v, path) == Some(Obj(fields)) && i < |fields|
    requires || fields[i].0 == "raw_payload" || fields[i].0 == "raw_prompt" || fields[i].0 == "raw_provider_output"
             || fields[i].0 == "provider_response"
    ensures Leaks(v, fields[i].0, FORBIDDEN_PROOF_KEYS, SENSITIVE_MARKERS)
  {
  }

  lemma MarkerLeaks(v: Json, path: seq<nat>, before: string, after: string)
    requires Node(v, path) == Some(Str(before + "PB_SG_GLOBAL_BAL_001" + after))
    ensures Leaks(v, "PB_SG_GLOBAL_BAL_001", FORBIDDEN_PROOF_KEYS, SENSITIVE_MARKERS)
  {
    ContainsIff(before + "PB_SG_GLOBAL_BAL_001" + after, "PB_SG_GLOBAL_BAL_001");
    assert SENSITIVE_MARKERS[0] == "PB_SG_GLOBAL_BAL_001";
  }

  /** Nothing else leaks. */
  lemma OnlyTheseLeak(v: Json, x: string)
    requires Leaks(v, x, FORBIDDEN_PROOF_KEYS, SENSITIVE_MARKERS)
    ensures || x == "raw_payload" || x == "raw_prompt" || x == "raw_provider_output" || x == "provider_response"
            || x == "PB_SG_GLOBAL_BAL_001"
  {
  }

  /** `_validate_source_safe_proof`; whether the contract file exists is given. */
  method ValidateSourceSafe(proof: seq<(string, Json)>, contractExists: bool) returns (accepted: bool)
    ensures accepted <==>
      && Get(proof, "schema_version") == Some(Str("lotus-ai.rfc0002.idea-explanation-workflow-proof.v1"))
      && contractExists
      && forall x :: !Leaks(Obj(proof), x, FORBIDDEN_PROOF_KEYS, SENSITIVE_MARKERS)
  {
    if Get(proof, "schema_version") != Some(Str(SCHEMA_VERSION)) || !contractExists {
      return false;
    }
    var leaked := FindSensitiveEntries(Obj(proof), FORBIDDEN_PROOF_KEYS, SENSITIVE_MARKERS);
    assert leaked != [] ==> leaked[0] in leaked;
    accepted := leaked == [];
  }
}
