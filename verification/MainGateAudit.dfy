/**
 The main-gate coverage audit: classifying a commit from its workflow runs, rechecking a
 pending one a bounded number of times, and tallying the window. Listing the runs, the
 clock and ISO time parsing are inputs.
 */
module MainGateAudit {
  import opened Wrappers
  import opened Sorting

  datatype State = Passed | Failed | Absent | Pending | Stale | Unevaluated | EvidenceUnavailable

  datatype WorkflowRun = WorkflowRun(
    status: Option<string>, conclusion: Option<string>, createdAt: Option<string>,
    attempt: Option<int>, databaseId: Option<int>)

  /** Seconds since some epoch, as `datetime.fromisoformat` reads a time; None if unreadable. */
  type ParseTime = string -> Option<int>

  predicate Covered(s: State) {
    s == Passed || s == Failed
  }

  // ----- the sort key -----

  datatype SortKey = SortKey(created: string, attempt: int, id: int)

  function OrEmpty(s: Option<string>): string {
    if s.Some? then s.value else ""
  }

  function OrZero(n: Option<int>): int {
    if n.Some? then n.value else 0
  }

  function KeyOf(run: WorkflowRun): SortKey {
    SortKey(OrEmpty(run.createdAt), OrZero(run.attempt), OrZero(run.databaseId))
  }

  predicate KeyLeq(a: SortKey, b: SortKey) {
    if a.created != b.created then StringLeq(a.created, b.created)
    else if a.attempt != b.attempt then a.attempt < b.attempt
    else a.id <= b.id
  }

  predicate NewestFirst(a: WorkflowRun, b: WorkflowRun) {
    KeyLeq(KeyOf(b), KeyOf(a))
  }

  lemma KeyOrder()
    ensures TotalPreorder(NewestFirst)
    ensures forall a, b :: KeyLeq(a, b) && KeyLeq(b, a) ==> a == b
  {
    StringOrder();
    forall a: SortKey, b: SortKey | KeyLeq(a, b) && KeyLeq(b, a) ensures a == b {
      StringAntisymmetric(a.created, b.created);
    }
    forall a: WorkflowRun, b: WorkflowRun, c: WorkflowRun | NewestFirst(a, b) && NewestFirst(b, c)
      ensures NewestFirst(a, c)
    {
      KeyTransitive(KeyOf(c), KeyOf(b), KeyOf(a));
    }
  }

  lemma KeyTransitive(a: SortKey, b: SortKey, c: SortKey)
    requires KeyLeq(a, b) && KeyLeq(b, c)
    ensures KeyLeq(a, c)
  {
    StringOrder();
    StringAntisymmetric(a.created, b.created);
  }

  // ----- what one run says -----

  predicate Completed(run: WorkflowRun) {
    run.status == Some("completed")
  }

  predicate EvaluatedConclusion(conclusion: string) {
    conclusion == "success" || conclusion == "failure" || conclusion == "timed_out"
  }

  predicate Evaluated(run: WorkflowRun) {
    Completed(run) && EvaluatedConclusion(OrEmpty(run.conclusion))
  }

  predicate InFlight(run: WorkflowRun) {
    run.status.Some? && run.status.value in {"queued", "in_progress", "requested", "waiting", "pending"}
  }

  function Outcome(run: WorkflowRun): State {
    if OrEmpty(run.conclusion) == "success" then Passed else Failed
  }

  /** The state, the run that decided it, and whether some run is still in flight. */
  datatype Verdict = Verdict(state: State, decisive: Option<WorkflowRun>, inFlight: bool)

  // ----- the plain meaning: the newest matching run decides -----

  /** The run with the greatest key among those satisfying `p`, the earliest listed on a tie. */
  function Newest(p: WorkflowRun -> bool, runs: seq<WorkflowRun>): Option<WorkflowRun> {
    if runs == [] then None
    else
      var later := Newest(p, runs[1..]);
      if p(runs[0]) && (later.None? || NewestFirst(runs[0], later.value)) then Some(runs[0]) else later
  }

  function ReadAge(run: WorkflowRun, parse: ParseTime): Option<int> {
    if OrEmpty(run.createdAt) == "" then None else parse(OrEmpty(run.createdAt))
  }

  function UnconcludedState(run: WorkflowRun, now: int, maxAge: int, parse: ParseTime): State {
    match ReadAge(run, parse)
    case None => Stale
    case Some(created) => if now - created <= maxAge then Pending else Stale
  }

  ghost predicate AnyInFlight(runs: seq<WorkflowRun>) {
    exists i :: 0 <= i < |runs| && InFlight(runs[i])
  }

  ghost function Meaning(runs: seq<WorkflowRun>, now: int, maxAge: int, parse: ParseTime): Verdict {
    if runs == [] then Verdict(Absent, None, false)
    else
      match Newest(Evaluated, runs)
      case Some(run) => Verdict(Outcome(run), Some(run), AnyInFlight(runs))
      case None =>
        match Newest(InFlight, runs)
        case Some(run) => Verdict(UnconcludedState(run, now, maxAge, parse), Some(run), true)
        case None => Verdict(Unevaluated, None, false)
  }

  // ----- the code: sort, then scan -----

  /** The first element satisfying `p`. */
  function First(p: WorkflowRun -> bool, s: seq<WorkflowRun>): Option<WorkflowRun> {
    if s == [] then None else if p(s[0]) then Some(s[0]) else First(p, s[1..])
  }

  lemma {:induction false} FirstInSorted(p: WorkflowRun -> bool, s: seq<WorkflowRun>)
    requires Sorted(NewestFirst, s) && TotalPreorder(NewestFirst)
    ensures s != [] && First(p, s).Some? ==> NewestFirst(s[0], First(p, s).value)
  {
    if s != [] && !p(s[0]) && |s| > 1 {
      FirstInSorted(p, s[1..]);
      if First(p, s[1..]).Some? {
        assert NewestFirst(s[0], s[1]);
        assert NewestFirst(s[1], First(p, s[1..]).value);
      }
    } else if s != [] {
      assert NewestFirst(s[0], s[0]);
    }
  }

  lemma {:induction false} FirstInsert(p: WorkflowRun -> bool, x: WorkflowRun, s: seq<WorkflowRun>)
    requires Sorted(NewestFirst, s) && TotalPreorder(NewestFirst)
    ensures First(p, Insert(NewestFirst, x, s))
         == var first := First(p, s);
            if p(x) && (first.None? || NewestFirst(x, first.value)) then Some(x) else first
  {
    var r := Insert(NewestFirst, x, s);
    if s == [] || NewestFirst(x, s[0]) {
      assert r[0] == x && r[1..] == s;
      FirstInSorted(p, s);
      if s != [] && First(p, s).Some? {
        assert NewestFirst(s[0], First(p, s).value);
        assert NewestFirst(x, First(p, s).value);
      }
    } else {
      assert r[0] == s[0] && r[1..] == Insert(NewestFirst, x, s[1..]);
      FirstInsert(p, x, s[1..]);
    }
  }

  /** Sort-then-first-match is the plain maximum. */
  lemma {:induction false} FirstOfOrdered(p: WorkflowRun -> bool, runs: seq<WorkflowRun>)
    requires TotalPreorder(NewestFirst)
    ensures First(p, Sort(NewestFirst, runs)) == Newest(p, runs)
  {
    if runs != [] {
      FirstOfOrdered(p, runs[1..]);
      SortSorted(NewestFirst, runs[1..]);
      FirstInsert(p, runs[0], Sort(NewestFirst, runs[1..]));
    }
  }

  lemma {:induction false} FirstAt(p: WorkflowRun -> bool, s: seq<WorkflowRun>, i: nat)
    requires i <= |s| && forall j :: 0 <= j < i ==> !p(s[j])
    ensures i < |s| && p(s[i]) ==> First(p, s) == Some(s[i])
    ensures i == |s| ==> First(p, s) == None
  {
    if i > 0 {
      FirstAt(p, s[1..], i - 1);
    }
  }

  /** The early-return scan: the index of the first match, or the length. */
  method Scan(p: WorkflowRun -> bool, ordered: seq<WorkflowRun>) returns (i: nat)
    ensures i <= |ordered|
    ensures First(p, ordered) == if i < |ordered| then Some(ordered[i]) else None
  {
    i := 0;
    while i < |ordered|
      invariant i <= |ordered| && forall j :: 0 <= j < i ==> !p(ordered[j])
    {
      if p(ordered[i]) {
        break;
      }
      i := i + 1;
    }
    FirstAt(p, ordered, i);
  }

  /** `classify`: the scan over the sorted runs returns the plain meaning. */
  method Classify(runs: seq<WorkflowRun>, now: int, maxAge: int, parse: ParseTime) returns (verdict: Verdict)
    ensures verdict == Meaning(runs, now, maxAge, parse)
  {
    if runs == [] {
      return Verdict(Absent, None, false);
    }
    KeyOrder();
    FirstOfOrdered(Evaluated, runs);
    FirstOfOrdered(InFlight, runs);
    InFlightIff(runs);
    var ordered := Sort(NewestFirst, runs);
    var decided := Scan(Evaluated, ordered);
    var unconcluded := Scan(InFlight, ordered);
    if decided < |ordered| {
      verdict := Verdict(Outcome(ordered[decided]), Some(ordered[decided]), unconcluded < |ordered|);
    } else if unconcluded < |ordered| {
      var newest := ordered[unconcluded];
      verdict := Verdict(UnconcludedState(newest, now, maxAge, parse), Some(newest), true);
    } else {
      verdict := Verdict(Unevaluated, None, false);
    }
  }

  lemma InFlightIff(runs: seq<WorkflowRun>)
    ensures AnyInFlight(runs) <==> Newest(InFlight, runs).Some?
  {
    NewestIsMaximum(InFlight, runs);
  }

  // ----- what the plain meaning means -----

  /** `Newest` is a maximum: it satisfies `p`, nothing satisfying `p` has a greater key, and
      nothing listed earlier ties with it. */
  lemma {:induction false} NewestIsMaximum(p: WorkflowRun -> bool, runs: seq<WorkflowRun>)
    ensures Newest(p, runs).None? <==> forall i :: 0 <= i < |runs| ==> !p(runs[i])
    ensures Newest(p, runs).Some? ==>
              exists i :: 0 <= i < |runs| && runs[i] == Newest(p, runs).value && Decides(p, runs, i)
  {
    if runs != [] {
      NewestIsMaximum(p, runs[1..]);
      KeyOrder();
      var later := Newest(p, runs[1..]);
      if p(runs[0]) && (later.None? || NewestFirst(runs[0], later.value)) {
        HeadDecides(p, runs);
      } else if later.Some? {
        var k :| 0 <= k < |runs[1..]| && runs[1..][k] == later.value && Decides(p, runs[1..], k);
        TailDecides(p, runs, k);
      }
    }
  }

  /** The run at `i` satisfies `p` and beats every other one that does, ties by listing order. */
  ghost predicate Decides(p: WorkflowRun -> bool, runs: seq<WorkflowRun>, i: int)
    requires 0 <= i < |runs|
  {
    p(runs[i]) && forall j :: 0 <= j < |runs| && p(runs[j]) ==>
      KeyLeq(KeyOf(runs[j]), KeyOf(runs[i])) && (j < i ==> KeyOf(runs[j]) != KeyOf(runs[i]))
  }

  lemma HeadDecides(p: WorkflowRun -> bool, runs: seq<WorkflowRun>)
    requires runs != [] && p(runs[0]) && TotalPreorder(NewestFirst)
    requires Newest(p, runs[1..]).None? ==> forall i :: 0 <= i < |runs| - 1 ==> !p(runs[1..][i])
    requires Newest(p, runs[1..]).Some? ==>
               NewestFirst(runs[0], Newest(p, runs[1..]).value)
               && exists k :: 0 <= k < |runs| - 1 && runs[1..][k] == Newest(p, runs[1..]).value && Decides(p, runs[1..], k)
    ensures Decides(p, runs, 0)
  {
    assert NewestFirst(runs[0], runs[0]);
    forall j | 0 < j < |runs| && p(runs[j]) ensures KeyLeq(KeyOf(runs[j]), KeyOf(runs[0])) {
      assert runs[1..][j - 1] == runs[j];
      var k :| 0 <= k < |runs| - 1 && runs[1..][k] == Newest(p, runs[1..]).value && Decides(p, runs[1..], k);
      assert NewestFirst(runs[1..][k], runs[j]);
      assert NewestFirst(runs[0], runs[1..][k]);
    }
  }

  lemma TailDecides(p: WorkflowRun -> bool, runs: seq<WorkflowRun>, k: int)
    requires 0 <= k < |runs| - 1 && Decides(p, runs[1..], k) && TotalPreorder(NewestFirst)
    requires p(runs[0]) ==> !NewestFirst(runs[0], runs[1..][k])
    ensures Decides(p, runs, k + 1)
  {
    assert NewestFirst(runs[k + 1], runs[k + 1]);
    forall j | 0 <= j < |runs| && p(runs[j])
      ensures KeyLeq(KeyOf(runs[j]), KeyOf(runs[k + 1])) && (j < k + 1 ==> KeyOf(runs[j]) != KeyOf(runs[k + 1]))
    {
      if j > 0 {
        assert runs[1..][j - 1] == runs[j];
      } else {
        assert NewestFirst(runs[k + 1], runs[0]);
      }
    }
  }

  /** At most one position decides. */
  lemma DecidesOnce(p: WorkflowRun -> bool, runs: seq<WorkflowRun>, i: int, j: int)
    requires 0 <= i < |runs| && 0 <= j < |runs| && Decides(p, runs, i) && Decides(p, runs, j)
    ensures i == j
  {
    KeyOrder();
  }

  predicate FreshEnough(run: WorkflowRun, now: int, maxAge: int, parse: ParseTime) {
    ReadAge(run, parse).Some? && now - ReadAge(run, parse).value <= maxAge
  }

  /** Each uncovered state, by what the runs are: nothing is left to the order of the branches. */
  lemma UncoveredStates(runs: seq<WorkflowRun>, now: int, maxAge: int, parse: ParseTime)
    ensures var state, covered := Meaning(runs, now, maxAge, parse).state, SomeMatch(Evaluated, runs);
            && (state == Absent <==> runs == [])
            && (state == Unevaluated <==> runs != [] && !covered && !SomeMatch(InFlight, runs))
            && (state == Pending <==> !covered && exists i :: 0 <= i < |runs| && Decides(InFlight, runs, i)
                                                              && FreshEnough(runs[i], now, maxAge, parse))
            && (state == Stale <==> !covered && exists i :: 0 <= i < |runs| && Decides(InFlight, runs, i)
                                                            && !FreshEnough(runs[i], now, maxAge, parse))
  {
    NewestIsMaximum(Evaluated, runs);
    NewestIsMaximum(InFlight, runs);
    if Newest(InFlight, runs).Some? {
      var k :| 0 <= k < |runs| && runs[k] == Newest(InFlight, runs).value && Decides(InFlight, runs, k);
      forall i | 0 <= i < |runs| && Decides(InFlight, runs, i) ensures i == k {
        DecidesOnce(InFlight, runs, i, k);
      }
    }
  }

  /** A run that says whether the tree is good. */
  predicate Concluded(run: WorkflowRun) {
    run.status == Some("completed") && run.conclusion in {Some("success"), Some("failure"), Some("timed_out")}
  }

  /** A commit is covered exactly when some run is completed with one of the three conclusions; it passed when the
      deciding one succeeded, and failed when the deciding one failed or timed out. */
  lemma CoveredIff(runs: seq<WorkflowRun>, now: int, maxAge: int, parse: ParseTime)
    ensures Covered(Meaning(runs, now, maxAge, parse).state) <==> exists i :: 0 <= i < |runs| && Concluded(runs[i])
    ensures Meaning(runs, now, maxAge, parse).state == Passed <==>
              exists i :: 0 <= i < |runs| && Decides(Concluded, runs, i) && runs[i].conclusion == Some("success")
    ensures Meaning(runs, now, maxAge, parse).state == Failed <==>
              exists i :: 0 <= i < |runs| && Decides(Concluded, runs, i)
                          && (runs[i].conclusion == Some("failure") || runs[i].conclusion == Some("timed_out"))
  {
    NewestIsMaximum(Evaluated, runs);
    forall run: WorkflowRun ensures Evaluated(run) <==> Concluded(run) {
    }
    forall i | 0 <= i < |runs| ensures Decides(Evaluated, runs, i) <==> Decides(Concluded, runs, i) {
    }
    if Newest(Evaluated, runs).Some? {
      var k :| 0 <= k < |runs| && runs[k] == Newest(Evaluated, runs).value && Decides(Evaluated, runs, k);
      forall i | 0 <= i < |runs| && Decides(Evaluated, runs, i) ensures i == k {
        DecidesOnce(Evaluated, runs, i, k);
      }
    }
  }

  function CreatedText(run: WorkflowRun): string {
    match run.createdAt
    case None => ""
    case Some(at) => at
  }

  function AttemptNumber(run: WorkflowRun): int {
    match run.attempt
    case None => 0
    case Some(n) => n
  }

  function RunNumber(run: WorkflowRun): int {
    match run.databaseId
    case None => 0
    case Some(n) => n
  }

  /** Created later, or at the same time in a later attempt, or in the same attempt under a greater id. */
  predicate NewerThan(a: WorkflowRun, b: WorkflowRun) {
    || (CreatedText(a) != CreatedText(b) && StringLeq(CreatedText(b), CreatedText(a)))
    || (CreatedText(a) == CreatedText(b) && AttemptNumber(a) > AttemptNumber(b))
    || (CreatedText(a) == CreatedText(b) && AttemptNumber(a) == AttemptNumber(b) && RunNumber(a) > RunNumber(b))
  }

  /** The deciding run is newer than every other match, and of equally new ones the first listed. */
  lemma DecidesIff(p: WorkflowRun -> bool, runs: seq<WorkflowRun>, i: int)
    requires 0 <= i < |runs|
    ensures Decides(p, runs, i) <==>
            p(runs[i]) && forall j :: 0 <= j < |runs| && j != i && p(runs[j]) ==>
              NewerThan(runs[i], runs[j]) || (i < j && !NewerThan(runs[j], runs[i]))
  {
    KeyOrder();
    StringOrder();
    forall j | 0 <= j < |runs|
      ensures KeyLeq(KeyOf(runs[j]), KeyOf(runs[i])) <==> !NewerThan(runs[j], runs[i])
      ensures KeyLeq(KeyOf(runs[j]), KeyOf(runs[i])) && KeyOf(runs[j]) != KeyOf(runs[i]) <==> NewerThan(runs[i], runs[j])
    {
      NewerIff(runs[i], runs[j]);
      NewerIff(runs[j], runs[i]);
    }
    assert NewestFirst(runs[i], runs[i]);
  }

  lemma NewerIff(a: WorkflowRun, b: WorkflowRun)
    ensures NewerThan(a, b) <==> KeyLeq(KeyOf(b), KeyOf(a)) && KeyOf(a) != KeyOf(b)
    ensures NewerThan(a, b) <==> !KeyLeq(KeyOf(a), KeyOf(b))
  {
    StringOrder();
    StringAntisymmetric(CreatedText(a), CreatedText(b));
  }

  /** What a single run says, by its status, its conclusion and its age. */
  lemma OneRun(run: WorkflowRun, now: int, maxAge: int, parse: ParseTime)
    ensures var state := Meaning([run], now, maxAge, parse).state;
            if run.status == Some("completed") then
              if run.conclusion == Some("success") then state == Passed
              else if run.conclusion == Some("failure") || run.conclusion == Some("timed_out") then state == Failed
              else state == Unevaluated
            else if run.status in {Some("queued"), Some("in_progress"), Some("requested"), Some("waiting"), Some("pending")}
            then
              if run.createdAt.Some? && run.createdAt.value != "" && parse(run.createdAt.value).Some?
                 && now - parse(run.createdAt.value).value <= maxAge
              then state == Pending else state == Stale
            else state == Unevaluated
  {
    assert [run][1..] == [] && Newest(Evaluated, []).None? && Newest(InFlight, []).None?;
  }

  /** When runs that share a key are the same run, the listing order never matters. */
  lemma OrderIrrelevant(runs: seq<WorkflowRun>, others: seq<WorkflowRun>, now: int, maxAge: int, parse: ParseTime)
    requires multiset(runs) == multiset(others)
    requires forall a, b :: a in runs && b in runs && KeyOf(a) == KeyOf(b) ==> a == b
    ensures Meaning(runs, now, maxAge, parse) == Meaning(others, now, maxAge, parse)
  {
    KeyOrder();
    assert NoTies(NewestFirst, multiset(runs));
    SortedEqualIffSameContents(NewestFirst, runs, others);
    FirstOfOrdered(Evaluated, runs);
    FirstOfOrdered(Evaluated, others);
    FirstOfOrdered(InFlight, runs);
    FirstOfOrdered(InFlight, others);
    InFlightIff(runs);
    InFlightIff(others);
    assert |runs| == |multiset(runs)| == |others|;
  }

  ghost predicate SomeMatch(p: WorkflowRun -> bool, runs: seq<WorkflowRun>) {
    exists r :: r in runs && p(r)
  }

  lemma SomeMatchIff(p: WorkflowRun -> bool, runs: seq<WorkflowRun>)
    ensures SomeMatch(p, runs) <==> Newest(p, runs).Some?
  {
    NewestIsMaximum(p, runs);
  }

  /** Evidence growth is one-way: more runs never uncover a covered commit. */
  lemma GrowthKeepsCovered(runs: seq<WorkflowRun>, more: seq<WorkflowRun>, now: int, later: int, maxAge: int,
        parse: ParseTime)
    requires forall r :: r in runs ==> r in more
    requires Covered(Meaning(runs, now, maxAge, parse).state)
    ensures Covered(Meaning(more, later, maxAge, parse).state)
  {
    SomeMatchIff(Evaluated, runs);
    SomeMatchIff(Evaluated, more);
    assert SomeMatch(Evaluated, runs) ==> SomeMatch(Evaluated, more);
  }

  function Matching(p: WorkflowRun -> bool, runs: seq<WorkflowRun>): seq<WorkflowRun> {
    if runs == [] then [] else (if p(runs[0]) then [runs[0]] else []) + Matching(p, runs[1..])
  }

  lemma {:induction false} NewestOfMatching(p: WorkflowRun -> bool, runs: seq<WorkflowRun>)
    ensures Newest(p, runs) == Newest(p, Matching(p, runs))
  {
    if runs != [] {
      NewestOfMatching(p, runs[1..]);
      if p(runs[0]) {
        var m := Matching(p, runs);
        assert m[0] == runs[0] && m[1..] == Matching(p, runs[1..]);
      } else {
        assert Matching(p, runs) == Matching(p, runs[1..]);
      }
    }
  }

  /** Adding only unevaluated or in-flight runs, anywhere, keeps the exact verdict state of a
      covered commit, at any later time. */
  lemma UnevaluatedGrowth(runs: seq<WorkflowRun>, more: seq<WorkflowRun>, now: int, later: int, maxAge: int,
        parse: ParseTime)
    requires Matching(Evaluated, more) == Matching(Evaluated, runs)
    requires Covered(Meaning(runs, now, maxAge, parse).state)
    ensures Meaning(more, later, maxAge, parse).state == Meaning(runs, now, maxAge, parse).state
    ensures Meaning(more, later, maxAge, parse).decisive == Meaning(runs, now, maxAge, parse).decisive
  {
    NewestOfMatching(Evaluated, runs);
    NewestOfMatching(Evaluated, more);
    assert more != [] by {
      NewestIsMaximum(Evaluated, runs);
      NewestIsMaximum(Evaluated, more);
    }
  }

  /** Ageing is one-way: as the clock advances over fixed runs, the only change possible is
      from pending to stale. */
  lemma AgeingIsOneWay(runs: seq<WorkflowRun>, now: int, later: int, maxAge: int, parse: ParseTime)
    requires now <= later
    ensures var before, after := Meaning(runs, now, maxAge, parse), Meaning(runs, later, maxAge, parse);
            after == before || (before.state == Pending && after == before.(state := Stale))
  {
  }

  // ----- the bounded recheck -----

  /** One read of the run listing, with the clock reading that goes with it. */
  datatype Listing = Unreadable | Listed(runs: seq<WorkflowRun>, now: int)

  ghost function StateOf(read: Listing, maxAge: int, parse: ParseTime): State {
    match read
    case Unreadable => EvidenceUnavailable
    case Listed(runs, now) => Meaning(runs, now, maxAge, parse).state
  }

  /** `state_for_commit`: `listings` is what the listing would answer, call by call. */
  method StateForCommit(listings: seq<Listing>, recheckAttempts: int, maxAge: int, parse: ParseTime)
    returns (state: State, made: nat, sleeps: nat)
    requires 1 <= |listings| && recheckAttempts <= |listings|
    ensures 1 <= made && (made == 1 || made <= recheckAttempts) && sleeps == made - 1
    ensures state == StateOf(listings[made - 1], maxAge, parse)
    ensures forall k :: 0 <= k < made - 1 ==> StateOf(listings[k], maxAge, parse) == Pending
    ensures state == Pending ==> made == if recheckAttempts < 1 then 1 else recheckAttempts
  {
    var attempts := if recheckAttempts < 1 then 1 else recheckAttempts;
    state, made, sleeps := Absent, 0, 0;
    for attempt := 0 to attempts
      invariant made == attempt && sleeps == (if attempt == attempts then attempts - 1 else attempt)
      invariant forall k :: 0 <= k < attempt ==> StateOf(listings[k], maxAge, parse) == Pending
      invariant attempt > 0 ==> state == Pending
    {
      made := made + 1;
      if listings[attempt].Unreadable? {
        return EvidenceUnavailable, made, sleeps;
      }
      var verdict := Classify(listings[attempt].runs, listings[attempt].now, maxAge, parse);
      state := verdict.state;
      if state != Pending {
        return;
      }
      if attempt < attempts - 1 {
        sleeps := sleeps + 1;
      }
    }
  }

  // ----- the tally -----

  ghost function Count(states: seq<State>, s: State): nat {
    if states == [] then 0 else (if states[|states| - 1] == s then 1 else 0) + Count(states[..|states| - 1], s)
  }

  lemma {:induction false} CountIs(states: seq<State>, s: State)
    ensures Count(states, s) == multiset(states)[s]
  {
    if states != [] {
      CountIs(states[..|states| - 1], s);
      assert states == states[..|states| - 1] + [states[|states| - 1]];
    }
  }

  lemma {:induction false} CountPositive(states: seq<State>, s: State)
    ensures Count(states, s) > 0 <==> s in states
  {
    if states != [] {
      CountPositive(states[..|states| - 1], s);
      assert states == states[..|states| - 1] + [states[|states| - 1]];
    }
  }

  lemma {:induction false} CountsSum(states: seq<State>)
    ensures Count(states, Passed) + Count(states, Failed) + Count(states, Absent) + Count(states, Pending)
            + Count(states, Stale) + Count(states, Unevaluated) + Count(states, EvidenceUnavailable) == |states|
  {
    if states != [] {
      CountsSum(states[..|states| - 1]);
    }
  }

  method CountOf(states: seq<State>, s: State) returns (n: nat)
    ensures n == Count(states, s)
  {
    n := 0;
    for i := 0 to |states|
      invariant n == Count(states[..i], s)
    {
      assert states[..i + 1][..i] == states[..i];
      if states[i] == s {
        n := n + 1;
      }
    }
    assert states[..|states|] == states;
  }

  /** The counts, the covered total and the exit code of `main`. */
  method Tally(states: seq<State>, failOnGap: bool, failOnFailedVerdict: bool)
    returns (counts: map<State, nat>, covered: nat, exitCode: int)
    ensures forall s :: s in counts && counts[s] == multiset(states)[s]
    ensures counts[Passed] + counts[Failed] + counts[Absent] + counts[Pending] + counts[Stale]
            + counts[Unevaluated] + counts[EvidenceUnavailable] == |states|
    ensures covered == counts[Passed] + counts[Failed]
    ensures exitCode == 1 <==>
              || (failOnGap && exists s :: s in states && s != Passed && s != Failed)
              || (failOnFailedVerdict && Failed in states)
    ensures exitCode == 0 || exitCode == 1
  {
    var passed := CountOf(states, Passed);
    var failed := CountOf(states, Failed);
    var absent := CountOf(states, Absent);
    var pending := CountOf(states, Pending);
    var stale := CountOf(states, Stale);
    var unevaluated := CountOf(states, Unevaluated);
    var unavailable := CountOf(states, EvidenceUnavailable);
    counts := map[Passed := passed, Failed := failed, Absent := absent, Pending := pending, Stale := stale,
                  Unevaluated := unevaluated, EvidenceUnavailable := unavailable];
    forall s: State ensures s in counts && counts[s] == Count(states, s) == multiset(states)[s] {
      CountIs(states, s);
      match s
      case Passed =>
      case Failed =>
      case Absent =>
      case Pending =>
      case Stale =>
      case Unevaluated =>
      case EvidenceUnavailable =>
    }
    covered := 0;
    for i := 0 to |states|
      invariant covered == Count(states[..i], Passed) + Count(states[..i], Failed)
    {
      assert states[..i + 1][..i] == states[..i];
      if Covered(states[i]) {
        covered := covered + 1;
      }
    }
    assert states[..|states|] == states;
    CountsSum(states);
    CountPositive(states, Failed);
    GapIff(states);
    var gap := |states| - covered;
    exitCode := 0;
    if gap != 0 && failOnGap {
      exitCode := 1;
    }
    if counts[Failed] != 0 && failOnFailedVerdict {
      exitCode := 1;
    }
  }

  lemma GapIff(states: seq<State>)
    ensures Count(states, Passed) + Count(states, Failed) != |states| <==> exists s :: s in states && !Covered(s)
  {
    CountsSum(states);
    CountPositive(states, Absent);
    CountPositive(states, Pending);
    CountPositive(states, Stale);
    CountPositive(states, Unevaluated);
    CountPositive(states, EvidenceUnavailable);
    if s :| s in states && !Covered(s) {
      assert Count(states, s) > 0;
    }
  }
}
