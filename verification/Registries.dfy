/**
 The governed artifact registries: evaluation runs with their seam coverage, and async jobs
 that refer to them. Validation raises on the first defect; a method here returns whether
 the source would accept, and which defect is named first is not modelled.
 */
module Registries {
  import opened Wrappers
  import opened Json

  type Fields = seq<(string, Json)>

  // ----- what a valid registry is -----

  function Text(value: Option<Json>): string {
    if value.Some? && value.value.Str? then value.value.s else ""
  }

  function Number(value: Option<Json>): int {
    if AsInt(value).Some? then AsInt(value).value else 0
  }

  predicate KnownFixture(fixture: Json, known: set<string>) {
    NonBlank(Some(fixture)) && Text(Some(fixture)) in known
  }

  /** One seam: identified, every fixture known, and its count the length of its list. */
  ghost predicate ValidSeam(seam: Json, known: set<string>) {
    && seam.Obj?
    && NonBlank(Get(seam.fields, "seam_id"))
    && (match Get(seam.fields, "fixture_ids")
        case Some(Arr(fixtures)) =>
          && (forall i :: 0 <= i < |fixtures| ==> KnownFixture(fixtures[i], known))
          && Number(Get(seam.fields, "staged_fixture_count")) == |fixtures|
        case _ => false)
    && NonNegativeInt(Get(seam.fields, "staged_fixture_count"))
    && NonNegativeInt(Get(seam.fields, "staged_case_count"))
  }

  function SeamId(seam: Json): string {
    if seam.Obj? then Text(Get(seam.fields, "seam_id")) else ""
  }

  function FixtureCount(seam: Json): int {
    if seam.Obj? then Number(Get(seam.fields, "staged_fixture_count")) else 0
  }

  function CaseCount(seam: Json): int {
    if seam.Obj? then Number(Get(seam.fields, "staged_case_count")) else 0
  }

  ghost function Sum(count: Json -> int, seams: seq<Json>): int {
    if seams == [] then 0 else Sum(count, seams[..|seams| - 1]) + count(seams[|seams| - 1])
  }

  ghost predicate Distinct(id: Json -> string, entries: seq<Json>) {
    forall i, j :: 0 <= i < j < |entries| ==> id(entries[i]) != id(entries[j])
  }

  ghost predicate ValidSeams(seams: seq<Json>, known: set<string>) {
    (forall i :: 0 <= i < |seams| ==> ValidSeam(seams[i], known)) && Distinct(SeamId, seams)
  }

  function RunId(run: Json): string {
    if run.Obj? then Text(Get(run.fields, "run_id")) else ""
  }

  predicate ValidHeader(run: Fields, version: string) {
    && NonBlank(Get(run, "run_id")) && NonBlank(Get(run, "recorded_at")) && NonBlank(Get(run, "notes"))
    && Get(run, "manifest_version") == Some(Str(version))
  }

  /** One run: its seams valid and distinct, and its totals the sums over them. */
  ghost predicate ValidRun(run: Json, version: string, known: set<string>) {
    && run.Obj? && ValidHeader(run.fields, version)
    && NonNegativeInt(Get(run.fields, "staged_fixture_count"))
    && NonNegativeInt(Get(run.fields, "staged_case_count"))
    && match Get(run.fields, "seam_coverage")
       case Some(Arr(seams)) =>
         && ValidSeams(seams, known)
         && Number(Get(run.fields, "staged_fixture_count")) == Sum(FixtureCount, seams)
         && Number(Get(run.fields, "staged_case_count")) == Sum(CaseCount, seams)
       case _ => false
  }

  ghost predicate ValidRuns(runs: seq<Json>, version: string, known: set<string>) {
    (forall i :: 0 <= i < |runs| ==> ValidRun(runs[i], version, known)) && Distinct(RunId, runs)
  }

  ghost predicate ValidRunRegistry(payload: Fields, version: string, known: set<string>) {
    match Get(payload, "runs")
    case Some(Arr(runs)) => ValidRuns(runs, version, known)
    case _ => false
  }

  /** `ids` are the ids of the first `i` entries. */
  ghost predicate Seen(id: Json -> string, entries: seq<Json>, i: nat, ids: set<string>)
    requires i <= |entries|
  {
    && (forall k :: 0 <= k < i ==> id(entries[k]) in ids)
    && (forall name :: name in ids ==> exists k :: 0 <= k < i && id(entries[k]) == name)
  }

  /** A new id keeps the ids seen so far distinct. */
  lemma SeenNext(id: Json -> string, entries: seq<Json>, i: nat, ids: set<string>)
    requires i < |entries| && Seen(id, entries, i, ids) && Distinct(id, entries[..i]) && id(entries[i]) !in ids
    ensures Seen(id, entries, i + 1, ids + {id(entries[i])}) && Distinct(id, entries[..i + 1])
  {
    var next := entries[..i + 1];
    forall j, k | 0 <= j < k < |next| ensures id(next[j]) != id(next[k]) {
      if k < i {
        assert id(entries[..i][j]) != id(entries[..i][k]);
      }
    }
    forall name | name in ids + {id(entries[i])} ensures exists k :: 0 <= k < i + 1 && id(entries[k]) == name {
      if name in ids {
        var k :| 0 <= k < i && id(entries[k]) == name;
      } else {
        assert id(entries[i]) == name;
      }
    }
  }

  /** An id seen before is a duplicate. */
  lemma SeenTwice(id: Json -> string, entries: seq<Json>, i: nat, ids: set<string>)
    requires i < |entries| && Seen(id, entries, i, ids) && id(entries[i]) in ids
    ensures !Distinct(id, entries)
  {
    var k :| 0 <= k < i && id(entries[k]) == id(entries[i]);
  }

  // ----- the validation loops -----

  method CheckFixtures(fixtures: seq<Json>, known: set<string>) returns (ok: bool)
    ensures ok <==> forall i :: 0 <= i < |fixtures| ==> KnownFixture(fixtures[i], known)
  {
    for i := 0 to |fixtures|
      invariant forall j :: 0 <= j < i ==> KnownFixture(fixtures[j], known)
    {
      if !NonBlank(Some(fixtures[i])) || fixtures[i].s !in known {
        return false;
      }
    }
    ok := true;
  }

  method CheckSeam(seam: Json, known: set<string>) returns (ok: bool)
    ensures ok <==> ValidSeam(seam, known)
  {
    if !seam.Obj? || !NonBlank(Get(seam.fields, "seam_id")) {
      return false;
    }
    var listed := Get(seam.fields, "fixture_ids");
    if listed.None? || !listed.value.Arr? {
      return false;
    }
    ok := CheckFixtures(listed.value.items, known);
    if ok {
      var fixtures, cases := Get(seam.fields, "staged_fixture_count"), Get(seam.fields, "staged_case_count");
      ok := NonNegativeInt(fixtures) && NonNegativeInt(cases) && AsInt(fixtures).value == |listed.value.items|;
    }
  }

  /** The inner loop: a growing set of seam ids and two running totals. */
  method CheckSeams(seams: seq<Json>, known: set<string>) returns (ok: bool, fixtureTotal: int, caseTotal: int)
    ensures ok <==> ValidSeams(seams, known)
    ensures ok ==> fixtureTotal == Sum(FixtureCount, seams) && caseTotal == Sum(CaseCount, seams)
  {
    var seamIds: set<string> := {};
    fixtureTotal, caseTotal := 0, 0;
    for i := 0 to |seams|
      invariant SeamsSoFar(seams, i, known, seamIds)
      invariant fixtureTotal == Sum(FixtureCount, seams[..i]) && caseTotal == Sum(CaseCount, seams[..i])
    {
      ok := CheckSeam(seams[i], known);
      if !ok {
        return;
      }
      if SeamId(seams[i]) in seamIds {
        SeenTwice(SeamId, seams, i, seamIds);
        ok := false;
        return;
      }
      SeamsNext(seams, i, known, seamIds);
      SumNext(FixtureCount, seams, i);
      SumNext(CaseCount, seams, i);
      seamIds := seamIds + {SeamId(seams[i])};
      fixtureTotal := fixtureTotal + FixtureCount(seams[i]);
      caseTotal := caseTotal + CaseCount(seams[i]);
    }
    assert seams[..|seams|] == seams;
    ok := true;
  }

  ghost predicate SeamsSoFar(seams: seq<Json>, i: nat, known: set<string>, seamIds: set<string>)
    requires i <= |seams|
  {
    && (forall k :: 0 <= k < i ==> ValidSeam(seams[k], known))
    && Distinct(SeamId, seams[..i]) && Seen(SeamId, seams, i, seamIds)
  }

  lemma SeamsNext(seams: seq<Json>, i: nat, known: set<string>, seamIds: set<string>)
    requires i < |seams| && SeamsSoFar(seams, i, known, seamIds)
    requires ValidSeam(seams[i], known) && SeamId(seams[i]) !in seamIds
    ensures SeamsSoFar(seams, i + 1, known, seamIds + {SeamId(seams[i])})
  {
    SeenNext(SeamId, seams, i, seamIds);
  }

  lemma SumNext(count: Json -> int, seams: seq<Json>, i: nat)
    requires i < |seams|
    ensures Sum(count, seams[..i + 1]) == Sum(count, seams[..i]) + count(seams[i])
  {
    assert seams[..i + 1][..i] == seams[..i];
  }

  method CheckRun(run: Json, version: string, known: set<string>) returns (ok: bool)
    ensures ok <==> ValidRun(run, version, known)
  {
    if !run.Obj? || !ValidHeader(run.fields, version) {
      return false;
    }
    var coverage := Get(run.fields, "seam_coverage");
    if coverage.None? || !coverage.value.Arr? {
      return false;
    }
    var fixtureTotal, caseTotal;
    ok, fixtureTotal, caseTotal := CheckSeams(coverage.value.items, known);
    if ok {
      var fixtures, cases := Get(run.fields, "staged_fixture_count"), Get(run.fields, "staged_case_count");
      ok := NonNegativeInt(fixtures) && NonNegativeInt(cases)
            && AsInt(fixtures).value == fixtureTotal && AsInt(cases).value == caseTotal;
    }
  }

  /** `validate_evaluation_run_artifacts` accepts exactly the valid registries. */
  method ValidateRunArtifacts(payload: Fields, version: string, known: set<string>) returns (accepted: bool)
    ensures accepted <==> ValidRunRegistry(payload, version, known)
  {
    var listed := Get(payload, "runs");
    if listed.None? || !listed.value.Arr? {
      return false;
    }
    var runs := listed.value.items;
    var runIds: set<string> := {};
    for i := 0 to |runs|
      invariant forall k :: 0 <= k < i ==> ValidRun(runs[k], version, known)
      invariant Distinct(RunId, runs[..i]) && Seen(RunId, runs, i, runIds)
    {
      var ok := CheckRun(runs[i], version, known);
      if !ok {
        return false;
      }
      if RunId(runs[i]) in runIds {
        SeenTwice(RunId, runs, i, runIds);
        return false;
      }
      SeenNext(RunId, runs, i, runIds);
      runIds := runIds + {RunId(runs[i])};
    }
    assert runs[..|runs|] == runs;
    accepted := true;
  }

  // ----- async jobs -----

  function JobId(job: Json): string {
    if job.Obj? then Text(Get(job.fields, "job_id")) else ""
  }

  /** A null reference and a missing one are the same. */
  function RelatedRun(job: Fields): Option<Json> {
    var related := Get(job, "related_evaluation_run_id");
    if related == Some(Null) then None else related
  }

  predicate ValidJob(job: Json, runIds: set<string>) {
    && job.Obj?
    && NonBlank(Get(job.fields, "job_id")) && NonBlank(Get(job.fields, "job_type"))
    && NonBlank(Get(job.fields, "submitted_at")) && NonBlank(Get(job.fields, "caller_app"))
    && (RelatedRun(job.fields).Some? ==> NonBlank(RelatedRun(job.fields)) && Text(RelatedRun(job.fields)) in runIds)
    && NonBlank(Get(job.fields, "execution_path")) && NonBlank(Get(job.fields, "notes"))
  }

  ghost predicate ValidJobs(jobs: seq<Json>, runIds: set<string>) {
    (forall i :: 0 <= i < |jobs| ==> ValidJob(jobs[i], runIds)) && Distinct(JobId, jobs)
  }

  ghost predicate ValidJobRegistry(payload: Fields, runIds: set<string>) {
    match Get(payload, "jobs")
    case Some(Arr(jobs)) => ValidJobs(jobs, runIds)
    case _ => false
  }

  /** `validate_async_job_artifacts` accepts exactly the valid registries. */
  method ValidateJobArtifacts(payload: Fields, runIds: set<string>) returns (accepted: bool)
    ensures accepted <==> ValidJobRegistry(payload, runIds)
  {
    var listed := Get(payload, "jobs");
    if listed.None? || !listed.value.Arr? {
      return false;
    }
    var jobs := listed.value.items;
    var jobIds: set<string> := {};
    for i := 0 to |jobs|
      invariant forall k :: 0 <= k < i ==> ValidJob(jobs[k], runIds)
      invariant Distinct(JobId, jobs[..i]) && Seen(JobId, jobs, i, jobIds)
    {
      if !ValidJob(jobs[i], runIds) {
        return false;
      }
      if JobId(jobs[i]) in jobIds {
        SeenTwice(JobId, jobs, i, jobIds);
        return false;
      }
      SeenNext(JobId, jobs, i, jobIds);
      jobIds := jobIds + {JobId(jobs[i])};
    }
    assert jobs[..|jobs|] == jobs;
    accepted := true;
  }

  // ----- the cross-registry reference -----

  function RunsOf(payload: Fields): seq<Json> {
    match Get(payload, "runs")
    case Some(Arr(runs)) => runs
    case _ => []
  }

  function JobsOf(payload: Fields): seq<Json> {
    match Get(payload, "jobs")
    case Some(Arr(jobs)) => jobs
    case _ => []
  }

  function RunIds(payload: Fields): set<string> {
    set r | r in RunsOf(payload) :: RunId(r)
  }

  // ----- what acceptance means, key by key -----

  /** How many fixture ids a seam lists. */
  function ListedFixtures(seam: Json): int {
    match seam
    case Obj(fields) => (match Get(fields, "fixture_ids") case Some(Arr(ids)) => |ids| case _ => 0)
    case _ => 0
  }

  /** The case count a seam states. */
  function StatedCases(seam: Json): int {
    match seam
    case Obj(fields) => (match AsInt(Get(fields, "staged_case_count")) case Some(n) => n case None => 0)
    case _ => 0
  }

  lemma {:induction false} SameSum(f: Json -> int, g: Json -> int, seams: seq<Json>)
    requires forall i :: 0 <= i < |seams| ==> f(seams[i]) == g(seams[i])
    ensures Sum(f, seams) == Sum(g, seams)
  {
    if seams != [] {
      SameSum(f, g, seams[..|seams| - 1]);
    }
  }

  /** An accepted run is named, dated and noted, is of the current manifest, counts the fixture ids its seams list
      and the cases they state, and shares its id with no other. */
  lemma AcceptedRun(payload: Fields, version: string, known: set<string>, i: nat)
    requires ValidRunRegistry(payload, version, known) && i < |RunsOf(payload)|
    ensures RunsOf(payload)[i].Obj?
    ensures var run := RunsOf(payload)[i].fields;
            && NonBlank(Get(run, "run_id")) && NonBlank(Get(run, "recorded_at")) && NonBlank(Get(run, "notes"))
            && Get(run, "manifest_version") == Some(Str(version))
            && Get(run, "seam_coverage").Some? && Get(run, "seam_coverage").value.Arr?
            && var seams := Get(run, "seam_coverage").value.items;
            && AsInt(Get(run, "staged_fixture_count")) == Some(Sum(ListedFixtures, seams))
            && AsInt(Get(run, "staged_case_count")) == Some(Sum(StatedCases, seams))
    ensures forall j :: 0 <= j < |RunsOf(payload)| && j != i && RunsOf(payload)[j].Obj? ==>
              Get(RunsOf(payload)[j].fields, "run_id") != Get(RunsOf(payload)[i].fields, "run_id")
  {
    var runs := RunsOf(payload);
    assert ValidRun(runs[i], version, known);
    var seams := Get(runs[i].fields, "seam_coverage").value.items;
    SameSum(FixtureCount, ListedFixtures, seams);
    SameSum(CaseCount, StatedCases, seams);
    forall j | 0 <= j < |runs| && j != i ensures RunId(runs[j]) != RunId(runs[i]) {
    }
  }

  /** Each of its seams is named, no two alike, and lists known fixtures only. */
  lemma AcceptedSeam(run: Json, version: string, known: set<string>, k: nat)
    requires ValidRun(run, version, known) && k < |Get(run.fields, "seam_coverage").value.items|
    ensures var seams := Get(run.fields, "seam_coverage").value.items;
            && seams[k].Obj? && NonBlank(Get(seams[k].fields, "seam_id"))
            && Get(seams[k].fields, "fixture_ids").Some? && Get(seams[k].fields, "fixture_ids").value.Arr?
            && NonNegativeInt(Get(seams[k].fields, "staged_case_count"))
            && var ids := Get(seams[k].fields, "fixture_ids").value.items;
            && AsInt(Get(seams[k].fields, "staged_fixture_count")) == Some(|ids|)
            && (forall x :: x in ids ==> x.Str? && !Blank(x.s) && x.s in known)
            && forall j :: 0 <= j < |seams| && j != k && seams[j].Obj? ==>
                 Get(seams[j].fields, "seam_id") != Get(seams[k].fields, "seam_id")
  {
    var seams := Get(run.fields, "seam_coverage").value.items;
    assert ValidSeam(seams[k], known);
    var ids := Get(seams[k].fields, "fixture_ids").value.items;
    assert forall x :: x in ids ==> KnownFixture(x, known);
    forall j | 0 <= j < |seams| && j != k ensures SeamId(seams[j]) != SeamId(seams[k]) {
    }
  }

  /** The entries differ in what they state under `key`. */
  ghost predicate DifferIn(entries: seq<Json>, key: string) {
    forall i, j :: 0 <= i < j < |entries| && entries[i].Obj? && entries[j].Obj? ==>
      Get(entries[i].fields, key) != Get(entries[j].fields, key)
  }

  /** Runs are accepted together exactly when each is on its own and their ids differ. */
  lemma RunsAcceptedIff(runs: seq<Json>, version: string, known: set<string>)
    ensures ValidRuns(runs, version, known) <==>
            (forall i :: 0 <= i < |runs| ==> ValidRun(runs[i], version, known)) && DifferIn(runs, "run_id")
  {
    if forall i :: 0 <= i < |runs| ==> ValidRun(runs[i], version, known) {
      assert Distinct(RunId, runs) <==> DifferIn(runs, "run_id") by {
        forall i, j | 0 <= i < j < |runs|
          ensures RunId(runs[i]) != RunId(runs[j]) <==> Get(runs[i].fields, "run_id") != Get(runs[j].fields, "run_id")
        {
          assert ValidRun(runs[i], version, known) && ValidRun(runs[j], version, known);
        }
      }
    }
  }

  /** So are the seams of a run. */
  lemma SeamsAcceptedIff(seams: seq<Json>, known: set<string>)
    ensures ValidSeams(seams, known) <==>
            (forall i :: 0 <= i < |seams| ==> ValidSeam(seams[i], known)) && DifferIn(seams, "seam_id")
  {
    if forall i :: 0 <= i < |seams| ==> ValidSeam(seams[i], known) {
      assert Distinct(SeamId, seams) <==> DifferIn(seams, "seam_id") by {
        forall i, j | 0 <= i < j < |seams|
          ensures SeamId(seams[i]) != SeamId(seams[j]) <==>
                  Get(seams[i].fields, "seam_id") != Get(seams[j].fields, "seam_id")
        {
          assert ValidSeam(seams[i], known) && ValidSeam(seams[j], known);
        }
      }
    }
  }

  /** And jobs. */
  lemma JobsAcceptedIff(jobs: seq<Json>, runIds: set<string>)
    ensures ValidJobs(jobs, runIds) <==>
            (forall i :: 0 <= i < |jobs| ==> ValidJob(jobs[i], runIds)) && DifferIn(jobs, "job_id")
  {
    if forall i :: 0 <= i < |jobs| ==> ValidJob(jobs[i], runIds) {
      assert Distinct(JobId, jobs) <==> DifferIn(jobs, "job_id") by {
        forall i, j | 0 <= i < j < |jobs|
          ensures JobId(jobs[i]) != JobId(jobs[j]) <==> Get(jobs[i].fields, "job_id") != Get(jobs[j].fields, "job_id")
        {
          assert ValidJob(jobs[i], runIds) && ValidJob(jobs[j], runIds);
        }
      }
    }
  }

  function SeamEntry(seam: string, ids: seq<Json>, cases: nat): Json {
    Obj([("seam_id", Str(seam)), ("fixture_ids", Arr(ids)), ("staged_fixture_count", Int(|ids|)),
         ("staged_case_count", Int(cases))])
  }

  function RunEntry(run: string, at: string, notes: string, version: string, fixtures: nat,
                    cases: nat, seams: seq<Json>): Json {
    Obj([("run_id", Str(run)), ("recorded_at", Str(at)), ("notes", Str(notes)), ("manifest_version", Str(version)),
         ("staged_fixture_count", Int(fixtures)), ("staged_case_count", Int(cases)), ("seam_coverage", Arr(seams))])
  }

  /** Conversely such a run is accepted; nothing else is asked of it. */
  lemma RunAccepted(run: string, at: string, notes: string, version: string, seam: string, ids: seq<Json>, cases: nat,
                    known: set<string>)
    requires !Blank(run) && !Blank(at) && !Blank(notes) && !Blank(seam)
    requires forall i :: 0 <= i < |ids| ==> ids[i].Str? && !Blank(ids[i].s) && ids[i].s in known
    ensures ValidRunRegistry([("runs", Arr([RunEntry(run, at, notes, version, |ids|, cases,
                                                      [SeamEntry(seam, ids, cases)])]))], version, known)
  {
    var entry := SeamEntry(seam, ids, cases);
    SeamAccepted(seam, ids, cases, known);
    SumOne(FixtureCount, entry);
    SumOne(CaseCount, entry);
    HeaderAccepted(run, at, notes, version, |ids|, cases, [entry]);
  }

  lemma SumOne(count: Json -> int, entry: Json)
    ensures Sum(count, [entry]) == count(entry)
  {
    assert [entry][..|[entry]| - 1] == [];
    assert Sum(count, []) == 0;
  }

  lemma SeamAccepted(seam: string, ids: seq<Json>, cases: nat, known: set<string>)
    requires !Blank(seam) && forall i :: 0 <= i < |ids| ==> ids[i].Str? && !Blank(ids[i].s) && ids[i].s in known
    ensures var e := SeamEntry(seam, ids, cases); ValidSeam(e, known) && FixtureCount(e) == |ids| && CaseCount(e) == cases
  {
    var f := SeamEntry(seam, ids, cases).fields;
    GetAt(f, "seam_id", 0);
    GetAt(f, "fixture_ids", 1);
    GetAt(f, "staged_fixture_count", 2);
    GetAt(f, "staged_case_count", 3);
  }

  lemma HeaderAccepted(run: string, at: string, notes: string, version: string, fixtures: nat, cases: nat, seams: seq<Json>)
    requires !Blank(run) && !Blank(at) && !Blank(notes)
    ensures var f := RunEntry(run, at, notes, version, fixtures, cases, seams).fields;
            && ValidHeader(f, version) && Get(f, "staged_fixture_count") == Some(Int(fixtures))
            && Get(f, "staged_case_count") == Some(Int(cases)) && Get(f, "seam_coverage") == Some(Arr(seams))
  {
    var f := RunEntry(run, at, notes, version, fixtures, cases, seams).fields;
    GetAt(f, "run_id", 0);
    GetAt(f, "recorded_at", 1);
    GetAt(f, "notes", 2);
    GetAt(f, "manifest_version", 3);
    GetAt(f, "staged_fixture_count", 4);
    GetAt(f, "staged_case_count", 5);
    GetAt(f, "seam_coverage", 6);
  }

  /** A job is accepted exactly when its six texts are there and its reference, unless absent or null, is a known run. */
  lemma JobAcceptedIff(job: Fields, runIds: set<string>)
    ensures ValidJobRegistry([("jobs", Arr([Obj(job)]))], runIds) <==>
            && NonBlank(Get(job, "job_id")) && NonBlank(Get(job, "job_type")) && NonBlank(Get(job, "submitted_at"))
            && NonBlank(Get(job, "caller_app")) && NonBlank(Get(job, "execution_path")) && NonBlank(Get(job, "notes"))
            && (|| Get(job, "related_evaluation_run_id") in {None, Some(Null)}
                || exists run :: Get(job, "related_evaluation_run_id") == Some(Str(run)) && !Blank(run) && run in runIds)
  {
    var payload: Fields := [("jobs", Arr([Obj(job)]))];
    assert Get(payload, "jobs") == Some(Arr([Obj(job)]));
    assert ValidJobs([Obj(job)], runIds) <==> ValidJob([Obj(job)][0], runIds);
  }

  /** When both registries are accepted, each job's reference names exactly one run. */
  lemma ReferenceNamesOneRun(runPayload: Fields, version: string, known: set<string>, jobPayload: Fields, j: nat)
    requires ValidRunRegistry(runPayload, version, known)
    requires ValidJobRegistry(jobPayload, RunIds(runPayload))
    requires j < |JobsOf(jobPayload)| && JobsOf(jobPayload)[j].Obj? && RelatedRun(JobsOf(jobPayload)[j].fields).Some?
    ensures var id := Text(RelatedRun(JobsOf(jobPayload)[j].fields));
            var runs := RunsOf(runPayload);
            exists i :: 0 <= i < |runs| && RunId(runs[i]) == id
                        && forall k :: 0 <= k < |runs| && RunId(runs[k]) == id ==> k == i
  {
    var runs, job := RunsOf(runPayload), JobsOf(jobPayload)[j];
    var id := Text(RelatedRun(job.fields));
    assert ValidJob(job, RunIds(runPayload));
    OneIndex(RunId, runs, id);
  }

  lemma OneIndex(id: Json -> string, entries: seq<Json>, name: string)
    requires Distinct(id, entries) && exists e :: e in entries && id(e) == name
    ensures exists i :: 0 <= i < |entries| && id(entries[i]) == name
                        && forall k :: 0 <= k < |entries| && id(entries[k]) == name ==> k == i
  {
    var e :| e in entries && id(e) == name;
    var i :| 0 <= i < |entries| && entries[i] == e;
  }
}
