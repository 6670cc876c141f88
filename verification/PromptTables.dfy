/**
 The prompt rollout tables of revisions 0016 and 0017. `prompt_definitions` has one row per
 task; the new tables are keyed by task and version, and by task.
 */
module PromptTables {
  import opened Wrappers

  datatype Prompt = Prompt(
    kind: string, status: string, managementMode: string, source: string, instructions: string, notes: string)

  datatype Definition = Definition(version: string, prompt: Prompt)

  datatype Version = Version(prompt: Prompt, createdAt: string)

  type VersionKey = (string, string)

  datatype Rollout = Rollout(
    active: string,
    candidate: Option<string>,
    previous: Option<string>,
    mode: string,
    mutation: bool,
    updatedAt: string)

  datatype Tables = Tables(versions: map<VersionKey, Version>, rollouts: map<string, Rollout>)

  const AT_0016 := "2026-03-23T00:00:00+00:00"
  const AT_0017 := "2026-03-23T00:30:00+00:00"
  const READ_ONLY := "GOVERNED_STATE_READ_ONLY"
  const CONTROLLED := "GOVERNED_CONTROL_ACTIONS"

  // ----- the revisions -----

  /** The two INSERT..SELECT statements into the tables just created. */
  function Up0016(definitions: map<string, Definition>): Tables {
    Tables(
      map task | task in definitions :: (task, definitions[task].version) := Version(definitions[task].prompt, AT_0016),
      map task | task in definitions :: Rollout(definitions[task].version, None, None, READ_ONLY, false, AT_0016))
  }

  function Opened(r: Rollout): Rollout {
    r.(mode := CONTROLLED, mutation := true, updatedAt := AT_0017)
  }

  function Closed(r: Rollout): Rollout {
    Rollout(r.active, None, None, READ_ONLY, false, AT_0016)
  }

  /** The candidates are inserted together or, when one key is taken, not at all. */
  function Up0017(candidates: map<VersionKey, Version>, t: Tables): Option<Tables> {
    if candidates.Keys !! t.versions.Keys
    then Some(Tables(t.versions + candidates, map task | task in t.rollouts :: Opened(t.rollouts[task])))
    else None
  }

  function Down0017(candidates: map<VersionKey, Version>, t: Tables): Tables {
    Tables(t.versions - candidates.Keys, map task | task in t.rollouts :: Closed(t.rollouts[task]))
  }

  // ----- what the tables promise -----

  ghost predicate OneRolloutPerTask(definitions: map<string, Definition>, t: Tables) {
    t.rollouts.Keys == definitions.Keys
  }

  ghost predicate ActiveExists(t: Tables) {
    forall task :: task in t.rollouts ==> (task, t.rollouts[task].active) in t.versions
  }

  lemma After0016(definitions: map<string, Definition>)
    ensures var t := Up0016(definitions); OneRolloutPerTask(definitions, t) && ActiveExists(t)
    ensures forall key :: key in Up0016(definitions).versions ==>
              Up0016(definitions).versions[key].prompt == definitions[key.0].prompt
    ensures forall key :: key in Up0016(definitions).versions <==>
              key.0 in definitions && definitions[key.0].version == key.1
  {
  }

  /** 0017 applies after 0016 exactly when no task is already defined at a seeded version. */
  lemma After0017(candidates: map<VersionKey, Version>, definitions: map<string, Definition>)
    ensures Up0017(candidates, Up0016(definitions)).Some? <==>
            forall key :: key in candidates ==> !(key.0 in definitions && definitions[key.0].version == key.1)
    ensures var t := Up0017(candidates, Up0016(definitions));
            t.Some? ==> OneRolloutPerTask(definitions, t.value) && ActiveExists(t.value)
  {
    var first := Up0016(definitions);
    After0016(definitions);
    assert candidates.Keys !! first.versions.Keys <==> forall key :: key in candidates ==> key !in first.versions;
  }

  /** As 0016 writes a rollout. */
  ghost predicate Untouched(r: Rollout) {
    && r.candidate == None && r.previous == None && r.mode == "GOVERNED_STATE_READ_ONLY" && !r.mutation
    && r.updatedAt == "2026-03-23T00:00:00+00:00"
  }

  /** Down after up is the identity exactly on tables whose rollouts are as 0016 leaves them. */
  lemma Undone0017Iff(candidates: map<VersionKey, Version>, t: Tables)
    requires Up0017(candidates, t).Some?
    ensures Down0017(candidates, Up0017(candidates, t).value) == t <==>
            forall task :: task in t.rollouts ==> Untouched(t.rollouts[task])
  {
    var back := Down0017(candidates, Up0017(candidates, t).value);
    assert (t.versions + candidates) - candidates.Keys == t.versions;
    assert back.rollouts == map task | task in t.rollouts :: Closed(t.rollouts[task]);
    if forall task :: task in t.rollouts ==> Untouched(t.rollouts[task]) {
      assert back.rollouts == t.rollouts;
    }
    if back == t {
      forall task | task in t.rollouts ensures Untouched(t.rollouts[task]) {
        assert back.rollouts[task] == Closed(t.rollouts[task]);
      }
    }
  }

  /** Downgrading 0017 from its own result restores the state 0016 left. */
  lemma Restored0016(candidates: map<VersionKey, Version>, definitions: map<string, Definition>)
    requires Up0017(candidates, Up0016(definitions)).Some?
    ensures Down0017(candidates, Up0017(candidates, Up0016(definitions)).value) == Up0016(definitions)
  {
    Undone0017Iff(candidates, Up0016(definitions));
  }

  /** From any later state the downgrade keeps every active reference exactly when no candidate is active. */
  lemma DowngradeKeepsReferencesIff(candidates: map<VersionKey, Version>, t: Tables)
    requires ActiveExists(t)
    ensures ActiveExists(Down0017(candidates, t)) <==>
            forall task :: task in t.rollouts ==> (task, t.rollouts[task].active) !in candidates
    ensures Down0017(candidates, t).rollouts.Keys == t.rollouts.Keys
  {
    var down := Down0017(candidates, t);
    if ActiveExists(down) {
      forall task | task in t.rollouts ensures (task, t.rollouts[task].active) !in candidates {
        assert task in down.rollouts && down.rollouts[task].active == t.rollouts[task].active;
      }
    }
  }

  /** The two seeded rows; their prompts are given. */
  function Candidates(explain: Prompt, answer: Prompt): map<VersionKey, Version> {
    map[("explain.v1", "foundation.explain.v2") := Version(explain, AT_0017),
        ("knowledge_answer.v1", "foundation.knowledge_answer.v2") := Version(answer, AT_0017)]
  }

  /** What 0017 seeds: the second version of two tasks. */
  lemma CandidatesAre(explain: Prompt, answer: Prompt)
    ensures var seeded := Candidates(explain, answer);
            && |seeded| == 2
            && ("explain.v1", "foundation.explain.v2") in seeded
            && ("knowledge_answer.v1", "foundation.knowledge_answer.v2") in seeded
            && seeded[("explain.v1", "foundation.explain.v2")] == Version(explain, "2026-03-23T00:30:00+00:00")
            && seeded[("knowledge_answer.v1", "foundation.knowledge_answer.v2")] ==
               Version(answer, "2026-03-23T00:30:00+00:00")
  {
  }

  predicate Active(t: Tables, task: string, version: string) {
    task in t.rollouts && t.rollouts[task].active == version
  }

  lemma SeededDowngradeKeepsReferencesIff(explain: Prompt, answer: Prompt, t: Tables)
    requires ActiveExists(t)
    ensures ActiveExists(Down0017(Candidates(explain, answer), t)) <==>
            && !Active(t, "explain.v1", "foundation.explain.v2")
            && !Active(t, "knowledge_answer.v1", "foundation.knowledge_answer.v2")
  {
    DowngradeKeepsReferencesIff(Candidates(explain, answer), t);
  }

  // ----- the database -----

  class PromptStore {
    var definitions: map<string, Definition>
    var versions: map<VersionKey, Version>
    var rollouts: map<string, Rollout>

    ghost function Contents(): Tables
      reads this
    {
      Tables(versions, rollouts)
    }

    /** One rollout per defined task, its active version the defined one and the only one stored. */
    method Upgrade0016()
      modifies this`versions, this`rollouts
      ensures OneRolloutPerTask(definitions, Contents()) && ActiveExists(Contents())
      ensures forall task :: task in definitions ==>
                rollouts[task] == Rollout(definitions[task].version, None, None, "GOVERNED_STATE_READ_ONLY", false,
                                          "2026-03-23T00:00:00+00:00")
      ensures forall key :: key in versions <==> key.0 in definitions && definitions[key.0].version == key.1
      ensures forall key :: key in versions ==>
                versions[key] == Version(definitions[key.0].prompt, "2026-03-23T00:00:00+00:00")
      ensures Contents() == Up0016(definitions)
    {
      var inserted := map task | task in definitions
        :: (task, definitions[task].version) := Version(definitions[task].prompt, AT_0016);
      var states := map task | task in definitions
        :: Rollout(definitions[task].version, None, None, READ_ONLY, false, AT_0016);
      assert Up0016(definitions) == Tables(inserted, states);
      After0016(definitions);
      versions, rollouts := inserted, states;
    }

    /** Applied exactly when no candidate key is taken; every stored version and every active
        reference survives, and no active version changes. */
    method Upgrade0017(candidates: map<VersionKey, Version>) returns (ok: bool)
      modifies this`versions, this`rollouts
      ensures ok <==> forall key :: key in candidates ==> key !in old(versions)
      ensures forall key :: key in old(versions) ==> key in versions && versions[key] == old(versions)[key]
      ensures ok ==> forall key :: key in versions <==> key in old(versions) || key in candidates
      ensures ok ==> forall key :: key in candidates ==> versions[key] == candidates[key]
      ensures rollouts.Keys == old(rollouts).Keys && (!ok ==> unchanged(this))
      ensures ok ==> forall task :: task in rollouts ==>
                rollouts[task] == Rollout(old(rollouts)[task].active, old(rollouts)[task].candidate,
                                          old(rollouts)[task].previous, "GOVERNED_CONTROL_ACTIONS", true,
                                          "2026-03-23T00:30:00+00:00")
      ensures old(ActiveExists(Contents())) ==> ActiveExists(Contents())
      ensures ok == Up0017(candidates, old(Contents())).Some?
      ensures Contents() == if ok then Up0017(candidates, old(Contents())).value else old(Contents())
    {
      ok := candidates.Keys !! versions.Keys;
      if ok {
        versions := versions + candidates;
        rollouts := map task | task in rollouts :: Opened(rollouts[task]);
      }
    }

    /** The candidates are gone, every other version stays, and no active version changes, so the
        references survive exactly when no candidate is active. */
    method Downgrade0017(candidates: map<VersionKey, Version>)
      modifies this`versions, this`rollouts
      ensures forall key :: key in versions <==> key in old(versions) && key !in candidates
      ensures forall key :: key in versions ==> versions[key] == old(versions)[key]
      ensures rollouts.Keys == old(rollouts).Keys
      ensures forall task :: task in rollouts ==>
                rollouts[task] == Rollout(old(rollouts)[task].active, None, None, "GOVERNED_STATE_READ_ONLY", false,
                                          "2026-03-23T00:00:00+00:00")
      ensures old(ActiveExists(Contents())) ==>
                (ActiveExists(Contents()) <==>
                 forall task :: task in old(rollouts) ==> (task, old(rollouts)[task].active) !in candidates)
      ensures Contents() == Down0017(candidates, old(Contents()))
    {
      if ActiveExists(Contents()) {
        DowngradeKeepsReferencesIff(candidates, Contents());
      }
      versions := versions - candidates.Keys;
      rollouts := map task | task in rollouts :: Closed(rollouts[task]);
    }
  }
}
