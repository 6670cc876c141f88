/**
 The identity migration 0070 over the model catalogue table, the live validator that stamps
 a catalogue entry, and identity resolution. Column text comes from the database, which
 stores no surrogates; the columns the migration never reads are carried as `other`.
 */
module CatalogueMigration {
  import opened Wrappers
  import opened Unicode
  import opened CandidateIdentity

  datatype Row<C> = Row(serving: ServingTuple, other: C, candidateId: Option<Text>, deploymentKey: Text)

  type Table<C> = map<Text, Row<C>>

  /** How a serving tuple is turned into its v2 id; None is an encoding error. */
  type Derivation = ServingTuple -> Option<Text>

  /** The derivation of the source, live and frozen in the migration alike. */
  function Canonically(sha: Sha256): Derivation {
    (t: ServingTuple) => CandidateId(sha, t)
  }

  /** What the backfill writes into one row. */
  function Backfilled<C>(derive: Derivation, row: Row<C>): Row<C> {
    row.(candidateId := derive(row.serving), deploymentKey := DeploymentKey(row.serving.deployment))
  }

  function BackfilledTable<C>(derive: Derivation, rows: Table<C>): Table<C> {
    map key | key in rows :: Backfilled(derive, rows[key])
  }

  class CatalogueTable<C> {
    var rows: Table<C>

    constructor (initial: Table<C>)
      ensures rows == initial
    {
      rows := initial;
    }

    /** The online upgrade: fetch every row, then update each one by its primary key. */
    method Upgrade(derive: Derivation)
      modifies this
      ensures rows == BackfilledTable(derive, old(rows))
    {
      var fetched := rows;
      var pending := fetched.Keys;
      while pending != {}
        invariant pending <= fetched.Keys == rows.Keys && fetched == old(rows)
        invariant forall key :: key in pending ==> rows[key] == fetched[key]
        invariant forall key :: key in rows && key !in pending ==> rows[key] == Backfilled(derive, fetched[key])
        decreases |pending|
      {
        var key :| key in pending;
        rows := rows[key := Backfilled(derive, rows[key])];
        pending := pending - {key};
      }
    }
  }

  /** The backfill sets both columns of every row and changes nothing else. */
  lemma BackfillFrame<C(!new)>(sha: Sha256, rows: Table<C>, key: Text)
    requires key in rows && ScalarTuple(rows[key].serving)
    ensures BackfilledTable(Canonically(sha), rows).Keys == rows.Keys
    ensures var row := BackfilledTable(Canonically(sha), rows)[key];
            && row.serving == rows[key].serving && row.other == rows[key].other
            && row.candidateId.Some? && row.candidateId == CandidateId(sha, rows[key].serving)
            && row.deploymentKey == if row.serving.deployment.None? then [] else row.serving.deployment.value
  {
    CandidateIdDefined(sha, rows[key].serving);
  }

  // ----- the two unique indexes -----

  ghost predicate CandidateIndexUnique<C(!new)>(rows: Table<C>) {
    forall k, l :: k in rows && l in rows && SameId(rows, k, l) ==> k == l
  }

  ghost predicate ServingIndexUnique<C(!new)>(rows: Table<C>) {
    forall k, l :: (k in rows && l in rows && rows[k].serving.provider == rows[l].serving.provider
                    && rows[k].serving.family == rows[l].serving.family
                    && rows[k].serving.revision == rows[l].serving.revision
                    && rows[k].deploymentKey == rows[l].deploymentKey) ==> k == l
  }

  /** Two tuples one catalogue row cannot tell apart: null and empty deployment are one. */
  predicate SameServing(t: ServingTuple, u: ServingTuple) {
    t.provider == u.provider && t.family == u.family && t.revision == u.revision
    && DeploymentKey(t.deployment) == DeploymentKey(u.deployment)
  }

  ghost predicate NoDuplicateTuple<C(!new)>(rows: Table<C>) {
    forall k, l :: k in rows && l in rows && rows[k].serving == rows[l].serving ==> k == l
  }

  ghost predicate NoDuplicateServing<C(!new)>(rows: Table<C>) {
    forall k, l :: k in rows && l in rows && SameServing(rows[k].serving, rows[l].serving) ==> k == l
  }

  ghost predicate CollisionFree<C(!new)>(sha: Sha256, rows: Table<C>) {
    forall k, l :: k in rows && l in rows ==> NoCollision(sha, rows[k].serving, rows[l].serving)
  }

  ghost predicate ScalarRows<C(!new)>(rows: Table<C>) {
    forall k :: k in rows ==> ScalarTuple(rows[k].serving)
  }

  /** The derivation is defined on every row and tells different tuples apart. */
  ghost predicate Faithful<C(!new)>(derive: Derivation, rows: Table<C>) {
    forall k, l :: k in rows && l in rows ==>
      derive(rows[k].serving).Some? && (derive(rows[k].serving) == derive(rows[l].serving) <==>
            rows[k].serving == rows[l].serving)
  }

  /** Absent a digest collision, the source's derivation is faithful on every table. */
  lemma CanonicallyFaithful<C(!new)>(sha: Sha256, rows: Table<C>)
    requires ScalarRows(rows) && CollisionFree(sha, rows)
    ensures Faithful(Canonically(sha), rows)
  {
    forall k, l | k in rows && l in rows
      ensures Canonically(sha)(rows[k].serving).Some?
      ensures Canonically(sha)(rows[k].serving) == Canonically(sha)(rows[l].serving) <==> rows[k].serving == rows[l].serving
    {
      CandidateIdIff(sha, rows[k].serving, rows[l].serving);
    }
  }

  /** Under a faithful derivation, each index can be built after the backfill exactly when the
      table held no two rows of the same tuple, respectively of the same serving tuple. */
  lemma IndexesBuildIff<C(!new)>(derive: Derivation, rows: Table<C>)
    requires Faithful(derive, rows)
    ensures CandidateIndexUnique(BackfilledTable(derive, rows)) <==> NoDuplicateTuple(rows)
    ensures ServingIndexUnique(BackfilledTable(derive, rows)) <==> NoDuplicateServing(rows)
  {
    var after := BackfilledTable(derive, rows);
    forall k, l | k in rows && l in rows
      ensures SameId(after, k, l) <==> rows[k].serving == rows[l].serving
    {
    }
  }

  predicate SameId<C>(rows: Table<C>, k: Text, l: Text)
    requires k in rows && l in rows
  {
    rows[k].candidateId.Some? && rows[k].candidateId == rows[l].candidateId
  }

  /** Every row sits under the v1 key of its own fields, as the write guard demands. */
  ghost predicate KeyedByV1<C(!new)>(rows: Table<C>) {
    forall k :: k in rows ==>
      k == V1Key(rows[k].serving.provider, rows[k].serving.revision, rows[k].serving.deployment)
  }

  /** A table keyed by v1 keys always takes both indexes. */
  lemma KeyedTableTakesIndexes<C(!new)>(sha: Sha256, rows: Table<C>)
    requires KeyedByV1(rows) && ScalarRows(rows) && CollisionFree(sha, rows)
    ensures CandidateIndexUnique(BackfilledTable(Canonically(sha), rows))
    ensures ServingIndexUnique(BackfilledTable(Canonically(sha), rows))
  {
    forall k, l | k in rows && l in rows && SameServing(rows[k].serving, rows[l].serving) ensures k == l {
      V1KeySplits(rows[k].serving.provider, rows[k].serving.revision, rows[k].serving.deployment);
      V1KeySplits(rows[l].serving.provider, rows[l].serving.revision, rows[l].serving.deployment);
    }
    CanonicallyFaithful(sha, rows);
    IndexesBuildIff(Canonically(sha), rows);
  }

  // ----- the live validator -----

  datatype StampError = Unencodable | Contradicts

  /** The id the validator leaves on an entry that came in with `given`. */
  function Stamp(sha: Sha256, serving: ServingTuple, given: Text): Result<Text, StampError> {
    match CandidateId(sha, serving)
    case None => Err(Unencodable)
    case Some(derived) => if given == [] || given == derived then Ok(derived) else Err(Contradicts)
  }

  class CatalogueEntry {
    const serving: ServingTuple
    var candidateIdV2: Text

    constructor (serving: ServingTuple, given: Text)
      ensures this.serving == serving && candidateIdV2 == given
    {
      this.serving := serving;
      candidateIdV2 := given;
    }

    /** `_stamp_canonical_candidate_identity`, run after the fields are set. */
    method StampIdentity(sha: Sha256) returns (error: Option<StampError>)
      modifies this
      ensures error == Some(Unencodable) <==> !ScalarTuple(serving)
      ensures error == None ==> Some(candidateIdV2) == CandidateId(sha, serving)
      ensures old(candidateIdV2) == [] && ScalarTuple(serving) ==> error == None
      ensures old(candidateIdV2) != [] && ScalarTuple(serving) ==>
                (error == None <==> Some(old(candidateIdV2)) == CandidateId(sha, serving))
      ensures error.Some? || old(candidateIdV2) != [] ==> candidateIdV2 == old(candidateIdV2)
      ensures match Stamp(sha, serving, old(candidateIdV2))
              case Ok(id) => error == None && candidateIdV2 == id
              case Err(e) => error == Some(e) && candidateIdV2 == old(candidateIdV2)
    {
      var derived := CandidateId(sha, serving);
      CandidateIdDefined(sha, serving);
      if derived.None? {
        return Some(Unencodable);
      }
      if candidateIdV2 == [] {
        candidateIdV2 := derived.value;
      } else if candidateIdV2 != derived.value {
        return Some(Contradicts);
      }
      error := None;
    }
  }

  /** An entry without an id gets the derived one, and one with an id keeps it exactly when it is the derived one. */
  lemma StampIs(sha: Sha256, serving: ServingTuple, given: Text)
    requires ScalarTuple(serving)
    ensures Stamp(sha, serving, []).Ok? && Some(Stamp(sha, serving, []).value) == CandidateId(sha, serving)
    ensures given != [] ==> (Stamp(sha, serving, given) == Ok(given) <==> CandidateId(sha, serving) == Some(given))
    ensures given != [] && CandidateId(sha, serving) != Some(given) ==> Stamp(sha, serving, given) == Err(Contradicts)
  {
    CandidateIdDefined(sha, serving);
  }

  /** Stamping twice is stamping once. */
  lemma StampIdempotent(sha: Sha256, serving: ServingTuple, given: Text)
    requires Stamp(sha, serving, given).Ok?
    ensures Stamp(sha, serving, Stamp(sha, serving, given).value) == Stamp(sha, serving, given)
  {
  }

  /** Every backfilled row passes the live validator unchanged, and its id passes for no
      other tuple. */
  lemma BackfillAccepted<C(!new)>(sha: Sha256, row: Row<C>, other: ServingTuple)
    requires ScalarTuple(row.serving) && ScalarTuple(other) && NoCollision(sha, row.serving, other)
    ensures Backfilled(Canonically(sha), row).candidateId.Some?
    ensures Stamp(sha, row.serving, Backfilled(Canonically(sha), row).candidateId.value) ==
          Ok(Backfilled(Canonically(sha), row).candidateId.value)
    ensures Stamp(sha, other, Backfilled(Canonically(sha), row).candidateId.value).Ok? <==> other == row.serving
  {
    CandidateIdIff(sha, row.serving, other);
    CandidateIdDefined(sha, other);
    var id := Backfilled(Canonically(sha), row).candidateId.value;
    assert id[..|PREFIX|] == PREFIX && |PREFIX| == 6;
  }

  // ----- resolving an identity in either representation -----

  predicate StartsWith(s: Text, prefix: Text) {
    |prefix| <= |s| && s[..|prefix|] == prefix
  }

  /** `resolve_catalogue_entry_by_identity`: the key of the row found, if any. */
  ghost function ResolveKey<C>(rows: Table<C>, identity: Text): Option<Text> {
    if StartsWith(identity, PREFIX) then
      if exists k :: k in rows && rows[k].candidateId == Some(identity)
      then var k :| k in rows && rows[k].candidateId == Some(identity); Some(k)
      else None
    else if identity in rows then Some(identity)
    else None
  }

  /** A canonical id resolves to the row it was derived for, and to no other. */
  lemma CanonicalIdResolves<C(!new)>(sha: Sha256, rows: Table<C>, key: Text)
    requires KeyedByV1(rows) && ScalarRows(rows) && CollisionFree(sha, rows) && key in rows
    ensures var after := BackfilledTable(Canonically(sha), rows);
            after[key].candidateId.Some? && ResolveKey(after, after[key].candidateId.value) == Some(key)
  {
    var after := BackfilledTable(Canonically(sha), rows);
    KeyedTableTakesIndexes(sha, rows);
    BackfillFrame(sha, rows, key);
    IdHasPrefix(sha, rows[key].serving);
    forall k | k in after && after[k].candidateId == after[key].candidateId ensures k == key {
      assert SameId(after, k, key);
    }
  }

  /** An identity that is no row's key and no row's canonical id resolves to nothing. */
  lemma UnknownResolvesToNothing<C(!new)>(rows: Table<C>, identity: Text)
    requires identity !in rows && forall k :: k in rows ==> rows[k].candidateId != Some(identity)
    ensures ResolveKey(rows, identity) == None
  {
  }

  lemma IdHasPrefix(sha: Sha256, t: ServingTuple)
    ensures CandidateId(sha, t).Some? ==> StartsWith(CandidateId(sha, t).value, PREFIX)
  {
  }

  /** A historical row key still resolves to its row exactly unless its provider starts with
      the canonical prefix; then it resolves to nothing. */
  lemma RowKeyResolvesIff<C(!new)>(sha: Sha256, rows: Table<C>, key: Text)
    requires KeyedByV1(rows) && key in rows && forall bytes :: HexDigest(sha(bytes))
    ensures var found := ResolveKey(BackfilledTable(Canonically(sha), rows), key);
            if StartsWith(rows[key].serving.provider, PREFIX) then found == None else found == Some(key)
  {
    var t, after := rows[key].serving, BackfilledTable(Canonically(sha), rows);
    PrefixOfKey(t.provider, t.revision, t.deployment);
    forall k | k in after ensures after[k].candidateId != Some(key) {
      KeysNeverClash(sha, rows[k].serving, t.provider, t.revision, t.deployment);
    }
  }

  lemma PrefixOfKey(p: Text, r: Text, d: Option<Text>)
    ensures StartsWith(V1Key(p, r, d), PREFIX) <==> StartsWith(p, PREFIX)
  {
    var key := V1Key(p, r, d);
    V1KeySplits(p, r, d);
    assert key[..|p|] == p && key[|p|] == DELIMITER && |PREFIX| == 6;
    assert forall i :: 0 <= i < |PREFIX| ==> PREFIX[i] != DELIMITER;
    if StartsWith(key, PREFIX) {
      assert forall i :: 0 <= i < |PREFIX| ==> key[i] == PREFIX[i];
      assert |p| >= |PREFIX|;
      assert key[..|PREFIX|] == p[..|PREFIX|];
    } else if |PREFIX| <= |p| {
      assert key[..|PREFIX|] == p[..|PREFIX|];
    }
  }
}
