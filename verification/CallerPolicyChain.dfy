/**
 The ten revisions that write `caller_policies`, with the values they seed. They form a
 linked, widening chain, so the general results about round trips and tenants hold of them.
 */
module CallerPolicyChain {
  import opened Wrappers
  import opened CallerPolicies
  import opened CallerPolicyRoundTrip
  import opened CallerPolicyTenants

  /** One row of the table, changed from one seeded form to another. */
  datatype Edit = Edit(forth: Assignment, back: Assignment)

  /** What the ten revisions write, in their order. */
  datatype Seeds = Seeds(
    created: map<string, Policy>,
    performance: string, performance0024: Policy,
    gateway: string, gateway0026: Policy,
    gateway0027: Edit,
    advise: string, advise0033: Edit,
    idea: string, idea0034: Policy,
    reader: string,
    operations: string, operations0056: Policy,
    idea0074: Edit,
    advise0077: Edit)

  const AUDIT := 6

  function Chain(s: Seeds): seq<Migration> {
    [ Create(s.created),
      Seed(s.performance, s.performance0024),
      Seed(s.gateway, s.gateway0026),
      Change(s.gateway, false, s.gateway0027.forth, s.gateway0027.back),
      Change(s.advise, false, s.advise0033.forth, s.advise0033.back),
      Seed(s.idea, s.idea0034),
      AddAudit(s.reader),
      Seed(s.operations, s.operations0056),
      Change(s.idea, true, s.idea0074.forth, s.idea0074.back),
      Change(s.advise, true, s.advise0077.forth, s.advise0077.back) ]
  }

  predicate Within(tenants: seq<string>, admitted: Option<seq<string>>) {
    admitted.Some? && forall tenant :: tenant in tenants ==> tenant in admitted.value
  }

  /** Each edit goes back to the value the revision before it left, and admits its tenants. */
  predicate Consistent(s: Seeds) {
    && s.performance !in {s.gateway, s.advise, s.idea, s.operations}
    && s.gateway !in {s.advise, s.idea, s.operations} && s.advise !in {s.idea, s.operations} && s.idea != s.operations
    && s.advise in s.created
    && s.performance !in s.created && s.gateway !in s.created && s.idea !in s.created && s.operations !in s.created
    && (forall name :: name in s.created ==> s.created[name].auditAll == None)
    && SameColumns(s.gateway0027.forth, s.gateway0027.back) && SameColumns(s.advise0033.forth, s.advise0033.back)
    && SameColumns(s.idea0074.forth, s.idea0074.back) && SameColumns(s.advise0077.forth, s.advise0077.back)
    && Holds(s.gateway0027.back, s.gateway0026)
    && Holds(s.advise0033.back, s.created[s.advise])
    && Holds(s.idea0074.back, s.idea0034)
    && s.advise0077.back == Assignment(None, None, s.advise0033.forth.tenantIds, s.advise0033.forth.updatedAt)
    && s.gateway0027.forth.tenantIds.None? && s.advise0033.forth.tenantIds.Some?
    && Within(s.created[s.advise].tenantIds, s.advise0033.forth.tenantIds)
    && Within(s.created[s.advise].tenantIds, s.advise0077.forth.tenantIds)
    && Within(s.advise0033.forth.tenantIds.value, s.advise0077.forth.tenantIds)
    && Within(s.idea0034.tenantIds, s.idea0074.forth.tenantIds)
  }

  lemma ChainGoverned(s: Seeds)
    requires Consistent(s)
    ensures WellShaped(Chain(s), AUDIT)
  {
  }

  /** What a revision writes for a caller's tenants, the later edits of that caller keep. */
  lemma ChainNested(s: Seeds)
    requires Consistent(s)
    ensures Nested(Chain(s))
  {
  }

  /** Only three callers are named twice, and each time the later revision finds its prior value. */
  lemma ChainLinked(s: Seeds)
    requires Consistent(s)
    ensures Linked(Chain(s), AUDIT)
  {
    var chain := Chain(s);
    forall k: nat, m: nat, name | NextNaming(chain, k, m, name)
      ensures LeavesPrior(chain[k], k > AUDIT, name, chain[m])
    {
      NamedTwice(s, k, m, name);
    }
  }

  lemma NamedTwice(s: Seeds, k: nat, m: nat, name: string)
    requires Consistent(s) && NextNaming(Chain(s), k, m, name)
    ensures (k, m) in {(0, 4), (2, 3), (4, 9), (5, 8)}
  {
    var chain := Chain(s);
    assert name == s.advise ==> Touches(chain[4], name);
  }

  /** From no table at all every prefix of the chain applies, and its downgrade leaves no table. */
  lemma FreshUpgrade(s: Seeds, j: nat)
    requires Consistent(s) && j <= |Chain(s)|
    ensures UpChain(Chain(s), 0, j, Absent).Ok?
    ensures DownChain(Chain(s), 0, j, UpChain(Chain(s), 0, j, Absent).value) == Ok(Absent)
  {
    FreshFrom(s, 0, j, Absent);
    ChainGoverned(s);
    ChainLinked(s);
    forall name ensures Restorable(Chain(s), 0, j, name, Lookup(Absent, name)) {
      MissingRestorable(Chain(s), 0, j, name);
    }
    RoundTripIff(Chain(s), AUDIT, 0, j, Absent);
  }

  function Inserts(m: Migration): set<string> {
    match m
    case Create(rows) => rows.Keys
    case Seed(name, _) => {name}
    case _ => {}
  }

  /** The callers that the first `k` revisions insert. */
  ghost function Inserted(chain: seq<Migration>, k: nat): set<string>
    requires k <= |chain|
  {
    if k == 0 then {} else Inserted(chain, k - 1) + Inserts(chain[k - 1])
  }

  lemma UpKeys(m: Migration, t: Table)
    requires Up(m, t).Ok?
    ensures Up(m, t).value.Present?
    ensures Up(m, t).value.rows.Keys == (if t.Present? then t.rows.Keys else {}) + Inserts(m)
  {
  }

  /** No caller is inserted twice. */
  lemma InsertedOnce(s: Seeds, k: nat)
    requires Consistent(s) && k < |Chain(s)| && Chain(s)[k].Seed?
    ensures Chain(s)[k].name !in Inserted(Chain(s), k)
  {
    var chain := Chain(s);
    assert Inserted(chain, 1) == s.created.Keys;
    assert Inserted(chain, 2) == s.created.Keys + {s.performance};
    assert Inserted(chain, 5) == Inserted(chain, 4) == Inserted(chain, 3) == Inserted(chain, 2) + {s.gateway};
    assert Inserted(chain, 7) == Inserted(chain, 6) == Inserted(chain, 5) + {s.idea};
  }

  lemma {:induction false} FreshFrom(s: Seeds, k: nat, j: nat, t: Table)
    requires Consistent(s) && k <= j <= |Chain(s)| && AtRevision(AUDIT, k, t)
    requires (if t.Present? then t.rows.Keys else {}) == Inserted(Chain(s), k)
    ensures UpChain(Chain(s), k, j, t).Ok?
    decreases j - k
  {
    if k < j {
      var m := Chain(s)[k];
      if m.Seed? {
        InsertedOnce(s, k);
      }
      assert Up(m, t).Ok?;
      UpKeys(m, t);
      ChainGoverned(s);
      UpActsOnRows(Chain(s), AUDIT, k, t, "");
      FreshFrom(s, k + 1, j, Up(m, t).value);
    }
  }
}
