/** The values the caller-policy revisions write; the descriptions are parameters. */
module CallerPolicySeeds {
  import opened Wrappers
  import opened CallerPolicies
  import opened CallerPolicyRoundTrip
  import opened CallerPolicyTenants
  import opened CallerPolicyChain

  const MANAGE := "lotus-manage"
  const ADVISE := "lotus-advise"
  const PLATFORM := "lotus-platform"
  const WORKBENCH := "lotus-workbench"
  const PERFORMANCE := "lotus-performance"
  const GATEWAY := "lotus-gateway"
  const IDEA := "lotus-idea"
  const OPERATIONS := "lotus-ai-provider-operations"

  const ACTIVE := "ACTIVE"
  const OPTIONAL := "OPTIONAL"

  // ----- the seeded values -----

  /** The description each seed or edit writes. */
  datatype Texts = Texts(
    manage: string, advise: string, platform: string, workbench: string, performance: string,
    gateway: string, gatewayLive: string, adviseGoverned: string, idea: string, operations: string)

  const ADVISE_TENANTS_0019 := ["tenant-us-002"]
  const ADVISE_TENANTS_0033 := ["tenant-us-002", "tenant-sg-001"]
  const ADVISE_TENANTS_0077 := ["tenant-us-002", "tenant-sg-001", "tenant-sg"]
  const IDEA_TENANTS_0034 := ["tenant-sg-001"]
  const IDEA_TENANTS_0074 := ["tenant-private-bank-sg", "tenant-sg-001"]

  const MARCH_24 := "2026-03-24T00:00:00Z"
  const APRIL_4 := "2026-04-04T00:00:00Z"
  const MAY_28 := "2026-05-28T00:00:00Z"
  const JUNE_26 := "2026-06-26T00:00:00Z"

  function Seeded0019(texts: Texts): map<string, Policy> {
    map[
      MANAGE := Policy(ACTIVE, texts.manage,
                       ["explain.v1", "summarize.v1", "generate_structured.v1", "knowledge_search.v1",
                        "knowledge_answer.v1"],
                       ["lotus-platform-rfcs", "lotus-ai-architecture"],
                       true, false, false, false, RESTRICTED, ["tenant-sg-001"], MARCH_24, None),
      ADVISE := Policy(ACTIVE, texts.advise,
                       ["explain.v1", "summarize.v1", "knowledge_answer.v1"], ["lotus-platform-rfcs"],
                       false, false, false, false, RESTRICTED, ADVISE_TENANTS_0019, MARCH_24, None),
      PLATFORM := Policy(ACTIVE, texts.platform, [], [],
                         false, true, true, true, OPTIONAL, [], MARCH_24, None),
      WORKBENCH := Policy(ACTIVE, texts.workbench,
                          ["knowledge_search.v1", "knowledge_answer.v1"],
                          ["lotus-platform-rfcs", "lotus-ai-architecture"],
                          false, false, false, false, OPTIONAL, [], MARCH_24, None)]
  }

  function Performance0024(texts: Texts): Policy {
    Policy(ACTIVE, texts.performance, ["explain.v1"], [], false, false, false, false, RESTRICTED, ["tenant-sg-001"],
           "2026-03-24T12:00:00Z", None)
  }

  function Gateway0026(texts: Texts): Policy {
    Policy(ACTIVE, texts.gateway, ["explain.v1"], [], false, false, false, false, OPTIONAL, [], APRIL_4, None)
  }

  function Idea0034(texts: Texts): Policy {
    Policy(ACTIVE, texts.idea, ["explain.v1"], [], false, false, false, false, RESTRICTED, IDEA_TENANTS_0034, JUNE_26, None)
  }

  function Operations0056(texts: Texts): Policy {
    Policy(ACTIVE, texts.operations, [], [], false, false, false, false, OPTIONAL, [], "2026-08-31T00:00:00Z", None)
  }

  // ----- the edits -----

  function Gateway0027(texts: Texts): Edit {
    Edit(Assignment(Some(true), Some(texts.gatewayLive), None, APRIL_4),
         Assignment(Some(false), Some(texts.gateway), None, APRIL_4))
  }

  function Advise0033(texts: Texts): Edit {
    Edit(Assignment(None, Some(texts.adviseGoverned), Some(ADVISE_TENANTS_0033), MAY_28),
         Assignment(None, Some(texts.advise), Some(ADVISE_TENANTS_0019), MARCH_24))
  }

  function Idea0074(): Edit {
    Edit(Assignment(None, None, Some(IDEA_TENANTS_0074), "2026-09-05T00:00:00Z"),
         Assignment(None, None, Some(IDEA_TENANTS_0034), JUNE_26))
  }

  function Advise0077(): Edit {
    Edit(Assignment(None, None, Some(ADVISE_TENANTS_0077), "2026-09-23T00:00:00Z"),
         Assignment(None, None, Some(ADVISE_TENANTS_0033), MAY_28))
  }

  function Written(texts: Texts): Seeds {
    Seeds(Seeded0019(texts), PERFORMANCE, Performance0024(texts), GATEWAY, Gateway0026(texts), Gateway0027(texts),
          ADVISE, Advise0033(texts), IDEA, Idea0034(texts), PLATFORM, OPERATIONS, Operations0056(texts),
          Idea0074(), Advise0077())
  }

  /** Every edit goes back to exactly what the revision before it wrote. */
  lemma WrittenConsistent(texts: Texts)
    ensures Consistent(Written(texts))
  {
  }

  lemma WrittenChain(texts: Texts)
    ensures var chain := Chain(Written(texts)); WellShaped(chain, AUDIT) && Linked(chain, AUDIT) && Nested(chain)
  {
    WrittenConsistent(texts);
    ChainGoverned(Written(texts));
    ChainLinked(Written(texts));
    ChainNested(Written(texts));
  }

  /** Up between any two revisions and back: no downgrade fails, and the table returns iff each row is restorable. */
  lemma WrittenRoundTripIff(texts: Texts, i: nat, j: nat, t: Table)
    requires i <= j <= |Chain(Written(texts))| && AtRevision(AUDIT, i, t) && UpChain(Chain(Written(texts)), i, j, t).Ok?
    ensures var chain := Chain(Written(texts));
            var back := DownChain(chain, i, j, UpChain(chain, i, j, t).value);
            back.Ok? && (back.value == t <==> forall name :: Restorable(chain, i, j, name, Lookup(t, name)))
  {
    WrittenChain(texts);
    RoundTripIff(Chain(Written(texts)), AUDIT, i, j, t);
  }

  /** Between any two revisions the tenants of a caller only grow iff the first edit that applies contains them. */
  lemma WrittenTenantsGrowIff(texts: Texts, i: nat, j: nat, t: Table, name: string)
    requires i <= j <= |Chain(Written(texts))| && AtRevision(AUDIT, i, t) && UpChain(Chain(Written(texts)), i, j, t).Ok?
    ensures var chain := Chain(Written(texts));
            Grows(chain, i, j, t, name) <==> Widens(chain, i, j, name, Lookup(t, name))
  {
    WrittenChain(texts);
    TenantsGrowIff(Chain(Written(texts)), AUDIT, i, j, t, name);
  }

  // ----- the two callers whose tenants are edited -----

  lemma {:induction false} WidensSkips(chain: seq<Migration>, k: nat, m: nat, j: nat, name: string, row: Row)
    requires k <= m < j <= |chain| && row.Some? && Applies(chain[m], name, row)
    requires forall i :: k <= i < m ==> !Assigns(chain[i], name)
    ensures Widens(chain, k, j, name, row) <==> Contains(chain[m], row)
    decreases m - k
  {
    if k < m {
      WidensSkips(chain, k + 1, m, j, name, row);
    }
  }

  /** A lotus-advise row that revision 0033 edits keeps its tenants exactly when they are among its two. */
  lemma AdviseTenantsGrowIff(texts: Texts, i: nat, j: nat, t: Table)
    requires 0 < i <= 4 < j <= |Chain(Written(texts))| && AtRevision(AUDIT, i, t)
    requires UpChain(Chain(Written(texts)), i, j, t).Ok? && Lookup(t, ADVISE).Some?
    ensures Grows(Chain(Written(texts)), i, j, t, ADVISE) <==>
            forall tenant :: tenant in Tenants(Lookup(t, ADVISE)) ==> tenant in ADVISE_TENANTS_0033
  {
    WrittenTenantsGrowIff(texts, i, j, t, ADVISE);
    WidensSkips(Chain(Written(texts)), i, 4, j, ADVISE, Lookup(t, ADVISE));
  }

  /** A restricted lotus-idea row that revision 0074 edits keeps its tenants exactly when they are among its two. */
  lemma IdeaTenantsGrowIff(texts: Texts, i: nat, j: nat, t: Table)
    requires 5 < i <= 8 < j <= |Chain(Written(texts))| && AtRevision(AUDIT, i, t)
    requires UpChain(Chain(Written(texts)), i, j, t).Ok? && Lookup(t, IDEA).Some?
    requires Lookup(t, IDEA).value.tenantMode == RESTRICTED
    ensures Grows(Chain(Written(texts)), i, j, t, IDEA) <==>
            forall tenant :: tenant in Tenants(Lookup(t, IDEA)) ==> tenant in IDEA_TENANTS_0074
  {
    WrittenTenantsGrowIff(texts, i, j, t, IDEA);
    WidensSkips(Chain(Written(texts)), i, 8, j, IDEA, Lookup(t, IDEA));
  }
}
