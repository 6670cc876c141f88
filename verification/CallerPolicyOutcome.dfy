/** The table that the ten revisions leave when they start from none: who may do what, in the end. */
module CallerPolicyOutcome {
  import opened Wrappers
  import opened CallerPolicies
  import opened CallerPolicyRoundTrip
  import opened CallerPolicyTenants
  import opened CallerPolicyChain
  import opened CallerPolicySeeds

  // ----- the rows, revision by revision -----

  function Rows0026(s: Seeds): map<string, Policy> {
    s.created[s.performance := s.performance0024.(auditAll := None)][s.gateway := s.gateway0026.(auditAll := None)]
  }

  function Rows0034(s: Seeds): map<string, Policy>
    requires Consistent(s)
  {
    Rows0026(s)[s.gateway := Assign(s.gateway0027.forth, s.gateway0026.(auditAll := None))]
               [s.advise := Assign(s.advise0033.forth, s.created[s.advise])]
               [s.idea := s.idea0034.(auditAll := None)]
  }

  function Rows0056(s: Seeds): map<string, Policy>
    requires Consistent(s)
  {
    Audited(Rows0034(s), s.reader)[s.operations := s.operations0056.(auditAll := Some(false))]
  }

  function Rows0077(s: Seeds): map<string, Policy>
    requires Consistent(s)
  {
    var advise0033 := Assign(s.advise0033.forth, s.created[s.advise]);
    Rows0056(s)[s.idea := Assign(s.idea0074.forth, s.idea0034.(auditAll := Some(s.idea == s.reader)))]
               [s.advise := Assign(s.advise0077.forth, advise0033.(auditAll := Some(s.advise == s.reader)))]
  }

  predicate Restricted(s: Seeds)
    requires Consistent(s)
  {
    s.created[s.advise].tenantMode == RESTRICTED && s.idea0034.tenantMode == RESTRICTED
  }

  lemma UpTwo(chain: seq<Migration>, i: nat, t: Table, u: Table, v: Table)
    requires i + 2 <= |chain| && Up(chain[i], t) == Ok(u) && Up(chain[i + 1], u) == Ok(v)
    ensures UpChain(chain, i, |chain|, t) == UpChain(chain, i + 2, |chain|, v)
  {
  }

  lemma To0026(s: Seeds)
    requires Consistent(s)
    ensures UpChain(Chain(s), 0, 10, Absent) == UpChain(Chain(s), 3, 10, Present(Rows0026(s), false))
  {
    var rows := s.created[s.performance := s.performance0024.(auditAll := None)];
    UpTwo(Chain(s), 0, Absent, Present(s.created, false), Present(rows, false));
    assert Up(Chain(s)[2], Present(rows, false)) == Ok(Present(Rows0026(s), false));
  }

  lemma To0034(s: Seeds)
    requires Consistent(s)
    ensures UpChain(Chain(s), 3, 10, Present(Rows0026(s), false)) == UpChain(Chain(s), 6, 10, Present(Rows0034(s), false))
  {
    var live := Rows0026(s)[s.gateway := Assign(s.gateway0027.forth, s.gateway0026.(auditAll := None))];
    var governed := live[s.advise := Assign(s.advise0033.forth, s.created[s.advise])];
    assert live[s.advise] == s.created[s.advise];
    UpTwo(Chain(s), 3, Present(Rows0026(s), false), Present(live, false), Present(governed, false));
    assert Up(Chain(s)[5], Present(governed, false)) == Ok(Present(Rows0034(s), false));
  }

  lemma To0056(s: Seeds)
    requires Consistent(s)
    ensures UpChain(Chain(s), 6, 10, Present(Rows0034(s), false)) == UpChain(Chain(s), 8, 10, Present(Rows0056(s), true))
  {
    UpTwo(Chain(s), 6, Present(Rows0034(s), false), Present(Audited(Rows0034(s), s.reader), true),
          Present(Rows0056(s), true));
  }

  lemma To0077(s: Seeds)
    requires Consistent(s) && Restricted(s)
    ensures UpChain(Chain(s), 8, 10, Present(Rows0056(s), true)) == Ok(Present(Rows0077(s), true))
  {
    var idea := s.idea0034.(auditAll := Some(s.idea == s.reader));
    var advise := Assign(s.advise0033.forth, s.created[s.advise]).(auditAll := Some(s.advise == s.reader));
    var rows := Rows0056(s);
    assert rows[s.idea] == idea && rows[s.advise] == advise;
    UpTwo(Chain(s), 8, Present(rows, true), Present(rows[s.idea := Assign(s.idea0074.forth, idea)], true),
          Present(Rows0077(s), true));
  }

  // ----- each row in the end, from what was seeded for it -----

  lemma FinalNames(s: Seeds, name: string)
    requires Consistent(s)
    ensures name in Rows0077(s) <==> name in s.created || name in {s.performance, s.gateway, s.idea, s.operations}
  {
  }

  lemma AuditedRow(s: Seeds, name: string)
    requires Consistent(s) && name in Rows0034(s) && name !in {s.operations, s.idea, s.advise}
    ensures name in Rows0077(s) && Rows0077(s)[name] == Rows0034(s)[name].(auditAll := Some(name == s.reader))
  {
  }

  lemma CreatedRow(s: Seeds, name: string)
    requires Consistent(s) && name in s.created && name != s.advise
    ensures name in Rows0077(s) && Rows0077(s)[name] == s.created[name].(auditAll := Some(name == s.reader))
  {
    assert Rows0034(s)[name] == s.created[name];
    AuditedRow(s, name);
  }

  lemma SeededRows(s: Seeds)
    requires Consistent(s) && s.reader in s.created
    ensures s.performance in Rows0077(s) && Rows0077(s)[s.performance] == s.performance0024.(auditAll := Some(false))
    ensures s.gateway in Rows0077(s)
            && Rows0077(s)[s.gateway] == Assign(s.gateway0027.forth, s.gateway0026).(auditAll := Some(false))
  {
    assert Rows0034(s)[s.performance] == s.performance0024.(auditAll := None);
    AuditedRow(s, s.performance);
    assert Rows0034(s)[s.gateway] == Assign(s.gateway0027.forth, s.gateway0026.(auditAll := None));
    AuditedRow(s, s.gateway);
  }

  lemma LaterRows(s: Seeds)
    requires Consistent(s) && s.reader in s.created && s.reader != s.advise
    ensures s.operations in Rows0077(s) && Rows0077(s)[s.operations] == s.operations0056.(auditAll := Some(false))
    ensures s.idea in Rows0077(s) && Rows0077(s)[s.idea] == Assign(s.idea0074.forth, s.idea0034.(auditAll := Some(false)))
    ensures s.advise in Rows0077(s) && Rows0077(s)[s.advise]
         == Assign(s.advise0077.forth, Assign(s.advise0033.forth, s.created[s.advise]).(auditAll := Some(false)))
  {
  }

  // ----- the written revisions -----

  /** The table after all ten revisions. */
  function Final(texts: Texts): Result<Table, SqlError> {
    UpChain(Chain(Written(texts)), 0, 10, Absent)
  }

  lemma FinalIs(texts: Texts)
    ensures Consistent(Written(texts)) && Restricted(Written(texts))
    ensures Final(texts) == Ok(Present(Rows0077(Written(texts)), true))
  {
    var s := Written(texts);
    WrittenConsistent(texts);
    To0026(s);
    To0034(s);
    To0056(s);
    To0077(s);
  }

  predicate Caller(name: string) {
    || name == "lotus-manage" || name == "lotus-advise" || name == "lotus-platform" || name == "lotus-workbench"
    || name == "lotus-performance" || name == "lotus-gateway" || name == "lotus-idea"
    || name == "lotus-ai-provider-operations"
  }

  /** A caller's row after all ten revisions, column by column; only the description is left to the texts. */
  predicate Describes(row: Policy, name: string) {
    && row.status == "ACTIVE" && row.taskIds == TasksOf(name) && row.sourceIds == SourcesOf(name)
    && row.live == (name == "lotus-manage" || name == "lotus-gateway")
    && row.asyncControl == row.promptControl == row.providerControl == (name == "lotus-platform")
    && row.tenantMode == (if TenantsOf(name) == [] then "OPTIONAL" else "RESTRICTED")
    && row.tenantIds == TenantsOf(name) && row.updatedAt == WrittenAt(name)
    && row.auditAll == Some(name == "lotus-platform")
  }

  lemma CreatedSeed(texts: Texts, name: string)
    requires name == "lotus-manage" || name == "lotus-platform" || name == "lotus-workbench"
    ensures name in Seeded0019(texts)
    ensures Describes(Seeded0019(texts)[name].(auditAll := Some(name == "lotus-platform")), name)
  {
  }

  lemma CreatedDescribed(texts: Texts, name: string)
    requires name == "lotus-manage" || name == "lotus-platform" || name == "lotus-workbench"
    requires Consistent(Written(texts))
    ensures name in Rows0077(Written(texts)) && Describes(Rows0077(Written(texts))[name], name)
  {
    CreatedSeed(texts, name);
    CreatedRow(Written(texts), name);
  }

  lemma SeededDescribed(texts: Texts, name: string)
    requires (name == "lotus-performance" || name == "lotus-gateway") && Consistent(Written(texts))
    ensures name in Rows0077(Written(texts)) && Describes(Rows0077(Written(texts))[name], name)
  {
    SeededRows(Written(texts));
  }

  lemma LaterDescribed(texts: Texts, name: string)
    requires name == "lotus-advise" || name == "lotus-idea" || name == "lotus-ai-provider-operations"
    requires Consistent(Written(texts))
    ensures name in Rows0077(Written(texts)) && Describes(Rows0077(Written(texts))[name], name)
  {
    LaterRows(Written(texts));
  }

  lemma FinalRow(texts: Texts, name: string)
    requires Caller(name)
    ensures Final(texts).Ok? && Final(texts).value.Present? && name in Final(texts).value.rows
    ensures Describes(Final(texts).value.rows[name], name)
  {
    FinalIs(texts);
    if name == "lotus-advise" || name == "lotus-idea" || name == "lotus-ai-provider-operations" {
      LaterDescribed(texts, name);
    } else if name == "lotus-performance" || name == "lotus-gateway" {
      SeededDescribed(texts, name);
    } else {
      CreatedDescribed(texts, name);
    }
  }

  /** Who may do what after all ten revisions: eight callers, two of them live, one in control and the only reader
      of every tenant's audit records. */
  lemma Capabilities(texts: Texts, name: string)
    ensures Final(texts).Ok? && Final(texts).value.Present?
    ensures name in Final(texts).value.rows <==> Caller(name)
    ensures Caller(name) ==>
              var row := Final(texts).value.rows[name];
              && (row.live <==> name == "lotus-manage" || name == "lotus-gateway")
              && (row.asyncControl || row.promptControl || row.providerControl <==> name == "lotus-platform")
              && (row.auditAll == Some(true) <==> name == "lotus-platform")
              && (row.tenantMode == "RESTRICTED" ==> row.tenantIds == TenantsOf(name) != [])
  {
    FinalIs(texts);
    FinalNames(Written(texts), name);
    if Caller(name) {
      FinalRow(texts, name);
    }
  }

  function TenantsOf(name: string): seq<string> {
    if name == "lotus-manage" || name == "lotus-performance" then ["tenant-sg-001"]
    else if name == "lotus-advise" then ["tenant-us-002", "tenant-sg-001", "tenant-sg"]
    else if name == "lotus-idea" then ["tenant-private-bank-sg", "tenant-sg-001"]
    else []
  }

  function TasksOf(name: string): seq<string> {
    if name == "lotus-manage"
    then ["explain.v1", "summarize.v1", "generate_structured.v1", "knowledge_search.v1", "knowledge_answer.v1"]
    else if name == "lotus-advise" then ["explain.v1", "summarize.v1", "knowledge_answer.v1"]
    else if name == "lotus-workbench" then ["knowledge_search.v1", "knowledge_answer.v1"]
    else if name == "lotus-performance" || name == "lotus-gateway" || name == "lotus-idea" then ["explain.v1"]
    else []
  }

  function SourcesOf(name: string): seq<string> {
    if name == "lotus-manage" || name == "lotus-workbench" then ["lotus-platform-rfcs", "lotus-ai-architecture"]
    else if name == "lotus-advise" then ["lotus-platform-rfcs"]
    else []
  }

  function WrittenAt(name: string): string {
    if name == "lotus-manage" || name == "lotus-platform" || name == "lotus-workbench" then "2026-03-24T00:00:00Z"
    else if name == "lotus-performance" then "2026-03-24T12:00:00Z"
    else if name == "lotus-gateway" then "2026-04-04T00:00:00Z"
    else if name == "lotus-ai-provider-operations" then "2026-08-31T00:00:00Z"
    else if name == "lotus-idea" then "2026-09-05T00:00:00Z"
    else "2026-09-23T00:00:00Z"
  }

  // ----- what each edit does to the row it names -----

  /** The four edits, whatever the row holds: two apply to every row, the two later ones to restricted rows only. */
  lemma EditsAre(texts: Texts, rows: map<string, Policy>, audit: bool, name: string)
    requires name in rows
    ensures var p, chain := rows[name], Chain(Written(texts));
            && (name == "lotus-gateway" ==>
                  Up(chain[3], Present(rows, audit)) == Ok(Present(rows[name := p.(
                    live := true, description := texts.gatewayLive, updatedAt := "2026-04-04T00:00:00Z")], audit)))
            && (name == "lotus-advise" ==>
                  Up(chain[4], Present(rows, audit)) == Ok(Present(rows[name := p.(
                    description := texts.adviseGoverned, tenantIds := ["tenant-us-002", "tenant-sg-001"],
                    updatedAt := "2026-05-28T00:00:00Z")], audit)))
            && (name == "lotus-idea" && p.tenantMode == "RESTRICTED" ==>
                  Up(chain[8], Present(rows, audit)) == Ok(Present(rows[name := p.(
                    tenantIds := ["tenant-private-bank-sg", "tenant-sg-001"], updatedAt := "2026-09-05T00:00:00Z")], audit)))
            && (name == "lotus-advise" && p.tenantMode == "RESTRICTED" ==>
                  Up(chain[9], Present(rows, audit)) == Ok(Present(rows[name := p.(
                    tenantIds := ["tenant-us-002", "tenant-sg-001", "tenant-sg"],
                    updatedAt := "2026-09-23T00:00:00Z")], audit)))
            && (p.tenantMode != "RESTRICTED" ==>
                  && (name == "lotus-idea" ==> Up(chain[8], Present(rows, audit)) == Ok(Present(rows, audit)))
                  && (name == "lotus-advise" ==> Up(chain[9], Present(rows, audit)) == Ok(Present(rows, audit))))
  {
    assert rows[name := rows[name]] == rows;
  }

  /** And what their downgrades write back. */
  lemma BackEditsAre(texts: Texts, rows: map<string, Policy>, audit: bool, name: string)
    requires name in rows && rows[name].tenantMode == "RESTRICTED"
    ensures var p, chain := rows[name], Chain(Written(texts));
            && (name == "lotus-gateway" ==>
                  Down(chain[3], Present(rows, audit)) == Ok(Present(rows[name := p.(
                    live := false, description := texts.gateway, updatedAt := "2026-04-04T00:00:00Z")], audit)))
            && (name == "lotus-advise" ==>
                  Down(chain[4], Present(rows, audit)) == Ok(Present(rows[name := p.(
                    description := texts.advise,
                    tenantIds := ["tenant-us-002"], updatedAt := "2026-03-24T00:00:00Z")], audit)))
            && (name == "lotus-idea" ==>
                  Down(chain[8], Present(rows, audit)) == Ok(Present(rows[name := p.(
                    tenantIds := ["tenant-sg-001"], updatedAt := "2026-06-26T00:00:00Z")], audit)))
            && (name == "lotus-advise" ==>
                  Down(chain[9], Present(rows, audit)) == Ok(Present(rows[name := p.(
                    tenantIds := ["tenant-us-002", "tenant-sg-001"], updatedAt := "2026-05-28T00:00:00Z")], audit)))
  {
  }
}
