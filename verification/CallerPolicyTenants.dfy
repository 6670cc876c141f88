/**
 The tenants a caller policy admits on the way up. They never shrink exactly when the first
 edit that assigns them contains the ones the row has.
 */
module CallerPolicyTenants {
  import opened Wrappers
  import opened CallerPolicies
  import opened CallerPolicyRoundTrip

  function Tenants(row: Row): set<string> {
    if row.Some? then set tenant | tenant in row.value.tenantIds else {}
  }

  /** The tenants an edit assigns to a row it names. */
  predicate Assigns(m: Migration, name: string) {
    m.Change? && m.name == name && m.forth.tenantIds.Some?
  }

  predicate Applies(m: Migration, name: string, row: Row) {
    Assigns(m, name) && row.Some? && (!m.guarded || row.value.tenantMode == RESTRICTED)
  }

  predicate Contains(m: Migration, row: Row) {
    m.Change? && m.forth.tenantIds.Some? && forall tenant :: tenant in Tenants(row) ==> tenant in m.forth.tenantIds.value
  }

  /** The tenants a migration writes for `name`, seeding included. */
  predicate Leaves(m: Migration, name: string, tenant: string) {
    match m
    case Create(rows) => name in rows && tenant in rows[name].tenantIds
    case Seed(key, policy) => name == key && tenant in policy.tenantIds
    case Change(key, _, forth, _) => name == key && forth.tenantIds.Some? && tenant in forth.tenantIds.value
    case AddAudit(_) => false
  }

  /** What one migration writes for a caller, every later edit of that caller assigns again. */
  ghost predicate Nested(chain: seq<Migration>) {
    forall k, m, name, tenant :: 0 <= k < m < |chain| && Leaves(chain[k], name, tenant) && Assigns(chain[m], name) ==>
      tenant in chain[m].forth.tenantIds.value
  }

  /** The first edit from `k` to `j` that applies to the row contains the row's tenants. */
  predicate Widens(chain: seq<Migration>, k: nat, j: nat, name: string, row: Row)
    requires k <= j <= |chain|
    decreases j - k
  {
    if k == j || row.None? then true
    else if Applies(chain[k], name, row) then Contains(chain[k], row)
    else Widens(chain, k + 1, j, name, row)
  }

  // ----- one row -----

  ghost function RowAt(chain: seq<Migration>, audit: nat, i: nat, k: nat, name: string, row: Row): Row
    requires i <= k <= |chain|
    decreases k - i
  {
    if i == k then row else RowAt(chain, audit, i + 1, k, name, RowUp(chain[i], i > audit, name, row))
  }

  ghost predicate RowGrows(chain: seq<Migration>, audit: nat, i: nat, j: nat, name: string, row: Row)
    requires i <= j <= |chain|
    decreases j - i
  {
    i < j ==>
      && Tenants(row) <= Tenants(RowUp(chain[i], i > audit, name, row))
      && RowGrows(chain, audit, i + 1, j, name, RowUp(chain[i], i > audit, name, row))
  }

  /** Every insert on the way finds no row, as it must to succeed. */
  ghost predicate InsertsFit(chain: seq<Migration>, audit: nat, i: nat, j: nat, name: string, row: Row)
    requires i <= j <= |chain|
    decreases j - i
  {
    i < j ==>
      && (!chain[i].Change? && Touches(chain[i], name) ==> row.None?)
      && InsertsFit(chain, audit, i + 1, j, name, RowUp(chain[i], i > audit, name, row))
  }

  /** Later edits assign every tenant the row has. */
  ghost predicate Kept(chain: seq<Migration>, k: nat, name: string, row: Row) {
    forall m :: k <= m < |chain| && Assigns(chain[m], name) ==> Contains(chain[m], row)
  }

  lemma {:induction false} KeptWidens(chain: seq<Migration>, k: nat, j: nat, name: string, row: Row)
    requires k <= j <= |chain| && Kept(chain, k, name, row)
    ensures Widens(chain, k, j, name, row)
    decreases j - k
  {
    if k < j && row.Some? && !Applies(chain[k], name, row) {
      KeptWidens(chain, k + 1, j, name, row);
    }
  }

  /** Whether a row widens depends only on its tenants and its tenant policy. */
  lemma {:induction false} WidensAlike(chain: seq<Migration>, k: nat, j: nat, name: string, row: Row, other: Row)
    requires k <= j <= |chain| && row.Some? && other.Some?
    requires row.value.tenantIds == other.value.tenantIds && row.value.tenantMode == other.value.tenantMode
    ensures Widens(chain, k, j, name, row) == Widens(chain, k, j, name, other)
    decreases j - k
  {
    if k < j && !Applies(chain[k], name, row) {
      WidensAlike(chain, k + 1, j, name, row, other);
    }
  }

  /** A row just written by `chain[k]` is contained in every later edit of it. */
  lemma WrittenIsKept(chain: seq<Migration>, k: nat, name: string, row: Row)
    requires k < |chain| && Nested(chain) && forall tenant :: tenant in Tenants(row) ==> Leaves(chain[k], name, tenant)
    ensures Kept(chain, k + 1, name, row)
  {
  }

  lemma {:induction false} RowGrowsIff(chain: seq<Migration>, audit: nat, i: nat, j: nat, name: string, row: Row)
    requires Nested(chain) && i <= j <= |chain| && InsertsFit(chain, audit, i, j, name, row)
    ensures RowGrows(chain, audit, i, j, name, row) <==> Widens(chain, i, j, name, row)
    decreases j - i
  {
    if i < j {
      var m, next := chain[i], RowUp(chain[i], i > audit, name, row);
      RowGrowsIff(chain, audit, i + 1, j, name, next);
      if Applies(m, name, row) || (!m.Change? && Touches(m, name)) {
        WrittenIsKept(chain, i, name, next);
        KeptWidens(chain, i + 1, j, name, next);
      } else if row.Some? && next.Some? {
        WidensAlike(chain, i + 1, j, name, row, next);
      }
    }
  }

  // ----- the table -----

  /** From each revision to the next, the tenants of `name` only grow. */
  ghost predicate Grows(chain: seq<Migration>, i: nat, j: nat, t: Table, name: string)
    requires i <= j <= |chain|
  {
    forall k :: i <= k < j ==> GrowsAt(chain, i, k, t, name)
  }

  ghost predicate GrowsAt(chain: seq<Migration>, i: nat, k: nat, t: Table, name: string)
    requires i <= k < |chain|
  {
    && UpChain(chain, i, k, t).Ok? && UpChain(chain, i, k + 1, t).Ok?
    && Tenants(Lookup(UpChain(chain, i, k, t).value, name)) <= Tenants(Lookup(UpChain(chain, i, k + 1, t).value, name))
  }

  lemma {:induction false} ChainRow(chain: seq<Migration>, audit: nat, i: nat, k: nat, j: nat, t: Table, name: string)
    requires WellShaped(chain, audit) && i <= k <= j <= |chain| && AtRevision(audit, i, t) && UpChain(chain, i, j, t).Ok?
    ensures UpChain(chain, i, k, t).Ok?
    ensures Lookup(UpChain(chain, i, k, t).value, name) == RowAt(chain, audit, i, k, name, Lookup(t, name))
    decreases k - i
  {
    if i < k {
      UpActsOnRows(chain, audit, i, t, name);
      ChainRow(chain, audit, i + 1, k, j, Up(chain[i], t).value, name);
    }
  }

  lemma {:induction false} ChainInsertsFit(chain: seq<Migration>, audit: nat, i: nat, j: nat, t: Table, name: string)
    requires WellShaped(chain, audit) && i <= j <= |chain| && AtRevision(audit, i, t) && UpChain(chain, i, j, t).Ok?
    ensures InsertsFit(chain, audit, i, j, name, Lookup(t, name))
    decreases j - i
  {
    if i < j {
      UpActsOnRows(chain, audit, i, t, name);
      ChainInsertsFit(chain, audit, i + 1, j, Up(chain[i], t).value, name);
    }
  }

  ghost predicate RowGrowsAt(chain: seq<Migration>, audit: nat, i: nat, k: nat, name: string, row: Row)
    requires i <= k < |chain|
  {
    Tenants(RowAt(chain, audit, i, k, name, row)) <= Tenants(RowAt(chain, audit, i, k + 1, name, row))
  }

  lemma {:induction false} RowGrowsAtIff(chain: seq<Migration>, audit: nat, i: nat, j: nat, name: string, row: Row)
    requires i <= j <= |chain|
    ensures RowGrows(chain, audit, i, j, name, row) <==> forall k :: i <= k < j ==> RowGrowsAt(chain, audit, i, k, name, row)
    decreases j - i
  {
    if i < j {
      var n, next := i + 1, RowUp(chain[i], i > audit, name, row);
      RowGrowsAtIff(chain, audit, n, j, name, next);
      assert RowAt(chain, audit, i, i, name, row) == row && RowAt(chain, audit, i, n, name, row) == next;
      assert RowGrowsAt(chain, audit, i, i, name, row) <==> Tenants(row) <= Tenants(next);
      forall k | i < k < j
        ensures RowGrowsAt(chain, audit, i, k, name, row) <==> RowGrowsAt(chain, audit, n, k, name, next)
      {
        assert RowAt(chain, audit, i, k, name, row) == RowAt(chain, audit, n, k, name, next);
        assert RowAt(chain, audit, i, k + 1, name, row) == RowAt(chain, audit, n, k + 1, name, next);
      }
      if forall k :: i <= k < j ==> RowGrowsAt(chain, audit, i, k, name, row) {
        forall k | i < k < j ensures RowGrowsAt(chain, audit, n, k, name, next) {
          assert RowGrowsAt(chain, audit, i, k, name, row);
        }
      }
    }
  }

  /** The tenants of a caller only grow from `i` to `j` exactly when the first edit that applies
      to its row contains the tenants the row has; a missing row always grows. */
  lemma TenantsGrowIff(chain: seq<Migration>, audit: nat, i: nat, j: nat, t: Table, name: string)
    requires WellShaped(chain, audit) && Nested(chain) && i <= j <= |chain|
    requires AtRevision(audit, i, t) && UpChain(chain, i, j, t).Ok?
    ensures Grows(chain, i, j, t, name) <==> Widens(chain, i, j, name, Lookup(t, name))
  {
    var row := Lookup(t, name);
    ChainInsertsFit(chain, audit, i, j, t, name);
    RowGrowsIff(chain, audit, i, j, name, row);
    RowGrowsAtIff(chain, audit, i, j, name, row);
    forall k | i <= k < j ensures GrowsAt(chain, i, k, t, name) <==> RowGrowsAt(chain, audit, i, k, name, row) {
      ChainRow(chain, audit, i, k, j, t, name);
      ChainRow(chain, audit, i, k + 1, j, t, name);
    }
  }
}
