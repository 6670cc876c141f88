/**
 Upgrading a caller-policy table between two revisions and back: each migration acts on each
 row by itself, so the round trip restores a table exactly when it restores every row, and
 a row is restored exactly when the first migration that names it finds the value that
 migration's own downgrade writes.
 */
module CallerPolicyRoundTrip {
  import opened Wrappers
  import opened CallerPolicies

  type Row = Option<Policy>

  function Lookup(t: Table, name: string): Row {
    if t.Present? && name in t.rows then Some(t.rows[name]) else None
  }

  /** Both directions of a `Change` assign the same columns. */
  predicate SameColumns(a: Assignment, b: Assignment) {
    && (a.live.Some? <==> b.live.Some?)
    && (a.description.Some? <==> b.description.Some?)
    && (a.tenantIds.Some? <==> b.tenantIds.Some?)
  }

  /** The table is created first, the audit column added once, at `audit`. */
  ghost predicate WellShaped(chain: seq<Migration>, audit: nat) {
    forall k :: 0 <= k < |chain| ==>
      && (chain[k].Create? <==> k == 0)
      && (chain[k].AddAudit? <==> k == audit)
      && (chain[k].Create? ==> forall name :: name in chain[k].rows ==> chain[k].rows[name].auditAll == None)
      && (chain[k].Change? ==> SameColumns(chain[k].forth, chain[k].back))
  }

  /** The schema that `k` revisions leave; the contents are arbitrary. */
  ghost predicate AtRevision(audit: nat, k: nat, t: Table) {
    && (t.Absent? <==> k == 0)
    && (t.Present? ==> t.auditColumn == (k > audit)
                       && forall name :: name in t.rows ==> t.rows[name].auditAll.Some? == t.auditColumn)
  }

  // ----- one row at a time -----

  predicate Touches(m: Migration, name: string) {
    match m
    case Create(rows) => name in rows
    case Seed(key, _) => name == key
    case Change(key, _, _, _) => name == key
    case AddAudit(_) => false
  }

  function RowUp(m: Migration, column: bool, name: string, row: Row): Row {
    match m
    case Create(rows) => if name in rows then Some(rows[name]) else row
    case Seed(key, p) => if name == key then Some(p.(auditAll := if column then Some(false) else None)) else row
    case Change(key, guarded, forth, _) =>
      if name == key && row.Some? then Some(AssignIf(guarded, forth, row.value)) else row
    case AddAudit(reader) => if row.Some? then Some(row.value.(auditAll := Some(name == reader))) else row
  }

  function RowDown(m: Migration, name: string, row: Row): Row {
    match m
    case Create(_) => None
    case Seed(key, _) => if name == key then None else row
    case Change(key, guarded, _, back) =>
      if name == key && row.Some? then Some(AssignIf(guarded, back, row.value)) else row
    case AddAudit(_) => if row.Some? then Some(row.value.(auditAll := None)) else row
  }

  /** The value a migration expects of the row it names: the one its downgrade writes. */
  predicate Prior(m: Migration, row: Row) {
    match m
    case Create(_) => row.None?
    case Seed(_, _) => row.None?
    case Change(_, guarded, _, back) =>
      row.Some? && (!guarded || row.value.tenantMode == RESTRICTED) ==> Holds(back, row.value)
    case AddAudit(_) => true
  }

  /** An upgrade acts on each row by itself and moves the schema one revision on. */
  lemma UpActsOnRows(chain: seq<Migration>, audit: nat, k: nat, t: Table, name: string)
    requires WellShaped(chain, audit) && k < |chain| && AtRevision(audit, k, t) && Up(chain[k], t).Ok?
    ensures AtRevision(audit, k + 1, Up(chain[k], t).value)
    ensures Lookup(Up(chain[k], t).value, name) == RowUp(chain[k], k > audit, name, Lookup(t, name))
  {
  }

  /** A downgrade of the next schema cannot fail, and also acts on each row by itself. */
  lemma DownActsOnRows(chain: seq<Migration>, audit: nat, k: nat, t: Table, name: string)
    requires WellShaped(chain, audit) && k < |chain| && AtRevision(audit, k + 1, t)
    ensures Down(chain[k], t).Ok? && AtRevision(audit, k, Down(chain[k], t).value)
    ensures Lookup(Down(chain[k], t).value, name) == RowDown(chain[k], name, Lookup(t, name))
  {
  }

  /** Every row but the one a migration names keeps every column that existed before. */
  lemma UpFrame(chain: seq<Migration>, audit: nat, k: nat, t: Table, name: string)
    requires WellShaped(chain, audit) && k < |chain| && AtRevision(audit, k, t) && Up(chain[k], t).Ok?
    requires !Touches(chain[k], name)
    ensures var after := Lookup(Up(chain[k], t).value, name);
            if k == audit
            then RowDown(chain[k], name, after) == Lookup(t, name)
            else after == Lookup(t, name)
  {
    UpActsOnRows(chain, audit, k, t, name);
    assert Lookup(t, name).Some? ==> t.rows[name].auditAll.Some? == t.auditColumn;
  }

  lemma AssignedBackIff(a: Assignment, b: Assignment, p: Policy)
    requires SameColumns(a, b)
    ensures Assign(b, Assign(a, p)) == p <==> Holds(b, p)
  {
  }

  /** One migration undone: exactly on the prior value. */
  lemma UndoneIff(m: Migration, column: bool, name: string, row: Row)
    requires m.Change? ==> SameColumns(m.forth, m.back)
    requires m.AddAudit? && row.Some? ==> row.value.auditAll.None?
    requires m.Create? ==> row.None?
    ensures RowDown(m, name, RowUp(m, column, name, row)) == row <==> (Touches(m, name) ==> Prior(m, row))
  {
    if m.Change? && row.Some? {
      AssignedBackIff(m.forth, m.back, row.value);
    }
  }

  // ----- whole chains -----

  /** The row after an upgrade from `k` to `j` and back. */
  ghost function RowRoundTrip(chain: seq<Migration>, audit: nat, k: nat, j: nat, name: string, row: Row): Row
    requires k <= j <= |chain|
    decreases j - k
  {
    if k == j then row
    else RowDown(chain[k], name, RowRoundTrip(chain, audit, k + 1, j, name, RowUp(chain[k], k > audit, name, row)))
  }

  /** The first migration from `k` to `j` that names the row, if any, finds its prior value. */
  predicate Restorable(chain: seq<Migration>, k: nat, j: nat, name: string, row: Row)
    requires k <= j <= |chain|
    decreases j - k
  {
    if k == j then true
    else if Touches(chain[k], name) then Prior(chain[k], row)
    else Restorable(chain, k + 1, j, name, row)
  }

  /** `m` is the next migration after `k` that names the row. */
  ghost predicate NextNaming(chain: seq<Migration>, k: nat, m: nat, name: string) {
    && k < m < |chain| && Touches(chain[k], name) && Touches(chain[m], name)
    && forall i :: k < i < m ==> !Touches(chain[i], name)
  }

  ghost predicate LeavesPrior(before: Migration, column: bool, name: string, after: Migration) {
    forall row :: Prior(after, RowUp(before, column, name, row))
  }

  /** Each migration leaves the prior value of the next one that names the same row. */
  ghost predicate Linked(chain: seq<Migration>, audit: nat) {
    forall k: nat, m: nat, name :: NextNaming(chain, k, m, name) ==> LeavesPrior(chain[k], k > audit, name, chain[m])
  }

  lemma {:induction false} RestorableAfter(chain: seq<Migration>, audit: nat, k: nat, l: nat, j: nat, name: string, row: Row)
    requires Linked(chain, audit) && k < l <= j <= |chain|
    requires Touches(chain[k], name) && forall i :: k < i < l ==> !Touches(chain[i], name)
    ensures Restorable(chain, l, j, name, RowUp(chain[k], k > audit, name, row))
    decreases j - l
  {
    if l < j && Touches(chain[l], name) {
      assert NextNaming(chain, k, l, name);
      assert LeavesPrior(chain[k], k > audit, name, chain[l]);
    } else if l < j {
      RestorableAfter(chain, audit, k, l + 1, j, name, row);
    }
  }

  lemma {:induction false} MissingRestorable(chain: seq<Migration>, k: nat, j: nat, name: string)
    requires k <= j <= |chain|
    ensures Restorable(chain, k, j, name, None)
    decreases j - k
  {
    if k < j {
      MissingRestorable(chain, k + 1, j, name);
    }
  }

  /** Restoring does not depend on the audit column. */
  lemma {:induction false} RestorableIgnoresAudit(chain: seq<Migration>, k: nat, j: nat, name: string, row: Row,
        flag: Option<bool>)
    requires k <= j <= |chain| && row.Some?
    ensures Restorable(chain, k, j, name, Some(row.value.(auditAll := flag))) == Restorable(chain, k, j, name, row)
    decreases j - k
  {
    if k < j && !Touches(chain[k], name) {
      RestorableIgnoresAudit(chain, k + 1, j, name, row, flag);
    }
  }

  /** Once the column exists, a row that survives the round trip keeps its audit value. */
  lemma {:induction false} AuditKept(chain: seq<Migration>, audit: nat, k: nat, j: nat, name: string, row: Row)
    requires WellShaped(chain, audit) && audit < k <= j <= |chain|
    requires RowRoundTrip(chain, audit, k, j, name, row).Some?
    ensures row.Some? && RowRoundTrip(chain, audit, k, j, name, row).value.auditAll == row.value.auditAll
    decreases j - k
  {
    if k < j {
      AuditKept(chain, audit, k + 1, j, name, RowUp(chain[k], true, name, row));
    }
  }

  ghost predicate RowFits(audit: nat, k: nat, row: Row) {
    row.Some? ==> k > 0 && row.value.auditAll.Some? == (k > audit)
  }

  lemma {:induction false} RowRestoredIff(chain: seq<Migration>, audit: nat, k: nat, j: nat, name: string, row: Row)
    requires WellShaped(chain, audit) && Linked(chain, audit) && k <= j <= |chain| && RowFits(audit, k, row)
    ensures RowRoundTrip(chain, audit, k, j, name, row) == row <==> Restorable(chain, k, j, name, row)
    decreases j - k
  {
    if k < j {
      var after := RowUp(chain[k], k > audit, name, row);
      RowRestoredIff(chain, audit, k + 1, j, name, after);
      UndoneIff(chain[k], k > audit, name, row);
      if row.None? {
        MissingRestorable(chain, k, j, name);
      }
      if Touches(chain[k], name) {
        RestorableAfter(chain, audit, k, k + 1, j, name, row);
      } else if k == audit && row.Some? {
        RestorableIgnoresAudit(chain, k + 1, j, name, row, after.value.auditAll);
        AuditStepIff(chain, audit, j, name, row);
      }
    }
  }

  lemma AuditStepIff(chain: seq<Migration>, audit: nat, j: nat, name: string, row: Row)
    requires WellShaped(chain, audit) && audit < j <= |chain| && row.Some? && RowFits(audit, audit, row)
    ensures var after := RowUp(chain[audit], false, name, row);
            RowRoundTrip(chain, audit, audit, j, name, row) == row
            <==> RowRoundTrip(chain, audit, audit + 1, j, name, after) == after
  {
    var after := RowUp(chain[audit], false, name, row);
    if RowRoundTrip(chain, audit, audit + 1, j, name, after).Some? {
      AuditKept(chain, audit, audit + 1, j, name, after);
    }
  }

  lemma {:induction false} ChainActsOnRows(chain: seq<Migration>, audit: nat, i: nat, j: nat, t: Table, name: string)
    requires WellShaped(chain, audit) && i <= j <= |chain| && AtRevision(audit, i, t) && UpChain(chain, i, j, t).Ok?
    ensures AtRevision(audit, j, UpChain(chain, i, j, t).value)
    ensures var back := DownChain(chain, i, j, UpChain(chain, i, j, t).value);
            && back.Ok? && AtRevision(audit, i, back.value)
            && Lookup(back.value, name) == RowRoundTrip(chain, audit, i, j, name, Lookup(t, name))
    decreases j - i
  {
    if i < j {
      var next := Up(chain[i], t).value;
      UpActsOnRows(chain, audit, i, t, name);
      ChainActsOnRows(chain, audit, i + 1, j, next, name);
      DownActsOnRows(chain, audit, i, DownChain(chain, i + 1, j, UpChain(chain, i + 1, j, next).value).value, name);
    }
  }

  lemma TablesEqualByRows(audit: nat, k: nat, a: Table, b: Table)
    requires AtRevision(audit, k, a) && AtRevision(audit, k, b)
    ensures a == b <==> forall name :: Lookup(a, name) == Lookup(b, name)
  {
    if (forall name :: Lookup(a, name) == Lookup(b, name)) && k > 0 {
      forall name ensures name in a.rows <==> name in b.rows {
        assert Lookup(a, name) == Lookup(b, name);
      }
      forall name | name in a.rows ensures a.rows[name] == b.rows[name] {
        assert Lookup(a, name) == Lookup(b, name);
      }
      assert a.rows == b.rows;
    }
  }

  /** Up from `i` to `j` and back never fails on the way down, and is the identity exactly when every row is restorable. */
  lemma RoundTripIff(chain: seq<Migration>, audit: nat, i: nat, j: nat, t: Table)
    requires WellShaped(chain, audit) && Linked(chain, audit) && i <= j <= |chain|
    requires AtRevision(audit, i, t) && UpChain(chain, i, j, t).Ok?
    ensures var back := DownChain(chain, i, j, UpChain(chain, i, j, t).value);
            back.Ok? && (back.value == t <==> forall name :: Restorable(chain, i, j, name, Lookup(t, name)))
  {
    var back := DownChain(chain, i, j, UpChain(chain, i, j, t).value);
    ChainActsOnRows(chain, audit, i, j, t, "");
    forall name
      ensures Lookup(back.value, name) == Lookup(t, name) <==> Restorable(chain, i, j, name, Lookup(t, name))
    {
      ChainActsOnRows(chain, audit, i, j, t, name);
      RowRestoredIff(chain, audit, i, j, name, Lookup(t, name));
    }
    TablesEqualByRows(audit, i, back.value, t);
  }
}
