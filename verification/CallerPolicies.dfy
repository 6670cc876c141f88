/**
 The data migrations of `caller_policies`, as transformers of one table. The JSON columns
 are the lists they denote. The other tables a revision creates or drops are not here.
 */
module CallerPolicies {
  import opened Wrappers

  datatype Policy = Policy(
    status: string,
    description: string,
    taskIds: seq<string>,
    sourceIds: seq<string>,
    live: bool,
    asyncControl: bool,
    promptControl: bool,
    providerControl: bool,
    tenantMode: string,
    tenantIds: seq<string>,
    updatedAt: string,
    auditAll: Option<bool>)  // absent until revision 0040 adds the column

  datatype Table = Absent | Present(rows: map<string, Policy>, auditColumn: bool)

  datatype SqlError = NoSuchTable | TableExists | DuplicateKey | ColumnExists | NoSuchColumn

  /** A SET clause: the columns it assigns. */
  datatype Assignment = Assignment(
    live: Option<bool>,
    description: Option<string>,
    tenantIds: Option<seq<string>>,
    updatedAt: string)

  /**
   One revision. `Create` fills a new table and drops it on the way down, `Seed` inserts one
   row and deletes it, `Change` updates one row both ways, only under the RESTRICTED tenant
   policy when `guarded`, and `AddAudit` adds a column that is TRUE for one reader.
   */
  datatype Migration =
    | Create(rows: map<string, Policy>)
    | Seed(name: string, policy: Policy)
    | Change(name: string, guarded: bool, forth: Assignment, back: Assignment)
    | AddAudit(reader: string)

  const RESTRICTED := "RESTRICTED"

  // ----- SQL statements -----

  function Assign(a: Assignment, p: Policy): Policy {
    p.(live := if a.live.Some? then a.live.value else p.live,
       description := if a.description.Some? then a.description.value else p.description,
       tenantIds := if a.tenantIds.Some? then a.tenantIds.value else p.tenantIds,
       updatedAt := a.updatedAt)
  }

  /** The columns a SET clause names already hold its values. */
  predicate Holds(a: Assignment, p: Policy) {
    && (a.live.Some? ==> p.live == a.live.value)
    && (a.description.Some? ==> p.description == a.description.value)
    && (a.tenantIds.Some? ==> p.tenantIds == a.tenantIds.value)
    && p.updatedAt == a.updatedAt
  }

  function AssignIf(guarded: bool, a: Assignment, p: Policy): Policy {
    if guarded && p.tenantMode != RESTRICTED then p else Assign(a, p)
  }

  /** INSERT of one row: the primary key must be new, and an audit column takes its default. */
  function Insert(t: Table, name: string, p: Policy): Result<Table, SqlError> {
    if t.Absent? then Err(NoSuchTable)
    else if name in t.rows then Err(DuplicateKey)
    else Ok(t.(rows := t.rows[name := p.(auditAll := if t.auditColumn then Some(false) else None)]))
  }

  /** UPDATE by primary key: no matching row is no change. */
  function Update(t: Table, name: string, guarded: bool, a: Assignment): Result<Table, SqlError> {
    if t.Absent? then Err(NoSuchTable)
    else Ok(if name in t.rows then t.(rows := t.rows[name := AssignIf(guarded, a, t.rows[name])]) else t)
  }

  function Delete(t: Table, name: string): Result<Table, SqlError> {
    if t.Absent? then Err(NoSuchTable) else Ok(t.(rows := t.rows - {name}))
  }

  function Audited(rows: map<string, Policy>, reader: string): map<string, Policy> {
    map name | name in rows :: rows[name].(auditAll := Some(name == reader))
  }

  function Unaudited(rows: map<string, Policy>): map<string, Policy> {
    map name | name in rows :: rows[name].(auditAll := None)
  }

  function Up(m: Migration, t: Table): Result<Table, SqlError> {
    match m
    case Create(rows) => if t.Absent? then Ok(Present(rows, false)) else Err(TableExists)
    case Seed(name, policy) => Insert(t, name, policy)
    case Change(name, guarded, forth, _) => Update(t, name, guarded, forth)
    case AddAudit(reader) =>
      if t.Absent? then Err(NoSuchTable)
      else if t.auditColumn then Err(ColumnExists)
      else Ok(Present(Audited(t.rows, reader), true))
  }

  function Down(m: Migration, t: Table): Result<Table, SqlError> {
    match m
    case Create(_) => if t.Absent? then Err(NoSuchTable) else Ok(Absent)
    case Seed(name, _) => Delete(t, name)
    case Change(name, guarded, _, back) => Update(t, name, guarded, back)
    case AddAudit(_) =>
      if t.Absent? then Err(NoSuchTable)
      else if !t.auditColumn then Err(NoSuchColumn)
      else Ok(Present(Unaudited(t.rows), false))
  }

  /** The revisions numbered `i` up to `j`, applied in order. */
  function UpChain(chain: seq<Migration>, i: nat, j: nat, t: Table): Result<Table, SqlError>
    requires i <= j <= |chain|
    decreases j - i
  {
    if i == j then Ok(t)
    else
      var next := Up(chain[i], t);
      if next.Err? then next else UpChain(chain, i + 1, j, next.value)
  }

  /** The same revisions undone, the last one first. */
  function DownChain(chain: seq<Migration>, i: nat, j: nat, t: Table): Result<Table, SqlError>
    requires i <= j <= |chain|
    decreases j - i
  {
    if i == j then Ok(t)
    else
      var rest := DownChain(chain, i + 1, j, t);
      if rest.Err? then rest else Down(chain[i], rest.value)
  }

  // ----- the store -----

  class PolicyStore {
    var created: bool
    var rows: map<string, Policy>
    var auditColumn: bool

    ghost function Contents(): Table
      reads this
    {
      if created then Present(rows, auditColumn) else Absent
    }

    /** A failing statement leaves the table as it was. */
    method Upgrade(m: Migration) returns (ok: bool)
      modifies this
      ensures ok == Up(m, old(Contents())).Ok?
      ensures Contents() == if ok then Up(m, old(Contents())).value else old(Contents())
    {
      match m
      case Create(seeded) =>
        ok := !created;
        if ok {
          created, rows, auditColumn := true, seeded, false;
        }
      case Seed(name, policy) =>
        ok := created && name !in rows;
        if ok {
          rows := rows[name := policy.(auditAll := if auditColumn then Some(false) else None)];
        }
      case Change(name, guarded, forth, _) =>
        ok := created;
        if ok && name in rows && (!guarded || rows[name].tenantMode == RESTRICTED) {
          rows := rows[name := Assign(forth, rows[name])];
        }
      case AddAudit(reader) =>
        ok := created && !auditColumn;
        if ok {
          AuditedInTwoSteps(rows, reader);
          rows := map name | name in rows :: rows[name].(auditAll := Some(false));
          auditColumn := true;
          if reader in rows {
            rows := rows[reader := rows[reader].(auditAll := Some(true))];
          }
        }
    }

    method Downgrade(m: Migration) returns (ok: bool)
      modifies this
      ensures ok == Down(m, old(Contents())).Ok?
      ensures Contents() == if ok then Down(m, old(Contents())).value else old(Contents())
    {
      match m
      case Create(_) =>
        ok := created;
        created := false;
      case Seed(name, _) =>
        ok := created;
        rows := rows - {name};
      case Change(name, guarded, _, back) =>
        ok := created;
        if ok && name in rows && (!guarded || rows[name].tenantMode == RESTRICTED) {
          rows := rows[name := Assign(back, rows[name])];
        }
      case AddAudit(_) =>
        ok := created && auditColumn;
        if ok {
          rows := Unaudited(rows);
          auditColumn := false;
        }
    }
  }

  /** The column with its default and then one UPDATE is the column with its final values. */
  lemma AuditedInTwoSteps(rows: map<string, Policy>, reader: string)
    ensures var defaulted := map name | name in rows :: rows[name].(auditAll := Some(false));
            Audited(rows, reader)
            == if reader in defaulted then defaulted[reader := defaulted[reader].(auditAll := Some(true))] else defaulted
  {
    var defaulted := map name | name in rows :: rows[name].(auditAll := Some(false));
    if reader in rows {
      var set_ := defaulted[reader := defaulted[reader].(auditAll := Some(true))];
      forall name | name in rows ensures Audited(rows, reader)[name] == set_[name] {
        if name != reader {
          assert set_[name] == defaulted[name];
        }
      }
    }
  }
}
