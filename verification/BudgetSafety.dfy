/**
 What every run of budget operations keeps, on either store: where each unit of the counter
 came from, when admitted exposure can pass the hard limit, and when the two stores agree.
 An operator reset is accepted only on the SQL store; the results hold on both.
 */
module BudgetSafety {
  import opened Wrappers
  import opened BudgetLedger

  // ----- one operation -----

  predicate Attempt(op: Op) {
    op.ReserveOp? || op.SettleOp? || op.ReconcileOp?
  }

  /** The operation resolves a debit row by evidence, and so moves the counter. */
  predicate Adjusts(l: Ledger, op: Op) {
    && (op.SettleOp? || op.ReconcileOp?) && op.id in l.debits
    && (op.SettleOp? ==> l.debits[op.id].basis == ReservedMax
                         && (if op.attempt.Some? then op.attempt.value.basis == ActualUsage else !op.billableRisk))
    && (op.ReconcileOp? ==> IsOutstanding(l.debits[op.id]))
  }

  /** The SQL store resolves a row while there is no counter row to move. */
  predicate Diverges(l: Ledger, op: Op) {
    Adjusts(l, op) && KEY !in l.counters
  }

  /** The amount to which `Adjusts` resolves the row. */
  function ResolvedAmount(op: Op): Units {
    match op
    case SettleOp(_, Some(debit), _, _) => debit.amount
    case ReconcileOp(_, charge, _, _, _) => charge
    case _ => 0
  }

  /** What the store leaves out of the counter: the movement of a row it has no counter row for. */
  function Missed(store: Store, l: Ledger, op: Op): int {
    if store.Sql? && Diverges(l, op) then ResolvedAmount(op) - l.debits[op.id].amount else 0
  }

  /** Row `id` is entered, or an outstanding one resolved, and the counter moves by the change of
      the row's amount, less what was missed. */
  predicate Rewrites(l: Ledger, l': Ledger, id: string, missed: int) {
    && id in l'.debits && l'.debits == l.debits[id := l'.debits[id]]
    && (id in l.debits ==> IsOutstanding(l.debits[id]))
    && Counter(l', KEY) == Counter(l, KEY) - missed
                           + l'.debits[id].amount - (if id in l.debits then l.debits[id].amount else 0)
  }

  lemma AttemptRewrites(store: Store, l: Ledger, op: Op)
    requires Attempt(op)
    ensures Apply(store, l, op) == l || Rewrites(l, Apply(store, l, op), op.id, Missed(store, l, op))
    ensures Apply(store, l, op) == l ==> Missed(store, l, op) == 0
  {
    if store.Local? {
      LocalRewrites(l, op);
    } else {
      SqlRewrites(l, op);
    }
  }

  lemma LocalRewrites(l: Ledger, op: Op)
    requires Attempt(op)
    ensures ApplyLocal(l, op) == l || Rewrites(l, ApplyLocal(l, op), op.id, 0)
  {
    var l' := ApplyLocal(l, op);
    if op.id in l'.debits {
      assert l'.debits == l.debits || l'.debits == l.debits[op.id := l'.debits[op.id]];
    }
  }

  lemma SqlRewrites(l: Ledger, op: Op)
    requires Attempt(op)
    ensures ApplySql(l, op) == l || Rewrites(l, ApplySql(l, op), op.id, Missed(Sql, l, op))
    ensures ApplySql(l, op) == l ==> Missed(Sql, l, op) == 0
  {
    var l' := ApplySql(l, op);
    if op.id in l'.debits {
      assert l'.debits == l.debits || l'.debits == l.debits[op.id := l'.debits[op.id]];
    }
    if Adjusts(l, op) {
      assert l'.debits[op.id].basis in {Released, ActualUsage, Reconciled};
    }
  }

  lemma RewriteSums(l: Ledger, l': Ledger, id: string, missed: int)
    requires Rewrites(l, l', id, missed)
    ensures Total(l'.debits, false) - Total(l.debits, false) == Counter(l', KEY) - Counter(l, KEY) + missed
    ensures Total(l'.debits, true) - Total(l.debits, true) <= Counter(l', KEY) - Counter(l, KEY) + missed
  {
    TotalUpdate(l.debits, id, l'.debits[id], false);
    TotalUpdate(l.debits, id, l'.debits[id], true);
  }

  // ----- conservation -----

  /** The run's ledger, with what retention expired, what was added directly, what resets wiped
      and what resolutions missed. */
  datatype Books = Books(ledger: Ledger, expired: int, direct: int, wiped: int, missed: int)

  ghost function Post(store: Store, b: Books, op: Op): Books {
    var l' := Apply(store, b.ledger, op);
    match op
    case AddSpendOp(spend) => b.(ledger := l', direct := b.direct + spend)
    case ResetOp => b.(ledger := l', wiped := b.wiped + Counter(b.ledger, KEY))
    case DeleteOp(_) =>
      b.(ledger := l', expired := b.expired + Total(b.ledger.debits, false) - Total(l'.debits, false))
    case _ => b.(ledger := l', missed := b.missed + Missed(store, b.ledger, op))
  }

  ghost function Journal(store: Store, ops: seq<Op>): Books {
    if ops == [] then Books(EMPTY, 0, 0, 0, 0) else Post(store, Journal(store, ops[..|ops| - 1]), ops[|ops| - 1])
  }

  lemma {:induction false} JournalFollowsRun(store: Store, ops: seq<Op>)
    ensures Journal(store, ops).ledger == Run(store, EMPTY, ops)
    ensures store.Local? ==> Journal(store, ops).missed == 0
  {
    if ops != [] {
      JournalFollowsRun(store, ops[..|ops| - 1]);
    }
  }

  lemma PostBalances(store: Store, b: Books, op: Op)
    requires Counter(b.ledger, KEY) == Total(b.ledger.debits, false) + b.expired + b.direct - b.wiped - b.missed
    ensures var b' := Post(store, b, op);
            Counter(b'.ledger, KEY) == Total(b'.ledger.debits, false) + b'.expired + b'.direct - b'.wiped - b'.missed
  {
    if Attempt(op) {
      AttemptRewrites(store, b.ledger, op);
      if Apply(store, b.ledger, op) != b.ledger {
        RewriteSums(b.ledger, Apply(store, b.ledger, op), op.id, Missed(store, b.ledger, op));
      }
    }
  }

  /** After every run the counter is the recorded debits, the expired ones and the direct
      additions, less what resets wiped and what resolutions missed. */
  lemma {:induction false} Conservation(store: Store, ops: seq<Op>)
    ensures var b := Journal(store, ops);
            Counter(b.ledger, KEY) == Total(b.ledger.debits, false) + b.expired + b.direct - b.wiped - b.missed
  {
    if ops != [] {
      Conservation(store, ops[..|ops| - 1]);
      PostBalances(store, Journal(store, ops[..|ops| - 1]), ops[|ops| - 1]);
    }
  }

  /** Every unit in the counter is a recorded debit, an expired one or a direct addition, less what resets wiped. */
  ghost predicate Balanced(store: Store, ops: seq<Op>, n: nat)
    requires n <= |ops|
  {
    var b := Journal(store, ops[..n]);
    Counter(b.ledger, KEY) == Total(b.ledger.debits, false) + b.expired + b.direct - b.wiped
  }

  predicate MissesAt(store: Store, ops: seq<Op>, k: nat)
    requires k < |ops|
  {
    Missed(store, Run(store, EMPTY, ops[..k]), ops[k]) != 0
  }

  lemma BalancedNextIff(store: Store, ops: seq<Op>, k: nat)
    requires k < |ops| && Balanced(store, ops, k)
    ensures Balanced(store, ops, k + 1) <==> !MissesAt(store, ops, k)
  {
    Conservation(store, ops[..k]);
    Conservation(store, ops[..k + 1]);
    JournalFollowsRun(store, ops[..k]);
    assert ops[..k + 1][..k] == ops[..k];
  }

  lemma {:induction false} BalancedUntilMissing(store: Store, ops: seq<Op>, n: nat)
    requires n <= |ops| && forall k :: 0 <= k < n ==> !MissesAt(store, ops, k)
    ensures Balanced(store, ops, n)
  {
    if n == 0 {
      assert ops[..0] == [];
    } else {
      BalancedUntilMissing(store, ops, n - 1);
      BalancedNextIff(store, ops, n - 1);
    }
  }

  /** The books balance throughout a run exactly when no resolution changes the amount of a row
      that the SQL store has no counter row for; on the process-local store they always do. */
  lemma BalancedThroughoutIff(store: Store, ops: seq<Op>)
    ensures (forall n :: 0 <= n <= |ops| ==> Balanced(store, ops, n))
       <==> (forall k :: 0 <= k < |ops| ==> !MissesAt(store, ops, k))
    ensures store.Local? ==> forall n :: 0 <= n <= |ops| ==> Balanced(store, ops, n)
  {
    if forall k :: 0 <= k < |ops| ==> !MissesAt(store, ops, k) {
      forall n | 0 <= n <= |ops| ensures Balanced(store, ops, n) {
        BalancedUntilMissing(store, ops, n);
      }
    }
    if forall n :: 0 <= n <= |ops| ==> Balanced(store, ops, n) {
      forall k | 0 <= k < |ops| ensures !MissesAt(store, ops, k) {
        BalancedNextIff(store, ops, k);
      }
    }
  }

  // ----- the hard limit -----

  /** Exposure not yet resolved by evidence: what the provider may still bill. */
  ghost function Exposure(l: Ledger): nat {
    Total(l.debits, true)
  }

  /** The counter never understates the outstanding exposure. */
  ghost predicate Covered(l: Ledger) {
    Exposure(l) <= Counter(l, KEY)
  }

  /** Every operation keeps the counter above the exposure, except that a reset does so exactly
      when nothing is outstanding. */
  lemma CoveredStep(store: Store, l: Ledger, op: Op)
    requires Covered(l)
    ensures Covered(Apply(store, l, op)) <==> (op.ResetOp? ==> Exposure(l) == 0)
  {
    if Attempt(op) && Apply(store, l, op) != l {
      AttemptRewrites(store, l, op);
      RewriteSums(l, Apply(store, l, op), op.id, Missed(store, l, op));
      if Missed(store, l, op) != 0 {
        TotalWithout(l.debits, op.id, true);
        TotalUpdate(l.debits, op.id, Apply(store, l, op).debits[op.id], true);
      }
    } else if op.DeleteOp? {
      TotalDelete(l.debits, op.ids, true);
    }
  }

  /** No reset of the run happens while exposure is outstanding. */
  ghost predicate ResetsWhenClear(store: Store, ops: seq<Op>) {
    forall k :: 0 <= k < |ops| && ops[k].ResetOp? ==> Exposure(Run(store, EMPTY, ops[..k])) == 0
  }

  lemma {:induction false} CoveredRun(store: Store, ops: seq<Op>)
    requires ResetsWhenClear(store, ops)
    ensures Covered(Run(store, EMPTY, ops))
  {
    if ops != [] {
      var prefix := ops[..|ops| - 1];
      forall k | 0 <= k < |prefix| && prefix[k].ResetOp? ensures Exposure(Run(store, EMPTY, prefix[..k])) == 0 {
        assert prefix[..k] == ops[..k];
      }
      CoveredRun(store, prefix);
      CoveredStep(store, Run(store, EMPTY, prefix), ops[|ops| - 1]);
    }
  }

  /** The counter covers the exposure throughout a run exactly when every reset finds nothing outstanding. */
  lemma CoveredThroughoutIff(store: Store, ops: seq<Op>)
    ensures (forall k :: 0 <= k <= |ops| ==> Covered(Run(store, EMPTY, ops[..k]))) <==> ResetsWhenClear(store, ops)
  {
    if ResetsWhenClear(store, ops) {
      forall k | 0 <= k <= |ops| ensures Covered(Run(store, EMPTY, ops[..k])) {
        forall i | 0 <= i < k && ops[..k][i].ResetOp? ensures Exposure(Run(store, EMPTY, ops[..k][..i])) == 0 {
          assert ops[..k][..i] == ops[..i];
        }
        CoveredRun(store, ops[..k]);
      }
    } else {
      var k :| 0 <= k < |ops| && ops[k].ResetOp? && Exposure(Run(store, EMPTY, ops[..k])) != 0;
      assert ops[..k + 1][..k] == ops[..k];
      if Covered(Run(store, EMPTY, ops[..k])) {
        CoveredStep(store, Run(store, EMPTY, ops[..k]), ops[k]);
        assert !Covered(Run(store, EMPTY, ops[..k + 1]));
      }
    }
  }

  /** The reservation is admitted: its row is new and is stored. */
  predicate Admits(store: Store, l: Ledger, id: string, debit: Debit, limit: int) {
    id !in l.debits && id in Apply(store, l, ReserveOp(id, debit, Some(limit))).debits
  }

  /** An admitted reservation leaves the counter within its limit. */
  lemma AdmittedCounter(store: Store, l: Ledger, id: string, debit: Debit, limit: int)
    requires Admits(store, l, id, debit, limit)
    ensures Counter(Apply(store, l, ReserveOp(id, debit, Some(limit))), KEY) <= limit
  {
  }

  /** An admitted reservation never takes the outstanding exposure of all replicas together
      past the hard limit it was admitted under. */
  lemma AdmissionWithinLimit(store: Store, ops: seq<Op>, id: string, debit: Debit, limit: int)
    requires ResetsWhenClear(store, ops) && Admits(store, Run(store, EMPTY, ops), id, debit, limit)
    ensures Exposure(Apply(store, Run(store, EMPTY, ops), ReserveOp(id, debit, Some(limit)))) <= limit
  {
    var l := Run(store, EMPTY, ops);
    CoveredRun(store, ops);
    CoveredStep(store, l, ReserveOp(id, debit, Some(limit)));
    AdmittedCounter(store, l, id, debit, limit);
  }

  function Reservation(amount: Units): Debit {
    Debit(ReservedMax, amount, None, None, None, "t")
  }

  /** With an outstanding reservation, a reset re-opens the whole limit: two full-limit
      reservations are outstanding together. */
  lemma ResetOvershoots(store: Store, limit: Units)
    requires limit > 0
    ensures var l := Run(store, EMPTY, [ReserveOp("a", Reservation(limit), Some(limit)), ResetOp]);
            && Admits(store, l, "b", Reservation(limit), limit)
            && Exposure(Apply(store, l, ReserveOp("b", Reservation(limit), Some(limit)))) == 2 * limit
  {
    AfterReset(store, limit);
    TotalUpdate(map[], "a", Reservation(limit), true);
    TotalUpdate(map["a" := Reservation(limit)], "b", Reservation(limit), true);
  }

  lemma AfterReset(store: Store, amount: Units)
    ensures Run(store, EMPTY, [ReserveOp("a", Reservation(amount), Some(amount)), ResetOp])
            == Ledger(map[], map["a" := Reservation(amount)])
  {
    var a := ReserveOp("a", Reservation(amount), Some(amount));
    assert [a, ResetOp][..1] == [a] && [a][..0] == [];
    assert Run(store, EMPTY, [a]) == Apply(store, EMPTY, a);
  }

  /** Evidence that never exceeds the amount it resolves. */
  ghost predicate WithinHeld(l: Ledger, op: Op) {
    Adjusts(l, op) ==> ResolvedAmount(op) <= l.debits[op.id].amount
  }

  /** Under one limit, without direct additions, and with evidence within the held amounts,
      the counter itself stays within the limit over the whole run. */
  lemma {:induction false} CounterWithinLimit(store: Store, ops: seq<Op>, limit: Units)
    requires forall k :: 0 <= k < |ops| ==> !ops[k].AddSpendOp? && WithinHeld(Run(store, EMPTY, ops[..k]), ops[k])
    requires forall k :: 0 <= k < |ops| && ops[k].ReserveOp? ==> ops[k].limit == Some(limit)
    ensures Counter(Run(store, EMPTY, ops), KEY) <= limit
  {
    if ops != [] {
      var prefix, op := ops[..|ops| - 1], ops[|ops| - 1];
      forall k | 0 <= k < |prefix| ensures !prefix[k].AddSpendOp? && WithinHeld(Run(store, EMPTY, prefix[..k]), prefix[k]) {
        assert prefix[..k] == ops[..k];
      }
      CounterWithinLimit(store, prefix, limit);
      CounterStep(store, Run(store, EMPTY, prefix), op, limit);
    }
  }

  lemma CounterStep(store: Store, l: Ledger, op: Op, limit: Units)
    requires Counter(l, KEY) <= limit && !op.AddSpendOp? && WithinHeld(l, op)
    requires op.ReserveOp? ==> op.limit == Some(limit)
    ensures Counter(Apply(store, l, op), KEY) <= limit
  {
  }

  // ----- resolution happens once -----

  /** Only usage evidence, a stated non-billable attempt or a reconciliation releases capacity. */
  lemma OnlyEvidenceReleases(store: Store, l: Ledger, op: Op)
    requires Counter(Apply(store, l, op), KEY) < Counter(l, KEY) && !op.ResetOp?
    ensures Adjusts(l, op) && ResolvedAmount(op) < l.debits[op.id].amount
  {
  }

  lemma ResolvedStep(store: Store, l: Ledger, op: Op, id: string)
    requires id in l.debits && !IsOutstanding(l.debits[id]) && !(op.DeleteOp? && id in op.ids)
    ensures id in Apply(store, l, op).debits && Apply(store, l, op).debits[id] == l.debits[id]
  {
  }

  /** A resolved row never changes again while it is stored. */
  lemma {:induction false} ResolvedOnce(store: Store, l: Ledger, ops: seq<Op>, id: string)
    requires id in l.debits && !IsOutstanding(l.debits[id])
    requires forall k :: 0 <= k < |ops| && ops[k].DeleteOp? ==> id !in ops[k].ids
    ensures id in Run(store, l, ops).debits && Run(store, l, ops).debits[id] == l.debits[id]
  {
    if ops != [] {
      var prefix := ops[..|ops| - 1];
      assert forall k :: 0 <= k < |prefix| ==> prefix[k] == ops[k];
      ResolvedOnce(store, l, prefix, id);
      ResolvedStep(store, Run(store, l, prefix), ops[|ops| - 1], id);
    }
  }

  lemma HeldStep(store: Store, l: Ledger, op: Op, id: string)
    requires id in l.debits && l.debits[id].basis == UnresolvedMax
    requires !(op.DeleteOp? && id in op.ids) && !(op.ReconcileOp? && op.id == id)
    ensures id in Apply(store, l, op).debits && Apply(store, l, op).debits[id] == l.debits[id]
  {
  }

  /** An attempt whose billing is unknown keeps its full amount until it is reconciled. */
  lemma {:induction false} HeldUntilReconciled(store: Store, l: Ledger, ops: seq<Op>, id: string)
    requires id in l.debits && l.debits[id].basis == UnresolvedMax
    requires forall k :: 0 <= k < |ops| ==>
               !(ops[k].DeleteOp? && id in ops[k].ids) && !(ops[k].ReconcileOp? && ops[k].id == id)
    ensures id in Run(store, l, ops).debits && Run(store, l, ops).debits[id] == l.debits[id]
  {
    if ops != [] {
      var prefix := ops[..|ops| - 1];
      assert forall k :: 0 <= k < |prefix| ==> prefix[k] == ops[k];
      HeldUntilReconciled(store, l, prefix, id);
      HeldStep(store, Run(store, l, prefix), ops[|ops| - 1], id);
    }
  }

  // ----- what each operation leaves of the rows, on either store -----

  /** The rows after an operation, all of them: only the operation's own row changes, and evidence decides how. */
  lemma RowsAfter(store: Store, l: Ledger, op: Op)
    ensures var rows := Apply(store, l, op).debits;
            match op
            case ReserveOp(id, debit, limit) =>
              rows == if Admitted(l, op) then l.debits[id := debit] else l.debits
            case SettleOp(id, attempt, risk, at) =>
              if id !in l.debits || l.debits[id].basis != ReservedMax then rows == l.debits
              else
                && id in rows && rows == l.debits[id := rows[id]] && rows[id].at == at
                && (if attempt.Some? && attempt.value.basis == ActualUsage
                    then EvidencedRow(rows[id], ActualUsage, attempt.value.amount, attempt.value.inputTokens,
                                      attempt.value.outputTokens)
                         && rows[id].rateCard == NewerCard(attempt.value.rateCard, l.debits[id].rateCard)
                    else if attempt.None? && !risk
                    then EvidencedRow(rows[id], Released, 0, None, None) && rows[id].rateCard == l.debits[id].rateCard
                    else rows[id] == l.debits[id].(basis := UnresolvedMax, at := at))
            case ReconcileOp(id, charge, inTok, outTok, at) =>
              if id !in l.debits || !IsOutstanding(l.debits[id]) then rows == l.debits
              else
                && id in rows && rows == l.debits[id := rows[id]] && rows[id].at == at
                && EvidencedRow(rows[id], Reconciled, charge, inTok, outTok)
                && rows[id].rateCard == l.debits[id].rateCard
            case DeleteOp(ids) =>
              && (forall id :: id in rows <==> id in l.debits && id !in ids)
              && (forall id :: id in rows ==> rows[id] == l.debits[id])
            case _ => rows == l.debits
  {
  }

  /** A reservation is admitted when its id is new and the counter stays within the limit. */
  predicate Admitted(l: Ledger, op: Op)
    requires op.ReserveOp?
  {
    op.id !in l.debits && (op.limit.Some? ==> Counter(l, KEY) + op.debit.amount <= op.limit.value)
  }

  predicate EvidencedRow(row: Debit, basis: Basis, amount: Units, inputTokens: Option<int>, outputTokens: Option<int>) {
    row.basis == basis && row.amount == amount && row.inputTokens == inputTokens && row.outputTokens == outputTokens
  }

  function NewerCard(given: Option<string>, stored: Option<string>): Option<string> {
    if given.None? then stored else given
  }

  /** No operation touches a counter but the one of live text generation. */
  lemma OneCounter(store: Store, l: Ledger, op: Op, key: string)
    requires key != "live_text_generation"
    ensures var l' := Apply(store, l, op);
            (key in l'.counters <==> key in l.counters) && (key in l.counters ==> l'.counters[key] == l.counters[key])
  {
  }

  /** Expiry takes rows and leaves every counter. */
  lemma CountersAfterExpiry(store: Store, l: Ledger, ids: set<string>)
    ensures Apply(store, l, DeleteOp(ids)).counters == l.counters
  {
  }

  /** Settling an attempt without usage evidence but with billable risk holds it at its full amount. */
  lemma RiskIsHeld(store: Store, l: Ledger, id: string, at: string)
    requires id in l.debits && l.debits[id].basis == ReservedMax
    ensures var l' := Apply(store, l, SettleOp(id, None, true, at));
            && l'.counters == l.counters && Exposure(l') == Exposure(l)
            && id in l'.debits && l'.debits == l.debits[id := l'.debits[id]]
            && l'.debits[id].basis == UnresolvedMax && l'.debits[id].amount == l.debits[id].amount
  {
    var l' := Apply(store, l, SettleOp(id, None, true, at));
    TotalUpdate(l.debits, id, l'.debits[id], true);
  }

  /** A repeated call of the same attempt, settlement or reconciliation changes nothing more. */
  lemma RetryConverges(store: Store, l: Ledger, op: Op)
    requires Attempt(op)
    ensures Apply(store, Apply(store, l, op), op) == Apply(store, l, op)
  {
  }

  // ----- when the stores agree -----

  /** The two stores take the same step exactly unless a row is resolved while the counter
      row is missing: the process-local store then invents one, the SQL store does not. */
  lemma StoresAgreeStep(l: Ledger, op: Op)
    ensures Apply(Sql, l, op) == Apply(Local, l, op) <==> !Diverges(l, op)
  {
    if Adjusts(l, op) {
      assert KEY in Apply(Local, l, op).counters;
    }
  }

  /** Without a reset the counter row is there whenever a debit is. */
  predicate RowPresent(l: Ledger) {
    l.debits != map[] ==> KEY in l.counters
  }

  lemma RowStaysPresent(l: Ledger, op: Op)
    requires RowPresent(l) && !op.ResetOp?
    ensures RowPresent(Apply(Local, l, op))
  {
  }

  lemma {:induction false} StoresAgree(ops: seq<Op>)
    requires forall k :: 0 <= k < |ops| ==> !ops[k].ResetOp?
    ensures Run(Sql, EMPTY, ops) == Run(Local, EMPTY, ops) && RowPresent(Run(Local, EMPTY, ops))
  {
    if ops != [] {
      var prefix := ops[..|ops| - 1];
      StoresAgree(prefix);
      StoresAgreeStep(Run(Local, EMPTY, prefix), ops[|ops| - 1]);
      RowStaysPresent(Run(Local, EMPTY, prefix), ops[|ops| - 1]);
    }
  }

  predicate DivergesAt(ops: seq<Op>, k: nat)
    requires k < |ops|
  {
    Diverges(Run(Local, EMPTY, ops[..k]), ops[k])
  }

  predicate SameAt(ops: seq<Op>, k: nat)
    requires k <= |ops|
  {
    Run(Sql, EMPTY, ops[..k]) == Run(Local, EMPTY, ops[..k])
  }

  lemma SameNextIff(ops: seq<Op>, k: nat)
    requires k < |ops| && SameAt(ops, k)
    ensures SameAt(ops, k + 1) <==> !DivergesAt(ops, k)
  {
    assert ops[..k + 1][..k] == ops[..k];
    StoresAgreeStep(Run(Local, EMPTY, ops[..k]), ops[k]);
  }

  lemma {:induction false} SameUntilDiverging(ops: seq<Op>, n: nat)
    requires n <= |ops| && forall k :: 0 <= k < n ==> !DivergesAt(ops, k)
    ensures SameAt(ops, n)
  {
    if n > 0 {
      SameUntilDiverging(ops, n - 1);
      SameNextIff(ops, n - 1);
    }
  }

  /** The stores hold the same ledger throughout a run exactly when no operation diverges. */
  lemma StoresAgreeThroughoutIff(ops: seq<Op>)
    ensures (forall n :: 0 <= n <= |ops| ==> SameAt(ops, n)) <==> (forall k :: 0 <= k < |ops| ==> !DivergesAt(ops, k))
  {
    if forall k :: 0 <= k < |ops| ==> !DivergesAt(ops, k) {
      forall n | 0 <= n <= |ops| ensures SameAt(ops, n) {
        SameUntilDiverging(ops, n);
      }
    }
    if forall n :: 0 <= n <= |ops| ==> SameAt(ops, n) {
      forall k | 0 <= k < |ops| ensures !DivergesAt(ops, k) {
        SameNextIff(ops, k);
      }
    }
  }

  /** Reserve, reset, release: the process-local counter is below zero and the SQL counter is gone. */
  lemma StoresDiverge(amount: Units)
    requires amount > 0
    ensures var ops := [ReserveOp("a", Reservation(amount), Some(amount)), ResetOp, SettleOp("a", None, false, "t")];
            && Counter(Run(Local, EMPTY, ops), KEY) + amount == 0
            && KEY !in Run(Sql, EMPTY, ops).counters && Counter(Run(Sql, EMPTY, ops), KEY) == 0
            && Journal(Sql, ops).missed + amount == 0
  {
    var a, b, c := ReserveOp("a", Reservation(amount), Some(amount)), ResetOp, SettleOp("a", None, false, "t");
    AfterReset(Local, amount);
    AfterReset(Sql, amount);
    assert [a, b, c][..2] == [a, b];
    var l := Ledger(map[], map["a" := Reservation(amount)]);
    assert Counter(ApplyLocal(l, c), KEY) + amount == 0 && ApplySql(l, c).counters == map[];
    JournalFollowsRun(Sql, [a, b]);
    MissedBefore(amount);
  }

  lemma MissedBefore(amount: Units)
    ensures Journal(Sql, [ReserveOp("a", Reservation(amount), Some(amount)), ResetOp]).missed == 0
  {
    var a := ReserveOp("a", Reservation(amount), Some(amount));
    assert [a, ResetOp][..1] == [a] && [a][..0] == [];
    assert Journal(Sql, [a]) == Post(Sql, Journal(Sql, []), a);
  }
}
