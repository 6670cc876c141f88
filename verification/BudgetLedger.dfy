/**
 The provider budget ledger: attempt debits and the budget counter they move, as the
 repository's store operations leave them. Amounts are whole units of 1e-8 USD, the
 precision every stored figure is rounded to. Each store operation is one transaction, so
 a sequence of operations is any interleaving of any number of replicas.
 */
module BudgetLedger {
  import opened Wrappers

  type Units = nat

  datatype Basis = ReservedMax | ActualUsage | Released | UnresolvedMax | Reconciled

  datatype Debit = Debit(
    basis: Basis, amount: Units, inputTokens: Option<int>, outputTokens: Option<int>,
    rateCard: Option<string>, at: string)

  /** `counters` holds the budget rows by key; a missing row counts as nothing spent. */
  datatype Ledger = Ledger(counters: map<string, int>, debits: map<string, Debit>)

  const EMPTY: Ledger := Ledger(map[], map[])

  function Counter(l: Ledger, key: string): int {
    if key in l.counters then l.counters[key] else 0
  }

  function AddSpend(l: Ledger, key: string, amount: int): Ledger {
    l.(counters := l.counters[key := Counter(l, key) + amount])
  }

  datatype Admission = Reserved | Duplicate | Refused

  /** `reserve_attempt_debit`: the limit check, the debit row and the counter in one step. */
  function Reserve(l: Ledger, id: string, debit: Debit, key: string, limit: Option<int>): (Ledger, Admission) {
    if id in l.debits then (l, Duplicate)
    else if limit.Some? && Counter(l, key) + debit.amount > limit.value then (l, Refused)
    else (AddSpend(l.(debits := l.debits[id := debit]), key, debit.amount), Reserved)
  }

  function Resolve(row: Debit, basis: Basis, amount: Units, inputTokens: Option<int>, outputTokens: Option<int>,
                   rateCard: Option<string>, at: string): Debit
  {
    Debit(basis, amount, inputTokens, outputTokens, if rateCard.Some? then rateCard else row.rateCard, at)
  }

  /** `settle_attempt_debit`: only a still-reserved row settles. */
  function Settle(l: Ledger, id: string, key: string, basis: Basis, amount: Units, inputTokens: Option<int>,
                  outputTokens: Option<int>, rateCard: Option<string>, at: string): (Ledger, bool)
  {
    if id !in l.debits || l.debits[id].basis != ReservedMax then (l, false)
    else
      var row := l.debits[id];
      var settled := Resolve(row, basis, amount, inputTokens, outputTokens, rateCard, at);
      (AddSpend(l.(debits := l.debits[id := settled]), key, amount - row.amount), true)
  }

  /** `hold_attempt_debit_unresolved`: the amount stays on the row and in the counter. */
  function Hold(l: Ledger, id: string, at: string): (Ledger, bool) {
    if id !in l.debits || l.debits[id].basis != ReservedMax then (l, false)
    else (l.(debits := l.debits[id := l.debits[id].(basis := UnresolvedMax, at := at)]), true)
  }

  /** `reconcile_attempt_debit`: unresolved or crash-orphaned exposure, to an evidenced charge. */
  function Reconcile(l: Ledger, id: string, key: string, amount: Units, inputTokens: Option<int>,
                     outputTokens: Option<int>, rateCard: Option<string>, at: string): (Ledger, bool)
  {
    if id !in l.debits || l.debits[id].basis !in {UnresolvedMax, ReservedMax} then (l, false)
    else
      var row := l.debits[id];
      var settled := Resolve(row, Reconciled, amount, inputTokens, outputTokens, rateCard, at);
      (AddSpend(l.(debits := l.debits[id := settled]), key, amount - row.amount), true)
  }

  /** `reset_budget_state`: the operator reset drops the counter row and nothing else. */
  function Reset(l: Ledger, key: string): Ledger {
    l.(counters := l.counters - {key})
  }

  /** `delete_attempt_debits`: retention deletes evidence and never reverses the counter. */
  function Delete(l: Ledger, ids: set<string>): Ledger {
    l.(debits := l.debits - ids)
  }

  /** The counter of `key` moves by exactly what the recorded amounts move, and no other counter moves. */
  ghost predicate MovesTogether(l: Ledger, l': Ledger, key: string) {
    && Counter(l', key) - Counter(l, key) == Total(l'.debits, false) - Total(l.debits, false)
    && forall other :: other != key ==> Counter(l', other) == Counter(l, other)
  }

  /** The process-local store, updated in place. */
  class MemoryStore {
    var counters: map<string, int>
    var debits: map<string, Debit>

    ghost function Contents(): Ledger
      reads this
    {
      Ledger(counters, debits)
    }

    constructor ()
      ensures Contents() == EMPTY
    {
      counters, debits := map[], map[];
    }

    /** Only the counter of `key` moves, by exactly `amount`. */
    method AddBudgetSpend(key: string, amount: int)
      modifies this`counters
      ensures key in counters && Counter(Contents(), key) == old(Counter(Contents(), key)) + amount
      ensures forall other :: other != key ==>
                (other in counters <==> other in old(counters)) &&
                      Counter(Contents(), other) == old(Counter(Contents(), other))
      ensures Contents() == AddSpend(old(Contents()), key, amount)
    {
      var current := 0;
      if key in counters {
        current := counters[key];
      }
      counters := counters[key := current + amount];
    }

    /** Admitted exactly when the id is new and the counter stays within the limit; the counter
        moves by what the recorded debits move. */
    method ReserveAttemptDebit(id: string, debit: Debit, key: string, limit: Option<int>) returns (outcome: Admission)
      modifies this
      ensures outcome == Reserved <==>
                id !in old(debits) && (limit.Some? ==> old(Counter(Contents(), key)) + debit.amount <= limit.value)
      ensures outcome == Duplicate <==> id in old(debits)
      ensures outcome != Reserved ==> unchanged(this)
      ensures outcome == Reserved ==> debits == old(debits)[id := debit]
      ensures MovesTogether(old(Contents()), Contents(), key)
      ensures (Contents(), outcome) == Reserve(old(Contents()), id, debit, key, limit)
    {
      if id in debits {
        return Duplicate;
      }
      var current := 0;
      if key in counters {
        current := counters[key];
      }
      if limit.Some? && current + debit.amount > limit.value {
        return Refused;
      }
      TotalUpdate(debits, id, debit, false);
      debits := debits[id := debit];
      AddBudgetSpend(key, debit.amount);
      outcome := Reserved;
    }

    /** A reserved row, and no other, is resolved; the counter moves by what the debits move. */
    method SettleAttemptDebit(id: string, key: string, basis: Basis, amount: Units, inputTokens: Option<int>,
                              outputTokens: Option<int>, rateCard: Option<string>, at: string) returns (won: bool)
      modifies this
      ensures won <==> id in old(debits) && old(debits)[id].basis == ReservedMax
      ensures !won ==> unchanged(this)
      ensures won ==> id in debits && debits == old(debits)[id := debits[id]]
      ensures won ==> debits[id].basis == basis && debits[id].amount == amount && debits[id].at == at
      ensures won ==> debits[id].inputTokens == inputTokens && debits[id].outputTokens == outputTokens
      ensures won ==> debits[id].rateCard == if rateCard.None? then old(debits)[id].rateCard else rateCard
      ensures MovesTogether(old(Contents()), Contents(), key)
      ensures (Contents(), won)
           == Settle(old(Contents()), id, key, basis, amount, inputTokens, outputTokens, rateCard, at)
    {
      if id !in debits || debits[id].basis != ReservedMax {
        return false;
      }
      var row := debits[id];
      var delta := amount - row.amount;
      TotalUpdate(debits, id, Resolve(row, basis, amount, inputTokens, outputTokens, rateCard, at), false);
      debits := debits[id := Resolve(row, basis, amount, inputTokens, outputTokens, rateCard, at)];
      AddBudgetSpend(key, delta);
      won := true;
    }

    /** A reserved row becomes unresolved; neither the counter nor the outstanding exposure moves. */
    method HoldAttemptDebit(id: string, at: string) returns (won: bool)
      modifies this`debits
      ensures won <==> id in old(debits) && old(debits)[id].basis == ReservedMax
      ensures !won ==> unchanged(this)
      ensures won ==> id in debits && debits == old(debits)[id := old(debits)[id].(basis := UnresolvedMax, at := at)]
      ensures Total(debits, true) == old(Total(debits, true)) && Total(debits, false) == old(Total(debits, false))
      ensures (Contents(), won) == Hold(old(Contents()), id, at)
    {
      if id !in debits || debits[id].basis != ReservedMax {
        return false;
      }
      TotalUpdate(debits, id, debits[id].(basis := UnresolvedMax, at := at), true);
      TotalUpdate(debits, id, debits[id].(basis := UnresolvedMax, at := at), false);
      debits := debits[id := debits[id].(basis := UnresolvedMax, at := at)];
      won := true;
    }

    /** An outstanding row, and no other, is resolved; the counter moves by what the debits move. */
    method ReconcileAttemptDebit(id: string, key: string, amount: Units, inputTokens: Option<int>,
                                 outputTokens: Option<int>, rateCard: Option<string>, at: string) returns (won: bool)
      modifies this
      ensures won <==> id in old(debits) && IsOutstanding(old(debits)[id])
      ensures !won ==> unchanged(this)
      ensures won ==> id in debits && debits == old(debits)[id := debits[id]]
      ensures won ==> debits[id].basis == Reconciled && debits[id].amount == amount && debits[id].at == at
      ensures won ==> debits[id].inputTokens == inputTokens && debits[id].outputTokens == outputTokens
      ensures won ==> debits[id].rateCard == if rateCard.None? then old(debits)[id].rateCard else rateCard
      ensures MovesTogether(old(Contents()), Contents(), key)
      ensures (Contents(), won)
           == Reconcile(old(Contents()), id, key, amount, inputTokens, outputTokens, rateCard, at)
    {
      if id !in debits || debits[id].basis !in {UnresolvedMax, ReservedMax} {
        return false;
      }
      var row := debits[id];
      var delta := amount - row.amount;
      TotalUpdate(debits, id, Resolve(row, Reconciled, amount, inputTokens, outputTokens, rateCard, at), false);
      debits := debits[id := Resolve(row, Reconciled, amount, inputTokens, outputTokens, rateCard, at)];
      AddBudgetSpend(key, delta);
      won := true;
    }

    /** The counter of `key` reads zero again, whatever is outstanding. */
    method ResetBudget(key: string) returns (affected: nat)
      modifies this`counters
      ensures key !in counters && Counter(Contents(), key) == 0
      ensures forall other :: other != key ==>
                (other in counters <==> other in old(counters)) &&
                      Counter(Contents(), other) == old(Counter(Contents(), other))
      ensures Contents() == Reset(old(Contents()), key)
      ensures affected == if key in old(counters) then 1 else 0
    {
      affected := if key in counters then 1 else 0;
      counters := counters - {key};
    }

    /** Exactly the named rows leave and are counted, each once; no counter moves. */
    method DeleteAttemptDebits(ids: seq<string>) returns (deleted: nat)
      modifies this
      ensures forall id :: id in debits <==> id in old(debits) && id !in ids
      ensures forall id :: id in debits ==> debits[id] == old(debits)[id]
      ensures counters == old(counters)
      ensures deleted == |set id | id in old(debits) && id in ids|
      ensures Contents() == Delete(old(Contents()), set id | id in ids)
    {
      deleted := 0;
      for i := 0 to |ids|
        invariant counters == old(counters)
        invariant forall id :: id in debits <==> id in old(debits) && id !in ids[..i]
        invariant forall id :: id in debits ==> debits[id] == old(debits)[id]
        invariant deleted == |set id | id in old(debits) && id in ids[..i]|
      {
        NamedSoFar(old(debits).Keys, ids, i);
        if ids[i] in debits {
          debits := debits - {ids[i]};
          deleted := deleted + 1;
        }
      }
      assert ids[..|ids|] == ids;
      assert debits == old(debits) - (set id | id in ids);
    }
  }

  /** One more name adds one row to those named, unless it names none or one named before. */
  lemma NamedSoFar(rows: set<string>, ids: seq<string>, i: nat)
    requires i < |ids|
    ensures |set id | id in rows && id in ids[..i + 1]|
         == |set id | id in rows && id in ids[..i]| + (if ids[i] in rows && ids[i] !in ids[..i] then 1 else 0)
  {
    var before, after := set id | id in rows && id in ids[..i], set id | id in rows && id in ids[..i + 1];
    assert ids[..i + 1] == ids[..i] + [ids[i]];
    assert after == if ids[i] in rows then before + {ids[i]} else before;
  }

  // ----- the evidence order at the attempt boundary -----

  datatype AttemptDebit = AttemptDebit(
    basis: Basis, amount: Units, inputTokens: Option<int>, outputTokens: Option<int>, rateCard: Option<string>)

  /** `settle_attempt_spend`: which store operation an attempt's evidence leads to. */
  function SettleSpend(l: Ledger, id: string, debit: Option<AttemptDebit>, billableRisk: bool, now: string): (Ledger, bool) {
    match debit
    case None =>
      if billableRisk then Hold(l, id, now)
      else Settle(l, id, KEY, Released, 0, None, None, None, now)
    case Some(d) =>
      if d.basis != ActualUsage then Hold(l, id, now)
      else Settle(l, id, KEY, d.basis, d.amount, d.inputTokens, d.outputTokens, d.rateCard, now)
  }

  /** The one budget row the service uses. */
  const KEY := "live_text_generation"

  // ----- runs -----

  datatype Op =
    | ReserveOp(id: string, debit: Debit, limit: Option<int>)
    | SettleOp(id: string, attempt: Option<AttemptDebit>, billableRisk: bool, at: string)
    | ReconcileOp(id: string, charge: Units, inputTokens: Option<int>, outputTokens: Option<int>, at: string)
    | AddSpendOp(spend: Units)
    | ResetOp
    | DeleteOp(ids: set<string>)

  function ApplyLocal(l: Ledger, op: Op): Ledger {
    match op
    case ReserveOp(id, debit, limit) => Reserve(l, id, debit, KEY, limit).0
    case SettleOp(id, attempt, risk, at) => SettleSpend(l, id, attempt, risk, at).0
    case ReconcileOp(id, charge, inTok, outTok, at) => Reconcile(l, id, KEY, charge, inTok, outTok, None, at).0
    case AddSpendOp(spend) => AddSpend(l, KEY, spend)
    case ResetOp => Reset(l, KEY)
    case DeleteOp(ids) => Delete(l, ids)
  }

  // ----- the SQL store, the only one whose budget an operator can reset -----

  /** An UPDATE of the budget row: without the row it changes nothing. */
  function SqlAdjust(l: Ledger, delta: int): Ledger {
    if KEY in l.counters then l.(counters := l.counters[KEY := l.counters[KEY] + delta]) else l
  }

  /** The guarded UPDATE, then an INSERT of the first budget row. */
  function SqlReserve(l: Ledger, id: string, debit: Debit, limit: Option<int>): Ledger {
    if id in l.debits then l
    else if KEY in l.counters && (limit.None? || l.counters[KEY] + debit.amount <= limit.value)
    then SqlAdjust(l, debit.amount).(debits := l.debits[id := debit])
    else if KEY in l.counters then l
    else if limit.Some? && debit.amount > limit.value then l
    else Ledger(l.counters[KEY := debit.amount], l.debits[id := debit])
  }

  /** The guarded UPDATE of a debit row, then the UPDATE of the counter, in one transaction. */
  function SqlResolve(l: Ledger, id: string, bases: set<Basis>, row: Debit): Ledger {
    if id !in l.debits || l.debits[id].basis !in bases then l
    else SqlAdjust(l, row.amount - l.debits[id].amount).(debits := l.debits[id := row])
  }

  function SqlSettle(l: Ledger, id: string, debit: Option<AttemptDebit>, billableRisk: bool, at: string): Ledger {
    if id !in l.debits then l
    else
      match debit
      case None =>
        if billableRisk then Hold(l, id, at).0
        else SqlResolve(l, id, {ReservedMax}, Resolve(l.debits[id], Released, 0, None, None, None, at))
      case Some(d) =>
        if d.basis != ActualUsage then Hold(l, id, at).0
        else SqlResolve(l, id, {ReservedMax},
                        Resolve(l.debits[id], d.basis, d.amount, d.inputTokens, d.outputTokens, d.rateCard, at))
  }

  function ApplySql(l: Ledger, op: Op): Ledger {
    match op
    case ReserveOp(id, debit, limit) => SqlReserve(l, id, debit, limit)
    case SettleOp(id, attempt, risk, at) => SqlSettle(l, id, attempt, risk, at)
    case ReconcileOp(id, charge, inTok, outTok, at) =>
      if id !in l.debits then l
      else SqlResolve(l, id, {UnresolvedMax, ReservedMax},
                      Resolve(l.debits[id], Reconciled, charge, inTok, outTok, None, at))
    case AddSpendOp(spend) => AddSpend(l, KEY, spend)
    case ResetOp => Reset(l, KEY)
    case DeleteOp(ids) => Delete(l, ids)
  }

  datatype Store = Local | Sql

  function Apply(store: Store, l: Ledger, op: Op): Ledger {
    if store.Local? then ApplyLocal(l, op) else ApplySql(l, op)
  }

  function Run(store: Store, l: Ledger, ops: seq<Op>): Ledger {
    if ops == [] then l else Apply(store, Run(store, l, ops[..|ops| - 1]), ops[|ops| - 1])
  }

  // ----- sums over the debit rows -----

  predicate IsOutstanding(d: Debit) {
    d.basis in {ReservedMax, UnresolvedMax}
  }

  /** The sum of the rows' amounts, or of the still outstanding ones only. */
  ghost function Total(debits: map<string, Debit>, outstandingOnly: bool): (t: nat)
    decreases |debits|
  {
    if debits == map[] then 0
    else
      var id :| id in debits;
      Weight(debits[id], outstandingOnly) + Total(debits - {id}, outstandingOnly)
  }

  ghost function Weight(d: Debit, outstandingOnly: bool): nat {
    if outstandingOnly && !IsOutstanding(d) then 0 else d.amount
  }

  lemma {:induction false} TotalWithout(debits: map<string, Debit>, id: string, only: bool)
    requires id in debits
    ensures Total(debits, only) == Weight(debits[id], only) + Total(debits - {id}, only)
    decreases |debits|
  {
    var first :| first in debits && Total(debits, only) == Weight(debits[first], only) + Total(debits - {first}, only);
    if first != id {
      TotalWithout(debits - {first}, id, only);
      assert debits - {first} - {id} == debits - {id} - {first};
      TotalWithout(debits - {id}, first, only);
    }
  }

  lemma TotalUpdate(debits: map<string, Debit>, id: string, d: Debit, only: bool)
    ensures Total(debits[id := d], only)
         == Total(debits, only) + Weight(d, only) - (if id in debits then Weight(debits[id], only) else 0)
  {
    TotalWithout(debits[id := d], id, only);
    if id in debits {
      TotalWithout(debits, id, only);
      assert debits[id := d] - {id} == debits - {id};
    } else {
      assert debits[id := d] - {id} == debits;
    }
  }

  lemma {:induction false} TotalDelete(debits: map<string, Debit>, ids: set<string>, only: bool)
    ensures Total(debits - ids, only) <= Total(debits, only)
    decreases |ids|
  {
    if ids == {} {
      assert debits - ids == debits;
    } else {
      var id :| id in ids;
      TotalDelete(debits, ids - {id}, only);
      var rest := debits - (ids - {id});
      if id in rest {
        TotalWithout(rest, id, only);
        assert rest - {id} == debits - ids;
      } else {
        assert rest == debits - ids;
      }
    }
  }
}
