/**
 At most one pending action per type and target. Every request supersedes the pending action
 it reads, in an access of its own, and a release makes an old action pending again: the
 promise holds exactly as long as no insertion and no landing release meets a pending action
 of the same type and target.
 */
module GovernedActionUniqueness {
  import opened Wrappers
  import opened GovernedActions
  import opened GovernedActionSafety
  import opened GovernedActionOwnership
  import opened GovernedActionApproval
  import opened GovernedActionFates

  /** Two pending actions of one type on one target. */
  predicate Rivals(w: World, a: Id, b: Id) {
    a in w.ledger && b in w.ledger && w.ledger[a].status == Pending
    && PendingFor(w.ledger[b], w.ledger[a].intent.kind, w.ledger[a].intent.target)
  }

  ghost predicate OnePending(w: World) {
    forall a, b :: Rivals(w, a, b) ==> a == b
  }

  ghost predicate NonePending(w: World, i: Intent) {
    forall p :: p in w.ledger ==> !PendingFor(w.ledger[p], i.kind, i.target)
  }

  predicate Inserts(w: World, e: Event) {
    e.Insert? && e.s in w.sessions && w.sessions[e.s].Inserting?
  }

  /** An insertion or a landing release finds no pending action of its type and target. */
  ghost predicate PendingGuard(w: World, e: Event) {
    && (Inserts(w, e) ==> NonePending(w, w.sessions[e.s].draft.intent))
    && (Lands(w, e) ==> NonePending(w, w.ledger[w.sessions[e.s].claimed.intent.payload.targetId].intent))
  }

  /** Making one more action pending keeps uniqueness exactly when there was none. */
  lemma OneMorePending(w: World, w': World, id: Id, i: Intent)
    requires OnePending(w) && w'.ledger == w.ledger[id := PendingRecord(i)]
    requires id in w.ledger ==> w.ledger[id].status != Pending
    ensures OnePending(w') <==> NonePending(w, i)
  {
    if !NonePending(w, i) {
      var p :| p in w.ledger && PendingFor(w.ledger[p], i.kind, i.target);
      assert Rivals(w', p, id);
    } else {
      forall a, b | Rivals(w', a, b) ensures a == b {
        assert a != id && b != id ==> Rivals(w, a, b);
      }
    }
  }

  lemma InsertedRow(H: Digest, w: World, e: Event)
    requires Inv(H, w) && Inserts(w, e)
    ensures var task := w.sessions[e.s];
            task.id !in w.ledger && StepInsert(w, e).ledger == w.ledger[task.id := PendingRecord(task.draft.intent)]
  {
    assert TaskOk(w, e.s, w.sessions[e.s]) && RowOk(w, w.sessions[e.s].id);
  }

  /** Nothing else makes an action pending. */
  lemma PendingRowBefore(H: Digest, w: World, e: Event, id: Id)
    requires Inv(H, w) && !Lands(w, e) && !Inserts(w, e)
    requires id in Step(H, w, e).ledger && Step(H, w, e).ledger[id].status == Pending
    ensures id in w.ledger && w.ledger[id] == Step(H, w, e).ledger[id]
  {
    if e.TakeClaim? {
      ClaimRow(w, e, id);
      if Wins(w, e) {
        ClaimWriteOk(w, e.s, w.sessions[e.s], e.now);
      }
    } else {
      PendingRowKept(H, w, e, id);
    }
  }

  lemma PendingRowKept(H: Digest, w: World, e: Event, id: Id)
    requires !Lands(w, e) && !Inserts(w, e) && !e.TakeClaim?
    requires id in Step(H, w, e).ledger && Step(H, w, e).ledger[id].status == Pending
    ensures id in w.ledger && w.ledger[id] == Step(H, w, e).ledger[id]
  {
  }

  /** From a world with unique pending actions, the next one has them if and only if the guard holds. */
  lemma OnePendingStep(H: Digest, w: World, e: Event)
    requires Inv(H, w) && OnePending(w)
    ensures OnePending(Step(H, w, e)) <==> PendingGuard(w, e)
  {
    if Inserts(w, e) {
      InsertedRow(H, w, e);
      OneMorePending(w, StepInsert(w, e), w.sessions[e.s].id, w.sessions[e.s].draft.intent);
    } else if Lands(w, e) {
      var target := w.sessions[e.s].claimed.intent.payload.targetId;
      LandedRow(H, w, e);
      OneMorePending(w, StepReleaseTarget(w, e), target, w.ledger[target].intent);
    } else {
      forall a, b | Rivals(Step(H, w, e), a, b) ensures a == b {
        PendingRowBefore(H, w, e, a);
        PendingRowBefore(H, w, e, b);
        assert Rivals(w, a, b);
      }
    }
  }

  /** Pending actions are unique throughout a run if and only if every insertion and release is guarded. */
  lemma {:induction false} OnePendingRun(H: Digest, es: seq<Event>, n: nat)
    requires n <= |es|
    ensures (forall k :: 0 <= k <= n ==> OnePending(At(H, es, k)))
       <==> (forall k :: 0 <= k < n ==> PendingGuard(At(H, es, k), es[k]))
  {
    if n == 0 {
      assert es[..0] == [];
    } else {
      OnePendingRun(H, es, n - 1);
      if OnePending(At(H, es, n - 1)) {
        RunKeeps(H, es[..n - 1]);
        AtNext(H, es, n - 1);
        OnePendingStep(H, At(H, es, n - 1), es[n - 1]);
      }
    }
  }

  /** In such a run a new request leaves no other action of its type and target approvable. */
  lemma OnlyNewestApprovable(H: Digest, es: seq<Event>, k: nat, id: Id, call: Event)
    requires k < |es| && forall i :: 0 <= i <= k ==> PendingGuard(At(H, es, i), es[i])
    requires Inserts(At(H, es, k), es[k]) && id in At(H, es, k + 1).ledger
    requires var newest := At(H, es, k).sessions[es[k].s];
             && id != newest.id && At(H, es, k + 1).ledger[id].intent.kind == newest.draft.intent.kind
             && At(H, es, k + 1).ledger[id].intent.target == newest.draft.intent.target
    requires call.Validate? && call.id == id && !call.resume
    ensures StepValidate(H, At(H, es, k + 1), call) == At(H, es, k + 1)
  {
    var w, e := At(H, es, k), es[k];
    OnePendingRun(H, es, k + 1);
    RunKeeps(H, es[..k]);
    AtNext(H, es, k);
    InsertedRow(H, w, e);
    NotPendingRefused(H, At(H, es, k + 1), call);
  }

  /** The search before an insertion finds a pending action of the type and target whenever there is one. */
  lemma SearchFinds(H: Digest, w: World, s: SessionId, choice: Option<Id>)
    requires s in w.sessions && w.sessions[s].Drafted?
    requires s in Step(H, w, ReadPrior(s, choice)).sessions && Step(H, w, ReadPrior(s, choice)).sessions[s].PriorRead?
    ensures var task := Step(H, w, ReadPrior(s, choice)).sessions[s];
            && task.id == w.sessions[s].id && task.draft == w.sessions[s].draft
            && (task.prior == None <==> NonePending(w, task.draft.intent))
            && (task.prior.Some? ==>
                  var (p, seen) := task.prior.value;
                  p in w.ledger && w.ledger[p] == seen && PendingFor(seen, task.draft.intent.kind, task.draft.intent.target))
  {
  }

  lemma NotPendingRefused(H: Digest, w: World, call: Event)
    requires call.Validate? && !call.resume && call.id in w.ledger && w.ledger[call.id].status != Pending
    ensures StepValidate(H, w, call) == w
  {
  }
}
