/**
 Every way a pending action and a live claim can end, in every run. A pending action is never
 lost as long as no release lands on an action that a retention call has listed.
 */
module GovernedActionFates {
  import opened Wrappers
  import opened GovernedActions
  import opened GovernedActionSafety
  import opened GovernedActionOwnership
  import opened GovernedActionApproval

  // ----- every way a pending action can end -----

  /** Claimed by the verified credential of the approving call. */
  predicate ClaimedByCall(w: World, e: Event, id: Id, before: Record, after: Record) {
    && Wins(w, e) && w.sessions[e.s].id == id && !w.sessions[e.s].resuming
    && after == ClaimedRecord(before.intent, NewApprover(w.sessions[e.s], e.now), e.now)
    && w.sessions[e.s].caller.key == Some(after.approver.value.key)
  }

  /** Superseded by a newer request of the same type on the same target. */
  predicate SupersededByRequest(w: World, e: Event, before: Record, after: Record) {
    && e.SupersedePrior? && e.s in w.sessions && w.sessions[e.s].PriorRead?
    && var newer := w.sessions[e.s];
    && newer.draft.intent.kind == before.intent.kind && newer.draft.intent.target == before.intent.target
    && after == before.(status := Superseded, supersededBy := Some(newer.id))
  }

  /** A retention call still holds `id` on its list. */
  predicate Lists(w: World, s: SessionId, id: Id) {
    s in w.sessions && w.sessions[s].Expiring? && id in w.sessions[s].listed
  }

  predicate Deletes(w: World, e: Event, id: Id) {
    e.DeleteListed? && Lists(w, e.s, id) && id in e.ids && e.ids <= w.sessions[e.s].listed
  }

  lemma DeletedIff(H: Digest, w: World, e: Event, id: Id)
    requires id in w.ledger
    ensures id !in Step(H, w, e).ledger <==> Deletes(w, e, id)
  {
  }

  predicate EndsPending(w: World, e: Event, id: Id, before: Record, after: Record) {
    ClaimedByCall(w, e, id, before, after) || SupersededByRequest(w, e, before, after)
  }

  lemma PendingClaimed(H: Digest, w: World, e: Event, id: Id)
    requires Inv(H, w) && id in w.ledger && w.ledger[id].status == Pending && e.TakeClaim?
    ensures var w' := StepTakeClaim(w, e);
            id in w'.ledger && (w'.ledger[id] == w.ledger[id] || ClaimedByCall(w, e, id, w.ledger[id], w'.ledger[id]))
  {
    assert RowOk(w, id);
    ClaimRow(w, e, id);
    if Wins(w, e) {
      assert TaskOk(w, e.s, w.sessions[e.s]);
    }
  }

  lemma PendingSuperseded(H: Digest, w: World, e: Event, id: Id)
    requires Inv(H, w) && id in w.ledger && w.ledger[id].status == Pending && e.SupersedePrior?
    ensures var w' := StepSupersede(w, e);
            id in w'.ledger && (w'.ledger[id] == w.ledger[id] || SupersededByRequest(w, e, w.ledger[id], w'.ledger[id]))
  {
    assert RowOk(w, id);
    if e.s in w.sessions {
      assert TaskOk(w, e.s, w.sessions[e.s]);
    }
  }

  lemma PendingKept(H: Digest, w: World, e: Event, id: Id)
    requires id in w.ledger && w.ledger[id].status == Pending && id in w.past.issued
    requires !e.TakeClaim? && !e.SupersedePrior? && !e.Insert? && !Deletes(w, e, id)
    ensures id in Step(H, w, e).ledger && Step(H, w, e).ledger[id] == w.ledger[id]
  {
  }

  /** Each event leaves a pending action alone, claims it, supersedes it, or deletes it from a retention list. */
  lemma PendingFate(H: Digest, w: World, e: Event, id: Id)
    requires Inv(H, w) && id in w.ledger && w.ledger[id].status == Pending
    ensures id !in Step(H, w, e).ledger <==> Deletes(w, e, id)
    ensures id in Step(H, w, e).ledger ==>
              Step(H, w, e).ledger[id] == w.ledger[id] || EndsPending(w, e, id, w.ledger[id], Step(H, w, e).ledger[id])
  {
    assert RowOk(w, id);
    DeletedIff(H, w, e, id);
    if e.TakeClaim? {
      PendingClaimed(H, w, e, id);
    } else if e.SupersedePrior? {
      PendingSuperseded(H, w, e, id);
    } else if e.Insert? {
      InsertsNew(H, w, e, id);
    } else if !Deletes(w, e, id) {
      PendingKept(H, w, e, id);
    }
  }

  // ----- when a pending action can be lost -----

  /** No retention call lists an action that is pending. */
  ghost predicate Safe(w: World) {
    forall s, id :: Lists(w, s, id) && id in w.ledger ==> w.ledger[id].status != Pending
  }

  /** One event can lose a pending action exactly when a retention call lists it. */
  lemma LosableIff(H: Digest, w: World, id: Id)
    requires id in w.ledger
    ensures (exists e :: id !in Step(H, w, e).ledger) <==> (exists s :: Lists(w, s, id))
  {
    if s :| Lists(w, s, id) {
      DeletedIff(H, w, DeleteListed(s, {id}), id);
    }
    if e :| id !in Step(H, w, e).ledger {
      DeletedIff(H, w, e, id);
      assert Lists(w, e.s, id);
    }
  }

  /** The release effect lands: its compare-and-set succeeds. */
  predicate Lands(w: World, e: Event) {
    && e.ReleaseTarget? && e.s in w.sessions && w.sessions[e.s].TargetRead?
    && w.sessions[e.s].claimed.intent.payload.FrozenClaim?
    && var pin := w.sessions[e.s].claimed.intent.payload;
    Transition(w.ledger, pin.targetId, Claimed, Released(w.sessions[e.s].target), Some(pin.claimedAt)).Some?
  }

  /** A landing release finds its target on no retention list. */
  ghost predicate ClearOfRetention(w: World, e: Event) {
    Lands(w, e) ==> forall s :: !Lists(w, s, w.sessions[e.s].claimed.intent.payload.targetId)
  }

  lemma LandedRow(H: Digest, w: World, e: Event)
    requires Inv(H, w) && Lands(w, e)
    ensures var id := w.sessions[e.s].claimed.intent.payload.targetId;
            && id in w.ledger && w.ledger[id].status == Claimed
            && StepReleaseTarget(w, e).ledger == w.ledger[id := PendingRecord(w.ledger[id].intent)]
  {
    var task := w.sessions[e.s];
    assert TaskOk(w, e.s, task);
    assert RowOk(w, task.claimed.intent.payload.targetId);
  }

  lemma PendingUnmoved(H: Digest, w: World, e: Event, id: Id)
    requires !Lands(w, e) && !e.Insert? && !e.TakeClaim? && id in w.past.issued
    requires id in Step(H, w, e).ledger && Step(H, w, e).ledger[id].status == Pending
    ensures id in w.ledger && w.ledger[id].status == Pending
  {
  }

  lemma ClaimsArePending(H: Digest, w: World, e: Event, id: Id)
    requires Inv(H, w) && e.TakeClaim? && id in StepTakeClaim(w, e).ledger
    requires StepTakeClaim(w, e).ledger[id].status == Pending
    ensures id in w.ledger && w.ledger[id].status == Pending
  {
    ClaimRow(w, e, id);
    if Wins(w, e) {
      ClaimWriteOk(w, e.s, w.sessions[e.s], e.now);
    }
  }

  /** Only a landing release makes a stored action pending. */
  lemma PendingBefore(H: Digest, w: World, e: Event, id: Id)
    requires Inv(H, w) && !Lands(w, e) && id in w.past.stored
    requires id in Step(H, w, e).ledger && Step(H, w, e).ledger[id].status == Pending
    ensures id in w.ledger && w.ledger[id].status == Pending
  {
    if e.Insert? {
      InsertsNew(H, w, e, id);
    } else if e.TakeClaim? {
      ClaimsArePending(H, w, e, id);
    } else {
      PendingUnmoved(H, w, e, id);
    }
  }

  lemma ListedBefore(H: Digest, w: World, e: Event, s: SessionId, id: Id)
    requires Lists(Step(H, w, e), s, id)
    ensures Lists(w, s, id) || (e.ListExpired? && id in w.ledger && w.ledger[id].status != Pending)
    ensures e.ListExpired? ==> Step(H, w, e).ledger == w.ledger
    ensures e.ReleaseTarget? ==> Lists(w, s, id)
  {
  }

  lemma SafeStep(H: Digest, w: World, e: Event)
    requires Inv(H, w) && Safe(w)
    ensures Safe(Step(H, w, e)) <==> ClearOfRetention(w, e)
  {
    if Lands(w, e) {
      SafeRelease(H, w, e);
    } else {
      forall s, id | Lists(Step(H, w, e), s, id) && id in Step(H, w, e).ledger
        ensures Step(H, w, e).ledger[id].status != Pending
      {
        ListedBefore(H, w, e, s, id);
        ListedStored(H, w, s, id);
        if Step(H, w, e).ledger[id].status == Pending && !e.ListExpired? {
          PendingBefore(H, w, e, id);
        }
      }
    }
  }

  lemma ListedStored(H: Digest, w: World, s: SessionId, id: Id)
    requires Inv(H, w) && (Lists(w, s, id) || id in w.ledger)
    ensures id in w.past.stored
  {
    assert RowOk(w, id);
    if Lists(w, s, id) {
      assert TaskOk(w, s, w.sessions[s]);
    }
  }

  lemma SafeRelease(H: Digest, w: World, e: Event)
    requires Inv(H, w) && Safe(w) && Lands(w, e)
    ensures Safe(StepReleaseTarget(w, e)) <==> ClearOfRetention(w, e)
  {
    var w' := StepReleaseTarget(w, e);
    var target := w.sessions[e.s].claimed.intent.payload.targetId;
    LandedRow(H, w, e);
    assert forall s, id :: s != e.s ==> (Lists(w', s, id) <==> Lists(w, s, id));
    assert forall id :: !Lists(w', e.s, id) && !Lists(w, e.s, id);
    if !ClearOfRetention(w, e) {
      var s :| Lists(w, s, target);
      assert Lists(w', s, target) && w'.ledger[target].status == Pending;
    }
  }

  /** Throughout a run no pending action is ever listed, exactly when every release that lands is clear of retention. */
  lemma {:induction false} SafeRun(H: Digest, es: seq<Event>, n: nat)
    requires n <= |es|
    ensures (forall k :: 0 <= k <= n ==> Safe(At(H, es, k)))
       <==> (forall k :: 0 <= k < n ==> ClearOfRetention(At(H, es, k), es[k]))
  {
    if n == 0 {
      assert es[..0] == [];
    } else {
      SafeRun(H, es, n - 1);
      if Safe(At(H, es, n - 1)) {
        RunKeeps(H, es[..n - 1]);
        AtNext(H, es, n - 1);
        SafeStep(H, At(H, es, n - 1), es[n - 1]);
      }
    }
  }

  /** In such a run a pending action stays until it is claimed or superseded. */
  lemma EveryPendingFate(H: Digest, es: seq<Event>, k: nat, id: Id)
    requires forall i :: 0 <= i < |es| ==> ClearOfRetention(At(H, es, i), es[i])
    requires k < |es| && id in At(H, es, k).ledger && At(H, es, k).ledger[id].status == Pending
    ensures id in At(H, es, k + 1).ledger
    ensures var before, after := At(H, es, k).ledger[id], At(H, es, k + 1).ledger[id];
            after == before || EndsPending(At(H, es, k), es[k], id, before, after)
  {
    SafeRun(H, es, |es|);
    assert Safe(At(H, es, k));
    RunKeeps(H, es[..k]);
    AtNext(H, es, k);
    PendingFate(H, At(H, es, k), es[k], id);
  }

  // ----- every way a live claim can end -----

  /** A resume rotated the claim: it wrote its own copy at an instant other than the live one. */
  predicate Rotated(w: World, e: Event, id: Id, before: Record, after: Record) {
    && Wins(w, e) && w.sessions[e.s].id == id && w.sessions[e.s].resuming
    && var copy := w.sessions[e.s].seen;
    && IsCopy(copy, before) && w.sessions[e.s].caller.key == Some(copy.approver.value.key)
    && after == copy.(claimedAt := Some(e.now)) && before.claimedAt != Some(e.now)
  }

  /** An owner finalized its copy. */
  predicate Finalized(w: World, e: Event, id: Id, before: Record, after: Record) {
    && e.Finalize? && Owns(w, e.s, id) && w.sessions[e.s].Effected?
    && var copy := w.sessions[e.s].claimed;
    && IsCopy(copy, before)
    && after == copy.(status := Executed, executedAt := Some(e.now), result := e.result)
  }

  /** A claim of the same action at the same instant: all that the fence compares. */
  predicate IsCopy(copy: Record, live: Record) {
    && copy.status == live.status == Claimed && copy.intent == live.intent
    && copy.claimedAt == live.claimedAt && copy.approver.Some? && live.approver.Some?
  }

  /** A release put the action back exactly as its requester submitted it, under two different
      credentials, the first of them not the pinned one. */
  predicate ReleasedByTwo(w: World, e: Event, id: Id, before: Record, after: Record) {
    && Lands(w, e) && w.sessions[e.s].claimed.intent.payload.targetId == id
    && var release := w.sessions[e.s].claimed;
    && release.intent.kind.ClaimRelease? && before.claimedAt == Some(release.intent.payload.claimedAt)
    && release.intent.requester.key.Some? && release.approver.Some? && before.approver.Some?
    && release.intent.requester.key.value != release.approver.value.key
    && release.intent.requester.key.value != release.intent.payload.frozenKey
    && after == PendingRecord(before.intent)
  }

  predicate ClaimFate(w: World, e: Event, id: Id, before: Record, after: Record) {
    || after == before
    || Rotated(w, e, id, before, after)
    || Finalized(w, e, id, before, after)
    || ReleasedByTwo(w, e, id, before, after)
  }

  lemma RotationFate(H: Digest, w: World, e: Event, id: Id)
    requires Inv(H, w) && e.TakeClaim? && id in w.ledger && w.ledger[id].status == Claimed
    ensures var w' := StepTakeClaim(w, e);
            id in w'.ledger && (w'.ledger[id] == w.ledger[id] || Rotated(w, e, id, w.ledger[id], w'.ledger[id]))
  {
    ClaimRow(w, e, id);
    assert RowOk(w, id);
    if Wins(w, e) {
      assert TaskOk(w, e.s, w.sessions[e.s]);
    }
  }

  lemma FinalizationFate(H: Digest, w: World, e: Event, id: Id)
    requires Inv(H, w) && e.Finalize? && id in w.ledger && w.ledger[id].status == Claimed
    ensures var w' := StepFinalize(w, e);
            id in w'.ledger && (w'.ledger[id] == w.ledger[id] || Finalized(w, e, id, w.ledger[id], w'.ledger[id]))
  {
    assert RowOk(w, id);
    if e.s in w.sessions {
      assert TaskOk(w, e.s, w.sessions[e.s]);
    }
  }

  lemma ReleaseFate(H: Digest, w: World, e: Event, id: Id)
    requires Inv(H, w) && e.ReleaseTarget? && id in w.ledger && w.ledger[id].status == Claimed
    ensures var w' := StepReleaseTarget(w, e);
            id in w'.ledger && (w'.ledger[id] == w.ledger[id] || ReleasedByTwo(w, e, id, w.ledger[id], w'.ledger[id]))
  {
    assert RowOk(w, id);
    if Lands(w, e) {
      LandedRow(H, w, e);
      var release := w.sessions[e.s].claimed;
      assert TaskOk(w, e.s, w.sessions[e.s]);
      assert IntentOk(H, release.intent);
    }
  }

  lemma ClaimKept(H: Digest, w: World, e: Event, id: Id)
    requires id in w.ledger && w.ledger[id].status == Claimed && id in w.past.issued && !Deletes(w, e, id)
    requires !e.TakeClaim? && !e.Finalize? && !e.ReleaseTarget? && !e.Insert?
    ensures id in Step(H, w, e).ledger && Step(H, w, e).ledger[id] == w.ledger[id]
  {
  }

  lemma ClaimFateStep(H: Digest, w: World, e: Event, id: Id)
    requires Inv(H, w) && id in w.ledger && w.ledger[id].status == Claimed
    ensures id !in Step(H, w, e).ledger <==> Deletes(w, e, id)
    ensures id in Step(H, w, e).ledger ==> ClaimFate(w, e, id, w.ledger[id], Step(H, w, e).ledger[id])
  {
    assert RowOk(w, id);
    DeletedIff(H, w, e, id);
    if e.TakeClaim? {
      RotationFate(H, w, e, id);
    } else if e.Finalize? {
      FinalizationFate(H, w, e, id);
    } else if e.ReleaseTarget? {
      ReleaseFate(H, w, e, id);
    } else if e.Insert? {
      InsertsNew(H, w, e, id);
    } else if !Deletes(w, e, id) {
      ClaimKept(H, w, e, id);
    }
  }

  /** In every run, each event leaves a live claim alone, deletes it from a retention list,
      rotates it, finalizes it or releases it. */
  lemma EveryClaimFate(H: Digest, es: seq<Event>, k: nat, id: Id)
    requires k < |es| && id in At(H, es, k).ledger && At(H, es, k).ledger[id].status == Claimed
    ensures id !in At(H, es, k + 1).ledger <==> Deletes(At(H, es, k), es[k], id)
    ensures id in At(H, es, k + 1).ledger ==>
              ClaimFate(At(H, es, k), es[k], id, At(H, es, k).ledger[id], At(H, es, k + 1).ledger[id])
  {
    RunKeeps(H, es[..k]);
    AtNext(H, es, k);
    ClaimFateStep(H, At(H, es, k), es[k], id);
  }

  /** Behind every rotation stands a call of the claiming credential that asked to resume the claim as it was then
      stored, through a route that can resume, and stated its target and hash. */
  lemma RotationBound(H: Digest, es: seq<Event>, k: nat, id: Id)
    requires k < |es| && id in At(H, es, k).ledger && id in At(H, es, k + 1).ledger
    requires Rotated(At(H, es, k), es[k], id, At(H, es, k).ledger[id], At(H, es, k + 1).ledger[id])
    ensures exists j :: 0 <= j < k && ResumedAt(H, es, j, At(H, es, k).sessions[es[k].s])
  {
    var task := At(H, es, k).sessions[es[k].s];
    RunBound(H, es[..k]);
    assert TaskBound(H, es[..k], task);
    var j :| 0 <= j < |es[..k]| && ResumedAt(H, es[..k], j, task);
    assert es[..k][..j] == es[..j];
    assert ResumedAt(H, es, j, task);
  }
}
