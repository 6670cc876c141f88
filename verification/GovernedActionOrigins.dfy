/**
 Where every stored action comes from: one event of the run drew its id, and the record holds
 exactly what that event asked for, whatever happened to the action since.
 */
module GovernedActionOrigins {
  import opened Wrappers
  import opened GovernedActions
  import opened GovernedActionSafety
  import opened GovernedActionOwnership

  /** The requester evidence is the caller's own, with its attribution and instant. */
  predicate AskedBy(r: Requester, caller: Caller, attribution: Option<string>, at: Instant) {
    r.app == caller.app && r.trust == caller.trust && r.key == caller.key && r.attribution == attribution && r.at == at
  }

  /** A verified caller submitted the action. */
  predicate Submitted(e: Event, id: Id, i: Intent) {
    && e.Submit? && e.id == id && e.caller.key.Some? && e.caller.key.value != "" && e.kind != ClaimRelease
    && i.actor == HumanApproved && i.kind == e.kind && i.target == e.target
    && i.payload == DomainFields(e.kind, e.fields) && AskedBy(i.requester, e.caller, e.attribution, e.now)
  }

  /** A verified caller, not the claimant, asked to release the claim that was then live on the target. */
  predicate ReleaseAsked(w: World, e: Event, id: Id, i: Intent) {
    && e.RequestRelease? && e.id == id && e.caller.key.Some? && e.caller.key.value != ""
    && i.actor == HumanApproved && i.kind == ClaimRelease && i.target == e.targetId
    && AskedBy(i.requester, e.caller, e.attribution, e.now)
    && e.targetId in w.ledger && w.ledger[e.targetId].status == Claimed
    && var target := w.ledger[e.targetId];
    && target.claimedAt.Some? && target.approver.Some? && e.caller.key != Some(target.approver.value.key)
    && i.payload == FrozenClaim(e.targetId, target.intent.hash, target.claimedAt.value, target.approver.value.key, e.reason)
  }

  /** A service recorded its own recovery. */
  predicate Recorded(e: Event, id: Id, i: Intent) {
    && e.RecordSystem? && e.id == id && e.kind == AsyncQueueRecovery
    && i.actor == SystemOriginated && i.kind == e.kind && i.target == e.target
    && i.payload == DomainFields(e.kind, e.fields)
    && i.requester == Requester(e.service, "service_runtime", None, None, e.now)
  }

  /** The event draws `id` for the intent `i`. */
  predicate Draws(H: Digest, w: World, e: Event, id: Id, i: Intent) {
    && id !in w.past.issued && i.hash == H(i.payload)
    && (Submitted(e, id, i) || ReleaseAsked(w, e, id, i) || Recorded(e, id, i))
  }

  ghost predicate DrawnAt(H: Digest, es: seq<Event>, k: nat, id: Id, i: Intent)
    requires k < |es|
  {
    Draws(H, At(H, es, k), es[k], id, i)
  }

  lemma IssuedByStep(H: Digest, w: World, e: Event, id: Id)
    requires id !in w.past.issued && id in Step(H, w, e).past.issued
    ensures Draws(H, w, e, id, Step(H, w, e).past.issued[id])
  {
    if e.Submit? {
      IssuedBySubmit(H, w, e, id);
    } else if e.RequestRelease? {
      IssuedByRelease(H, w, e, id);
    }
  }

  lemma IssuedBySubmit(H: Digest, w: World, e: Event, id: Id)
    requires e.Submit? && id !in w.past.issued && id in StepSubmit(H, w, e).past.issued
    ensures StepSubmit(H, w, e).past.issued[id].hash == H(StepSubmit(H, w, e).past.issued[id].payload)
    ensures Submitted(e, id, StepSubmit(H, w, e).past.issued[id])
  {
  }

  lemma IssuedByRelease(H: Digest, w: World, e: Event, id: Id)
    requires e.RequestRelease? && id !in w.past.issued && id in StepRequestRelease(H, w, e).past.issued
    ensures StepRequestRelease(H, w, e).past.issued[id].hash == H(StepRequestRelease(H, w, e).past.issued[id].payload)
    ensures ReleaseAsked(w, e, id, StepRequestRelease(H, w, e).past.issued[id])
  {
  }

  lemma {:induction false} IssuedOrigin(H: Digest, es: seq<Event>, n: nat, id: Id)
    requires n <= |es| && id in At(H, es, n).past.issued
    ensures exists k :: 0 <= k < n && DrawnAt(H, es, k, id, At(H, es, n).past.issued[id])
  {
    assert es[..0] == [];
    if n > 0 {
      AtNext(H, es, n - 1);
      if id in At(H, es, n - 1).past.issued {
        IssuedOrigin(H, es, n - 1, id);
        IssuedStays(H, At(H, es, n - 1), es[n - 1], id);
      } else {
        IssuedByStep(H, At(H, es, n - 1), es[n - 1], id);
        assert DrawnAt(H, es, n - 1, id, At(H, es, n).past.issued[id]);
      }
    }
  }

  /** After every run each stored action is what one event of the run asked for: the type, the target, the payload and
      the requester of a submission, the claim a release was asked for as it was then stored, or a service's record. */
  lemma StoredOrigin(H: Digest, es: seq<Event>, id: Id)
    requires id in Run(H, INITIAL, es).ledger
    ensures exists k :: 0 <= k < |es| && DrawnAt(H, es, k, id, Run(H, INITIAL, es).ledger[id].intent)
  {
    RunKeeps(H, es);
    assert es[..|es|] == es;
    assert RowOk(Run(H, INITIAL, es), id);
    IssuedOrigin(H, es, |es|, id);
  }
}
