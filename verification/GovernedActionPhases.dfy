/**
 What the calls of the protocol achieve when nothing interferes: a request is stored and
 supersedes the pending action it found, an approval claims, a claim is executed and recorded,
 a release restores its target, a claimant resumes, and a service's own record is complete.
 */
module GovernedActionPhases {
  import opened Wrappers
  import opened GovernedActions
  import opened GovernedActionSafety
  import opened GovernedActionOwnership
  import opened GovernedActionApproval

  // ----- requests -----

  function IntentOf(H: Digest, kind: ActionType, target: string, payload: Payload, caller: Caller,
                    attribution: Option<string>, at: Instant): Intent
  {
    Intent(kind, HumanApproved, target, H(payload), payload,
           Requester(caller.app, caller.trust, caller.key, attribution, at))
  }

  /** `id` is stored pending, and session `s` is over. */
  function Requested(w: World, s: SessionId, id: Id, i: Intent): World {
    World(w.ledger[id := PendingRecord(i)], w.sessions,
          w.past.(issued := w.past.issued[id := i], drawnBy := w.past.drawnBy[id := s], stored := w.past.stored + {id}))
  }

  /** The pending action found before is superseded by `id`. */
  function Superseding(w: World, prior: Option<Id>, id: Id): World {
    if prior.Some? && prior.value in w.ledger
    then w.(ledger := w.ledger[prior.value := w.ledger[prior.value].(status := Superseded, supersededBy := Some(id))])
    else w
  }

  function Drawn(w: World, s: SessionId, id: Id, i: Intent): World {
    w.(sessions := w.sessions[s := Drafted(id, PendingRecord(i))],
       past := w.past.(issued := w.past.issued[id := i], drawnBy := w.past.drawnBy[id := s]))
  }

  /** The store answers the search for a pending action of the type and target with `prior`. */
  ghost predicate Finds(w: World, i: Intent, prior: Option<Id>) {
    match prior
    case None => forall p :: p in w.ledger ==> !PendingFor(w.ledger[p], i.kind, i.target)
    case Some(p) => p in w.ledger && PendingFor(w.ledger[p], i.kind, i.target)
  }

  function StoreEvents(s: SessionId, prior: Option<Id>): seq<Event> {
    [ReadPrior(s, prior), SupersedePrior(s), Insert(s)]
  }

  lemma StorePhase(H: Digest, w: World, s: SessionId, id: Id, i: Intent, prior: Option<Id>)
    requires s !in w.sessions && Finds(w, i, prior)
    ensures Run(H, Drawn(w, s, id, i), StoreEvents(s, prior)) == Requested(Superseding(w, prior, id), s, id, i)
  {
    var w0 := Drawn(w, s, id, i);
    var w1, w2 := Searched(w, s, id, i, prior), Cleared(w, s, id, i, prior);
    SearchStep(w, s, id, i, prior);
    ClearStep(w, s, id, i, prior);
    assert StepInsert(w2, Insert(s)).sessions == w.sessions;
    ThreeEvents(H, w0, w1, w2, ReadPrior(s, prior), SupersedePrior(s), Insert(s));
  }

  /** The call has searched, and found `prior`. */
  function Searched(w: World, s: SessionId, id: Id, i: Intent, prior: Option<Id>): World {
    var seen := if prior.Some? && prior.value in w.ledger then Some((prior.value, w.ledger[prior.value])) else None;
    Drawn(w, s, id, i).(sessions := w.sessions[s := PriorRead(id, PendingRecord(i), seen)])
  }

  /** It has superseded what it found. */
  function Cleared(w: World, s: SessionId, id: Id, i: Intent, prior: Option<Id>): World {
    Drawn(Superseding(w, prior, id), s, id, i).(sessions := w.sessions[s := Inserting(id, PendingRecord(i))])
  }

  lemma SearchStep(w: World, s: SessionId, id: Id, i: Intent, prior: Option<Id>)
    requires s !in w.sessions && Finds(w, i, prior)
    ensures StepReadPrior(Drawn(w, s, id, i), ReadPrior(s, prior)) == Searched(w, s, id, i, prior)
  {
    assert w.sessions[s := Drafted(id, PendingRecord(i))][s := Searched(w, s, id, i, prior).sessions[s]]
        == Searched(w, s, id, i, prior).sessions;
  }

  lemma ClearStep(w: World, s: SessionId, id: Id, i: Intent, prior: Option<Id>)
    requires s !in w.sessions && Finds(w, i, prior)
    ensures StepSupersede(Searched(w, s, id, i, prior), SupersedePrior(s)) == Cleared(w, s, id, i, prior)
  {
    var before, after := Searched(w, s, id, i, prior), Cleared(w, s, id, i, prior);
    assert before.sessions[s := Inserting(id, PendingRecord(i))] == after.sessions;
  }

  function SubmitEvents(s: SessionId, id: Id, caller: Caller, kind: ActionType, target: string,
                        fields: map<string, Option<string>>, attribution: Option<string>, at: Instant, prior: Option<Id>)
    : seq<Event>
  {
    [Submit(s, id, caller, kind, target, fields, attribution, at)] + StoreEvents(s, prior)
  }

  /** A verified caller's submission stores exactly what was submitted, and supersedes the pending action it found. */
  lemma SubmitPhase(H: Digest, w: World, s: SessionId, id: Id, caller: Caller, kind: ActionType, target: string,
                    fields: map<string, Option<string>>, attribution: Option<string>, at: Instant, prior: Option<Id>)
    requires s !in w.sessions && id !in w.past.issued && caller.key.Some? && caller.key.value != "" && kind != ClaimRelease
    requires Finds(w, IntentOf(H, kind, target, DomainFields(kind, fields), caller, attribution, at), prior)
    ensures Run(H, w, SubmitEvents(s, id, caller, kind, target, fields, attribution, at, prior))
            == Requested(Superseding(w, prior, id), s, id,
                         IntentOf(H, kind, target, DomainFields(kind, fields), caller, attribution, at))
  {
    var i := IntentOf(H, kind, target, DomainFields(kind, fields), caller, attribution, at);
    var e := Submit(s, id, caller, kind, target, fields, attribution, at);
    assert StepSubmit(H, w, e) == Drawn(w, s, id, i);
    FirstEvent(H, w, e, Drawn(w, s, id, i), StoreEvents(s, prior));
    StorePhase(H, w, s, id, i, prior);
  }

  function PinOf(target: Id, r: Record, reason: string): Payload {
    if r.claimedAt.Some? && r.approver.Some?
    then FrozenClaim(target, r.intent.hash, r.claimedAt.value, r.approver.value.key, reason)
    else VanishedClaim(target, reason)
  }

  function ReleaseRequestEvents(s: SessionId, id: Id, caller: Caller, target: Id, reason: string,
                                attribution: Option<string>, at: Instant, prior: Option<Id>): seq<Event>
  {
    [RequestRelease(s, id, caller, target, reason, attribution, at)] + StoreEvents(s, prior)
  }

  /** A verified caller other than the claimant can ask for the release of a live claim. */
  lemma ReleaseRequestPhase(H: Digest, w: World, s: SessionId, id: Id, caller: Caller, target: Id, reason: string,
                            attribution: Option<string>, at: Instant, prior: Option<Id>)
    requires s !in w.sessions && id !in w.past.issued && caller.key.Some? && caller.key.value != ""
    requires target in w.ledger && w.ledger[target].status == Claimed && w.ledger[target].claimedAt.Some?
    requires w.ledger[target].approver.Some? && caller.key != Some(w.ledger[target].approver.value.key)
    requires Finds(w, IntentOf(H, ClaimRelease, target,
                               PinOf(target, w.ledger[target], reason), caller, attribution, at), prior)
    ensures Run(H, w, ReleaseRequestEvents(s, id, caller, target, reason, attribution, at, prior))
            == Requested(Superseding(w, prior, id), s, id,
                         IntentOf(H, ClaimRelease, target, PinOf(target, w.ledger[target], reason), caller, attribution, at))
  {
    var i := IntentOf(H, ClaimRelease, target, PinOf(target, w.ledger[target], reason), caller, attribution, at);
    var e := RequestRelease(s, id, caller, target, reason, attribution, at);
    assert StepRequestRelease(H, w, e) == Drawn(w, s, id, i);
    FirstEvent(H, w, e, Drawn(w, s, id, i), StoreEvents(s, prior));
    StorePhase(H, w, s, id, i, prior);
  }

  // ----- approval and execution -----

  function SignedBy(caller: Caller, attribution: Option<string>, now: Instant): Approver {
    Approver(caller.app, caller.trust, if caller.key.Some? then caller.key.value else "", attribution, now)
  }

  /** Session `s` holds the claim that `approver` took at `now`. */
  function ClaimedFor(w: World, s: SessionId, id: Id, i: Intent, approver: Approver, now: Instant): World {
    var r := ClaimedRecord(i, approver, now);
    w.(ledger := w.ledger[id := r], sessions := w.sessions[s := Holding(id, i.kind, r)],
       past := w.past.(grants := w.past.grants + {Grant(id, now, approver)}))
  }

  function ApproveEvents(s: SessionId, id: Id, i: Intent, caller: Caller, attribution: Option<string>, now: Instant)
    : seq<Event>
  {
    [Validate(s, i.kind, id, caller, attribution, i.target, i.hash, i.payload, false), TakeClaim(s, now)]
  }

  /** A verified caller other than the requester, and for a release other than the pinned one, claims a pending action. */
  predicate MayApprove(i: Intent, caller: Caller) {
    && caller.key.Some? && caller.key.value != "" && i.requester.key != caller.key
    && (i.kind == ClaimRelease && i.payload.FrozenClaim? ==> caller.key != Some(i.payload.frozenKey))
  }

  lemma ApprovePhase(H: Digest, w: World, s: SessionId, id: Id, i: Intent, caller: Caller, attribution: Option<string>,
                     now: Instant)
    requires s !in w.sessions && id in w.ledger && w.ledger[id] == PendingRecord(i) && IntentOk(H, i)
    requires i.actor == HumanApproved && i.kind != AsyncQueueRecovery && MayApprove(i, caller)
    ensures Run(H, w, ApproveEvents(s, id, i, caller, attribution, now))
            == ClaimedFor(w, s, id, i, SignedBy(caller, attribution, now), now)
  {
    var e, take := ApproveEvents(s, id, i, caller, attribution, now)[0], TakeClaim(s, now);
    assert CheckApproval(H, w.ledger, e.route, id, e.caller, e.expectedTarget, e.expectedHash, e.live, false) == Ok(false);
    var task := Approving(id, i.kind, caller, attribution, PendingRecord(i), false);
    var w1 := w.(sessions := w.sessions[s := task]);
    assert StepValidate(H, w, e) == w1;
    assert ClaimWrite(task, now) == ClaimedRecord(i, SignedBy(caller, attribution, now), now);
    var w2 := StepTakeClaim(w1, take);
    assert w2.sessions == w.sessions[s := Holding(id, i.kind, ClaimedRecord(i, SignedBy(caller, attribution, now), now))];
    TwoEvents(H, w, w1, w2, e, take);
  }

  /** The action is recorded as executed by the effect of its own type, and session `s` is over. */
  function ExecutedFor(w: World, s: SessionId, id: Id, claimed: Record, at: Instant, result: Option<string>): World {
    World(w.ledger[id := claimed.(status := Executed, executedAt := Some(at), result := result)], w.sessions - {s},
          w.past.(ranBy := w.past.ranBy[id := claimed.intent.kind]))
  }

  /** A held action of any type but a release runs its effect and is recorded. */
  lemma ExecutePhase(H: Digest, w: World, s: SessionId, id: Id, claimed: Record, at: Instant, result: Option<string>)
    requires s in w.sessions && w.sessions[s] == Holding(id, claimed.intent.kind, claimed)
    requires id in w.ledger && w.ledger[id] == claimed && claimed.status == Claimed
    requires claimed.intent.kind != ClaimRelease && claimed.intent.kind == Tag(claimed.intent.payload)
    ensures Run(H, w, [RunEffect(s), Finalize(s, at, result)]) == ExecutedFor(w, s, id, claimed, at, result)
  {
    var w1 := w.(sessions := w.sessions[s := Effected(id, claimed.intent.kind, claimed)]);
    assert StepRunEffect(w, RunEffect(s)) == w1;
    var w2 := StepFinalize(w1, Finalize(s, at, result));
    assert w2.sessions == w.sessions - {s};
    TwoEvents(H, w, w1, w2, RunEffect(s), Finalize(s, at, result));
  }

  /** Approved and undisturbed, a pending action of any type but a release is executed, and its record holds the intent,
      the approver, both instants and the result. */
  lemma ApprovalExecutes(H: Digest, w: World, s: SessionId, id: Id, i: Intent, caller: Caller, attribution: Option<string>,
                         now: Instant, at: Instant, result: Option<string>)
    requires s !in w.sessions && id in w.ledger && w.ledger[id] == PendingRecord(i) && IntentOk(H, i)
    requires i.actor == HumanApproved && i.kind != AsyncQueueRecovery && i.kind != ClaimRelease && MayApprove(i, caller)
    ensures var w' := Run(H, w, ApproveEvents(s, id, i, caller, attribution, now) + [RunEffect(s), Finalize(s, at, result)]);
            && id in w'.ledger && s !in w'.sessions
            && w'.ledger[id] == Record(i, Executed,
                                 Some(SignedBy(caller, attribution, now)), Some(now), Some(at), result, None)
  {
    var held := ClaimedFor(w, s, id, i, SignedBy(caller, attribution, now), now);
    ApprovePhase(H, w, s, id, i, caller, attribution, now);
    ExecutePhase(H, held, s, id, held.ledger[id], at, result);
    RunConcat(H, w, ApproveEvents(s, id, i, caller, attribution, now), [RunEffect(s), Finalize(s, at, result)]);
  }

  // ----- releases -----

  function LandEvents(s: SessionId): seq<Event> {
    [ReadTarget(s), ReleaseTarget(s)]
  }

  /** The target is pending again, and session `s` is past its effect. */
  function LandedBy(w: World, s: SessionId, id: Id, claimed: Record, target: Id): World
    requires target in w.ledger
  {
    w.(ledger := w.ledger[target := PendingRecord(w.ledger[target].intent)],
       sessions := w.sessions[s := Effected(id, ClaimRelease, claimed)])
  }

  lemma LandPhase(H: Digest, w: World, s: SessionId, id: Id, claimed: Record, i: Intent, approver: Approver, at: Instant)
    requires s in w.sessions && w.sessions[s] == Holding(id, ClaimRelease, claimed) && claimed.intent.payload.FrozenClaim?
    requires claimed.intent.payload.targetId in w.ledger && claimed.intent.payload.claimedAt == at
    requires w.ledger[claimed.intent.payload.targetId] == ClaimedRecord(i, approver, at)
    ensures Run(H, w, LandEvents(s)) == LandedBy(w, s, id, claimed, claimed.intent.payload.targetId)
  {
    var target := claimed.intent.payload.targetId;
    var w1 := w.(sessions := w.sessions[s := TargetRead(id, ClaimRelease, claimed, w.ledger[target])]);
    assert StepReadTarget(w, ReadTarget(s)) == w1;
    var w2 := StepReleaseTarget(w1, ReleaseTarget(s));
    assert w2.sessions == w.sessions[s := Effected(id, ClaimRelease, claimed)];
    TwoEvents(H, w, w1, w2, ReadTarget(s), ReleaseTarget(s));
  }

  // ----- a service's own record -----

  /** A service's recovery is stored executed at once, with nothing left out. */
  lemma RecordPhase(H: Digest, w: World, id: Id, service: string, target: string, fields: map<string, Option<string>>,
                    now: Instant)
    requires id !in w.past.issued
    ensures var w' := Step(H, w, RecordSystem(id, service, AsyncQueueRecovery, target, fields, now));
            var payload := DomainFields(AsyncQueueRecovery, fields);
            && w'.sessions == w.sessions && w'.past.issued.Keys == w.past.issued.Keys + {id}
            && w'.ledger == w.ledger[id := Record(
                 Intent(AsyncQueueRecovery, SystemOriginated, target, H(payload), payload,
                        Requester(service, "service_runtime", None, None, now)),
                 Executed, None, None, Some(now), None, None)]
  {
  }
}
