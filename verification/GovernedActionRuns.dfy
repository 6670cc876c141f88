/**
 Concrete runs of the protocol. Each shows that a condition under which a promise is proved
 is needed: the runs below break the promise, and every event in them is a step of the code.
 */
module GovernedActionRuns {
  import opened Wrappers
  import opened GovernedActions
  import opened GovernedActionSafety
  import opened GovernedActionOwnership
  import opened GovernedActionApproval
  import opened GovernedActionFates
  import opened GovernedActionEvidence
  import opened GovernedActionUniqueness
  import opened GovernedActionRoutes
  import opened GovernedActionReleases
  import opened GovernedActionPhases

  // ----- the callers of the runs below -----

  function Who(key: Key): Caller {
    Caller("operator-service", "verified_service_jwt", Some(key))
  }

  function Asked(H: Digest, kind: ActionType, target: string, payload: Payload, key: Key): Intent {
    IntentOf(H, kind, target, payload, Who(key), None, "t0")
  }

  function Signed(key: Key, now: Instant): Approver {
    SignedBy(Who(key), None, now)
  }

  function PinOn(w: World, target: Id): Payload {
    if target in w.ledger then PinOf(target, w.ledger[target], "credential lost")
    else VanishedClaim(target, "credential lost")
  }

  function ClaimedBy(w: World, s: SessionId, id: Id, i: Intent, key: Key, now: Instant): World {
    ClaimedFor(w, s, id, i, Signed(key, now), now)
  }

  // ----- reachable worlds, phase by phase -----

  /** Some run from the empty store ends in `w`, and no approval in it rebuilds a colliding payload. */
  ghost predicate Reachable(H: Digest, w: World) {
    exists es :: TagsApart(H, es) && Run(H, INITIAL, es) == w
  }

  lemma Extends(H: Digest, w: World, es: seq<Event>, v: World)
    requires Reachable(H, w) && Run(H, w, es) == v && ApartFrom(H, w, es)
    ensures Reachable(H, v)
  {
    var before :| TagsApart(H, before) && Run(H, INITIAL, before) == w;
    RunConcat(H, INITIAL, before, es);
    ApartConcat(H, INITIAL, before, w, es);
    assert TagsApart(H, before + es) && Run(H, INITIAL, before + es) == v;
  }

  lemma ExtendsByOne(H: Digest, w: World, e: Event, v: World)
    requires Reachable(H, w) && Step(H, w, e) == v && !e.Validate?
    ensures Reachable(H, v)
  {
    RunNext(H, w, [], e, w);
    assert [] + [e] == [e];
    Extends(H, w, [e], v);
  }

  lemma StartReachable(H: Digest)
    ensures Reachable(H, INITIAL)
  {
    assert TagsApart(H, []) && Run(H, INITIAL, []) == INITIAL;
  }

  lemma ReachableKeeps(H: Digest, w: World)
    requires Reachable(H, w)
    ensures Inv(H, w)
  {
    var es :| TagsApart(H, es) && Run(H, INITIAL, es) == w;
    RunKeeps(H, es);
  }

  lemma RequestReachable(H: Digest, w: World, s: SessionId, id: Id, kind: ActionType, target: string, key: Key)
    requires Reachable(H, w) && s !in w.sessions && id !in w.past.issued && key != "" && !kind.ClaimRelease?
    requires forall p :: p in w.ledger ==> !PendingFor(w.ledger[p], kind, target)
    ensures Reachable(H, Requested(w, s, id, Asked(H, kind, target, DomainFields(kind, map[]), key)))
  {
    SubmitPhase(H, w, s, id, Who(key), kind, target, map[], None, "t0", None);
    Extends(H, w, SubmitEvents(s, id, Who(key), kind, target, map[], None, "t0", None),
            Requested(w, s, id, Asked(H, kind, target, DomainFields(kind, map[]), key)));
  }

  lemma ReleaseRequestReachable(H: Digest, w: World, s: SessionId, id: Id, target: Id, key: Key)
    requires Reachable(H, w) && s !in w.sessions && id !in w.past.issued && key != ""
    requires target in w.ledger && w.ledger[target].status == Claimed && PinOn(w, target).FrozenClaim?
    requires w.ledger[target].approver != None && key != w.ledger[target].approver.value.key
    requires forall p :: p in w.ledger ==> !PendingFor(w.ledger[p], ClaimRelease, target)
    ensures Reachable(H, Requested(w, s, id, Asked(H, ClaimRelease, target, PinOn(w, target), key)))
  {
    ReleaseRequestPhase(H, w, s, id, Who(key), target, "credential lost", None, "t0", None);
    Extends(H, w, ReleaseRequestEvents(s, id, Who(key), target, "credential lost", None, "t0", None),
            Requested(w, s, id, Asked(H, ClaimRelease, target, PinOn(w, target), key)));
  }

  lemma ClaimReachable(H: Digest, w: World, s: SessionId, id: Id, i: Intent, key: Key, now: Instant)
    requires Reachable(H, w) && s !in w.sessions && id in w.ledger && w.ledger[id] == PendingRecord(i) && IntentOk(H, i)
    requires i.actor == HumanApproved && !i.kind.AsyncQueueRecovery? && key != "" && i.requester.key != Some(key)
    requires i.kind.ClaimRelease? ==> key != i.payload.frozenKey
    ensures Reachable(H, ClaimedBy(w, s, id, i, key, now))
  {
    ApprovePhase(H, w, s, id, i, Who(key), None, now);
    var es := ApproveEvents(s, id, i, Who(key), None, now);
    ApartAround(H, w, es[0], [TakeClaim(s, now)]);
    assert es == [es[0]] + [TakeClaim(s, now)];
    Extends(H, w, es, ClaimedBy(w, s, id, i, key, now));
  }

  lemma LandReachable(H: Digest, w: World, s: SessionId, id: Id, claimed: Record, i: Intent, approver: Approver, at: Instant)
    requires Reachable(H, w) && s in w.sessions && w.sessions[s] == Holding(id, ClaimRelease, claimed)
    requires claimed.intent.payload.FrozenClaim? && claimed.intent.payload.claimedAt == at
    requires claimed.intent.payload.targetId in w.ledger
    requires w.ledger[claimed.intent.payload.targetId] == ClaimedRecord(i, approver, at)
    ensures Reachable(H, LandedBy(w, s, id, claimed, claimed.intent.payload.targetId))
  {
    LandPhase(H, w, s, id, claimed, i, approver, at);
    Extends(H, w, LandEvents(s), LandedBy(w, s, id, claimed, claimed.intent.payload.targetId));
  }

  // ----- the opening: an action "act" requested by "a" and claimed by "b" at "t1" -----

  function Ask(H: Digest, kind: ActionType): Intent {
    Asked(H, kind, "tenant", DomainFields(kind, map[]), "a")
  }

  function Opened(H: Digest, kind: ActionType): World {
    ClaimedBy(Requested(INITIAL, 0, "act", Ask(H, kind)), 1, "act", Ask(H, kind), "b", "t1")
  }

  lemma OpenedReachable(H: Digest, kind: ActionType)
    requires !kind.ClaimRelease? && !kind.AsyncQueueRecovery?
    ensures Reachable(H, Opened(H, kind))
  {
    StartReachable(H);
    RequestReachable(H, INITIAL, 0, "act", kind, "tenant", "a");
    ClaimReachable(H, Requested(INITIAL, 0, "act", Ask(H, kind)), 1, "act", Ask(H, kind), "b", "t1");
  }

  // ----- a claim instant that comes back by rotation -----

  lemma TakenOverReachable(H: Digest, w: World, s: SessionId, id: Id, now: Instant)
    requires Reachable(H, w) && id in w.ledger && w.ledger[id].status == Claimed && s !in w.sessions
    requires w.ledger[id].claimedAt != Some(now)
    ensures w.ledger[id].approver.Some? && Reachable(H, TakenOver(w, s, DataErasure, id, now))
  {
    ReachableKeeps(H, w);
    ResumePhase(H, w, s, DataErasure, id, now);
    var call := ResumeCall(s, DataErasure, id, w.ledger[id]);
    ApartAround(H, w, call, [TakeClaim(s, now)]);
    assert ResumeEvents(s, DataErasure, id, w.ledger[id], now) == [call] + [TakeClaim(s, now)];
    Extends(H, w, ResumeEvents(s, DataErasure, id, w.ledger[id], now), TakenOver(w, s, DataErasure, id, now));
  }

  /** A claim of session 1 taken over at "t2" and again at "t1": sessions 1 and 3 both own the action. */
  lemma TwoOwners(H: Digest) returns (w: World)
    ensures Reachable(H, w) && Owns(w, 1, "act") && Owns(w, 3, "act") && !Exclusive(w)
  {
    var w0 := Opened(H, DataErasure);
    OpenedReachable(H, DataErasure);
    TakenOverReachable(H, w0, 2, "act", "t2");
    var w1 := TakenOver(w0, 2, DataErasure, "act", "t2");
    TakenOverReachable(H, w1, 3, "act", "t1");
    w := TakenOver(w1, 3, DataErasure, "act", "t1");
    assert Owns(w, 1, "act") && Owns(w, 3, "act");
  }

  // ----- a release of that claim -----

  /** A release of the claim on "act" by `q`, claimed by `p` at `now` in session `s`. */
  function Held(H: Digest, w: World, s: SessionId, id: Id, q: Key, p: Key, now: Instant): World {
    var i := Asked(H, ClaimRelease, "act", PinOn(w, "act"), q);
    ClaimedBy(Requested(w, s, id, i), s, id, i, p, now)
  }

  lemma HeldReachable(H: Digest, w: World, s: SessionId, id: Id, q: Key, p: Key, now: Instant)
    requires Reachable(H, w) && s !in w.sessions && id !in w.past.issued && id != "act" && q != "" && p != "" && q != p
    requires "act" in w.ledger && w.ledger["act"].status == Claimed && PinOn(w, "act").FrozenClaim?
    requires q != PinOn(w, "act").frozenKey && p != PinOn(w, "act").frozenKey
    requires forall a :: a in w.ledger ==> !PendingFor(w.ledger[a], ClaimRelease, "act")
    ensures Reachable(H, Held(H, w, s, id, q, p, now))
  {
    var i := Asked(H, ClaimRelease, "act", PinOn(w, "act"), q);
    ReleaseRequestReachable(H, w, s, id, "act", q);
    ClaimReachable(H, Requested(w, s, id, i), s, id, i, p, now);
  }

  /** Such a release, landed. */
  function ReleasedBy(H: Digest, w: World, s: SessionId, id: Id, q: Key, p: Key, now: Instant): World
    requires "act" in w.ledger
  {
    var v := Held(H, w, s, id, q, p, now);
    LandedBy(v, s, id, v.ledger[id], "act")
  }

  lemma ReleasedReachable(H: Digest, w: World, s: SessionId, id: Id, q: Key, p: Key, now: Instant, i: Intent, k: Key,
                          at: Instant)
    requires Reachable(H, w) && s !in w.sessions && id !in w.past.issued && id != "act" && q != "" && p != "" && q != p
    requires "act" in w.ledger && w.ledger["act"] == ClaimedRecord(i, Signed(k, at), at) && q != k && p != k
    requires forall a :: a in w.ledger ==> !PendingFor(w.ledger[a], ClaimRelease, "act")
    ensures Reachable(H, ReleasedBy(H, w, s, id, q, p, now))
  {
    HeldReachable(H, w, s, id, q, p, now);
    var v := Held(H, w, s, id, q, p, now);
    LandReachable(H, v, s, id, v.ledger[id], i, Signed(k, at), at);
  }

  // ----- a crash behind the effect strands the release -----

  function OnceReleased(H: Digest): World {
    ReleasedBy(H, Opened(H, DataErasure), 2, "rel", "c", "d", "t2")
  }

  lemma OnceReleasedReachable(H: Digest)
    ensures Reachable(H, OnceReleased(H))
  {
    OpenedReachable(H, DataErasure);
    ReleasedReachable(H, Opened(H, DataErasure), 2, "rel", "c", "d", "t2", Ask(H, DataErasure), "b", "t1");
  }

  function StrandedWorld(H: Digest): World {
    SessionOver(OnceReleased(H), 2)
  }

  lemma StrandedEnds(H: Digest)
    ensures var w := StrandedWorld(H);
            && "rel" in w.ledger && w.ledger["rel"].status == Claimed && w.ledger["rel"].intent.kind.ClaimRelease?
            && Stranded(w, "rel", w.ledger["rel"].intent.payload)
  {
    var w := StrandedWorld(H);
    assert w.ledger["rel"].intent.payload == FrozenClaim("act", Ask(H, DataErasure).hash, "t1", "b", "credential lost");
    assert Grant("act", "t1", Signed("b", "t1")) in w.past.grants;
    assert w.ledger["act"].status == Pending;
    assert forall s :: s in w.sessions ==> s == 1 && w.sessions[s].id == "act";
  }

  /** Without a new call through another route a stranded release is never executed; with an erasure call it is. */
  lemma StrandedEscape(H: Digest, w: World, id: Id) returns (more: seq<Event>)
    requires Inv(H, w) && id in w.ledger && w.ledger[id].status == Claimed && Stranded(w, id, w.ledger[id].intent.payload)
    ensures !Executable(H, w, id)
    ensures IsExecuted(Run(H, w, more), id) && id in Run(H, w, more).past.ranBy &&
          Run(H, w, more).past.ranBy[id] == DataErasure
  {
    forall es | FreshFrom(H, w, es) && OwnRoutes(es, id) ensures !IsExecuted(Run(H, w, es), id) {
      StrandedForever(H, w, es, id, w.ledger[id].intent.payload);
    }
    more := ErasureExecutesAny(H, w, id);
  }

  /** The release by "c" and "d" lands and its call crashes: the release is claimed and stranded. */
  lemma StrandedRun(H: Digest) returns (w: World)
    ensures Reachable(H, w) && "rel" in w.ledger && w.ledger["rel"].status == Claimed
    ensures w.ledger["rel"].intent.kind.ClaimRelease? && Stranded(w, "rel", w.ledger["rel"].intent.payload)
  {
    w := StrandedWorld(H);
    OnceReleasedReachable(H);
    ExtendsByOne(H, OnceReleased(H), Crash(2), w);
    StrandedEnds(H);
  }

  // ----- a retention list outlives the claim it was made under -----

  function ListedWorld(H: Digest): World {
    var w := Opened(H, DataErasure);
    w.(sessions := w.sessions[9 := Expiring({"act"})])
  }

  lemma ListedReachable(H: Digest)
    ensures Reachable(H, ListedWorld(H))
  {
    var w := Opened(H, DataErasure);
    OpenedReachable(H, DataErasure);
    assert StepListExpired(w, ListExpired(9, {"act"})) == ListedWorld(H);
    ExtendsByOne(H, w, ListExpired(9, {"act"}), ListedWorld(H));
  }

  /** Listed while claimed, then released: the next deletion loses a pending action. */
  lemma PendingLost(H: Digest) returns (w: World)
    ensures Reachable(H, w) && "act" in w.ledger && w.ledger["act"].status == Pending
    ensures "act" !in Step(H, w, DeleteListed(9, {"act"})).ledger
  {
    ListedReachable(H);
    ReleasedReachable(H, ListedWorld(H), 2, "rel", "c", "d", "t2", Ask(H, DataErasure), "b", "t1");
    w := ReleasedBy(H, ListedWorld(H), 2, "rel", "c", "d", "t2");
    assert Deletes(w, DeleteListed(9, {"act"}), "act");
    DeletedIff(H, w, DeleteListed(9, {"act"}), "act");
  }

  // ----- a claim instant that comes back after a release -----

  /** "act" is claimed again, by `key` at "t1", in session 5. */
  function Reclaimed(H: Digest, w: World, key: Key): World {
    ClaimedBy(w, 5, "act", Ask(H, DataErasure), key, "t1")
  }

  lemma ReclaimedReachable(H: Digest, w: World, key: Key)
    requires Reachable(H, w) && 5 !in w.sessions && "act" in w.ledger &&
          w.ledger["act"] == PendingRecord(Ask(H, DataErasure))
    requires key != "" && key != "a"
    ensures Reachable(H, Reclaimed(H, w, key))
  {
    ClaimReachable(H, w, 5, "act", Ask(H, DataErasure), key, "t1");
  }

  lemma OnceReleasedShape(H: Digest)
    ensures var w, i := OnceReleased(H), Ask(H, DataErasure);
            && 5 !in w.sessions && "act" in w.ledger && w.ledger["act"] == PendingRecord(i)
            && 1 in w.sessions && w.sessions[1] == Holding("act", DataErasure, ClaimedRecord(i, Signed("b", "t1"), "t1"))
  {
  }

  /** The old executor of session 1, past its effect, with "f" holding the live claim at the same instant. */
  lemma StaleOwner(H: Digest, w: World)
    requires Reachable(H, w) && 5 !in w.sessions && "act" in w.ledger &&
          w.ledger["act"] == PendingRecord(Ask(H, DataErasure))
    requires 1 in w.sessions
    requires w.sessions[1] == Holding("act", DataErasure, ClaimedRecord(Ask(H, DataErasure), Signed("b", "t1"), "t1"))
    ensures var w2 := StepRunEffect(Reclaimed(H, w, "f"), RunEffect(1));
            var w3 := StepFinalize(w2, Finalize(1, "t3", None));
            && Reachable(H, w2) && Owns(w2, 1, "act") && w2.ledger["act"].approver == Some(Signed("f", "t1"))
            && "act" in w3.ledger && w3.ledger["act"].status == Executed &&
                  w3.ledger["act"].approver == Some(Signed("b", "t1"))
  {
    ReclaimedReachable(H, w, "f");
    var w1 := Reclaimed(H, w, "f");
    ExtendsByOne(H, w1, RunEffect(1), StepRunEffect(w1, RunEffect(1)));
    StaleFinalizes(w1, 1, "act", Ask(H, DataErasure), Signed("b", "t1"), "t1");
  }

  /** Released and claimed again by "f" at "t1": the old executor finalizes, over the live claim's approver. */
  lemma FinalizedForAnother(H: Digest) returns (w: World)
    ensures Reachable(H, w) && Owns(w, 1, "act") && w.ledger["act"].approver == Some(Signed("f", "t1"))
    ensures var w' := StepFinalize(w, Finalize(1, "t3", None));
            "act" in w'.ledger && w'.ledger["act"].status == Executed && w'.ledger["act"].approver == Some(Signed("b", "t1"))
  {
    OnceReleasedReachable(H);
    OnceReleasedShape(H);
    StaleOwner(H, OnceReleased(H));
    w := StepRunEffect(Reclaimed(H, OnceReleased(H), "f"), RunEffect(1));
  }

  lemma StaleFinalizes(w: World, s: SessionId, id: Id, i: Intent, approver: Approver, at: Instant)
    requires s in w.sessions && w.sessions[s] == Holding(id, DataErasure, ClaimedRecord(i, approver, at))
    requires id in w.ledger && w.ledger[id].status == Claimed && w.ledger[id].claimedAt == Some(at)
    ensures var w1 := StepRunEffect(w, RunEffect(s));
            var w2 := StepFinalize(w1, Finalize(s, "t3", None));
            && w1.ledger == w.ledger && Owns(w1, s, id)
            && id in w2.ledger && w2.ledger[id].status == Executed && w2.ledger[id].approver == Some(approver)
  {
  }

  function OnceHeld(H: Digest): World {
    Held(H, Opened(H, DataErasure), 2, "rel", "c", "d", "t2")
  }

  lemma OnceHeldReachable(H: Digest)
    ensures Reachable(H, OnceHeld(H))
  {
    OpenedReachable(H, DataErasure);
    HeldReachable(H, Opened(H, DataErasure), 2, "rel", "c", "d", "t2");
  }

  /** The claim is released by another pair while session 2 still holds its own release. */
  function TwiceAsked(H: Digest): World {
    ReleasedBy(H, OnceHeld(H), 3, "rel2", "x", "y", "t3")
  }

  lemma TwiceAskedReachable(H: Digest)
    ensures Reachable(H, TwiceAsked(H))
  {
    OnceHeldReachable(H);
    ReleasedReachable(H, OnceHeld(H), 3, "rel2", "x", "y", "t3", Ask(H, DataErasure), "b", "t1");
  }

  lemma TwiceAskedShape(H: Digest)
    ensures var w, i := TwiceAsked(H), Ask(H, DataErasure);
            && 5 !in w.sessions && "act" in w.ledger && w.ledger["act"] == PendingRecord(i)
            && 2 in w.sessions && w.sessions[2].Holding? && w.sessions[2].route.ClaimRelease?
            && w.sessions[2].claimed.intent == Asked(H, ClaimRelease, "act", PinOn(Opened(H, DataErasure), "act"), "c")
            && PinOn(Opened(H, DataErasure), "act") == FrozenClaim("act", i.hash, "t1", "b", "credential lost")
  {
  }

  /** Then "c" claims the action again at "t1", and the release that "c" requested lands on that claim. */
  lemma ReleasedByClaimant(H: Digest) returns (w: World)
    ensures Reachable(H, w) && Lands(w, ReleaseTarget(2)) && "act" in w.ledger
    ensures w.sessions[2].claimed.intent.payload.targetId == "act"
    ensures Claimant(w.ledger["act"], w.sessions[2].claimed.intent.requester.key)
    ensures !ByTwoOthers(w, ReleaseTarget(2), w.ledger["act"])
  {
    TwiceAskedReachable(H);
    TwiceAskedShape(H);
    w := OwnReleaseLands(H, TwiceAsked(H), 2);
  }

  lemma OwnReleaseLands(H: Digest, w0: World, s: SessionId) returns (w: World)
    requires Reachable(H, w0) && 5 !in w0.sessions && s != 5
    requires "act" in w0.ledger && w0.ledger["act"] == PendingRecord(Ask(H, DataErasure))
    requires s in w0.sessions && w0.sessions[s].Holding? && w0.sessions[s].route.ClaimRelease?
    requires w0.sessions[s].claimed.intent.requester.key == Some("c") && w0.sessions[s].claimed.intent.payload.FrozenClaim?
    requires w0.sessions[s].claimed.intent.payload.targetId == "act" &&
          w0.sessions[s].claimed.intent.payload.claimedAt == "t1"
    ensures Reachable(H, w) && Lands(w, ReleaseTarget(s)) && "act" in w.ledger
    ensures w.sessions[s].claimed.intent.payload.targetId == "act"
    ensures Claimant(w.ledger["act"], w.sessions[s].claimed.intent.requester.key)
    ensures !ByTwoOthers(w, ReleaseTarget(s), w.ledger["act"])
  {
    ReclaimedReachable(H, w0, "c");
    var w1 := Reclaimed(H, w0, "c");
    w := StepReadTarget(w1, ReadTarget(s));
    ExtendsByOne(H, w1, ReadTarget(s), w);
    SecondLands(w1, s, w0.sessions[s].id, w0.sessions[s].claimed, Ask(H, DataErasure), Signed("c", "t1"));
  }

  lemma SecondLands(w: World, s: SessionId, id: Id, claimed: Record, i: Intent, approver: Approver)
    requires s in w.sessions && w.sessions[s] == Holding(id, ClaimRelease, claimed)
    requires claimed.intent.payload.FrozenClaim? && claimed.intent.payload.targetId == "act"
    requires "act" in w.ledger && w.ledger["act"] == ClaimedRecord(i, approver, claimed.intent.payload.claimedAt)
    requires claimed.intent.requester.key == Some(approver.key)
    ensures var w' := StepReadTarget(w, ReadTarget(s));
            && Lands(w', ReleaseTarget(s)) && w'.ledger == w.ledger && s in w'.sessions
            && w'.sessions[s] == TargetRead(id, ClaimRelease, claimed, w.ledger["act"])
            && !ByTwoOthers(w', ReleaseTarget(s), w.ledger["act"])
  {
  }

  // ----- an effect of another type -----

  /** Every executed action of `kind`, in every run, was recorded for its own effect. */
  ghost predicate AlwaysOwnEffect(H: Digest, kind: ActionType) {
    forall w, id :: Reachable(H, w) && ExecutedOf(w, id, kind) ==> id in w.past.ranBy && w.past.ranBy[id] == kind
  }

  predicate ExecutedOf(w: World, id: Id, kind: ActionType) {
    IsExecuted(w, id) && w.ledger[id].intent.actor == HumanApproved && w.ledger[id].intent.kind == kind
  }

  /** Some run executes an action of any other type through the erasure route. */
  lemma ForeignEffect(H: Digest, kind: ActionType) returns (w: World, id: Id)
    requires HumanGoverned(kind)
    ensures Reachable(H, w) && ExecutedOf(w, id, kind) && id in w.past.ranBy && w.past.ranBy[id] == DataErasure
  {
    var w0: World;
    if kind.ClaimRelease? {
      w0 := StrandedRun(H);
      id := "rel";
    } else {
      OpenedReachable(H, kind);
      w0, id := Opened(H, kind), "act";
    }
    ReachableKeeps(H, w0);
    var more := ErasureExecutesAny(H, w0, id);
    w := Run(H, w0, more);
    Extends(H, w0, more, w);
    ContinuationKeeps(H, w0, more);
    ContinuationIssues(H, w0, more, id);
    assert RowOk(w0, id) && RowOk(w, id);
  }

  lemma {:induction false} ContinuationIssues(H: Digest, w: World, es: seq<Event>, id: Id)
    requires id in w.past.issued
    ensures id in Run(H, w, es).past.issued && Run(H, w, es).past.issued[id] == w.past.issued[id]
  {
    if es != [] {
      ContinuationIssues(H, w, es[..|es| - 1], id);
      IssuedStays(H, Run(H, w, es[..|es| - 1]), es[|es| - 1], id);
    }
  }

  /** Executed actions of a type always ran their own effect if and only if the type is erasure. */
  lemma OwnEffectIff(H: Digest, kind: ActionType)
    requires HumanGoverned(kind)
    ensures AlwaysOwnEffect(H, kind) <==> kind == DataErasure
  {
    if kind == DataErasure {
      forall w, id | Reachable(H, w) && ExecutedOf(w, id, kind) ensures id in w.past.ranBy && w.past.ranBy[id] == kind {
        var es :| TagsApart(H, es) && Run(H, INITIAL, es) == w;
        OwnEffectOrErasure(H, es, id);
      }
    } else {
      var w, id := ForeignEffect(H, kind);
      assert !(id in w.past.ranBy && w.past.ranBy[id] == kind);
    }
  }

  // ----- two pending actions of one type and target -----

  /** Both would pass an approval by "z". */
  ghost predicate BothApprovable(H: Digest, w: World, a: Id, b: Id) {
    && a != b && Rivals(w, a, b)
    && (forall id :: id in {a, b} ==> Approvable(H, w, id, "z"))
  }

  predicate Approvable(H: Digest, w: World, id: Id, key: Key)
    requires id in w.ledger
  {
    var i := w.ledger[id].intent;
    CheckApproval(H, w.ledger, i.kind, id, Who(key), i.target, i.hash, i.payload, false) == Ok(false)
  }

  lemma TwinsApprovable(H: Digest, w: World, a: Id, b: Id)
    requires a != b && a in w.ledger && b in w.ledger
    requires w.ledger[a] == PendingRecord(Ask(H, DataErasure)) && w.ledger[b] == PendingRecord(Ask(H, DataErasure))
    ensures BothApprovable(H, w, a, b)
  {
    assert Approvable(H, w, a, "z") && Approvable(H, w, b, "z");
  }

  /** "act" is claimed, and "act2" is requested for the same target. */
  function AskedAgain(H: Digest): World {
    Requested(Opened(H, DataErasure), 4, "act2", Ask(H, DataErasure))
  }

  lemma AskedAgainReachable(H: Digest)
    ensures Reachable(H, AskedAgain(H))
  {
    OpenedReachable(H, DataErasure);
    RequestReachable(H, Opened(H, DataErasure), 4, "act2", DataErasure, "tenant", "a");
  }

  lemma AskedAgainShape(H: Digest)
    ensures var w, i := AskedAgain(H), Ask(H, DataErasure);
            && 2 !in w.sessions && "rel" !in w.past.issued && "act" in w.ledger && "act2" in w.ledger
            && w.ledger["act"] == ClaimedRecord(i, Signed("b", "t1"), "t1") && w.ledger["act2"] == PendingRecord(i)
            && forall a :: a in w.ledger ==> !PendingFor(w.ledger[a], ClaimRelease, "act")
  {
  }

  lemma ReleasedRows(H: Digest, w: World, s: SessionId, id: Id, q: Key, p: Key, now: Instant, other: Id)
    requires "act" in w.ledger && other in w.ledger && other != id && other != "act" && id != "act"
    ensures var w' := ReleasedBy(H, w, s, id, q, p, now);
            && "act" in w'.ledger && w'.ledger["act"] == PendingRecord(w.ledger["act"].intent)
            && other in w'.ledger && w'.ledger[other] == w.ledger[other]
  {
  }

  /** Then the claim on "act" is released: both are pending. */
  lemma TwoPending(H: Digest) returns (w: World)
    ensures Reachable(H, w) && BothApprovable(H, w, "act", "act2")
  {
    AskedAgainReachable(H);
    AskedAgainShape(H);
    w := TwinsReleased(H, AskedAgain(H));
  }

  lemma TwinsReleased(H: Digest, w0: World) returns (w: World)
    requires Reachable(H, w0) && 2 !in w0.sessions && "rel" !in w0.past.issued && "act" in w0.ledger && "act2" in w0.ledger
    requires w0.ledger["act"] == ClaimedRecord(Ask(H, DataErasure), Signed("b", "t1"), "t1")
    requires w0.ledger["act2"] == PendingRecord(Ask(H, DataErasure))
    requires forall a :: a in w0.ledger ==> !PendingFor(w0.ledger[a], ClaimRelease, "act")
    ensures Reachable(H, w) && BothApprovable(H, w, "act", "act2")
  {
    ReleasedReachable(H, w0, 2, "rel", "c", "d", "t2", Ask(H, DataErasure), "b", "t1");
    w := ReleasedBy(H, w0, 2, "rel", "c", "d", "t2");
    ReleasedRows(H, w0, 2, "rel", "c", "d", "t2", "act2");
    TwinsApprovable(H, w, "act", "act2");
  }

  /** Session `s` has read no prior action and is about to store its request. */
  function Waiting(w: World, s: SessionId, id: Id, i: Intent): World {
    Drawn(w, s, id, i).(sessions := w.sessions[s := Inserting(id, PendingRecord(i))])
  }

  lemma WaitingReachable(H: Digest, w: World, s: SessionId, id: Id, key: Key)
    requires Reachable(H, w) && s !in w.sessions && id !in w.past.issued && key != "" && w.ledger == map[]
    ensures Reachable(H, Waiting(w, s, id, Asked(H, DataErasure, "tenant", DomainFields(DataErasure, map[]), key)))
  {
    var i := Asked(H, DataErasure, "tenant", DomainFields(DataErasure, map[]), key);
    var e := Submit(s, id, Who(key), DataErasure, "tenant", map[], None, "t0");
    ExtendsByOne(H, w, e, Drawn(w, s, id, i));
    WaitingSteps(H, w, s, id, i);
  }

  lemma WaitingSteps(H: Digest, w: World, s: SessionId, id: Id, i: Intent)
    requires Reachable(H, Drawn(w, s, id, i)) && w.ledger == map[]
    ensures Reachable(H, Waiting(w, s, id, i))
  {
    var w0 := Drawn(w, s, id, i);
    var w1 := StepReadPrior(w0, ReadPrior(s, None));
    assert StepSupersede(w1, SupersedePrior(s)).sessions == w.sessions[s := Inserting(id, PendingRecord(i))];
    ExtendsByOne(H, w0, ReadPrior(s, None), w1);
    ExtendsByOne(H, w1, SupersedePrior(s), Waiting(w, s, id, i));
  }

  lemma BothInsert(w: World, s: SessionId, t: SessionId, a: Id, b: Id, i: Intent)
    requires s != t && a != b && s in w.sessions && t in w.sessions
    requires w.sessions[s] == Inserting(a, PendingRecord(i)) && w.sessions[t] == Inserting(b, PendingRecord(i))
    ensures var w' := StepInsert(StepInsert(w, Insert(s)), Insert(t));
            a in w'.ledger && b in w'.ledger && w'.ledger[a] == PendingRecord(i) && w'.ledger[b] == PendingRecord(i)
  {
  }

  function Racing(H: Digest): World {
    Waiting(Waiting(INITIAL, 0, "act", Ask(H, DataErasure)), 1, "act2", Ask(H, DataErasure))
  }

  lemma RacingReachable(H: Digest)
    ensures Reachable(H, Racing(H))
  {
    StartReachable(H);
    WaitingReachable(H, INITIAL, 0, "act", "a");
    WaitingReachable(H, Waiting(INITIAL, 0, "act", Ask(H, DataErasure)), 1, "act2", "a");
  }

  /** Two requests race: each reads no prior action before the other is stored. */
  lemma RacingRequests(H: Digest) returns (w: World)
    ensures Reachable(H, w) && BothApprovable(H, w, "act", "act2")
  {
    var w0 := Racing(H);
    RacingReachable(H);
    BothInsert(w0, 0, 1, "act", "act2", Ask(H, DataErasure));
    var w1 := StepInsert(w0, Insert(0));
    ExtendsByOne(H, w0, Insert(0), w1);
    w := StepInsert(w1, Insert(1));
    ExtendsByOne(H, w1, Insert(1), w);
    TwinsApprovable(H, w, "act", "act2");
  }
}
