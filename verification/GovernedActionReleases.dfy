/**
 When a claimed release can still be executed by the calls in progress and by new calls
 through its own route: exactly as long as the claim it pins is live, its owner is past the
 effect, or a call through the erasure route has it or can still take it. After a crash behind
 the effect it is stranded. A new call through the erasure route can execute any claimed
 action, at any time.
 */
module GovernedActionReleases {
  import opened Wrappers
  import opened GovernedActions
  import opened GovernedActionSafety
  import opened GovernedActionOwnership
  import opened GovernedActionApproval
  import opened GovernedActionFates
  import opened GovernedActionRoutes

  predicate WorksOn(t: Task, id: Id) {
    (t.Approving? || Executes(t)) && t.id == id
  }

  /** Every call working on `id` came through a route it can have come through. */
  ghost predicate FitsOn(w: World, id: Id) {
    forall s :: s in w.sessions && WorksOn(w.sessions[s], id) ==> RouteFits(w.sessions[s])
  }

  /** The owner of `id` has run its effect and has only to record it. */
  ghost predicate PastEffect(w: World, id: Id) {
    exists s :: Owns(w, s, id) && w.sessions[s].Effected?
  }

  /** A call through the erasure route owns the claim on `id`, or is resuming it at its instant. */
  predicate ErasureHas(w: World, s: SessionId, id: Id) {
    && s in w.sessions && WorksOn(w.sessions[s], id) && w.sessions[s].route.DataErasure?
    && (Owns(w, s, id) || ResumesAt(w, s, id))
  }

  predicate ResumesAt(w: World, s: SessionId, id: Id) {
    && s in w.sessions && w.sessions[s].Approving? && w.sessions[s].resuming && w.sessions[s].id == id
    && id in w.ledger && w.ledger[id].status == Claimed && w.ledger[id].claimedAt == w.sessions[s].seen.claimedAt
  }

  ghost predicate ErasureLive(w: World, id: Id) {
    exists s :: ErasureHas(w, s, id)
  }

  predicate OwnRoute(e: Event, id: Id) {
    e.Validate? && e.id == id ==> e.route.ClaimRelease?
  }

  ghost predicate OwnRoutes(es: seq<Event>, id: Id) {
    forall k :: 0 <= k < |es| ==> OwnRoute(es[k], id)
  }

  // ----- stranded releases -----

  /** A release whose pinned claim is over, whose effect no owner is past, and which no erasure call has. */
  ghost predicate Stranded(w: World, id: Id, pin: Payload) {
    && pin.FrozenClaim? && id in w.past.issued && w.past.issued[id].payload == pin
    && PinGranted(w.past.grants, pin) && !PinLive(w, pin)
    && !IsExecuted(w, id) && FitsOn(w, id) && !PastEffect(w, id) && !ErasureLive(w, id)
  }

  lemma PinStaysOver(H: Digest, w: World, e: Event, pin: Payload)
    requires pin.FrozenClaim? && PinGranted(w.past.grants, pin) && !PinLive(w, pin) && DraftsPending(w) && Fresh(w, e)
    ensures PinGranted(Step(H, w, e).past.grants, pin) && !PinLive(Step(H, w, e), pin)
  {
    PinStaysGranted(H, w, e, pin);
    if PinLive(Step(H, w, e), pin) {
      if !Wins(w, e) {
        ClaimBefore(H, w, e, pin.targetId);
      } else {
        ClaimRow(w, e, pin.targetId);
      }
    }
  }

  lemma WorkedBefore(H: Digest, w: World, e: Event, id: Id, s: SessionId)
    requires s in Step(H, w, e).sessions && WorksOn(Step(H, w, e).sessions[s], id)
    ensures s in w.sessions ==> WorksOn(w.sessions[s], id)
    ensures s !in w.sessions ==> e.Validate? && e.id == id && e.s == s && StepValidate(H, w, e) != w
  {
    if !(Wins(w, e) && s == e.s) {
      SessionOrigin(H, w, e, s);
    }
  }

  lemma FitsOnStep(H: Digest, w: World, e: Event, id: Id)
    requires Inv(H, w) && FitsOn(w, id) && OwnRoute(e, id) && id in w.past.issued && w.past.issued[id].kind.ClaimRelease?
    ensures FitsOn(Step(H, w, e), id)
  {
    var w' := Step(H, w, e);
    forall s | s in w'.sessions && WorksOn(w'.sessions[s], id) ensures RouteFits(w'.sessions[s]) {
      WorkedBefore(H, w, e, id, s);
      if s in w.sessions {
        SessionFits(H, w, e, s);
      } else {
        assert RowOk(w, id);
      }
    }
  }

  /** An owner past its effect was one before, or had it by erasure, or its own effect has just landed. */
  lemma PastEffectBefore(H: Digest, w: World, e: Event, id: Id, s: SessionId)
    requires Inv(H, w) && Fresh(w, e) && FitsOn(w, id) && id in w.past.issued && w.past.issued[id].kind.ClaimRelease?
    requires Owns(Step(H, w, e), s, id) && Step(H, w, e).sessions[s].Effected?
    ensures Owns(w, s, id)
    ensures w.sessions[s].Effected? || ErasureHas(w, s, id) || (Lands(w, e) && e.s == s && w.sessions[s].TargetRead?)
  {
    OwnedBefore(H, w, e, id, s);
    if !Wins(w, e) {
      assert WorksOn(w.sessions[s], id) && TaskOk(w, s, w.sessions[s]);
      assert IntentOk(H, w.past.issued[id]);
      EffectedBy(H, w, e, s);
    }
  }

  /** Whoever owns the action owned it before, except the winner of a claim. */
  lemma OwnedBefore(H: Digest, w: World, e: Event, id: Id, s: SessionId)
    requires Inv(H, w) && Fresh(w, e) && Owns(Step(H, w, e), s, id) && !(Wins(w, e) && s == e.s)
    ensures Owns(w, s, id) && w.sessions[s].route == Step(H, w, e).sessions[s].route
    ensures Wins(w, e) ==> w.sessions[s] == Step(H, w, e).sessions[s]
  {
    InvFacts(H, w);
    if Wins(w, e) {
      OthersUntouched(w, e, s);
      StaleStaysStale(H, w, e, id, s);
    } else {
      ExecutorBefore(H, w, e, s);
      ClaimBefore(H, w, e, id);
    }
  }

  lemma EffectedBy(H: Digest, w: World, e: Event, s: SessionId)
    requires s in w.sessions && s in Step(H, w, e).sessions && Step(H, w, e).sessions[s].Effected?
    requires w.sessions[s].Holding? ==>
               Resumable(w.sessions[s].route) && Tag(w.sessions[s].claimed.intent.payload).ClaimRelease?
    ensures || w.sessions[s].Effected? || (Lands(w, e) && e.s == s && w.sessions[s].TargetRead?)
            || (w.sessions[s].Holding? && w.sessions[s].route.DataErasure?)
  {
  }

  lemma StaleStaysStale(H: Digest, w: World, e: Event, id: Id, s: SessionId)
    requires Inv(H, w) && Wins(w, e) && Fresh(w, e) && s != e.s && s in w.sessions && Executes(w.sessions[s])
    requires Owns(StepTakeClaim(w, e), s, id)
    ensures Owns(w, s, id)
  {
    assert TaskOk(w, e.s, w.sessions[e.s]);
    OwnsAfterWin(H, w, e, s, id);
    FreshIsGuarded(H, w, e);
  }

  /** An erasure call has the release only if it had it before. */
  lemma ErasureHadIt(H: Digest, w: World, e: Event, id: Id, s: SessionId)
    requires Inv(H, w) && Fresh(w, e) && FitsOn(w, id) && OwnRoute(e, id)
    requires id in w.past.issued && w.past.issued[id].kind.ClaimRelease? && ErasureHas(Step(H, w, e), s, id)
    ensures ErasureHas(w, s, id)
  {
    WorkedBefore(H, w, e, id, s);
    if s !in w.sessions {
      assert false;
    } else if Wins(w, e) && s == e.s {
      TakenByErasure(H, w, e, id);
    } else if Owns(Step(H, w, e), s, id) {
      OwnedBefore(H, w, e, id, s);
    } else {
      ResumedBefore(H, w, e, id, s);
    }
  }

  lemma TakenByErasure(H: Digest, w: World, e: Event, id: Id)
    requires Inv(H, w) && Wins(w, e) && FitsOn(w, id) && WorksOn(w.sessions[e.s], id) && w.sessions[e.s].route.DataErasure?
    requires id in w.past.issued && w.past.issued[id].kind.ClaimRelease?
    ensures ResumesAt(w, e.s, id)
  {
    assert TaskOk(w, e.s, w.sessions[e.s]) && RouteFits(w.sessions[e.s]);
  }

  lemma ResumedBefore(H: Digest, w: World, e: Event, id: Id, s: SessionId)
    requires Inv(H, w) && Fresh(w, e) && s in w.sessions && ResumesAt(Step(H, w, e), s, id)
    ensures ResumesAt(w, s, id) && w.sessions[s] == Step(H, w, e).sessions[s]
  {
    ApprovingBefore(H, w, e, s);
    assert TaskOk(w, s, w.sessions[s]);
    if Wins(w, e) {
      ClaimRow(w, e, id);
      ClaimWriteOk(w, e.s, w.sessions[e.s], e.now);
    } else {
      InvFacts(H, w);
      ClaimBefore(H, w, e, id);
    }
  }

  lemma NotExecutedStep(H: Digest, w: World, e: Event, id: Id)
    requires Inv(H, w) && id in w.past.issued && !IsExecuted(w, id) && !PastEffect(w, id)
    ensures !IsExecuted(Step(H, w, e), id)
  {
    if e.Finalize? {
      if IsExecuted(Step(H, w, e), id) {
        FinalizedOnlyByOwner(H, w, e, id);
        assert false;
      }
    } else {
      NotExecutedElsewhere(H, w, e, id);
    }
  }

  lemma FinalizedOnlyByOwner(H: Digest, w: World, e: Event, id: Id)
    requires Inv(H, w) && e.Finalize? && !IsExecuted(w, id) && IsExecuted(StepFinalize(w, e), id)
    ensures e.s in w.sessions && Owns(w, e.s, id) && w.sessions[e.s].Effected?
  {
    assert TaskOk(w, e.s, w.sessions[e.s]);
  }

  lemma StrandedStep(H: Digest, w: World, e: Event, id: Id, pin: Payload)
    requires Inv(H, w) && Stranded(w, id, pin) && Fresh(w, e) && OwnRoute(e, id)
    ensures Stranded(Step(H, w, e), id, pin)
  {
    InvFacts(H, w);
    assert IntentOk(H, w.past.issued[id]);
    PinStaysOver(H, w, e, pin);
    FitsOnStep(H, w, e, id);
    NotExecutedStep(H, w, e, id);
    IssuedStays(H, w, e, id);
    NoWayBack(H, w, e, id, pin);
  }

  lemma NoWayBack(H: Digest, w: World, e: Event, id: Id, pin: Payload)
    requires Inv(H, w) && Stranded(w, id, pin) && Fresh(w, e) && OwnRoute(e, id) && w.past.issued[id].kind.ClaimRelease?
    ensures !PastEffect(Step(H, w, e), id) && !ErasureLive(Step(H, w, e), id)
  {
    var w' := Step(H, w, e);
    InvFacts(H, w);
    forall s ensures !(Owns(w', s, id) && w'.sessions[s].Effected?) {
      if Owns(w', s, id) && w'.sessions[s].Effected? {
        PastEffectBefore(H, w, e, id, s);
      }
    }
    forall s ensures !ErasureHas(w', s, id) {
      if ErasureHas(w', s, id) {
        ErasureHadIt(H, w, e, id, s);
      }
    }
  }

  /** While instants do not repeat and new calls use the release route, a stranded release is never executed. */
  lemma {:induction false} StrandedForever(H: Digest, w: World, more: seq<Event>, id: Id, pin: Payload)
    requires Inv(H, w) && Stranded(w, id, pin) && FreshFrom(H, w, more) && OwnRoutes(more, id)
    ensures Stranded(Run(H, w, more), id, pin)
  {
    if more != [] {
      var prefix := more[..|more| - 1];
      forall k | 0 <= k < |prefix| ensures Fresh(Run(H, w, prefix[..k]), prefix[k]) {
        assert prefix[..k] == more[..k];
      }
      StrandedForever(H, w, prefix, id, pin);
      ContinuationKeeps(H, w, prefix);
      assert Fresh(Run(H, w, prefix), more[|more| - 1]) by {
        assert more[..|more| - 1] == prefix;
      }
      StrandedStep(H, Run(H, w, prefix), more[|more| - 1], id, pin);
    }
  }

  // ----- runs that execute a claimed action -----

  /** Longer than every instant at which a claim was won. */
  lemma {:induction false} LongerThanAll(grants: set<Grant>) returns (n: nat)
    ensures forall g :: g in grants ==> |g.at| < n
    decreases |grants|
  {
    if grants == {} {
      n := 0;
    } else {
      var g :| g in grants;
      n := LongerThanAll(grants - {g});
      if |g.at| >= n {
        n := |g.at| + 1;
      }
    }
  }

  lemma FreshInstant(grants: set<Grant>) returns (now: Instant)
    ensures forall g :: g in grants ==> g.at != now
  {
    var n := LongerThanAll(grants);
    now := seq(n, _ => 't');
    forall g | g in grants ensures g.at != now {
      assert |g.at| < |now|;
    }
  }

  lemma {:induction false} FreshSession(taken: set<SessionId>) returns (s: SessionId)
    ensures forall t :: t in taken ==> t < s
    decreases |taken|
  {
    if taken == {} {
      s := 0;
    } else {
      var t :| t in taken;
      s := FreshSession(taken - {t});
      assert forall u :: u in taken ==> u == t || u in taken - {t};
      if t >= s {
        s := t + 1;
      }
    }
  }

  function Resumer(r: Record): Caller {
    if r.approver.Some? then Caller(r.approver.value.app, r.approver.value.trust, Some(r.approver.value.key))
    else Caller("", "", None)
  }

  /** The claiming credential's resume through `route`; a resume never rebuilds the payload. */
  function ResumeCall(s: SessionId, route: ActionType, id: Id, r: Record): Event {
    Validate(s, route, id, Resumer(r), None, r.intent.target, r.intent.hash, DomainFields(route, map[]), true)
  }

  /** The claimant can resume through the route of an erasure, a reconciliation or a release, and takes the claim over. */
  lemma ResumeTakes(H: Digest, w: World, s: SessionId, route: ActionType, id: Id, now: Instant)
    requires Inv(H, w) && id in w.ledger && w.ledger[id].status == Claimed && s !in w.sessions
    requires (route == DataErasure || route == BudgetReconciliation || route == ClaimRelease)
             && w.ledger[id].claimedAt != Some(now)
    requires route.ClaimRelease? ==> Resumer(w.ledger[id]).key != Some(FrozenKey(w.ledger[id].intent.payload))
    ensures var r := w.ledger[id];
            var w1 := StepValidate(H, w, ResumeCall(s, route, id, r));
            && w1 == w.(sessions := w.sessions[s := Approving(id, route, Resumer(r), None, r, true)])
            && r.approver.Some? && StepTakeClaim(w1, TakeClaim(s, now)) == TakenOver(w, s, route, id, now)
  {
    assert RowOk(w, id);
    var r := w.ledger[id];
    var e := ResumeCall(s, route, id, r);
    assert CheckApproval(H, w.ledger, route, id, e.caller, e.expectedTarget, e.expectedHash, e.live, true) == Ok(true);
    var w1 := StepValidate(H, w, e);
    assert w1 == w.(sessions := w.sessions[s := Approving(id, route, Resumer(r), None, r, true)]);
    var w2 := StepTakeClaim(w1, TakeClaim(s, now));
    assert w1.sessions[s := Holding(id, route, r.(claimedAt := Some(now)))] == w2.sessions;
    assert w.sessions[s := Holding(id, route, r.(claimedAt := Some(now)))] == w2.sessions;
  }

  /** The world in which session `s` has rotated the claim on `id` to `now`. */
  function TakenOver(w: World, s: SessionId, route: ActionType, id: Id, now: Instant): World
    requires id in w.ledger && w.ledger[id].approver.Some?
  {
    var mine := w.ledger[id].(claimedAt := Some(now));
    w.(ledger := w.ledger[id := mine], sessions := w.sessions[s := Holding(id, route, mine)],
       past := w.past.(grants := w.past.grants + {Grant(id, now, mine.approver.value)}))
  }

  function ResumeEvents(s: SessionId, route: ActionType, id: Id, r: Record, now: Instant): seq<Event> {
    [ResumeCall(s, route, id, r), TakeClaim(s, now)]
  }

  /** The run of a resume up to its rotation. */
  lemma ResumePhase(H: Digest, w: World, s: SessionId, route: ActionType, id: Id, now: Instant)
    requires Inv(H, w) && id in w.ledger && w.ledger[id].status == Claimed && s !in w.sessions
    requires (route == DataErasure || route == BudgetReconciliation || route == ClaimRelease)
             && w.ledger[id].claimedAt != Some(now)
    requires route.ClaimRelease? ==> Resumer(w.ledger[id]).key != Some(FrozenKey(w.ledger[id].intent.payload))
    ensures w.ledger[id].approver.Some?
    ensures Run(H, w, [ResumeCall(s, route, id, w.ledger[id])]).past.grants == w.past.grants
    ensures Run(H, w, ResumeEvents(s, route, id, w.ledger[id], now)) == TakenOver(w, s, route, id, now)
  {
    var call, take := ResumeCall(s, route, id, w.ledger[id]), TakeClaim(s, now);
    ResumeTakes(H, w, s, route, id, now);
    TwoEvents(H, w, StepValidate(H, w, call), TakenOver(w, s, route, id, now), call, take);
  }

  /** The same with a rotation to an instant at which nothing was ever claimed. */
  lemma ResumeRuns(H: Digest, w: World, s: SessionId, route: ActionType, id: Id, now: Instant)
    requires Inv(H, w) && id in w.ledger && w.ledger[id].status == Claimed && s !in w.sessions
    requires route == DataErasure || route == BudgetReconciliation || route == ClaimRelease
    requires forall g :: g in w.past.grants ==> g.at != now
    requires route.ClaimRelease? ==> Resumer(w.ledger[id]).key != Some(FrozenKey(w.ledger[id].intent.payload))
    ensures w.ledger[id].approver.Some?
    ensures Run(H, w, ResumeEvents(s, route, id, w.ledger[id], now)) == TakenOver(w, s, route, id, now)
    ensures Fresh(Run(H, w, [ResumeCall(s, route, id, w.ledger[id])]), TakeClaim(s, now))
  {
    assert RowOk(w, id);
    assert Grant(id, w.ledger[id].claimedAt.value, w.ledger[id].approver.value) in w.past.grants;
    ResumePhase(H, w, s, route, id, now);
  }

  lemma FreshUnlessTaking(w: World, e: Event)
    requires !e.TakeClaim?
    ensures Fresh(w, e)
  {
  }

  /** The effect and the record of a call that holds its action through the erasure route. */
  lemma ErasureFinishes(H: Digest, w: World, s: SessionId, id: Id, claimed: Record)
    requires s in w.sessions && w.sessions[s] == Holding(id, DataErasure, claimed)
    requires id in w.ledger && w.ledger[id] == claimed && claimed.status == Claimed
    ensures var w' := StepFinalize(StepRunEffect(w, RunEffect(s)), Finalize(s, "", None));
            IsExecuted(w', id) && id in w'.past.ranBy && w'.past.ranBy[id] == DataErasure
  {
    assert StepRunEffect(w, RunEffect(s)).sessions[s] == Effected(id, DataErasure, claimed);
  }

  ghost predicate TakesNone(es: seq<Event>) {
    forall k :: 0 <= k < |es| ==> !es[k].TakeClaim?
  }

  /** Only the one rotation can repeat an instant. */
  lemma FreshAround(H: Digest, w: World, call: Event, take: Event, rest: seq<Event>)
    requires !call.TakeClaim? && TakesNone(rest) && Fresh(Run(H, w, [call]), take)
    ensures FreshFrom(H, w, [call, take] + rest)
  {
    var es := [call, take] + rest;
    forall k | 0 <= k < |es| ensures Fresh(Run(H, w, es[..k]), es[k]) {
      if k == 1 {
        assert es[..1] == [call];
      } else {
        assert !es[k].TakeClaim?;
        FreshUnlessTaking(Run(H, w, es[..k]), es[k]);
      }
    }
  }

  lemma ErasureRuns(H: Digest, w: World, es: seq<Event>, v: World, s: SessionId, id: Id, claimed: Record)
    requires Run(H, w, es) == v && s in v.sessions && v.sessions[s] == Holding(id, DataErasure, claimed)
    requires id in v.ledger && v.ledger[id] == claimed && claimed.status == Claimed
    ensures var w' := Run(H, w, es + [RunEffect(s), Finalize(s, "", None)]);
            IsExecuted(w', id) && id in w'.past.ranBy && w'.past.ranBy[id] == DataErasure
  {
    ErasureFinishes(H, v, s, id, claimed);
    var v1 := StepRunEffect(v, RunEffect(s));
    TwoEvents(H, v, v1, StepFinalize(v1, Finalize(s, "", None)), RunEffect(s), Finalize(s, "", None));
    RunConcat(H, w, es, [RunEffect(s), Finalize(s, "", None)]);
  }

  /** Any claimed action can be executed by resuming it through the erasure route, its own effect or not. */
  lemma ErasureExecutesAny(H: Digest, w: World, id: Id) returns (more: seq<Event>)
    requires Inv(H, w) && id in w.ledger && w.ledger[id].status == Claimed
    ensures FreshFrom(H, w, more) && ApartFrom(H, w, more) && IsExecuted(Run(H, w, more), id)
    ensures id in Run(H, w, more).past.ranBy && Run(H, w, more).past.ranBy[id] == DataErasure
  {
    var s := FreshSession(w.sessions.Keys);
    var now := FreshInstant(w.past.grants);
    ResumeRuns(H, w, s, DataErasure, id, now);
    var v := TakenOver(w, s, DataErasure, id, now);
    ErasureRuns(H, w, ResumeEvents(s, DataErasure, id, w.ledger[id], now), v, s, id, v.ledger[id]);
    more := ResumeEvents(s, DataErasure, id, w.ledger[id], now) + [RunEffect(s), Finalize(s, "", None)];
    var call := ResumeCall(s, DataErasure, id, w.ledger[id]);
    FreshAround(H, w, call, TakeClaim(s, now), [RunEffect(s), Finalize(s, "", None)]);
    assert more == [call] + [TakeClaim(s, now), RunEffect(s), Finalize(s, "", None)];
    ApartAround(H, w, call, [TakeClaim(s, now), RunEffect(s), Finalize(s, "", None)]);
  }

  /** The effect of a call that holds its release while the pinned claim is live. */
  lemma ReleaseLands(w: World, s: SessionId, id: Id, claimed: Record)
    requires s in w.sessions && w.sessions[s] == Holding(id, ClaimRelease, claimed)
    requires id in w.ledger && w.ledger[id] == claimed && claimed.status == Claimed
    requires PinLive(w, claimed.intent.payload) && PinsAnother(id, claimed.intent)
    ensures var w' := StepReleaseTarget(StepReadTarget(w, ReadTarget(s)), ReleaseTarget(s));
            && s in w'.sessions && w'.sessions[s] == Effected(id, ClaimRelease, claimed)
            && id in w'.ledger && w'.ledger[id] == claimed
  {
    var w1 := StepReadTarget(w, ReadTarget(s));
    assert w1.sessions[s] == TargetRead(id, ClaimRelease, claimed, w.ledger[claimed.intent.payload.targetId]);
  }

  lemma OwnerFinalizes(w: World, s: SessionId, id: Id, route: ActionType, claimed: Record)
    requires s in w.sessions && w.sessions[s] == Effected(id, route, claimed)
    requires id in w.ledger && w.ledger[id].status == Claimed && w.ledger[id].claimedAt == claimed.claimedAt
    ensures IsExecuted(StepFinalize(w, Finalize(s, "", None)), id)
  {
  }

  lemma ResumedReleaseExecutes(H: Digest, w: World, id: Id) returns (more: seq<Event>)
    requires Inv(H, w) && id in w.ledger && w.ledger[id].status == Claimed && PinLive(w, w.ledger[id].intent.payload)
    requires Resumer(w.ledger[id]).key != Some(FrozenKey(w.ledger[id].intent.payload))
    ensures FreshFrom(H, w, more) && OwnRoutes(more, id) && IsExecuted(Run(H, w, more), id)
  {
    assert RowOk(w, id);
    var s := FreshSession(w.sessions.Keys);
    var now := FreshInstant(w.past.grants);
    ResumeRuns(H, w, s, ClaimRelease, id, now);
    var v := TakenOver(w, s, ClaimRelease, id, now);
    ReleaseLands(v, s, id, v.ledger[id]);
    ReleaseRuns(H, w, ResumeEvents(s, ClaimRelease, id, w.ledger[id], now), v, s, id);
    var rest := [ReadTarget(s), ReleaseTarget(s), Finalize(s, "", None)];
    more := ResumeEvents(s, ClaimRelease, id, w.ledger[id], now) + rest;
    FreshAround(H, w, ResumeCall(s, ClaimRelease, id, w.ledger[id]), TakeClaim(s, now), rest);
  }

  lemma ReleaseRuns(H: Digest, w: World, es: seq<Event>, v: World, s: SessionId, id: Id)
    requires Run(H, w, es) == v
    requires var v' := StepReleaseTarget(StepReadTarget(v, ReadTarget(s)), ReleaseTarget(s));
             && s in v'.sessions && v'.sessions[s].Effected? && v'.sessions[s].id == id
             && id in v'.ledger && v'.ledger[id] == v'.sessions[s].claimed && v'.ledger[id].status == Claimed
    ensures IsExecuted(Run(H, w, es + [ReadTarget(s), ReleaseTarget(s), Finalize(s, "", None)]), id)
  {
    var v1 := StepReadTarget(v, ReadTarget(s));
    var v2 := StepReleaseTarget(v1, ReleaseTarget(s));
    ThreeEvents(H, v, v1, v2, ReadTarget(s), ReleaseTarget(s), Finalize(s, "", None));
    OwnerFinalizes(v2, s, id, v2.sessions[s].route, v2.sessions[s].claimed);
    RunConcat(H, w, es, [ReadTarget(s), ReleaseTarget(s), Finalize(s, "", None)]);
  }

  lemma OwnerExecutes(H: Digest, w: World, s: SessionId, id: Id)
    requires Owns(w, s, id) && w.sessions[s].Effected?
    ensures var more := [Finalize(s, "", None)];
            FreshFrom(H, w, more) && OwnRoutes(more, id) && IsExecuted(Run(H, w, more), id)
  {
    assert [Finalize(s, "", None)][..0] == [];
    OwnerFinalizes(w, s, id, w.sessions[s].route, w.sessions[s].claimed);
    FirstEvent(H, w, Finalize(s, "", None), StepFinalize(w, Finalize(s, "", None)), []);
    assert [Finalize(s, "", None)] + [] == [Finalize(s, "", None)];
    FreshUnlessTaking(w, Finalize(s, "", None));
  }

  /** Any events of calls in progress and of new calls through the release route, with no claim instant
      repeated, can execute `id`. */
  ghost predicate Executable(H: Digest, w: World, id: Id) {
    exists more :: FreshFrom(H, w, more) && OwnRoutes(more, id) && IsExecuted(Run(H, w, more), id)
  }

  lemma ErasureOwnerExecutes(H: Digest, w: World, s: SessionId, id: Id)
    requires Owns(w, s, id) && w.sessions[s].Holding? && w.sessions[s].route.DataErasure?
    ensures Executable(H, w, id)
  {
    var more := [RunEffect(s), Finalize(s, "", None)];
    var w1 := StepRunEffect(w, RunEffect(s));
    OwnerFinalizes(w1, s, id, DataErasure, w.sessions[s].claimed);
    TwoEvents(H, w, w1, StepFinalize(w1, Finalize(s, "", None)), RunEffect(s), Finalize(s, "", None));
    forall k | 0 <= k < |more| ensures Fresh(Run(H, w, more[..k]), more[k]) {
      FreshUnlessTaking(Run(H, w, more[..k]), more[k]);
    }
  }

  /** The rotation of an erasure call that is resuming at the live instant. */
  lemma ErasureResumes(H: Digest, w: World, s: SessionId, id: Id, now: Instant) returns (w1: World)
    requires Inv(H, w) && ResumesAt(w, s, id) && w.sessions[s].route.DataErasure?
    requires forall g :: g in w.past.grants ==> g.at != now
    ensures Step(H, w, TakeClaim(s, now)) == w1 && Fresh(w, TakeClaim(s, now))
    ensures Owns(w1, s, id) && w1.sessions[s].Holding? && w1.sessions[s].route.DataErasure?
  {
    var seen := w.sessions[s].seen;
    w1 := StepTakeClaim(w, TakeClaim(s, now));
    assert TaskOk(w, s, w.sessions[s]);
    assert Grant(id, seen.claimedAt.value, seen.approver.value) in w.past.grants;
    ClaimWriteOk(w, s, w.sessions[s], now);
  }

  lemma ErasureResumeExecutes(H: Digest, w: World, s: SessionId, id: Id)
    requires Inv(H, w) && ResumesAt(w, s, id) && w.sessions[s].route.DataErasure?
    ensures Executable(H, w, id)
  {
    var now := FreshInstant(w.past.grants);
    var w1 := ErasureResumes(H, w, s, id, now);
    ErasureOwnerExecutes(H, w1, s, id);
    ExecutableBefore(H, w, TakeClaim(s, now), w1, id);
  }

  lemma ExecutableBefore(H: Digest, w: World, e: Event, w1: World, id: Id)
    requires Step(H, w, e) == w1 && Fresh(w, e) && OwnRoute(e, id) && Executable(H, w1, id)
    ensures Executable(H, w, id)
  {
    var rest :| FreshFrom(H, w1, rest) && OwnRoutes(rest, id) && IsExecuted(Run(H, w1, rest), id);
    FirstEvent(H, w, e, w1, rest);
    FreshAfter(H, w, e, w1, rest);
  }

  lemma FreshAfter(H: Digest, w: World, e: Event, w1: World, rest: seq<Event>)
    requires Step(H, w, e) == w1 && Fresh(w, e) && FreshFrom(H, w1, rest)
    ensures FreshFrom(H, w, [e] + rest)
  {
    var es := [e] + rest;
    forall k | 0 <= k < |es| ensures Fresh(Run(H, w, es[..k]), es[k]) {
      if k > 0 {
        assert es[..k] == [e] + rest[..k - 1];
        FirstEvent(H, w, e, w1, rest[..k - 1]);
      }
    }
  }

  /**
   A claimed release can still be executed without a new call through another route exactly
   when the claim it pins is live, its owner is past the effect, or an erasure call has it.
   */
  lemma ReleaseExecutableIff(H: Digest, es: seq<Event>, id: Id)
    requires TagsApart(H, es) && id in Run(H, INITIAL, es).ledger
    requires Run(H, INITIAL, es).ledger[id].intent.kind.ClaimRelease? && Run(H, INITIAL, es).ledger[id].status == Claimed
    ensures var w := Run(H, INITIAL, es);
            Executable(H, w, id) <==> PinLive(w, w.ledger[id].intent.payload) || PastEffect(w, id) || ErasureLive(w, id)
  {
    var w := Run(H, INITIAL, es);
    var pin := w.ledger[id].intent.payload;
    RunKeeps(H, es);
    assert RowOk(w, id) && IntentOk(H, w.ledger[id].intent);
    if PinLive(w, pin) {
      ThreeCredentials(H, es, id);
      var more := ResumedReleaseExecutes(H, w, id);
    } else if s :| Owns(w, s, id) && w.sessions[s].Effected? {
      OwnerExecutes(H, w, s, id);
    } else if s :| ErasureHas(w, s, id) {
      ErasureExecutes(H, w, s, id);
    } else {
      PinsGrantedRun(H, es);
      RunFits(H, es);
      assert Stranded(w, id, pin);
      forall more | FreshFrom(H, w, more) && OwnRoutes(more, id) ensures !IsExecuted(Run(H, w, more), id) {
        StrandedForever(H, w, more, id, pin);
      }
    }
  }

  lemma ErasureExecutes(H: Digest, w: World, s: SessionId, id: Id)
    requires Inv(H, w) && ErasureHas(w, s, id)
    ensures Executable(H, w, id)
  {
    assert TaskOk(w, s, w.sessions[s]);
    if ResumesAt(w, s, id) {
      ErasureResumeExecutes(H, w, s, id);
    } else if w.sessions[s].Effected? {
      OwnerExecutes(H, w, s, id);
    } else {
      ErasureOwnerExecutes(H, w, s, id);
    }
  }
}
