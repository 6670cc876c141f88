/**
 What every run of the governed-action protocol keeps, whatever the interleaving, the
 crashes and the clocks: an inductive invariant over the store, the calls in progress and
 their possibly stale local copies.
 */
module GovernedActionSafety {
  import opened Wrappers
  import opened GovernedActions

  // ----- the invariant -----

  /** What holds of an intent from the moment its id is drawn. */
  ghost predicate IntentOk(H: Digest, i: Intent) {
    && i.hash == H(i.payload)
    && (i.actor == SystemOriginated ==> !HumanGoverned(i.kind))
    && (i.actor == HumanApproved ==> i.requester.key.Some? && i.requester.key.value != "")
    && i.kind == Tag(i.payload)
    && (i.kind.ClaimRelease? ==> i.payload.FrozenClaim? && i.requester.key != Some(i.payload.frozenKey))
  }

  /** Dual control: the approver is a verified credential, and not the requester's. */
  ghost predicate DualControl(i: Intent, approver: Approver) {
    i.actor == HumanApproved && approver.key != "" && i.requester.key != Some(approver.key)
  }

  /** A record is one of four shapes, each determined by its intent and its evidence. */
  ghost predicate RecordOk(r: Record) {
    match r.status
    case Pending => r.intent.actor == HumanApproved && r == PendingRecord(r.intent)
    case Claimed =>
      && r.approver.Some? && r.claimedAt.Some?
      && DualControl(r.intent, r.approver.value)
      && r == ClaimedRecord(r.intent, r.approver.value, r.claimedAt.value)
    case Executed =>
      && r.executedAt.Some? && r.supersededBy.None?
      && (r.intent.actor == HumanApproved ==>
            r.approver.Some? && r.claimedAt.Some? && DualControl(r.intent, r.approver.value))
      && (r.intent.actor == SystemOriginated ==> r.approver.None? && r.claimedAt.None?)
    case Superseded =>
      r.supersededBy.Some? && r.intent.actor == HumanApproved
      && r == PendingRecord(r.intent).(status := Superseded, supersededBy := r.supersededBy)
  }

  /** `r` is a well-formed record of action `id`, current or stale. */
  ghost predicate Of(w: World, id: Id, r: Record) {
    id in w.past.issued && r.intent == w.past.issued[id] && RecordOk(r)
  }

  predicate IsDraft(t: Task) {
    t.Drafted? || t.PriorRead? || t.Inserting?
  }

  predicate Executes(t: Task) {
    t.Holding? || t.TargetRead? || t.Effected?
  }

  ghost predicate TaskOk(w: World, s: SessionId, t: Task) {
    match t
    case Drafted(id, draft) => DraftOk(w, s, id, draft)
    case PriorRead(id, draft, prior) =>
      && DraftOk(w, s, id, draft)
      && (prior.Some? ==> Of(w, prior.value.0, prior.value.1)
                          && PendingFor(prior.value.1, draft.intent.kind, draft.intent.target))
    case Inserting(id, draft) => DraftOk(w, s, id, draft)
    case Approving(id, _, caller, _, seen, resuming) =>
      && Of(w, id, seen) && seen.intent.actor == HumanApproved
      && Verified(caller) && caller.key != seen.intent.requester.key
      && (if resuming then HoldOk(w, id, seen) && caller.key == Some(seen.approver.value.key)
          else seen.status == Pending)
    case Holding(id, _, claimed) => HoldOk(w, id, claimed)
    case TargetRead(id, route, claimed, target) =>
      && HoldOk(w, id, claimed) && route.ClaimRelease?
      && claimed.intent.payload.FrozenClaim?
      && Of(w, claimed.intent.payload.targetId, target) && target.status == Claimed
    case Effected(id, _, claimed) => HoldOk(w, id, claimed)
    case Expiring(listed) => listed <= w.past.stored
  }

  /** Only the session that drew an id can still be about to store it. */
  ghost predicate DraftOk(w: World, s: SessionId, id: Id, draft: Record) {
    Of(w, id, draft) && draft.status == Pending && id !in w.past.stored && id in w.past.drawnBy && w.past.drawnBy[id] == s
  }

  ghost predicate HoldOk(w: World, id: Id, claimed: Record) {
    && Of(w, id, claimed) && claimed.status == Claimed
    && Grant(id, claimed.claimedAt.value, claimed.approver.value) in w.past.grants
  }

  ghost predicate RowOk(w: World, id: Id) {
    id in w.ledger ==>
      && id in w.past.stored && Of(w, id, w.ledger[id])
      && (w.ledger[id].status == Claimed ==> HoldOk(w, id, w.ledger[id]))
  }

  /** No release pins itself. */
  predicate PinsAnother(id: Id, i: Intent) {
    i.payload.FrozenClaim? ==> i.payload.targetId != id
  }

  ghost predicate Inv(H: Digest, w: World) {
    && (forall id :: id in w.past.issued ==> IntentOk(H, w.past.issued[id]) && PinsAnother(id, w.past.issued[id]))
    && w.past.stored <= w.past.issued.Keys
    && (forall id :: RowOk(w, id))
    && (forall s :: s in w.sessions ==> TaskOk(w, s, w.sessions[s]))
  }

  // ----- the invariant is inductive, one event at a time -----

  /** History only grows. */
  ghost predicate Grows(w: World, w': World) {
    && (forall id :: id in w.past.issued ==> id in w'.past.issued && w'.past.issued[id] == w.past.issued[id])
    && (forall id :: id in w.past.issued && id in w.past.drawnBy ==>
          id in w'.past.drawnBy && w'.past.drawnBy[id] == w.past.drawnBy[id])
    && w.past.grants <= w'.past.grants && w.past.stored <= w'.past.stored
  }

  lemma TaskKept(w: World, w': World, s: SessionId, t: Task)
    requires TaskOk(w, s, t) && Grows(w, w')
    requires IsDraft(t) ==> t.id !in w'.past.stored
    ensures TaskOk(w', s, t)
  {
  }

  lemma RowKept(w: World, w': World, id: Id)
    requires RowOk(w, id) && Grows(w, w')
    requires id in w'.ledger ==> id in w.ledger && w'.ledger[id] == w.ledger[id]
    ensures RowOk(w', id)
  {
  }

  /** Session `s` starts, moves on or ends, and at most the row of `id` is written. */
  lemma WorldKept(H: Digest, w: World, w': World, s: SessionId, id: Id)
    requires Inv(H, w) && Grows(w, w')
    requires forall i :: i in w'.past.issued && i !in w.past.issued ==>
          IntentOk(H, w'.past.issued[i]) && PinsAnother(i, w'.past.issued[i])
    requires forall i :: i in w'.ledger && i != id ==> i in w.ledger && w'.ledger[i] == w.ledger[i]
    requires RowOk(w', id)
    requires forall t :: t in w'.sessions && t != s ==> t in w.sessions && w'.sessions[t] == w.sessions[t]
    requires s in w'.sessions ==> TaskOk(w', s, w'.sessions[s])
    requires w'.past.stored <= w.past.stored + {id} && w'.past.stored <= w'.past.issued.Keys
    requires id in w'.past.stored && id !in w.past.stored ==>
               forall t :: t in w'.sessions && t != s && IsDraft(w'.sessions[t]) ==> w'.sessions[t].id != id
    ensures Inv(H, w')
  {
    forall i ensures RowOk(w', i) {
      if i != id {
        assert RowOk(w, i);
        RowKept(w, w', i);
      }
    }
    forall t | t in w'.sessions ensures TaskOk(w', t, w'.sessions[t]) {
      if t != s {
        TaskKept(w, w', t, w.sessions[t]);
      }
    }
  }

  /** Session `s` starts, moves on or ends, and the store is untouched. */
  lemma MoveKept(H: Digest, w: World, w': World, s: SessionId)
    requires Inv(H, w) && w' == w.(sessions := w'.sessions)
    requires forall t :: t in w'.sessions && t != s ==> t in w.sessions && w'.sessions[t] == w.sessions[t]
    requires s in w'.sessions ==> TaskOk(w', s, w'.sessions[s])
    ensures Inv(H, w')
  {
    assert RowOk(w, "");
    RowKept(w, w', "");
    WorldKept(H, w, w', s, "");
  }

  /** Session `s` moves on or ends, and rewrites the row of `id`. */
  lemma RewriteKept(H: Digest, w: World, w': World, s: SessionId, id: Id)
    requires Inv(H, w) && id in w.ledger && id in w'.ledger
    requires w'.ledger == w.ledger[id := w'.ledger[id]]
    requires w'.past.issued == w.past.issued && w'.past.drawnBy == w.past.drawnBy &&
          w'.past.stored == w.past.stored && w.past.grants <= w'.past.grants
    requires RowOk(w', id)
    requires forall t :: t in w'.sessions && t != s ==> t in w.sessions && w'.sessions[t] == w.sessions[t]
    requires s in w'.sessions ==> TaskOk(w', s, w'.sessions[s])
    ensures Inv(H, w')
  {
    WorldKept(H, w, w', s, id);
  }

  lemma DraftKeeps(H: Digest, w: World, s: SessionId, id: Id, caller: Caller, kind: ActionType, target: string,
                   payload: Payload, attribution: Option<string>, now: Instant)
    requires Inv(H, w) && kind == Tag(payload)
    requires kind.ClaimRelease? ==>
               payload.FrozenClaim? && caller.key != Some(payload.frozenKey) && payload.targetId in w.past.issued
    ensures Inv(H, Draft(H, w, s, id, caller, kind, target, payload, attribution, now))
  {
    var w' := Draft(H, w, s, id, caller, kind, target, payload, attribution, now);
    if w' != w {
      assert RowOk(w, id);
      assert TaskOk(w', s, w'.sessions[s]);
      WorldKept(H, w, w', s, id);
    }
  }

  lemma SubmitKeeps(H: Digest, w: World, e: Event)
    requires Inv(H, w) && e.Submit?
    ensures Inv(H, StepSubmit(H, w, e))
  {
    if StepSubmit(H, w, e) != w {
      DraftKeeps(H, w, e.s, e.id, e.caller, e.kind, e.target, DomainFields(e.kind, e.fields), e.attribution, e.now);
    }
  }

  lemma RequestReleaseKeeps(H: Digest, w: World, e: Event)
    requires Inv(H, w) && e.RequestRelease?
    ensures Inv(H, StepRequestRelease(H, w, e))
  {
    if StepRequestRelease(H, w, e) != w {
      var target := w.ledger[e.targetId];
      assert RowOk(w, e.targetId);
      var payload := FrozenClaim(e.targetId, target.intent.hash, target.claimedAt.value,
                                    target.approver.value.key, e.reason);
      DraftKeeps(H, w, e.s, e.id, e.caller, ClaimRelease, e.targetId, payload, e.attribution, e.now);
    }
  }

  lemma ReadPriorKeeps(H: Digest, w: World, e: Event)
    requires Inv(H, w) && e.ReadPrior?
    ensures Inv(H, StepReadPrior(w, e))
  {
    var w' := StepReadPrior(w, e);
    if w' != w {
      assert TaskOk(w, e.s, w.sessions[e.s]);
      if e.choice.Some? {
        assert RowOk(w, e.choice.value);
      }
      assert TaskOk(w', e.s, w'.sessions[e.s]);
      MoveKept(H, w, w', e.s);
    }
  }

  lemma SupersededKeeps(H: Digest, w: World, w': World, s: SessionId, task: Task, p: Id, seen: Record)
    requires Inv(H, w) && task.PriorRead? && TaskOk(w, s, task) && task.prior == Some((p, seen)) && p in w.ledger
    requires w' == w.(ledger := w.ledger[p := seen.(status := Superseded, supersededBy := Some(task.id))],
                      sessions := w.sessions[s := Inserting(task.id, task.draft)])
    ensures Inv(H, w')
  {
    assert RowOk(w, p) && RowOk(w', p);
    assert DraftOk(w', s, task.id, task.draft);
    RewriteKept(H, w, w', s, p);
  }

  lemma SupersedeKeeps(H: Digest, w: World, e: Event)
    requires Inv(H, w) && e.SupersedePrior?
    ensures Inv(H, StepSupersede(w, e))
  {
    var w' := StepSupersede(w, e);
    if w' != w {
      var task := w.sessions[e.s];
      assert TaskOk(w, e.s, task);
      if w' == w.(sessions := w'.sessions) {
        assert DraftOk(w', e.s, task.id, task.draft);
        MoveKept(H, w, w', e.s);
      } else {
        SupersededKeeps(H, w, w', e.s, task, task.prior.value.0, task.prior.value.1);
      }
    }
  }

  lemma InsertKeeps(H: Digest, w: World, e: Event)
    requires Inv(H, w) && e.Insert?
    ensures Inv(H, StepInsert(w, e))
  {
    var w' := StepInsert(w, e);
    if w' != w {
      var id := w.sessions[e.s].id;
      assert TaskOk(w, e.s, w.sessions[e.s]);
      forall t | t in w'.sessions && t != e.s && IsDraft(w'.sessions[t]) ensures w'.sessions[t].id != id {
        assert TaskOk(w, t, w.sessions[t]);
      }
      assert RowOk(w', id);
      WorldKept(H, w, w', e.s, id);
    }
  }

  lemma ValidateKeeps(H: Digest, w: World, e: Event)
    requires Inv(H, w) && e.Validate?
    ensures Inv(H, StepValidate(H, w, e))
  {
    var w' := StepValidate(H, w, e);
    if w' != w {
      assert RowOk(w, e.id);
      assert TaskOk(w', e.s, w'.sessions[e.s]);
      MoveKept(H, w, w', e.s);
    }
  }

  /** The record a claim or rotation writes is again a well-formed claim. */
  lemma ClaimWriteOk(w: World, s: SessionId, task: Task, now: Instant)
    requires task.Approving? && TaskOk(w, s, task)
    ensures var r := ClaimWrite(task, now);
            r.status == Claimed && Of(w, task.id, r) && r.claimedAt == Some(now) && r.approver.Some?
            && task.caller.key == Some(r.approver.value.key)
  {
  }

  lemma ClaimWonKeeps(H: Digest, w: World, w': World, s: SessionId, id: Id, route: ActionType, claimed: Record)
    requires Inv(H, w) && id in w.ledger && claimed.status == Claimed && Of(w, id, claimed)
    requires w' == w.(ledger := w.ledger[id := claimed], sessions := w.sessions[s := Holding(id, route, claimed)],
                      past := w.past.(grants := w.past.grants +
                            {Grant(id, claimed.claimedAt.value, claimed.approver.value)}))
    ensures Inv(H, w')
  {
    assert RowOk(w, id) && HoldOk(w', id, claimed);
    RewriteKept(H, w, w', s, id);
  }

  lemma TakeClaimKeeps(H: Digest, w: World, e: Event)
    requires Inv(H, w) && e.TakeClaim?
    ensures Inv(H, StepTakeClaim(w, e))
  {
    var w' := StepTakeClaim(w, e);
    if w' != w {
      var task := w.sessions[e.s];
      assert TaskOk(w, e.s, task);
      if e.s !in w'.sessions {
        MoveKept(H, w, w', e.s);
      } else {
        ClaimWriteOk(w, e.s, task, e.now);
        ClaimWonKeeps(H, w, w', e.s, task.id, task.route, ClaimWrite(task, e.now));
      }
    }
  }

  lemma ReadTargetKeeps(H: Digest, w: World, e: Event)
    requires Inv(H, w) && e.ReadTarget?
    ensures Inv(H, StepReadTarget(w, e))
  {
    var w' := StepReadTarget(w, e);
    if w' != w {
      var task := w.sessions[e.s];
      assert TaskOk(w, e.s, task);
      if e.s in w'.sessions {
        var targetId := task.claimed.intent.payload.targetId;
        assert RowOk(w, targetId);
        assert Of(w', targetId, w.ledger[targetId]) && HoldOk(w', task.id, task.claimed);
      }
      MoveKept(H, w, w', e.s);
    }
  }

  lemma RunEffectKeeps(H: Digest, w: World, e: Event)
    requires Inv(H, w) && e.RunEffect?
    ensures Inv(H, StepRunEffect(w, e))
  {
    var w' := StepRunEffect(w, e);
    if w' != w {
      assert TaskOk(w, e.s, w.sessions[e.s]);
      if e.s in w'.sessions {
        assert HoldOk(w', w.sessions[e.s].id, w.sessions[e.s].claimed);
      }
      MoveKept(H, w, w', e.s);
    }
  }

  lemma LandedKeeps(H: Digest, w: World, w': World, s: SessionId, task: Task, id: Id)
    requires Inv(H, w) && task.TargetRead? && TaskOk(w, s, task) && id == task.claimed.intent.payload.targetId
    requires id in w.ledger
    requires w' == w.(ledger := w.ledger[id := Released(task.target)],
                      sessions := w.sessions[s := Effected(task.id, task.route, task.claimed)])
    ensures Inv(H, w')
  {
    assert Released(task.target) == PendingRecord(task.target.intent);
    assert RowOk(w, id) && RowOk(w', id);
    assert HoldOk(w', task.id, task.claimed);
    RewriteKept(H, w, w', s, id);
  }

  lemma ReleaseTargetKeeps(H: Digest, w: World, e: Event)
    requires Inv(H, w) && e.ReleaseTarget?
    ensures Inv(H, StepReleaseTarget(w, e))
  {
    var w' := StepReleaseTarget(w, e);
    if w' != w {
      var task := w.sessions[e.s];
      assert TaskOk(w, e.s, task);
      if e.s !in w'.sessions {
        MoveKept(H, w, w', e.s);
      } else {
        LandedKeeps(H, w, w', e.s, task, task.claimed.intent.payload.targetId);
      }
    }
  }

  lemma FinalizeKeeps(H: Digest, w: World, e: Event)
    requires Inv(H, w) && e.Finalize?
    ensures Inv(H, StepFinalize(w, e))
  {
    var w' := StepFinalize(w, e);
    if w' != w {
      var task := w.sessions[e.s];
      assert TaskOk(w, e.s, task);
      if w' == w.(sessions := w'.sessions) {
        MoveKept(H, w, w', e.s);
      } else {
        assert RowOk(w, task.id) && RowOk(w', task.id);
        RewriteKept(H, w, w', e.s, task.id);
      }
    }
  }

  lemma RecordSystemKeeps(H: Digest, w: World, e: Event)
    requires Inv(H, w) && e.RecordSystem?
    ensures Inv(H, StepRecordSystem(H, w, e))
  {
    var w' := StepRecordSystem(H, w, e);
    if w' != w {
      forall t | t in w.sessions && IsDraft(w.sessions[t]) ensures w.sessions[t].id != e.id {
        assert TaskOk(w, t, w.sessions[t]);
      }
      forall i ensures RowOk(w', i) {
        if i != e.id {
          assert RowOk(w, i);
          RowKept(w, w', i);
        }
      }
      forall t | t in w'.sessions ensures TaskOk(w', t, w'.sessions[t]) {
        TaskKept(w, w', t, w.sessions[t]);
      }
    }
  }

  lemma ListExpiredKeeps(H: Digest, w: World, e: Event)
    requires Inv(H, w) && e.ListExpired?
    ensures Inv(H, StepListExpired(w, e))
  {
    var w' := StepListExpired(w, e);
    if w' != w {
      forall id | id in e.ids ensures id in w.past.stored {
        assert RowOk(w, id);
      }
      MoveKept(H, w, w', e.s);
    }
  }

  lemma DeleteListedKeeps(H: Digest, w: World, e: Event)
    requires Inv(H, w) && e.DeleteListed?
    ensures Inv(H, StepDeleteListed(w, e))
  {
    var w' := StepDeleteListed(w, e);
    if w' != w {
      assert TaskOk(w, e.s, w.sessions[e.s]);
      forall i ensures RowOk(w', i) {
        assert RowOk(w, i);
        RowKept(w, w', i);
      }
      forall t | t in w'.sessions ensures TaskOk(w', t, w'.sessions[t]) {
        if t != e.s {
          TaskKept(w, w', t, w.sessions[t]);
        }
      }
    }
  }

  lemma StepKeeps(H: Digest, w: World, e: Event)
    requires Inv(H, w)
    ensures Inv(H, Step(H, w, e))
  {
    match e
    case Submit(_, _, _, _, _, _, _, _) => SubmitKeeps(H, w, e);
    case RequestRelease(_, _, _, _, _, _, _) => RequestReleaseKeeps(H, w, e);
    case ReadPrior(_, _) => ReadPriorKeeps(H, w, e);
    case SupersedePrior(_) => SupersedeKeeps(H, w, e);
    case Insert(_) => InsertKeeps(H, w, e);
    case Validate(_, _, _, _, _, _, _, _, _) => ValidateKeeps(H, w, e);
    case TakeClaim(_, _) => TakeClaimKeeps(H, w, e);
    case ReadTarget(_) => ReadTargetKeeps(H, w, e);
    case RunEffect(_) => RunEffectKeeps(H, w, e);
    case ReleaseTarget(_) => ReleaseTargetKeeps(H, w, e);
    case Finalize(_, _, _) => FinalizeKeeps(H, w, e);
    case RecordSystem(_, _, _, _, _, _) => RecordSystemKeeps(H, w, e);
    case Crash(s) => MoveKept(H, w, SessionOver(w, s), s);
    case ListExpired(_, _) => ListExpiredKeeps(H, w, e);
    case DeleteListed(_, _) => DeleteListedKeeps(H, w, e);
  }

  lemma {:induction false} ContinuationKeeps(H: Digest, w: World, es: seq<Event>)
    requires Inv(H, w)
    ensures Inv(H, Run(H, w, es))
  {
    if es != [] {
      ContinuationKeeps(H, w, es[..|es| - 1]);
      StepKeeps(H, Run(H, w, es[..|es| - 1]), es[|es| - 1]);
    }
  }

  /** The invariant holds after every run. */
  lemma RunKeeps(H: Digest, es: seq<Event>)
    ensures Inv(H, Run(H, INITIAL, es))
  {
    ContinuationKeeps(H, INITIAL, es);
  }

  // ----- runs, taken apart -----

  lemma RunNext(H: Digest, w: World, es: seq<Event>, e: Event, v: World)
    requires Run(H, w, es) == v
    ensures Run(H, w, es + [e]) == Step(H, v, e)
  {
    assert (es + [e])[..|es|] == es;
  }

  lemma {:induction false} RunConcat(H: Digest, w: World, a: seq<Event>, b: seq<Event>)
    ensures Run(H, w, a + b) == Run(H, Run(H, w, a), b)
  {
    if b == [] {
      assert a + b == a;
    } else {
      RunConcat(H, w, a, b[..|b| - 1]);
      assert (a + b)[..|a + b| - 1] == a + b[..|b| - 1];
    }
  }

  lemma FirstEvent(H: Digest, w: World, e: Event, w1: World, rest: seq<Event>)
    requires Step(H, w, e) == w1
    ensures Run(H, w, [e] + rest) == Run(H, w1, rest)
  {
    RunNext(H, w, [], e, w);
    assert [] + [e] == [e];
    RunConcat(H, w, [e], rest);
  }

  lemma TwoEvents(H: Digest, w: World, w1: World, w2: World, a: Event, b: Event)
    requires Step(H, w, a) == w1 && Step(H, w1, b) == w2
    ensures Run(H, w, [a]) == w1 && Run(H, w, [a, b]) == w2
  {
    RunNext(H, w, [], a, w);
    RunNext(H, w, [a], b, w1);
    assert [] + [a] == [a] && [a] + [b] == [a, b];
  }

  lemma ThreeEvents(H: Digest, w: World, w1: World, w2: World, a: Event, b: Event, c: Event)
    requires Step(H, w, a) == w1 && Step(H, w1, b) == w2
    ensures Run(H, w, [a, b, c]) == Step(H, w2, c)
  {
    RunNext(H, w, [], a, w);
    RunNext(H, w, [a], b, w1);
    RunNext(H, w, [a, b], c, w2);
    assert [] + [a] == [a] && [a] + [b] == [a, b] && [a, b] + [c] == [a, b, c];
  }

  // ----- what the invariant says of every action, after every run -----

  /** Requester and approver evidence of every recorded action, after every run. */
  lemma EvidenceAfterEveryRun(H: Digest, es: seq<Event>, id: Id)
    requires id in Run(H, INITIAL, es).ledger
    ensures var r := Run(H, INITIAL, es).ledger[id];
            && r.intent.hash == H(r.intent.payload)
            && (r.intent.actor == HumanApproved && r.status in {Claimed, Executed} ==>
                  && r.approver.Some? && r.approver.value.key != ""
                  && r.intent.requester.key.Some? && r.intent.requester.key.value != ""
                  && r.intent.requester.key.value != r.approver.value.key)
            && (r.intent.actor == SystemOriginated ==>
                  !HumanGoverned(r.intent.kind) && r.status == Executed && r.approver.None?)
            && (r.status == Pending ==> r == PendingRecord(r.intent))
            && (r.status == Superseded ==> r.approver.None? && r.claimedAt.None? && r.executedAt.None?)
  {
    RunKeeps(H, es);
    assert RowOk(Run(H, INITIAL, es), id);
  }

  // ----- an executed or superseded action never changes again -----

  /** `id` was stored once and is so no longer. */
  predicate Gone(w: World, id: Id) {
    id in w.past.stored && id !in w.ledger
  }

  predicate Terminal(w: World, id: Id) {
    id in w.ledger && w.ledger[id].status in {Executed, Superseded}
  }

  lemma StoredStep(H: Digest, w: World, e: Event)
    ensures w.past.stored <= Step(H, w, e).past.stored
  {
  }

  lemma IssuedStays(H: Digest, w: World, e: Event, id: Id)
    requires id in w.past.issued
    ensures id in Step(H, w, e).past.issued && Step(H, w, e).past.issued[id] == w.past.issued[id]
  {
  }

  /** A stored row is written again only by a transition, and no transition starts from a
      terminal status or from nothing. */
  lemma TerminalRow(H: Digest, w: World, e: Event, id: Id)
    requires Inv(H, w) && id in w.past.stored && (id in w.ledger ==> Terminal(w, id))
    ensures var w' := Step(H, w, e);
            id in w'.ledger ==> id in w.ledger && w'.ledger[id] == w.ledger[id]
  {
    if e.Insert? {
      InsertsNew(H, w, e, id);
    } else if e.RecordSystem? {
      assert id in w.past.issued;
    } else {
      TransitionedRow(H, w, e, id);
    }
  }

  lemma InsertsNew(H: Digest, w: World, e: Event, id: Id)
    requires Inv(H, w) && e.Insert? && id in w.past.stored
    ensures id in StepInsert(w, e).ledger ==> id in w.ledger && StepInsert(w, e).ledger[id] == w.ledger[id]
  {
    if e.s in w.sessions {
      assert TaskOk(w, e.s, w.sessions[e.s]);
    }
  }

  lemma TransitionedRow(H: Digest, w: World, e: Event, id: Id)
    requires !e.Insert? && !e.RecordSystem? && (id in w.ledger ==> Terminal(w, id))
    ensures id in Step(H, w, e).ledger ==> id in w.ledger && Step(H, w, e).ledger[id] == w.ledger[id]
  {
  }

  /** The world after the first `i` events of a run. */
  function At(H: Digest, es: seq<Event>, i: nat): World
    requires i <= |es|
  {
    Run(H, INITIAL, es[..i])
  }

  lemma AtNext(H: Digest, es: seq<Event>, i: nat)
    requires i < |es|
    ensures At(H, es, i + 1) == Step(H, At(H, es, i), es[i])
  {
    assert es[..i + 1][..i] == es[..i];
  }

  /** Once deleted, an action is never stored again. */
  lemma {:induction false} GoneForever(H: Digest, es: seq<Event>, i: nat, j: nat, id: Id)
    requires i <= j <= |es| && Gone(At(H, es, i), id)
    ensures Gone(At(H, es, j), id)
  {
    if i < j {
      GoneForever(H, es, i, j - 1, id);
      RunKeeps(H, es[..j - 1]);
      AtNext(H, es, j - 1);
      StoredStep(H, At(H, es, j - 1), es[j - 1]);
      TerminalRow(H, At(H, es, j - 1), es[j - 1], id);
    }
  }

  /** `id` is still stored as `r`, or is gone. */
  predicate SameOrGone(w: World, id: Id, r: Record) {
    Gone(w, id) || (id in w.ledger && w.ledger[id] == r)
  }

  lemma TerminalStep(H: Digest, w: World, e: Event, id: Id, r: Record)
    requires Inv(H, w) && SameOrGone(w, id, r) && r.status in {Executed, Superseded}
    ensures SameOrGone(Step(H, w, e), id, r)
  {
    assert RowOk(w, id);
    StoredStep(H, w, e);
    TerminalRow(H, w, e, id);
  }

  /** Once executed or superseded, a record is never rewritten: later it is the same record,
      or it has been deleted, for good. */
  lemma {:induction false} TerminalForever(H: Digest, es: seq<Event>, i: nat, j: nat, id: Id)
    requires i <= j <= |es| && Terminal(At(H, es, i), id)
    ensures SameOrGone(At(H, es, j), id, At(H, es, i).ledger[id])
  {
    if i < j {
      TerminalForever(H, es, i, j - 1, id);
      RunKeeps(H, es[..j - 1]);
      AtNext(H, es, j - 1);
      TerminalStep(H, At(H, es, j - 1), es[j - 1], id, At(H, es, i).ledger[id]);
    }
  }

  predicate IsExecuted(w: World, id: Id) {
    id in w.ledger && w.ledger[id].status == Executed
  }

  /** The `k`-th event is the one that makes `id` executed. */
  predicate MovesToExecuted(H: Digest, es: seq<Event>, k: nat, id: Id)
    requires k < |es|
  {
    !IsExecuted(At(H, es, k), id) && IsExecuted(At(H, es, k + 1), id)
  }

  /** Whatever the interleaving, one action moves to EXECUTED at most once. */
  lemma ExecutedAtMostOnce(H: Digest, es: seq<Event>, k: nat, l: nat, id: Id)
    requires k < |es| && l < |es|
    requires MovesToExecuted(H, es, k, id) && MovesToExecuted(H, es, l, id)
    ensures k == l
  {
    if k < l {
      LaterMoveImpossible(H, es, k, l, id);
    } else if l < k {
      LaterMoveImpossible(H, es, l, k, id);
    }
  }

  lemma LaterMoveImpossible(H: Digest, es: seq<Event>, k: nat, l: nat, id: Id)
    requires k < l < |es|
    requires MovesToExecuted(H, es, k, id)
    ensures !MovesToExecuted(H, es, l, id)
  {
    TerminalForever(H, es, k + 1, l, id);
    if Gone(At(H, es, l), id) {
      GoneForever(H, es, l, l + 1, id);
    }
  }
}
