/**
 Which effect an executed action ran. A claim is taken through the action's own route, but a
 resume may come through another, and the erasure callback accepts any payload: an executed
 action ran its own effect or the erasure, and every one ran its own exactly as long as no
 finalization through the erasure route lands on an action of another type.
 */
module GovernedActionRoutes {
  import opened Wrappers
  import opened GovernedActions
  import opened GovernedActionSafety
  import opened GovernedActionOwnership
  import opened GovernedActionApproval

  /** What the route of a call can be, by how far the call is. */
  predicate RouteFits(t: Task) {
    match t
    case Approving(_, route, _, _, seen, resuming) => route == seen.intent.kind || (resuming && Resumable(route))
    case Holding(_, route, claimed) => route == claimed.intent.kind || Resumable(route)
    case TargetRead(_, route, claimed, _) => route == claimed.intent.kind
    case Effected(_, route, claimed) => OwnOrErasure(route, claimed.intent.kind)
    case _ => true
  }

  predicate OwnOrErasure(route: ActionType, kind: ActionType) {
    route == kind || route.DataErasure?
  }

  ghost predicate EffectKnown(w: World, id: Id) {
    && (id in w.past.ranBy ==> id in w.past.issued && OwnOrErasure(w.past.ranBy[id], w.past.issued[id].kind))
    && (IsExecuted(w, id) && w.ledger[id].intent.actor == HumanApproved ==> id in w.past.ranBy)
  }

  ghost predicate RoutesFit(w: World) {
    && (forall s :: s in w.sessions ==> RouteFits(w.sessions[s]))
    && (forall id :: EffectKnown(w, id))
  }

  lemma ValidatedFits(H: Digest, w: World, e: Event)
    requires Inv(H, w) && ApartAt(H, w, e) && e.Validate? && StepValidate(H, w, e) != w
    ensures e.s in StepValidate(H, w, e).sessions && RouteFits(StepValidate(H, w, e).sessions[e.s])
  {
    assert RowOk(w, e.id) && IntentOk(H, w.ledger[e.id].intent);
  }

  lemma ReadTargetFits(H: Digest, w: World, e: Event)
    requires Inv(H, w) && e.ReadTarget? && e.s in StepReadTarget(w, e).sessions && RouteFits(w.sessions[e.s])
    ensures RouteFits(StepReadTarget(w, e).sessions[e.s])
  {
    assert TaskOk(w, e.s, w.sessions[e.s]);
    if StepReadTarget(w, e) != w {
      assert IntentOk(H, w.sessions[e.s].claimed.intent);
    }
  }

  lemma RunEffectFits(H: Digest, w: World, e: Event)
    requires Inv(H, w) && e.RunEffect? && e.s in StepRunEffect(w, e).sessions && RouteFits(w.sessions[e.s])
    ensures RouteFits(StepRunEffect(w, e).sessions[e.s])
  {
    assert TaskOk(w, e.s, w.sessions[e.s]);
    if StepRunEffect(w, e) != w {
      assert IntentOk(H, w.sessions[e.s].claimed.intent);
    }
  }

  /** Every other event leaves a call's task, ends the call, or starts one without a route. */
  lemma OtherwiseFits(H: Digest, w: World, e: Event, s: SessionId)
    requires s in Step(H, w, e).sessions && (s in w.sessions ==> RouteFits(w.sessions[s]))
    requires !(s == MovedBy(e) && (e.Validate? || e.ReadTarget? || e.RunEffect?))
    ensures RouteFits(Step(H, w, e).sessions[s])
  {
  }

  function MovedBy(e: Event): SessionId {
    if e.RecordSystem? then 0 else e.s
  }

  lemma SessionFits(H: Digest, w: World, e: Event, s: SessionId)
    requires Inv(H, w) && s in Step(H, w, e).sessions && (s in w.sessions ==> RouteFits(w.sessions[s]))
    requires s !in w.sessions ==> ApartAt(H, w, e)
    ensures RouteFits(Step(H, w, e).sessions[s])
  {
    if e.Validate? && s == e.s {
      if StepValidate(H, w, e) != w {
        ValidatedFits(H, w, e);
      }
    } else if e.ReadTarget? && s == e.s {
      ReadTargetFits(H, w, e);
    } else if e.RunEffect? && s == e.s {
      RunEffectFits(H, w, e);
    } else {
      OtherwiseFits(H, w, e, s);
    }
  }

  lemma FinalizedEffectKnown(H: Digest, w: World, e: Event, id: Id)
    requires Inv(H, w) && RoutesFit(w) && e.Finalize?
    ensures EffectKnown(StepFinalize(w, e), id)
  {
    assert EffectKnown(w, id);
    if e.s in w.sessions {
      assert TaskOk(w, e.s, w.sessions[e.s]);
    }
  }

  lemma EffectStaysKnown(H: Digest, w: World, e: Event, id: Id)
    requires Inv(H, w) && RoutesFit(w)
    ensures EffectKnown(Step(H, w, e), id)
  {
    assert EffectKnown(w, id) && RowOk(w, id);
    if e.Finalize? {
      FinalizedEffectKnown(H, w, e, id);
    } else {
      RanByKept(H, w, e);
      if id in w.past.issued {
        IssuedStays(H, w, e, id);
        if !IsExecuted(w, id) {
          NotExecutedElsewhere(H, w, e, id);
        } else {
          TerminalRow(H, w, e, id);
        }
      } else {
        NewlyExecuted(H, w, e, id);
      }
    }
  }

  lemma ClaimsDoNotExecute(H: Digest, w: World, e: Event, id: Id)
    requires Inv(H, w) && e.TakeClaim? && !IsExecuted(w, id)
    ensures !IsExecuted(StepTakeClaim(w, e), id)
  {
    if id in StepTakeClaim(w, e).ledger {
      ClaimRow(w, e, id);
    }
    if Wins(w, e) {
      ClaimWriteOk(w, e.s, w.sessions[e.s], e.now);
    }
  }

  lemma OnlyFinalizeExecutes(H: Digest, w: World, e: Event, id: Id)
    requires DraftsPending(w) && !e.Finalize? && !e.TakeClaim? && id in w.past.issued && !IsExecuted(w, id)
    ensures !IsExecuted(Step(H, w, e), id)
  {
  }

  lemma RanByKept(H: Digest, w: World, e: Event)
    requires !e.Finalize?
    ensures Step(H, w, e).past.ranBy == w.past.ranBy
  {
  }

  lemma NotExecutedElsewhere(H: Digest, w: World, e: Event, id: Id)
    requires Inv(H, w) && !e.Finalize? && id in w.past.issued && !IsExecuted(w, id)
    ensures !IsExecuted(Step(H, w, e), id)
  {
    if e.TakeClaim? {
      ClaimsDoNotExecute(H, w, e, id);
    } else {
      InvFacts(H, w);
      OnlyFinalizeExecutes(H, w, e, id);
    }
  }

  /** An action that is executed as soon as its id is drawn is the runtime's own. */
  lemma NewlyExecuted(H: Digest, w: World, e: Event, id: Id)
    requires Inv(H, w) && id !in w.past.issued
    ensures IsExecuted(Step(H, w, e), id) ==> Step(H, w, e).ledger[id].intent.actor == SystemOriginated
  {
    assert RowOk(w, id);
    StepKeeps(H, w, e);
    if IsExecuted(Step(H, w, e), id) {
      DrawnBy(H, w, e, id);
    }
  }

  lemma DrawnBy(H: Digest, w: World, e: Event, id: Id)
    requires Inv(H, w) && id !in w.past.issued && id in Step(H, w, e).ledger
    ensures e.RecordSystem? && id == e.id
  {
    StepKeeps(H, w, e);
    assert RowOk(Step(H, w, e), id) && RowOk(w, id);
    if !e.RecordSystem? {
      StoredByInsert(H, w, e, id);
    }
  }

  lemma StoredByInsert(H: Digest, w: World, e: Event, id: Id)
    requires Inv(H, w) && !e.RecordSystem? && id !in w.past.issued
    ensures id !in Step(H, w, e).past.stored
  {
    if e.Insert? && e.s in w.sessions {
      assert TaskOk(w, e.s, w.sessions[e.s]);
    }
  }

  lemma {:induction false} RunFits(H: Digest, es: seq<Event>)
    requires TagsApart(H, es)
    ensures RoutesFit(Run(H, INITIAL, es))
  {
    if es != [] {
      var prefix, e := es[..|es| - 1], es[|es| - 1];
      ApartPrefix(H, INITIAL, es, |es| - 1);
      var w := Run(H, INITIAL, prefix);
      RunFits(H, prefix);
      RunKeeps(H, prefix);
      forall s | s in Step(H, w, e).sessions ensures RouteFits(Step(H, w, e).sessions[s]) {
        SessionFits(H, w, e, s);
      }
      forall id ensures EffectKnown(Step(H, w, e), id) {
        EffectStaysKnown(H, w, e, id);
      }
    }
  }

  /** Without such a collision an executed two-step action was recorded for its own effect or for an erasure. */
  lemma OwnEffectOrErasure(H: Digest, es: seq<Event>, id: Id)
    requires TagsApart(H, es) && IsExecuted(Run(H, INITIAL, es), id)
    requires Run(H, INITIAL, es).ledger[id].intent.actor == HumanApproved
    ensures var w := Run(H, INITIAL, es);
            id in w.past.ranBy && OwnOrErasure(w.past.ranBy[id], w.ledger[id].intent.kind)
  {
    RunFits(H, es);
    RunKeeps(H, es);
    assert EffectKnown(Run(H, INITIAL, es), id) && RowOk(Run(H, INITIAL, es), id);
  }

  // ----- when every executed action ran its own effect -----

  predicate RanOwn(w: World, id: Id) {
    IsExecuted(w, id) && w.ledger[id].intent.actor == HumanApproved ==>
      id in w.past.ranBy && w.past.ranBy[id] == w.ledger[id].intent.kind
  }

  ghost predicate AllRanOwn(w: World) {
    forall id :: RanOwn(w, id)
  }

  /** A call through the erasure route owns an action of another type and is past the effect. */
  predicate ForeignOwner(w: World, s: SessionId) {
    && s in w.sessions && w.sessions[s].Effected? && Owns(w, s, w.sessions[s].id)
    && w.sessions[s].route.DataErasure? && !w.sessions[s].claimed.intent.kind.DataErasure?
  }

  /** Such a call finalizes. */
  predicate FinalizesForeign(w: World, e: Event) {
    e.Finalize? && ForeignOwner(w, e.s)
  }

  lemma FinalizedRanOwn(H: Digest, w: World, e: Event)
    requires Inv(H, w) && RoutesFit(w) && AllRanOwn(w) && e.Finalize?
    ensures AllRanOwn(StepFinalize(w, e)) <==> !FinalizesForeign(w, e)
  {
    var w' := StepFinalize(w, e);
    if e.s in w.sessions && w.sessions[e.s].Effected? {
      var task := w.sessions[e.s];
      assert TaskOk(w, e.s, task) && RouteFits(task);
      assert Owns(w, e.s, task.id) ==> (RanOwn(w', task.id) <==> !FinalizesForeign(w, e));
      forall id | id != task.id || !Owns(w, e.s, task.id) ensures RanOwn(w', id) {
        assert RanOwn(w, id);
      }
    } else {
      assert w' == w;
    }
  }

  lemma OtherwiseRanOwn(H: Digest, w: World, e: Event, id: Id)
    requires Inv(H, w) && RanOwn(w, id) && !e.Finalize?
    ensures RanOwn(Step(H, w, e), id)
  {
    assert RowOk(w, id);
    RanByKept(H, w, e);
    if id !in w.past.issued {
      NewlyExecuted(H, w, e, id);
    } else if IsExecuted(w, id) {
      TerminalRow(H, w, e, id);
    } else {
      NotExecutedElsewhere(H, w, e, id);
    }
  }

  lemma RanOwnStep(H: Digest, w: World, e: Event)
    requires Inv(H, w) && RoutesFit(w) && AllRanOwn(w)
    ensures AllRanOwn(Step(H, w, e)) <==> !FinalizesForeign(w, e)
  {
    if e.Finalize? {
      FinalizedRanOwn(H, w, e);
    } else {
      forall id ensures RanOwn(Step(H, w, e), id) {
        assert RanOwn(w, id);
        OtherwiseRanOwn(H, w, e, id);
      }
    }
  }

  lemma RanOwnNext(H: Digest, es: seq<Event>, k: nat)
    requires k < |es| && TagsApart(H, es) && AllRanOwn(At(H, es, k))
    ensures AllRanOwn(At(H, es, k + 1)) <==> !FinalizesForeign(At(H, es, k), es[k])
  {
    RunKeeps(H, es[..k]);
    ApartPrefix(H, INITIAL, es, k);
    RunFits(H, es[..k]);
    AtNext(H, es, k);
    RanOwnStep(H, At(H, es, k), es[k]);
  }

  /** Throughout a run every executed action ran its own effect, exactly when no finalization through the
      erasure route lands on another type. */
  lemma RanOwnRun(H: Digest, es: seq<Event>, n: nat)
    requires n <= |es| && TagsApart(H, es)
    ensures (forall k :: 0 <= k <= n ==> AllRanOwn(At(H, es, k)))
       <==> (forall k :: 0 <= k < n ==> !FinalizesForeign(At(H, es, k), es[k]))
  {
    var own := seq(n + 1, k requires 0 <= k <= n => AllRanOwn(At(H, es, k)));
    var guarded := seq(n, k requires 0 <= k < n => !FinalizesForeign(At(H, es, k), es[k]));
    assert own[0] by {
      assert es[..0] == [];
    }
    forall k | 0 <= k < n && own[k] ensures own[k + 1] <==> guarded[k] {
      RanOwnNext(H, es, k);
    }
    ThroughoutIff(own, guarded);
    assert forall k :: 0 <= k <= n ==> own[k] == AllRanOwn(At(H, es, k));
    assert forall k :: 0 <= k < n ==> guarded[k] == !FinalizesForeign(At(H, es, k), es[k]);
  }

  /** What holds at first, and holds next exactly under the guard, holds throughout exactly under the guards. */
  lemma {:induction false} ThroughoutIff(good: seq<bool>, guarded: seq<bool>)
    requires |good| == |guarded| + 1 && good[0]
    requires forall k :: 0 <= k < |guarded| && good[k] ==> (good[k + 1] <==> guarded[k])
    ensures (forall k :: 0 <= k < |good| ==> good[k]) <==> (forall k :: 0 <= k < |guarded| ==> guarded[k])
  {
    if guarded != [] {
      var n := |guarded| - 1;
      var before, earlier := good[..n + 1], guarded[..n];
      ThroughoutIff(before, earlier);
      assert forall k :: 0 <= k <= n ==> good[k] == before[k];
      assert forall k :: 0 <= k < n ==> guarded[k] == earlier[k];
      assert good[n] ==> (good[n + 1] <==> guarded[n]);
      assert (forall k :: 0 <= k < |before| ==> before[k]) <==> (forall k :: 0 <= k <= n ==> good[k]);
      assert (forall k :: 0 <= k < |earlier| ==> earlier[k]) <==> (forall k :: 0 <= k < n ==> guarded[k]);
    }
  }
}
