/**
 Who owns a claim. The service fences every writer of a live claim with the claim instant,
 a wall-clock reading; a resume only makes sure its own reading differs from the one it
 replaces. Exclusive ownership therefore holds exactly as long as no claim or rotation
 reuses an instant that some executor still running on the action holds, and it can fail
 otherwise.
 */
module GovernedActionOwnership {
  import opened Wrappers
  import opened GovernedActions
  import opened GovernedActionSafety

  /** Session `s` is executing `id` and the store still shows its claim instant. */
  predicate Owns(w: World, s: SessionId, id: Id) {
    && s in w.sessions && Executes(w.sessions[s]) && w.sessions[s].id == id
    && id in w.ledger && w.ledger[id].status == Claimed
    && w.ledger[id].claimedAt == w.sessions[s].claimed.claimedAt
  }

  ghost predicate Exclusive(w: World) {
    forall s, t, id :: Owns(w, s, id) && Owns(w, t, id) ==> s == t
  }

  /** The event takes or rotates a claim, and its compare-and-set succeeds. */
  predicate Wins(w: World, e: Event) {
    && e.TakeClaim? && e.s in w.sessions && w.sessions[e.s].Approving? && !Spins(w.sessions[e.s], e.now)
    && ClaimLedger(w, w.sessions[e.s], e.now).Some?
    && ClaimWrite(w.sessions[e.s], e.now).approver.Some?
  }

  /** No other executor running on the same action holds the instant being written. */
  ghost predicate ClaimGuard(w: World, e: Event) {
    Wins(w, e) ==>
      forall t :: t in w.sessions && t != e.s && Executes(w.sessions[t]) && w.sessions[t].id == w.sessions[e.s].id ==>
        w.sessions[t].claimed.claimedAt != Some(e.now)
  }

  // ----- only a winning claim can break exclusivity, and exactly when its guard fails -----

  ghost predicate DraftsPending(w: World) {
    forall s :: s in w.sessions && w.sessions[s].Inserting? ==> w.sessions[s].draft.status == Pending
  }

  predicate MovesExecutor(e: Event) {
    e.ReadTarget? || e.RunEffect? || e.ReleaseTarget?
  }

  lemma ExecutorMoved(H: Digest, w: World, e: Event, s: SessionId)
    requires MovesExecutor(e) && s in Step(H, w, e).sessions && Executes(Step(H, w, e).sessions[s])
    ensures s in w.sessions && Executes(w.sessions[s])
    ensures w.sessions[s].id == Step(H, w, e).sessions[s].id && w.sessions[s].route == Step(H, w, e).sessions[s].route
    ensures w.sessions[s].claimed == Step(H, w, e).sessions[s].claimed
  {
  }

  lemma ExecutorKept(H: Digest, w: World, e: Event, s: SessionId)
    requires !MovesExecutor(e) && !Wins(w, e) && s in Step(H, w, e).sessions && Executes(Step(H, w, e).sessions[s])
    ensures s in w.sessions && w.sessions[s] == Step(H, w, e).sessions[s]
  {
  }

  lemma ExecutorBefore(H: Digest, w: World, e: Event, s: SessionId)
    requires !Wins(w, e)
    requires s in Step(H, w, e).sessions && Executes(Step(H, w, e).sessions[s])
    ensures s in w.sessions && Executes(w.sessions[s])
    ensures w.sessions[s].id == Step(H, w, e).sessions[s].id && w.sessions[s].route == Step(H, w, e).sessions[s].route
    ensures w.sessions[s].claimed == Step(H, w, e).sessions[s].claimed
  {
    if MovesExecutor(e) {
      ExecutorMoved(H, w, e, s);
    } else {
      ExecutorKept(H, w, e, s);
    }
  }

  lemma ClaimBefore(H: Digest, w: World, e: Event, id: Id)
    requires DraftsPending(w) && !Wins(w, e)
    requires id in Step(H, w, e).ledger && Step(H, w, e).ledger[id].status == Claimed
    ensures id in w.ledger && w.ledger[id] == Step(H, w, e).ledger[id]
  {
  }

  lemma OwnsAfterWin(H: Digest, w: World, e: Event, s: SessionId, id: Id)
    requires Wins(w, e) && TaskOk(w, e.s, w.sessions[e.s])
    ensures var a := w.sessions[e.s].id;
            Owns(Step(H, w, e), s, id) <==>
              if id != a then s != e.s && Owns(w, s, id)
              else s == e.s || (s in w.sessions && Executes(w.sessions[s]) && w.sessions[s].id == a
                                && w.sessions[s].claimed.claimedAt == Some(e.now))
  {
    var w' := StepTakeClaim(w, e);
    ClaimWriteOk(w, e.s, w.sessions[e.s], e.now);
    assert Step(H, w, e) == w';
    assert w'.ledger == w.ledger[w.sessions[e.s].id := ClaimWrite(w.sessions[e.s], e.now)];
  }

  lemma InvFacts(H: Digest, w: World)
    requires Inv(H, w)
    ensures DraftsPending(w)
    ensures forall s :: s in w.sessions ==> TaskOk(w, s, w.sessions[s])
  {
    forall s | s in w.sessions && w.sessions[s].Inserting? ensures w.sessions[s].draft.status == Pending {
      assert TaskOk(w, s, w.sessions[s]);
    }
  }

  /** From an exclusive world, the next world is exclusive if and only if the guard holds. */
  lemma ExclusiveStep(H: Digest, w: World, e: Event)
    requires Inv(H, w) && Exclusive(w)
    ensures Exclusive(Step(H, w, e)) <==> ClaimGuard(w, e)
  {
    InvFacts(H, w);
    if Wins(w, e) {
      ExclusiveWin(H, w, e);
    } else {
      forall s, t, id | Owns(Step(H, w, e), s, id) && Owns(Step(H, w, e), t, id) ensures s == t {
        ClaimBefore(H, w, e, id);
        ExecutorBefore(H, w, e, s);
        ExecutorBefore(H, w, e, t);
        assert Owns(w, s, id) && Owns(w, t, id);
      }
    }
  }

  lemma ExclusiveWin(H: Digest, w: World, e: Event)
    requires Wins(w, e) && TaskOk(w, e.s, w.sessions[e.s]) && Exclusive(w)
    ensures Exclusive(Step(H, w, e)) <==> ClaimGuard(w, e)
  {
    var w' := Step(H, w, e);
    var a := w.sessions[e.s].id;
    if ClaimGuard(w, e) {
      forall s, t, id | Owns(w', s, id) && Owns(w', t, id) ensures s == t {
        OwnsAfterWin(H, w, e, s, id);
        OwnsAfterWin(H, w, e, t, id);
      }
    } else {
      var t :| t in w.sessions && t != e.s && Executes(w.sessions[t]) && w.sessions[t].id == a
               && w.sessions[t].claimed.claimedAt == Some(e.now);
      OwnsAfterWin(H, w, e, t, a);
      OwnsAfterWin(H, w, e, e.s, a);
      assert Owns(w', t, a) && Owns(w', e.s, a);
    }
  }

  /** A run is exclusive throughout if and only if every claim it wins is guarded. */
  lemma {:induction false} ExclusiveRun(H: Digest, es: seq<Event>, n: nat)
    requires n <= |es|
    ensures (forall k :: 0 <= k <= n ==> Exclusive(At(H, es, k)))
       <==> (forall k :: 0 <= k < n ==> ClaimGuard(At(H, es, k), es[k]))
  {
    if n == 0 {
      assert es[..0] == [];
    } else {
      ExclusiveRun(H, es, n - 1);
      if Exclusive(At(H, es, n - 1)) {
        RunKeeps(H, es[..n - 1]);
        AtNext(H, es, n - 1);
        ExclusiveStep(H, At(H, es, n - 1), es[n - 1]);
      }
    }
  }

  // ----- runs whose clock never repeats a claim instant on the same action -----

  ghost predicate Fresh(w: World, e: Event) {
    Wins(w, e) ==> forall g :: g in w.past.grants && g.id == w.sessions[e.s].id ==> g.at != e.now
  }

  /** No claim instant repeats on an action while `es` runs on from `w`. */
  ghost predicate FreshFrom(H: Digest, w: World, es: seq<Event>) {
    forall k :: 0 <= k < |es| ==> Fresh(Run(H, w, es[..k]), es[k])
  }

  ghost predicate FreshRun(H: Digest, es: seq<Event>) {
    FreshFrom(H, INITIAL, es)
  }

  lemma FreshIsGuarded(H: Digest, w: World, e: Event)
    requires Inv(H, w) && Fresh(w, e)
    ensures ClaimGuard(w, e)
  {
    if Wins(w, e) {
      forall t | t in w.sessions && t != e.s && Executes(w.sessions[t]) && w.sessions[t].id == w.sessions[e.s].id
        ensures w.sessions[t].claimed.claimedAt != Some(e.now)
      {
        assert TaskOk(w, t, w.sessions[t]);
        assert HoldOk(w, w.sessions[t].id, w.sessions[t].claimed);
      }
    }
  }

  /** In a fresh run an action never has two owners. */
  lemma OneOwner(H: Digest, es: seq<Event>, s: SessionId, t: SessionId, id: Id)
    requires FreshRun(H, es)
    requires Owns(Run(H, INITIAL, es), s, id) && Owns(Run(H, INITIAL, es), t, id)
    ensures s == t
  {
    forall k | 0 <= k < |es| ensures ClaimGuard(At(H, es, k), es[k]) {
      RunKeeps(H, es[..k]);
      FreshIsGuarded(H, At(H, es, k), es[k]);
    }
    ExclusiveRun(H, es, |es|);
    assert es[..|es|] == es;
    assert Exclusive(At(H, es, |es|));
  }

  // ----- what a release pins -----

  ghost predicate PinGranted(grants: set<Grant>, pin: Payload)
    requires pin.FrozenClaim?
  {
    exists g :: g in grants && g.id == pin.targetId && g.at == pin.claimedAt && g.approver.key == pin.frozenKey
  }

  /** The store shows a claim at the pinned instant. */
  predicate PinLive(w: World, pin: Payload) {
    && pin.FrozenClaim? && pin.targetId in w.ledger && w.ledger[pin.targetId].status == Claimed
    && w.ledger[pin.targetId].claimedAt == Some(pin.claimedAt)
  }

  /** Every release pins a claim that was won. */
  ghost predicate PinsGranted(w: World) {
    forall id :: id in w.past.issued && w.past.issued[id].payload.FrozenClaim? ==>
      PinGranted(w.past.grants, w.past.issued[id].payload)
  }

  lemma GrantsGrow(H: Digest, w: World, e: Event)
    ensures var w' := Step(H, w, e);
            w'.past.grants == if Wins(w, e)
                         then w.past.grants +
                               {Grant(w.sessions[e.s].id, e.now, ClaimWrite(w.sessions[e.s], e.now).approver.value)}
                         else w.past.grants
  {
  }

  /** The claim a new release pins is live. */
  lemma ReleaseIsPinned(H: Digest, w: World, e: Event)
    requires Inv(H, w) && e.RequestRelease? && e.id !in w.past.issued
    requires e.id in StepRequestRelease(H, w, e).past.issued
    ensures var pin := StepRequestRelease(H, w, e).past.issued[e.id].payload;
            && pin.FrozenClaim? && PinGranted(w.past.grants, pin) && pin.targetId in w.ledger
            && w.ledger[pin.targetId].approver.Some? && w.ledger[pin.targetId].approver.value.key == pin.frozenKey
  {
    var r := w.ledger[e.targetId];
    assert RowOk(w, e.targetId);
    assert Grant(e.targetId, r.claimedAt.value, r.approver.value) in w.past.grants;
  }

  lemma IssuedGrow(H: Digest, w: World, e: Event, id: Id)
    requires id in Step(H, w, e).past.issued && Step(H, w, e).past.issued[id].payload.FrozenClaim?
    ensures id in w.past.issued ==> w.past.issued[id] == Step(H, w, e).past.issued[id]
    ensures id !in w.past.issued ==> e.RequestRelease? && id == e.id
  {
  }

  lemma PinStaysGranted(H: Digest, w: World, e: Event, pin: Payload)
    requires pin.FrozenClaim? && PinGranted(w.past.grants, pin)
    ensures PinGranted(Step(H, w, e).past.grants, pin)
  {
    GrantsGrow(H, w, e);
    var g :| g in w.past.grants && g.id == pin.targetId && g.at == pin.claimedAt && g.approver.key == pin.frozenKey;
    assert g in Step(H, w, e).past.grants;
  }

  lemma {:induction false} PinsGrantedRun(H: Digest, es: seq<Event>)
    ensures PinsGranted(Run(H, INITIAL, es))
  {
    if es != [] {
      var w, e := Run(H, INITIAL, es[..|es| - 1]), es[|es| - 1];
      var w' := Step(H, w, e);
      PinsGrantedRun(H, es[..|es| - 1]);
      RunKeeps(H, es[..|es| - 1]);
      forall id | id in w'.past.issued && w'.past.issued[id].payload.FrozenClaim?
        ensures PinGranted(w'.past.grants, w'.past.issued[id].payload)
      {
        IssuedGrow(H, w, e, id);
        if id !in w.past.issued {
          ReleaseIsPinned(H, w, e);
        }
        PinStaysGranted(H, w, e, w'.past.issued[id].payload);
      }
    }
  }
}
