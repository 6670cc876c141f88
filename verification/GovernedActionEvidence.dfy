/**
 When the writers of a live claim keep what it records. The fence compares claim instants
 only. A rotation or a finalization therefore keeps the approver, and a release ends the
 claim it pins, exactly as long as no claim is won at an instant at which a call holds a copy
 with another approver, or which a release pins under another credential.
 */
module GovernedActionEvidence {
  import opened Wrappers
  import opened GovernedActions
  import opened GovernedActionSafety
  import opened GovernedActionOwnership
  import opened GovernedActionApproval
  import opened GovernedActionFates

  // ----- copies of a claim -----

  predicate HasCopy(t: Task) {
    Executes(t) || (t.Approving? && t.resuming)
  }

  /** The claim an executor holds, or a resume is about to rotate. */
  function Copy(t: Task): Record
    requires HasCopy(t)
  {
    if t.Approving? then t.seen else t.claimed
  }

  predicate Copies(w: World, s: SessionId, id: Id) {
    s in w.sessions && HasCopy(w.sessions[s]) && w.sessions[s].id == id
  }

  /** The call's copy passes the fence of the live claim and names another approver. */
  predicate Misleads(w: World, s: SessionId, id: Id) {
    && Copies(w, s, id) && id in w.ledger && w.ledger[id].status == Claimed
    && Copy(w.sessions[s]).claimedAt == w.ledger[id].claimedAt && Copy(w.sessions[s]).approver != w.ledger[id].approver
  }

  ghost predicate Truthful(w: World) {
    forall s, id :: !Misleads(w, s, id)
  }

  /** No other call's copy of the action carries the instant being written and another approver. */
  ghost predicate EvidenceGuard(w: World, e: Event) {
    Wins(w, e) ==>
      forall s :: s != e.s && Copies(w, s, w.sessions[e.s].id) && Copy(w.sessions[s]).claimedAt == Some(e.now) ==>
        Copy(w.sessions[s]).approver == ClaimWrite(w.sessions[e.s], e.now).approver
  }

  lemma CopyBefore(H: Digest, w: World, e: Event, s: SessionId, id: Id)
    requires !Wins(w, e) && Copies(Step(H, w, e), s, id)
    ensures s in w.sessions ==> Copies(w, s, id) && Copy(w.sessions[s]) == Copy(Step(H, w, e).sessions[s])
    ensures s !in w.sessions ==> id in w.ledger && Copy(Step(H, w, e).sessions[s]) == w.ledger[id]
    ensures s !in w.sessions ==> Step(H, w, e).ledger == w.ledger
  {
    SessionOrigin(H, w, e, s);
  }

  /** A win leaves every other call's copy and every other row, and the winner holds the row. */
  lemma WonWorld(H: Digest, w: World, e: Event)
    requires Inv(H, w) && Wins(w, e)
    ensures var w', id := Step(H, w, e), w.sessions[e.s].id;
            && w'.ledger == w.ledger[id := ClaimWrite(w.sessions[e.s], e.now)]
            && w'.sessions == w.sessions[e.s := Holding(id, w.sessions[e.s].route, w'.ledger[id])]
            && w'.ledger[id].status == Claimed && w'.ledger[id].claimedAt == Some(e.now) && w'.ledger[id].approver.Some?
            && w'.past.issued == w.past.issued
  {
    ClaimWriteOk(w, e.s, w.sessions[e.s], e.now);
    assert Step(H, w, e) == StepTakeClaim(w, e);
  }

  lemma TruthfulWin(H: Digest, w: World, e: Event)
    requires Inv(H, w) && Truthful(w) && Wins(w, e)
    ensures Truthful(Step(H, w, e)) <==> EvidenceGuard(w, e)
  {
    var w', a := Step(H, w, e), w.sessions[e.s].id;
    WonWorld(H, w, e);
    if EvidenceGuard(w, e) {
      forall s, id ensures !Misleads(w', s, id) {
        assert !Misleads(w, s, id);
        assert Copies(w', s, id) && s != e.s ==> Copies(w, s, id);
      }
    } else {
      var s :| s != e.s && Copies(w, s, a) && Copy(w.sessions[s]).claimedAt == Some(e.now)
               && Copy(w.sessions[s]).approver != ClaimWrite(w.sessions[e.s], e.now).approver;
      assert Misleads(w', s, a);
    }
  }

  /** From a truthful world, the next world is truthful if and only if the guard holds. */
  lemma TruthfulStep(H: Digest, w: World, e: Event)
    requires Inv(H, w) && Truthful(w)
    ensures Truthful(Step(H, w, e)) <==> EvidenceGuard(w, e)
  {
    if Wins(w, e) {
      TruthfulWin(H, w, e);
    } else {
      InvFacts(H, w);
      forall s, id ensures !Misleads(Step(H, w, e), s, id) {
        assert !Misleads(w, s, id);
        if Misleads(Step(H, w, e), s, id) {
          ClaimBefore(H, w, e, id);
          CopyBefore(H, w, e, s, id);
        }
      }
    }
  }

  /** No copy ever misleads in a run if and only if every claim it wins is guarded. */
  lemma {:induction false} TruthfulRun(H: Digest, es: seq<Event>, n: nat)
    requires n <= |es|
    ensures (forall k :: 0 <= k <= n ==> Truthful(At(H, es, k)))
       <==> (forall k :: 0 <= k < n ==> EvidenceGuard(At(H, es, k), es[k]))
  {
    if n == 0 {
      assert es[..0] == [];
    } else {
      TruthfulRun(H, es, n - 1);
      if Truthful(At(H, es, n - 1)) {
        RunKeeps(H, es[..n - 1]);
        AtNext(H, es, n - 1);
        TruthfulStep(H, At(H, es, n - 1), es[n - 1]);
      }
    }
  }

  // ----- what a misleading copy does -----

  /** The event overwrites the approver of a live claim that it does not end. */
  ghost predicate LosesEvidence(H: Digest, w: World, e: Event, id: Id) {
    && id in w.ledger && w.ledger[id].status == Claimed && id in Step(H, w, e).ledger
    && Step(H, w, e).ledger[id].status != Pending && Step(H, w, e).ledger[id].approver != w.ledger[id].approver
  }

  /** A misleading copy that the call's next write will store. */
  predicate AboutToMislead(w: World, s: SessionId, id: Id) {
    Misleads(w, s, id) && (w.sessions[s].Effected? || w.sessions[s].Approving?)
  }

  lemma MisleadingWrite(H: Digest, w: World, s: SessionId, id: Id) returns (e: Event)
    requires Inv(H, w) && AboutToMislead(w, s, id)
    ensures LosesEvidence(H, w, e, id)
  {
    var t := w.sessions[s];
    assert TaskOk(w, s, t);
    if t.Effected? {
      e := Finalize(s, "", None);
      assert Step(H, w, e) == StepFinalize(w, e);
    } else {
      e := TakeClaim(s, t.seen.claimedAt.value + "t");
      assert e.now != t.seen.claimedAt.value by {
        assert |e.now| != |t.seen.claimedAt.value|;
      }
      assert Wins(w, e);
      WonWorld(H, w, e);
    }
  }

  lemma LosingWrite(H: Digest, w: World, e: Event, id: Id)
    requires Inv(H, w) && LosesEvidence(H, w, e, id)
    ensures !e.RecordSystem? && AboutToMislead(w, e.s, id)
  {
    ClaimFateStep(H, w, e, id);
    var before, after := w.ledger[id], Step(H, w, e).ledger[id];
    assert Rotated(w, e, id, before, after) || Finalized(w, e, id, before, after);
  }

  /** One event can lose a live claim's evidence exactly when a misleading copy is about to be stored. */
  lemma EvidenceLosableIff(H: Digest, w: World, id: Id)
    requires Inv(H, w)
    ensures (exists e :: LosesEvidence(H, w, e, id)) <==> (exists s :: AboutToMislead(w, s, id))
  {
    if s :| AboutToMislead(w, s, id) {
      var e := MisleadingWrite(H, w, s, id);
    }
    if e :| LosesEvidence(H, w, e, id) {
      LosingWrite(H, w, e, id);
    }
  }

  /** In a guarded run rotation and finalization keep the claim's evidence, and nothing else rewrites a claim
      without releasing it. */
  lemma EvidenceKept(H: Digest, es: seq<Event>, k: nat, id: Id)
    requires k < |es| && forall i :: 0 <= i < k ==> EvidenceGuard(At(H, es, i), es[i])
    requires id in At(H, es, k).ledger && At(H, es, k).ledger[id].status == Claimed && id in At(H, es, k + 1).ledger
    ensures var before, after := At(H, es, k).ledger[id], At(H, es, k + 1).ledger[id];
            || after == before
            || after == before.(claimedAt := after.claimedAt)
            || after == before.(status := Executed, executedAt := after.executedAt, result := after.result)
            || (Lands(At(H, es, k), es[k]) && after == PendingRecord(before.intent))
  {
    var w, e := At(H, es, k), es[k];
    TruthfulRun(H, es, k);
    RunKeeps(H, es[..k]);
    AtNext(H, es, k);
    ClaimFateStep(H, w, e, id);
    KeptByTruth(H, w, e, id, Step(H, w, e).ledger[id]);
  }

  lemma KeptByTruth(H: Digest, w: World, e: Event, id: Id, after: Record)
    requires Inv(H, w) && Truthful(w) && id in w.ledger && w.ledger[id].status == Claimed
    requires ClaimFate(w, e, id, w.ledger[id], after)
    ensures var before := w.ledger[id];
            || after == before
            || after == before.(claimedAt := after.claimedAt)
            || after == before.(status := Executed, executedAt := after.executedAt, result := after.result)
            || (Lands(w, e) && after == PendingRecord(before.intent))
  {
    assert RowOk(w, id);
    if Rotated(w, e, id, w.ledger[id], after) || Finalized(w, e, id, w.ledger[id], after) {
      assert TaskOk(w, e.s, w.sessions[e.s]);
      assert !Misleads(w, e.s, id);
      assert Copy(w.sessions[e.s]) == w.ledger[id];
    }
  }

  // ----- what a release ends -----

  /** The release pins the live claimant's credential, if it pins the live claim's instant at all. */
  predicate PinTrue(w: World, pin: Payload) {
    PinLive(w, pin) ==>
      w.ledger[pin.targetId].approver.Some? && w.ledger[pin.targetId].approver.value.key == pin.frozenKey
  }

  ghost predicate PinsTrue(w: World) {
    forall id :: id in w.past.issued ==> PinTrue(w, w.past.issued[id].payload)
  }

  predicate PinsClaim(pin: Payload, id: Id, at: Instant) {
    pin.FrozenClaim? && pin.targetId == id && pin.claimedAt == at
  }

  /** No issued release pins the action at the instant being written under another credential. */
  ghost predicate PinGuard(w: World, e: Event) {
    Wins(w, e) ==>
      forall r :: r in w.past.issued && PinsClaim(w.past.issued[r].payload, w.sessions[e.s].id, e.now) ==>
        Some(w.past.issued[r].payload.frozenKey) == w.sessions[e.s].caller.key
  }

  lemma PinsTrueWin(H: Digest, w: World, e: Event)
    requires Inv(H, w) && PinsTrue(w) && Wins(w, e)
    ensures PinsTrue(Step(H, w, e)) <==> PinGuard(w, e)
  {
    var w', a := Step(H, w, e), w.sessions[e.s].id;
    WonWorld(H, w, e);
    ClaimWriteOk(w, e.s, w.sessions[e.s], e.now);
    if PinGuard(w, e) {
      forall r | r in w'.past.issued ensures PinTrue(w', w'.past.issued[r].payload) {
        assert PinTrue(w, w.past.issued[r].payload);
      }
    } else {
      var r :| r in w.past.issued && PinsClaim(w.past.issued[r].payload, a, e.now)
               && Some(w.past.issued[r].payload.frozenKey) != w.sessions[e.s].caller.key;
      assert !PinTrue(w', w'.past.issued[r].payload);
    }
  }

  /** From such a world, the next world is one if and only if the guard holds. */
  lemma PinsTrueStep(H: Digest, w: World, e: Event)
    requires Inv(H, w) && PinsTrue(w)
    ensures PinsTrue(Step(H, w, e)) <==> PinGuard(w, e)
  {
    if Wins(w, e) {
      PinsTrueWin(H, w, e);
    } else {
      InvFacts(H, w);
      forall r | r in Step(H, w, e).past.issued ensures PinTrue(Step(H, w, e), Step(H, w, e).past.issued[r].payload) {
        var pin := Step(H, w, e).past.issued[r].payload;
        if PinLive(Step(H, w, e), pin) {
          ClaimBefore(H, w, e, pin.targetId);
          IssuedGrow(H, w, e, r);
          if r in w.past.issued {
            assert PinTrue(w, pin);
          } else {
            ReleaseIsPinned(H, w, e);
          }
        }
      }
    }
  }

  /** Every live pin is true throughout a run if and only if every claim the run wins is guarded. */
  lemma {:induction false} PinsTrueRun(H: Digest, es: seq<Event>, n: nat)
    requires n <= |es|
    ensures (forall k :: 0 <= k <= n ==> PinsTrue(At(H, es, k)))
       <==> (forall k :: 0 <= k < n ==> PinGuard(At(H, es, k), es[k]))
  {
    if n == 0 {
      assert es[..0] == [];
    } else {
      PinsTrueRun(H, es, n - 1);
      if PinsTrue(At(H, es, n - 1)) {
        RunKeeps(H, es[..n - 1]);
        AtNext(H, es, n - 1);
        PinsTrueStep(H, At(H, es, n - 1), es[n - 1]);
      }
    }
  }

  /** The release's requester, its approver and the claimant whose claim it ended are three. */
  predicate ByTwoOthers(w: World, e: Event, before: Record) {
    && Lands(w, e) && before.approver.Some? && w.sessions[e.s].claimed.approver.Some?
    && var q, p := w.sessions[e.s].claimed.intent.requester.key, w.sessions[e.s].claimed.approver.value.key;
    q != Some(p) && q != Some(before.approver.value.key) && p != before.approver.value.key
  }

  predicate Claimant(before: Record, key: Option<Key>) {
    before.approver.Some? && key == Some(before.approver.value.key)
  }

  /** In a guarded run a landing release ends a claim of the credential it pins, and when no digest is shared
      by two action types its own two credentials are others. */
  lemma ReleasedByOthers(H: Digest, es: seq<Event>, k: nat)
    requires k < |es| && Lands(At(H, es, k), es[k]) && forall i :: 0 <= i < k ==> PinGuard(At(H, es, i), es[i])
    ensures var w, pin := At(H, es, k), At(H, es, k).sessions[es[k].s].claimed.intent.payload;
            && pin.targetId in w.ledger && Claimant(w.ledger[pin.targetId], Some(pin.frozenKey))
            && (TagsApart(H, es[..k]) ==> ByTwoOthers(w, es[k], w.ledger[pin.targetId]))
  {
    var w, e := At(H, es, k), es[k];
    var task := w.sessions[e.s];
    PinsTrueRun(H, es, k);
    RunKeeps(H, es[..k]);
    RunBound(H, es[..k]);
    LandedRow(H, w, e);
    assert TaskOk(w, e.s, task) && TaskBound(H, es[..k], task) && RowOk(w, task.claimed.intent.payload.targetId);
    assert PinTrue(w, w.past.issued[task.id].payload) && IntentOk(H, task.claimed.intent);
    if TagsApart(H, es[..k]) {
      CopyHasThree(H, es[..k], task.id, task.claimed);
    }
  }

  // ----- a clock that does not repeat is enough -----

  /** A claim at an instant that is new to the action meets both guards. */
  lemma FreshMeetsGuards(H: Digest, w: World, e: Event)
    requires Inv(H, w) && PinsGranted(w) && Fresh(w, e)
    ensures EvidenceGuard(w, e) && PinGuard(w, e)
  {
    if Wins(w, e) {
      forall s | s != e.s && Copies(w, s, w.sessions[e.s].id) ensures Copy(w.sessions[s]).claimedAt != Some(e.now) {
        assert TaskOk(w, s, w.sessions[s]);
        assert HoldOk(w, w.sessions[s].id, Copy(w.sessions[s]));
      }
      forall r | r in w.past.issued ensures !PinsClaim(w.past.issued[r].payload, w.sessions[e.s].id, e.now) {
        if w.past.issued[r].payload.FrozenClaim? {
          assert PinGranted(w.past.grants, w.past.issued[r].payload);
        }
      }
    }
  }
}
