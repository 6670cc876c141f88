/**
 What stands behind a claim: every approver evidence ever stored goes back to one approval
 call that found the action pending, stated its recorded target and hash and rebuilt a
 payload with that hash. When no such payload is of another type, the call came through the
 action's own route.
 */
module GovernedActionApproval {
  import opened Wrappers
  import opened GovernedActions
  import opened GovernedActionSafety
  import opened GovernedActionOwnership

  // ----- the approval behind a claim -----

  /** The call approved exactly this intent: its target, its hash and a live payload of that
      hash. The release route also turned the frozen credential away. */
  predicate ApprovesIntent(H: Digest, e: Event, id: Id, i: Intent) {
    && e.Validate? && e.id == id && e.expectedTarget == i.target && e.expectedHash == i.hash
    && H(e.live) == i.hash && Tag(e.live) == e.route
    && (e.route.ClaimRelease? ==> e.caller.key != Some(FrozenKey(i.payload)))
  }

  predicate Approves(H: Digest, e: Event, id: Id, r: Record) {
    && ApprovesIntent(H, e, id, r.intent) && r.approver.Some?
    && e.caller == Caller(r.approver.value.app, r.approver.value.trust, Some(r.approver.value.key))
    && e.attribution == r.approver.value.attribution
  }

  /** The call finds the action pending, as it was requested. */
  predicate FindsPending(w: World, e: Event, i: Intent) {
    e.Validate? && e.id in w.ledger && w.ledger[e.id] == PendingRecord(i)
  }

  ghost predicate ApprovedAt(H: Digest, es: seq<Event>, k: nat, id: Id, r: Record)
    requires k < |es|
  {
    Approves(H, es[k], id, r) && FindsPending(At(H, es, k), es[k], r.intent)
  }

  ghost predicate Bound(H: Digest, es: seq<Event>, id: Id, r: Record) {
    exists k :: 0 <= k < |es| && ApprovedAt(H, es, k, id, r)
  }

  /** The call that put session task `t` under way. */
  predicate Begins(H: Digest, e: Event, t: Task)
    requires t.Approving?
  {
    ApprovesIntent(H, e, t.id, t.seen.intent) && e.caller == t.caller && e.attribution == t.attribution && e.route == t.route
  }

  ghost predicate BegunAt(H: Digest, es: seq<Event>, k: nat, t: Task)
    requires t.Approving? && k < |es|
  {
    Begins(H, es[k], t) && FindsPending(At(H, es, k), es[k], t.seen.intent)
  }

  ghost predicate Begun(H: Digest, es: seq<Event>, t: Task)
    requires t.Approving?
  {
    exists k :: 0 <= k < |es| && BegunAt(H, es, k, t)
  }

  /** The claiming credential asked, through a route that can resume, to resume the claim as it was stored, and stated
      its target and hash. */
  predicate Resumes(w: World, e: Event, t: Task)
    requires t.Approving?
  {
    && e.Validate? && e.resume && e.id == t.id && e.route == t.route && e.caller == t.caller
    && (e.route == DataErasure || e.route == BudgetReconciliation || e.route == ClaimRelease)
    && e.expectedTarget == t.seen.intent.target && e.expectedHash == t.seen.intent.hash
    && t.seen.approver.Some? && e.caller.key == Some(t.seen.approver.value.key)
    && e.id in w.ledger && w.ledger[e.id] == t.seen && t.seen.status == Claimed
  }

  ghost predicate ResumedAt(H: Digest, es: seq<Event>, k: nat, t: Task)
    requires t.Approving? && k < |es|
  {
    Resumes(At(H, es, k), es[k], t)
  }

  ghost predicate Resumed(H: Digest, es: seq<Event>, t: Task)
    requires t.Approving?
  {
    exists k :: 0 <= k < |es| && ResumedAt(H, es, k, t)
  }

  ghost predicate TaskBound(H: Digest, es: seq<Event>, t: Task) {
    match t
    case Approving(id, _, _, _, seen, resuming) =>
      if resuming then Bound(H, es, id, seen) && Resumed(H, es, t) else Begun(H, es, t)
    case Holding(id, _, claimed) => Bound(H, es, id, claimed)
    case TargetRead(id, _, claimed, _) => Bound(H, es, id, claimed)
    case Effected(id, _, claimed) => Bound(H, es, id, claimed)
    case _ => true
  }

  ghost predicate RowBound(H: Digest, es: seq<Event>, w: World, id: Id) {
    id in w.ledger && w.ledger[id].approver.Some? ==> Bound(H, es, id, w.ledger[id])
  }

  ghost predicate AllBound(H: Digest, es: seq<Event>, w: World) {
    && (forall id :: RowBound(H, es, w, id))
    && (forall s :: s in w.sessions ==> TaskBound(H, es, w.sessions[s]))
  }

  lemma AtStays(H: Digest, es: seq<Event>, e: Event, k: nat)
    requires k <= |es|
    ensures At(H, es + [e], k) == At(H, es, k)
  {
    assert (es + [e])[..k] == es[..k];
  }

  lemma BoundGrows(H: Digest, es: seq<Event>, e: Event, id: Id, r: Record)
    requires Bound(H, es, id, r)
    ensures Bound(H, es + [e], id, r)
  {
    var k :| 0 <= k < |es| && ApprovedAt(H, es, k, id, r);
    AtStays(H, es, e, k);
    assert ApprovedAt(H, es + [e], k, id, r);
  }

  lemma TaskBoundGrows(H: Digest, es: seq<Event>, e: Event, t: Task)
    requires TaskBound(H, es, t)
    ensures TaskBound(H, es + [e], t)
  {
    if t.Approving? && !t.resuming {
      var k :| 0 <= k < |es| && BegunAt(H, es, k, t);
      AtStays(H, es, e, k);
      assert BegunAt(H, es + [e], k, t);
    } else if t.Approving? {
      BoundGrows(H, es, e, t.id, t.seen);
      var k :| 0 <= k < |es| && ResumedAt(H, es, k, t);
      AtStays(H, es, e, k);
      assert ResumedAt(H, es + [e], k, t);
    } else if Executes(t) {
      BoundGrows(H, es, e, t.id, t.claimed);
    }
  }

  /** The same approver and intent are bound by the same call. */
  lemma BoundAlike(H: Digest, es: seq<Event>, id: Id, r: Record, r': Record)
    requires Bound(H, es, id, r) && r'.intent == r.intent && r'.approver == r.approver
    ensures Bound(H, es, id, r')
  {
    var k :| 0 <= k < |es| && ApprovedAt(H, es, k, id, r);
    assert ApprovedAt(H, es, k, id, r');
  }

  lemma ClaimBound(H: Digest, es: seq<Event>, w: World, s: SessionId, t: Task, now: Instant)
    requires t.Approving? && TaskOk(w, s, t) && TaskBound(H, es, t)
    ensures Bound(H, es, t.id, ClaimWrite(t, now))
  {
    var r := ClaimWrite(t, now);
    if t.resuming {
      BoundAlike(H, es, t.id, t.seen, r);
    } else {
      var k :| 0 <= k < |es| && BegunAt(H, es, k, t);
      assert ApprovedAt(H, es, k, t.id, r);
    }
  }

  lemma ValidateBound(H: Digest, es: seq<Event>, w: World, e: Event)
    requires w == Run(H, INITIAL, es) && Inv(H, w) && AllBound(H, es, w) && e.Validate? && StepValidate(H, w, e) != w
    ensures e.s in StepValidate(H, w, e).sessions && TaskBound(H, es + [e], StepValidate(H, w, e).sessions[e.s])
  {
    var t := StepValidate(H, w, e).sessions[e.s];
    assert RowOk(w, e.id) && RowBound(H, es, w, e.id);
    assert (es + [e])[..|es|] == es;
    if t.resuming {
      BoundGrows(H, es, e, e.id, t.seen);
      assert Resumes(w, e, t);
      assert ResumedAt(H, es + [e], |es|, t);
    } else {
      assert Begins(H, e, t) && FindsPending(w, e, t.seen.intent);
      assert BegunAt(H, es + [e], |es|, t);
    }
  }

  lemma WinnerBound(H: Digest, es: seq<Event>, w: World, e: Event)
    requires Inv(H, w) && AllBound(H, es, w) && Wins(w, e)
    ensures var w' := StepTakeClaim(w, e);
            e.s in w'.sessions && TaskBound(H, es + [e], w'.sessions[e.s])
  {
    var t := w.sessions[e.s];
    assert TaskOk(w, e.s, t) && TaskBound(H, es, t);
    ClaimBound(H, es, w, e.s, t, e.now);
    BoundGrows(H, es, e, t.id, ClaimWrite(t, e.now));
  }

  /** Nothing moved, or the same execution is further on. */
  predicate Continues(t: Task, t': Task) {
    t' == t || (Executes(t) && Executes(t') && t'.id == t.id && t'.route == t.route && t'.claimed == t.claimed)
  }

  lemma ContinuedBound(H: Digest, es: seq<Event>, e: Event, t: Task, t': Task)
    requires TaskBound(H, es, t) && Continues(t, t')
    ensures TaskBound(H, es + [e], t')
  {
    TaskBoundGrows(H, es, e, t);
  }

  /** Every session stays bound, the event's own included. */
  lemma SessionBound(H: Digest, es: seq<Event>, w: World, e: Event, s: SessionId)
    requires w == Run(H, INITIAL, es) && Inv(H, w) && AllBound(H, es, w) && s in Step(H, w, e).sessions
    ensures TaskBound(H, es + [e], Step(H, w, e).sessions[s])
  {
    var t := Step(H, w, e).sessions[s];
    if Wins(w, e) && s == e.s {
      WinnerBound(H, es, w, e);
    } else if Executes(t) || t.Approving? {
      SessionOrigin(H, w, e, s);
      if s in w.sessions {
        ContinuedBound(H, es, e, w.sessions[s], t);
      } else {
        ValidateBound(H, es, w, e);
      }
    }
  }

  lemma SessionOrigin(H: Digest, w: World, e: Event, s: SessionId)
    requires s in Step(H, w, e).sessions && !(Wins(w, e) && s == e.s)
    requires Executes(Step(H, w, e).sessions[s]) || Step(H, w, e).sessions[s].Approving?
    ensures s in w.sessions ==> Continues(w.sessions[s], Step(H, w, e).sessions[s])
    ensures s !in w.sessions ==> e.Validate? && e.s == s && StepValidate(H, w, e) != w
  {
    if Step(H, w, e).sessions[s].Approving? {
      ApprovingBefore(H, w, e, s);
    } else if Wins(w, e) {
      OthersUntouched(w, e, s);
    } else {
      ExecutorBefore(H, w, e, s);
    }
  }

  lemma OthersUntouched(w: World, e: Event, s: SessionId)
    requires e.TakeClaim? && s != e.s && s in StepTakeClaim(w, e).sessions
    ensures s in w.sessions && StepTakeClaim(w, e).sessions[s] == w.sessions[s]
  {
  }

  lemma ApprovingBefore(H: Digest, w: World, e: Event, s: SessionId)
    requires s in Step(H, w, e).sessions && Step(H, w, e).sessions[s].Approving?
    ensures s in w.sessions ==> w.sessions[s] == Step(H, w, e).sessions[s]
    ensures s !in w.sessions ==> e.Validate? && e.s == s && StepValidate(H, w, e) != w
  {
  }

  predicate WritesApprover(e: Event) {
    e.TakeClaim? || e.Finalize?
  }

  /** Only claims and finalizations write a row with an approver. */
  lemma ApproverKept(H: Digest, w: World, e: Event, id: Id)
    requires Inv(H, w) && !WritesApprover(e)
    requires id in Step(H, w, e).ledger && Step(H, w, e).ledger[id].approver.Some?
    ensures id in w.ledger && Step(H, w, e).ledger[id] == w.ledger[id]
  {
    if e.SupersedePrior? || e.Insert? {
      RequestWritesNone(H, w, e, id);
    }
  }

  lemma RequestWritesNone(H: Digest, w: World, e: Event, id: Id)
    requires Inv(H, w) && (e.SupersedePrior? || e.Insert?) && id in Step(H, w, e).ledger
    ensures Step(H, w, e).ledger[id].approver.Some? ==> id in w.ledger && Step(H, w, e).ledger[id] == w.ledger[id]
  {
    if e.s in w.sessions {
      assert TaskOk(w, e.s, w.sessions[e.s]);
    }
  }

  lemma ClaimRow(w: World, e: Event, id: Id)
    requires e.TakeClaim? && id in StepTakeClaim(w, e).ledger
    ensures var r := StepTakeClaim(w, e).ledger[id];
            || (id in w.ledger && r == w.ledger[id])
            || (Wins(w, e) && id == w.sessions[e.s].id && r == ClaimWrite(w.sessions[e.s], e.now))
  {
  }

  lemma FinalizedRow(w: World, e: Event, id: Id)
    requires e.Finalize? && id in StepFinalize(w, e).ledger
    ensures var r := StepFinalize(w, e).ledger[id];
            || (id in w.ledger && r == w.ledger[id])
            || (e.s in w.sessions && w.sessions[e.s].Effected? && id == w.sessions[e.s].id
                && r.intent == w.sessions[e.s].claimed.intent && r.approver == w.sessions[e.s].claimed.approver)
  {
  }

  lemma RowStaysBound(H: Digest, es: seq<Event>, w: World, e: Event, id: Id)
    requires Inv(H, w) && AllBound(H, es, w)
    ensures RowBound(H, es + [e], Step(H, w, e), id)
  {
    var w' := Step(H, w, e);
    if id in w'.ledger && w'.ledger[id].approver.Some? {
      if id in w.ledger && w'.ledger[id] == w.ledger[id] {
        assert RowBound(H, es, w, id);
      } else if e.Finalize? {
        FinalizedRow(w, e, id);
        assert TaskBound(H, es, w.sessions[e.s]);
        BoundAlike(H, es, id, w.sessions[e.s].claimed, w'.ledger[id]);
      } else if e.TakeClaim? {
        ClaimRow(w, e, id);
        assert TaskOk(w, e.s, w.sessions[e.s]);
        ClaimBound(H, es, w, e.s, w.sessions[e.s], e.now);
      } else {
        ApproverKept(H, w, e, id);
      }
      BoundGrows(H, es, e, id, w'.ledger[id]);
    }
  }

  lemma {:induction false} RunBound(H: Digest, es: seq<Event>)
    ensures AllBound(H, es, Run(H, INITIAL, es))
  {
    if es != [] {
      var prefix, e := es[..|es| - 1], es[|es| - 1];
      var w := Run(H, INITIAL, prefix);
      RunBound(H, prefix);
      RunKeeps(H, prefix);
      assert es == prefix + [e];
      forall id ensures RowBound(H, es, Step(H, w, e), id) {
        RowStaysBound(H, prefix, w, e, id);
      }
      forall s | s in Step(H, w, e).sessions ensures TaskBound(H, es, Step(H, w, e).sessions[s]) {
        SessionBound(H, prefix, w, e, s);
      }
    }
  }

  /**
   After every run, behind every claimed or executed two-step action stands one call of its
   recorded approver that found it pending as it was requested, stated its recorded target
   and the hash of its recorded payload, and rebuilt a payload of that hash.
   */
  lemma ApprovalBound(H: Digest, es: seq<Event>, id: Id)
    requires id in Run(H, INITIAL, es).ledger
    requires Run(H, INITIAL, es).ledger[id].intent.actor == HumanApproved
    requires Run(H, INITIAL, es).ledger[id].status in {Claimed, Executed}
    ensures var r := Run(H, INITIAL, es).ledger[id];
            exists k :: 0 <= k < |es| && ApprovedAt(H, es, k, id, r) && es[k].expectedHash == H(r.intent.payload)
  {
    RunKeeps(H, es);
    RunBound(H, es);
    var w := Run(H, INITIAL, es);
    assert RowOk(w, id) && RowBound(H, es, w, id);
    var k :| 0 <= k < |es| && ApprovedAt(H, es, k, id, w.ledger[id]);
    assert IntentOk(H, w.ledger[id].intent);
  }

  /** The release route turns away the pinned credential, resuming or not, and on an action that pins none the one
      that Python prints for nothing. */
  lemma TurnedAway(H: Digest, w: World, e: Event)
    requires e.Validate? && e.route == ClaimRelease && e.id in w.ledger
    requires var payload := w.ledger[e.id].intent.payload;
             e.caller.key == Some(if payload.FrozenClaim? then payload.frozenKey else "None")
    ensures StepValidate(H, w, e) == w
  {
  }

  // ----- runs in which no digest is shared by two action types -----

  /** A call on a pending action that rebuilds a payload of the recorded hash rebuilds one of
      the recorded type. */
  predicate ApartAt(H: Digest, w: World, e: Event) {
    e.Validate? && e.id in w.ledger && w.ledger[e.id].status == Pending && H(e.live) == w.ledger[e.id].intent.hash ==>
      Tag(e.live) == w.ledger[e.id].intent.kind
  }

  predicate ApartAfter(H: Digest, w: World, es: seq<Event>, k: nat)
    requires k < |es|
  {
    ApartAt(H, Run(H, w, es[..k]), es[k])
  }

  ghost predicate ApartFrom(H: Digest, w: World, es: seq<Event>) {
    forall k :: 0 <= k < |es| ==> ApartAfter(H, w, es, k)
  }

  /** No approval call of the run rebuilds a colliding payload of another type. */
  ghost predicate TagsApart(H: Digest, es: seq<Event>) {
    ApartFrom(H, INITIAL, es)
  }

  lemma ApartPrefix(H: Digest, w: World, es: seq<Event>, n: nat)
    requires n <= |es| && ApartFrom(H, w, es)
    ensures ApartFrom(H, w, es[..n])
    ensures n < |es| ==> ApartAt(H, Run(H, w, es[..n]), es[n])
  {
    forall k | 0 <= k < n ensures ApartAfter(H, w, es[..n], k) {
      assert es[..n][..k] == es[..k];
      assert ApartAfter(H, w, es, k);
    }
    assert n < |es| ==> ApartAfter(H, w, es, n);
  }

  ghost predicate CallsNone(es: seq<Event>) {
    forall k :: 0 <= k < |es| ==> !es[k].Validate?
  }

  /** Only an approval call can rebuild a colliding payload. */
  lemma ApartAround(H: Digest, w: World, call: Event, rest: seq<Event>)
    requires ApartAt(H, w, call) && CallsNone(rest)
    ensures ApartFrom(H, w, [call] + rest)
  {
    var es := [call] + rest;
    forall k | 0 <= k < |es| ensures ApartAfter(H, w, es, k) {
      if k == 0 {
        assert es[..0] == [];
      } else {
        assert es[k] == rest[k - 1];
      }
    }
  }

  lemma ApartConcat(H: Digest, w: World, a: seq<Event>, v: World, b: seq<Event>)
    requires Run(H, w, a) == v && ApartFrom(H, w, a) && ApartFrom(H, v, b)
    ensures ApartFrom(H, w, a + b)
  {
    forall k | 0 <= k < |a + b| ensures ApartAfter(H, w, a + b, k) {
      if k < |a| {
        assert (a + b)[..k] == a[..k];
        assert ApartAfter(H, w, a, k);
      } else {
        assert (a + b)[..k] == a + b[..k - |a|];
        RunConcat(H, w, a, b[..k - |a|]);
        assert ApartAfter(H, v, b, k - |a|);
      }
    }
  }

  // ----- the credentials of a release -----

  /** In such a run a claim is taken through the action's own route. */
  lemma ClaimedThroughOwnRoute(H: Digest, es: seq<Event>, k: nat, id: Id, r: Record)
    requires TagsApart(H, es) && k < |es| && ApprovedAt(H, es, k, id, r)
    ensures es[k].route == r.intent.kind
  {
    assert ApartAfter(H, INITIAL, es, k);
  }

  /** After every such run a claimed or executed release has three distinct credentials. */
  lemma ThreeCredentials(H: Digest, es: seq<Event>, id: Id)
    requires TagsApart(H, es) && id in Run(H, INITIAL, es).ledger
    requires Run(H, INITIAL, es).ledger[id].intent.kind.ClaimRelease?
    requires Run(H, INITIAL, es).ledger[id].status in {Claimed, Executed}
    ensures var r := Run(H, INITIAL, es).ledger[id];
            && r.intent.payload.FrozenClaim? && r.intent.requester.key.Some? && r.approver.Some?
            && var q, p, k := r.intent.requester.key.value, r.approver.value.key, r.intent.payload.frozenKey;
            q != p && q != k && p != k
  {
    RunKeeps(H, es);
    RunBound(H, es);
    var w := Run(H, INITIAL, es);
    assert RowOk(w, id) && RowBound(H, es, w, id) && IntentOk(H, w.ledger[id].intent);
    CopyHasThree(H, es, id, w.ledger[id]);
  }

  /** The same of every copy a running call holds. */
  lemma CopyHasThree(H: Digest, es: seq<Event>, id: Id, r: Record)
    requires TagsApart(H, es) && Bound(H, es, id, r) && IntentOk(H, r.intent) && r.intent.kind.ClaimRelease?
    ensures r.intent.payload.FrozenClaim? && r.approver.Some? && r.approver.value.key != r.intent.payload.frozenKey
  {
    var k :| 0 <= k < |es| && ApprovedAt(H, es, k, id, r);
    ClaimedThroughOwnRoute(H, es, k, id, r);
  }
}
