/**
 The governed-action protocol: request, atomic claim, explicit resume, execution,
 finalization, supersession, governed claim release and retention, as the service code
 runs it. Every write of the shared store, and every read that a later write relies on, is
 one atomic event; a session is a call in progress, and any number of sessions interleave
 freely and may crash between any two events. A run is any sequence of events whatsoever: an
 event that is not enabled, or that the code refuses, ends its session or changes nothing.

 The reads an approval call makes before its first write are one event. The routes read the
 action for its target and its frozen credential first, and the shared code reads it again.
 What they read first is part of the intent, which never changes, so the two reads differ
 only when the action is inserted or deleted in between. A caller learns an id from the
 response that follows the insertion, and a deleted action is refused.
 */
module GovernedActions {
  import opened Wrappers

  type Key = string
  type Instant = string
  type Id = string
  type SessionId = nat

  datatype ActionType =
    | KillSwitchClear
    | PromptPromote
    | ProviderOperationsReset
    | ModelLifecyclePromote
    | ModelCapabilityRestore
    | DataErasure
    | ServingPolicyIdentityAdd
    | AsyncQueueRecovery
    | BudgetReconciliation
    | ClaimRelease

  /** The hashed payload. Every builder tags it with its own action type; a release pins a
      claim, or says that the claim is gone. */
  datatype Payload =
    | DomainFields(domain: ActionType, fields: map<string, Option<string>>)
    | FrozenClaim(targetId: Id, targetHash: string, claimedAt: Instant, frozenKey: Key, reason: string)
    | VanishedClaim(targetId: Id, reason: string)

  function Tag(p: Payload): ActionType {
    if p.DomainFields? then p.domain else ClaimRelease
  }

  /** The payload digest. The protocol is proved for every function of this type. */
  type Digest = Payload -> string

  /** Types no single principal and no service identity may carry end to end. */
  predicate HumanGoverned(kind: ActionType) {
    !kind.AsyncQueueRecovery?
  }

  datatype ActorClass = HumanApproved | SystemOriginated

  datatype Status = Pending | Claimed | Executed | Superseded

  datatype Caller = Caller(app: string, trust: string, key: Option<Key>)

  /** A header-trusted caller carries no credential; an empty one does not count. */
  predicate Verified(caller: Caller) {
    caller.key.Some? && caller.key.value != ""
  }

  datatype Requester =
    Requester(app: string, trust: string, key: Option<Key>, attribution: Option<string>, at: Instant)

  datatype Approver =
    Approver(app: string, trust: string, key: Key, attribution: Option<string>, at: Instant)

  /** The part of a record that is written once, at request time. */
  datatype Intent = Intent(
    kind: ActionType, actor: ActorClass, target: string,
    hash: string, payload: Payload, requester: Requester)

  datatype Record = Record(
    intent: Intent, status: Status, approver: Option<Approver>, claimedAt: Option<Instant>,
    executedAt: Option<Instant>, result: Option<string>, supersededBy: Option<Id>)

  /** A record as `submit_governed_action` first writes it. */
  function PendingRecord(intent: Intent): Record {
    Record(intent, Pending, None, None, None, None, None)
  }

  /** A record while `approver` holds the claim taken or rotated at `at`. */
  function ClaimedRecord(intent: Intent, approver: Approver, at: Instant): Record {
    Record(intent, Claimed, Some(approver), Some(at), None, None, None)
  }

  /** The credential the release route turns away: a payload without one reads as "None". */
  function FrozenKey(payload: Payload): Key {
    if payload.FrozenClaim? then payload.frozenKey else "None"
  }

  /** The routes that accept an explicit resume. */
  predicate Resumable(route: ActionType) {
    route.DataErasure? || route.BudgetReconciliation? || route.ClaimRelease?
  }

  // ----- the store and the sessions -----

  /** What a call in progress holds locally between two store accesses. */
  datatype Task =
    | Drafted(id: Id, draft: Record)
    | PriorRead(id: Id, draft: Record, prior: Option<(Id, Record)>)
    | Inserting(id: Id, draft: Record)
    | Approving(id: Id, route: ActionType, caller: Caller, attribution: Option<string>, seen: Record, resuming: bool)
    | Holding(id: Id, route: ActionType, claimed: Record)
    | TargetRead(id: Id, route: ActionType, claimed: Record, target: Record)
    | Effected(id: Id, route: ActionType, claimed: Record)
    | Expiring(listed: set<Id>)

  /** One claim or rotation that won its compare-and-set. */
  datatype Grant = Grant(id: Id, at: Instant, approver: Approver)

  /**
   What has happened: `issued`, the intent behind every action id ever drawn (read only to
   draw fresh ids), `drawnBy`, the session that drew it, `stored`, every id ever in the
   store, `grants`, every claim ever won, and `ranBy`, the route whose effect each executed
   action was recorded for.
   */
  datatype History = History(
    issued: map<Id, Intent>, drawnBy: map<Id, SessionId>, stored: set<Id>, grants: set<Grant>,
    ranBy: map<Id, ActionType>)

  /** `ledger` is the store and `sessions` the calls in progress. */
  datatype World = World(ledger: map<Id, Record>, sessions: map<SessionId, Task>, past: History)

  const INITIAL: World := World(map[], map[], History(map[], map[], {}, {}, map[]))

  datatype Event =
    | Submit(s: SessionId, id: Id, caller: Caller, kind: ActionType, target: string,
             fields: map<string, Option<string>>, attribution: Option<string>, now: Instant)
    | RequestRelease(s: SessionId, id: Id, caller: Caller, targetId: Id, reason: string,
                     attribution: Option<string>, now: Instant)
    | ReadPrior(s: SessionId, choice: Option<Id>)
    | SupersedePrior(s: SessionId)
    | Insert(s: SessionId)
    | Validate(s: SessionId, route: ActionType, id: Id, caller: Caller, attribution: Option<string>,
               expectedTarget: string, expectedHash: string, live: Payload, resume: bool)
    | TakeClaim(s: SessionId, now: Instant)
    | ReadTarget(s: SessionId)
    | RunEffect(s: SessionId)
    | ReleaseTarget(s: SessionId)
    | Finalize(s: SessionId, now: Instant, result: Option<string>)
    | Crash(s: SessionId)
    | RecordSystem(id: Id, service: string, kind: ActionType, target: string,
                   fields: map<string, Option<string>>, now: Instant)
    | ListExpired(s: SessionId, ids: set<Id>)
    | DeleteListed(s: SessionId, ids: set<Id>)

  // ----- the store's guarded transition -----

  /** `transition_governed_action`: write only if the current status, and the claim
      instant when one is expected, are the expected ones. */
  function Transition(ledger: map<Id, Record>, id: Id, expected: Status, record: Record,
                      expectedClaim: Option<Instant>): (r: Option<map<Id, Record>>)
  {
    if id !in ledger || ledger[id].status != expected then None
    else if expectedClaim.Some? && ledger[id].claimedAt != expectedClaim then None
    else Some(ledger[id := record])
  }

  // ----- request -----

  function SessionOver(w: World, s: SessionId): World {
    w.(sessions := w.sessions - {s})
  }

  function Draft(H: Digest, w: World, s: SessionId, id: Id, caller: Caller, kind: ActionType, target: string,
                 payload: Payload, attribution: Option<string>, now: Instant): World
  {
    if s in w.sessions || id in w.past.issued || !Verified(caller) then w
    else
      var requester := Requester(caller.app, caller.trust, caller.key, attribution, now);
      var intent := Intent(kind, HumanApproved, target, H(payload), payload, requester);
      w.(sessions := w.sessions[s := Drafted(id, PendingRecord(intent))],
         past := w.past.(issued := w.past.issued[id := intent], drawnBy := w.past.drawnBy[id := s]))
  }

  /** Domains submit their own action types; releases are requested by `RequestRelease`. */
  function StepSubmit(H: Digest, w: World, e: Event): World
    requires e.Submit?
  {
    if e.kind.ClaimRelease? then w
    else Draft(H, w, e.s, e.id, e.caller, e.kind, e.target, DomainFields(e.kind, e.fields), e.attribution, e.now)
  }

  function StepRequestRelease(H: Digest, w: World, e: Event): World
    requires e.RequestRelease?
  {
    if e.targetId !in w.ledger then w
    else
      var target := w.ledger[e.targetId];
      if target.status != Claimed || target.claimedAt.None? || target.approver.None? then w
      else if e.caller.key == Some(target.approver.value.key) then w
      else
        var payload := FrozenClaim(e.targetId, target.intent.hash, target.claimedAt.value,
                                      target.approver.value.key, e.reason);
        Draft(H, w, e.s, e.id, e.caller, ClaimRelease, e.targetId, payload, e.attribution, e.now)
  }

  predicate PendingFor(r: Record, kind: ActionType, target: string) {
    r.intent.kind == kind && r.intent.target == target && r.status == Pending
  }

  /** The store returns some pending action of the same type and target, or none. */
  function StepReadPrior(w: World, e: Event): World
    requires e.ReadPrior?
  {
    if e.s !in w.sessions || !w.sessions[e.s].Drafted? then w
    else
      var task := w.sessions[e.s];
      var intent := task.draft.intent;
      match e.choice
      case Some(p) =>
        if p in w.ledger && PendingFor(w.ledger[p], intent.kind, intent.target)
        then w.(sessions := w.sessions[e.s := PriorRead(task.id, task.draft, Some((p, w.ledger[p])))])
        else w
      case None =>
        if exists p :: p in w.ledger && PendingFor(w.ledger[p], intent.kind, intent.target) then w
        else w.(sessions := w.sessions[e.s := PriorRead(task.id, task.draft, None)])
  }

  function StepSupersede(w: World, e: Event): World
    requires e.SupersedePrior?
  {
    if e.s !in w.sessions || !w.sessions[e.s].PriorRead? then w
    else
      var task := w.sessions[e.s];
      var sessions := w.sessions[e.s := Inserting(task.id, task.draft)];
      match task.prior
      case None => w.(sessions := sessions)
      case Some((p, seen)) =>
        var superseded := seen.(status := Superseded, supersededBy := Some(task.id));
        match Transition(w.ledger, p, Pending, superseded, None)
        case Some(ledger) => w.(sessions := sessions, ledger := ledger)
        case None => w.(sessions := sessions)
  }

  function StepInsert(w: World, e: Event): World
    requires e.Insert?
  {
    if e.s !in w.sessions || !w.sessions[e.s].Inserting? then w
    else
      var task := w.sessions[e.s];
      SessionOver(w, e.s).(ledger := w.ledger[task.id := task.draft], past := w.past.(stored := w.past.stored + {task.id}))
  }

  // ----- approval -----

  datatype Refusal =
    NotVerified | NotFound | NotApprovable | NoApprovalStep | Redirected | HashMismatch | ActionChanged |
    SameCredential | FrozenCredential

  predicate ResumesOwnClaim(record: Record, caller: Caller, resume: bool) {
    resume && record.status == Claimed && record.approver.Some? && caller.key == Some(record.approver.value.key)
  }

  /** Everything a route and `approve_and_execute_governed_action` check before the claim, in
      order. No route looks at the action's type. The result on success says whether the call
      resumes its own interrupted claim. */
  function CheckApproval(H: Digest, ledger: map<Id, Record>, route: ActionType, id: Id, caller: Caller,
                         expectedTarget: string, expectedHash: string, live: Payload, resume: bool)
    : (r: Result<bool, Refusal>)
  {
    if route.ClaimRelease? && id in ledger && caller.key == Some(FrozenKey(ledger[id].intent.payload))
    then Err(FrozenCredential)
    else if !Verified(caller) then Err(NotVerified)
    else if id !in ledger then Err(NotFound)
    else
      var record := ledger[id];
      var resuming := ResumesOwnClaim(record, caller, resume && Resumable(route));
      if record.status != Pending && !resuming then Err(NotApprovable)
      else if record.intent.actor != HumanApproved then Err(NoApprovalStep)
      else if record.intent.target != expectedTarget then Err(Redirected)
      else if record.intent.hash != expectedHash then Err(HashMismatch)
      else if !resuming && H(live) != record.intent.hash then Err(ActionChanged)
      else if caller.key == record.intent.requester.key then Err(SameCredential)
      else Ok(resuming)
  }

  /** A call to the approval route of one action type. The payload it rebuilds from the live
      state is an input, tagged as that route's builder tags it. */
  function StepValidate(H: Digest, w: World, e: Event): World
    requires e.Validate?
  {
    if e.s in w.sessions || e.route.AsyncQueueRecovery? || Tag(e.live) != e.route then w
    else
      match CheckApproval(H, w.ledger, e.route, e.id, e.caller, e.expectedTarget, e.expectedHash, e.live, e.resume)
      case Err(_) => w
      case Ok(resuming) =>
        if e.id in w.ledger
        then w.(sessions := w.sessions[e.s := Approving(e.id, e.route, e.caller, e.attribution, w.ledger[e.id], resuming)])
        else w
  }

  function NewApprover(task: Task, now: Instant): Approver
    requires task.Approving?
  {
    Approver(task.caller.app, task.caller.trust,
             if task.caller.key.Some? then task.caller.key.value else "", task.attribution, now)
  }

  /** The record a claim or a rotation writes. */
  function ClaimWrite(task: Task, now: Instant): Record
    requires task.Approving?
  {
    if task.resuming then task.seen.(claimedAt := Some(now))
    else task.seen.(status := Claimed, approver := Some(NewApprover(task, now)), claimedAt := Some(now))
  }

  /** The compare-and-set that takes the claim, or rotates the resumer's own. */
  function ClaimLedger(w: World, task: Task, now: Instant): Option<map<Id, Record>>
    requires task.Approving?
  {
    if task.resuming then
      if task.seen.claimedAt.None? then None
      else Transition(w.ledger, task.id, Claimed, ClaimWrite(task, now), task.seen.claimedAt)
    else Transition(w.ledger, task.id, Pending, ClaimWrite(task, now), None)
  }

  /** Resume regenerates its instant until it differs from the one it replaces. */
  predicate Spins(task: Task, now: Instant) {
    task.Approving? && task.resuming && task.seen.claimedAt == Some(now)
  }

  function StepTakeClaim(w: World, e: Event): World
    requires e.TakeClaim?
  {
    if e.s !in w.sessions || !w.sessions[e.s].Approving? || Spins(w.sessions[e.s], e.now) then w
    else
      var task := w.sessions[e.s];
      match ClaimLedger(w, task, e.now)
      case None => SessionOver(w, e.s)
      case Some(ledger) =>
        var claimed := ClaimWrite(task, e.now);
        if claimed.approver.None? then SessionOver(w, e.s)
        else w.(ledger := ledger, sessions := w.sessions[e.s := Holding(task.id, task.route, claimed)],
                past := w.past.(grants := w.past.grants + {Grant(task.id, e.now, claimed.approver.value)}))
  }

  // ----- execution -----

  /** The release callback reads its target first; an action that pins none has none to read. */
  function StepReadTarget(w: World, e: Event): World
    requires e.ReadTarget?
  {
    if e.s !in w.sessions || !w.sessions[e.s].Holding? || !w.sessions[e.s].route.ClaimRelease? then w
    else
      var task := w.sessions[e.s];
      if !task.claimed.intent.payload.FrozenClaim? then SessionOver(w, e.s)
      else
        var targetId := task.claimed.intent.payload.targetId;
        if targetId !in w.ledger || w.ledger[targetId].status != Claimed then SessionOver(w, e.s)
        else w.(sessions := w.sessions[e.s := TargetRead(task.id, task.route, task.claimed, w.ledger[targetId])])
  }

  function Released(target: Record): Record {
    target.(status := Pending, approver := None, claimedAt := None)
  }

  /** A domain callback returned; what it did outside the store is not modelled. The
      reconciliation callback cannot parse the amounts of any other payload and raises. */
  function StepRunEffect(w: World, e: Event): World
    requires e.RunEffect?
  {
    if e.s !in w.sessions || !w.sessions[e.s].Holding? || w.sessions[e.s].route.ClaimRelease? then w
    else
      var task := w.sessions[e.s];
      if task.route.BudgetReconciliation? && !Tag(task.claimed.intent.payload).BudgetReconciliation?
      then SessionOver(w, e.s)
      else w.(sessions := w.sessions[e.s := Effected(task.id, task.route, task.claimed)])
  }

  /** The release callback's compare-and-set, fenced to the pinned claim instant. */
  function StepReleaseTarget(w: World, e: Event): World
    requires e.ReleaseTarget?
  {
    if e.s !in w.sessions || !w.sessions[e.s].TargetRead? || !w.sessions[e.s].claimed.intent.payload.FrozenClaim? then w
    else
      var task := w.sessions[e.s];
      var pin := task.claimed.intent.payload;
      match Transition(w.ledger, pin.targetId, Claimed, Released(task.target), Some(pin.claimedAt))
      case None => SessionOver(w, e.s)
      case Some(ledger) => w.(ledger := ledger, sessions := w.sessions[e.s := Effected(task.id, task.route, task.claimed)])
  }

  function StepFinalize(w: World, e: Event): World
    requires e.Finalize?
  {
    if e.s !in w.sessions || !w.sessions[e.s].Effected? then w
    else
      var task := w.sessions[e.s];
      var executed := task.claimed.(status := Executed, executedAt := Some(e.now), result := e.result);
      match Transition(w.ledger, task.id, Claimed, executed, task.claimed.claimedAt)
      case None => SessionOver(w, e.s)
      case Some(ledger) => SessionOver(w, e.s).(ledger := ledger,
            past := w.past.(ranBy := w.past.ranBy[task.id := task.route]))
  }

  // ----- runtime actions and retention -----

  function StepRecordSystem(H: Digest, w: World, e: Event): World
    requires e.RecordSystem?
  {
    if e.id in w.past.issued || HumanGoverned(e.kind) then w
    else
      var requester := Requester(e.service, "service_runtime", None, None, e.now);
      var payload := DomainFields(e.kind, e.fields);
      var intent := Intent(e.kind, SystemOriginated, e.target, H(payload), payload, requester);
      w.(past := w.past.(issued := w.past.issued[e.id := intent], stored := w.past.stored + {e.id}),
         ledger := w.ledger[e.id := Record(intent, Executed, None, None, Some(e.now), None, None)])
  }

  /** Retention lists aged actions that are not pending. */
  function StepListExpired(w: World, e: Event): World
    requires e.ListExpired?
  {
    if e.s in w.sessions || exists id :: id in e.ids && (id !in w.ledger || w.ledger[id].status == Pending) then w
    else w.(sessions := w.sessions[e.s := Expiring(e.ids)])
  }

  /** Then it deletes what it listed, in one statement or row by row, whatever became of it. */
  function StepDeleteListed(w: World, e: Event): World
    requires e.DeleteListed?
  {
    if e.s !in w.sessions || !w.sessions[e.s].Expiring? || !(e.ids <= w.sessions[e.s].listed) then w
    else w.(ledger := w.ledger - e.ids, sessions := w.sessions[e.s := Expiring(w.sessions[e.s].listed - e.ids)])
  }

  function Step(H: Digest, w: World, e: Event): World {
    match e
    case Submit(_, _, _, _, _, _, _, _) => StepSubmit(H, w, e)
    case RequestRelease(_, _, _, _, _, _, _) => StepRequestRelease(H, w, e)
    case ReadPrior(_, _) => StepReadPrior(w, e)
    case SupersedePrior(_) => StepSupersede(w, e)
    case Insert(_) => StepInsert(w, e)
    case Validate(_, _, _, _, _, _, _, _, _) => StepValidate(H, w, e)
    case TakeClaim(_, _) => StepTakeClaim(w, e)
    case ReadTarget(_) => StepReadTarget(w, e)
    case RunEffect(_) => StepRunEffect(w, e)
    case ReleaseTarget(_) => StepReleaseTarget(w, e)
    case Finalize(_, _, _) => StepFinalize(w, e)
    case Crash(s) => SessionOver(w, s)
    case RecordSystem(_, _, _, _, _, _) => StepRecordSystem(H, w, e)
    case ListExpired(_, _) => StepListExpired(w, e)
    case DeleteListed(_, _) => StepDeleteListed(w, e)
  }

  /** The world after a run of events. */
  function Run(H: Digest, w: World, es: seq<Event>): World {
    if es == [] then w else Step(H, Run(H, w, es[..|es| - 1]), es[|es| - 1])
  }
}
