# Verified model of lotus-ai's governed control planes

lotus-ai decides who may execute a risk-increasing action, how much a provider may still
bill, which model identity is serving, and whether the evidence behind a release is good
enough. This project states those rules in Dafny and proves what they promise:

- **Governed actions** (`GovernedActions` and the `GovernedAction` modules): the request, claim,
  resume, execute, supersede, release and retention protocol as a state machine over single
  store accesses. A run is any sequence of events, so every theorem covers every interleaving
  of any number of calls, each of which may crash between any two of its accesses. Approval
  calls come through the route of one action type, as in the services. The payload digest is
  a parameter.
- **Budget ledger** (`BudgetLedger`, `BudgetSafety`): attempt debits and the counter they
  move, with every result stated for the process-local and for the SQL store. Amounts are
  whole units of 1e-8 USD.
- **Canonical identity** (`Unicode`, `CanonicalJson`, `PromptContent`, `CandidateIdentity`,
  `CatalogueMigration`): the JSON printer in both escape modes, UTF-8, decoders that undo
  them, and the identity migration built on them. SHA-256 is a parameter, and results about
  digests carry an explicit no-collision hypothesis.
- **Evidence gates** (`MainGateAudit`, `Registries`, `BranchProtection`, `BranchComparison`,
  `LeakScan`): classification, nested validation, policy comparison and the leak scan.
- **Data migrations** (`CallerPolicies`, the `CallerPolicy` modules, `PromptTables`) and the
  two **state tables** (`ModelLifecycle`, `QueueStates`).

`Sorting`, `Json` and `Wrappers` are shared.

## Where the code does less than its comments say

- *A claim instant can come back.* The resume rotation makes its instant differ only from the
  one it replaces. Two rotations can therefore return to an earlier instant, and an executor
  that lost its claim owns it again (`TwoOwners`). Exclusive ownership holds throughout a run
  if and only if no winning claim reuses an instant that another running executor of the same
  action holds (`ExclusiveRun`). After a release, a claim at an old instant lets an old
  executor finalize over the new claimant's evidence (`FinalizedForAnother`) and lets a release
  end the claim of the credential that requested it (`ReleasedByClaimant`). The evidence is
  safe throughout a run if and only if no claim is won at an instant at which another call
  holds a copy with another approver (`TruthfulRun`), and releases end the claims they pin as
  long as no claim is won at an instant pinned under another credential (`PinsTrueRun`).
- *More than one action per type and target can be pending*, and approvable, after a release
  (`TwoPending`) or when two requests race (`RacingRequests`). It is at most one throughout a
  run if and only if no insertion and no landing release meets another (`OnePendingRun`).
- *A release can strand itself.* When a release's effect has landed but its EXECUTED write is
  lost, no new call of its own route can execute it (`StrandedRun`, `ReleaseExecutableIff`). The
  safety argument in the module docstring covers the target action, not the release.
- *No route checks the action's type.* A resume skips the payload check, and the erasure
  callback accepts any payload, so the claiming credential can have any claimed action
  recorded as executed by resuming it through the erasure route (`ErasureExecutesAny`). Every
  executed action of a run ran its own effect exactly when no erasure call finalizes an action
  of another type (`RanOwnRun`); only erasures are sure to have run it (`OwnEffectIff`).
- *Retention can delete a pending action.* It lists the actions that are not pending and then
  deletes by id; one that is released in between is lost (`PendingLost`). No pending action is
  ever at risk in a run if and only if no release lands on a listed action (`SafeRun`).
- *A budget reset re-opens the limit under outstanding reservations* (`ResetOvershoots`), and
  after one the SQL store resolves rows without moving a counter (`StoresDiverge`), so its
  books need a correction term (`Conservation`, `BalancedThroughoutIff`).
- *A split surrogate pair prints like the character it spells*, so prompt contents with lone
  surrogates are not told apart (`SplitPairCollides`); `PromptTextIff` is the exact rule.
- *A historical row key whose provider starts with `cand2_` never resolves*
  (`RowKeyResolvesIff`).
- *The policy shape check accepts a false non-boolean `present`* that no live posture can
  match when it is null, empty text or an empty container (`PresenceSatisfiableIff`).

## Model

| member | source | states |
|---|---|---|
| GovernedActionSafety.StepKeeps | src/app/services/governed_action_control.py:70-352 | every store access of every call through every route, crashes and retention included, keeps the invariant over the store and over all possibly stale local copies |
| GovernedActionSafety.RunKeeps | src/app/services/governed_action_control.py:70-352 | the invariant holds after every run from the empty store |
| GovernedActionSafety.EvidenceAfterEveryRun | src/app/contracts/governed_actions.py:1-17 | after every run each record's hash is that of its own payload; a claimed or executed human action has two different, non-empty credentials; a system action is never of a human-governed type; pending and superseded records carry no execution evidence |
| GovernedActionOrigins.StoredOrigin | src/app/services/governed_action_control.py:70-117 | after every run each stored action is what one event of the run asked for: the submitted type, target, fields and requester evidence, the claim live at that moment for a release, or a service's own recovery, with the digest of that payload |
| GovernedActionPhases.SubmitPhase | src/app/services/governed_action_control.py:70-117 | an undisturbed submission of a verified caller stores exactly what was submitted and supersedes the pending action it found |
| GovernedActionPhases.ReleaseRequestPhase | src/app/services/governed_claim_release.py:90-141 | an undisturbed release request of a verified caller other than the claimant stores a release that pins the live claim |
| GovernedActionPhases.ApprovalExecutes | src/app/services/governed_action_control.py:120-312 | an undisturbed approval by another verified caller executes a pending action of any type but a release, and the record holds the approver, both instants and the result |
| GovernedActionPhases.LandPhase | src/app/services/governed_claim_release.py:196-234 | an undisturbed release makes its target pending again as requested |
| GovernedActionPhases.RecordPhase | src/app/services/governed_action_control.py:315-352 | a service's recovery is stored executed at once, with its service, target and payload |
| GovernedActionSafety.ClaimWriteOk | src/app/services/governed_action_control.py:217-278 | what a claim or rotation writes is a well-formed claim under the calling credential |
| GovernedActionSafety.TerminalForever | src/app/contracts/governed_actions.py:70-85 | an executed or superseded record is never rewritten: later it is the same record or it is gone |
| GovernedActionSafety.GoneForever | src/app/repositories/memory_provider_operations_repository.py:317-322 | a deleted action is never stored again |
| GovernedActionSafety.ExecutedAtMostOnce | src/app/services/governed_action_control.py:286-312 | in every run an action moves to EXECUTED at most once |
| GovernedActionOwnership.ExclusiveStep | src/app/services/governed_action_control.py:217-250 | from an exclusive world the next one is exclusive if and only if a winning claim does not reuse a running executor's instant |
| GovernedActionOwnership.ExclusiveRun | src/app/services/governed_action_control.py:217-278 | an action has at most one owner throughout a run if and only if every claim won is so guarded |
| GovernedActionOwnership.OneOwner | src/app/services/governed_action_control.py:251-278 | when no claim instant repeats on an action, two owners of it are the same call |
| GovernedActionApproval.ApprovalBound | src/app/services/governed_action_control.py:145-214 | after every run, behind each claimed or executed two-step action stands a call of its recorded approver that found it pending as requested, stated its recorded target and the hash of its recorded payload and rebuilt a payload of that hash |
| GovernedActionApproval.RunBound | src/app/services/governed_action_control.py:120-312 | the same for every stale copy a running call holds |
| GovernedActionApproval.ThreeCredentials | src/app/services/governed_claim_release.py:144-164 | when no approval of the run rebuilds a colliding payload of another type, every claimed or executed release has a requester, an approver and a pinned credential that all differ |
| GovernedActionApproval.TurnedAway | src/app/services/governed_claim_release.py:161-164 | the release route turns away the pinned credential, resuming or not, and on an action that pins none the text `None` |
| GovernedActionFates.PendingFate | src/app/services/governed_action_control.py:98-117 | each event leaves a pending action alone, has it claimed by the calling credential or superseded by a newer request of the same type and target, or deletes it from a retention list |
| GovernedActionFates.LosableIff | src/app/services/data_lifecycle_engine.py:219-224 | one event can lose an action exactly when a retention call has it on its list |
| GovernedActionFates.SafeRun | src/app/services/data_lifecycle_engine.py:271-281 | throughout a run no pending action is on a retention list if and only if no release lands on a listed action |
| GovernedActionFates.EveryPendingFate | src/app/services/data_lifecycle_engine.py:195-205 | in such a run a pending action stays until it is claimed or superseded |
| GovernedActionFates.EveryClaimFate | src/app/services/governed_claim_release.py:1-21 | in every run a live claim stays, is deleted from a retention list, is rotated to another instant or finalized from a copy at its instant, or is released under two different credentials, leaving the record exactly as requested |
| GovernedActionFates.RotationBound | src/app/services/governed_action_control.py:156-250 | behind every rotation stands a call of the claiming credential that asked to resume the claim as it was then stored, through an erasure, reconciliation or release route, and stated its target and hash |
| GovernedActionFates.ReleaseFate | src/app/services/governed_claim_release.py:196-234 | a landing release restores the pending record whatever claim is live at the pinned instant |
| GovernedActionEvidence.TruthfulStep | src/app/services/governed_action_control.py:225-250 | from a world in which no call holds a copy at the live claim's instant under another approver, the next one is such if and only if a winning claim writes no instant at which another call's copy carries another approver |
| GovernedActionEvidence.TruthfulRun | src/app/services/governed_action_control.py:217-312 | no such copy exists throughout a run if and only if every claim won is so guarded |
| GovernedActionEvidence.EvidenceLosableIff | src/app/services/governed_action_control.py:286-312 | one event can overwrite a live claim's approver exactly when a resume or a call past its effect holds such a copy |
| GovernedActionEvidence.EvidenceKept | src/app/services/governed_action_control.py:217-312 | in a guarded run rotation changes the instant only, finalization adds its own fields only, and nothing else rewrites a claim without releasing it |
| GovernedActionEvidence.PinsTrueRun | src/app/services/governed_claim_release.py:78-105 | throughout a run every release whose pinned instant is live pins the live claimant if and only if no claim is won at an instant that a release pins under another credential |
| GovernedActionEvidence.ReleasedByOthers | src/app/services/governed_claim_release.py:196-234 | in such a run a landing release ends a claim of the credential it pins, and its requester, its approver and the claimant are three |
| GovernedActionEvidence.FreshMeetsGuards | src/app/services/governed_action_control.py:227-250 | a claim at an instant new to the action meets both guards |
| GovernedActionUniqueness.OnePendingStep | src/app/services/governed_action_control.py:78-117 | from a world with at most one pending action per type and target, the next one is such if and only if an insertion or a landing release meets no pending action of its type and target |
| GovernedActionUniqueness.OnePendingRun | src/app/services/provider_operations_control.py:195-210 | at most one action per type and target is pending throughout a run if and only if every insertion and landing release is so guarded |
| GovernedActionUniqueness.OnlyNewestApprovable | src/app/services/governed_action_control.py:78-83 | in such a run an approval of any other action of the type and target is refused once a new request is stored |
| GovernedActionUniqueness.SearchFinds | src/app/services/governed_action_control.py:101-104 | the search before an insertion finds a pending action of the type and target whenever there is one |
| GovernedActionReleases.ReleaseExecutableIff | src/app/services/governed_claim_release.py:196-252 | by calls in progress and new calls through its own route, and with no claim instant repeated from here on, a claimed release can be executed if and only if the claim it pins is live, its owner is past the effect, or an erasure call owns it or is resuming it at its instant |
| GovernedActionReleases.StrandedForever | src/app/services/governed_claim_release.py:196-252 | once none of these holds, no such continuation executes it |
| GovernedActionReleases.ErasureExecutesAny | src/app/services/data_lifecycle_erasure.py:164-239 | from every world any claimed action can be recorded as executed through the erasure route |
| GovernedActionReleases.ResumeTakes | src/app/services/governed_action_control.py:156-250 | through each of these three routes the claimant can resume a live claim and takes it over at the new instant |
| GovernedActionRoutes.OwnEffectOrErasure | src/app/services/governed_action_control.py:191-206 | without such a collision an executed two-step action was recorded for its own effect or for an erasure |
| GovernedActionRoutes.RanOwnRun | src/app/services/governed_action_control.py:284-312 | throughout a run every executed action ran its own effect if and only if no finalization through the erasure route lands on another type |
| GovernedActionRuns.OwnEffectIff | src/app/services/data_lifecycle_erasure.py:303-315 | executed actions of a type ran their own effect in every run if and only if the type is erasure |
| GovernedActionRuns.TwoOwners | src/app/services/governed_action_control.py:227-250 | a reachable world in which two calls own one action |
| GovernedActionRuns.StrandedRun | src/app/services/governed_claim_release.py:196-252 | a reachable world with a stranded release |
| GovernedActionRuns.StrandedEscape | src/app/services/data_lifecycle_erasure.py:220-239 | a stranded release is not executable without a new call through another route and is through the erasure route |
| GovernedActionRuns.PendingLost | src/app/services/data_lifecycle_engine.py:219-224 | a reachable world in which the next deletion loses a pending action |
| GovernedActionRuns.FinalizedForAnother | src/app/services/governed_action_control.py:295-312 | a reachable world in which an old executor finalizes over another claimant's evidence |
| GovernedActionRuns.ReleasedByClaimant | src/app/services/governed_claim_release.py:196-234 | a reachable world in which a release ends the claim of the credential that requested it |
| GovernedActionRuns.TwoPending | src/app/services/governed_claim_release.py:196-234 | claim, request again, release: a reachable world with two approvable actions of one type and target |
| GovernedActionRuns.RacingRequests | src/app/services/governed_action_control.py:102-117 | two racing requests reach such a world too |
| BudgetLedger.MemoryStore.AddBudgetSpend | src/app/repositories/memory_provider_operations_repository.py:83-98 | the counter of one key moves by the amount, and no other key and no debit changes |
| BudgetLedger.MemoryStore.ReserveAttemptDebit | src/app/repositories/memory_provider_operations_repository.py:100-121 | admitted exactly when the id is new and the counter stays within the limit; the counter moves by what the recorded amounts move, and a refusal changes nothing |
| BudgetLedger.MemoryStore.SettleAttemptDebit | src/app/repositories/memory_provider_operations_repository.py:123-153 | wins exactly on a reserved row, records the given evidence, keeps the rate card unless one is given, and the counter moves by what the recorded amounts move |
| BudgetLedger.MemoryStore.HoldAttemptDebit | src/app/repositories/memory_provider_operations_repository.py:155-166 | wins exactly on a reserved row and moves neither the counter nor the exposure |
| BudgetLedger.MemoryStore.ReconcileAttemptDebit | src/app/repositories/memory_provider_operations_repository.py:168-197 | wins exactly on an outstanding row, records the given evidence, keeps the rate card unless one is given, and the counter moves by what the recorded amounts move |
| BudgetLedger.MemoryStore.ResetBudget | src/app/repositories/memory_provider_operations_repository.py:294-295 | the counter of one key reads zero, and no other key and no debit changes |
| BudgetLedger.MemoryStore.DeleteAttemptDebits | src/app/repositories/memory_provider_operations_repository.py:211-216 | exactly the named rows leave, the others and every counter stay, and the rows that left are counted, whatever repeats the list holds |
| BudgetSafety.RowsAfter | src/app/repositories/sqlalchemy_provider_operations_repository.py:188-442 | on either store, all rows after every operation: only its own row changes, to the usage evidence, to a release, to a hold or to the reconciled charge, and expiry removes exactly the named rows |
| BudgetSafety.OneCounter | src/app/repositories/memory_provider_operations_repository.py:83-98 | no operation touches a counter but the one of live text generation |
| BudgetSafety.CountersAfterExpiry | src/app/services/data_lifecycle_engine.py:250-259 | expiry leaves every counter |
| BudgetSafety.Conservation | src/app/services/data_lifecycle_engine.py:250-259 | on either store, after every run, the counter is the sum of the recorded debits plus the expired ones and direct additions, less what resets wiped and what resolutions missed |
| BudgetSafety.BalancedThroughoutIff | src/app/repositories/sqlalchemy_provider_operations_repository.py:308-361 | the books balance without the last term throughout a run if and only if no resolution changes the amount of a row the SQL store has no counter row for |
| BudgetSafety.CoveredStep | src/app/repositories/sqlalchemy_provider_operations_repository.py:188-442 | on either store every operation keeps the counter above the outstanding exposure, a reset exactly when nothing is outstanding |
| BudgetSafety.CoveredThroughoutIff | src/app/services/provider_operations_control.py:238-261 | over whole runs the counter covers the exposure if and only if every reset finds nothing outstanding |
| BudgetSafety.AdmissionWithinLimit | src/app/services/provider_budget_policy.py:163-220 | in such runs an admitted reservation never takes the outstanding exposure past the hard limit |
| BudgetSafety.ResetOvershoots | src/app/repositories/sqlalchemy_provider_operations_repository.py:614-622 | for every positive limit a reset lets twice the limit be outstanding |
| BudgetSafety.CounterWithinLimit | src/app/services/provider_budget_policy.py:163-335 | under one limit, with evidence within the held amounts and no direct additions, the counter stays within the limit over every run, resets included |
| BudgetSafety.OnlyEvidenceReleases | src/app/services/provider_budget_policy.py:223-308 | the counter falls only when evidence resolves a row to less than it held, or on a reset |
| BudgetSafety.ResolvedOnce | src/app/repositories/sqlalchemy_provider_operations_repository.py:335-361 | a resolved row is never changed by any run that keeps it |
| BudgetSafety.HeldUntilReconciled | src/app/repositories/sqlalchemy_provider_operations_repository.py:363-442 | an unresolved row keeps its full amount through every run that neither reconciles nor expires it |
| BudgetSafety.RiskIsHeld | src/app/services/provider_budget_policy.py:223-308 | an attempt with billable risk and no usage evidence is held at its full amount, with counter and exposure unchanged |
| BudgetSafety.RetryConverges | src/app/services/provider_budget_policy.py:258-261 | repeating a reservation, settlement or reconciliation changes nothing more |
| BudgetSafety.StoresAgreeStep | src/app/repositories/sqlalchemy_provider_operations_repository.py:188-442 | the SQL store takes the process-local store's step unless a row is resolved while the counter row is missing |
| BudgetSafety.StoresAgreeThroughoutIff | src/app/repositories/sqlalchemy_provider_operations_repository.py:188-442 | the stores hold the same ledger throughout a run if and only if no row is so resolved |
| BudgetSafety.StoresAgree | src/app/repositories/sqlalchemy_provider_operations_repository.py:188-442 | every run without a reset leaves both stores equal |
| BudgetSafety.StoresDiverge | src/app/repositories/sqlalchemy_provider_operations_repository.py:350-361 | reserve, reset, release: the process-local counter is below zero and the SQL counter is missing |
| Unicode.JoinLength | src/app/contracts/prompts.py:38-54 | joining the UTF-16 units of a text gives it back if and only if it holds no split surrogate pair |
| Unicode.Utf8RoundTrip | src/app/contracts/model_catalogue.py:97-108 | UTF-8 decoding undoes encoding on every text of scalar values |
| Unicode.EncodeTotal | src/app/contracts/model_catalogue.py:97-108 | encoding is defined exactly on texts of scalar values |
| Unicode.PointBytes | src/app/contracts/model_catalogue.py:97-108 | each point is encoded in the shortest form of section 3 of RFC 3629 |
| Unicode.EncodeOne | src/app/contracts/model_catalogue.py:97-108 | exactly the surrogates are refused |
| Unicode.EncodeConcat | src/app/contracts/model_catalogue.py:97-108 | a text is encoded point by point |
| Unicode.UnitsOfOne | src/app/contracts/prompts.py:38-54 | each point has the UTF-16 units of section 2.1 of RFC 2781 |
| CanonicalJson.ObjectRoundTrip | src/app/contracts/model_catalogue.py:74-108 | the decoder reads back every printed object in both escape modes |
| CanonicalJson.PlainPrints | src/app/contracts/prompts.py:46-54 | printable ASCII without quote and backslash is printed as it is, in both modes |
| CanonicalJson.ShortEscapesPrint | src/app/contracts/prompts.py:46-54 | the seven two-character escapes |
| CanonicalJson.OthersPrint | src/app/contracts/prompts.py:46-54 | every other character is itself, or in the ASCII mode and below 0x20 the four lowercase hexadecimal digits of each of its UTF-16 units |
| CanonicalJson.PrintConcat | src/app/contracts/prompts.py:46-54 | strings are printed piece by piece, so these laws fix every printed string |
| CanonicalJson.CanonicalIffSameItems | src/app/contracts/model_catalogue.py:87-108 | without ASCII escaping two canonical texts are equal exactly when the objects hold the same items |
| CanonicalJson.AsciiCanonicalIffSameItems | src/app/contracts/prompts.py:38-54 | the same in the ASCII mode for texts without split pairs |
| CanonicalJson.CanonicalIgnoresOrder | src/app/contracts/model_catalogue.py:97-107 | the order in which keys are given never shows |
| CanonicalJson.PlainFormEncodes | src/app/contracts/model_catalogue.py:97-108 | the unescaped form can be hashed exactly when every part is scalar |
| CanonicalJson.AsciiFormEncodes | src/app/contracts/prompts.py:38-54 | the ASCII form is printable and can always be hashed |
| PromptContent.PromptReads | src/app/contracts/prompts.py:38-54 | the decoder recovers both strings up to joining of surrogate pairs |
| PromptContent.PromptTextIs | src/app/contracts/prompts.py:46-54 | the whole canonical text of every prompt, with its two keys, separators and printed strings |
| PromptContent.PlainPromptIs | src/app/contracts/prompts.py:46-54 | a prompt of plain text is hashed as exactly that text, in ASCII bytes |
| PromptContent.PromptReadsExactly | src/app/contracts/prompts.py:38-54 | it recovers them exactly if and only if neither holds a split pair |
| PromptContent.PromptTextIff | src/app/contracts/prompts.py:38-54 | two prompts share a canonical text if and only if their UTF-16 units agree |
| PromptContent.PromptTextInjective | src/app/contracts/prompts.py:38-54 | without split pairs different prompts never share a canonical text |
| PromptContent.SplitPairCollides | src/app/contracts/prompts.py:38-54 | a concrete pair of different contents with one text |
| PromptContent.ContentShaIff | src/app/contracts/prompts.py:38-54 | absent a collision the digests agree exactly when the units do |
| CandidateIdentity.CandidateReads | src/app/contracts/model_catalogue.py:74-108 | the decoder recovers every serving tuple, whatever its characters, with null apart from every string |
| CandidateIdentity.CandidateTextIs | src/app/contracts/model_catalogue.py:97-108 | the whole canonical text of every tuple, with its five keys in order, null or the deployment, and version 2 |
| CandidateIdentity.CandidateIdIs | src/app/contracts/model_catalogue.py:107-108 | the id is `cand2_` and the digest of that text in UTF-8 |
| CandidateIdentity.V1KeyIs | src/app/contracts/model_catalogue.py:66-67 | the row key is the parts joined by colons, an absent or empty deployment leaving no trace |
| CandidateIdentity.CandidateIdDefined | src/app/contracts/model_catalogue.py:74-108 | the id exists exactly for tuples of scalar text |
| CandidateIdentity.CandidateIdIff | src/app/contracts/model_catalogue.py:74-108 | absent a collision two ids agree exactly when the tuples do |
| CandidateIdentity.V1KeyDetermines | src/app/contracts/model_catalogue.py:46-68 | with colon-free provider and revision the v1 key determines all parts, null and empty deployment identified |
| CandidateIdentity.V1KeyAmbiguousIff | src/app/contracts/model_catalogue.py:46-68 | a v1 key is shared by another tuple exactly when its text holds a second delimiter |
| CandidateIdentity.KeysNeverClash | src/app/contracts/model_catalogue.py:46-108 | no v1 key equals any canonical id |
| CatalogueMigration.CatalogueTable.Upgrade | alembic/versions/0070_candidate_identity_v2.py:82-116 | the loop leaves exactly the table in which every row is backfilled |
| CatalogueMigration.BackfillFrame | alembic/versions/0070_candidate_identity_v2.py:82-116 | every row gets the id of its own tuple and its deployment or the empty text, keeps every other column, and no row appears or vanishes |
| CatalogueMigration.IndexesBuildIff | alembic/versions/0070_candidate_identity_v2.py:82-116 | each unique index builds if and only if no two rows share its columns |
| CatalogueMigration.KeyedTableTakesIndexes | alembic/versions/0070_candidate_identity_v2.py:33-116 | on a table keyed by its own v1 ids both indexes build, although null and empty deployments merge |
| CatalogueMigration.CatalogueEntry.StampIdentity | src/app/contracts/model_catalogue.py:242-263 | fails as unencodable exactly without a scalar tuple, stamps an empty id, accepts a given one exactly when it is derived, and changes nothing otherwise |
| CatalogueMigration.StampIs | src/app/contracts/model_catalogue.py:242-263 | an entry without an id gets the derived one, and a given id is kept exactly when it is the derived one and refused otherwise |
| CatalogueMigration.StampIdempotent | src/app/contracts/model_catalogue.py:242-263 | stamping again changes nothing |
| CatalogueMigration.BackfillAccepted | src/app/contracts/model_catalogue.py:242-263 | the live validator accepts every backfilled row, and absent a collision accepts its id on another tuple only if the tuples are equal |
| CatalogueMigration.CanonicalIdResolves | src/app/services/model_catalogue.py:466-479 | after the migration a canonical id resolves to its own row |
| CatalogueMigration.RowKeyResolvesIff | src/app/services/model_catalogue.py:466-479 | a historical key resolves to its own row exactly unless its provider starts with the canonical prefix |
| CatalogueMigration.UnknownResolvesToNothing | src/app/services/model_catalogue.py:466-479 | an identity that is no row's key and no row's canonical id resolves to nothing |
| MainGateAudit.Classify | scripts/audit_main_gate_coverage.py:175-223 | the sort-then-scan computes the verdict defined by plain maxima over the runs |
| MainGateAudit.NewestIsMaximum | scripts/audit_main_gate_coverage.py:159-172 | the deciding run is one that beats every other match by (createdAt, attempt, id), and there is one exactly when something matches |
| MainGateAudit.DecidesIff | scripts/audit_main_gate_coverage.py:159-172 | the deciding run is newer than every other match by creation time, attempt and id, missing ones counting as empty and zero, and of equally new ones the first listed |
| Sorting.StringLeqIff | scripts/audit_main_gate_coverage.py:159-172 | texts are ordered by prefix, or by the lesser character where they first differ |
| MainGateAudit.OneRun | scripts/audit_main_gate_coverage.py:175-223 | what a single run says, by each status, conclusion and age |
| MainGateAudit.CoveredIff | scripts/audit_main_gate_coverage.py:186-223 | covered exactly when some run completed with success, failure or timed_out; PASSED exactly when the deciding one succeeded and FAILED exactly when it failed or timed out |
| MainGateAudit.UncoveredStates | scripts/audit_main_gate_coverage.py:183-223 | ABSENT, UNEVALUATED, PENDING and STALE each exactly by which runs exist and how old the deciding in-flight one is |
| MainGateAudit.OrderIrrelevant | scripts/audit_main_gate_coverage.py:159-223 | with distinct keys the whole verdict survives any permutation of the runs |
| MainGateAudit.GrowthKeepsCovered | scripts/audit_main_gate_coverage.py:186-223 | adding runs keeps a covered commit covered |
| MainGateAudit.UnevaluatedGrowth | scripts/audit_main_gate_coverage.py:186-223 | adding only unevaluated runs keeps its exact state and deciding run |
| MainGateAudit.AgeingIsOneWay | scripts/audit_main_gate_coverage.py:59-70 | as the clock advances the verdict stays or goes from PENDING to STALE |
| MainGateAudit.StateForCommit | scripts/audit_main_gate_coverage.py:239-269 | at most max(1, n) reads, one sleep fewer, all but the last PENDING, the state that of the last read, and PENDING only when reads ran out |
| MainGateAudit.Tally | scripts/audit_main_gate_coverage.py:314-349 | each state is counted as often as it occurs, the counts sum to the window, covered is passed plus failed, and the exit code is 1 exactly when an enabled flag has a witness |
| Registries.ValidateRunArtifacts | src/app/evals/run_registry.py:27-140 | accepts exactly the registries with unique runs, unique seams per run, known fixtures, matching counts and totals equal to their sums |
| Registries.CheckSeams | src/app/evals/run_registry.py:71-121 | the inner loop decides seam validity and returns both sums |
| Json.GetIs | src/app/evals/run_registry.py:46-46 | a lookup finds the value of the first field of that name, and nothing exactly when there is none |
| Json.BlankIff | src/app/evals/run_registry.py:143-147 | the white space that a non-empty text must exceed |
| Json.AsIntIs | src/app/evals/run_registry.py:150-154 | booleans count as the integers 0 and 1 |
| Registries.AcceptedRun | src/app/evals/run_registry.py:40-140 | an accepted run is named, dated, noted and of the current manifest, its fixture total is the number of fixture ids its seams list, its case total what they state, and its id is its own |
| Registries.AcceptedSeam | src/app/evals/run_registry.py:71-121 | each accepted seam is named apart from the others and lists known fixtures only |
| Registries.RunAccepted | src/app/evals/run_registry.py:27-140 | conversely every such run is accepted |
| Registries.RunsAcceptedIff | src/app/evals/run_registry.py:42-57 | runs are accepted together exactly when each is on its own and their ids differ |
| Registries.SeamsAcceptedIff | src/app/evals/run_registry.py:71-86 | so are the seams of a run |
| Registries.ValidateJobArtifacts | src/app/async_runtime/job_registry.py:27-65 | accepts exactly the registries with unique, complete jobs whose references are known runs |
| Registries.JobAcceptedIff | src/app/async_runtime/job_registry.py:27-65 | a job is accepted exactly with six non-blank texts and a reference that is absent, null or a known run |
| Registries.JobsAcceptedIff | src/app/async_runtime/job_registry.py:35-46 | and jobs |
| Registries.ReferenceNamesOneRun | src/app/async_runtime/job_registry.py:27-65 | when both registries are accepted each job's reference names exactly one run |
| BranchProtection.ValidatePolicy | scripts/check_branch_protection_policy.py:80-154 | reports nothing exactly on complete documents, for arbitrary JSON |
| BranchProtection.PolicyCompleteIff | scripts/check_branch_protection_policy.py:80-154 | complete documents key by key: the four keys, three documented roles, every exception complete, and a zero review count documented |
| BranchProtection.ExpectedCompleteIff | scripts/check_branch_protection_policy.py:89-116 | seven booleans, a strict flag, a non-empty list of context strings and a complete review block |
| BranchProtection.ReviewsCompleteIff | scripts/check_branch_protection_policy.py:112-140 | a block declared present has three more booleans, a count that is null or an integer, and lists of users, teams and apps |
| BranchProtection.ExceptionCompleteIff | scripts/check_branch_protection_policy.py:141-144 | an exception object has its five fields |
| BranchProtection.ExceptionListIff | scripts/check_branch_protection_policy.py:141-144 | one given as a list of plain values names all five |
| BranchProtection.LookupIs | scripts/check_branch_protection_policy.py:86-88 | a lookup reads the first field of that name, or null |
| BranchProtection.TruthyIff | scripts/check_branch_protection_policy.py:117-118 | which values count as false |
| BranchProtection.EqualIff | scripts/check_branch_protection_policy.py:198-200 | numbers and booleans compare as numbers, anything else only equals itself |
| BranchProtection.SortedListIs | scripts/check_branch_protection_policy.py:205-206 | lists of strings are sorted as strings, any other as Python would |
| BranchComparison.Compare | scripts/check_branch_protection_policy.py:186-252 | on a complete document no declared key is missing at lookup, and it raises exactly when the response cannot be read or sorted; otherwise the issues are exactly the settings that differ, and there are none exactly when everything agrees; lists agree as multisets, and bypass names of which neither side is all strings as Python sorts them |
| BranchComparison.SwitchReads | scripts/check_branch_protection_policy.py:182-200 | each of the five switches differs exactly when its `enabled`, or the bare boolean, is not the declared one, and always when an object does not say |
| BranchComparison.PresencesRead | scripts/check_branch_protection_policy.py:196-252 | push restrictions and CODEOWNERS differ exactly when their presence does |
| BranchComparison.ChecksRead | scripts/check_branch_protection_policy.py:202-210 | the strict flag and the contexts, as a multiset, are compared with the declared ones |
| BranchComparison.ReviewsRead | scripts/check_branch_protection_policy.py:212-231 | the presence of the review block, its three flags and its count are compared with the declared ones, and nothing else |
| BranchComparison.NamesRead | scripts/check_branch_protection_policy.py:232-238 | users are compared by login, teams and apps by slug, a missing one as the empty text |
| BranchComparison.BypassReads | scripts/check_branch_protection_policy.py:232-243 | bypass allowances differ exactly when the names of a category do, or a further category is declared |
| BranchComparison.SortedListsEqualIff | scripts/check_branch_protection_policy.py:205-210 | where one side is all strings, comparing sorted lists is comparing multisets |
| BranchComparison.CleanIffAgrees | scripts/check_branch_protection_policy.py:186-252 | no setting differs if and only if all agree |
| BranchComparison.AbsentSwitchReported | scripts/check_branch_protection_policy.py:190-200 | a switch missing from the response is reported whatever is expected |
| BranchComparison.AbsentChecksReported | scripts/check_branch_protection_policy.py:202-210 | both halves of an absent status-check block are reported |
| BranchComparison.AbsentReviewsReported | scripts/check_branch_protection_policy.py:212-219 | an absent review block that is expected is reported |
| BranchComparison.AbsentReviewFieldReported | scripts/check_branch_protection_policy.py:220-231 | an absent review field is reported exactly when it is declared non-null, and flags always are |
| BranchComparison.AbsentBypassReportedIff | scripts/check_branch_protection_policy.py:232-243 | absent bypass allowances are reported exactly against a declared name or a further category |
| BranchComparison.PresenceSatisfiableIff | scripts/check_branch_protection_policy.py:114-123 | some live posture matches the declared presence exactly when it is a boolean or a number |
| LeakScan.FindSensitiveEntries | scripts/generate_rfc0002_idea_explanation_proof.py:489-501 | the sorted, duplicate-free list of exactly the forbidden keys and contained markers at any depth |
| LeakScan.SortedSetUnique | scripts/generate_rfc0002_idea_explanation_proof.py:501 | that list is determined by its entries |
| LeakScan.ValidateSourceSafe | scripts/generate_rfc0002_idea_explanation_proof.py:475-486 | accepts exactly the current-schema proofs with their contract present and nothing leaking |
| LeakScan.ForbiddenLeaks | scripts/generate_rfc0002_idea_explanation_proof.py:17-24 | each of the four forbidden keys leaks at every depth |
| LeakScan.MarkerLeaks | scripts/generate_rfc0002_idea_explanation_proof.py:17-24 | the marker leaks from every text it is part of, at every depth |
| LeakScan.OnlyTheseLeak | scripts/generate_rfc0002_idea_explanation_proof.py:17-24 | nothing else leaks |
| CallerPolicies.PolicyStore.Upgrade | alembic/versions/0040_scope_audit_record_reads.py:20-33 | each migration's statements, the two-step audit column included, leave exactly the upgraded table, or the old one on failure |
| CallerPolicyRoundTrip.UpActsOnRows | alembic/versions/0077_lotus_advise_canonical_tenant.py:24-33 | an upgrade acts on each row by itself |
| CallerPolicyRoundTrip.DownActsOnRows | alembic/versions/0074_lotus_idea_tenant_admission.py:38-47 | a downgrade of the next schema cannot fail, and acts on each row by itself |
| CallerPolicyRoundTrip.UpFrame | alembic/versions/0033_allow_lotus_advise_sg_tenant.py:19-29 | every row but the named one keeps every column it had |
| CallerPolicyRoundTrip.UndoneIff | alembic/versions/0027_allow_lotus_gateway_live_provider.py:19-42 | a downgrade undoes its upgrade exactly on the prior seeded value |
| CallerPolicyRoundTrip.RoundTripIff | alembic/versions/0074_lotus_idea_tenant_admission.py:22-47 | up between any two revisions and back never fails on the way down and is the identity if and only if the first migration naming each row finds its prior value |
| CallerPolicyTenants.TenantsGrowIff | alembic/versions/0077_lotus_advise_canonical_tenant.py:20-45 | between any two revisions the tenants of a caller only grow if and only if the first edit that applies to its row contains the tenants the row has |
| CallerPolicySeeds.AdviseTenantsGrowIff | alembic/versions/0033_allow_lotus_advise_sg_tenant.py:19-29 | for lotus-advise at 0033, whatever its description and timestamp, exactly when its tenants are among the two assigned |
| CallerPolicySeeds.IdeaTenantsGrowIff | alembic/versions/0074_lotus_idea_tenant_admission.py:22-35 | for a restricted lotus-idea at 0074, exactly when its tenants are among the two assigned |
| CallerPolicyChain.FreshUpgrade | alembic/versions/0019_add_caller_policy_tables.py:20-119 | from no table every prefix of the chain applies, and its downgrade leaves no table |
| CallerPolicyOutcome.Capabilities | alembic/versions/0056_seed_provider_operations_caller_policy.py:24-56 | after all ten revisions there are eight callers, two may use the live provider, one holds the control flags and reads every tenant's audit records, and restricted callers are confined to their tenants |
| CallerPolicyOutcome.FinalRow | alembic/versions/0077_lotus_advise_canonical_tenant.py:20-33 | each caller's row after all ten revisions, column by column |
| CallerPolicyOutcome.EditsAre | alembic/versions/0074_lotus_idea_tenant_admission.py:22-35 | what each of the four edits writes into the row it names, the two later ones into restricted rows only |
| CallerPolicyOutcome.BackEditsAre | alembic/versions/0077_lotus_advise_canonical_tenant.py:36-45 | and what their downgrades write back |
| CallerPolicySeeds.WrittenConsistent | alembic/versions/0033_allow_lotus_advise_sg_tenant.py:19-42 | each edit of the ten revisions goes back to what the revision before it wrote and keeps the tenants it admitted |
| CallerPolicySeeds.WrittenRoundTripIff | alembic/versions/0019_add_caller_policy_tables.py:41-114 | the round-trip theorem for the revisions as written |
| CallerPolicySeeds.WrittenTenantsGrowIff | alembic/versions/0019_add_caller_policy_tables.py:41-114 | the tenant theorem for the revisions as written |
| PromptTables.After0016 | alembic/versions/0016_add_prompt_rollout_state_tables.py:80-131 | one rollout per task, its active version stored, and no other version stored |
| PromptTables.After0017 | alembic/versions/0017_seed_prompt_rollout_candidates.py:19-68 | the seeding applies exactly when no definition is at a seeded version, and keeps both promises |
| PromptTables.Undone0017Iff | alembic/versions/0017_seed_prompt_rollout_candidates.py:19-92 | the downgrade undoes the upgrade exactly when every rollout is as 0016 left it |
| PromptTables.Restored0016 | alembic/versions/0017_seed_prompt_rollout_candidates.py:71-92 | downgrading 0017 from its own result restores the 0016 state |
| PromptTables.DowngradeKeepsReferencesIff | alembic/versions/0017_seed_prompt_rollout_candidates.py:71-92 | from any later state active references survive if and only if no seeded candidate is active |
| PromptTables.SeededDowngradeKeepsReferencesIff | alembic/versions/0017_seed_prompt_rollout_candidates.py:71-92 | the same for the two candidates seeded |
| PromptTables.CandidatesAre | alembic/versions/0017_seed_prompt_rollout_candidates.py:19-50 | the two seeded candidates: the second version of two tasks |
| PromptTables.PromptStore.Upgrade0016 | alembic/versions/0016_add_prompt_rollout_state_tables.py:80-131 | the statements leave one read-only rollout per defined task, active at the defined version, which alone is stored with the defined prompt |
| PromptTables.PromptStore.Upgrade0017 | alembic/versions/0017_seed_prompt_rollout_candidates.py:19-68 | applied exactly when no candidate key is taken; then every candidate is stored, every other version, active version and reference survives, and every rollout is open to control actions |
| PromptTables.PromptStore.Downgrade0017 | alembic/versions/0017_seed_prompt_rollout_candidates.py:71-92 | the candidates go, other versions and all active versions stay, every rollout is read-only again, and references survive exactly when no candidate is active |
| ModelLifecycle.PhasesNeverDecrease | src/app/contracts/model_catalogue.py:339-386 | on every run the lifecycle phases never decrease |
| ModelLifecycle.EnteredByApproval | src/app/contracts/model_catalogue.py:339-386 | a run from below enters the serving phase once, by the step from EVALUATING to APPROVED |
| ModelLifecycle.NeverServesWithoutPromotion | src/app/contracts/model_catalogue.py:388-402 | a run of non-promotion targets never enters the serving phase from below |
| ModelLifecycle.LeavesServiceInThree | src/app/contracts/model_catalogue.py:388-402 | and from inside it takes at most three steps |
| ModelLifecycle.RetiredReachable | src/app/contracts/model_catalogue.py:339-386 | RETIRED is reachable from every state within three steps |
| ModelLifecycle.EnteredFrom | src/app/contracts/model_catalogue.py:339-386 | from which states each state is entered |
| ModelLifecycle.ServingConnected | src/app/contracts/model_catalogue.py:339-386 | the serving states reach one another without deprecation |
| ModelLifecycle.PromotionTargets | src/app/contracts/model_catalogue.py:388-402 | the promotion targets are the serving states but the degraded one |
| QueueStates.EveryRun | src/app/contracts/workflow_pack_queue_policies.py:40-79 | every run from NOT_ADMITTED has at most four steps, repeats no state, completes only through every stage and is rejected only at once |
| QueueStates.AfterStage | src/app/contracts/workflow_pack_queue_policies.py:40-79 | what can follow each stage, so that every stage can go on to completion |
| QueueStates.CompletionReachable | src/app/contracts/workflow_pack_queue_policies.py:40-79 | a run that completes |
| QueueStates.TerminalStates | src/app/contracts/workflow_pack_queue_policies.py:30-38 | the terminal states are the five that are no stage |
| QueueStates.TerminalIffNoSuccessor | src/app/contracts/workflow_pack_queue_policies.py:30-79 | the declared terminal states are exactly those without a successor |

## Left out

- SHA-256 itself: every theorem holds for any digest function, with a stated no-collision hypothesis where one is needed.
- Binary floating point: budget amounts are whole units of 1e-8 USD, so the rounding of stored sums is not modelled.
- What domain callbacks do outside the governed-action store: a callback returns, or its call ends; the callbacks that cannot return on another type's payload are modelled so.
- Caller capabilities: which caller may use which route at all is not modelled, so every verified credential may call every route.
- Human-readable text: summaries, issue wording, detail strings, and which defect a raising validator names first.
- ISO time parsing, the clock, `gh` calls, file existence and CODEOWNERS lookup: all are inputs.
- BranchProtection.ValidatePolicy: states when nothing is reported, not which of several issues or exceptions comes first.
- BranchComparison.Compare: Python's order on lists that are not all strings is a parameter that permutes or raises.
- BranchComparison.SortedListsEqualIff: equality of two nested containers compares key order, which no complete document can make matter.
- MainGateAudit.StateForCommit: needs as many listing answers as it may read, in place of the network.
- GovernedActionApproval.ThreeCredentials: assumes that no approval of a pending action in the run rebuilds a payload of another type with the recorded digest; through such a collision another route could claim a release without turning the pinned credential away.
- GovernedActionRoutes.RanOwnRun: the same assumption, as for every result about routes.
- GovernedActionReleases.ReleaseExecutableIff: the same assumption, and continuations repeat no claim instant, since with a repeated one the pinned claim can come back; a new call through the erasure route can always execute the release, which is `ErasureExecutesAny`.
- The approval event: the reads an approval call makes before its first write are one event, because what they read is written once and an id is unknown to callers before its action is stored.
- CallerPolicies.PolicyStore.Upgrade: the JSON columns are the lists they denote, and the `audit_access_events` table of revision 0040 is not part of the model.
- CallerPolicySeeds.WrittenConsistent: the descriptions are parameters, since no result depends on their text.
- PromptTables.PromptStore.Upgrade0017: the texts of the two seeded prompts are parameters.
- Provider gateway, routers, worker loops, erasure engine, response shapes and schema-only migrations: they add field shapes or plumbing.
- Quota counters, degradation state and serving-policy versions: each would add only easy members.
