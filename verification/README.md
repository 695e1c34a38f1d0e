# MyFactory: models of its durable protocols in Dafny

MyFactory takes bounded software work, pays a model provider for it under a hard ceiling, dispatches one writer,
verifies and reviews the result, repairs it under an owner's limits, and publishes a draft pull request. This project
models the parts of it where a lost reply, a crash or a second process could cost money or repeat an effect, and proves
that they cannot do so over every history of calls.

`dafny verify dfyconfig.toml` checks the whole project.

- **Work spend ledger** (`SpendPolicy`, `SpendTransactions`, `SpendLedger`, `SpendSafety`, `SpendTheorems`). Budgets,
  operations, generations, phases, authority and cancellation. Each write transaction is a function from database to
  database, and a method of a class that updates its tables; the method is proved to be the function. A history is any
  sequence of transactions by any number of processes, with clock readings in any order.
- **Paid boundary** (`SpendGateway`, `GatewayHandler`). Any number of request handlers interleave, fail at every await,
  die, and see ledger calls that commit and still throw. The handler's own code is proved to be a run of that protocol.
- **Dispatch control** (`DispatchControl`, `DispatchService`). An append-only log raced by dispatch, stop and read calls,
  each split into its transactions, beside the ledger.
- **Review and repair** (`RepairTransactions`, `RepairTheorems`, `ReviewTheorems`, `RepairService`, `RepairSpend`,
  `RepairGateway`, `RepairWorks`, `RepairSharing`). Ordered verification evidence, final reviews, one chain of approvals,
  and its composition with the ledger and with the paid boundary: what a whole chain can spend, how many requests it can
  send, and which of its rounds can share a Work.
- **Capabilities** (`Graphs`, `DependencyRecursion`, `CapabilityRegistry`, `CapabilityResolver`, `CapabilityAdmission`).
  The depth-first cycle check, the memoised resolution, and the required closure collected at admission.
- **Canonical JSON** (`CanonicalJson`, `CanonicalRoundTrip`, `CanonicalTheorems`). The printer over UTF-16 code units and a
  parser for the JSON grammar (RFC 8259; strings are section 7, key order is that of section 3.2.3 of RFC 8785).
- **Publication** (`GitHubRemote`, `PublicationProtocol`, `PublicationFinality`, `GitHubPublisher`,
  `PublicationService`). All draft publications of one WorkOrder: several requests share one branch of a remote that
  anyone may change at any time, adapter calls interleave read by read, commands land late or never, and starting
  supervisors sweep the durable records. The adapter's and the service's own code is proved to be a run of that protocol.
- **Smaller refinements** (`EventReader`, `EventChunking`, `EnvironmentRouter`). The JSONL reader against splitting the
  whole stream, and the order-independent choice of an environment.

Some promises hold only under a condition, or for another reason than one might think. Each is a result here:

- A terminal event fences its own writer only. `DispatchControls.TerminalCanLeaveAnotherWriter` reaches a log with a
  NOT_DISPATCHED terminal while a losing dispatcher still holds live ledger authority; `RequestClosedExactly` says when
  the fence closes the whole request.
- A failed or succeeded publication record is not final when a supervisor starts while a call is in flight, because its
  sweep writes what it read earlier. `PublicationFinality.OverlapReopensFailed` and `OverlapReopensSucceeded` are the
  histories; `FinalExactly` is the condition, and `FinalWithOneSupervisor` the discipline under which it always holds.
- A failed publication record says that this request issued no command, not that the remote is as it was, since another
  request or a person may have changed it; and a succeeded one that the exact draft was seen, not that it is still there.
  `PublicationProtocol.AtMostOneAttempt` says so for every history; `FailedIsUntouched` and `SucceededIsPublished` say
  what holds of the remote itself while nobody else touches it.
- The error the JSONL reader reports can depend on how the stream was cut, although the first error it meets cannot: a
  later line's length overwrites it. `EventChunking.ReportedExactly` is the condition. Beyond the output cap even the
  delivered events can depend on the cut: `CapExactly` says when, and `BeyondCap` which outcomes there are.
- A repair checks its Work identity against its immediate parent only, so two rounds of one chain may share a Work when
  a round lies between them, and then only: `RepairSharing.RoundsShareWork` is such a history, of three rounds, and
  `RepairWorks.SharingRoundsAreApart` says that there is no other kind. The chain's total still holds
  (`RepairSpend.ChainExposure`), since a shared Work shares one ceiling.

## Model

| member | source | states |
|---|---|---|
| SpendLedgers.SpendLedger.CreateBudget | packages/storage/src/spend.ts:27-67 | creates a budget, or moves it to a new generation without touching ceiling or plan; every refusal leaves both tables alone |
| SpendLedgers.SpendLedger.BindAuthority | packages/storage/src/spend.ts:68-77 | the exact writer becomes active, or nothing changes |
| SpendLedgers.SpendLedger.AssertCompletionEligible | packages/storage/src/spend.ts:78-83 | refuses exactly when entering completion would be refused |
| SpendLedgers.SpendLedger.BeginCompletion | packages/storage/src/spend.ts:84-89 | switches the phase once the same attempt has settled productive work and nothing is outstanding |
| SpendLedgers.SpendLedger.AssertCompleted | packages/storage/src/spend.ts:90-98 | passes exactly when this attempt settled a completion and nothing is unresolved |
| SpendLedgers.SpendLedger.FenceAuthority | packages/storage/src/spend.ts:99-108 | fences the matching writer and reports whether it did |
| SpendLedgers.SpendLedger.CancelBound | packages/storage/src/spend.ts:109-116 | cancels and fences only for the current binding |
| SpendLedgers.SpendLedger.Cancel | packages/storage/src/spend.ts:117-123 | cancels and fences the Work |
| SpendLedgers.SpendLedger.Reserve | packages/storage/src/spend.ts:128-149 | appends one fresh row exactly when binding, price, slots and money admit it |
| SpendLedgers.SpendLedger.MarkDispatched | packages/storage/src/spend.ts:150-163 | a fresh reservation crosses the paid boundary only under live authority and an unchanged price |
| SpendLedgers.SpendLedger.Settle | packages/storage/src/spend.ts:164-177 | records a cost within the reservation under a receipt used by no other row |
| SpendLedgers.SpendLedger.ReleaseUndispatched | packages/storage/src/spend.ts:179-186 | releases a row only while it is still reserved |
| SpendLedgers.SpendLedger.MarkUnknown | packages/storage/src/spend.ts:187-195 | retains the exposure and fences the Work; resolved rows stay as they are |
| SpendLedgers.SpendLedger.RecoverUnknown | packages/storage/src/spend.ts:196-201 | turns every open row unknown and fences exactly the Works that had one; counts the rows changed |
| SpendLedgers.SpendLedger.Read | packages/storage/src/spend.ts:202-224 | the summary of the Work's own rows, or nothing for an unknown Work |
| SpendLedgers.SpendLedger.FindOperations | packages/storage/src/spend.ts:23-26 | the loop selects the rows of one Work and no others, in order |
| SpendLedgers.SpendLedger.FindOperation | packages/storage/src/spend.ts:124-127 | the position of the row with this key, or the table's length |
| SpendSafety.ApplyInv | packages/storage/src/spend.ts:27-201 | every transaction, committed or rolled back, keeps the ledger invariant |
| SpendSafety.ApplyIsolated | packages/storage/src/spend.ts:27-195 | a transaction leaves the budget and the rows of every Work but its own as they were |
| SpendSafety.RunInv | packages/storage/src/spend.ts:27-201 | the invariant holds after every history from the empty database |
| SpendSafety.WorkReserve | packages/storage/src/spend-policy.ts:70-97 | an admitted reservation keeps slots, the single exposure and the one completion attempt |
| SpendSafety.RecoverUnknownInv | packages/storage/src/spend.ts:196-201 | recovery keeps the invariant of every Work at once |
| SpendTheorems.Conservation | packages/storage/src/spend-policy.ts:142-170 | in every reachable state exposure stays inside ceiling, phase caps and slots, and the summary's figures are the exact remainders |
| SpendTheorems.PhaseHeadroom | packages/storage/src/spend-policy.ts:117-124 | the unused slots of a phase, at full price, fit beside what it already exposes |
| SpendTheorems.PlanAlwaysAffordable | packages/storage/src/spend-policy.ts:81-97 | in a reachable state a reservation is refused only for price, an unresolved row or a used-up phase: a validated plan strands no operation |
| SpendTheorems.SingleExactExposure | packages/storage/src/spend-policy.ts:70-85 | at most one unresolved row a Work, of the current generation, phase and writer; an unknown one is fenced |
| SpendTheorems.BudgetHistory | packages/storage/src/spend.ts:31-57 | over any later history ceiling and plan are fixed, generations only rise, and writer and fence stick within one |
| SpendTheorems.CancellationIsPermanent | packages/storage/src/spend.ts:109-123 | after cancellation no later reservation or dispatch of the Work succeeds, in any generation |
| SpendTheorems.UnknownNeverReopens | packages/storage/src/spend.ts:187-195 | a generation with an unknown row admits no reservation, no dispatch and no binding again, even after the row is settled |
| SpendTheorems.RowHistory | packages/storage/src/spend.ts:150-201 | no row is lost or rewritten: identity, price and phase are fixed and its state only advances |
| SpendTheorems.DispatchOnlyOnce | packages/storage/src/spend.ts:150-186 | an operation is dispatched at most once and never released afterwards |
| SpendTheorems.ReceiptsAreUnique | packages/storage/src/spend.ts:164-177 | one provider receipt settles at most one operation, over all Works and histories |
| SpendTheorems.CompletedIsAccounted | packages/storage/src/spend.ts:90-98 | when the completion check passes, nothing is retained, all exposure is settled, and every completion operation is this attempt's |
| SpendTheorems.CompletionEntry | packages/storage/src/spend-policy.ts:98-105 | completion is entered only behind a settled productive operation of the same attempt, with nothing outstanding and no completion ever started |
| SpendTheorems.CompletionFromOneAttempt | packages/storage/src/spend.ts:45-56 | all completion operations of a Work, over all generations, come from one attempt |
| SpendTheorems.DeadForever | packages/storage/src/spend.ts:99-108 | a binding closed to spending stays closed through every later history |
| SpendTheorems.FenceKillsExactly | packages/storage/src/spend.ts:99-108 | a fence closes the binding it names exactly when the budget has reached that binding's generation |
| SpendGateways.CostWithinReservation | apps/supervisor/src/spend-gateway.ts:195-196 | no usage the gateway accepts costs more than was reserved |
| SpendGateways.ReservationIsPositiveSafe | apps/supervisor/src/spend-gateway.ts:45-55 | a valid price card reserves a positive safe amount |
| SpendGateways.ExecuteKeeps | apps/supervisor/src/spend-gateway.ts:217-274 | every interleaving of handlers, faults, deaths and foreign ledger calls keeps what each handler knows of its row |
| SpendGateways.SentIsNeverReleased | apps/supervisor/src/spend-gateway.ts:259-266 | a request that reached the provider stays dispatched, unknown or settled in every later state, and is sent once |
| SpendGateways.ReleasedWasNeverSent | apps/supervisor/src/spend-gateway.ts:261-264 | money is released only for requests that were never sent |
| SpendGateways.RequestsWithinPlan | apps/supervisor/src/spend-gateway.ts:224-233 | at most maxPaidOperations requests reach the provider for a Work |
| SpendGateways.ReplyImpliesSettled | apps/supervisor/src/spend-gateway.ts:246-258 | a successful reply implies a row settled at the rounded-up cost of the reported usage, within its reservation |
| GatewayHandlers.SpendGateway.Admit | apps/supervisor/src/spend-gateway.ts:197-221 | admits exactly below the productive boundary, with the last productive operation kept for real progress; closing the phase needs eligibility for completion |
| GatewayHandlers.SpendGateway.Pay | apps/supervisor/src/spend-gateway.ts:222-266 | the paid part is a run of the protocol, and a success ends in a settled, replied operation |
| GatewayHandlers.SpendGateway.Upstream | apps/supervisor/src/spend-gateway.ts:228-258 | sending, charging and replying is a run of the protocol whatever the provider answers |
| GatewayHandlers.SpendGateway.Unwind | apps/supervisor/src/spend-gateway.ts:259-266 | the error path releases or retains, and always ends the handler |
| GatewayHandlers.SpendGateway.Handle | apps/supervisor/src/spend-gateway.ts:159-274 | one request is a run of the protocol; a concurrent one is refused; the active flag is always returned |
| DispatchControls.LogShape | apps/supervisor/src/dispatch-control.ts:174-228 | every reachable log has one writer, at most one claim, stop and terminal, and no claim after a stop or terminal |
| DispatchControls.LogOnlyGrows | apps/supervisor/src/dispatch-control.ts:174-228 | no event is ever removed or rewritten |
| DispatchControls.NotDispatchedIsFinal | apps/supervisor/src/dispatch-control.ts:213-223 | once NOT_DISPATCHED is recorded, no extension of the run ever claims |
| DispatchControls.TerminalFencesItsWriter | apps/supervisor/src/dispatch-control.ts:206-228 | after a terminal event no reserve, dispatch or binding under its writer succeeds again |
| DispatchControls.OtherWriterChangesNothing | apps/supervisor/src/dispatch-control.ts:113-124 | a dispatch or stop by any writer but the bound one leaves the log alone |
| DispatchControls.ExecuteKeeps | apps/supervisor/src/dispatch-control.ts:125-228 | every interleaving of calls, deaths and ledger transactions keeps log shape and fences |
| DispatchControls.RequestClosedExactly | apps/supervisor/src/dispatch-control.ts:214-215 | the fence before a terminal closes the whole request exactly when no other writer holds the ledger |
| DispatchControls.TerminalCanLeaveAnotherWriter | apps/supervisor/src/dispatch-control.ts:140-228 | a reachable race in which it does not |
| DispatchServices.FactoryDispatchControl.Claim | apps/supervisor/src/dispatch-control.ts:174-181 | the claim transaction appends writer and claim, or leaves the log alone |
| DispatchServices.FactoryDispatchControl.Dispatch | apps/supervisor/src/dispatch-control.ts:125-185 | one dispatch alone is its three transactions in a row, and reports whether it claimed |
| DispatchServices.FactoryDispatchControl.Stop | apps/supervisor/src/dispatch-control.ts:186-197 | the stop is logged once and the bound budget cancelled |
| DispatchServices.FactoryDispatchControl.Read | apps/supervisor/src/dispatch-control.ts:198-236 | reports quiescence exactly when a terminal event is in the log, with that event's state |
| DispatchServices.AttemptGateways.NextProductive | apps/supervisor/src/dispatch-control.ts:152-164 | a second productive gateway is issued once, behind the one settled productive operation and nothing else |
| DispatchServices.AttemptGateways.BeginCompletion | apps/supervisor/src/dispatch-control.ts:165-171 | a completion gateway exists only when the ledger entered completion for this attempt |
| DispatchServices.OneSlotSettled | apps/supervisor/src/dispatch-control.ts:153-155 | with one productive slot used and completion eligible, that slot is this attempt's settled operation and the Work has no other row |
| RepairTheorems.EvidenceGate | apps/supervisor/src/review-repair.ts:59-86 | a candidate's observations are a prefix of custody, protected, ci with all but the last a PASS, and the publication gate opens exactly when they reach protected and all pass |
| RepairTheorems.RunEvidence | apps/supervisor/src/review-repair.ts:69-86 | the order of evidence holds for every candidate in every history |
| ReviewTheorems.ReviewsAreFinal | apps/supervisor/src/review-repair.ts:99-117 | in every history a WorkOrder's reviews use each identity once, all but the last pass, and new CI evidence lies between any two |
| RepairTheorems.ApprovalMade | apps/supervisor/src/review-repair.ts:163-178 | an approval that changes anything extends its root's chain at the tip under the chain's policy |
| RepairTheorems.OneUnforkedChain | apps/supervisor/src/review-repair.ts:121-179 | every approval history is one unforked chain with one policy and deadline, in the root's scope, within rounds, operations and budget, each round with public findings inside its paths |
| RepairTheorems.RunKeeps | apps/supervisor/src/review-repair.ts:143-195 | chains, links and proposals stay consistent in every history |
| RepairTheorems.ApprovalReplays | apps/supervisor/src/review-repair.ts:166-168 | approving an approved proposal again returns the same child and changes nothing |
| RepairServices.ReviewRepair.Observe | apps/supervisor/src/review-repair.ts:69-86 | evidence is recorded once per stage, in order, and never inherited from a repaired ancestor |
| RepairServices.ReviewRepair.RecordReview | apps/supervisor/src/review-repair.ts:87-117 | a review is immutable, needs complete evidence, and is replaced only after new CI evidence |
| RepairServices.ReviewRepair.Propose | apps/supervisor/src/review-repair.ts:143-161 | a proposal is stored once for its terms and only for the tip of the chain |
| RepairServices.ReviewRepair.Approve | apps/supervisor/src/review-repair.ts:163-179 | one transaction creates child, link and approval, or nothing, undoing a nested proposal |
| RepairServices.ReviewRepair.ClaimRepairPreparation | apps/supervisor/src/review-repair.ts:183-195 | the approved repair is queued for one request inside its round's limits |
| RepairSpend.ChainExposure | apps/supervisor/src/review-repair.ts:143-195 | over every history of the lifecycle and the ledger, all rounds of a chain together expose at most the policy's budget and operations |
| RepairSpend.OneRound | apps/supervisor/src/dispatch-control.ts:92-109 | the operations of one repair WorkOrder expose at most its round |
| RepairSpend.ExecuteKeeps | apps/supervisor/src/dispatch-control.ts:92-109 | every budget and row belongs to the recorded preparation of its WorkOrder |
| RepairSharing.RoundsShareWork | apps/supervisor/src/review-repair.ts:187-191 | a history in which rounds 1 and 3 of one chain are prepared with the same Work, funded first for the one and then for the other |
| RepairGateway.ChainRequests | apps/supervisor/src/spend-gateway.ts:217-274 | over every history of the lifecycle, the handlers and the ledger, the requests sent to the provider for a chain's rounds are at most its policy's operations, and for one round at most the round's |
| RepairGateway.ExecuteKeeps | apps/supervisor/src/dispatch-control.ts:92-109 | in every such history the handlers' knowledge of their rows and the match of budgets with recorded preparations hold together |
| RepairWorks.SharingRoundsAreApart | apps/supervisor/src/review-repair.ts:183-195 | in every history two rounds of one chain that are prepared for the same Work have a round between them |
| RepairWorks.RequestsAreUnique | apps/supervisor/src/dispatch-control.ts:92-99 | in every history each request of a client is recorded for at most one WorkOrder |
| RepairWorks.WorkIdentityIsFree | apps/supervisor/src/review-repair.ts:189-191 | a repair that is admitted would be admitted under every other Work identity but its parent's |
| RepairSpend.PreparedOnce | apps/supervisor/src/review-repair.ts:187-187 | a recorded preparation never changes and every later claim is refused |
| CapabilityRegistries.CreateRegistry | packages/capability-control/src/registry.ts:6-42 | accepts exactly the well-formed registries whose references all exist and whose graph has no cycle |
| CapabilityRegistries.CheckDescriptors | packages/capability-control/src/registry.ts:7-21 | accepts exactly distinct, complete descriptors |
| CapabilityRegistries.CycleCheck.Visit | packages/capability-control/src/registry.ts:25-34 | a failed visit proves a missing reference or a cycle; a successful one finishes the node |
| CapabilityRegistries.CycleCheck.VisitEach | packages/capability-control/src/registry.ts:30-31 | all listed nodes are finished, or the graph is broken |
| CapabilityRegistries.AllFinished | packages/capability-control/src/registry.ts:35-35 | when every node is done the graph is closed and acyclic |
| Graphs.StepShrinks | packages/capability-control/src/resolver.ts:100-102 | on an accepted registry each dependency has a strictly smaller closure, so the recursion ends |
| DependencyRecursion.Resolver.Resolve | packages/capability-control/src/resolver.ts:78-134 | the cached recursion returns what the plain recursion returns |
| DependencyRecursion.FoldClosure | packages/capability-control/src/resolver.ts:102-105 | a property that holds one dependency level at a time holds exactly on the whole closure |
| DependencyRecursion.FoldElsewhere | packages/capability-control/src/resolver.ts:78-134 | a change at one node leaves every value that does not depend on it |
| CapabilityResolvers.ResolveCapabilities | packages/capability-control/src/resolver.ts:69-136 | one resolution for each descriptor, in order, equal to the plain recursion |
| CapabilityResolvers.CombineMeans | packages/capability-control/src/resolver.ts:81-131 | one capability is ready or eligible exactly when it is so alone and each dependency is |
| CapabilityResolvers.EligibleClosure | packages/capability-control/src/resolver.ts:96-119 | eligible exactly when the whole required closure is ready and granted on its own |
| CapabilityResolvers.ReadyClosure | packages/capability-control/src/resolver.ts:96-108 | ready exactly when the whole required closure is ready on its own |
| CapabilityResolvers.EligibleIsHereditary | packages/capability-control/src/resolver.ts:100-119 | everything an eligible capability transitively needs is eligible |
| CapabilityResolvers.GrantCoversClosure | packages/capability-control/src/resolver.ts:46-66 | everything an eligible capability transitively needs is granted with its permissions, and a delegated grant stays inside its parent's grants, expiry and uncommitted money |
| CapabilityResolvers.ReasonsExplain | packages/capability-control/src/resolver.ts:103-131 | eligible exactly when no reason is listed, and only then labelled active |
| CapabilityResolvers.DisableExactly | packages/capability-control/src/resolver.ts:81-119 | disabling one capability removes exactly those whose closure holds it and changes no other resolution |
| CapabilityAdmission.Requirements.Include | packages/capability-enforcement/src/postgres.ts:72-74 | adds only what is needed, together with everything that needs in turn |
| CapabilityAdmission.Collect | packages/capability-enforcement/src/postgres.ts:72-76 | the collected set is the two closures, no more and no less |
| CapabilityAdmission.CheckRequired | packages/capability-enforcement/src/postgres.ts:77-82 | passes exactly when no required item has an objection, and otherwise gives the first |
| CapabilityAdmission.AssertCapabilityAdmission | packages/capability-enforcement/src/postgres.ts:25-86 | admits exactly when every capability in both closures is ready on its own, uncontrolled, granted and within budget |
| CapabilityAdmission.DisableDeniesExactly | packages/capability-enforcement/src/postgres.ts:72-82 | the owner's disabling denies exactly the admissions that require the capability |
| CanonicalRoundTrip.ParseBack | packages/hosted-routing/src/result.ts:8-16 | parsing canonical text gives the value back with its keys in order |
| CanonicalRoundTrip.EscapeBack | packages/hosted-routing/src/result.ts:9-9 | reading an escaped string gives it back, lone surrogates included |
| CanonicalRoundTrip.SortIgnoresOrder | packages/hosted-routing/src/result.ts:13-13 | sorting by key depends on which entries there are, not on their order |
| CanonicalTheorems.RoundTrip | packages/hosted-routing/src/result.ts:8-16 | parsing canonical text returns the same value, whose canonical text it is |
| CanonicalTheorems.CanonicalExactly | packages/hosted-routing/src/result.ts:8-18 | two values have the same canonical text exactly when they agree up to key order |
| CanonicalTheorems.OneAcceptedEncoding | packages/hosted-routing/src/result.ts:233-234 | each value has exactly one accepted encoding |
| CanonicalTheorems.CompareExactly | packages/hosted-routing/src/result.ts:250-256 | between verified results a duplicate is a repeated encoding and a conflict is two manifests of one operation |
| CanonicalTheorems.CanonicalIsPaired | packages/hosted-routing/src/result.ts:222-234 | canonical text holds no lone surrogate, so UTF-8 preserves it |
| CanonicalTheorems.ParsedIsValid | packages/hosted-routing/src/result.ts:233-233 | whatever parses has no repeated key and no unsafe number |
| GitHubPublisher.GitHub.Inspect | apps/supervisor/src/github.ts:233-282 | its reads are reads of the protocol over a remote that may change between them; over one that does not, it concludes what the remote's state implies, or that it is unavailable |
| GitHubPublisher.GitHub.PublishDraft | apps/supervisor/src/github.ts:300-343 | the call is a run of the protocol: reconciling and certain refusals issue no command, and none is issued twice; on a remote nobody else touches, a result means the exact draft is there |
| PublicationProtocol.AtMostOneAttempt | apps/supervisor/src/actions.ts:509-714 | for every request, over all callers, crashes, restarts, other requests and outside changes: at most one call changes the remote, failed means it issued no command, succeeded that the exact draft was seen |
| PublicationProtocol.RunKeeps | apps/supervisor/src/actions.ts:509-714 | in every history each request's record agrees with where its calls stand and what they issued |
| PublicationProtocol.FactoryOnlyAdds | apps/supervisor/src/github.ts:312-335 | a command of any request adds the branch or one draft and moves or removes nothing |
| PublicationProtocol.WorkOrderConserves | apps/supervisor/src/github.ts:110-115 | over all requests of a WorkOrder, branches and open drafts are conserved: what was made is still there or was removed by someone else |
| PublicationProtocol.OneDraftPerWorkOrder | apps/supervisor/src/github.ts:312-335 | over all requests of a WorkOrder together, one branch and one draft are made, and one more only after someone else removed or closed the last; at most one is open |
| PublicationProtocol.UndisturbedOnce | apps/supervisor/src/github.ts:312-335 | while nobody else touches the remote, all requests together make the branch at most once and open at most one draft |
| PublicationProtocol.SuccessIsReturned | apps/supervisor/src/actions.ts:519-536 | a record becomes succeeded only by recording a call that returned its draft |
| PublicationProtocol.SucceededIsPublished | apps/supervisor/src/actions.ts:519-536 | while nobody else touches the remote, a succeeded record means that the exact draft is there |
| PublicationProtocol.FailedIsUntouched | apps/supervisor/src/actions.ts:537-558 | while nobody else touches the remote, it is untouched as long as every tried request has failed |
| PublicationFinality.FinalExactly | apps/supervisor/src/server.ts:236-248 | a final record can never change again exactly when no sweep holds an old reading and no reconciliation of a failed one is in flight |
| PublicationFinality.FinalWithOneSupervisor | apps/supervisor/src/server.ts:236-248 | with one supervisor at a time succeeded and failed are final |
| PublicationFinality.OverlapReopensFailed | apps/supervisor/src/server.ts:236-248 | in this history of one request a supervisor that starts during a call reopens a failed record, the remote untouched |
| PublicationFinality.OverlapReopensSucceeded | apps/supervisor/src/server.ts:236-248 | in this one it turns a succeeded record, its draft published, back to unknown |
| PublicationServices.DraftPublication.Claim | packages/storage/src/index.ts:341-343 | only the first admitted caller claims the request |
| PublicationServices.DraftPublication.RecordOutcome | apps/supervisor/src/actions.ts:517-551 | the outcome is recorded as the protocol's step, and a success never overwritten |
| PublicationServices.DraftPublication.Execute | apps/supervisor/src/actions.ts:509-558 | call and record are a run of the protocol, and a certain refusal issued no command |
| PublicationServices.DraftPublication.PublishDraft | apps/supervisor/src/actions.ts:625-714 | the whole action is a run of the protocol: it calls only for an unclaimed or unknown record, reconciling issues no command, and success means the exact draft was seen |
| PublicationServices.DraftPublication.SweepSees | apps/supervisor/src/server.ts:236-248 | the sweep's reading of a record is the protocol's first step of it |
| PublicationServices.DraftPublication.SweepMarks | apps/supervisor/src/server.ts:236-248 | its later write, which does not look again, is the second |
| EventReaders.EventReader.ProcessLine | packages/agents/src/index.ts:277-321 | one line is delivered or becomes the error, and after an error nothing happens |
| EventReaders.EventReader.ProcessLines | packages/agents/src/index.ts:336-343 | the scan processes exactly the lines that newlines end and keeps the rest |
| EventReaders.EventReader.CaptureEvents | packages/agents/src/index.ts:323-350 | the loops over chunks compute the specified reader |
| EventReaders.SplitAppend | packages/agents/src/index.ts:335-343 | cutting a stream anywhere does not change its lines |
| EventChunking.ChunkingIsIrrelevant | packages/agents/src/index.ts:323-350 | within the cap every cut delivers the same events and meets the same first error: those of the whole stream split at newlines |
| EventChunking.ReportedExactly | packages/agents/src/index.ts:344-347 | the reported error is the first one for every cut exactly when that is a line's length or no line behind an error is too long |
| EventChunking.OverlongChunks | packages/agents/src/index.ts:344-347 | otherwise some cut makes the reader report the later line |
| EventChunking.BeyondCap | packages/agents/src/index.ts:328-334 | a stream beyond the cap can end exactly as if reading had stopped after some prefix within it |
| EventChunking.CapExactly | packages/agents/src/index.ts:328-334 | beyond the cap every cut delivers the same events exactly when no first line ends before the cap and delivers; then none are delivered |
| EventChunking.CapDependsOnChunks | packages/agents/src/index.ts:328-334 | when one does, a cut behind it delivers its event and another cut delivers nothing |
| EnvironmentRouter.RouteMeans | apps/supervisor/src/environment-router.ts:91-127 | duplicates are denied, otherwise the eligible environment with least identifier is selected, and it waits exactly when there is none |
| EnvironmentRouter.RouteIgnoresOrder | apps/supervisor/src/environment-router.ts:91-127 | the decision is unchanged under permutations of environments, qualifications and required capabilities |

## Left out

- SQLite, Postgres, HTTP, Fetch, git and the file system: transactions are atomic steps, other effects are parameters of a call. Ledger timestamps other than deadlines are not kept, so "ORDER BY created_at" is insertion order.
- Money and token rates are integers and rounding up is exact; floating-point division before rounding is not modelled. A spend in dollars is a real number of micro-USD.
- Numbers that are not integers, where the ledger refuses them like unsafe integers; dates are their parsed instants.
- Hashes and signatures: digests are injective (a digest is what it covers) and verification of a signature is not modelled.
- White space trimmed by the source is space, tab, carriage return and line feed here; other Unicode spaces are not.
- Lookups by property name assume own properties, so identifiers named like members of Object.prototype are not covered.
- Foreign keys of the ledger's tables: they only refuse inserts and are not modelled.
- Gateway request validation (route, credential, model, hosted tools, body and response size limits) is one condition on the request, as is a provider answer that does not qualify.
- GatewayHandlers.SpendGateway.Admit: the identity refresh and the host's progress check are parameters, each asked once.
- GatewayHandlers.SpendGateway.Handle: the decision codes sent to `onDecision` and the HTTP status are not modelled, and the method runs alone, so its concurrency flag is only read at entry; concurrent handlers are in the protocol.
- DispatchServices.FactoryDispatchControl.Read: the container and process probes are parameters, the run and WorkOrder rows saved beside a terminal event are not kept, and the summary returned is only its state.
- SpendLedgers.SpendLedger.Read: presentation fields copied from the budget row are left out of the summary.
- Preparation of Work before its transaction: parsing of the work fields, repository access, capability admission and the private-alpha limits; the request's own formats and bounds are modelled, and that a client's request is taken up once.
- ReviewRepair.view: only the tip, the sums and the conditions that block a preparation are modelled, not the display status.
- RepairServices.ReviewRepair.RecordReview: the state of the candidate's external publication, and its run's own records (see `Observe`), are parameters; of a finding only its identity, path and visibility are kept, and the two lists of trusted observers are not.
- RepairServices.ReviewRepair.Propose: whether the candidate's run still retains it is a parameter.
- RepairServices.ReviewRepair.ClaimRepairPreparation: the comparison of the remaining work fields is one condition.
- RepairServices.ReviewRepair.Observe: what the candidate's run itself recorded (its state, input commit, checks and committed tree) is one parameter; that a repaired candidate differs from its parent is modelled.
- CapabilityAdmission.AssertCapabilityAdmission: the database checks before the snapshot is built (role, lock, recovery witness, evidence and agent rows) and the second check after admission.
- CapabilityResolvers.ResolveCapabilities: reasons are a set, not the sorted list of their texts.
- CanonicalJson: fractions, exponents, unsafe integers and -0 do not parse; deep recursion is not limited.
- validateManifest and verifyArtifactBytes: the field-by-field validation of a result's manifest and of its files.
- publication.request and publication.approve: their record checks are the one condition under which a claim is admitted.
- GitHubPublisher.GitHub.PublishDraft: inside the method a command takes effect at once or never, though a late effect is among what `Elsewhere` may do to the remote; the protocol has it late as well. The check of the local workspace is a parameter.
- GitHubPublisher.GitHub.Inspect: a read that fails, is refused or comes back malformed is one unanswered read.
- PublicationServices.DraftPublication.PublishDraft: the method runs alone on its record; other callers and supervisors on the same record are in the protocol, and `GitHubPublisher.GitHub.Elsewhere` stands for anyone else on the remote. Requests here have one destination and one base branch; those with another destination concern another remote.
- setDispatchPaused and createRun: a pause is a parameter of the claim, and runs are not modelled beyond their outcome.
- EventReaders.EventReader.CaptureEvents: the capture of stderr, which writes the same error and so can stop delivery early; waiting for the process start receipt, the copy of the stream on disk, and the exact decoding of events, which is a parameter.
- EnvironmentRouter.RouteMeans: descriptors are taken as parsed; a descriptor that fails validation makes the source throw.
- deriveRequirements and environmentSummary: the projections from a WorkOrder and from an environment's record.
