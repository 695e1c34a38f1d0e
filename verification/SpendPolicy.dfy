/**
 The admission rules of the Work spend ledger: pure decisions over one budget row and the
 operation rows of the same Work. Money is in integer micro-USD.
 */
module SpendPolicy {
  import opened Primitives

  datatype Phase = Productive | Completion
  datatype OpState = Reserved | Dispatched | Unknown | Settled | Released
  datatype Authority = Prepared | Active | Fenced

  datatype Plan = Plan(
    version: string, pricingRevision: string, model: string, validUntil: Stamp,
    perOperationReserve: int, plannedProductive: int, plannedCompletion: int,
    maxPaid: int, completionReserve: int)

  /** One exact attempt of one Work generation. */
  datatype Binding = Binding(
    workId: string, workGeneration: int, dispatchIdentity: string, requestId: string,
    workOrderId: string, factoryVersion: string, runId: string)

  datatype Reservation = Reservation(
    binding: Binding, operationId: string, model: string, pricingRevision: string,
    reserved: int, phase: Phase)

  datatype Usage = Usage(inputTokens: int, outputTokens: int)

  datatype Operation = Operation(
    operationId: string, binding: Binding, model: string, pricingRevision: string,
    reserved: int, phase: Phase, actual: Option<int>, providerRequestId: Option<string>,
    usage: Option<Usage>, state: OpState)

  /** The three authority columns, which are always written together. */
  datatype Writer = Writer(dispatchIdentity: string, factoryVersion: string, runId: string)

  /** A budget row. `plan` is None for the historical contract WORK_LEDGER_V1. */
  datatype Budget = Budget(
    workGeneration: int, requestId: string, workOrderId: string, ceiling: int, deadline: Stamp,
    cancelled: bool, plan: Option<Plan>, writer: Option<Writer>, authority: Authority, phase: Phase)

  datatype Denial =
    | InvalidInput
    | DeadlineNotInFuture
    | UnsupportedContract
    | PricingExpired
    | PlanUnaffordable
    | CeilingOrCancellationFixed
    | PlanFixed
    | GenerationConflict
    | GenerationBusy
    | AuthorityRequired
    | AuthorityConflict
    | BudgetMissing
    | PaidBudgetRequired
    | CancelledOrExpired
    | BindingDiffers
    | WriterRequired
    | PhaseNotAuthorized
    | ReplayedOperation
    | PricingMismatch
    | UnresolvedExposure
    | OperationLimit
    | CeilingExceeded
    | ProductiveMissing
    | OutstandingOperation
    | CompletionConsumed
    | CompletionUnsettled
    | NotReserved
    | NotDispatched
    | CostExceedsReservation
    | DuplicateReceipt
    | StaleAuthority

  function WriterOf(binding: Binding): Writer {
    Writer(binding.dispatchIdentity, binding.factoryVersion, binding.runId)
  }

  predicate Unresolved(op: Operation) {
    op.state.Reserved? || op.state.Dispatched? || op.state.Unknown?
  }

  /** What an operation can still cost or has cost. */
  function Exposure(op: Operation): int {
    match op.state
    case Released => 0
    case Settled => if op.actual.Some? then op.actual.value else 0
    case _ => op.reserved
  }

  predicate SameAttempt(op: Operation, binding: Binding) {
    op.binding.(workId := binding.workId) == binding
  }

  /** Sum of `Exposure` over the operations of one phase. */
  function Exposed(ops: seq<Operation>, phase: Phase): int {
    if ops == [] then 0
    else
      var last := ops[|ops| - 1];
      Exposed(ops[..|ops| - 1], phase) + if last.phase == phase then Exposure(last) else 0
  }

  function TotalExposed(ops: seq<Operation>): int {
    if ops == [] then 0 else TotalExposed(ops[..|ops| - 1]) + Exposure(ops[|ops| - 1])
  }

  /** How many operation slots of one phase are used, whatever became of the operations. */
  function Slots(ops: seq<Operation>, phase: Phase): nat {
    if ops == [] then 0
    else Slots(ops[..|ops| - 1], phase) + if ops[|ops| - 1].phase == phase then 1 else 0
  }

  function PlannedSlots(plan: Plan, phase: Phase): int {
    if phase.Productive? then plan.plannedProductive else plan.plannedCompletion
  }

  /** The part of the ceiling a phase may spend. */
  function PhaseCap(ceiling: int, plan: Plan, phase: Phase): int {
    if phase.Productive? then ceiling - plan.completionReserve else plan.completionReserve
  }

  predicate Alphanumeric(c: char) {
    'a' <= c <= 'z' || 'A' <= c <= 'Z' || '0' <= c <= '9'
  }

  predicate ModelComponent(s: string) {
    && s != []
    && Alphanumeric(s[0])
    && forall c <- s :: Alphanumeric(c) || c in "._-"
  }

  /** One model component, optionally after one provider component and a slash. */
  predicate ModelReference(s: string) {
    && 0 < |s| <= 120
    && (forall i | 0 < i < |s| :: !(s[i - 1] == '.' && s[i] == '.'))
    && (ModelComponent(s) ||
        exists i | 0 <= i < |s| :: s[i] == '/' && ModelComponent(s[..i]) && ModelComponent(s[i + 1..]))
  }

  /** The complete plan is affordable at its full per-operation bound. */
  predicate PlanFits(plan: Plan, ceiling: int) {
    && plan.version == "WORK_LEDGER_V2"
    && PositiveSafe(plan.perOperationReserve) && PositiveSafe(plan.plannedProductive)
    && PositiveSafe(plan.plannedCompletion) && PositiveSafe(plan.maxPaid) && PositiveSafe(plan.completionReserve)
    && plan.maxPaid == plan.plannedProductive + plan.plannedCompletion
    && SafeInteger(plan.plannedProductive * plan.perOperationReserve)
    && SafeInteger(plan.plannedCompletion * plan.perOperationReserve)
    && plan.plannedCompletion * plan.perOperationReserve <= plan.completionReserve
    && plan.plannedProductive * plan.perOperationReserve <= ceiling - plan.completionReserve
  }

  function ValidateBudget(workId: string, generation: int, requestId: string, workOrderId: string,
                          ceiling: int, deadline: Stamp, plan: Option<Plan>, now: int): (why: Option<Denial>)
  {
    if !Bounded(workId) || !PositiveSafe(generation) || !Bounded(requestId) || !Bounded(workOrderId)
       || !PositiveSafe(ceiling) then Some(InvalidInput)
    else if !deadline.After(now) then Some(DeadlineNotInFuture)
    else match plan
      case None => None
      case Some(p) =>
        if p.version != "WORK_LEDGER_V2" then Some(UnsupportedContract)
        else if !Bounded(p.pricingRevision) || !ModelReference(p.model) then Some(InvalidInput)
        else if !p.validUntil.After(now) then Some(PricingExpired)
        else if !PositiveSafe(p.perOperationReserve) || !PositiveSafe(p.plannedProductive)
                || !PositiveSafe(p.plannedCompletion) || !PositiveSafe(p.maxPaid)
                || !PositiveSafe(p.completionReserve) then Some(InvalidInput)
        else if p.maxPaid != p.plannedProductive + p.plannedCompletion
                || !SafeInteger(p.plannedProductive * p.perOperationReserve)
                || !SafeInteger(p.plannedCompletion * p.perOperationReserve)
                || p.plannedCompletion * p.perOperationReserve > p.completionReserve
                || p.plannedProductive * p.perOperationReserve > ceiling - p.completionReserve
        then Some(PlanUnaffordable)
        else None
  }

  function AssertSpendBinding(budget: Option<Budget>, binding: Binding, phase: Phase, now: int): (why: Option<Denial>) {
    if budget.None? || budget.value.plan.None? then Some(PaidBudgetRequired)
    else
      var b := budget.value;
      if b.cancelled || b.deadline.Passed(now) then Some(CancelledOrExpired)
      else if b.plan.value.validUntil.Passed(now) then Some(PricingExpired)
      else if b.workGeneration != binding.workGeneration || b.requestId != binding.requestId
              || b.workOrderId != binding.workOrderId then Some(BindingDiffers)
      else if !b.authority.Active? || b.writer != Some(WriterOf(binding)) then Some(WriterRequired)
      else if b.phase != phase then Some(PhaseNotAuthorized)
      else None
  }

  function AssertReservation(b: Budget, ops: seq<Operation>, input: Reservation): (why: Option<Denial>)
    requires b.plan.Some?
  {
    var plan := b.plan.value;
    if plan.model != input.model || plan.pricingRevision != input.pricingRevision
       || input.reserved != plan.perOperationReserve then Some(PricingMismatch)
    else if exists op <- ops :: Unresolved(op) then Some(UnresolvedExposure)
    else if |ops| >= plan.maxPaid || Slots(ops, input.phase) >= PlannedSlots(plan, input.phase)
         then Some(OperationLimit)
    else if !SafeInteger(TotalExposed(ops)) || !SafeInteger(Exposed(ops, input.phase))
            || input.reserved > b.ceiling - TotalExposed(ops)
            || input.reserved > PhaseCap(b.ceiling, plan, input.phase) - Exposed(ops, input.phase)
    then Some(CeilingExceeded)
    else None
  }

  function AssertCompletionOperations(ops: seq<Operation>, binding: Binding): (why: Option<Denial>) {
    if !(exists op <- ops :: SameAttempt(op, binding) && op.phase.Productive? && op.state.Settled?)
       then Some(ProductiveMissing)
    else if exists op <- ops :: Unresolved(op) then Some(OutstandingOperation)
    else if exists op <- ops :: op.phase.Completion? then Some(CompletionConsumed)
    else None
  }

  function AssertBindAuthority(budget: Option<Budget>, binding: Binding, now: int): (why: Option<Denial>) {
    if budget.None? || budget.value.plan.None? then Some(AuthorityRequired)
    else
      var b := budget.value;
      if b.cancelled || b.deadline.Passed(now) || b.plan.value.validUntil.Passed(now)
         || b.workGeneration != binding.workGeneration || b.requestId != binding.requestId
         || b.workOrderId != binding.workOrderId || b.authority.Fenced? then Some(AuthorityRequired)
      else if b.writer.Some? && b.writer != Some(WriterOf(binding)) then Some(AuthorityConflict)
      else None
  }

  /** The binding names the budget's generation, and its writer if one is bound already. */
  predicate MatchesCurrent(b: Budget, binding: Binding) {
    && b.workGeneration == binding.workGeneration
    && b.requestId == binding.requestId
    && b.workOrderId == binding.workOrderId
    && (b.writer.None? || b.writer == Some(WriterOf(binding)))
  }

  function Max0(n: int): int {
    if n < 0 then 0 else n
  }

  datatype Summary = Summary(
    unknown: bool, settled: int, retained: int, available: int, unknownExposure: int,
    productiveAllowance: int, completionRemainder: int, used: nat, completionUsed: nat,
    completionSlotsLeft: int, accountingComplete: bool)

  function SumActual(ops: seq<Operation>): int {
    if ops == [] then 0
    else
      var last := ops[|ops| - 1];
      SumActual(ops[..|ops| - 1]) + if last.actual.Some? then last.actual.value else 0
  }

  function SumRetained(ops: seq<Operation>): int {
    if ops == [] then 0
    else
      var last := ops[|ops| - 1];
      SumRetained(ops[..|ops| - 1]) + if last.state.Settled? || last.state.Released? then 0 else last.reserved
  }

  function SumUnknown(ops: seq<Operation>): int {
    if ops == [] then 0
    else
      var last := ops[|ops| - 1];
      SumUnknown(ops[..|ops| - 1]) + if last.state.Unknown? then last.reserved else 0
  }

  function SpendSummary(b: Budget, ops: seq<Operation>): Summary {
    var reserve := if b.plan.Some? then b.plan.value.completionReserve else 0;
    var planned := if b.plan.Some? then b.plan.value.plannedCompletion else 0;
    Summary(
      SumUnknown(ops) > 0,
      SumActual(ops),
      SumRetained(ops),
      b.ceiling - SumActual(ops) - SumRetained(ops),
      SumUnknown(ops),
      Max0(b.ceiling - reserve - Exposed(ops, Productive)),
      Max0(reserve - Exposed(ops, Completion)),
      |ops|,
      Slots(ops, Completion),
      Max0(planned - Slots(ops, Completion)),
      forall op <- ops :: op.state.Settled? || op.state.Released?)
  }
}
