/**
 The specification of every ledger transaction as a function from database to database.
 A denied transaction rolls back. `Run` folds a history of transactions, issued by any number of
 processes, which BEGIN IMMEDIATE serialises.
 */
module SpendTransactions {
  import opened Primitives
  import opened SpendPolicy

  /** The two tables: one budget row a Work, and the operation rows in insertion order. */
  datatype Db = Db(budgets: map<string, Budget>, operations: seq<Operation>)

  datatype Step<+T> = Step(db: Db, out: Outcome<T, Denial>)

  const EMPTY := Db(map[], [])

  function BudgetOf(db: Db, workId: string): Option<Budget> {
    if workId in db.budgets then Some(db.budgets[workId]) else None
  }

  /** The rows of one Work, in order. */
  function OperationsOf(ops: seq<Operation>, workId: string): seq<Operation> {
    if ops == [] then []
    else
      var last := ops[|ops| - 1];
      OperationsOf(ops[..|ops| - 1], workId) + if last.binding.workId == workId then [last] else []
  }

  /** The index of the row with this primary key, or |ops| when there is none. */
  function IndexOf(ops: seq<Operation>, operationId: string): (i: nat)
    ensures i <= |ops|
    ensures i < |ops| ==> ops[i].operationId == operationId
    ensures forall j | 0 <= j < i :: ops[j].operationId != operationId
  {
    if ops == [] then 0
    else if ops[0].operationId == operationId then 0
    else 1 + IndexOf(ops[1..], operationId)
  }

  predicate HasUnresolved(ops: seq<Operation>, workId: string) {
    exists op <- ops :: op.binding.workId == workId && Unresolved(op)
  }

  function SetBudget(db: Db, workId: string, b: Budget): Db {
    db.(budgets := db.budgets[workId := b])
  }

  function SetOperation(db: Db, i: nat, op: Operation): Db
    requires i < |db.operations|
  {
    db.(operations := db.operations[i := op])
  }

  function Refuse<T>(db: Db, why: Denial): Step<T> {
    Step(db, Denied(why))
  }

  function CreateBudget(db: Db, workId: string, generation: int, requestId: string, workOrderId: string,
                        ceiling: int, deadline: Stamp, plan: Option<Plan>, now: int): Step<()>
  {
    var invalid := ValidateBudget(workId, generation, requestId, workOrderId, ceiling, deadline, plan, now);
    if invalid.Some? then Refuse(db, invalid.value)
    else if workId in db.budgets then
      var previous := db.budgets[workId];
      if previous.ceiling != ceiling || previous.cancelled || generation < previous.workGeneration
      then Refuse(db, CeilingOrCancellationFixed)
      else if previous.plan != plan then Refuse(db, PlanFixed)
      else if generation == previous.workGeneration then
        if previous.deadline != deadline || previous.requestId != requestId || previous.workOrderId != workOrderId
        then Refuse(db, GenerationConflict)
        else Step(db, Done(()))
      else if HasUnresolved(db.operations, workId) then Refuse(db, GenerationBusy)
      else
        var next := previous.(workGeneration := generation, requestId := requestId, workOrderId := workOrderId,
                              deadline := deadline, authority := Prepared, writer := None, phase := Productive);
        Step(SetBudget(db, workId, next), Done(()))
    else
      var initial := Budget(generation, requestId, workOrderId, ceiling, deadline, false, plan, None, Prepared,
            Productive);
      Step(SetBudget(db, workId, initial), Done(()))
  }

  predicate BoundedBinding(binding: Binding) {
    && Bounded(binding.workId) && PositiveSafe(binding.workGeneration) && Bounded(binding.dispatchIdentity)
    && Bounded(binding.requestId) && Bounded(binding.workOrderId) && Bounded(binding.factoryVersion)
    && Bounded(binding.runId)
  }

  function BindAuthority(db: Db, binding: Binding, now: int): Step<()> {
    if !BoundedBinding(binding) then Refuse(db, InvalidInput)
    else
      var why := AssertBindAuthority(BudgetOf(db, binding.workId), binding, now);
      if why.Some? then Refuse(db, why.value)
      else
        var b := db.budgets[binding.workId];
        Step(SetBudget(db, binding.workId, b.(writer := Some(WriterOf(binding)), authority := Active)), Done(()))
  }

  function CompletionDenial(db: Db, binding: Binding, now: int): Option<Denial> {
    var why := AssertSpendBinding(BudgetOf(db, binding.workId), binding, Productive, now);
    if why.Some? then why
    else AssertCompletionOperations(OperationsOf(db.operations, binding.workId), binding)
  }

  function BeginCompletion(db: Db, binding: Binding, now: int): Step<()> {
    var why := CompletionDenial(db, binding, now);
    if why.Some? then Refuse(db, why.value)
    else
      var b := db.budgets[binding.workId];
      Step(SetBudget(db, binding.workId, b.(phase := Completion)), Done(()))
  }

  function CompletedDenial(db: Db, binding: Binding, now: int): Option<Denial> {
    var why := AssertSpendBinding(BudgetOf(db, binding.workId), binding, Completion, now);
    var ops := OperationsOf(db.operations, binding.workId);
    if why.Some? then why
    else if !(exists op <- ops :: SameAttempt(op, binding) && op.phase.Completion? && op.state.Settled?)
            || exists op <- ops :: Unresolved(op) then Some(CompletionUnsettled)
    else None
  }

  function FenceAuthority(db: Db, binding: Binding): Step<bool> {
    if binding.workId !in db.budgets then Refuse(db, BudgetMissing)
    else
      var b := db.budgets[binding.workId];
      if !MatchesCurrent(b, binding) then Step(db, Done(false))
      else Step(SetBudget(db, binding.workId, b.(authority := Fenced)), Done(true))
  }

  function CancelBound(db: Db, binding: Binding): Step<()> {
    if binding.workId !in db.budgets || !MatchesCurrent(db.budgets[binding.workId], binding)
    then Refuse(db, StaleAuthority)
    else Cancel(db, binding.workId)
  }

  function Cancel(db: Db, workId: string): Step<()> {
    if workId !in db.budgets then Refuse(db, BudgetMissing)
    else Step(SetBudget(db, workId, db.budgets[workId].(cancelled := true, authority := Fenced)), Done(()))
  }

  function Fresh(input: Reservation): Operation {
    Operation(input.operationId, input.binding, input.model, input.pricingRevision, input.reserved, input.phase,
              None, None, None, Reserved)
  }

  function Reserve(db: Db, input: Reservation, now: int): Step<Operation> {
    if !BoundedBinding(input.binding) || !Bounded(input.operationId) || !Bounded(input.model)
       || !Bounded(input.pricingRevision) || !PositiveSafe(input.reserved) then Refuse(db, InvalidInput)
    else if IndexOf(db.operations, input.operationId) < |db.operations| then Refuse(db, ReplayedOperation)
    else
      var workId := input.binding.workId;
      var why := AssertSpendBinding(BudgetOf(db, workId), input.binding, input.phase, now);
      if why.Some? then Refuse(db, why.value)
      else
        var limit := AssertReservation(db.budgets[workId], OperationsOf(db.operations, workId), input);
        if limit.Some? then Refuse(db, limit.value)
        else Step(db.(operations := db.operations + [Fresh(input)]), Done(Fresh(input)))
  }

  function MarkDispatched(db: Db, operationId: string, now: int): Step<()> {
    var i := IndexOf(db.operations, operationId);
    if i == |db.operations| || !db.operations[i].state.Reserved? then Refuse(db, NotReserved)
    else
      var op := db.operations[i];
      var why := AssertSpendBinding(BudgetOf(db, op.binding.workId), op.binding, op.phase, now);
      if why.Some? then Refuse(db, why.value)
      else
        var plan := db.budgets[op.binding.workId].plan.value;
        if plan.model != op.model || plan.pricingRevision != op.pricingRevision
           || plan.perOperationReserve != op.reserved
        then Refuse(db, PricingMismatch)
        else if exists other <- OperationsOf(db.operations, op.binding.workId) ::
                  other.operationId != operationId && Unresolved(other)
        then Refuse(db, UnresolvedExposure)
        else Step(SetOperation(db, i, op.(state := Dispatched)), Done(()))
  }

  function Settle(db: Db, operationId: string, actual: int, receipt: string, usage: Usage): Step<()> {
    if !SafeInteger(actual) || actual < 0 || !Bounded(receipt) || !SafeInteger(usage.inputTokens)
       || !SafeInteger(usage.outputTokens) || usage.inputTokens < 0 || usage.outputTokens < 0
    then Refuse(db, InvalidInput)
    else
      var i := IndexOf(db.operations, operationId);
      if i == |db.operations| || !(db.operations[i].state.Dispatched? || db.operations[i].state.Unknown?)
      then Refuse(db, NotDispatched)
      else
        var op := db.operations[i];
        if actual > op.reserved then Refuse(db, CostExceedsReservation)
        else if exists other <- db.operations ::
             other.providerRequestId == Some(receipt) then Refuse(db, DuplicateReceipt)
        else
          Step(SetOperation(db, i, op.(actual := Some(actual), providerRequestId := Some(receipt),
                                       usage := Some(usage), state := Settled)), Done(()))
  }

  function ReleaseUndispatched(db: Db, operationId: string): Step<()> {
    var i := IndexOf(db.operations, operationId);
    if i == |db.operations| || !db.operations[i].state.Reserved? then Refuse(db, NotReserved)
    else Step(SetOperation(db, i, db.operations[i].(state := Released)), Done(()))
  }

  function MarkUnknown(db: Db, operationId: string): Step<()> {
    var i := IndexOf(db.operations, operationId);
    if i == |db.operations| || db.operations[i].state.Settled? || db.operations[i].state.Released?
    then Step(db, Done(()))
    else
      var op := db.operations[i];
      var fenced := if op.binding.workId in db.budgets
                    then SetBudget(db, op.binding.workId, db.budgets[op.binding.workId].(authority := Fenced)) else db;
      Step(SetOperation(fenced, i, op.(state := Unknown)), Done(()))
  }

  function Recovered(op: Operation): Operation {
    if op.state.Reserved? || op.state.Dispatched? then op.(state := Unknown) else op
  }

  function RecoveredRows(ops: seq<Operation>): seq<Operation> {
    seq(|ops|, i requires 0 <= i < |ops| => Recovered(ops[i]))
  }

  function RecoverUnknown(db: Db): Db {
    Db(map w | w in db.budgets ::
         if HasUnresolved(db.operations, w) then db.budgets[w].(authority := Fenced) else db.budgets[w],
       RecoveredRows(db.operations))
  }

  /** Every state-changing ledger call. */
  datatype Call =
    | CallCreateBudget(workId: string, generation: int, requestId: string, workOrderId: string,
                       ceiling: int, deadline: Stamp, plan: Option<Plan>)
    | CallBindAuthority(binding: Binding)
    | CallBeginCompletion(binding: Binding)
    | CallFenceAuthority(binding: Binding)
    | CallCancelBound(binding: Binding)
    | CallCancel(workId: string)
    | CallReserve(input: Reservation)
    | CallMarkDispatched(operationId: string)
    | CallSettle(operationId: string, actual: int, receipt: string, usage: Usage)
    | CallRelease(operationId: string)
    | CallMarkUnknown(operationId: string)
    | CallRecoverUnknown

  /** The database after one call at clock reading `now`. */
  function Apply(db: Db, call: Call, now: int): Db {
    match call
    case CallCreateBudget(w, g, r, o, c, d, p) => CreateBudget(db, w, g, r, o, c, d, p, now).db
    case CallBindAuthority(b) => BindAuthority(db, b, now).db
    case CallBeginCompletion(b) => BeginCompletion(db, b, now).db
    case CallFenceAuthority(b) => FenceAuthority(db, b).db
    case CallCancelBound(b) => CancelBound(db, b).db
    case CallCancel(w) => Cancel(db, w).db
    case CallReserve(input) => Reserve(db, input, now).db
    case CallMarkDispatched(id) => MarkDispatched(db, id, now).db
    case CallSettle(id, actual, receipt, usage) => Settle(db, id, actual, receipt, usage).db
    case CallRelease(id) => ReleaseUndispatched(db, id).db
    case CallMarkUnknown(id) => MarkUnknown(db, id).db
    case CallRecoverUnknown => RecoverUnknown(db)
  }

  /** A call with the clock reading its transaction sees; readings need not increase. */
  datatype Tx = Tx(call: Call, now: int)

  function Run(db: Db, history: seq<Tx>): Db {
    if history == [] then db
    else
      var last := history[|history| - 1];
      Apply(Run(db, history[..|history| - 1]), last.call, last.now)
  }
}
