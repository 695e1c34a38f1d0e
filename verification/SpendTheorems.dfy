/**
 The promises of the Work spend ledger, for every history of transactions.
 */
module SpendTheorems {
  import opened Primitives
  import opened SpendPolicy
  import opened SpendTransactions
  import opened SpendSafety

  predicate Planned(db: Db, workId: string) {
    workId in db.budgets && db.budgets[workId].plan.Some?
  }

  // ---------------------------------------------------------------- conservation

  /** With every row bounded by the per-operation reserve, a phase cannot expose more than its slots allow. */
  lemma {:induction false} ExposureBound(ops: seq<Operation>, bound: int, phase: Phase)
    requires bound >= 0
    requires forall op <- ops :: 0 <= Exposure(op) <= bound
    ensures 0 <= Exposed(ops, phase) <= Slots(ops, phase) * bound
  {
    if ops != [] {
      var n := |ops| - 1;
      ExposureBound(ops[..n], bound, phase);
      assert ops[n] in ops;
      assert (Slots(ops[..n], phase) + 1) * bound == Slots(ops[..n], phase) * bound + bound;
    }
  }

  /** The summary's two sums and the two phases both partition the total exposure. */
  lemma {:induction false} ExposurePartition(ops: seq<Operation>)
    requires forall op <- ops :: op.actual.Some? <==> op.state.Settled?
    ensures TotalExposed(ops) == Exposed(ops, Productive) + Exposed(ops, Completion)
    ensures TotalExposed(ops) == SumActual(ops) + SumRetained(ops)
  {
    if ops != [] {
      var n := |ops| - 1;
      ExposurePartition(ops[..n]);
      assert ops[n] in ops;
    }
  }

  lemma {:induction false} UnknownSum(ops: seq<Operation>)
    requires forall op <- ops :: op.reserved > 0
    ensures SumUnknown(ops) >= 0
    ensures SumUnknown(ops) > 0 <==> exists op <- ops :: op.state.Unknown?
  {
    if ops != [] {
      var n := |ops| - 1;
      UnknownSum(ops[..n]);
      assert ops == ops[..n] + [ops[n]];
    }
  }

  lemma RowBounds(workId: string, b: Budget, ops: seq<Operation>)
    requires WorkInv(workId, Some(b), ops) && b.plan.Some?
    ensures forall op <- ops :: 0 <= Exposure(op) <= b.plan.value.perOperationReserve && op.reserved > 0
                                && (op.actual.Some? <==> op.state.Settled?)
  {
    forall op | op in ops
      ensures 0 <= Exposure(op) <= b.plan.value.perOperationReserve && op.reserved > 0
      ensures op.actual.Some? <==> op.state.Settled?
    {
      assert RowInv(b, b.plan.value, workId, op);
    }
  }

  lemma ProductMonotone(a: int, b: int, k: int)
    requires a <= b && k >= 0
    ensures a * k <= b * k
  {
  }

  lemma Headroom(exposed: int, used: int, all: int, price: int, cap: int)
    requires price > 0 && 0 <= exposed <= used * price && used <= all && all * price <= cap
    ensures exposed <= cap
    ensures used < all ==> price <= cap - exposed
  {
    ProductMonotone(used, all, price);
    if used < all {
      ProductMonotone(used + 1, all, price);
      assert (used + 1) * price == used * price + price;
    }
  }

  /** The slots still unused, at full price, always fit beside what a phase exposes already. */
  lemma PhaseHeadroom(workId: string, b: Budget, ops: seq<Operation>, phase: Phase)
    requires WorkInv(workId, Some(b), ops) && b.plan.Some?
    ensures var plan := b.plan.value;
            && 0 <= Exposed(ops, phase) <= PhaseCap(b.ceiling, plan, phase)
            && Slots(ops, phase) <= PlannedSlots(plan, phase)
            && (Slots(ops, phase) < PlannedSlots(plan, phase) ==>
                  plan.perOperationReserve <= PhaseCap(b.ceiling, plan, phase) - Exposed(ops, phase))
  {
    var plan := b.plan.value;
    RowBounds(workId, b, ops);
    ExposureBound(ops, plan.perOperationReserve, phase);
    Headroom(Exposed(ops, phase), Slots(ops, phase), PlannedSlots(plan, phase), plan.perOperationReserve,
             PhaseCap(b.ceiling, plan, phase));
  }

  lemma PlannedWork(history: seq<Tx>, workId: string)
    requires Planned(Run(EMPTY, history), workId)
    ensures var db := Run(EMPTY, history);
            WorkInv(workId, Some(db.budgets[workId]), OperationsOf(db.operations, workId))
  {
    var db := Run(EMPTY, history);
    RunInv(history);
    assert WorkInv(workId, BudgetOf(db, workId), OperationsOf(db.operations, workId));
  }

  predicate Conserved(b: Budget, ops: seq<Operation>)
    requires b.plan.Some?
  {
    var plan, summary := b.plan.value, SpendSummary(b, ops);
    && 0 <= TotalExposed(ops) <= b.ceiling
    && Exposed(ops, Productive) <= b.ceiling - plan.completionReserve
    && Exposed(ops, Completion) <= plan.completionReserve
    && |ops| <= plan.maxPaid
    && summary.settled + summary.retained == TotalExposed(ops)
    && summary.available == summary.productiveAllowance + summary.completionRemainder
    && summary.available == b.ceiling - TotalExposed(ops) >= 0
    && summary.completionSlotsLeft == plan.plannedCompletion - summary.completionUsed
    && (summary.unknown <==> exists op <- ops :: op.state.Unknown?)
  }

  /**
   Conservation: money and slots never exceed the plan, phase by phase, and the summary's figures are the
   exact remainders.
   */
  lemma Conservation(history: seq<Tx>, workId: string)
    requires Planned(Run(EMPTY, history), workId)
    ensures var db := Run(EMPTY, history);
            Conserved(db.budgets[workId], OperationsOf(db.operations, workId))
  {
    var db := Run(EMPTY, history);
    var b, ops := db.budgets[workId], OperationsOf(db.operations, workId);
    PlannedWork(history, workId);
    RowBounds(workId, b, ops);
    PhaseHeadroom(workId, b, ops, Productive);
    PhaseHeadroom(workId, b, ops, Completion);
    SlotsPartition(ops);
    ExposurePartition(ops);
    UnknownSum(ops);
  }

  /** The conditions a caller can see before asking for a slot of a phase. */
  predicate SlotAvailable(b: Budget, ops: seq<Operation>, input: Reservation)
    requires b.plan.Some?
  {
    var plan := b.plan.value;
    && plan.model == input.model && plan.pricingRevision == input.pricingRevision
    && plan.perOperationReserve == input.reserved
    && (forall op <- ops :: !Unresolved(op))
    && Slots(ops, input.phase) < PlannedSlots(plan, input.phase)
  }

  /**
   A validated plan never strands a planned operation. In a reachable state the total-slot, safe-integer
   and money checks refuse nothing that the price, the unresolved row and the phase's slots do not.
   */
  lemma PlanAlwaysAffordable(history: seq<Tx>, input: Reservation)
    requires Planned(Run(EMPTY, history), input.binding.workId)
    ensures var db := Run(EMPTY, history); var w := input.binding.workId;
            var b := db.budgets[w]; var ops := OperationsOf(db.operations, w);
            AssertReservation(b, ops, input).None? <==> SlotAvailable(b, ops, input)
  {
    var db, w := Run(EMPTY, history), input.binding.workId;
    var b, ops := db.budgets[w], OperationsOf(db.operations, w);
    if SlotAvailable(b, ops, input) {
      PlannedWork(history, w);
      PhaseHeadroom(w, b, ops, Productive);
      PhaseHeadroom(w, b, ops, Completion);
      RowBounds(w, b, ops);
      ExposurePartition(ops);
      SlotsPartition(ops);
    }
  }

  // ---------------------------------------------------------------- one exact exposure

  /** At most one unresolved row a Work; it is the current writer's, in the current phase; UNKNOWN is fenced. */
  lemma SingleExactExposure(history: seq<Tx>, i: nat)
    requires var db := Run(EMPTY, history); i < |db.operations| && Unresolved(db.operations[i])
    ensures var db := Run(EMPTY, history); var op := db.operations[i];
            && Planned(db, op.binding.workId)
            && Current(db.budgets[op.binding.workId], op.binding)
            && op.phase == db.budgets[op.binding.workId].phase
            && (op.state.Unknown? ==> db.budgets[op.binding.workId].authority.Fenced?)
            && (forall j | 0 <= j < |db.operations| && j != i && Unresolved(db.operations[j]) ::
                  db.operations[j].binding.workId != op.binding.workId)
  {
    var db := Run(EMPTY, history);
    RunInv(history);
    RowOf(db, i);
    forall j | 0 <= j < |db.operations| && j != i && Unresolved(db.operations[j])
      ensures db.operations[j].binding.workId != db.operations[i].binding.workId
    {
      TwoUnresolved(db, i, j);
    }
  }

  lemma TwoUnresolved(db: Db, i: nat, j: nat)
    requires Inv(db) && i < |db.operations| && j < |db.operations| && i != j
    requires Unresolved(db.operations[i]) && Unresolved(db.operations[j])
    ensures db.operations[i].binding.workId != db.operations[j].binding.workId
  {
    var w := db.operations[i].binding.workId;
    var rows := OperationsOf(db.operations, w);
    assert WorkInv(w, BudgetOf(db, w), rows);
    RowOf(db, i);
    var k := OperationsOfUpdate(db.operations, i, db.operations[i], w);
    var l := OperationsOfUpdate(db.operations, j, db.operations[j], w);
    assert AtMostOneUnresolved(rows);
    assert db.operations[i].operationId != db.operations[j].operationId;
  }

  // ---------------------------------------------------------------- generations, fences, cancellation

  /** What one transaction can do to an existing budget row. */
  predicate BudgetSuccessor(b: Budget, b': Budget) {
    && b'.ceiling == b.ceiling && b'.plan == b.plan
    && (b.cancelled ==> b'.cancelled && b'.workGeneration == b.workGeneration)
    && b.workGeneration <= b'.workGeneration
    && (b.workGeneration == b'.workGeneration ==>
          && b'.requestId == b.requestId && b'.workOrderId == b.workOrderId && b'.deadline == b.deadline
          && (b.writer.Some? ==> b'.writer == b.writer)
          && (b.authority.Fenced? ==> b'.authority.Fenced? && b'.writer == b.writer)
          && (b.phase.Completion? ==> b'.phase.Completion?))
  }

  lemma CreateBudgetSucceeds(db: Db, w: string, g: int, r: string, o: string, c: int, d: Stamp, p: Option<Plan>,
      now: int, workId: string)
    requires workId in db.budgets
    ensures workId in CreateBudget(db, w, g, r, o, c, d, p, now).db.budgets
    ensures BudgetSuccessor(db.budgets[workId], CreateBudget(db, w, g, r, o, c, d, p, now).db.budgets[workId])
  {
  }

  lemma AuthoritySucceeds(db: Db, call: Call, now: int, workId: string)
    requires call.CallBindAuthority? || call.CallBeginCompletion? || call.CallFenceAuthority? || call.CallCancelBound?
             || call.CallCancel?
    requires workId in db.budgets
    ensures workId in Apply(db, call, now).budgets
    ensures BudgetSuccessor(db.budgets[workId], Apply(db, call, now).budgets[workId])
  {
  }

  lemma OpeningCallsSucceed(db: Db, call: Call, now: int, workId: string)
    requires call.CallReserve? || call.CallMarkDispatched? || call.CallSettle?
    requires workId in db.budgets
    ensures workId in Apply(db, call, now).budgets
    ensures BudgetSuccessor(db.budgets[workId], Apply(db, call, now).budgets[workId])
  {
  }

  lemma ClosingCallsSucceed(db: Db, call: Call, now: int, workId: string)
    requires call.CallRelease? || call.CallMarkUnknown? || call.CallRecoverUnknown?
    requires workId in db.budgets
    ensures workId in Apply(db, call, now).budgets
    ensures BudgetSuccessor(db.budgets[workId], Apply(db, call, now).budgets[workId])
  {
  }

  lemma ApplyBudget(db: Db, call: Call, now: int, workId: string)
    requires workId in db.budgets
    ensures workId in Apply(db, call, now).budgets
    ensures BudgetSuccessor(db.budgets[workId], Apply(db, call, now).budgets[workId])
  {
    match call
    case CallCreateBudget(w, g, r, o, c, d, p) => CreateBudgetSucceeds(db, w, g, r, o, c, d, p, now, workId);
    case CallBindAuthority(_) => AuthoritySucceeds(db, call, now, workId);
    case CallBeginCompletion(_) => AuthoritySucceeds(db, call, now, workId);
    case CallFenceAuthority(_) => AuthoritySucceeds(db, call, now, workId);
    case CallCancelBound(_) => AuthoritySucceeds(db, call, now, workId);
    case CallCancel(_) => AuthoritySucceeds(db, call, now, workId);
    case CallReserve(_) => OpeningCallsSucceed(db, call, now, workId);
    case CallMarkDispatched(_) => OpeningCallsSucceed(db, call, now, workId);
    case CallSettle(_, _, _, _) => OpeningCallsSucceed(db, call, now, workId);
    case _ => ClosingCallsSucceed(db, call, now, workId);
  }

  /**
   Ceiling and plan never change, generations only rise, and within one generation the binding, writer and fence
   stick.
   */
  lemma {:induction false} BudgetHistory(db: Db, history: seq<Tx>, workId: string)
    requires workId in db.budgets
    ensures workId in Run(db, history).budgets
    ensures BudgetSuccessor(db.budgets[workId], Run(db, history).budgets[workId])
  {
    if history != [] {
      var n := |history| - 1;
      BudgetHistory(db, history[..n], workId);
      ApplyBudget(Run(db, history[..n]), history[n].call, history[n].now, workId);
    }
  }

  /** After cancellation nothing is admitted again, in any later history, generation or writer. */
  lemma CancellationIsPermanent(db: Db, history: seq<Tx>, workId: string, input: Reservation, operationId: string,
      now: int)
    requires workId in db.budgets && db.budgets[workId].cancelled
    requires input.binding.workId == workId
    ensures var later := Run(db, history);
            && workId in later.budgets
            && later.budgets[workId].workGeneration == db.budgets[workId].workGeneration
            && Reserve(later, input, now).out.Denied?
            && (MarkDispatched(later, operationId, now).out.Done? ==>
                  later.operations[IndexOf(later.operations, operationId)].binding.workId != workId)
  {
    BudgetHistory(db, history, workId);
  }

  /**
   An UNKNOWN row fences its generation for good: whatever happens later, its settlement included, that
   generation admits no reservation and no dispatch, and its authority cannot be bound again.
   */
  lemma UnknownNeverReopens(
    before: seq<Tx>, i: nat, after: seq<Tx>, input: Reservation, operationId: string, now: int)
    requires i < |Run(EMPTY, before).operations| && Run(EMPTY, before).operations[i].state.Unknown?
    requires input.binding.workId == Run(EMPTY, before).operations[i].binding.workId
    requires input.binding.workGeneration == Run(EMPTY, before).operations[i].binding.workGeneration
    ensures var later := Run(Run(EMPTY, before), after);
            && Reserve(later, input, now).out.Denied? && BindAuthority(later, input.binding, now).out.Denied?
            && (MarkDispatched(later, operationId, now).out.Done? ==>
                  var dispatched := later.operations[IndexOf(later.operations, operationId)].binding;
                  dispatched.workId != input.binding.workId
                  || dispatched.workGeneration != input.binding.workGeneration)
  {
    RunInv(before);
    var db := Run(EMPTY, before);
    RowOf(db, i);
    BudgetHistory(db, after, input.binding.workId);
  }

  // ---------------------------------------------------------------- row histories

  /** The moves a stored row can make; settled and released rows are final. */
  predicate StateMove(s: OpState, s': OpState) {
    s == s' || match s
               case Reserved => true
               case Dispatched => s'.Unknown? || s'.Settled?
               case Unknown => s'.Settled?
               case _ => false
  }

  predicate RowSuccessor(op: Operation, op': Operation) {
    && op'.operationId == op.operationId && op'.binding == op.binding && op'.model == op.model
    && op'.pricingRevision == op.pricingRevision && op'.reserved == op.reserved && op'.phase == op.phase
    && StateMove(op.state, op'.state)
    && (op.state.Settled? || op.state.Released? ==> op' == op)
  }

  predicate TableGrows(ops: seq<Operation>, ops': seq<Operation>) {
    && |ops| <= |ops'|
    && forall i | 0 <= i < |ops| :: RowSuccessor(ops[i], ops'[i])
  }

  /** Advancing one row is a successor of the table. */
  lemma OneRowGrows(ops: seq<Operation>, i: nat, op: Operation)
    requires i < |ops| && RowSuccessor(ops[i], op)
    ensures TableGrows(ops, ops[i := op])
  {
  }

  lemma ResolveRows(db: Db, call: Call, now: int)
    requires call.CallMarkDispatched? || call.CallSettle? || call.CallRelease? || call.CallMarkUnknown?
    ensures TableGrows(db.operations, Apply(db, call, now).operations)
  {
    var i := IndexOf(db.operations, call.operationId);
    var after := Apply(db, call, now).operations;
    if after != db.operations {
      OneRowGrows(db.operations, i, after[i]);
    }
  }

  lemma ApplyRows(db: Db, call: Call, now: int)
    ensures TableGrows(db.operations, Apply(db, call, now).operations)
  {
    match call
    case CallMarkDispatched(_) => ResolveRows(db, call, now);
    case CallSettle(_, _, _, _) => ResolveRows(db, call, now);
    case CallRelease(_) => ResolveRows(db, call, now);
    case CallMarkUnknown(_) => ResolveRows(db, call, now);
    case _ =>
  }

  /** No row is lost or rewritten: identity, price and phase are fixed, and its state only advances. */
  lemma {:induction false} RowHistory(db: Db, history: seq<Tx>)
    ensures TableGrows(db.operations, Run(db, history).operations)
  {
    if history != [] {
      var n := |history| - 1;
      RowHistory(db, history[..n]);
      ApplyRows(Run(db, history[..n]), history[n].call, history[n].now);
    }
  }

  /** An operation crosses the paid boundary at most once, and is never released after it. */
  lemma DispatchOnlyOnce(history: seq<Tx>, operationId: string, now: int, after: seq<Tx>, now': int)
    requires MarkDispatched(Run(EMPTY, history), operationId, now).out.Done?
    ensures var later := Run(MarkDispatched(Run(EMPTY, history), operationId, now).db, after);
            var i := IndexOf(later.operations, operationId);
            && MarkDispatched(later, operationId, now').out.Denied?
            && ReleaseUndispatched(later, operationId).out.Denied?
            && i < |later.operations| && later.operations[i].state != Released
            && later.operations[i].state != Reserved
  {
    var db := Run(EMPTY, history);
    RunInv(history);
    ApplyInv(db, CallMarkDispatched(operationId), now);
    DispatchedRowLater(MarkDispatched(db, operationId, now).db, IndexOf(db.operations, operationId), after);
  }

  lemma DispatchedRowLater(db: Db, i: nat, after: seq<Tx>)
    requires Inv(db) && i < |db.operations| && db.operations[i].state.Dispatched?
    ensures var later := Run(db, after); var id := db.operations[i].operationId;
            && i < |later.operations| && IndexOf(later.operations, id) == i
            && !later.operations[i].state.Reserved? && !later.operations[i].state.Released?
  {
    RowHistory(db, after);
    RunInvFrom(db, after);
    IndexOfUnique(Run(db, after).operations, i);
  }

  lemma {:induction false} RunInvFrom(db: Db, history: seq<Tx>)
    requires Inv(db)
    ensures Inv(Run(db, history))
  {
    if history != [] {
      var n := |history| - 1;
      RunInvFrom(db, history[..n]);
      ApplyInv(Run(db, history[..n]), history[n].call, history[n].now);
    }
  }

  // ---------------------------------------------------------------- receipts

  /** No two rows carry the same provider receipt. */
  predicate UniqueReceipts(ops: seq<Operation>) {
    forall i, j | 0 <= i < j < |ops| :: ops[i].providerRequestId.None?
        || ops[i].providerRequestId != ops[j].providerRequestId
  }

  lemma SettleReceipts(db: Db, id: string, actual: int, receipt: string, usage: Usage)
    requires UniqueReceipts(db.operations)
    ensures UniqueReceipts(Settle(db, id, actual, receipt, usage).db.operations)
  {
    if Settle(db, id, actual, receipt, usage).out.Done? {
      var i := IndexOf(db.operations, id);
      forall j | 0 <= j < |db.operations| ensures db.operations[j].providerRequestId != Some(receipt) {
        assert db.operations[j] in db.operations;
      }
    }
  }

  /** Rows keep their receipts, and more rows have none. */
  predicate ReceiptsStay(ops: seq<Operation>, ops': seq<Operation>) {
    && |ops| <= |ops'|
    && (forall i | 0 <= i < |ops| :: ops'[i].providerRequestId == ops[i].providerRequestId)
    && (forall i | |ops| <= i < |ops'| :: ops'[i].providerRequestId.None?)
  }

  lemma OneRowStays(ops: seq<Operation>, i: nat, op: Operation)
    requires i < |ops| && op.providerRequestId == ops[i].providerRequestId
    ensures ReceiptsStay(ops, ops[i := op])
  {
  }

  lemma StepsAddNoReceipt(db: Db, call: Call, now: int)
    requires call.CallMarkDispatched? || call.CallRelease? || call.CallMarkUnknown?
    ensures ReceiptsStay(db.operations, Apply(db, call, now).operations)
  {
    var i, after := IndexOf(db.operations, call.operationId), Apply(db, call, now).operations;
    if after != db.operations {
      OneRowStays(db.operations, i, after[i]);
    }
  }

  lemma BudgetCallsKeepRows(db: Db, call: Call, now: int)
    requires call.CallCreateBudget? || call.CallBindAuthority? || call.CallBeginCompletion? || call.CallFenceAuthority?
             || call.CallCancelBound? || call.CallCancel?
    ensures Apply(db, call, now).operations == db.operations
  {
  }

  lemma OthersAddNoReceipt(db: Db, call: Call, now: int)
    requires !call.CallSettle?
    ensures ReceiptsStay(db.operations, Apply(db, call, now).operations)
  {
    match call
    case CallMarkDispatched(_) => StepsAddNoReceipt(db, call, now);
    case CallRelease(_) => StepsAddNoReceipt(db, call, now);
    case CallMarkUnknown(_) => StepsAddNoReceipt(db, call, now);
    case CallReserve(_) =>
    case CallRecoverUnknown =>
    case _ => BudgetCallsKeepRows(db, call, now);
  }

  lemma ReceiptsKept(ops: seq<Operation>, ops': seq<Operation>)
    requires UniqueReceipts(ops) && ReceiptsStay(ops, ops')
    ensures UniqueReceipts(ops')
  {
  }

  lemma ApplyReceipts(db: Db, call: Call, now: int)
    requires UniqueReceipts(db.operations)
    ensures UniqueReceipts(Apply(db, call, now).operations)
  {
    if call.CallSettle? {
      SettleReceipts(db, call.operationId, call.actual, call.receipt, call.usage);
    } else {
      OthersAddNoReceipt(db, call, now);
      ReceiptsKept(db.operations, Apply(db, call, now).operations);
    }
  }

  /** One provider answer settles at most one operation, over all Works and histories. */
  lemma {:induction false} ReceiptsAreUnique(history: seq<Tx>)
    ensures UniqueReceipts(Run(EMPTY, history).operations)
  {
    if history != [] {
      var n := |history| - 1;
      ReceiptsAreUnique(history[..n]);
      ApplyReceipts(Run(EMPTY, history[..n]), history[n].call, history[n].now);
    }
  }

  // ---------------------------------------------------------------- the completion phase

  /**
   Entering completion needs a settled productive operation of the same attempt, nothing outstanding, and a
   Work in which no completion operation was ever started.
   */
  lemma CompletionEntry(history: seq<Tx>, binding: Binding, now: int)
    requires BeginCompletion(Run(EMPTY, history), binding, now).out.Done?
    ensures var db := Run(EMPTY, history);
            && (exists op <- db.operations :: op.binding == binding && op.phase.Productive? && op.state.Settled?)
            && (forall op <- db.operations | op.binding.workId == binding.workId ::
                  !Unresolved(op) && op.phase.Productive?)
  {
    var db := Run(EMPTY, history);
    OperationsOfMembers(db.operations, binding.workId);
    var op :| op in OperationsOf(db.operations, binding.workId) && SameAttempt(op, binding)
              && op.phase.Productive? && op.state.Settled?;
    assert op in db.operations && op.binding == binding;
  }

  lemma OneAttempt(db: Db, i: nat, j: nat)
    requires Inv(db) && i < |db.operations| && j < |db.operations|
    requires db.operations[i].phase.Completion? && db.operations[j].phase.Completion?
    requires db.operations[i].binding.workId == db.operations[j].binding.workId
    ensures db.operations[i].binding == db.operations[j].binding
  {
    var w := db.operations[i].binding.workId;
    var rows := OperationsOf(db.operations, w);
    RowOf(db, i);
    assert OneCompletionAttempt(rows) by {
      assert WorkInv(w, BudgetOf(db, w), rows);
    }
    var k := OperationsOfUpdate(db.operations, i, db.operations[i], w);
    var l := OperationsOfUpdate(db.operations, j, db.operations[j], w);
    if k < l {
      assert rows[k].binding == rows[l].binding;
    } else if l < k {
      assert rows[l].binding == rows[k].binding;
    }
  }

  /** All completion operations of a Work, over all its generations, come from one attempt in one generation. */
  lemma CompletionFromOneAttempt(history: seq<Tx>, i: nat, j: nat)
    requires var ops := Run(EMPTY, history).operations;
             && i < |ops| && j < |ops| && ops[i].phase.Completion? && ops[j].phase.Completion?
             && ops[i].binding.workId == ops[j].binding.workId
    ensures var ops := Run(EMPTY, history).operations; ops[i].binding == ops[j].binding
  {
    RunInv(history);
    OneAttempt(Run(EMPTY, history), i, j);
  }

  lemma {:induction false} NothingRetained(ops: seq<Operation>)
    requires forall op <- ops :: !Unresolved(op)
    ensures SumRetained(ops) == 0
  {
    if ops != [] {
      assert ops[|ops| - 1] in ops;
      NothingRetained(ops[..|ops| - 1]);
    }
  }

  lemma CompletedWork(db: Db, binding: Binding, now: int)
    requires Inv(db) && CompletedDenial(db, binding, now).None?
    ensures Planned(db, binding.workId)
    ensures var b, ops := db.budgets[binding.workId], OperationsOf(db.operations, binding.workId);
            && SpendSummary(b, ops).accountingComplete && SpendSummary(b, ops).retained == 0
            && SpendSummary(b, ops).settled == TotalExposed(ops)
            && forall op <- ops | op.phase.Completion? :: op.binding == binding
  {
    var w := binding.workId;
    var b, ops := db.budgets[w], OperationsOf(db.operations, w);
    assert WorkInv(w, BudgetOf(db, w), ops);
    RowBounds(w, b, ops);
    ExposurePartition(ops);
    NothingRetained(ops);
    forall op | op in ops && op.phase.Completion? ensures op.binding == binding {
      assert RowInv(b, b.plan.value, w, op);
    }
  }

  /**
   When the completion check passes, the Work's books are closed: nothing is retained, what is settled is all that is
   exposed, and every completion operation is this attempt's.
   */
  lemma CompletedIsAccounted(history: seq<Tx>, binding: Binding, now: int)
    requires CompletedDenial(Run(EMPTY, history), binding, now).None?
    ensures Planned(Run(EMPTY, history), binding.workId)
    ensures var db := Run(EMPTY, history);
            var b, ops := db.budgets[binding.workId], OperationsOf(db.operations, binding.workId);
            && SpendSummary(b, ops).accountingComplete && SpendSummary(b, ops).retained == 0
            && SpendSummary(b, ops).settled == TotalExposed(ops)
            && forall op <- ops | op.phase.Completion? :: op.binding == binding
  {
    RunInv(history);
    CompletedWork(Run(EMPTY, history), binding, now);
  }

  // ---------------------------------------------------------------- fencing one binding

  /** No step can ever again let this binding spend: its generation is past, or closed to this writer. */
  predicate Dead(db: Db, binding: Binding) {
    && binding.workId in db.budgets
    && var b := db.budgets[binding.workId];
      || b.workGeneration > binding.workGeneration
      || (b.workGeneration == binding.workGeneration &&
          (b.requestId != binding.requestId || b.workOrderId != binding.workOrderId
           || (b.writer.Some? && b.writer != Some(WriterOf(binding))) || b.authority.Fenced?))
  }

  /** A dead binding stays dead through every later history, and admits nothing. */
  lemma DeadForever(db: Db, binding: Binding, history: seq<Tx>)
    requires Dead(db, binding)
    ensures Dead(Run(db, history), binding)
  {
    BudgetHistory(db, history, binding.workId);
  }

  lemma DeadAdmitsNothing(db: Db, binding: Binding, input: Reservation, operationId: string, now: int)
    requires Dead(db, binding) && input.binding == binding
    ensures Reserve(db, input, now).out.Denied?
    ensures BindAuthority(db, binding, now).out.Denied?
    ensures MarkDispatched(db, operationId, now).out.Done? ==>
              db.operations[IndexOf(db.operations, operationId)].binding != binding
  {
  }

  /** A fence that the ledger accepts ends the binding exactly when the budget has reached the binding's generation. */
  lemma FenceKillsExactly(db: Db, binding: Binding)
    requires FenceAuthority(db, binding).out.Done?
    ensures Dead(FenceAuthority(db, binding).db, binding) <==>
            db.budgets[binding.workId].workGeneration >= binding.workGeneration
  {
  }
}
