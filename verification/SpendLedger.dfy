/**
 The ledger as the source has it: an object over two tables, whose methods update rows in place
 inside one transaction each. Every method is proved against its specification in SpendTransactions.
 */
module SpendLedgers {
  import opened Primitives
  import opened SpendPolicy
  import opened SpendTransactions
  import opened SpendSafety

  /** A row that recovery changes. */
  predicate OpenRow(op: Operation) {
    op.state.Reserved? || op.state.Dispatched?
  }

  class SpendLedger {
    var budgets: map<string, Budget>
    var operations: seq<Operation>

    constructor ()
      ensures Tables() == EMPTY
    {
      budgets, operations := map[], [];
    }

    /** The two tables as one value. */
    function Tables(): Db
      reads this
    {
      Db(budgets, operations)
    }

    method FindBudget(workId: string) returns (b: Option<Budget>)
      ensures b == BudgetOf(Tables(), workId)
    {
      if workId in budgets {
        return Some(budgets[workId]);
      }
      return None;
    }

    /** The rows of one Work, selected from the table in order. */
    method FindOperations(workId: string) returns (rows: seq<Operation>)
      ensures rows == OperationsOf(operations, workId)
    {
      rows := [];
      for i := 0 to |operations|
        invariant rows == OperationsOf(operations[..i], workId)
      {
        assert operations[..i + 1][..i] == operations[..i];
        if operations[i].binding.workId == workId {
          rows := rows + [operations[i]];
        }
      }
      assert operations[..|operations|] == operations;
    }

    /** The row with this primary key, by position; the table's length when absent. */
    method FindOperation(operationId: string) returns (i: nat)
      ensures i == IndexOf(operations, operationId)
    {
      i := 0;
      while i < |operations| && operations[i].operationId != operationId
        invariant i <= |operations|
        invariant IndexOf(operations, operationId) == i + IndexOf(operations[i..], operationId)
      {
        assert operations[i..][1..] == operations[i + 1..];
        i := i + 1;
      }
    }

    method CreateBudget(workId: string, generation: int, requestId: string, workOrderId: string,
                        ceiling: int, deadline: Stamp, plan: Option<Plan>, now: int) returns (out: Outcome<(), Denial>)
      modifies this
      ensures Step(Tables(), out) ==
              SpendTransactions.CreateBudget(old(Tables()), workId, generation, requestId, workOrderId, ceiling,
                    deadline, plan, now)
      ensures out.Denied? ==> Tables() == old(Tables())
      ensures Kept(old(Tables()), CallCreateBudget(workId, generation, requestId, workOrderId, ceiling, deadline, plan),
                Tables())
      ensures out.Done? ==>
                && operations == old(operations) && workId in budgets && budgets[workId].ceiling == ceiling
                && budgets[workId].plan == plan && budgets[workId].workGeneration == generation
    {
      ApplyKept(Tables(), CallCreateBudget(workId, generation, requestId, workOrderId, ceiling, deadline, plan), now);
      var invalid := ValidateBudget(workId, generation, requestId, workOrderId, ceiling, deadline, plan, now);
      if invalid.Some? {
        return Denied(invalid.value);
      }
      var previous := FindBudget(workId);
      if previous.Some? {
        var b := previous.value;
        if b.ceiling != ceiling || b.cancelled || generation < b.workGeneration {
          return Denied(CeilingOrCancellationFixed);
        }
        if b.plan != plan {
          return Denied(PlanFixed);
        }
        if generation == b.workGeneration {
          if b.deadline != deadline || b.requestId != requestId || b.workOrderId != workOrderId {
            return Denied(GenerationConflict);
          }
          return Done(());
        }
        var rows := FindOperations(workId);
        UnresolvedRows(operations, workId);
        if exists op <- rows :: Unresolved(op) {
          return Denied(GenerationBusy);
        }
        b := b.(workGeneration := generation, requestId := requestId);
        b := b.(workOrderId := workOrderId, deadline := deadline);
        b := b.(authority := Prepared, writer := None, phase := Productive);
        budgets := budgets[workId := b];
        return Done(());
      }
      budgets := budgets[workId := Budget(generation, requestId, workOrderId, ceiling, deadline, false, plan,
                                          None, Prepared, Productive)];
      return Done(());
    }

    method BindAuthority(binding: Binding, now: int) returns (out: Outcome<(), Denial>)
      modifies this
      ensures Step(Tables(), out) == SpendTransactions.BindAuthority(old(Tables()), binding, now)
      ensures out.Denied? ==> Tables() == old(Tables())
      ensures Kept(old(Tables()), CallBindAuthority(binding), Tables())
      ensures out.Done? ==>
                && binding.workId in budgets && budgets[binding.workId].authority.Active?
                && budgets[binding.workId].writer == Some(WriterOf(binding))
    {
      ApplyKept(Tables(), CallBindAuthority(binding), now);
      if !BoundedBinding(binding) {
        return Denied(InvalidInput);
      }
      var b := FindBudget(binding.workId);
      var why := AssertBindAuthority(b, binding, now);
      if why.Some? {
        return Denied(why.value);
      }
      budgets := budgets[binding.workId := b.value.(writer := Some(WriterOf(binding)), authority := Active)];
      return Done(());
    }

    method AssertCompletionEligible(binding: Binding, now: int) returns (why: Option<Denial>)
      ensures why == CompletionDenial(Tables(), binding, now)
    {
      var b := FindBudget(binding.workId);
      why := AssertSpendBinding(b, binding, Productive, now);
      if why.None? {
        var rows := FindOperations(binding.workId);
        why := AssertCompletionOperations(rows, binding);
      }
    }

    method BeginCompletion(binding: Binding, now: int) returns (out: Outcome<(), Denial>)
      modifies this
      ensures Step(Tables(), out) == SpendTransactions.BeginCompletion(old(Tables()), binding, now)
      ensures out.Denied? ==> Tables() == old(Tables())
      ensures Kept(old(Tables()), CallBeginCompletion(binding), Tables())
      ensures out.Done? ==> binding.workId in budgets && budgets[binding.workId].phase.Completion?
    {
      ApplyKept(Tables(), CallBeginCompletion(binding), now);
      var why := AssertCompletionEligible(binding, now);
      if why.Some? {
        return Denied(why.value);
      }
      budgets := budgets[binding.workId := budgets[binding.workId].(phase := Completion)];
      return Done(());
    }

    method AssertCompleted(binding: Binding, now: int) returns (why: Option<Denial>)
      ensures why == CompletedDenial(Tables(), binding, now)
    {
      var b := FindBudget(binding.workId);
      why := AssertSpendBinding(b, binding, Completion, now);
      if why.None? {
        var rows := FindOperations(binding.workId);
        if !(exists op <- rows :: SameAttempt(op, binding) && op.phase.Completion? && op.state.Settled?)
           || exists op <- rows :: Unresolved(op) {
          why := Some(CompletionUnsettled);
        }
      }
    }

    method FenceAuthority(binding: Binding) returns (out: Outcome<bool, Denial>)
      modifies this
      ensures Step(Tables(), out) == SpendTransactions.FenceAuthority(old(Tables()), binding)
      ensures out.Denied? ==> Tables() == old(Tables())
      ensures Kept(old(Tables()), CallFenceAuthority(binding), Tables())
      ensures out.Denied? <==> binding.workId !in old(budgets)
      ensures out == Done(true) ==> binding.workId in budgets && budgets[binding.workId].authority.Fenced?
      ensures out == Done(false) ==> Tables() == old(Tables())
    {
      ApplyKept(Tables(), CallFenceAuthority(binding), 0);
      var b := FindBudget(binding.workId);
      if b.None? {
        return Denied(BudgetMissing);
      }
      if !MatchesCurrent(b.value, binding) {
        return Done(false);
      }
      budgets := budgets[binding.workId := b.value.(authority := Fenced)];
      return Done(true);
    }

    method CancelBound(binding: Binding) returns (out: Outcome<(), Denial>)
      modifies this
      ensures Step(Tables(), out) == SpendTransactions.CancelBound(old(Tables()), binding)
      ensures out.Denied? ==> Tables() == old(Tables())
      ensures Kept(old(Tables()), CallCancelBound(binding), Tables())
      ensures out.Done? ==>
                && binding.workId in budgets && budgets[binding.workId].cancelled
                && budgets[binding.workId].authority.Fenced?
    {
      ApplyKept(Tables(), CallCancelBound(binding), 0);
      var b := FindBudget(binding.workId);
      if b.None? || !MatchesCurrent(b.value, binding) {
        return Denied(StaleAuthority);
      }
      out := Cancel(binding.workId);
    }

    method Cancel(workId: string) returns (out: Outcome<(), Denial>)
      modifies this
      ensures Step(Tables(), out) == SpendTransactions.Cancel(old(Tables()), workId)
      ensures out.Denied? ==> Tables() == old(Tables())
      ensures Kept(old(Tables()), CallCancel(workId), Tables())
      ensures out.Denied? <==> workId !in old(budgets)
      ensures out.Done? ==> workId in budgets && budgets[workId].cancelled && budgets[workId].authority.Fenced?
    {
      ApplyKept(Tables(), CallCancel(workId), 0);
      if workId !in budgets {
        return Denied(BudgetMissing);
      }
      budgets := budgets[workId := budgets[workId].(cancelled := true, authority := Fenced)];
      return Done(());
    }

    method Reserve(input: Reservation, now: int) returns (out: Outcome<Operation, Denial>)
      modifies this
      ensures Step(Tables(), out) == SpendTransactions.Reserve(old(Tables()), input, now)
      ensures out.Denied? ==> Tables() == old(Tables())
      ensures Kept(old(Tables()), CallReserve(input), Tables())
      ensures out.Done? ==> operations == old(operations) + [out.value] && out.value == Fresh(input)
    {
      ApplyKept(Tables(), CallReserve(input), now);
      if !BoundedBinding(input.binding) || !Bounded(input.operationId) || !Bounded(input.model)
         || !Bounded(input.pricingRevision) || !PositiveSafe(input.reserved) {
        return Denied(InvalidInput);
      }
      var i := FindOperation(input.operationId);
      if i < |operations| {
        return Denied(ReplayedOperation);
      }
      var b := FindBudget(input.binding.workId);
      var why := AssertSpendBinding(b, input.binding, input.phase, now);
      if why.Some? {
        return Denied(why.value);
      }
      var rows := FindOperations(input.binding.workId);
      why := AssertReservation(b.value, rows, input);
      if why.Some? {
        return Denied(why.value);
      }
      operations := operations + [Fresh(input)];
      return Done(operations[|operations| - 1]);
    }

    method MarkDispatched(operationId: string, now: int) returns (out: Outcome<(), Denial>)
      modifies this
      ensures Step(Tables(), out) == SpendTransactions.MarkDispatched(old(Tables()), operationId, now)
      ensures out.Denied? ==> Tables() == old(Tables())
      ensures Kept(old(Tables()), CallMarkDispatched(operationId), Tables())
      ensures out.Done? ==>
                exists i: nat :: i < |old(operations)| && old(operations)[i].operationId == operationId
                  && old(operations)[i].state.Reserved?
                  && operations == old(operations)[i := old(operations)[i].(state := Dispatched)]
    {
      ApplyKept(Tables(), CallMarkDispatched(operationId), now);
      var i := FindOperation(operationId);
      if i == |operations| || !operations[i].state.Reserved? {
        return Denied(NotReserved);
      }
      var op := operations[i];
      var b := FindBudget(op.binding.workId);
      var why := AssertSpendBinding(b, op.binding, op.phase, now);
      if why.Some? {
        return Denied(why.value);
      }
      var plan := b.value.plan.value;
      if plan.model != op.model || plan.pricingRevision != op.pricingRevision
         || plan.perOperationReserve != op.reserved {
        return Denied(PricingMismatch);
      }
      var rows := FindOperations(op.binding.workId);
      if exists other <- rows :: other.operationId != operationId && Unresolved(other) {
        return Denied(UnresolvedExposure);
      }
      operations := operations[i := op.(state := Dispatched)];
      return Done(());
    }

    method Settle(operationId: string, actual: int, receipt: string, usage: Usage) returns (out: Outcome<(), Denial>)
      modifies this
      ensures Step(Tables(), out) == SpendTransactions.Settle(old(Tables()), operationId, actual, receipt, usage)
      ensures out.Denied? ==> Tables() == old(Tables())
      ensures Kept(old(Tables()), CallSettle(operationId, actual, receipt, usage), Tables())
      ensures out.Done? ==> forall op <- old(operations) :: op.providerRequestId != Some(receipt)
      ensures out.Done? ==>
                exists i: nat :: i < |old(operations)| && old(operations)[i].operationId == operationId
                  && 0 <= actual <= old(operations)[i].reserved && |operations| == |old(operations)|
                  && operations[i].state.Settled? && operations[i].actual == Some(actual)
                  && operations[i].providerRequestId == Some(receipt)
    {
      ApplyKept(Tables(), CallSettle(operationId, actual, receipt, usage), 0);
      if !SafeInteger(actual) || actual < 0 || !Bounded(receipt) || !SafeInteger(usage.inputTokens)
         || !SafeInteger(usage.outputTokens) || usage.inputTokens < 0 || usage.outputTokens < 0 {
        return Denied(InvalidInput);
      }
      var i := FindOperation(operationId);
      if i == |operations| || !(operations[i].state.Dispatched? || operations[i].state.Unknown?) {
        return Denied(NotDispatched);
      }
      var op := operations[i];
      if actual > op.reserved {
        return Denied(CostExceedsReservation);
      }
      if exists other <- operations :: other.providerRequestId == Some(receipt) {
        return Denied(DuplicateReceipt);
      }
      op := op.(actual := Some(actual), providerRequestId := Some(receipt));
      op := op.(usage := Some(usage), state := Settled);
      operations := operations[i := op];
      return Done(());
    }

    method ReleaseUndispatched(operationId: string) returns (out: Outcome<(), Denial>)
      modifies this
      ensures Step(Tables(), out) == SpendTransactions.ReleaseUndispatched(old(Tables()), operationId)
      ensures out.Denied? ==> Tables() == old(Tables())
      ensures Kept(old(Tables()), CallRelease(operationId), Tables())
      ensures out.Done? ==>
                exists i: nat :: i < |old(operations)| && old(operations)[i].operationId == operationId
                  && old(operations)[i].state.Reserved?
                  && operations == old(operations)[i := old(operations)[i].(state := Released)]
    {
      ApplyKept(Tables(), CallRelease(operationId), 0);
      var i := FindOperation(operationId);
      if i == |operations| || !operations[i].state.Reserved? {
        return Denied(NotReserved);
      }
      operations := operations[i := operations[i].(state := Released)];
      return Done(());
    }

    method MarkUnknown(operationId: string) returns (out: Outcome<(), Denial>)
      modifies this
      ensures Step(Tables(), out) == SpendTransactions.MarkUnknown(old(Tables()), operationId)
      ensures out.Denied? ==> Tables() == old(Tables())
      ensures Kept(old(Tables()), CallMarkUnknown(operationId), Tables())
      ensures var i := IndexOf(old(operations), operationId);
              i < |old(operations)| ==>
                && |operations| == |old(operations)|
                && !operations[i].state.Reserved? && !operations[i].state.Dispatched?
                && (operations[i] != old(operations)[i] && operations[i].binding.workId in budgets ==>
                      budgets[operations[i].binding.workId].authority.Fenced?)
    {
      ApplyKept(Tables(), CallMarkUnknown(operationId), 0);
      var i := FindOperation(operationId);
      if i == |operations| || operations[i].state.Settled? || operations[i].state.Released? {
        return Done(());
      }
      var op := operations[i];
      if op.binding.workId in budgets {
        budgets := budgets[op.binding.workId := budgets[op.binding.workId].(authority := Fenced)];
      }
      operations := operations[i := op.(state := Unknown)];
      return Done(());
    }

    /** Every open row becomes unknown. The result is how many rows changed. */
    method RecoverRows() returns (changed: nat)
      modifies this`operations
      ensures operations == RecoveredRows(old(operations))
      ensures changed == |set i | 0 <= i < |old(operations)| && old(operations)[i] != operations[i]|
    {
      ghost var before := operations;
      changed := 0;
      ghost var touched: set<int> := {};
      for i := 0 to |operations|
        invariant |operations| == |before|
        invariant forall j | 0 <= j < i :: operations[j] == Recovered(before[j])
        invariant forall j | i <= j < |before| :: operations[j] == before[j]
        invariant forall j :: j in touched <==> 0 <= j < i && OpenRow(before[j])
        invariant changed == |touched|
      {
        if OpenRow(operations[i]) {
          operations := operations[i := operations[i].(state := Unknown)];
          touched := touched + {i};
          changed := changed + 1;
        }
      }
      assert touched == set j | 0 <= j < |before| && before[j] != operations[j];
    }

    /** Startup recovery: the Works with an open row are fenced, and the rows become unknown. */
    method RecoverUnknown() returns (changed: nat)
      modifies this
      ensures Tables() == SpendTransactions.RecoverUnknown(old(Tables()))
      ensures changed == |set i | 0 <= i < |old(operations)| && old(operations)[i] != operations[i]|
      ensures Inv(old(Tables())) ==> Inv(Tables())
      ensures forall op <- operations :: !op.state.Reserved? && !op.state.Dispatched?
      ensures forall op <- old(operations) | Unresolved(op) && op.binding.workId in budgets ::
                budgets[op.binding.workId].authority.Fenced?
    {
      ApplyKept(Tables(), CallRecoverUnknown, 0);
      budgets := map w | w in budgets ::
        if HasUnresolved(operations, w) then budgets[w].(authority := Fenced) else budgets[w];
      changed := RecoverRows();
    }

    method Read(workId: string) returns (summary: Option<Summary>)
      ensures summary == if workId in budgets
                         then Some(SpendSummary(budgets[workId], OperationsOf(operations, workId))) else None
    {
      if workId !in budgets {
        return None;
      }
      var rows := FindOperations(workId);
      return Some(SpendSummary(budgets[workId], rows));
    }
  }

  /** A Work has an unresolved row exactly when one of its selected rows is unresolved. */
  lemma {:induction false} UnresolvedRows(ops: seq<Operation>, workId: string)
    ensures HasUnresolved(ops, workId) <==> exists op <- OperationsOf(ops, workId) :: Unresolved(op)
  {
    if ops != [] {
      var init, last := ops[..|ops| - 1], ops[|ops| - 1];
      UnresolvedRows(init, workId);
      assert ops == init + [last];
      assert forall op :: op in ops <==> op in init || op == last;
      assert forall op :: op in OperationsOf(ops, workId) <==>
               op in OperationsOf(init, workId) || (op == last && last.binding.workId == workId);
    }
  }
}
