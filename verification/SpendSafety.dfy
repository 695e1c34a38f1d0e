/**
 What every history of ledger transactions keeps: conservation of money and slots, a single exact
 exposure, fencing, cancellation, and the shape of the completion phase.
 */
module SpendSafety {
  import opened Primitives
  import opened SpendPolicy
  import opened SpendTransactions

  /** The operation belongs to the budget's current generation and to its bound writer. */
  predicate Current(b: Budget, binding: Binding) {
    && b.workGeneration == binding.workGeneration
    && b.requestId == binding.requestId
    && b.workOrderId == binding.workOrderId
    && b.writer == Some(WriterOf(binding))
  }

  /** Facts about a single row of a planned Work. */
  predicate RowInv(b: Budget, plan: Plan, workId: string, op: Operation) {
    && op.binding.workId == workId
    && op.model == plan.model && op.pricingRevision == plan.pricingRevision
    && op.reserved == plan.perOperationReserve
    && (op.actual.Some? <==> op.state.Settled?)
    && (op.actual.Some? ==> 0 <= op.actual.value <= op.reserved)
    && op.binding.workGeneration <= b.workGeneration
    && (op.binding.workGeneration == b.workGeneration ==> Current(b, op.binding))
    && (Unresolved(op) ==> Current(b, op.binding) && op.phase == b.phase)
    && (op.state.Unknown? ==> b.authority.Fenced?)
    && (op.phase.Completion? && b.phase.Completion? ==> Current(b, op.binding))
    && (op.phase.Completion? && b.phase.Productive? ==> op.binding.workGeneration < b.workGeneration)
  }

  predicate AtMostOneUnresolved(ops: seq<Operation>) {
    forall i, j | 0 <= i < j < |ops| :: !(Unresolved(ops[i]) && Unresolved(ops[j]))
  }

  /** All completion rows come from one attempt. */
  predicate OneCompletionAttempt(ops: seq<Operation>) {
    forall i, j | 0 <= i < j < |ops| && ops[i].phase.Completion? && ops[j].phase.Completion? ::
      ops[i].binding == ops[j].binding
  }

  predicate ProductiveSettledBy(ops: seq<Operation>, b: Budget) {
    exists op <- ops :: Current(b, op.binding) && op.phase.Productive? && op.state.Settled?
  }

  /** The invariant of one Work, seen as its budget and its own rows. */
  predicate WorkInv(workId: string, budget: Option<Budget>, ops: seq<Operation>) {
    match budget
    case None => ops == []
    case Some(b) =>
      && (b.authority.Active? ==> b.writer.Some?)
      && (b.cancelled ==> b.authority.Fenced?)
      && match b.plan
         case None => ops == [] && b.phase.Productive? && !b.authority.Active?
         case Some(plan) =>
           && SafeInteger(b.ceiling) && PlanFits(plan, b.ceiling)
           && (forall op <- ops :: RowInv(b, plan, workId, op))
           && Slots(ops, Productive) <= plan.plannedProductive
           && Slots(ops, Completion) <= plan.plannedCompletion
           && AtMostOneUnresolved(ops)
           && OneCompletionAttempt(ops)
           && (b.phase.Completion? ==> ProductiveSettledBy(ops, b))
  }

  predicate UniqueIds(ops: seq<Operation>) {
    forall i, j | 0 <= i < j < |ops| :: ops[i].operationId != ops[j].operationId
  }

  ghost predicate Inv(db: Db) {
    && UniqueIds(db.operations)
    && forall w :: WorkInv(w, BudgetOf(db, w), OperationsOf(db.operations, w))
  }

  // ---------------------------------------------------------------- rows of one Work

  lemma {:induction false} OperationsOfAppend(ops: seq<Operation>, op: Operation, workId: string)
    ensures OperationsOf(ops + [op], workId) ==
            OperationsOf(ops, workId) + if op.binding.workId == workId then [op] else []
  {
    assert (ops + [op])[..|ops|] == ops;
  }

  /** A selected row is a row of the table, of that Work, and the other way round. */
  lemma {:induction false} OperationsOfMembers(ops: seq<Operation>, workId: string)
    ensures forall op :: op in OperationsOf(ops, workId) <==> op in ops && op.binding.workId == workId
  {
    if ops != [] {
      var init, last := ops[..|ops| - 1], ops[|ops| - 1];
      OperationsOfMembers(init, workId);
      assert ops == init + [last];
    }
  }

  /** Overwriting a row, keeping its Work, overwrites the matching selected row and no other. */
  lemma {:induction false} OperationsOfUpdate(ops: seq<Operation>, i: nat, op: Operation, workId: string)
    returns (j: nat)
    requires i < |ops| && op.binding.workId == ops[i].binding.workId
    ensures ops[i].binding.workId != workId ==> OperationsOf(ops[i := op], workId) == OperationsOf(ops, workId)
    ensures ops[i].binding.workId == workId ==>
              && j < |OperationsOf(ops, workId)|
              && OperationsOf(ops, workId)[j] == ops[i]
              && OperationsOf(ops[i := op], workId) == OperationsOf(ops, workId)[j := op]
  {
    var n := |ops| - 1;
    var init := ops[..n];
    if i == n {
      assert ops[i := op][..n] == init;
      j := |OperationsOf(init, workId)|;
    } else {
      assert ops[i := op][..n] == init[i := op];
      j := OperationsOfUpdate(init, i, op, workId);
    }
  }

  lemma {:induction false} SlotsUpdate(ops: seq<Operation>, j: nat, op: Operation, phase: Phase)
    requires j < |ops| && op.phase == ops[j].phase
    ensures Slots(ops[j := op], phase) == Slots(ops, phase)
  {
    var n := |ops| - 1;
    if j == n {
      assert ops[j := op][..n] == ops[..n];
    } else {
      assert ops[j := op][..n] == ops[..n][j := op];
      SlotsUpdate(ops[..n], j, op, phase);
    }
  }

  lemma SlotsAppend(ops: seq<Operation>, op: Operation, phase: Phase)
    ensures Slots(ops + [op], phase) == Slots(ops, phase) + if op.phase == phase then 1 else 0
  {
    assert (ops + [op])[..|ops|] == ops;
  }

  /** Each row takes one slot of one phase. */
  lemma {:induction false} SlotsPartition(ops: seq<Operation>)
    ensures |ops| == Slots(ops, Productive) + Slots(ops, Completion)
  {
    if ops != [] {
      SlotsPartition(ops[..|ops| - 1]);
    }
  }

  // ---------------------------------------------------------------- one Work, one step

  /** A budget change that keeps generation, binding and phase, and only ever fences or activates. */
  lemma BudgetTouch(workId: string, b: Budget, b': Budget, ops: seq<Operation>)
    requires WorkInv(workId, Some(b), ops)
    requires b' == b.(authority := b'.authority, cancelled := b'.cancelled)
    requires b'.authority.Fenced?
    ensures WorkInv(workId, Some(b'), ops)
  {
    if b.phase.Completion? {
      var op :| op in ops && Current(b, op.binding) && op.phase.Productive? && op.state.Settled?;
      assert Current(b', op.binding);
    }
  }

  /** Rewriting rows without touching binding, phase or settlement keeps who settled productive work. */
  lemma ProductiveStays(ops: seq<Operation>, ops': seq<Operation>, b: Budget, b': Budget)
    requires ProductiveSettledBy(ops, b) && |ops| == |ops'|
    requires b' == b.(authority := b'.authority)
    requires forall i | 0 <= i < |ops| :: ops[i].state.Settled? ==> ops'[i] == ops[i]
    ensures ProductiveSettledBy(ops', b')
  {
    var op :| op in ops && Current(b, op.binding) && op.phase.Productive? && op.state.Settled?;
    var k :| 0 <= k < |ops| && ops[k] == op;
    assert ops'[k] in ops' && Current(b', ops'[k].binding);
  }

  /** Resolving or advancing one row, with its budget left alone or fenced. */
  lemma RowTouch(workId: string, b: Budget, b': Budget, ops: seq<Operation>, j: nat, op: Operation)
    requires WorkInv(workId, Some(b), ops) && b.plan.Some?
    requires b' == b || b' == b.(authority := Fenced)
    requires j < |ops| && Unresolved(ops[j])
    requires op == ops[j].(actual := op.actual, providerRequestId := op.providerRequestId, usage := op.usage,
               state := op.state)
    requires op.actual.Some? <==> op.state.Settled?
    requires op.actual.Some? ==> 0 <= op.actual.value <= op.reserved
    requires op.state.Unknown? ==> b'.authority.Fenced?
    ensures WorkInv(workId, Some(b'), ops[j := op])
  {
    SlotsUpdate(ops, j, op, Productive);
    SlotsUpdate(ops, j, op, Completion);
    var ops' := ops[j := op];
    forall o | o in ops' ensures RowInv(b', b.plan.value, workId, o) {
      var k :| 0 <= k < |ops'| && ops'[k] == o;
      assert ops[k] in ops && RowInv(b, b.plan.value, workId, ops[k]);
    }
    if b.phase.Completion? {
      ProductiveStays(ops, ops', b, b');
    }
  }

  /** A row beside which none is unresolved, and which shares its attempt with every completion row. */
  lemma PairsAppend(ops: seq<Operation>, op: Operation)
    requires AtMostOneUnresolved(ops) && OneCompletionAttempt(ops)
    requires forall o <- ops ::
               !Unresolved(o) && (o.phase.Completion? && op.phase.Completion? ==> o.binding == op.binding)
    ensures AtMostOneUnresolved(ops + [op]) && OneCompletionAttempt(ops + [op])
  {
    forall i | 0 <= i < |ops| ensures !Unresolved((ops + [op])[i]) {
      assert ops[i] in ops;
    }
    forall i | 0 <= i < |ops| && ops[i].phase.Completion? && op.phase.Completion? ensures ops[i].binding == op.binding {
      assert ops[i] in ops;
    }
  }

  lemma WorkReserve(workId: string, b: Budget, ops: seq<Operation>, input: Reservation, now: int)
    requires WorkInv(workId, Some(b), ops) && input.binding.workId == workId
    requires AssertSpendBinding(Some(b), input.binding, input.phase, now).None?
    requires AssertReservation(b, ops, input).None?
    ensures WorkInv(workId, Some(b), ops + [Fresh(input)])
  {
    var op, ops' := Fresh(input), ops + [Fresh(input)];
    SlotsAppend(ops, op, Productive);
    SlotsAppend(ops, op, Completion);
    forall o | o in ops
      ensures !Unresolved(o) && (o.phase.Completion? && op.phase.Completion? ==> o.binding == op.binding)
    {
      assert RowInv(b, b.plan.value, workId, o);
    }
    PairsAppend(ops, op);
    if b.phase.Completion? {
      var settled :|
        settled in ops && Current(b, settled.binding) && settled.phase.Productive? && settled.state.Settled?;
      assert settled in ops';
    }
  }

  lemma WorkBeginCompletion(workId: string, b: Budget, ops: seq<Operation>, binding: Binding, now: int)
    requires WorkInv(workId, Some(b), ops) && binding.workId == workId
    requires AssertSpendBinding(Some(b), binding, Productive, now).None?
    requires AssertCompletionOperations(ops, binding).None?
    ensures WorkInv(workId, Some(b.(phase := Completion)), ops)
  {
    var b' := b.(phase := Completion);
    var op :| op in ops && SameAttempt(op, binding) && op.phase.Productive? && op.state.Settled?;
    assert Current(b', op.binding);
  }

  lemma WorkNextGeneration(workId: string, b: Budget, b': Budget, ops: seq<Operation>)
    requires WorkInv(workId, Some(b), ops)
    requires b'.workGeneration > b.workGeneration && !b.cancelled
    requires b' == b.(workGeneration := b'.workGeneration, requestId := b'.requestId, workOrderId := b'.workOrderId,
                      deadline := b'.deadline, authority := Prepared, writer := None, phase := Productive)
    requires !exists op <- ops :: Unresolved(op)
    ensures WorkInv(workId, Some(b'), ops)
  {
    if b.plan.Some? {
      forall op | op in ops ensures RowInv(b', b.plan.value, workId, op) {
        assert RowInv(b, b.plan.value, workId, op);
      }
    }
  }

  lemma WorkBind(workId: string, b: Budget, ops: seq<Operation>, binding: Binding, now: int)
    requires WorkInv(workId, Some(b), ops) && binding.workId == workId
    requires AssertBindAuthority(Some(b), binding, now).None?
    ensures WorkInv(workId, Some(b.(writer := Some(WriterOf(binding)), authority := Active)), ops)
  {
    var b' := b.(writer := Some(WriterOf(binding)), authority := Active);
    forall op | op in ops ensures RowInv(b', b.plan.value, workId, op) {
      assert RowInv(b, b.plan.value, workId, op);
    }
    if b.phase.Completion? {
      var op :| op in ops && Current(b, op.binding) && op.phase.Productive? && op.state.Settled?;
      assert Current(b', op.binding);
    }
  }

  // ---------------------------------------------------------------- one transaction

  lemma IndexOfUnique(ops: seq<Operation>, i: nat)
    requires UniqueIds(ops) && i < |ops|
    ensures IndexOf(ops, ops[i].operationId) == i
  {
  }

  /** Changing one budget leaves every other Work alone. */
  lemma SetBudgetInv(db: Db, workId: string, b: Budget)
    requires Inv(db) && WorkInv(workId, Some(b), OperationsOf(db.operations, workId))
    ensures Inv(SetBudget(db, workId, b))
  {
    var db' := SetBudget(db, workId, b);
    forall w ensures WorkInv(w, BudgetOf(db', w), OperationsOf(db'.operations, w)) {
      assert WorkInv(w, BudgetOf(db, w), OperationsOf(db.operations, w));
    }
  }

  /** Advancing one unresolved row, with or without fencing its budget. */
  lemma SetOperationInv(db: Db, i: nat, op: Operation, fence: bool)
    requires Inv(db) && i < |db.operations| && Unresolved(db.operations[i])
    requires op == db.operations[i].(actual := op.actual, providerRequestId := op.providerRequestId, usage := op.usage,
               state := op.state)
    requires op.actual.Some? <==> op.state.Settled?
    requires op.actual.Some? ==> 0 <= op.actual.value <= op.reserved
    requires op.state.Unknown? ==> fence
    ensures op.binding.workId in db.budgets
    ensures var b := db.budgets[op.binding.workId];
            Inv(SetOperation(if fence then SetBudget(db, op.binding.workId, b.(authority := Fenced)) else db, i, op))
  {
    var own := op.binding.workId;
    assert WorkInv(own, BudgetOf(db, own), OperationsOf(db.operations, own));
    OperationsOfMembers(db.operations, own);
    assert db.operations[i] in OperationsOf(db.operations, own);
    var b := db.budgets[own];
    var b' := if fence then b.(authority := Fenced) else b;
    var db' := SetOperation(if fence then SetBudget(db, own, b') else db, i, op);
    forall w ensures WorkInv(w, BudgetOf(db', w), OperationsOf(db'.operations, w)) {
      assert WorkInv(w, BudgetOf(db, w), OperationsOf(db.operations, w));
      var j := OperationsOfUpdate(db.operations, i, op, w);
      if w == own {
        RowTouch(w, b, b', OperationsOf(db.operations, w), j, op);
      }
    }
  }

  /** Recovery acts row by row on the rows of each Work. */
  lemma {:induction false} RecoveredSelection(ops: seq<Operation>, workId: string)
    ensures OperationsOf(RecoveredRows(ops), workId) == RecoveredRows(OperationsOf(ops, workId))
  {
    if ops != [] {
      var n := |ops| - 1;
      RecoveredSelection(ops[..n], workId);
      assert RecoveredRows(ops)[..n] == RecoveredRows(ops[..n]);
    }
  }

  lemma {:induction false} SlotsRecovered(ops: seq<Operation>, phase: Phase)
    ensures Slots(RecoveredRows(ops), phase) == Slots(ops, phase)
  {
    if ops != [] {
      var n := |ops| - 1;
      SlotsRecovered(ops[..n], phase);
      assert RecoveredRows(ops)[..n] == RecoveredRows(ops[..n]);
    }
  }

  lemma RowRecovered(b: Budget, b': Budget, plan: Plan, workId: string, op: Operation)
    requires RowInv(b, plan, workId, op)
    requires b' == b || b' == b.(authority := Fenced)
    requires Unresolved(op) ==> b'.authority.Fenced?
    ensures RowInv(b', plan, workId, Recovered(op))
  {
  }

  lemma RowsRecovered(b: Budget, b': Budget, plan: Plan, workId: string, ops: seq<Operation>)
    requires forall op <- ops :: RowInv(b, plan, workId, op)
    requires b' == if exists op <- ops :: Unresolved(op) then b.(authority := Fenced) else b
    ensures forall op <- RecoveredRows(ops) :: RowInv(b', plan, workId, op)
  {
    forall op | op in RecoveredRows(ops) ensures RowInv(b', plan, workId, op) {
      var k :| 0 <= k < |ops| && RecoveredRows(ops)[k] == op;
      assert ops[k] in ops;
      RowRecovered(b, b', plan, workId, ops[k]);
    }
  }

  lemma PairsRecovered(ops: seq<Operation>)
    requires AtMostOneUnresolved(ops) && OneCompletionAttempt(ops)
    ensures AtMostOneUnresolved(RecoveredRows(ops)) && OneCompletionAttempt(RecoveredRows(ops))
  {
  }

  lemma WorkRecovered(workId: string, b: Budget, b': Budget, ops: seq<Operation>)
    requires WorkInv(workId, Some(b), ops)
    requires b' == if exists op <- ops :: Unresolved(op) then b.(authority := Fenced) else b
    ensures WorkInv(workId, Some(b'), RecoveredRows(ops))
  {
    if b.plan.Some? {
      SlotsRecovered(ops, Productive);
      SlotsRecovered(ops, Completion);
      RowsRecovered(b, b', b.plan.value, workId, ops);
      PairsRecovered(ops);
      if b.phase.Completion? {
        ProductiveStays(ops, RecoveredRows(ops), b, b');
      }
    }
  }

  lemma RecoverUnknownInv(db: Db)
    requires Inv(db)
    ensures Inv(RecoverUnknown(db))
  {
    var db' := RecoverUnknown(db);
    forall w ensures WorkInv(w, BudgetOf(db', w), OperationsOf(db'.operations, w)) {
      assert WorkInv(w, BudgetOf(db, w), OperationsOf(db.operations, w));
      RecoveredSelection(db.operations, w);
      if w in db.budgets {
        OperationsOfMembers(db.operations, w);
        WorkRecovered(w, db.budgets[w], db'.budgets[w], OperationsOf(db.operations, w));
      }
    }
  }

  /** A fresh budget, with no rows yet. */
  lemma WorkInitial(workId: string, b: Budget, now: int)
    requires ValidateBudget(workId, b.workGeneration, b.requestId, b.workOrderId, b.ceiling, b.deadline, b.plan,
               now).None?
    requires !b.cancelled && b.writer.None? && b.authority.Prepared? && b.phase.Productive?
    ensures WorkInv(workId, Some(b), [])
  {
  }

  lemma NextGenerationInv(db: Db, workId: string, b': Budget)
    requires Inv(db) && workId in db.budgets && !db.budgets[workId].cancelled && !HasUnresolved(db.operations, workId)
    requires var b := db.budgets[workId];
             && b'.workGeneration > b.workGeneration
             && b' == b.(workGeneration := b'.workGeneration, requestId := b'.requestId, workOrderId := b'.workOrderId,
                         deadline := b'.deadline, authority := Prepared, writer := None, phase := Productive)
    ensures Inv(SetBudget(db, workId, b'))
  {
    var rows := OperationsOf(db.operations, workId);
    assert WorkInv(workId, BudgetOf(db, workId), rows);
    OperationsOfMembers(db.operations, workId);
    WorkNextGeneration(workId, db.budgets[workId], b', rows);
    SetBudgetInv(db, workId, b');
  }

  lemma CreateBudgetInv(db: Db, workId: string, generation: int, requestId: string, workOrderId: string,
                        ceiling: int, deadline: Stamp, plan: Option<Plan>, now: int)
    requires Inv(db)
    ensures Inv(CreateBudget(db, workId, generation, requestId, workOrderId, ceiling, deadline, plan, now).db)
  {
    var step := CreateBudget(db, workId, generation, requestId, workOrderId, ceiling, deadline, plan, now);
    if step.db != db {
      var b' := step.db.budgets[workId];
      if workId in db.budgets {
        NextGenerationInv(db, workId, b');
      } else {
        assert WorkInv(workId, BudgetOf(db, workId), OperationsOf(db.operations, workId));
        WorkInitial(workId, b', now);
        SetBudgetInv(db, workId, b');
      }
    }
  }

  lemma ReserveKeepsWork(db: Db, input: Reservation, now: int, w: string)
    requires Inv(db) && Reserve(db, input, now).out.Done?
    ensures WorkInv(w, BudgetOf(db, w), OperationsOf(db.operations + [Fresh(input)], w))
  {
    assert WorkInv(w, BudgetOf(db, w), OperationsOf(db.operations, w));
    OperationsOfAppend(db.operations, Fresh(input), w);
    if w == input.binding.workId {
      WorkReserve(w, db.budgets[w], OperationsOf(db.operations, w), input, now);
    } else {
      assert OperationsOf(db.operations, w) + [] == OperationsOf(db.operations, w);
    }
  }

  lemma ReserveInv(db: Db, input: Reservation, now: int)
    requires Inv(db)
    ensures Inv(Reserve(db, input, now).db)
  {
    if Reserve(db, input, now).out.Done? {
      forall w ensures WorkInv(w, BudgetOf(db, w), OperationsOf(db.operations + [Fresh(input)], w)) {
        ReserveKeepsWork(db, input, now, w);
      }
    }
  }

  lemma BindInv(db: Db, binding: Binding, now: int)
    requires Inv(db)
    ensures Inv(BindAuthority(db, binding, now).db)
  {
    var w, db' := binding.workId, BindAuthority(db, binding, now).db;
    assert WorkInv(w, BudgetOf(db, w), OperationsOf(db.operations, w));
    if db' != db {
      WorkBind(w, db.budgets[w], OperationsOf(db.operations, w), binding, now);
      SetBudgetInv(db, w, db'.budgets[w]);
    }
  }

  lemma BeginCompletionInv(db: Db, binding: Binding, now: int)
    requires Inv(db)
    ensures Inv(BeginCompletion(db, binding, now).db)
  {
    var w, db' := binding.workId, BeginCompletion(db, binding, now).db;
    assert WorkInv(w, BudgetOf(db, w), OperationsOf(db.operations, w));
    if db' != db {
      WorkBeginCompletion(w, db.budgets[w], OperationsOf(db.operations, w), binding, now);
      SetBudgetInv(db, w, db'.budgets[w]);
    }
  }

  lemma MarkDispatchedInv(db: Db, id: string, now: int)
    requires Inv(db)
    ensures Inv(MarkDispatched(db, id, now).db)
  {
    var i := IndexOf(db.operations, id);
    if MarkDispatched(db, id, now).out.Done? {
      OneRowInv(db, i, db.operations[i].(state := Dispatched), false);
    }
  }

  lemma SettleInv(db: Db, id: string, actual: int, receipt: string, usage: Usage)
    requires Inv(db)
    ensures Inv(Settle(db, id, actual, receipt, usage).db)
  {
    var step := Settle(db, id, actual, receipt, usage);
    if step.out.Done? {
      var i := IndexOf(db.operations, id);
      OneRowInv(db, i, step.db.operations[i], false);
    }
  }

  lemma ReleaseInv(db: Db, id: string)
    requires Inv(db)
    ensures Inv(ReleaseUndispatched(db, id).db)
  {
    var i := IndexOf(db.operations, id);
    if ReleaseUndispatched(db, id).out.Done? {
      OneRowInv(db, i, db.operations[i].(state := Released), false);
    }
  }

  lemma MarkUnknownInv(db: Db, id: string)
    requires Inv(db)
    ensures Inv(MarkUnknown(db, id).db)
  {
    var i := IndexOf(db.operations, id);
    if i < |db.operations| && Unresolved(db.operations[i]) {
      OneRowInv(db, i, db.operations[i].(state := Unknown), true);
    }
  }

  /** Every transaction, committed or rolled back, keeps the invariant. */
  lemma ApplyInv(db: Db, call: Call, now: int)
    requires Inv(db)
    ensures Inv(Apply(db, call, now))
  {
    match call
    case CallCreateBudget(w, g, r, o, c, d, p) => CreateBudgetInv(db, w, g, r, o, c, d, p, now);
    case CallBindAuthority(b) => BindInv(db, b, now);
    case CallBeginCompletion(b) => BeginCompletionInv(db, b, now);
    case CallFenceAuthority(b) => FenceInv(db, b.workId, FenceAuthority(db, b).db);
    case CallCancelBound(b) => FenceInv(db, b.workId, CancelBound(db, b).db);
    case CallCancel(w) => FenceInv(db, w, Cancel(db, w).db);
    case CallReserve(input) => ReserveInv(db, input, now);
    case CallMarkDispatched(id) => MarkDispatchedInv(db, id, now);
    case CallSettle(id, actual, receipt, usage) => SettleInv(db, id, actual, receipt, usage);
    case CallRelease(id) => ReleaseInv(db, id);
    case CallMarkUnknown(id) => MarkUnknownInv(db, id);
    case CallRecoverUnknown => RecoverUnknownInv(db);
  }

  lemma FenceInv(db: Db, workId: string, db': Db)
    requires Inv(db)
    requires db' == db ||
             (workId in db.budgets &&
              exists c: bool :: db' == SetBudget(db, workId, db.budgets[workId].(authority := Fenced, cancelled := c)))
    ensures Inv(db')
  {
    if db' != db {
      assert WorkInv(workId, BudgetOf(db, workId), OperationsOf(db.operations, workId));
      BudgetTouch(workId, db.budgets[workId], db'.budgets[workId], OperationsOf(db.operations, workId));
      SetBudgetInv(db, workId, db'.budgets[workId]);
    }
  }

  /** `SetOperationInv` for a row whose recorded amount comes with its state. */
  lemma OneRowInv(db: Db, i: nat, op: Operation, fence: bool)
    requires Inv(db) && i < |db.operations| && Unresolved(db.operations[i])
    requires op == db.operations[i].(actual := op.actual, providerRequestId := op.providerRequestId, usage := op.usage,
               state := op.state)
    requires op.state.Settled? ==> op.actual.Some? && 0 <= op.actual.value <= op.reserved
    requires !op.state.Settled? ==> op.actual == db.operations[i].actual
    requires op.state.Unknown? ==> fence
    ensures op.binding.workId in db.budgets
    ensures var b := db.budgets[op.binding.workId];
            Inv(SetOperation(if fence then SetBudget(db, op.binding.workId, b.(authority := Fenced)) else db, i, op))
  {
    RowOf(db, i);
    SetOperationInv(db, i, op, fence);
  }

  /** Every row of the table satisfies the row invariant of its own Work. */
  lemma RowOf(db: Db, i: nat)
    requires Inv(db) && i < |db.operations|
    ensures var op := db.operations[i];
            && op.binding.workId in db.budgets && db.budgets[op.binding.workId].plan.Some?
            && RowInv(db.budgets[op.binding.workId], db.budgets[op.binding.workId].plan.value, op.binding.workId, op)
  {
    var op := db.operations[i];
    assert WorkInv(op.binding.workId, BudgetOf(db, op.binding.workId), OperationsOf(db.operations, op.binding.workId));
    OperationsOfMembers(db.operations, op.binding.workId);
    assert op in OperationsOf(db.operations, op.binding.workId);
  }

  // ---------------------------------------------------------------- other Works

  /** The Work of the row with this key, if there is one. */
  predicate RowOfWork(db: Db, operationId: string, w: string) {
    var i := IndexOf(db.operations, operationId);
    i < |db.operations| && db.operations[i].binding.workId == w
  }

  /** The Work a call is about; recovery is about all of them. */
  predicate Concerns(db: Db, call: Call, w: string) {
    match call
    case CallCreateBudget(workId, _, _, _, _, _, _) => w == workId
    case CallBindAuthority(binding) => w == binding.workId
    case CallBeginCompletion(binding) => w == binding.workId
    case CallFenceAuthority(binding) => w == binding.workId
    case CallCancelBound(binding) => w == binding.workId
    case CallCancel(workId) => w == workId
    case CallReserve(input) => w == input.binding.workId
    case CallMarkDispatched(id) => RowOfWork(db, id, w)
    case CallSettle(id, _, _, _) => RowOfWork(db, id, w)
    case CallRelease(id) => RowOfWork(db, id, w)
    case CallMarkUnknown(id) => RowOfWork(db, id, w)
    case CallRecoverUnknown => true
  }

  predicate SameWork(db: Db, db': Db, w: string) {
    BudgetOf(db', w) == BudgetOf(db, w) && OperationsOf(db'.operations, w) == OperationsOf(db.operations, w)
  }

  /** The call leaves budget and rows of every Work it is not about as they were. */
  ghost predicate Isolated(db: Db, call: Call, db': Db) {
    forall w | !Concerns(db, call, w) :: SameWork(db, db', w)
  }

  lemma OneRowSameWork(db: Db, i: nat, op: Operation, db': Db, w: string)
    requires i < |db.operations| && op.binding == db.operations[i].binding && op.binding.workId != w
    requires db'.operations == db.operations[i := op] && BudgetOf(db', w) == BudgetOf(db, w)
    ensures SameWork(db, db', w)
  {
    var j := OperationsOfUpdate(db.operations, i, op, w);
  }

  lemma ResolveSameWork(db: Db, call: Call, now: int, w: string)
    requires call.CallMarkDispatched? || call.CallSettle? || call.CallRelease? || call.CallMarkUnknown?
    requires !Concerns(db, call, w)
    ensures SameWork(db, Apply(db, call, now), w)
  {
    var i, db' := IndexOf(db.operations, call.operationId), Apply(db, call, now);
    if db' != db {
      OneRowSameWork(db, i, db'.operations[i], db', w);
    }
  }

  lemma ReserveSameWork(db: Db, input: Reservation, now: int, w: string)
    requires w != input.binding.workId
    ensures SameWork(db, Reserve(db, input, now).db, w)
  {
    OperationsOfAppend(db.operations, Fresh(input), w);
    assert OperationsOf(db.operations, w) + [] == OperationsOf(db.operations, w);
  }

  /** A transaction touches no Work but its own. */
  lemma ApplyIsolated(db: Db, call: Call, now: int)
    ensures Isolated(db, call, Apply(db, call, now))
  {
    forall w | !Concerns(db, call, w) ensures SameWork(db, Apply(db, call, now), w) {
      match call
      case CallReserve(input) => ReserveSameWork(db, input, now, w);
      case CallMarkDispatched(_) => ResolveSameWork(db, call, now, w);
      case CallSettle(_, _, _, _) => ResolveSameWork(db, call, now, w);
      case CallRelease(_) => ResolveSameWork(db, call, now, w);
      case CallMarkUnknown(_) => ResolveSameWork(db, call, now, w);
      case _ =>
    }
  }

  /** What every transaction owes the tables: the invariant, and the other Works as they were. */
  ghost predicate Kept(db: Db, call: Call, db': Db) {
    (Inv(db) ==> Inv(db')) && Isolated(db, call, db')
  }

  lemma ApplyKept(db: Db, call: Call, now: int)
    ensures Kept(db, call, Apply(db, call, now))
  {
    ApplyIsolated(db, call, now);
    if Inv(db) {
      ApplyInv(db, call, now);
    }
  }

  /** The invariant holds after every history, from the empty database. */
  lemma {:induction false} RunInv(history: seq<Tx>)
    ensures Inv(Run(EMPTY, history))
  {
    if history != [] {
      var n := |history| - 1;
      RunInv(history[..n]);
      ApplyInv(Run(EMPTY, history[..n]), history[n].call, history[n].now);
    }
  }
}
