/**
 The repair chain and the Work ledger together. A repair round reaches the ledger only through its one recorded
 preparation, so what all rounds of a chain expose stays inside the limits the owner approved first.
 */
module RepairSpend {
  import opened Primitives
  import opened SpendPolicy
  import S = SpendTransactions
  import SpendSafety
  import SpendTheorems
  import R = RepairTransactions
  import RepairTheorems

  datatype World = World(store: R.Store, db: S.Db)

  /** What the qualified price adds to a recorded contract. */
  datatype Quote = Quote(model: string, validUntil: Stamp, perOperation: int)

  datatype Event =
    | Lifecycle(call: R.Call)                     // review, proposal, approval, preparation
    | Fund(order: string, quote: Quote)           // the ledger half of a preparation, or of its replay
    | Ledger(paid: S.Call)                        // any other ledger transaction

  function PlanOf(contract: Option<R.Contract>, quote: Quote): Option<Plan> {
    match contract
    case None => None
    case Some(c) =>
      Some(Plan("WORK_LEDGER_V2", c.pricingRevision, quote.model, quote.validUntil, quote.perOperation,
                c.productive, c.completion, c.maxPaid, c.reserve))
  }

  /** The Work budget is created from the recorded request: its ceiling is the spend rounded down. */
  function FundBudget(w: World, order: string, quote: Quote, now: int): S.Db {
    match R.PrepareOf(w.store, order)
    case None => w.db
    case Some(p) =>
      S.CreateBudget(w.db, p.workId, p.generation, p.requestId, order, p.spend.Floor, p.deadline,
                     PlanOf(p.contract, quote), now).db
  }

  function Next(w: World, e: Event, now: int): World {
    match e
    case Lifecycle(call) => w.(store := R.Apply(w.store, call, now))
    case Fund(order, quote) => w.(db := FundBudget(w, order, quote, now))
    case Ledger(call) => if call.CallCreateBudget? then w else w.(db := S.Apply(w.db, call, now))
  }

  datatype Moment = Moment(event: Event, now: int)

  function Execute(history: seq<Moment>): World {
    if history == [] then World(R.EMPTY, S.EMPTY)
    else
      var last := history[|history| - 1];
      Next(Execute(history[..|history| - 1]), last.event, last.now)
  }

  // ---------------------------------------------------------------- what the composition keeps

  /** The budget of this Work carries exactly the money and slots of the preparation of this WorkOrder. */
  predicate Backed(w: World, workId: string, order: string) {
    && workId in w.db.budgets
    && R.PrepareOf(w.store, order).Some?
    && var p, b := R.PrepareOf(w.store, order).value, w.db.budgets[workId];
       && p.workId == workId && b.ceiling == p.spend.Floor
       && (b.plan.Some? <==> p.contract.Some?)
       && (b.plan.Some? ==> b.plan.value.maxPaid == p.contract.value.maxPaid)
  }

  /** A repair was prepared inside the round its owner approved. */
  predicate WithinRound(s: R.Store, order: string) {
    var link, prepare := R.LinkOf(s, order), R.PrepareOf(s, order);
    link.Some? && prepare.Some? ==>
      var round := link.value.policy.round;
      && prepare.value.contract.Some?
      && prepare.value.contract.value.maxPaid == round.productive + 1
      && R.RoundUsd(prepare.value.spend) <= round.budget
      && prepare.value.deadline.millis.Some? && prepare.value.deadline.millis.value <= link.value.deadline
  }

  ghost predicate WorldInv(w: World) {
    && RepairTheorems.ChainInv(w.store)
    && SpendSafety.Inv(w.db)
    && (forall order :: WithinRound(w.store, order))
    && (forall workId <- w.db.budgets :: Backed(w, workId, w.db.budgets[workId].workOrderId))
    && (forall op <- w.db.operations :: Backed(w, op.binding.workId, op.binding.workOrderId))
  }

  // ---------------------------------------------------------------- the store only grows

  lemma {:induction false} EventsOfPrefix(log: seq<R.Entry>, more: seq<R.Entry>, id: string)
    ensures R.EventsOf(log, id) <= R.EventsOf(log + more, id)
  {
    if more == [] {
      assert log + more == log;
    } else {
      var n := |more| - 1;
      EventsOfPrefix(log, more[..n], id);
      assert (log + more)[..|log| + n] == log + more[..n];
    }
  }

  lemma {:induction false} PrepareInPrefix(events: seq<R.Event>, events': seq<R.Event>)
    requires events <= events' && R.PrepareIn(events).Some?
    ensures R.PrepareIn(events') == R.PrepareIn(events)
  {
    if !events[0].PrepareRequested? {
      PrepareInPrefix(events[1..], events'[1..]);
    }
  }

  lemma PreparationIsFixed(s: R.Store, s': R.Store, id: string)
    requires s.log <= s'.log && R.PrepareOf(s, id).Some?
    ensures R.PrepareOf(s', id) == R.PrepareOf(s, id)
  {
    EventsOfPrefix(s.log, s'.log[|s.log|..], id);
    assert s.log + s'.log[|s.log|..] == s'.log;
    PrepareInPrefix(R.EventsOf(s.log, id), R.EventsOf(s'.log, id));
  }

  lemma {:induction false} PrepareInAppend(events: seq<R.Event>, e: R.Event)
    ensures R.PrepareIn(events + [e]) ==
            if R.PrepareIn(events).Some? then R.PrepareIn(events)
            else if e.PrepareRequested? then Some(e.prepare) else None
  {
    if events != [] {
      PrepareInAppend(events[1..], e);
      assert (events + [e])[1..] == events[1..] + [e];
    }
  }

  /** The round limits of a WorkOrder after one more event. */
  lemma EmitWithinRound(s: R.Store, s': R.Store, order: string, event: R.Event, id: string)
    requires s'.log == R.Emit(s, order, event).log
    requires WithinRound(s, id)
    requires event.PrepareRequested? || event.Linked? ==> order == id ==> WithinRound(s', id)
    ensures WithinRound(s', id)
  {
    RepairTheorems.EmitReadings(s, order, event, id);
    RepairTheorems.EventsOfEmit(s, order, event, id);
    assert R.EventsOf(s'.log, id) == R.EventsOf(R.Emit(s, order, event).log, id);
    if id == order {
      PrepareInAppend(R.EventsOf(s.log, id), event);
    } else {
      assert R.EventsOf(s.log, id) + [] == R.EventsOf(s.log, id);
    }
  }

  lemma ClaimWithinRound(s: R.Store, id: string, input: R.Prepare, now: int, sameWork: bool, untouched: bool)
    requires R.ClaimRepairPreparation(s, id, input, now, sameWork, untouched).store != s
    ensures WithinRound(R.ClaimRepairPreparation(s, id, input, now, sameWork, untouched).store, id)
  {
    var s' := R.ClaimRepairPreparation(s, id, input, now, sameWork, untouched).store;
    RepairTheorems.EmitReadings(s.(orders := s'.orders), id, R.PrepareRequested(input), id);
    RepairTheorems.EventsOfEmit(s, id, R.PrepareRequested(input), id);
    PrepareInAppend(R.EventsOf(s.log, id), R.PrepareRequested(input));
  }

  lemma PlainWithinRound(s: R.Store, id: string, order: R.Order, input: R.Prepare)
    requires RepairTheorems.ChainInv(s) && id !in s.orders
    ensures WithinRound(R.PlainPreparation(s, id, order, input).store, id)
  {
    RepairTheorems.UnknownOrderIsEmpty(s.log, id);
    RepairTheorems.EmitReadings(s.(orders := s.orders[id := order]), id, R.PrepareRequested(input), id);
  }

  /** The child of an approval is linked but not yet prepared. */
  lemma ApprovedWithinRound(s: R.Store, s': R.Store, root: string, child: string, approval: R.Approval, id: string)
    requires RepairTheorems.ChainInv(s) && WithinRound(s, id) && child !in s.orders
    requires s'.log == R.Emit(R.Emit(s, child, R.Linked(approval.link)), root, R.Approved(approval)).log
    ensures WithinRound(s', id)
  {
    var mid := R.Emit(s, child, R.Linked(approval.link));
    RepairTheorems.UnknownOrderIsEmpty(s.log, child);
    RepairTheorems.EventsOfEmit(s, child, R.Linked(approval.link), child);
    PrepareInAppend([], R.Linked(approval.link));
    EmitWithinRound(s, mid, child, R.Linked(approval.link), id);
    EmitWithinRound(mid, s', root, R.Approved(approval), id);
  }

  lemma ApproveWithinRound(s: R.Store, root: string, proposalId: string, expected: R.Terms, owner: string, now: int,
                           genuine: bool, newId: string, childId: string, id: string)
    requires RepairTheorems.ChainInv(s) && WithinRound(s, id)
    ensures WithinRound(R.Approve(s, root, proposalId, expected, owner, now, genuine, newId, childId).store, id)
  {
    var s' := R.Approve(s, root, proposalId, expected, owner, now, genuine, newId, childId).store;
    if s' != s {
      var approval, terms :=
        RepairTheorems.ApprovalMade(s, root, proposalId, expected, owner, now, genuine, newId, childId);
      ApprovedWithinRound(s, s', root, childId, approval, id);
    }
  }

  lemma ObserveWithinRound(s: R.Store, value: R.Observation, checks: bool, id: string)
    requires WithinRound(s, id)
    ensures WithinRound(R.Observe(s, value, checks).store, id)
  {
    var s' := R.Observe(s, value, checks).store;
    if s' != s {
      EmitWithinRound(s, s', value.candidate.workOrderId, R.Observed(value), id);
    }
  }

  lemma ReviewWithinRound(s: R.Store, value: R.Review, checks: bool, action: bool, id: string)
    requires WithinRound(s, id)
    ensures WithinRound(R.RecordReview(s, value, checks, action).store, id)
  {
    var s' := R.RecordReview(s, value, checks, action).store;
    if s' != s {
      EmitWithinRound(s, s', value.candidate.workOrderId, R.Reviewed(value), id);
    }
  }

  lemma ProposeWithinRound(s: R.Store, order: string, reviewId: string, policy: R.Policy, now: int, genuine: bool,
                           newId: string, id: string)
    requires WithinRound(s, id)
    ensures WithinRound(R.Propose(s, order, reviewId, policy, now, genuine, newId).store, id)
  {
    var s' := R.Propose(s, order, reviewId, policy, now, genuine, newId).store;
    if s' != s {
      EmitWithinRound(s, s', R.RootOf(s, order), R.Proposed(R.Proposal(newId, R.TermsFor(s, order, policy))), id);
    }
  }

  lemma ClaimedWithinRound(s: R.Store, order: string, input: R.Prepare, now: int, sameWork: bool,
                           untouched: bool, id: string)
    requires WithinRound(s, id)
    ensures WithinRound(R.ClaimRepairPreparation(s, order, input, now, sameWork, untouched).store, id)
  {
    var s' := R.ClaimRepairPreparation(s, order, input, now, sameWork, untouched).store;
    if s' != s {
      ClaimWithinRound(s, order, input, now, sameWork, untouched);
      EmitWithinRound(s, s', order, R.PrepareRequested(input), id);
    }
  }

  lemma PreparedWithinRound(s: R.Store, order: string, fields: R.Order, input: R.Prepare, id: string)
    requires RepairTheorems.ChainInv(s) && WithinRound(s, id)
    ensures WithinRound(R.PlainPreparation(s, order, fields, input).store, id)
  {
    if order !in s.orders {
      PlainWithinRound(s, order, fields, input);
      EmitWithinRound(s, R.PlainPreparation(s, order, fields, input).store, order, R.PrepareRequested(input), id);
    }
  }

  lemma StoreWithinRound(s: R.Store, call: R.Call, now: int, id: string)
    requires RepairTheorems.ChainInv(s) && WithinRound(s, id)
    ensures WithinRound(R.Apply(s, call, now), id)
  {
    match call
    case CallObserve(value, checks) => ObserveWithinRound(s, value, checks, id);
    case CallReview(value, checks, action) => ReviewWithinRound(s, value, checks, action, id);
    case CallPropose(order, reviewId, policy, genuine, newId) =>
      ProposeWithinRound(s, order, reviewId, policy, now, genuine, newId, id);
    case CallApprove(root, proposalId, expected, owner, genuine, newId, childId) =>
      ApproveWithinRound(s, root, proposalId, expected, owner, now, genuine, newId, childId, id);
    case CallClaim(order, input, sameWork, untouched) =>
      ClaimedWithinRound(s, order, input, now, sameWork, untouched, id);
    case CallPrepare(order, fields, input) => PreparedWithinRound(s, order, fields, input, id);
    case CallCreate(order, fields) =>
    case CallHold(order) =>
      if order in s.orders {
        EmitWithinRound(s, R.Emit(s, order, R.Held), order, R.Held, id);
      }
  }

  lemma StoreGrows(s: R.Store, call: R.Call, now: int)
    ensures s.log <= R.Apply(s, call, now).log
  {
    match call
    case CallApprove(root, proposalId, expected, owner, genuine, newId, childId) =>
      RepairTheorems.ApproveIsQuiet(s, root, proposalId, expected, owner, now, genuine, newId, childId);
    case CallPropose(id, reviewId, policy, genuine, newId) =>
      RepairTheorems.ProposeIsQuiet(s, id, reviewId, policy, now, genuine, newId);
    case CallClaim(id, input, sameWork, untouched) =>
      RepairTheorems.ClaimIsQuiet(s, id, input, now, sameWork, untouched);
    case _ =>
  }

  // ---------------------------------------------------------------- one event

  lemma LifecycleKeeps(w: World, call: R.Call, now: int)
    requires WorldInv(w)
    ensures WorldInv(Next(w, Lifecycle(call), now))
  {
    var w' := Next(w, Lifecycle(call), now);
    RepairTheorems.ApplyKeeps(w.store, call, now);
    StoreGrows(w.store, call, now);
    forall order ensures WithinRound(w'.store, order) {
      StoreWithinRound(w.store, call, now, order);
    }
    forall workId, order | Backed(w, workId, order) ensures Backed(w', workId, order) {
      PreparationIsFixed(w.store, w'.store, order);
    }
  }

  /** What creating a budget does to every Work's money and WorkOrder. */
  lemma BudgetFunded(db: S.Db, workId: string, generation: int, requestId: string, order: string, ceiling: int,
                     deadline: Stamp, plan: Option<Plan>, now: int, w: string)
    ensures var db' := S.CreateBudget(db, workId, generation, requestId, order, ceiling, deadline, plan, now).db;
            && db'.operations == db.operations
            && (db' == db ||
                (if w == workId
                 then w in db'.budgets && db'.budgets[w].workOrderId == order && db'.budgets[w].ceiling == ceiling
                      && db'.budgets[w].plan == plan
                      && (w in db.budgets ==> db.budgets[w].ceiling == ceiling && db.budgets[w].plan == plan)
                 else S.BudgetOf(db', w) == S.BudgetOf(db, w)))
  {
  }

  /** A Work that a preparation backs stays backed when that or another budget is created from a preparation. */
  lemma BackedFunded(w: World, order: string, quote: Quote, now: int, workId: string, other: string)
    requires Backed(w, workId, other)
    ensures Backed(Next(w, Fund(order, quote), now), workId, other)
  {
    if R.PrepareOf(w.store, order).Some? {
      var p := R.PrepareOf(w.store, order).value;
      BudgetFunded(w.db, p.workId, p.generation, p.requestId, order, p.spend.Floor, p.deadline,
                   PlanOf(p.contract, quote), now, workId);
    }
  }

  lemma BudgetBacked(w: World, order: string, quote: Quote, now: int, workId: string)
    requires WorldInv(w) && workId in Next(w, Fund(order, quote), now).db.budgets
    ensures var w' := Next(w, Fund(order, quote), now); Backed(w', workId, w'.db.budgets[workId].workOrderId)
  {
    if R.PrepareOf(w.store, order).Some? {
      var p := R.PrepareOf(w.store, order).value;
      BudgetFunded(w.db, p.workId, p.generation, p.requestId, order, p.spend.Floor, p.deadline,
                   PlanOf(p.contract, quote), now, workId);
    }
    if workId in w.db.budgets {
      BackedFunded(w, order, quote, now, workId, w.db.budgets[workId].workOrderId);
    }
  }

  lemma FundInv(w: World, order: string, quote: Quote, now: int)
    requires SpendSafety.Inv(w.db)
    ensures SpendSafety.Inv(FundBudget(w, order, quote, now))
            && FundBudget(w, order, quote, now).operations == w.db.operations
  {
    if R.PrepareOf(w.store, order).Some? {
      var p := R.PrepareOf(w.store, order).value;
      SpendSafety.CreateBudgetInv(w.db, p.workId, p.generation, p.requestId, order, p.spend.Floor, p.deadline,
                                  PlanOf(p.contract, quote), now);
    }
  }

  lemma FundKeeps(w: World, order: string, quote: Quote, now: int)
    requires WorldInv(w)
    ensures WorldInv(Next(w, Fund(order, quote), now))
  {
    var w' := Next(w, Fund(order, quote), now);
    FundInv(w, order, quote, now);
    forall workId | workId in w'.db.budgets ensures Backed(w', workId, w'.db.budgets[workId].workOrderId) {
      BudgetBacked(w, order, quote, now, workId);
    }
    forall op | op in w'.db.operations ensures Backed(w', op.binding.workId, op.binding.workOrderId) {
      BackedFunded(w, order, quote, now, op.binding.workId, op.binding.workOrderId);
    }
  }

  /** A ledger call other than budget creation keeps each Work's money and WorkOrder. */
  lemma LedgerBudget(db: S.Db, call: S.Call, now: int, w: string)
    requires !call.CallCreateBudget?
    ensures var db' := S.Apply(db, call, now);
            && (w in db'.budgets <==> w in db.budgets)
            && (w in db.budgets ==>
                  db'.budgets[w].ceiling == db.budgets[w].ceiling && db'.budgets[w].plan == db.budgets[w].plan
                  && db'.budgets[w].workOrderId == db.budgets[w].workOrderId)
  {
  }

  /** It keeps every row's binding, and adds a row only under the Work's current WorkOrder. */
  lemma LedgerRow(db: S.Db, call: S.Call, now: int, i: nat)
    requires i < |S.Apply(db, call, now).operations|
    ensures var binding := S.Apply(db, call, now).operations[i].binding;
            if i < |db.operations| then binding == db.operations[i].binding
            else binding.workId in db.budgets && db.budgets[binding.workId].workOrderId == binding.workOrderId
  {
  }

  lemma BackedLedger(w: World, call: S.Call, now: int, workId: string, order: string)
    requires !call.CallCreateBudget? && Backed(w, workId, order)
    ensures Backed(Next(w, Ledger(call), now), workId, order)
  {
    LedgerBudget(w.db, call, now, workId);
  }

  lemma LedgerKeeps(w: World, call: S.Call, now: int)
    requires WorldInv(w) && !call.CallCreateBudget?
    ensures WorldInv(Next(w, Ledger(call), now))
  {
    var w' := Next(w, Ledger(call), now);
    SpendSafety.ApplyInv(w.db, call, now);
    forall workId | workId in w'.db.budgets ensures Backed(w', workId, w'.db.budgets[workId].workOrderId) {
      LedgerBudget(w.db, call, now, workId);
      BackedLedger(w, call, now, workId, w.db.budgets[workId].workOrderId);
    }
    forall op | op in w'.db.operations ensures Backed(w', op.binding.workId, op.binding.workOrderId) {
      var i :| 0 <= i < |w'.db.operations| && w'.db.operations[i] == op;
      LedgerRow(w.db, call, now, i);
      if i < |w.db.operations| {
        assert w.db.operations[i] in w.db.operations;
      }
      BackedLedger(w, call, now, op.binding.workId, op.binding.workOrderId);
    }
  }

  lemma {:induction false} ExecuteKeeps(history: seq<Moment>)
    ensures WorldInv(Execute(history))
  {
    if history != [] {
      var n := |history| - 1;
      ExecuteKeeps(history[..n]);
      var w, m := Execute(history[..n]), history[n];
      match m.event
      case Lifecycle(call) => LifecycleKeeps(w, call, m.now);
      case Fund(order, quote) => FundKeeps(w, order, quote, m.now);
      case Ledger(call) => if !call.CallCreateBudget? { LedgerKeeps(w, call, m.now); }
    }
  }

  // ---------------------------------------------------------------- summing over a chain

  predicate For(op: Operation, orders: seq<string>) {
    op.binding.workOrderId in orders
  }

  /** What the operations reserved for these WorkOrders expose, and how many they are. */
  function ExposureFor(ops: seq<Operation>, orders: seq<string>): int {
    if ops == [] then 0
    else
      var last := ops[|ops| - 1];
      ExposureFor(ops[..|ops| - 1], orders) + if For(last, orders) then Exposure(last) else 0
  }

  function CountFor(ops: seq<Operation>, orders: seq<string>): nat {
    if ops == [] then 0
    else CountFor(ops[..|ops| - 1], orders) + if For(ops[|ops| - 1], orders) then 1 else 0
  }

  function Children(approvals: seq<R.Approval>): seq<string> {
    if approvals == [] then [] else Children(approvals[..|approvals| - 1]) + [approvals[|approvals| - 1].workOrderId]
  }

  lemma {:induction false} SplitLast(ops: seq<Operation>, orders: seq<string>, order: string)
    requires forall op <- ops :: Exposure(op) >= 0
    ensures ExposureFor(ops, orders + [order]) <= ExposureFor(ops, orders) + ExposureFor(ops, [order])
    ensures CountFor(ops, orders + [order]) <= CountFor(ops, orders) + CountFor(ops, [order])
  {
    if ops != [] {
      SplitLast(ops[..|ops| - 1], orders, order);
      assert ops[|ops| - 1] in ops;
    }
  }

  /** Rows of one WorkOrder that all belong to one Work are some of that Work's rows. */
  lemma {:induction false} PartOfWork(ops: seq<Operation>, order: string, workId: string)
    requires forall op <- ops :: Exposure(op) >= 0 && (For(op, [order]) ==> op.binding.workId == workId)
    ensures ExposureFor(ops, [order]) <= TotalExposed(S.OperationsOf(ops, workId))
    ensures CountFor(ops, [order]) <= |S.OperationsOf(ops, workId)|
  {
    if ops != [] {
      var init, last := ops[..|ops| - 1], ops[|ops| - 1];
      PartOfWork(init, order, workId);
      assert last in ops;
      var rows := S.OperationsOf(init, workId);
      assert (rows + [last])[..|rows|] == rows && rows + [] == rows;
    }
  }

  lemma {:induction false} NoneFor(ops: seq<Operation>, order: string)
    requires forall op <- ops :: !For(op, [order])
    ensures ExposureFor(ops, [order]) == 0 && CountFor(ops, [order]) == 0
  {
    if ops != [] {
      assert ops[|ops| - 1] in ops;
      NoneFor(ops[..|ops| - 1], order);
    }
  }

  lemma RowExposures(w: World)
    requires WorldInv(w)
    ensures forall op <- w.db.operations :: Exposure(op) >= 0
  {
    forall op | op in w.db.operations ensures Exposure(op) >= 0 {
      var i :| 0 <= i < |w.db.operations| && w.db.operations[i] == op;
      SpendSafety.RowOf(w.db, i);
      var own := op.binding.workId;
      assert SpendSafety.WorkInv(own, S.BudgetOf(w.db, own), S.OperationsOf(w.db.operations, own));
    }
  }

  lemma WorkTotals(db: S.Db, workId: string)
    requires SpendSafety.Inv(db) && SpendTheorems.Planned(db, workId)
    ensures var b, ops := db.budgets[workId], S.OperationsOf(db.operations, workId);
            TotalExposed(ops) <= b.ceiling && |ops| <= b.plan.value.maxPaid
  {
    var b, ops := db.budgets[workId], S.OperationsOf(db.operations, workId);
    assert SpendSafety.WorkInv(workId, S.BudgetOf(db, workId), ops);
    SpendTheorems.RowBounds(workId, b, ops);
    SpendTheorems.PhaseHeadroom(workId, b, ops, Productive);
    SpendTheorems.PhaseHeadroom(workId, b, ops, Completion);
    SpendSafety.SlotsPartition(ops);
    SpendTheorems.ExposurePartition(ops);
  }

  /** One repair round exposes at most its own limits. */
  lemma OneRound(w: World, order: string)
    requires WorldInv(w) && R.LinkOf(w.store, order).Some?
    requires RepairTheorems.LinkHome(w.store, order)
    requires var round := R.LinkOf(w.store, order).value.policy.round; round.productive >= 1 && round.budget >= 1
    ensures var round := R.LinkOf(w.store, order).value.policy.round;
            && ExposureFor(w.db.operations, [order]) <= round.budget
            && CountFor(w.db.operations, [order]) <= round.productive + 1
  {
    RowExposures(w);
    if op :| op in w.db.operations && For(op, [order]) {
      var workId := op.binding.workId;
      assert Backed(w, workId, order) && WithinRound(w.store, order);
      forall o | o in w.db.operations && For(o, [order]) ensures o.binding.workId == workId {
        assert Backed(w, o.binding.workId, order);
      }
      PartOfWork(w.db.operations, order, workId);
      WorkTotals(w.db, workId);
    } else {
      NoneFor(w.db.operations, order);
    }
  }

  lemma {:induction false} NoOrders(ops: seq<Operation>)
    ensures ExposureFor(ops, []) == 0 && CountFor(ops, []) == 0
  {
    if ops != [] {
      NoOrders(ops[..|ops| - 1]);
    }
  }

  /** Limits that hold for each child hold, multiplied, for all. */
  lemma {:induction false} RoundsSum(ops: seq<Operation>, approvals: seq<R.Approval>, operations: nat, microusd: nat)
    requires forall op <- ops :: Exposure(op) >= 0
    requires forall a <- approvals ::
               ExposureFor(ops, [a.workOrderId]) <= microusd && CountFor(ops, [a.workOrderId]) <= operations
    ensures ExposureFor(ops, Children(approvals)) <= |approvals| * microusd
    ensures CountFor(ops, Children(approvals)) <= |approvals| * operations
  {
    if approvals == [] {
      NoOrders(ops);
    } else {
      var n := |approvals| - 1;
      RoundsSum(ops, approvals[..n], operations, microusd);
      assert approvals[n] in approvals;
      SplitLast(ops, Children(approvals[..n]), approvals[n].workOrderId);
      OneMoreTimes(n, microusd);
      OneMoreTimes(n, operations);
    }
  }

  lemma OneMoreTimes(n: int, unit: int)
    ensures (n + 1) * unit == n * unit + unit
  {
  }

  /** Every approved round of a chain exposes at most the round the owner approved first. */
  lemma ChainRound(w: World, root: string, k: nat)
    requires WorldInv(w) && k < |R.ApprovalsOf(w.store, root)|
    ensures var approvals := R.ApprovalsOf(w.store, root); var round := approvals[0].link.policy.round;
            && ExposureFor(w.db.operations, [approvals[k].workOrderId]) <= round.budget
            && CountFor(w.db.operations, [approvals[k].workOrderId]) <= round.productive + 1
  {
    var approvals := R.ApprovalsOf(w.store, root);
    assert RepairTheorems.Chain(w.store, root, approvals);
    assert RepairTheorems.LinkFits(w.store, root, approvals, k);
    OneRound(w, approvals[k].workOrderId);
  }

  lemma ChainTotals(w: World, root: string)
    requires WorldInv(w) && R.ApprovalsOf(w.store, root) != []
    ensures var approvals := R.ApprovalsOf(w.store, root); var round := approvals[0].link.policy.round;
            && round.productive >= 1 && round.budget >= 1
            && ExposureFor(w.db.operations, Children(approvals)) <= |approvals| * round.budget
            && CountFor(w.db.operations, Children(approvals)) <= |approvals| * (round.productive + 1)
  {
    var approvals := R.ApprovalsOf(w.store, root);
    var round := approvals[0].link.policy.round;
    assert RepairTheorems.Chain(w.store, root, approvals);
    RowExposures(w);
    forall a | a in approvals
      ensures ExposureFor(w.db.operations, [a.workOrderId]) <= round.budget
      ensures CountFor(w.db.operations, [a.workOrderId]) <= round.productive + 1
    {
      var k :| 0 <= k < |approvals| && approvals[k] == a;
      ChainRound(w, root, k);
    }
    RoundsSum(w.db.operations, approvals, round.productive + 1, round.budget);
  }

  /** What the owner's first approval of a chain fixed for all its rounds together. */
  predicate WithinPolicy(w: World, root: string) {
    var approvals := R.ApprovalsOf(w.store, root);
    approvals != [] ==>
      var policy := approvals[0].link.policy;
      && ExposureFor(w.db.operations, Children(approvals)) <= policy.maxBudget
      && CountFor(w.db.operations, Children(approvals)) <= policy.maxOperations
  }

  lemma ChainWithinPolicy(w: World, root: string)
    requires WorldInv(w)
    ensures WithinPolicy(w, root)
  {
    if R.ApprovalsOf(w.store, root) != [] {
      ChainTotals(w, root);
      assert RepairTheorems.Chain(w.store, root, R.ApprovalsOf(w.store, root));
    }
  }

  /**
   Summed over a whole repair chain, in every history of reviews, approvals, preparations and ledger calls, the
   operations reserved for its rounds expose at most the first policy's budget, and are at most its operations.
   */
  lemma ChainExposure(history: seq<Moment>, root: string)
    ensures WithinPolicy(Execute(history), root)
  {
    ExecuteKeeps(history);
    ChainWithinPolicy(Execute(history), root);
  }

  lemma NextKeepsPreparation(w: World, e: Event, now: int, order: string)
    requires R.PrepareOf(w.store, order).Some?
    ensures R.PrepareOf(Next(w, e, now).store, order) == R.PrepareOf(w.store, order)
  {
    if e.Lifecycle? {
      StoreGrows(w.store, e.call, now);
      PreparationIsFixed(w.store, Next(w, e, now).store, order);
    }
  }

  lemma ClaimedAlready(s: R.Store, order: string, input: R.Prepare, now: int, sameWork: bool, untouched: bool)
    requires R.PrepareOf(s, order).Some?
    ensures R.ClaimRepairPreparation(s, order, input, now, sameWork, untouched) == R.Step(s, None)
  {
  }

  function Recorded(history: seq<Moment>, order: string): Option<R.Prepare> {
    R.PrepareOf(Execute(history).store, order)
  }

  lemma RecordedNext(history: seq<Moment>, order: string)
    requires history != [] && Recorded(history[..|history| - 1], order).Some?
    ensures Recorded(history, order) == Recorded(history[..|history| - 1], order)
  {
    var n := |history| - 1;
    NextKeepsPreparation(Execute(history[..n]), history[n].event, history[n].now, order);
  }

  /** What one more step never changes, no number of steps changes. */
  lemma {:induction false} StaysForever<E(!new), T(!new)>(read: seq<E> -> Option<T>, history: seq<E>, n: nat)
    requires forall h: seq<E> | h != [] && read(h[..|h| - 1]).Some? :: read(h) == read(h[..|h| - 1])
    requires n <= |history| && read(history[..n]).Some?
    ensures read(history) == read(history[..n])
  {
    if n == |history| {
      assert history[..n] == history;
    } else {
      var m := |history| - 1;
      assert history[..m][..n] == history[..n];
      StaysForever(read, history[..m], n);
    }
  }

  lemma RecordedForever(history: seq<Moment>, n: nat, order: string)
    requires n <= |history| && Recorded(history[..n], order).Some?
    ensures Recorded(history, order) == Recorded(history[..n], order)
  {
    var read := h => Recorded(h, order);
    forall h: seq<Moment> | h != [] && read(h[..|h| - 1]).Some? ensures read(h) == read(h[..|h| - 1]) {
      RecordedNext(h, order);
    }
    StaysForever(read, history, n);
  }

  /** A WorkOrder is prepared at most once: its recorded request never changes, and every later claim is refused. */
  lemma PreparedOnce(history: seq<Moment>, n: nat, order: string, input: R.Prepare, now: int, sameWork: bool,
      untouched: bool)
    requires n <= |history| && Recorded(history[..n], order).Some?
    ensures Recorded(history, order) == Recorded(history[..n], order)
    ensures R.ClaimRepairPreparation(Execute(history).store, order, input, now, sameWork, untouched).out.None?
  {
    RecordedForever(history, n, order);
    ClaimedAlready(Execute(history).store, order, input, now, sameWork, untouched);
  }
}
