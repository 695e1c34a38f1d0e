/**
 The review and repair lifecycle beside the paid boundary: WorkOrders are reviewed, approved and prepared, preparations
 fund their Work's budget, and gateway handlers reserve, dispatch, send and settle, all in any interleaving.
 */
module RepairGateway {
  import opened Primitives
  import opened SpendPolicy
  import S = SpendTransactions
  import G = SpendGateways
  import R = RepairTransactions
  import Spend = RepairSpend

  datatype Joint = Joint(store: R.Store, system: G.System)

  datatype Event =
    | Lifecycle(call: R.Call, now: int)                          // review, proposal, approval, preparation
    | Fund(order: string, quote: Spend.Quote, now: int)          // the ledger half of a preparation
    | Paid(event: G.Event)                                       // a handler's step, or any other ledger call

  const EMPTY := Joint(R.EMPTY, G.System(S.EMPTY, [], []))

  /** The store and the ledger, without the handlers. */
  function WorldOf(j: Joint): Spend.World {
    Spend.World(j.store, j.system.db)
  }

  predicate CreatesBudget(e: G.Event) {
    e.Elsewhere? && e.call.CallCreateBudget?
  }

  /** A budget is created by a recorded preparation alone. */
  function Next(j: Joint, e: Event): Joint {
    match e
    case Lifecycle(call, now) => j.(store := R.Apply(j.store, call, now))
    case Fund(order, quote, now) =>
      j.(system := j.system.(db := Spend.FundBudget(WorldOf(j), order, quote, now)))
    case Paid(event) => if CreatesBudget(event) then j else j.(system := G.Next(j.system, event))
  }

  function Execute(history: seq<Event>): Joint {
    if history == [] then EMPTY else Next(Execute(history[..|history| - 1]), history[|history| - 1])
  }

  // ---------------------------------------------------------------- both invariants together

  ghost predicate JointInv(j: Joint) {
    G.SystemInv(j.system) && Spend.WorldInv(WorldOf(j))
  }

  /** The ledger call that one step of the gateway makes, if it makes one. */
  function CallOf(s: G.System, e: G.Event): Option<(S.Call, int)> {
    match e
    case TryReserve(h, id, now, _) =>
      if G.AtStage(s, h) && s.handlers[h].stage.Admitting? && G.Qualified(s.handlers[h].request)
      then Some((S.CallReserve(G.ReservationOf(s.handlers[h].request, id)), now)) else None
    case TryDispatch(h, now, _) =>
      if G.AtStage(s, h) && s.handlers[h].stage.Held? then Some((S.CallMarkDispatched(s.handlers[h].stage.id), now))
      else None
    case TrySettle(h, _) =>
      if G.AtStage(s, h) && s.handlers[h].stage.Answered? && G.Qualified(s.handlers[h].request)
         && G.QualifiedUsage(s.handlers[h].request.price, s.handlers[h].request.outputCap, s.handlers[h].stage.usage)
      then
        var Answered(id, receipt, usage) := s.handlers[h].stage;
        Some((S.CallSettle(id, G.CostOf(s.handlers[h].request, usage), receipt, usage), 0))
      else None
    case TryRelease(h, _) =>
      if G.AtStage(s, h) && s.handlers[h].stage.Releasing? then Some((S.CallRelease(s.handlers[h].stage.id), 0))
      else None
    case TryRetain(h, _) =>
      if G.AtStage(s, h) && s.handlers[h].stage.Retaining? then Some((S.CallMarkUnknown(s.handlers[h].stage.id), 0))
      else None
    case Elsewhere(call, now) => if G.Foreign(call) then Some((call, now)) else None
    case _ => None
  }

  /** Every step of the gateway is that ledger call, landed or lost, as far as the database goes. */
  lemma StepIsCall(s: G.System, e: G.Event)
    requires !CreatesBudget(e)
    ensures match CallOf(s, e)
            case None => G.Next(s, e).db == s.db
            case Some((call, now)) => !call.CallCreateBudget? && G.Next(s, e).db in {s.db, S.Apply(s.db, call, now)}
  {
  }

  lemma PaidKeeps(j: Joint, e: G.Event)
    requires JointInv(j) && !CreatesBudget(e)
    ensures JointInv(Next(j, Paid(e)))
  {
    G.NextKeeps(j.system, e);
    StepIsCall(j.system, e);
    match CallOf(j.system, e)
    case None =>
    case Some((call, now)) => Spend.LedgerKeeps(WorldOf(j), call, now);
  }

  /** Funding is the creation of a budget, as the gateway sees it. */
  lemma FundIsCall(j: Joint, order: string, quote: Spend.Quote, now: int)
    requires G.SystemInv(j.system)
    ensures G.SystemInv(Next(j, Fund(order, quote, now)).system)
  {
    if R.PrepareOf(j.store, order).Some? {
      var p := R.PrepareOf(j.store, order).value;
      var call := S.CallCreateBudget(p.workId, p.generation, p.requestId, order, p.spend.Floor, p.deadline,
                                     Spend.PlanOf(p.contract, quote));
      G.LedgerStepKeeps(j.system, call, now, S.Apply(j.system.db, call, now));
    }
  }

  lemma NextKeeps(j: Joint, e: Event)
    requires JointInv(j)
    ensures JointInv(Next(j, e))
  {
    match e
    case Lifecycle(call, now) => Spend.LifecycleKeeps(WorldOf(j), call, now);
    case Fund(order, quote, now) =>
      Spend.FundKeeps(WorldOf(j), order, quote, now);
      FundIsCall(j, order, quote, now);
    case Paid(event) =>
      if !CreatesBudget(event) {
        PaidKeeps(j, event);
      }
  }

  lemma {:induction false} ExecuteKeeps(history: seq<Event>)
    ensures JointInv(Execute(history))
  {
    if history == [] {
      G.ExecuteKeeps([]);
      Spend.ExecuteKeeps([]);
    } else {
      ExecuteKeeps(history[..|history| - 1]);
      NextKeeps(Execute(history[..|history| - 1]), history[|history| - 1]);
    }
  }

  // ---------------------------------------------------------------- requests of a chain

  predicate SentFor(db: S.Db, id: string, orders: seq<string>) {
    G.RowFor(db, id).Some? && Spend.For(G.RowFor(db, id).value, orders)
  }

  /** The requests among those sent that were paid for by one of these WorkOrders, in order. */
  function RequestsFor(db: S.Db, sent: seq<string>, orders: seq<string>): seq<string> {
    if sent == [] then []
    else
      RequestsFor(db, sent[..|sent| - 1], orders)
      + if SentFor(db, sent[|sent| - 1], orders) then [sent[|sent| - 1]] else []
  }

  function IdsFor(ops: seq<Operation>, orders: seq<string>): set<string> {
    set op <- ops | Spend.For(op, orders) :: op.operationId
  }

  lemma {:induction false} FewIdsFor(ops: seq<Operation>, orders: seq<string>)
    ensures |IdsFor(ops, orders)| <= Spend.CountFor(ops, orders)
  {
    if ops != [] {
      var n := |ops| - 1;
      FewIdsFor(ops[..n], orders);
      assert ops == ops[..n] + [ops[n]];
      assert IdsFor(ops, orders) ==
             IdsFor(ops[..n], orders) + if Spend.For(ops[n], orders) then {ops[n].operationId} else {};
    }
  }

  lemma {:induction false} RequestsAreDistinctRows(db: S.Db, sent: seq<string>, orders: seq<string>)
    requires G.Distinct(sent)
    ensures forall id <- RequestsFor(db, sent, orders) :: id in sent && id in IdsFor(db.operations, orders)
    ensures |RequestsFor(db, sent, orders)| == |G.Members(RequestsFor(db, sent, orders))|
  {
    if sent != [] {
      var n := |sent| - 1;
      RequestsAreDistinctRows(db, sent[..n], orders);
      var front := RequestsFor(db, sent[..n], orders);
      if SentFor(db, sent[n], orders) {
        assert G.RowFor(db, sent[n]).value in db.operations;
        assert G.Members(front + [sent[n]]) == G.Members(front) + {sent[n]};
      } else {
        assert RequestsFor(db, sent, orders) == front;
      }
    }
  }

  lemma RequestsAreFew(db: S.Db, sent: seq<string>, orders: seq<string>)
    requires G.Distinct(sent)
    ensures |RequestsFor(db, sent, orders)| <= Spend.CountFor(db.operations, orders)
  {
    RequestsAreDistinctRows(db, sent, orders);
    FewIdsFor(db.operations, orders);
    G.SubsetSize(G.Members(RequestsFor(db, sent, orders)), IdsFor(db.operations, orders));
  }

  /**
   In every history of reviews, approvals, preparations, handlers and other ledger calls, the requests that reach the
   provider for the rounds of a repair chain, over all Works and processes, are at most the operations of its first
   policy, and for each round at most that round's; each is sent once.
   */
  lemma ChainRequests(history: seq<Event>, root: string)
    ensures var j := Execute(history);
            var approvals := R.ApprovalsOf(j.store, root);
            && G.Distinct(j.system.sent)
            && (approvals != [] ==>
                  |RequestsFor(j.system.db, j.system.sent, Spend.Children(approvals))|
                  <= approvals[0].link.policy.maxOperations)
            && (forall a <- approvals ::
                  |RequestsFor(j.system.db, j.system.sent, [a.workOrderId])|
                  <= approvals[0].link.policy.round.productive + 1)
  {
    var j := Execute(history);
    var approvals := R.ApprovalsOf(j.store, root);
    ExecuteKeeps(history);
    Spend.ChainWithinPolicy(WorldOf(j), root);
    RequestsAreFew(j.system.db, j.system.sent, Spend.Children(approvals));
    forall a | a in approvals
      ensures |RequestsFor(j.system.db, j.system.sent, [a.workOrderId])|
              <= approvals[0].link.policy.round.productive + 1
    {
      var k: nat :| k < |approvals| && approvals[k] == a;
      Spend.ChainRound(WorldOf(j), root, k);
      RequestsAreFew(j.system.db, j.system.sent, [a.workOrderId]);
    }
  }
}
