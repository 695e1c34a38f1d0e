/**
 The paid boundary: cost arithmetic, and the protocol in which any number of request handlers drive one
 ledger around a provider call that can fail, or lose its answer, at any point.
 */
module SpendGateways {
  import opened Primitives
  import opened SpendPolicy
  import opened SpendTransactions
  import opened SpendSafety
  import opened SpendTheorems
  import opened SpendLedgers

  // ---------------------------------------------------------------- price arithmetic

  datatype Price = Price(
    revision: string, model: string, validUntil: Stamp, contextLimit: int, outputLimit: int,
    inputRate: int, outputRate: int)

  predicate RevisionText(s: string) {
    1 <= |s| <= 64 && forall c <- s :: Alphanumeric(c) || c in "._-"
  }

  /** The part of the price check that does not depend on the clock. */
  predicate PriceCard(price: Price) {
    && RevisionText(price.revision) && ModelReference(price.model)
    && PositiveSafe(price.contextLimit) && PositiveSafe(price.outputLimit)
    && PositiveSafe(price.inputRate) && PositiveSafe(price.outputRate)
    && SafeInteger(price.contextLimit * price.inputRate + price.outputLimit * price.outputRate)
  }

  predicate ValidPrice(price: Price, now: int) {
    PriceCard(price) && price.validUntil.After(now)
  }

  /** Micro-USD for an amount in millionths of a micro-USD, rounded up. */
  function CeilMillion(x: nat): nat {
    (x + 999_999) / 1_000_000
  }

  function Cost(price: Price, usage: Usage): int
    requires 0 <= usage.inputTokens * price.inputRate && 0 <= usage.outputTokens * price.outputRate
  {
    CeilMillion(usage.inputTokens * price.inputRate) + CeilMillion(usage.outputTokens * price.outputRate)
  }

  /** Usage the provider may report for a request admitted with this output cap. */
  predicate QualifiedUsage(price: Price, outputCap: int, usage: Usage) {
    && 0 <= usage.inputTokens <= price.contextLimit
    && 0 <= usage.outputTokens <= outputCap
  }

  function Reserve(price: Price): int
    requires price.contextLimit >= 0 && price.outputLimit >= 0 && price.inputRate >= 0 && price.outputRate >= 0
  {
    ProductNonnegative(price.contextLimit, price.inputRate);
    ProductNonnegative(price.outputLimit, price.outputRate);
    Cost(price, Usage(price.contextLimit, price.outputLimit))
  }

  lemma ProductNonnegative(a: int, b: int)
    requires a >= 0 && b >= 0
    ensures a * b >= 0
  {
  }

  lemma ProductGrows(a: int, a': int, b: int)
    requires 0 <= a <= a' && b >= 0
    ensures 0 <= a * b <= a' * b
  {
  }

  /** No qualified usage costs more than what was reserved for the request. */
  lemma CostWithinReservation(price: Price, outputCap: int, usage: Usage)
    requires PriceCard(price) && outputCap <= price.outputLimit && QualifiedUsage(price, outputCap, usage)
    ensures 0 <= usage.inputTokens * price.inputRate && 0 <= usage.outputTokens * price.outputRate
    ensures 0 <= Cost(price, usage) <= Reserve(price)
  {
    ProductGrows(usage.inputTokens, price.contextLimit, price.inputRate);
    ProductGrows(usage.outputTokens, price.outputLimit, price.outputRate);
  }

  /** A valid price card reserves a positive safe amount, as the ledger demands. */
  lemma ReservationIsPositiveSafe(price: Price)
    requires PriceCard(price)
    ensures PositiveSafe(Reserve(price))
  {
    ProductGrows(1, price.contextLimit, price.inputRate);
    ProductGrows(1, price.outputLimit, price.outputRate);
  }

  // ---------------------------------------------------------------- handlers

  /** What a gateway is configured with, and the output cap of the one request. */
  datatype Request = Request(binding: Binding, price: Price, phase: Phase, outputCap: int)

  /** Where a handler stands between two of its awaits. */
  datatype Stage =
    | Admitting
    | Held(id: string)                        // the reservation returned
    | Cleared(id: string)                     // the dispatch commit returned; nothing sent yet
    | Sent(id: string)                        // the request has been handed to the provider
    | Answered(id: string, receipt: string, usage: Usage)
    | Accounted(id: string, usage: Usage)     // settlement returned
    | Replied(id: string, usage: Usage)       // a successful reply left the gateway
    | Releasing(id: string)                   // in the error path, about to ask for a release
    | Retaining(id: string)                   // the release was refused, about to mark UNKNOWN
    | Finished                                // refused, or the process is gone

  datatype Handler = Handler(request: Request, stage: Stage)

  /** How a ledger call ends for its caller; a commit can succeed and still throw. */
  datatype Seen = Returned | ThrewBeforeCommit | ThrewAfterCommit

  datatype System = System(db: Db, handlers: seq<Handler>, sent: seq<string>)

  /** Ledger calls made by anyone but a handler. Reserving, dispatching and releasing are the handlers' own. */
  predicate Foreign(call: Call) {
    !call.CallReserve? && !call.CallMarkDispatched? && !call.CallRelease?
  }

  datatype Event =
    | Arrive(request: Request)
    | TryReserve(h: nat, id: string, now: int, seen: Seen)
    | TryDispatch(h: nat, now: int, seen: Seen)
    | Send(h: nat)
    | Answer(h: nat, receipt: string, usage: Usage)
    | TrySettle(h: nat, seen: Seen)
    | Reply(h: nat)
    | Fail(h: nat)
    | TryRelease(h: nat, seen: Seen)
    | TryRetain(h: nat, seen: Seen)
    | Die(h: nat)
    | Elsewhere(call: Call, now: int)

  predicate Holds(stage: Stage) {
    !stage.Admitting? && !stage.Finished?
  }

  function ReservationOf(request: Request, id: string): Reservation
    requires request.price.contextLimit >= 0 && request.price.outputLimit >= 0
             && request.price.inputRate >= 0 && request.price.outputRate >= 0
  {
    Reservation(request.binding, id, request.price.model, request.price.revision, Reserve(request.price), request.phase)
  }

  function Move(s: System, h: nat, stage: Stage): System
    requires h < |s.handlers|
  {
    s.(handlers := s.handlers[h := s.handlers[h].(stage := stage)])
  }

  /** The database after a call, as far as the commit got. */
  function Landed<T>(before: Db, step: Step<T>, seen: Seen): Db {
    if seen.ThrewBeforeCommit? then before else step.db
  }

  predicate Succeeded<T>(step: Step<T>, seen: Seen) {
    seen.Returned? && step.out.Done?
  }

  predicate AtStage(s: System, h: nat) {
    h < |s.handlers|
  }

  /** A request is only ever taken up with a valid price card and a cap within it. */
  predicate Qualified(request: Request) {
    PriceCard(request.price) && request.outputCap <= request.price.outputLimit
  }

  /** One event; an event that does not apply to the current stage changes nothing. */
  function Next(s: System, e: Event): System {
    match e
    case Arrive(request) =>
      if Qualified(request) then s.(handlers := s.handlers + [Handler(request, Admitting)]) else s
    case TryReserve(h, id, now, seen) =>
      if !AtStage(s, h) || !s.handlers[h].stage.Admitting? || !Qualified(s.handlers[h].request) then s
      else
        var step := SpendTransactions.Reserve(s.db, ReservationOf(s.handlers[h].request, id), now);
        Move(s.(db := Landed(s.db, step, seen)), h, if Succeeded(step, seen) then Held(id) else Finished)
    case TryDispatch(h, now, seen) =>
      if !AtStage(s, h) || !s.handlers[h].stage.Held? then s
      else
        var id := s.handlers[h].stage.id;
        var step := MarkDispatched(s.db, id, now);
        Move(s.(db := Landed(s.db, step, seen)), h, if Succeeded(step, seen) then Cleared(id) else Releasing(id))
    case Send(h) =>
      if !AtStage(s, h) || !s.handlers[h].stage.Cleared? then s
      else
        var id := s.handlers[h].stage.id;
        Move(s.(sent := s.sent + [id]), h, Sent(id))
    case Answer(h, receipt, usage) =>
      if !AtStage(s, h) || !s.handlers[h].stage.Sent?
         || !QualifiedUsage(s.handlers[h].request.price, s.handlers[h].request.outputCap, usage) then s
      else Move(s, h, Answered(s.handlers[h].stage.id, receipt, usage))
    case TrySettle(h, seen) =>
      if !AtStage(s, h) || !s.handlers[h].stage.Answered? || !Qualified(s.handlers[h].request)
         || !QualifiedUsage(s.handlers[h].request.price, s.handlers[h].request.outputCap, s.handlers[h].stage.usage)
            then s
      else
        var Answered(id, receipt, usage) := s.handlers[h].stage;
        CostWithinReservation(s.handlers[h].request.price, s.handlers[h].request.outputCap, usage);
        var step := Settle(s.db, id, Cost(s.handlers[h].request.price, usage), receipt, usage);
        Move(s.(db := Landed(s.db, step, seen)), h,
             if Succeeded(step, seen) then Accounted(id, usage) else Releasing(id))
    case Reply(h) =>
      if !AtStage(s, h) || !s.handlers[h].stage.Accounted? then s
      else Move(s, h, Replied(s.handlers[h].stage.id, s.handlers[h].stage.usage))
    case Fail(h) =>
      if !AtStage(s, h) || s.handlers[h].stage.Replied? || s.handlers[h].stage.Retaining? then s
      else if Holds(s.handlers[h].stage) then Move(s, h, Releasing(s.handlers[h].stage.id))
      else Move(s, h, Finished)
    case TryRelease(h, seen) =>
      if !AtStage(s, h) || !s.handlers[h].stage.Releasing? then s
      else
        var id := s.handlers[h].stage.id;
        var step := ReleaseUndispatched(s.db, id);
        Move(s.(db := Landed(s.db, step, seen)), h, if Succeeded(step, seen) then Finished else Retaining(id))
    case TryRetain(h, seen) =>
      if !AtStage(s, h) || !s.handlers[h].stage.Retaining? then s
      else Move(s.(db := Landed(s.db, MarkUnknown(s.db, s.handlers[h].stage.id), seen)), h, Finished)
    case Die(h) =>
      if !AtStage(s, h) then s else Move(s, h, Finished)
    case Elsewhere(call, now) =>
      if Foreign(call) then s.(db := Apply(s.db, call, now)) else s
  }

  function Execute(events: seq<Event>): System {
    if events == [] then System(EMPTY, [], [])
    else Next(Execute(events[..|events| - 1]), events[|events| - 1])
  }

  // ---------------------------------------------------------------- the protocol invariant

  function RowFor(db: Db, id: string): Option<Operation> {
    var i := IndexOf(db.operations, id);
    if i < |db.operations| then Some(db.operations[i]) else None
  }

  /** The row is past the paid boundary: its money is at risk or spent. */
  predicate PastBoundary(row: Option<Operation>) {
    row.Some? && (row.value.state.Dispatched? || row.value.state.Unknown? || row.value.state.Settled?)
  }

  /** What a handler at a stage knows about the row it holds. */
  predicate StageKnows(s: System, handler: Handler) {
    Holds(handler.stage) ==>
      var row := RowFor(s.db, handler.stage.id);
      && row.Some?
      && Qualified(handler.request)
      && row.value.binding == handler.request.binding
      && row.value.reserved == ReservedBy(handler.request)
      && (handler.stage.Held? ==> handler.stage.id !in s.sent)
      && (handler.stage.Cleared? ==> handler.stage.id !in s.sent && PastBoundary(row))
      && (handler.stage.Sent? || handler.stage.Answered? ==> handler.stage.id in s.sent && PastBoundary(row))
      && (handler.stage.Answered? || handler.stage.Accounted? || handler.stage.Replied? ==>
            QualifiedUsage(handler.request.price, handler.request.outputCap, handler.stage.usage))
      && (handler.stage.Accounted? || handler.stage.Replied? ==>
            && handler.stage.id in s.sent
            && row.value.state.Settled? && row.value.usage == Some(handler.stage.usage)
            && row.value.actual == Some(CostOf(handler.request, handler.stage.usage)))
  }

  function ReservedBy(request: Request): int
    requires Qualified(request)
  {
    Reserve(request.price)
  }

  /** The cost the gateway settles for a qualified answer. */
  function CostOf(request: Request, usage: Usage): int
    requires Qualified(request) && QualifiedUsage(request.price, request.outputCap, usage)
  {
    CostWithinReservation(request.price, request.outputCap, usage);
    Cost(request.price, usage)
  }

  predicate DistinctHolders(handlers: seq<Handler>) {
    forall a, b | 0 <= a < b < |handlers| && Holds(handlers[a].stage) && Holds(handlers[b].stage) ::
      handlers[a].stage.id != handlers[b].stage.id
  }

  predicate Distinct(ids: seq<string>) {
    forall a, b | 0 <= a < b < |ids| :: ids[a] != ids[b]
  }

  ghost predicate SystemInv(s: System) {
    && Inv(s.db)
    && Distinct(s.sent)
    && DistinctHolders(s.handlers)
    && (forall id <- s.sent :: PastBoundary(RowFor(s.db, id)))
    && (forall handler <- s.handlers :: StageKnows(s, handler))
  }

  /** How a row may look to everyone else after somebody's ledger step. */
  ghost predicate RowKept(db: Db, db': Db) {
    && (forall id :: RowFor(db, id).Some? ==>
         RowFor(db', id).Some? && RowSuccessor(RowFor(db, id).value, RowFor(db', id).value))
  }

  lemma RowKeptBy(db: Db, db': Db)
    requires UniqueIds(db.operations) && UniqueIds(db'.operations)
    requires TableGrows(db.operations, db'.operations)
    ensures RowKept(db, db')
  {
    forall id | RowFor(db, id).Some?
      ensures RowFor(db', id).Some? && RowSuccessor(RowFor(db, id).value, RowFor(db', id).value)
    {
      var i := IndexOf(db.operations, id);
      IndexOfUnique(db'.operations, i);
    }
  }

  lemma KnowsKept(s: System, db': Db, handler: Handler)
    requires StageKnows(s, handler) && RowKept(s.db, db')
    ensures StageKnows(s.(db := db'), handler)
  {
    if Holds(handler.stage) {
      assert RowSuccessor(RowFor(s.db, handler.stage.id).value, RowFor(db', handler.stage.id).value);
    }
  }

  /** A ledger step, landed or lost, keeps everything the handlers know. */
  lemma LedgerStepKeeps(s: System, call: Call, now: int, db': Db)
    requires SystemInv(s)
    requires db' == s.db || db' == Apply(s.db, call, now)
    ensures RowKept(s.db, db') && SystemInv(s.(db := db'))
  {
    ApplyInv(s.db, call, now);
    ApplyRows(s.db, call, now);
    RowKeptBy(s.db, db');
    forall handler | handler in s.handlers ensures StageKnows(s.(db := db'), handler) {
      KnowsKept(s, db', handler);
    }
    forall id | id in s.sent ensures PastBoundary(RowFor(db', id)) {
      assert RowSuccessor(RowFor(s.db, id).value, RowFor(db', id).value);
    }
  }

  /** Moving one handler to a stage that holds the same row, or none, keeps the invariant. */
  lemma MoveKeeps(s: System, h: nat, stage: Stage)
    requires SystemInv(s) && h < |s.handlers|
    requires Holds(stage) ==> Holds(s.handlers[h].stage) && stage.id == s.handlers[h].stage.id
    requires StageKnows(s, s.handlers[h].(stage := stage))
    ensures SystemInv(Move(s, h, stage))
  {
    var s' := Move(s, h, stage);
    forall handler | handler in s'.handlers ensures StageKnows(s', handler) {
      var k :| 0 <= k < |s'.handlers| && s'.handlers[k] == handler;
      assert s.handlers[k] in s.handlers;
    }
  }

  lemma ReserveEffect(db: Db, input: Reservation, now: int)
    requires Inv(db) && SpendTransactions.Reserve(db, input, now).out.Done?
    ensures RowFor(db, input.operationId).None?
    ensures RowFor(SpendTransactions.Reserve(db, input, now).db, input.operationId) == Some(Fresh(input))
  {
    var db' := SpendTransactions.Reserve(db, input, now).db;
    ApplyInv(db, CallReserve(input), now);
    IndexOfUnique(db'.operations, |db.operations|);
  }

  lemma DispatchEffect(db: Db, id: string, now: int)
    requires Inv(db) && MarkDispatched(db, id, now).out.Done?
    ensures RowFor(db, id).Some?
    ensures RowFor(MarkDispatched(db, id, now).db, id) == Some(RowFor(db, id).value.(state := Dispatched))
  {
    var db' := MarkDispatched(db, id, now).db;
    ApplyInv(db, CallMarkDispatched(id), now);
    IndexOfUnique(db'.operations, IndexOf(db.operations, id));
  }

  lemma SettleEffect(db: Db, id: string, actual: int, receipt: string, usage: Usage)
    requires Inv(db) && Settle(db, id, actual, receipt, usage).out.Done?
    ensures RowFor(db, id).Some?
    ensures RowFor(Settle(db, id, actual, receipt, usage).db, id) ==
            Some(RowFor(db, id).value.(actual := Some(actual), providerRequestId := Some(receipt), usage := Some(usage),
                  state := Settled))
  {
    var db' := Settle(db, id, actual, receipt, usage).db;
    ApplyInv(db, CallSettle(id, actual, receipt, usage), 0);
    IndexOfUnique(db'.operations, IndexOf(db.operations, id));
  }

  /** A handler takes hold of a row that nobody holds and nobody has sent. */
  lemma TakeRow(s: System, h: nat, id: string)
    requires SystemInv(s) && h < |s.handlers| && s.handlers[h].stage.Admitting?
    requires id !in s.sent
    requires forall a | 0 <= a < |s.handlers| && Holds(s.handlers[a].stage) :: s.handlers[a].stage.id != id
    requires StageKnows(s, s.handlers[h].(stage := Held(id)))
    ensures SystemInv(Move(s, h, Held(id)))
  {
    var s' := Move(s, h, Held(id));
    forall handler | handler in s'.handlers ensures StageKnows(s', handler) {
      var k :| 0 <= k < |s'.handlers| && s'.handlers[k] == handler;
      assert s.handlers[k] in s.handlers;
    }
  }

  /** A row that was not there is held and sent by nobody. */
  lemma NewRowIsFree(s: System, id: string)
    requires SystemInv(s) && RowFor(s.db, id).None?
    ensures id !in s.sent
    ensures forall a | 0 <= a < |s.handlers| && Holds(s.handlers[a].stage) :: s.handlers[a].stage.id != id
  {
    forall a | 0 <= a < |s.handlers| && Holds(s.handlers[a].stage) ensures s.handlers[a].stage.id != id {
      assert s.handlers[a] in s.handlers && StageKnows(s, s.handlers[a]);
    }
  }

  /** What a reservation that succeeds does to the row, and what the handler knows then. */
  lemma ReserveRow(s: System, h: nat, id: string, now: int)
    requires SystemInv(s) && h < |s.handlers| && s.handlers[h].stage.Admitting? && Qualified(s.handlers[h].request)
    requires SpendTransactions.Reserve(s.db, ReservationOf(s.handlers[h].request, id), now).out.Done?
    requires id !in s.sent
    ensures var t := s.(db := SpendTransactions.Reserve(s.db, ReservationOf(s.handlers[h].request, id), now).db);
            StageKnows(t, s.handlers[h].(stage := Held(id)))
  {
    ReserveEffect(s.db, ReservationOf(s.handlers[h].request, id), now);
  }

  lemma ReserveLands(s: System, h: nat, id: string, now: int, seen: Seen)
    requires SystemInv(s) && h < |s.handlers| && s.handlers[h].stage.Admitting? && Qualified(s.handlers[h].request)
    ensures var step := SpendTransactions.Reserve(s.db, ReservationOf(s.handlers[h].request, id), now);
            SystemInv(s.(db := Landed(s.db, step, seen)))
  {
    var input := ReservationOf(s.handlers[h].request, id);
    LedgerStepKeeps(s, CallReserve(input), now,
                    Landed(s.db, SpendTransactions.Reserve(s.db, input, now), seen));
  }

  lemma ReserveStep(s: System, h: nat, id: string, now: int, seen: Seen)
    requires SystemInv(s) && h < |s.handlers| && s.handlers[h].stage.Admitting? && Qualified(s.handlers[h].request)
    ensures SystemInv(Next(s, TryReserve(h, id, now, seen)))
  {
    var step := SpendTransactions.Reserve(s.db, ReservationOf(s.handlers[h].request, id), now);
    var t := s.(db := Landed(s.db, step, seen));
    ReserveLands(s, h, id, now, seen);
    if Succeeded(step, seen) {
      ReserveEffect(s.db, ReservationOf(s.handlers[h].request, id), now);
      NewRowIsFree(s, id);
      ReserveRow(s, h, id, now);
      TakeRow(t, h, id);
    } else {
      MoveKeeps(t, h, Finished);
    }
  }

  /** A handler knows its own row. */
  lemma KnowsOwn(s: System, h: nat)
    requires SystemInv(s) && h < |s.handlers|
    ensures StageKnows(s, s.handlers[h])
  {
    assert s.handlers[h] in s.handlers;
  }

  /** What the dispatch does to the row, and what the handler knows then. */
  lemma DispatchRow(s: System, h: nat, now: int, seen: Seen)
    requires SystemInv(s) && h < |s.handlers| && s.handlers[h].stage.Held?
    ensures var id := s.handlers[h].stage.id; var step := MarkDispatched(s.db, id, now);
            var t := s.(db := Landed(s.db, step, seen));
            && SystemInv(t)
            && StageKnows(t, s.handlers[h].(stage := if Succeeded(step, seen) then Cleared(id) else Releasing(id)))
  {
    var id := s.handlers[h].stage.id;
    var step := MarkDispatched(s.db, id, now);
    var t := s.(db := Landed(s.db, step, seen));
    LedgerStepKeeps(s, CallMarkDispatched(id), now, t.db);
    KnowsOwn(t, h);
    if Succeeded(step, seen) {
      DispatchEffect(s.db, id, now);
    }
  }

  lemma DispatchStep(s: System, h: nat, now: int, seen: Seen)
    requires SystemInv(s) && h < |s.handlers| && s.handlers[h].stage.Held?
    ensures SystemInv(Next(s, TryDispatch(h, now, seen)))
  {
    var id := s.handlers[h].stage.id;
    var step := MarkDispatched(s.db, id, now);
    DispatchRow(s, h, now, seen);
    MoveKeeps(s.(db := Landed(s.db, step, seen)), h, if Succeeded(step, seen) then Cleared(id) else Releasing(id));
  }

  lemma SendStep(s: System, h: nat)
    requires SystemInv(s) && h < |s.handlers| && s.handlers[h].stage.Cleared?
    ensures SystemInv(Next(s, Send(h)))
  {
    var id := s.handlers[h].stage.id;
    var s' := Next(s, Send(h));
    assert s.handlers[h] in s.handlers && StageKnows(s, s.handlers[h]);
    forall handler | handler in s'.handlers ensures StageKnows(s', handler) {
      var k :| 0 <= k < |s'.handlers| && s'.handlers[k] == handler;
      assert s.handlers[k] in s.handlers && StageKnows(s, s.handlers[k]);
    }
  }

  /** What the settlement does to the row, and what the handler knows then. */
  lemma SettleRow(s: System, h: nat, cost: int, seen: Seen)
    requires SystemInv(s) && h < |s.handlers| && s.handlers[h].stage.Answered?
    requires Qualified(s.handlers[h].request)
    requires QualifiedUsage(s.handlers[h].request.price, s.handlers[h].request.outputCap, s.handlers[h].stage.usage)
    requires cost == CostOf(s.handlers[h].request, s.handlers[h].stage.usage)
    ensures var Answered(id, receipt, usage) := s.handlers[h].stage; var step := Settle(s.db, id, cost, receipt, usage);
            var t := s.(db := Landed(s.db, step, seen));
            && SystemInv(t)
            && StageKnows(t, s.handlers[h].(stage :=
               if Succeeded(step, seen) then Accounted(id, usage) else Releasing(id)))
  {
    var Answered(id, receipt, usage) := s.handlers[h].stage;
    var step := Settle(s.db, id, cost, receipt, usage);
    var t := s.(db := Landed(s.db, step, seen));
    LedgerStepKeeps(s, CallSettle(id, cost, receipt, usage), 0, t.db);
    KnowsOwn(t, h);
    if Succeeded(step, seen) {
      SettleEffect(s.db, id, cost, receipt, usage);
    }
  }

  lemma SettleStep(s: System, h: nat, seen: Seen)
    requires SystemInv(s) && h < |s.handlers| && s.handlers[h].stage.Answered?
    ensures SystemInv(Next(s, TrySettle(h, seen)))
  {
    KnowsOwn(s, h);
    var Answered(id, receipt, usage) := s.handlers[h].stage;
    var cost := CostOf(s.handlers[h].request, usage);
    SettleRow(s, h, cost, seen);
    var step := Settle(s.db, id, cost, receipt, usage);
    MoveKeeps(s.(db := Landed(s.db, step, seen)), h,
              if Succeeded(step, seen) then Accounted(id, usage) else Releasing(id));
  }

  /** What the handler knows of its row after asking for a release. */
  lemma ReleaseRow(s: System, h: nat, seen: Seen)
    requires SystemInv(s) && h < |s.handlers| && s.handlers[h].stage.Releasing?
    ensures var id := s.handlers[h].stage.id; var step := ReleaseUndispatched(s.db, id);
            var t := s.(db := Landed(s.db, step, seen));
            && SystemInv(t)
            && StageKnows(t, s.handlers[h].(stage := if Succeeded(step, seen) then Finished else Retaining(id)))
  {
    var id := s.handlers[h].stage.id;
    var t := s.(db := Landed(s.db, ReleaseUndispatched(s.db, id), seen));
    LedgerStepKeeps(s, CallRelease(id), 0, t.db);
    KnowsOwn(t, h);
  }

  lemma ReleaseStep(s: System, h: nat, seen: Seen)
    requires SystemInv(s) && h < |s.handlers| && s.handlers[h].stage.Releasing?
    ensures SystemInv(Next(s, TryRelease(h, seen)))
  {
    var id := s.handlers[h].stage.id;
    var step := ReleaseUndispatched(s.db, id);
    ReleaseRow(s, h, seen);
    MoveKeeps(s.(db := Landed(s.db, step, seen)), h, if Succeeded(step, seen) then Finished else Retaining(id));
  }

  lemma RetainStep(s: System, h: nat, seen: Seen)
    requires SystemInv(s) && h < |s.handlers| && s.handlers[h].stage.Retaining?
    ensures SystemInv(Next(s, TryRetain(h, seen)))
  {
    var id := s.handlers[h].stage.id;
    var t := s.(db := Landed(s.db, MarkUnknown(s.db, id), seen));
    LedgerStepKeeps(s, CallMarkUnknown(id), 0, t.db);
    MoveKeeps(t, h, Finished);
  }

  lemma ArriveStep(s: System, request: Request)
    requires SystemInv(s)
    ensures SystemInv(Next(s, Arrive(request)))
  {
    var s' := Next(s, Arrive(request));
    forall handler | handler in s'.handlers ensures StageKnows(s', handler) {
      if handler in s.handlers {
        assert StageKnows(s, handler);
      }
    }
  }

  lemma QuietStep(s: System, e: Event)
    requires SystemInv(s)
    requires e.Answer? || e.Reply? || e.Fail? || e.Die?
    ensures SystemInv(Next(s, e))
  {
    if Next(s, e) != s {
      assert s.handlers[e.h] in s.handlers && StageKnows(s, s.handlers[e.h]);
      MoveKeeps(s, e.h, Next(s, e).handlers[e.h].stage);
    }
  }

  /** Every event keeps the protocol invariant. */
  lemma NextKeeps(s: System, e: Event)
    requires SystemInv(s)
    ensures SystemInv(Next(s, e))
  {
    if Next(s, e) != s {
      match e
      case Arrive(request) => ArriveStep(s, request);
      case TryReserve(h, id, now, seen) => ReserveStep(s, h, id, now, seen);
      case TryDispatch(h, now, seen) => DispatchStep(s, h, now, seen);
      case Send(h) => SendStep(s, h);
      case TrySettle(h, seen) => SettleStep(s, h, seen);
      case TryRelease(h, seen) => ReleaseStep(s, h, seen);
      case TryRetain(h, seen) => RetainStep(s, h, seen);
      case Elsewhere(call, now) => LedgerStepKeeps(s, call, now, Next(s, e).db);
      case _ => QuietStep(s, e);
    }
  }

  lemma {:induction false} ExecuteKeeps(events: seq<Event>)
    ensures SystemInv(Execute(events))
  {
    if events != [] {
      ExecuteKeeps(events[..|events| - 1]);
      NextKeeps(Execute(events[..|events| - 1]), events[|events| - 1]);
    }
  }

  // ---------------------------------------------------------------- the promises of the gateway

  lemma {:induction false} SentOnlyGrows(before: seq<Event>, after: seq<Event>)
    ensures Execute(before).sent <= Execute(before + after).sent
  {
    if after == [] {
      assert before + after == before;
    } else {
      var n := |after| - 1;
      SentOnlyGrows(before, after[..n]);
      assert (before + after)[..|before + after| - 1] == before + after[..n];
    }
  }

  /**
   A request that reached the provider is at risk or paid for ever after: in every later state its row is
   dispatched, UNKNOWN or settled, never released. No operation is sent twice.
   */
  lemma SentIsNeverReleased(before: seq<Event>, after: seq<Event>, k: nat)
    requires k < |Execute(before).sent|
    ensures var later := Execute(before + after);
            && k < |later.sent| && later.sent[k] == Execute(before).sent[k]
            && PastBoundary(RowFor(later.db, later.sent[k]))
            && (forall j | 0 <= j < |later.sent| && j != k :: later.sent[j] != later.sent[k])
  {
    SentOnlyGrows(before, after);
    ExecuteKeeps(before + after);
    var later := Execute(before + after);
    assert later.sent[k] in later.sent;
  }

  /** Released money was never at risk: no reachable state has a released row whose request was sent. */
  lemma ReleasedWasNeverSent(events: seq<Event>, i: nat)
    requires i < |Execute(events).db.operations| && Execute(events).db.operations[i].state.Released?
    ensures Execute(events).db.operations[i].operationId !in Execute(events).sent
  {
    ExecuteKeeps(events);
    IndexOfUnique(Execute(events).db.operations, i);
  }

  /** The requests of one Work among those sent, in order. */
  function RequestsOf(db: Db, sent: seq<string>, workId: string): seq<string> {
    if sent == [] then []
    else
      var row := RowFor(db, sent[|sent| - 1]);
      RequestsOf(db, sent[..|sent| - 1], workId)
      + if row.Some? && row.value.binding.workId == workId then [sent[|sent| - 1]] else []
  }

  function Ids(rows: seq<Operation>): set<string> {
    set op <- rows :: op.operationId
  }

  function Members(ids: seq<string>): set<string> {
    set id <- ids
  }

  lemma {:induction false} FewIds(rows: seq<Operation>)
    ensures |Ids(rows)| <= |rows|
  {
    if rows != [] {
      var n := |rows| - 1;
      FewIds(rows[..n]);
      assert rows == rows[..n] + [rows[n]];
      assert Ids(rows) == Ids(rows[..n]) + {rows[n].operationId};
    }
  }

  /** The chosen requests are distinct and all have a row of the Work. */
  lemma {:induction false} RequestsAreRows(db: Db, sent: seq<string>, workId: string)
    requires Distinct(sent)
    ensures forall id <- RequestsOf(db, sent, workId) :: id in sent && id in Ids(OperationsOf(db.operations, workId))
    ensures |RequestsOf(db, sent, workId)| == |Members(RequestsOf(db, sent, workId))|
  {
    if sent != [] {
      var n := |sent| - 1;
      RequestsAreRows(db, sent[..n], workId);
      var front := RequestsOf(db, sent[..n], workId);
      var row := RowFor(db, sent[n]);
      OperationsOfMembers(db.operations, workId);
      if row.Some? && row.value.binding.workId == workId {
        assert row.value in db.operations;
        assert Members(front + [sent[n]]) == Members(front) + {sent[n]};
      } else {
        assert RequestsOf(db, sent, workId) == front;
      }
    }
  }

  /** At most maxPaidOperations requests reach the provider for a Work, over all handlers, processes and generations. */
  lemma RequestsWithinPlan(events: seq<Event>, workId: string)
    requires Planned(Execute(events).db, workId)
    ensures var s := Execute(events);
            |RequestsOf(s.db, s.sent, workId)| <= s.db.budgets[workId].plan.value.maxPaid
  {
    var s := Execute(events);
    ExecuteKeeps(events);
    var rows := OperationsOf(s.db.operations, workId);
    assert WorkInv(workId, BudgetOf(s.db, workId), rows);
    SlotsPartition(rows);
    RequestsAreRows(s.db, s.sent, workId);
    FewIds(rows);
    SubsetSize(Members(RequestsOf(s.db, s.sent, workId)), Ids(rows));
  }

  lemma {:induction false} SubsetSize(a: set<string>, b: set<string>)
    requires a <= b
    ensures |a| <= |b|
  {
    if a != {} {
      var x :| x in a;
      SubsetSize(a - {x}, b - {x});
    }
  }

  /**
   A successful reply implies a settled operation, charged the rounded-up cost of the reported usage, and never
   more than was reserved for it.
   */
  lemma ReplyImpliesSettled(events: seq<Event>, h: nat)
    requires h < |Execute(events).handlers| && Execute(events).handlers[h].stage.Replied?
    ensures var s := Execute(events); var handler := s.handlers[h]; var row := RowFor(s.db, handler.stage.id);
            && row.Some? && row.value.state.Settled? && row.value.binding == handler.request.binding
            && handler.stage.id in s.sent
            && Qualified(handler.request)
            && QualifiedUsage(handler.request.price, handler.request.outputCap, handler.stage.usage)
            && row.value.actual == Some(CostOf(handler.request, handler.stage.usage))
            && 0 <= row.value.actual.value <= row.value.reserved == ReservedBy(handler.request)
  {
    var s := Execute(events);
    ExecuteKeeps(events);
    assert s.handlers[h] in s.handlers && StageKnows(s, s.handlers[h]);
    CostWithinReservation(s.handlers[h].request.price, s.handlers[h].request.outputCap, s.handlers[h].stage.usage);
  }
}
