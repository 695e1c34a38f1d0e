/**
 One request handler as the source writes it: a method that steps the ledger, with its error path. Each run is
 proved to be a run of the protocol in SpendGateways, so everything proved there holds of it.
 */
module GatewayHandlers {
  import opened Primitives
  import opened SpendPolicy
  import opened SpendTransactions
  import opened SpendLedgers
  import opened SpendGateways

  /** Everything outside the handler's control during one request. */
  datatype Circumstances = Circumstances(
    wellFormed: bool, progressMade: bool, identityReady: bool, operationId: string,
    arrival: int, clock: int, dispatchClock: int,
    reserving: Seen, dispatching: Seen, settling: Seen, releasing: Seen, retaining: Seen,
    answer: Option<(string, Usage)>, replyThrows: bool)

  datatype Reply =
    | Success(operationId: string)
    | ConcurrentDenied
    | PhaseClosed
    | InvalidRequest
    | AdmissionDenied
    | CapacityProtected
    | IdentityUnavailable
    | OutcomeUnknown

  /** The protocol continued from any state. */
  function Continue(s: System, events: seq<Event>): System {
    if events == [] then s else Next(Continue(s, events[..|events| - 1]), events[|events| - 1])
  }

  lemma ContinueOne(s: System, events: seq<Event>, e: Event)
    ensures Continue(s, events + [e]) == Next(Continue(s, events), e)
  {
    assert (events + [e])[..|events|] == events;
  }

  /** The protocol after `trace` has one handler, for this request and at this stage, over this database. */
  predicate Stands(s: System, trace: seq<Event>, request: Request, stage: Stage, db: Db, sent: seq<string>) {
    Continue(s, trace) == System(db, [Handler(request, stage)], sent)
  }

  // Each step of the one handler, whatever becomes of its ledger call.

  lemma ReserveStands(s: System, trace: seq<Event>, request: Request, db: Db, id: string, now: int, seen: Seen)
    requires Stands(s, trace, request, Admitting, db, []) && Qualified(request)
    ensures var step := SpendTransactions.Reserve(db, ReservationOf(request, id), now);
            Stands(s, trace + [TryReserve(0, id, now, seen)], request,
                   if Succeeded(step, seen) then Held(id) else Finished,
                   Landed(db, step, seen), [])
  {
    ContinueOne(s, trace, TryReserve(0, id, now, seen));
  }

  lemma DispatchStands(s: System, trace: seq<Event>, request: Request, db: Db, id: string, now: int, seen: Seen)
    requires Stands(s, trace, request, Held(id), db, [])
    ensures var step := MarkDispatched(db, id, now);
            Stands(s, trace + [TryDispatch(0, now, seen)], request,
                   if Succeeded(step, seen) then Cleared(id) else Releasing(id),
                   Landed(db, step, seen), [])
  {
    ContinueOne(s, trace, TryDispatch(0, now, seen));
  }

  lemma SendStands(s: System, trace: seq<Event>, request: Request, db: Db, id: string)
    requires Stands(s, trace, request, Cleared(id), db, [])
    ensures Stands(s, trace + [Send(0)], request, Sent(id), db, [id])
  {
    ContinueOne(s, trace, Send(0));
    var none: seq<string> := [];
    assert none + [id] == [id];
  }

  lemma AnswerStands(s: System, trace: seq<Event>, request: Request, db: Db, id: string, receipt: string, usage: Usage)
    requires Stands(s, trace, request, Sent(id), db, [id]) && QualifiedUsage(request.price, request.outputCap, usage)
    ensures Stands(s, trace + [Answer(0, receipt, usage)], request, Answered(id, receipt, usage), db, [id])
  {
    ContinueOne(s, trace, Answer(0, receipt, usage));
  }

  /** The protocol settles an answered request at the gateway's cost. */
  lemma SettleNext(s: System, id: string, receipt: string, usage: Usage, seen: Seen)
    requires |s.handlers| == 1 && s.handlers[0].stage == Answered(id, receipt, usage)
    requires Qualified(s.handlers[0].request)
    requires QualifiedUsage(s.handlers[0].request.price, s.handlers[0].request.outputCap, usage)
    ensures var step := SpendTransactions.Settle(s.db, id, CostOf(s.handlers[0].request, usage), receipt, usage);
            Next(s, TrySettle(0, seen)) ==
            Move(s.(db := Landed(s.db, step, seen)), 0,
                 if Succeeded(step, seen) then Accounted(id, usage) else Releasing(id))
  {
  }

  lemma SettleStands(s: System, trace: seq<Event>, request: Request, db: Db, id: string, receipt: string, usage: Usage,
      seen: Seen)
    requires Stands(s, trace, request, Answered(id, receipt, usage), db, [id])
    requires Qualified(request) && QualifiedUsage(request.price, request.outputCap, usage)
    ensures var step := SpendTransactions.Settle(db, id, CostOf(request, usage), receipt, usage);
            Stands(s, trace + [TrySettle(0, seen)], request,
                   if Succeeded(step, seen) then Accounted(id, usage) else Releasing(id),
                   Landed(db, step, seen), [id])
  {
    ContinueOne(s, trace, TrySettle(0, seen));
    SettleNext(Continue(s, trace), id, receipt, usage, seen);
  }

  lemma ReplyStands(s: System, trace: seq<Event>, request: Request, db: Db, id: string, usage: Usage)
    requires Stands(s, trace, request, Accounted(id, usage), db, [id])
    ensures Stands(s, trace + [Event.Reply(0)], request, Replied(id, usage), db, [id])
  {
    ContinueOne(s, trace, Event.Reply(0));
  }

  lemma FailStands(s: System, trace: seq<Event>, request: Request, stage: Stage, db: Db, sent: seq<string>)
    requires Stands(s, trace, request, stage, db, sent) && Holds(stage) && !stage.Replied? && !stage.Retaining?
    ensures Stands(s, trace + [Fail(0)], request, Releasing(stage.id), db, sent)
  {
    ContinueOne(s, trace, Fail(0));
  }

  lemma ReleaseStands(s: System, trace: seq<Event>, request: Request, db: Db, id: string, sent: seq<string>, seen: Seen)
    requires Stands(s, trace, request, Releasing(id), db, sent)
    ensures var step := ReleaseUndispatched(db, id);
            Stands(s, trace + [TryRelease(0, seen)], request, if Succeeded(step, seen) then Finished else Retaining(id),
                   Landed(db, step, seen), sent)
  {
    ContinueOne(s, trace, TryRelease(0, seen));
  }

  lemma RetainStands(s: System, trace: seq<Event>, request: Request, db: Db, id: string, sent: seq<string>, seen: Seen)
    requires Stands(s, trace, request, Retaining(id), db, sent)
    ensures Stands(s, trace + [TryRetain(0, seen)], request, Finished, Landed(db, MarkUnknown(db, id), seen), sent)
  {
    ContinueOne(s, trace, TryRetain(0, seen));
  }

  class SpendGateway {
    const ledger: SpendLedger
    const request: Request
    /** The host stops productive work at this many productive operations, or at the planned number. */
    const checkpoint: Option<nat>
    /** The host watches implementation progress before the last planned productive operation. */
    const guarded: bool
    const bounded: bool
    var requestActive: bool
    var productiveClosed: bool

    constructor (ledger: SpendLedger, request: Request, checkpoint: Option<nat>, guarded: bool, bounded: bool)
      ensures this.ledger == ledger && this.request == request && this.checkpoint == checkpoint
      ensures this.guarded == guarded && this.bounded == bounded
      ensures !requestActive && !productiveClosed
    {
      this.ledger, this.request, this.checkpoint := ledger, request, checkpoint;
      this.guarded, this.bounded := guarded, bounded;
      requestActive, productiveClosed := false, false;
    }

    method Reserve(input: Reservation, now: int, seen: Seen) returns (ok: bool)
      modifies ledger
      ensures var step := SpendTransactions.Reserve(old(ledger.Tables()), input, now);
              ledger.Tables() == Landed(old(ledger.Tables()), step, seen) && ok == Succeeded(step, seen)
    {
      if seen.ThrewBeforeCommit? {
        return false;
      }
      var out := ledger.Reserve(input, now);
      return seen.Returned? && out.Done?;
    }

    method Dispatch(id: string, now: int, seen: Seen) returns (ok: bool)
      modifies ledger
      ensures var step := SpendTransactions.MarkDispatched(old(ledger.Tables()), id, now);
              ledger.Tables() == Landed(old(ledger.Tables()), step, seen) && ok == Succeeded(step, seen)
    {
      if seen.ThrewBeforeCommit? {
        return false;
      }
      var out := ledger.MarkDispatched(id, now);
      return seen.Returned? && out.Done?;
    }

    method Settle(id: string, cost: int, receipt: string, usage: Usage, seen: Seen) returns (ok: bool)
      modifies ledger
      ensures var step := SpendTransactions.Settle(old(ledger.Tables()), id, cost, receipt, usage);
              ledger.Tables() == Landed(old(ledger.Tables()), step, seen) && ok == Succeeded(step, seen)
    {
      if seen.ThrewBeforeCommit? {
        return false;
      }
      var out := ledger.Settle(id, cost, receipt, usage);
      return seen.Returned? && out.Done?;
    }

    method Release(id: string, seen: Seen) returns (ok: bool)
      modifies ledger
      ensures var step := ReleaseUndispatched(old(ledger.Tables()), id);
              ledger.Tables() == Landed(old(ledger.Tables()), step, seen) && ok == Succeeded(step, seen)
    {
      if seen.ThrewBeforeCommit? {
        return false;
      }
      var out := ledger.ReleaseUndispatched(id);
      return seen.Returned? && out.Done?;
    }

    method Retain(id: string, seen: Seen)
      modifies ledger
      ensures ledger.Tables() == Landed(old(ledger.Tables()), MarkUnknown(old(ledger.Tables()), id), seen)
    {
      if !seen.ThrewBeforeCommit? {
        var _ := ledger.MarkUnknown(id);
      }
    }

    /** The error path: release if the durable row proves nothing was sent, otherwise retain the exposure. */
    method Unwind(id: string, world: Circumstances, ghost s: System, ghost trace: seq<Event>, ghost sent: seq<string>)
      returns (ghost trace': seq<Event>)
      requires Stands(s, trace, request, Releasing(id), ledger.Tables(), sent)
      modifies ledger
      ensures Stands(s, trace', request, Finished, ledger.Tables(), sent)
    {
      ReleaseStands(s, trace, request, ledger.Tables(), id, sent, world.releasing);
      trace' := trace + [TryRelease(0, world.releasing)];
      var released := Release(id, world.releasing);
      if !released {
        RetainStands(s, trace', request, ledger.Tables(), id, sent, world.retaining);
        trace' := trace' + [TryRetain(0, world.retaining)];
        Retain(id, world.retaining);
      }
    }

    /** Take a qualified answer and settle it. */
    method Charge(id: string, receipt: string, usage: Usage, seen: Seen, ghost s: System, ghost trace: seq<Event>)
      returns (settled: bool, ghost trace': seq<Event>)
      requires Qualified(request) && QualifiedUsage(request.price, request.outputCap, usage)
      requires Stands(s, trace, request, Sent(id), ledger.Tables(), [id])
      modifies ledger
      ensures Stands(s, trace', request, if settled then Accounted(id, usage) else Releasing(id), ledger.Tables(), [id])
    {
      AnswerStands(s, trace, request, ledger.Tables(), id, receipt, usage);
      trace' := trace + [Answer(0, receipt, usage)];
      SettleStands(s, trace', request, ledger.Tables(), id, receipt, usage, seen);
      trace' := trace' + [TrySettle(0, seen)];
      settled := Settle(id, CostOf(request, usage), receipt, usage, seen);
    }

    /** Send the request, settle a qualified answer, and reply; anything else takes the error path. */
    method Upstream(id: string, world: Circumstances, ghost s: System, ghost trace: seq<Event>)
      returns (reply: Reply, ghost trace': seq<Event>)
      requires Qualified(request)
      requires Stands(s, trace, request, Cleared(id), ledger.Tables(), [])
      modifies ledger
      ensures reply == Success(id) || reply == OutcomeUnknown
      ensures reply.Success? ==> world.answer.Some?
      ensures Stands(s, trace', request, if reply.Success? then Replied(id, world.answer.value.1) else Finished,
                     ledger.Tables(), [id])
    {
      SendStands(s, trace, request, ledger.Tables(), id);
      trace' := trace + [Send(0)];
      ghost var stage := Sent(id);
      if world.answer.Some? && QualifiedUsage(request.price, request.outputCap, world.answer.value.1) {
        var (receipt, usage) := world.answer.value;
        var settled;
        settled, trace' := Charge(id, receipt, usage, world.settling, s, trace');
        stage := if settled then Accounted(id, usage) else Releasing(id);
        if settled && !world.replyThrows {
          ReplyStands(s, trace', request, ledger.Tables(), id, usage);
          trace' := trace' + [Event.Reply(0)];
          return Success(id), trace';
        }
      }
      FailStands(s, trace', request, stage, ledger.Tables(), [id]);
      trace' := Unwind(id, world, s, trace' + [Fail(0)], [id]);
      return OutcomeUnknown, trace';
    }

    /** The paid part of a request: reserve, commit the dispatch, and only then go upstream. */
    method Pay(world: Circumstances) returns (reply: Reply, ghost trace: seq<Event>)
      requires Qualified(request)
      modifies ledger
      ensures reply == AdmissionDenied || reply == Success(world.operationId) || reply == OutcomeUnknown
      ensures reply.Success? ==> world.answer.Some?
      ensures Stands(System(old(ledger.Tables()), [], []), trace, request,
                     if reply.Success? then Replied(world.operationId, world.answer.value.1) else Finished,
                     ledger.Tables(), if reply.AdmissionDenied? then [] else [world.operationId])
    {
      ghost var s := System(ledger.Tables(), [], []);
      var id := world.operationId;
      ContinueOne(s, [], Arrive(request));
      trace := [Arrive(request)];
      ReserveStands(s, trace, request, ledger.Tables(), id, world.clock, world.reserving);
      trace := trace + [TryReserve(0, id, world.clock, world.reserving)];
      var held := Reserve(ReservationOf(request, id), world.clock, world.reserving);
      if !held {
        return AdmissionDenied, trace;
      }
      DispatchStands(s, trace, request, ledger.Tables(), id, world.dispatchClock, world.dispatching);
      trace := trace + [TryDispatch(0, world.dispatchClock, world.dispatching)];
      var cleared := Dispatch(id, world.dispatchClock, world.dispatching);
      if !cleared {
        trace := Unwind(id, world, s, trace, []);
        return AdmissionDenied, trace;
      }
      reply, trace := Upstream(id, world, s, trace);
    }

    /** How many productive slots the Work has used, if it has a budget. */
    method ProductiveUsed() returns (used: Option<nat>)
      ensures used == if request.binding.workId in ledger.budgets
                      then Some(Slots(OperationsOf(ledger.operations, request.binding.workId), Productive)) else None
    {
      var b := ledger.FindBudget(request.binding.workId);
      if b.None? {
        return None;
      }
      var rows := ledger.FindOperations(request.binding.workId);
      return Some(Slots(rows, Productive));
    }

    ghost predicate AtBoundary()
      reads this, ledger
    {
      && request.phase.Productive? && bounded
      && (productiveClosed ||
          (request.binding.workId in ledger.budgets &&
           Slots(OperationsOf(ledger.operations, request.binding.workId), Productive) >=
           if checkpoint.Some? then checkpoint.value else Planned()))
    }

    function Planned(): int
      reads ledger
      requires request.binding.workId in ledger.budgets
    {
      var plan := ledger.budgets[request.binding.workId].plan;
      if plan.Some? then plan.value.plannedProductive else 0
    }

    /** The last planned productive operation is kept for an implementation that has made progress. */
    ghost predicate Protected(world: Circumstances)
      reads this, ledger
    {
      && request.phase.Productive? && guarded
      && (request.binding.workId !in ledger.budgets ||
          (Slots(OperationsOf(ledger.operations, request.binding.workId), Productive) == Planned() - 1
                && !world.progressMade))
    }

    /** The checks before any ledger write: `None` when the request may go on to reserve. */
    method Admit(world: Circumstances) returns (refused: Option<Reply>)
      modifies this`productiveClosed
      ensures old(AtBoundary()) ==> refused.Some?
      ensures refused.Some? && refused.value.PhaseClosed? ==>
                old(AtBoundary()) && productiveClosed
                && CompletionDenial(ledger.Tables(), request.binding, world.clock).None?
      ensures productiveClosed != old(productiveClosed) ==> refused == Some(PhaseClosed)
      ensures refused.None? || !(refused.value.Success? || refused.value.ConcurrentDenied?)
      ensures refused.None? <==>
                && world.wellFormed && ValidPrice(request.price, world.arrival) && !old(AtBoundary())
                   && !Protected(world)
                && world.identityReady && ValidPrice(request.price, world.clock)
    {
      if !world.wellFormed || !ValidPrice(request.price, world.arrival) {
        return Some(InvalidRequest);
      }
      if request.phase.Productive? && bounded {
        var used := ProductiveUsed();
        if productiveClosed || (used.Some? && used.value >= (if checkpoint.Some? then checkpoint.value
             else Planned())) {
          var why := ledger.AssertCompletionEligible(request.binding, world.clock);
          if why.Some? {
            return Some(AdmissionDenied);
          }
          productiveClosed := true;
          return Some(PhaseClosed);
        }
      }
      if request.phase.Productive? && guarded {
        var used := ProductiveUsed();
        if used.None? {
          return Some(CapacityProtected);
        }
        if used.value == Planned() - 1 && !world.progressMade {
          return Some(CapacityProtected);
        }
      }
      if !world.identityReady || !ValidPrice(request.price, world.clock) {
        return Some(IdentityUnavailable);
      }
      return None;
    }

    /** Handling one request. `trace` is the protocol run that this execution is. */
    method Handle(world: Circumstances) returns (reply: Reply, ghost trace: seq<Event>)
      requires Qualified(request)
      modifies this, ledger
      ensures old(requestActive) && (guarded || bounded) <==> reply == ConcurrentDenied
      ensures requestActive == reply.ConcurrentDenied?
      ensures old(AtBoundary()) ==> !reply.Success? && ledger.Tables() == old(ledger.Tables())
      ensures Continue(System(old(ledger.Tables()), [], []), trace).db == ledger.Tables()
      ensures reply.Success? ==>
                (world.answer.Some? &&
                 Stands(System(old(ledger.Tables()), [], []), trace, request,
                        Replied(world.operationId, world.answer.value.1), ledger.Tables(), [world.operationId]))
    {
      trace := [];
      if requestActive && (guarded || bounded) {
        return ConcurrentDenied, trace;
      }
      requestActive := true;
      var refused := Admit(world);
      if refused.Some? {
        reply := refused.value;
      } else {
        reply, trace := Pay(world);
      }
      requestActive := false;
    }
  }
}
