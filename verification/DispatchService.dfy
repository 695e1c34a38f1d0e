/**
 Dispatch control as the source has it: an object that appends to the log and steps the ledger. Each method is
 one uninterrupted call, proved to be the matching run of DispatchControls.
 */
module DispatchServices {
  import opened Primitives
  import opened SpendPolicy
  import opened SpendTransactions
  import opened SpendLedgers
  import opened DispatchControls

  /** One dispatch call running alone: its three transactions in a row. */
  function DispatchAlone(p: Preparation, c: Control, identity: Identity, paid: bool, now: int, paused: bool): Control {
    var begun := Next(p, c, BeginDispatch(identity));
    var bound := Next(p, begun, if paid then DispatchAuthority(0, now) else DispatchUnpaid(0));
    Next(p, bound, DispatchClaim(0, now, paused))
  }

  function StopAlone(p: Preparation, c: Control, identity: Identity): Control {
    Next(p, Next(p, c, BeginStop(identity)), StopCancel(0))
  }

  function ReadAlone(p: Preparation, c: Control, resources: Resources): Control {
    var fenced := Next(p, Next(p, c, BeginRead), ReadFence(0, resources));
    Next(p, Next(p, fenced, ReadTerminal(0)), FenceTerminal)
  }

  /** The same, on the ledger and the log: a terminal event there or made now has its writer fenced. */
  function ReadEffect(db: Db, log: seq<LogEvent>, resources: Resources): Control {
    var writer := WriterIn(log);
    if writer.None? then Control(db, log, [])
    else
      var fenced := FenceAuthority(db, writer.value.binding);
      var seen := Snapshot(writer.value, HasClaim(log), HasStop(log));
      if HasTerminal(log) then Control(fenced.db, log, [])
      else if !MayClose(seen, resources) || fenced.out.Denied? then Control(db, log, [])
      else Control(FenceAuthority(fenced.db, writer.value.binding).db,
                   log + [Terminal(Proposed(seen, resources), writer.value)], [])
  }

  /** A read that finds nothing to do, or only a writer to fence again. */
  lemma ReadOfClosed(p: Preparation, c: Control, resources: Resources)
    requires c.calls == [] && (WriterIn(c.log).None? || HasTerminal(c.log))
    ensures ReadAlone(p, c, resources).(calls := []) == ReadEffect(c.db, c.log, resources)
  {
  }

  lemma ReadOfOpen(p: Preparation, c: Control, resources: Resources)
    requires c.calls == [] && WriterIn(c.log).Some? && !HasTerminal(c.log)
    ensures ReadAlone(p, c, resources).(calls := []) == ReadEffect(c.db, c.log, resources)
  {
    var writer := WriterIn(c.log).value;
    var seen := Snapshot(writer, HasClaim(c.log), HasStop(c.log));
    var begun := Next(p, c, BeginRead);
    assert begun.calls == [ReadSeen(seen)];
    var log' := c.log + [Terminal(Proposed(seen, resources), writer)];
    assert log'[|c.log|] in log' && WriterStays(c.log, log');
  }

  datatype ReadState = Ready | Running | Stopping | Uncertain | Quiescent(state: TerminalState)

  class FactoryDispatchControl {
    const ledger: SpendLedger
    const preparation: Preparation
    /** Whether dispatch binds paid authority; the zero-cost fixture does not. */
    const paid: bool
    var log: seq<LogEvent>

    constructor (ledger: SpendLedger, preparation: Preparation, paid: bool)
      ensures this.ledger == ledger && this.preparation == preparation && this.paid == paid && log == []
    {
      this.ledger, this.preparation, this.paid, this.log := ledger, preparation, paid, [];
    }

    function State(): Control
      reads this, ledger
    {
      Control(ledger.Tables(), log, [])
    }

    /** The transaction inside dispatch: everything is checked again, then the writer and the claim are appended. */
    method Claim(identity: Identity, now: int, paused: bool) returns (claimed: bool)
      modifies this
      ensures log == ClaimLog(preparation, old(log), identity, now, paused)
      ensures claimed <==> log != old(log)
    {
      if !Binds(preparation, log, identity) || Closed(log) || identity.deadline <= now || paused {
        return false;
      }
      if !HasWriter(log) {
        log := log + [WriterBound(identity)];
      }
      log := log + [DispatchClaimed(identity)];
      return true;
    }

    method Dispatch(identity: Identity, now: int, paused: bool) returns (claimed: bool)
      modifies this, ledger
      ensures State() == DispatchAlone(preparation, old(State()), identity, paid, now, paused).(calls := [])
      ensures claimed <==> log != old(log)
      ensures claimed ==> HasClaim(log) && !Closed(old(log))
    {
      if !Binds(preparation, log, identity) || Closed(log) {
        return false;
      }
      if paid {
        var out := ledger.BindAuthority(identity.binding, now);
        if out.Denied? {
          return false;
        }
      }
      claimed := Claim(identity, now, paused);
      assert claimed ==> log[|log| - 1] in log;
    }

    method Stop(identity: Identity)
      modifies this, ledger
      ensures State() == StopAlone(preparation, old(State()), identity).(calls := [])
      ensures Binds(preparation, old(log), identity) ==> HasStop(log)
    {
      if !Binds(preparation, log, identity) {
        return;
      }
      if !HasWriter(log) {
        log := log + [WriterBound(identity)];
      }
      if !HasStop(log) {
        log := log + [StopRequested(identity)];
        assert log[|log| - 1] in log;
      }
      assert log == StopLog(preparation, old(log), identity);
      var _ := ledger.CancelBound(identity.binding);
    }

    /** The terminal event already in the log, if any. */
    method FindTerminal() returns (found: Option<TerminalState>)
      ensures found.Some? <==> HasTerminal(log)
      ensures found.Some? ==> exists e <- log :: e.Terminal? && e.state == found.value
    {
      found := None;
      for i := 0 to |log|
        invariant found.None? ==> forall j | 0 <= j < i :: !log[j].Terminal?
        invariant found.Some? ==> exists e <- log :: e.Terminal? && e.state == found.value
      {
        if found.None? && log[i].Terminal? {
          found := Some(log[i].state);
          assert log[i] in log;
        }
      }
    }

    /** Fence the writer, record the terminal event, and fence again. */
    method Close(seen: Snapshot, resources: Resources) returns (closed: bool)
      modifies this, ledger
      ensures var fenced := SpendTransactions.FenceAuthority(old(ledger.Tables()), seen.writer.binding);
              && closed == fenced.out.Done?
              && log == old(log) + (if closed then [Terminal(Proposed(seen, resources), seen.writer)] else [])
              && ledger.Tables() == (if closed then SpendTransactions.FenceAuthority(fenced.db, seen.writer.binding).db
                                     else old(ledger.Tables()))
    {
      var fenced := ledger.FenceAuthority(seen.writer.binding);
      if fenced.Denied? {
        return false;
      }
      log := log + [Terminal(Proposed(seen, resources), seen.writer)];
      var _ := ledger.FenceAuthority(seen.writer.binding);
      return true;
    }

    method Read(resources: Resources) returns (state: ReadState)
      modifies this, ledger
      ensures State() == ReadAlone(preparation, old(State()), resources).(calls := [])
      ensures state.Quiescent? <==> HasTerminal(log)
      ensures state.Quiescent? ==> exists e <- log :: e.Terminal? && e.state == state.state
    {
      var writer := WriterIn(log);
      var terminal := FindTerminal();
      if terminal.Some? {
        ReadOfClosed(preparation, State(), resources);
        if writer.Some? {
          var _ := ledger.FenceAuthority(writer.value.binding);
        }
        return Quiescent(terminal.value);
      }
      var claimed, stopped := HasClaim(log), HasStop(log);
      state := if claimed && !resources.active then Uncertain
               else if stopped then Stopping
               else if claimed then Running else Ready;
      if writer.None? {
        ReadOfClosed(preparation, State(), resources);
        return;
      }
      ReadOfOpen(preparation, State(), resources);
      var seen := Snapshot(writer.value, claimed, stopped);
      if MayClose(seen, resources) {
        var closed := Close(seen, resources);
        if closed {
          assert log[|log| - 1] in log;
          return Quiescent(Proposed(seen, resources));
        }
      }
    }
  }

  /** What one gateway of an attempt may admit, and where the host wants it to stop. */
  datatype Gateway = Gateway(phase: Phase, checkpoint: Option<nat>)

  /** The gateways a dispatched attempt goes through: productive, at most one more productive, then completion. */
  class AttemptGateways {
    const ledger: SpendLedger
    const binding: Binding
    const plannedProductive: int
    var current: Gateway
    var repairIssued: bool

    constructor (ledger: SpendLedger, binding: Binding, plannedProductive: int)
      ensures this.ledger == ledger && this.binding == binding && this.plannedProductive == plannedProductive
      ensures current == Gateway(Productive, if plannedProductive == 2 then Some(1) else None) && !repairIssued
    {
      this.ledger, this.binding, this.plannedProductive := ledger, binding, plannedProductive;
      current, repairIssued := Gateway(Productive, if plannedProductive == 2 then Some(1) else None), false;
    }

    /** A second productive gateway: once, and only behind the one settled productive operation of this attempt. */
    method NextProductive(now: int) returns (issued: bool)
      modifies this
      ensures issued ==> !old(repairIssued) && plannedProductive == 2
      ensures issued ==> OnlySettled(OperationsOf(ledger.operations, binding.workId), binding)
      ensures issued <==> (CompletionDenial(ledger.Tables(), binding, now).None? && !old(repairIssued)
                && plannedProductive == 2
                           && Slots(OperationsOf(ledger.operations, binding.workId), Productive) == 1)
      ensures repairIssued <==> old(repairIssued) || issued
      ensures current == if issued then Gateway(Productive, Some(2)) else old(current)
    {
      var why := ledger.AssertCompletionEligible(binding, now);
      if why.Some? {
        return false;
      }
      var rows := ledger.FindOperations(binding.workId);
      if repairIssued || Slots(rows, Productive) != 1 || plannedProductive != 2 {
        return false;
      }
      OneSlotSettled(rows, binding);
      repairIssued := true;
      current := Gateway(Productive, Some(2));
      return true;
    }

    /** The completion gateway exists only when the ledger has entered the completion phase for this attempt. */
    method BeginCompletion(now: int) returns (begun: bool)
      modifies this, ledger
      ensures ledger.Tables() == SpendTransactions.BeginCompletion(old(ledger.Tables()), binding, now).db
      ensures begun <==> CompletionDenial(old(ledger.Tables()), binding, now).None?
      ensures current == if begun then Gateway(Completion, None) else old(current)
      ensures repairIssued == old(repairIssued)
    {
      var out := ledger.BeginCompletion(binding, now);
      if out.Denied? {
        return false;
      }
      current := Gateway(Completion, None);
      return true;
    }
  }

  /** Every operation of the Work is the one settled productive operation of this attempt. */
  predicate OnlySettled(ops: seq<Operation>, binding: Binding) {
    && (exists op <- ops :: op.phase.Productive? && op.state.Settled? && SameAttempt(op, binding))
    && (forall op <- ops :: op.phase.Productive? && op.state.Settled? && SameAttempt(op, binding))
  }

  lemma {:induction false} NoSlots(ops: seq<Operation>, phase: Phase)
    requires Slots(ops, phase) == 0
    ensures forall op <- ops :: op.phase != phase
  {
    if ops != [] {
      NoSlots(ops[..|ops| - 1], phase);
      assert ops == ops[..|ops| - 1] + [ops[|ops| - 1]];
    }
  }

  /** With one slot of a phase used, one operation has that phase. */
  lemma {:induction false} OneSlot(ops: seq<Operation>, phase: Phase, a: Operation, b: Operation)
    requires Slots(ops, phase) == 1 && a in ops && b in ops && a.phase == phase && b.phase == phase
    ensures a == b
  {
    var n := |ops| - 1;
    assert ops == ops[..n] + [ops[n]];
    if ops[n].phase == phase {
      NoSlots(ops[..n], phase);
    } else {
      OneSlot(ops[..n], phase, a, b);
    }
  }

  lemma {:induction false} OneSlotSettled(ops: seq<Operation>, binding: Binding)
    requires AssertCompletionOperations(ops, binding).None? && Slots(ops, Productive) == 1
    ensures OnlySettled(ops, binding)
  {
    var op :| op in ops && SameAttempt(op, binding) && op.phase.Productive? && op.state.Settled?;
    forall other | other in ops ensures other == op {
      OneSlot(ops, Productive, op, other);
    }
  }

  /** Appending to a log that has a writer does not change whom it finds. */
  predicate WriterStays(log: seq<LogEvent>, log': seq<LogEvent>)
    requires log <= log'
    ensures WriterIn(log).Some? ==> WriterIn(log') == WriterIn(log)
    ensures WriterStays(log, log')
  {
    if log == [] || log[0].WriterBound? then true else assert log[1..] <= log'[1..]; WriterStays(log[1..], log'[1..])
  }
}
