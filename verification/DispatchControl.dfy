/**
 Dispatch control of one prepared WorkOrder: an append-only event log raced by dispatch, stop and read calls of
 any number of processes, beside the Work spend ledger.
 */
module DispatchControls {
  import opened Primitives
  import opened SpendPolicy
  import opened SpendTransactions
  import opened SpendTheorems

  /** A consumer's complete writer identity; `rest` stands for the fields the ledger does not see. */
  datatype Identity = Identity(binding: Binding, deadline: int, rest: string)

  datatype TerminalState = NotDispatched | Completed | Failed | Cancelled

  datatype LogEvent =
    | WriterBound(identity: Identity)
    | DispatchClaimed(identity: Identity)
    | StopRequested(identity: Identity)
    | Terminal(state: TerminalState, identity: Identity)

  /** What preparation fixed: every identity must agree with it but for the dispatch identity and `rest`. */
  datatype Preparation = Preparation(binding: Binding, deadline: int)

  predicate Agrees(p: Preparation, identity: Identity) {
    identity.binding == p.binding.(dispatchIdentity := identity.binding.dispatchIdentity)
        && identity.deadline == p.deadline
  }

  predicate HasWriter(log: seq<LogEvent>) { exists e <- log :: e.WriterBound? }
  predicate HasClaim(log: seq<LogEvent>) { exists e <- log :: e.DispatchClaimed? }
  predicate HasStop(log: seq<LogEvent>) { exists e <- log :: e.StopRequested? }
  predicate HasTerminal(log: seq<LogEvent>) { exists e <- log :: e.Terminal? }

  /** The identity passes `bind`: it agrees with the preparation and with any writer bound already. */
  predicate Binds(p: Preparation, log: seq<LogEvent>, identity: Identity) {
    Agrees(p, identity) && forall e <- log | e.WriterBound? :: e.identity == identity
  }

  predicate Closed(log: seq<LogEvent>) {
    HasClaim(log) || HasStop(log) || HasTerminal(log)
  }

  function WithWriter(log: seq<LogEvent>, identity: Identity): seq<LogEvent> {
    if HasWriter(log) then log else log + [WriterBound(identity)]
  }

  /** The claim transaction: it appends the claim, or leaves the log alone. */
  function ClaimLog(p: Preparation, log: seq<LogEvent>, identity: Identity, now: int, paused: bool): seq<LogEvent> {
    if !Binds(p, log, identity) || Closed(log) || identity.deadline <= now || paused then log
    else WithWriter(log, identity) + [DispatchClaimed(identity)]
  }

  /** The stop transaction. */
  function StopLog(p: Preparation, log: seq<LogEvent>, identity: Identity): seq<LogEvent> {
    if !Binds(p, log, identity) then log
    else if HasStop(log) then WithWriter(log, identity)
    else WithWriter(log, identity) + [StopRequested(identity)]
  }

  /** The first writer bound in the log. */
  function WriterIn(log: seq<LogEvent>): Option<Identity> {
    if log == [] then None
    else if log[0].WriterBound? then Some(log[0].identity)
    else WriterIn(log[1..])
  }

  /** What a read saw, before it went to look at processes and containers. */
  datatype Snapshot = Snapshot(writer: Identity, claimed: bool, stopped: bool)

  /** The probe's answers about the attempt's resources and run. */
  datatype Resources = Resources(active: bool, quiescent: bool, settled: bool, runOutcome: Option<TerminalState>,
      recoveryEligible: bool)

  predicate MayClose(seen: Snapshot, resources: Resources) {
    && resources.quiescent
    && ((!seen.claimed && seen.stopped) || (resources.settled && resources.runOutcome.Some?)
         || resources.recoveryEligible)
  }

  function Proposed(seen: Snapshot, resources: Resources): TerminalState {
    if !seen.claimed then TerminalState.NotDispatched
    else if resources.runOutcome.Some? && !resources.runOutcome.value.NotDispatched? then resources.runOutcome.value
    else Cancelled
  }

  /** The terminal transaction, which rechecks the log it was decided on. */
  function TerminalLog(log: seq<LogEvent>, seen: Snapshot, state: TerminalState): seq<LogEvent> {
    if HasTerminal(log) || (!seen.claimed && HasClaim(log)) then log
    else log + [Terminal(state, seen.writer)]
  }

  // ---------------------------------------------------------------- interleaved calls

  /** A call between two of its transactions. */
  datatype Pending =
    | DispatchChecked(identity: Identity)
    | DispatchBound(identity: Identity)
    | StopLogged(identity: Identity)
    | ReadSeen(seen: Snapshot)
    | ReadFenced(seen: Snapshot, state: TerminalState)
    | Over

  datatype Control = Control(db: Db, log: seq<LogEvent>, calls: seq<Pending>)

  datatype Event =
    | BeginDispatch(identity: Identity)
    | DispatchAuthority(k: nat, now: int)
    | DispatchUnpaid(k: nat)                    // the zero-cost fixture binds no spend authority
    | DispatchClaim(k: nat, now: int, paused: bool)
    | BeginStop(identity: Identity)
    | StopCancel(k: nat)
    | BeginRead
    | ReadFence(k: nat, resources: Resources)
    | ReadTerminal(k: nat)
    | FenceTerminal                             // a read that finds the terminal fences its writer again
    | Vanish(k: nat)                            // the calling process dies
    | LedgerCall(call: Call, now: int)          // anyone's ledger transaction, on any Work

  function Put(c: Control, k: nat, pending: Pending): Control
    requires k < |c.calls|
  {
    c.(calls := c.calls[k := pending])
  }

  function Next(p: Preparation, c: Control, e: Event): Control {
    match e
    case BeginDispatch(identity) =>
      if Binds(p, c.log, identity) && !Closed(c.log) then c.(calls := c.calls + [DispatchChecked(identity)]) else c
    case DispatchAuthority(k, now) =>
      if k >= |c.calls| || !c.calls[k].DispatchChecked? then c
      else
        var step := BindAuthority(c.db, c.calls[k].identity.binding, now);
        Put(c.(db := step.db), k, if step.out.Done? then DispatchBound(c.calls[k].identity) else Over)
    case DispatchUnpaid(k) =>
      if k >= |c.calls| || !c.calls[k].DispatchChecked? then c else Put(c, k, DispatchBound(c.calls[k].identity))
    case DispatchClaim(k, now, paused) =>
      if k >= |c.calls| || !c.calls[k].DispatchBound? then c
      else Put(c.(log := ClaimLog(p, c.log, c.calls[k].identity, now, paused)), k, Over)
    case BeginStop(identity) =>
      if !Binds(p, c.log, identity) then c
      else c.(log := StopLog(p, c.log, identity), calls := c.calls + [StopLogged(identity)])
    case StopCancel(k) =>
      if k >= |c.calls| || !c.calls[k].StopLogged? then c
      else Put(c.(db := CancelBound(c.db, c.calls[k].identity.binding).db), k, Over)
    case BeginRead =>
      var writer := WriterIn(c.log);
      if writer.None? || HasTerminal(c.log) then c
      else c.(calls := c.calls + [ReadSeen(Snapshot(writer.value, HasClaim(c.log), HasStop(c.log)))])
    case ReadFence(k, resources) =>
      if k >= |c.calls| || !c.calls[k].ReadSeen? || !MayClose(c.calls[k].seen, resources) then c
      else
        var seen := c.calls[k].seen;
        var step := FenceAuthority(c.db, seen.writer.binding);
        Put(c.(db := step.db), k, if step.out.Done? then ReadFenced(seen, Proposed(seen, resources)) else Over)
    case ReadTerminal(k) =>
      if k >= |c.calls| || !c.calls[k].ReadFenced? then c
      else Put(c.(log := TerminalLog(c.log, c.calls[k].seen, c.calls[k].state)), k, Over)
    case FenceTerminal =>
      var writer := WriterIn(c.log);
      if writer.None? || !HasTerminal(c.log) then c
      else c.(db := FenceAuthority(c.db, writer.value.binding).db)
    case Vanish(k) => if k >= |c.calls| then c else Put(c, k, Over)
    case LedgerCall(call, now) => c.(db := Apply(c.db, call, now))
  }

  function Execute(p: Preparation, db: Db, events: seq<Event>): Control {
    if events == [] then Control(db, [], [])
    else Next(p, Execute(p, db, events[..|events| - 1]), events[|events| - 1])
  }

  /**
   Preparation comes before any call here: `createBudget` accepted this generation and request, so the budget
   has reached it, and at that generation it still names the same request.
   */
  predicate BudgetPrepared(db: Db, p: Preparation) {
    && p.binding.workId in db.budgets
    && var b := db.budgets[p.binding.workId];
      && b.workGeneration >= p.binding.workGeneration
      && (b.workGeneration == p.binding.workGeneration ==>
            b.requestId == p.binding.requestId && b.workOrderId == p.binding.workOrderId)
  }

  // ---------------------------------------------------------------- the invariant

  /** Facts about the log alone. */
  predicate LogInv(p: Preparation, log: seq<LogEvent>) {
    && (forall i, j | 0 <= i < j < |log| ::
          && !(log[i].WriterBound? && log[j].WriterBound?)
          && !(log[i].DispatchClaimed? && log[j].DispatchClaimed?)
          && !(log[i].StopRequested? && log[j].StopRequested?)
          && !(log[i].Terminal? && log[j].Terminal?)
          && !((log[i].StopRequested? || log[i].Terminal?) && log[j].DispatchClaimed?))
    && (forall i | 0 <= i < |log| :: log[i].identity == log[0].identity)
    && (log != [] ==> log[0].WriterBound? && Agrees(p, log[0].identity))
    && (forall e <- log | e.Terminal? && e.state.NotDispatched? :: !HasClaim(log))
  }

  /** What a pending call may rely on. */
  predicate PendingInv(p: Preparation, c: Control, call: Pending) {
    match call
    case DispatchChecked(identity) => Agrees(p, identity)
    case DispatchBound(identity) => Agrees(p, identity)
    case StopLogged(identity) => Agrees(p, identity)
    case ReadSeen(seen) =>
      && c.log != [] && c.log[0].identity == seen.writer && (seen.claimed ==> HasClaim(c.log))
    case ReadFenced(seen, state) =>
      && c.log != [] && c.log[0].identity == seen.writer && (seen.claimed ==> HasClaim(c.log))
      && (state.NotDispatched? <==> !seen.claimed)
      && Dead(c.db, seen.writer.binding)
    case Over => true
  }

  predicate ControlInv(p: Preparation, c: Control) {
    && BudgetPrepared(c.db, p)
    && LogInv(p, c.log)
    && (forall call <- c.calls :: PendingInv(p, c, call))
    && (HasTerminal(c.log) ==> Dead(c.db, c.log[0].identity.binding))
  }

  /** A ledger transaction, whoever issued it, disturbs nothing here. */
  lemma LedgerKeeps(p: Preparation, c: Control, db': Db, call: Call, now: int)
    requires ControlInv(p, c) && db' == Apply(c.db, call, now)
    ensures ControlInv(p, c.(db := db'))
  {
    ApplyBudget(c.db, call, now, p.binding.workId);
    forall pending | pending in c.calls ensures PendingInv(p, c.(db := db'), pending) {
      assert PendingInv(p, c, pending);
      if pending.ReadFenced? {
        ApplyBudget(c.db, call, now, pending.seen.writer.binding.workId);
      }
    }
    if HasTerminal(c.log) {
      ApplyBudget(c.db, call, now, c.log[0].identity.binding.workId);
    }
  }

  lemma LogKeeps(p: Preparation, c: Control, log': seq<LogEvent>)
    requires ControlInv(p, c) && c.log <= log' && LogInv(p, log')
    requires HasTerminal(log') ==> Dead(c.db, log'[0].identity.binding)
    ensures ControlInv(p, c.(log := log'))
  {
    forall pending | pending in c.calls ensures PendingInv(p, c.(log := log'), pending) {
      assert PendingInv(p, c, pending);
      if HasClaim(c.log) {
        var e :| e in c.log && e.DispatchClaimed?;
        assert e in log';
      }
    }
  }

  lemma PutKeeps(p: Preparation, c: Control, k: nat, pending: Pending)
    requires ControlInv(p, c) && k < |c.calls| && PendingInv(p, c, pending)
    ensures ControlInv(p, Put(c, k, pending))
  {
    var c' := Put(c, k, pending);
    forall call | call in c'.calls ensures PendingInv(p, c', call) {
      if call != pending {
        assert call in c.calls;
      }
    }
  }

  lemma AddKeeps(p: Preparation, c: Control, pending: Pending)
    requires ControlInv(p, c) && PendingInv(p, c, pending)
    ensures ControlInv(p, c.(calls := c.calls + [pending]))
  {
    var c' := c.(calls := c.calls + [pending]);
    forall call | call in c'.calls ensures PendingInv(p, c', call) {
      if call != pending {
        assert call in c.calls;
      }
    }
  }

  lemma WriterLog(p: Preparation, log: seq<LogEvent>, identity: Identity)
    requires LogInv(p, log) && Binds(p, log, identity)
    ensures var log' := WithWriter(log, identity);
            && LogInv(p, log') && log <= log' && log' != [] && log'[0].identity == identity
            && HasWriter(log') && (HasStop(log') <==> HasStop(log)) && (HasClaim(log') <==> HasClaim(log))
            && (HasTerminal(log') <==> HasTerminal(log))
  {
    if log != [] {
      assert log[0] in log;
    }
  }

  lemma ClaimKeeps(p: Preparation, log: seq<LogEvent>, identity: Identity, now: int, paused: bool)
    requires LogInv(p, log)
    ensures var log' := ClaimLog(p, log, identity, now, paused);
            LogInv(p, log') && log <= log' && (HasTerminal(log') <==> HasTerminal(log))
  {
    var log' := ClaimLog(p, log, identity, now, paused);
    if log' != log {
      WriterLog(p, log, identity);
      AppendKeeps(p, WithWriter(log, identity), DispatchClaimed(identity));
    }
  }

  lemma StopKeeps(p: Preparation, log: seq<LogEvent>, identity: Identity)
    requires LogInv(p, log)
    ensures var log' := StopLog(p, log, identity);
            LogInv(p, log') && log <= log' && (HasTerminal(log') <==> HasTerminal(log))
  {
    if Binds(p, log, identity) {
      WriterLog(p, log, identity);
      if !HasStop(log) {
        AppendKeeps(p, WithWriter(log, identity), StopRequested(identity));
      }
    }
  }

  /** One more event, of a kind the log lacks and allows next. */
  lemma AppendKeeps(p: Preparation, log: seq<LogEvent>, e: LogEvent)
    requires LogInv(p, log) && log != [] && e.identity == log[0].identity && !e.WriterBound?
    requires e.DispatchClaimed? ==> !Closed(log)
    requires e.StopRequested? ==> !HasStop(log)
    requires e.Terminal? ==> !HasTerminal(log) && (e.state.NotDispatched? ==> !HasClaim(log))
    ensures LogInv(p, log + [e])
    ensures HasTerminal(log + [e]) <==> HasTerminal(log) || e.Terminal?
  {
    var log' := log + [e];
    forall x | x in log ensures x in log' {}
    assert e in log';
    forall i | 0 <= i < |log| ensures log[i] in log {}
    forall x | x in log' && x.Terminal? && x.state.NotDispatched? ensures !HasClaim(log') {
      if x in log {
        assert !HasClaim(log) && HasTerminal(log);
      }
    }
  }

  lemma TerminalKeeps(p: Preparation, log: seq<LogEvent>, seen: Snapshot, state: TerminalState)
    requires LogInv(p, log) && log != [] && log[0].identity == seen.writer
    requires state.NotDispatched? <==> !seen.claimed
    ensures var log' := TerminalLog(log, seen, state);
            LogInv(p, log') && log <= log'
  {
    if TerminalLog(log, seen, state) != log {
      AppendKeeps(p, log, Terminal(state, seen.writer));
    }
  }

  lemma WriterInLog(p: Preparation, log: seq<LogEvent>)
    requires LogInv(p, log)
    ensures WriterIn(log) == if log == [] then None else Some(log[0].identity)
  {
  }

  lemma FenceKeeps(p: Preparation, c: Control, binding: Binding)
    requires ControlInv(p, c) && binding == p.binding.(dispatchIdentity := binding.dispatchIdentity)
    ensures ControlInv(p, c.(db := FenceAuthority(c.db, binding).db))
    ensures Dead(FenceAuthority(c.db, binding).db, binding)
  {
    LedgerKeeps(p, c, FenceAuthority(c.db, binding).db, CallFenceAuthority(binding), 0);
    FenceKillsExactly(c.db, binding);
  }

  lemma ReadFenceKeeps(p: Preparation, c: Control, k: nat, resources: Resources)
    requires ControlInv(p, c) && k < |c.calls| && c.calls[k].ReadSeen?
    ensures ControlInv(p, Next(p, c, ReadFence(k, resources)))
  {
    assert c.calls[k] in c.calls && PendingInv(p, c, c.calls[k]);
    var seen := c.calls[k].seen;
    if MayClose(seen, resources) {
      FenceKeeps(p, c, seen.writer.binding);
      var step := FenceAuthority(c.db, seen.writer.binding);
      PutKeeps(p, c.(db := step.db), k, if step.out.Done? then ReadFenced(seen, Proposed(seen, resources)) else Over);
    }
  }

  lemma ReadTerminalKeeps(p: Preparation, c: Control, k: nat)
    requires ControlInv(p, c) && k < |c.calls| && c.calls[k].ReadFenced?
    ensures ControlInv(p, Next(p, c, ReadTerminal(k)))
  {
    assert c.calls[k] in c.calls && PendingInv(p, c, c.calls[k]);
    var log' := TerminalLog(c.log, c.calls[k].seen, c.calls[k].state);
    TerminalKeeps(p, c.log, c.calls[k].seen, c.calls[k].state);
    LogKeeps(p, c, log');
    PutKeeps(p, c.(log := log'), k, Over);
  }

  lemma DispatchKeeps(p: Preparation, c: Control, e: Event)
    requires ControlInv(p, c)
    requires e.BeginDispatch? || e.DispatchAuthority? || e.DispatchUnpaid? || e.DispatchClaim?
    ensures ControlInv(p, Next(p, c, e))
  {
    if Next(p, c, e) != c {
      match e
      case BeginDispatch(identity) => AddKeeps(p, c, DispatchChecked(identity));
      case DispatchAuthority(k, now) =>
        var identity := c.calls[k].identity;
        assert c.calls[k] in c.calls && PendingInv(p, c, c.calls[k]);
        var step := BindAuthority(c.db, identity.binding, now);
        LedgerKeeps(p, c, step.db, CallBindAuthority(identity.binding), now);
        PutKeeps(p, c.(db := step.db), k, if step.out.Done? then DispatchBound(identity) else Over);
      case DispatchUnpaid(k) =>
        assert c.calls[k] in c.calls && PendingInv(p, c, c.calls[k]);
        PutKeeps(p, c, k, DispatchBound(c.calls[k].identity));
      case DispatchClaim(k, now, paused) =>
        var log' := ClaimLog(p, c.log, c.calls[k].identity, now, paused);
        ClaimKeeps(p, c.log, c.calls[k].identity, now, paused);
        LogKeeps(p, c, log');
        PutKeeps(p, c.(log := log'), k, Over);
    }
  }

  lemma StopCallKeeps(p: Preparation, c: Control, e: Event)
    requires ControlInv(p, c)
    requires e.BeginStop? || e.StopCancel?
    ensures ControlInv(p, Next(p, c, e))
  {
    if Next(p, c, e) != c {
      match e
      case BeginStop(identity) =>
        StopKeeps(p, c.log, identity);
        LogKeeps(p, c, StopLog(p, c.log, identity));
        AddKeeps(p, c.(log := StopLog(p, c.log, identity)), StopLogged(identity));
      case StopCancel(k) =>
        var binding := c.calls[k].identity.binding;
        LedgerKeeps(p, c, CancelBound(c.db, binding).db, CallCancelBound(binding), 0);
        PutKeeps(p, c.(db := CancelBound(c.db, binding).db), k, Over);
    }
  }

  lemma NextKeeps(p: Preparation, c: Control, e: Event)
    requires ControlInv(p, c)
    ensures ControlInv(p, Next(p, c, e))
  {
    if e.BeginDispatch? || e.DispatchAuthority? || e.DispatchUnpaid? || e.DispatchClaim? {
      DispatchKeeps(p, c, e);
    } else if e.BeginStop? || e.StopCancel? {
      StopCallKeeps(p, c, e);
    } else if Next(p, c, e) != c {
      WriterInLog(p, c.log);
      match e
      case BeginRead => AddKeeps(p, c, ReadSeen(Snapshot(c.log[0].identity, HasClaim(c.log), HasStop(c.log))));
      case ReadFence(k, resources) => ReadFenceKeeps(p, c, k, resources);
      case ReadTerminal(k) => ReadTerminalKeeps(p, c, k);
      case FenceTerminal => FenceKeeps(p, c, c.log[0].identity.binding);
      case Vanish(k) => PutKeeps(p, c, k, Over);
      case LedgerCall(call, now) => LedgerKeeps(p, c, Apply(c.db, call, now), call, now);
    }
  }

  lemma {:induction false} ExecuteKeeps(p: Preparation, db: Db, events: seq<Event>)
    requires BudgetPrepared(db, p)
    ensures ControlInv(p, Execute(p, db, events))
  {
    if events != [] {
      ExecuteKeeps(p, db, events[..|events| - 1]);
      NextKeeps(p, Execute(p, db, events[..|events| - 1]), events[|events| - 1]);
    }
  }

  // ---------------------------------------------------------------- the promises of dispatch control

  lemma NextExtendsLog(p: Preparation, c: Control, e: Event)
    ensures c.log <= Next(p, c, e).log
  {
  }

  lemma {:induction false} LogOnlyGrows(p: Preparation, db: Db, before: seq<Event>, after: seq<Event>)
    ensures Execute(p, db, before).log <= Execute(p, db, before + after).log
  {
    if after == [] {
      assert before + after == before;
    } else {
      var n := |after| - 1;
      LogOnlyGrows(p, db, before, after[..n]);
      assert (before + after)[..|before + after| - 1] == before + after[..n];
      NextExtendsLog(p, Execute(p, db, before + after[..n]), after[n]);
    }
  }

  /**
   The shape of every reachable log: one writer, to whom every event belongs; at most one claim, stop and
   terminal; no claim after a stop or terminal; and no claim at all beside a NOT_DISPATCHED terminal.
   */
  lemma LogShape(p: Preparation, db: Db, events: seq<Event>)
    requires BudgetPrepared(db, p)
    ensures LogInv(p, Execute(p, db, events).log)
  {
    ExecuteKeeps(p, db, events);
  }

  /** Once a read reported NOT_DISPATCHED, no extension of the run ever claims. */
  lemma NotDispatchedIsFinal(p: Preparation, db: Db, before: seq<Event>, after: seq<Event>, i: nat)
    requires BudgetPrepared(db, p)
    requires i < |Execute(p, db, before).log|
    requires Execute(p, db, before).log[i].Terminal?
             && Execute(p, db, before).log[i].state == TerminalState.NotDispatched
    ensures !HasClaim(Execute(p, db, before + after).log)
  {
    LogOnlyGrows(p, db, before, after);
    ExecuteKeeps(p, db, before + after);
    assert Execute(p, db, before + after).log[i] in Execute(p, db, before + after).log;
  }

  /**
   Once a terminal event is recorded, no reservation and no dispatch under its writer's binding ever succeeds
   again, whatever dispatch, stop, read and ledger calls follow, in any generation.
   */
  lemma TerminalFencesItsWriter(p: Preparation, db: Db, before: seq<Event>, after: seq<Event>, i: nat,
                                input: Reservation, operationId: string, now: int)
    requires BudgetPrepared(db, p)
    requires i < |Execute(p, db, before).log| && Execute(p, db, before).log[i].Terminal?
    requires input.binding == Execute(p, db, before).log[i].identity.binding
    ensures var later := Execute(p, db, before + after).db;
            && Reserve(later, input, now).out.Denied?
            && BindAuthority(later, input.binding, now).out.Denied?
            && (MarkDispatched(later, operationId, now).out.Done? ==>
                  later.operations[IndexOf(later.operations, operationId)].binding != input.binding)
  {
    LogOnlyGrows(p, db, before, after);
    ExecuteKeeps(p, db, before + after);
    var c := Execute(p, db, before + after);
    assert c.log[i] in c.log && HasTerminal(c.log);
    DeadAdmitsNothing(c.db, input.binding, input, operationId, now);
  }

  /** A call by any writer but the bound one never changes the log. */
  lemma OtherWriterChangesNothing(p: Preparation, db: Db, events: seq<Event>, e: Event)
    requires BudgetPrepared(db, p) && Execute(p, db, events).log != []
    requires var c := Execute(p, db, events);
             var bound := c.log[0].identity;
             match e
             case BeginDispatch(identity) => identity != bound
             case BeginStop(identity) => identity != bound
             case DispatchClaim(k, _, _) => k < |c.calls| && c.calls[k].DispatchBound? && c.calls[k].identity != bound
             case _ => false
    ensures Next(p, Execute(p, db, events), e).log == Execute(p, db, events).log
  {
    ExecuteKeeps(p, db, events);
    var c := Execute(p, db, events);
    assert c.log[0] in c.log;
  }

  // ---------------------------------------------------------------- the fence is one writer's

  /** The ledger's authority is live and held by another writer of the same preparation. */
  predicate HeldByAnother(db: Db, p: Preparation, binding: Binding) {
    && p.binding.workId in db.budgets
    && var b := db.budgets[p.binding.workId];
      && b.workGeneration == p.binding.workGeneration && !b.authority.Fenced? && b.writer.Some?
      && b.writer.value.factoryVersion == p.binding.factoryVersion && b.writer.value.runId == p.binding.runId
      && b.writer.value.dispatchIdentity != binding.dispatchIdentity
  }

  /**
   The fence before a terminal closes the whole request exactly when no other writer of the preparation holds
   the ledger's authority at that moment.
   */
  lemma RequestClosedExactly(db: Db, p: Preparation, binding: Binding)
    requires BudgetPrepared(db, p) && binding == p.binding.(dispatchIdentity := binding.dispatchIdentity)
    ensures (forall d :: Dead(FenceAuthority(db, binding).db, p.binding.(dispatchIdentity := d)))
            <==> !HeldByAnother(db, p, binding)
  {
    var db' := FenceAuthority(db, binding).db;
    if HeldByAnother(db, p, binding) {
      var other := p.binding.(dispatchIdentity := db.budgets[p.binding.workId].writer.value.dispatchIdentity);
      assert !Dead(db', other);
    }
  }

  /** One dispatch binds the ledger; another writer's stop wins the log, and a read closes it. */
  function RacingHistory(stopper: Identity, dispatcher: Identity, now: int): seq<Event> {
    [BeginDispatch(dispatcher), DispatchAuthority(0, now), BeginStop(stopper), StopCancel(1), BeginRead,
     ReadFence(2, Resources(false, true, false, None, false)), ReadTerminal(2)]
  }

  lemma ExecuteNext(p: Preparation, db: Db, events: seq<Event>, k: nat)
    requires k < |events|
    ensures Execute(p, db, events[..k + 1]) == Next(p, Execute(p, db, events[..k]), events[k])
  {
    assert events[..k + 1][..k] == events[..k];
  }

  lemma StopFirst(p: Preparation, stopper: Identity)
    requires Agrees(p, stopper)
    ensures StopLog(p, [], stopper) == [WriterBound(stopper), StopRequested(stopper)]
    ensures var log := StopLog(p, [], stopper); HasStop(log) && !HasClaim(log) && !HasTerminal(log)
  {
    var log := StopLog(p, [], stopper);
    assert log == [WriterBound(stopper), StopRequested(stopper)];
    assert log[1] in log;
  }

  /** The first half of the race: the dispatcher holds the ledger, the stopper the log. */
  lemma RaceToTheLog(p: Preparation, db: Db, stopper: Identity, dispatcher: Identity, now: int)
    requires Agrees(p, stopper) && Agrees(p, dispatcher)
    requires BindAuthority(db, dispatcher.binding, now).out.Done?
    ensures Execute(p, db, RacingHistory(stopper, dispatcher, now)[..3]) ==
            Control(BindAuthority(db, dispatcher.binding, now).db, [WriterBound(stopper), StopRequested(stopper)],
                    [DispatchBound(dispatcher), StopLogged(stopper)])
  {
    var events := RacingHistory(stopper, dispatcher, now);
    ExecuteNext(p, db, events, 0);
    assert Execute(p, db, events[..1]) == Control(db, [], [DispatchChecked(dispatcher)]);
    ExecuteNext(p, db, events, 1);
    assert Execute(p, db, events[..2]) == Control(BindAuthority(db, dispatcher.binding, now).db, [],
          [DispatchBound(dispatcher)]);
    ExecuteNext(p, db, events, 2);
    StopFirst(p, stopper);
  }

  /** The second half: a stale cancellation, and a read that records the terminal. */
  lemma RaceToTheTerminal(p: Preparation, bound: Db, stopper: Identity, dispatcher: Identity, c: Control)
    requires c == Control(bound, [WriterBound(stopper), StopRequested(stopper)],
               [DispatchBound(dispatcher), StopLogged(stopper)])
    requires stopper.binding.workId in bound.budgets
    requires !MatchesCurrent(bound.budgets[stopper.binding.workId], stopper.binding)
    ensures var d := Next(p, Next(p, Next(p, Next(p, c, StopCancel(1)), BeginRead),
                                  ReadFence(2, Resources(false, true, false, None, false))), ReadTerminal(2));
            d.db == bound && d.log == c.log + [Terminal(TerminalState.NotDispatched, stopper)]
  {
    assert c.log[1] in c.log;
    var seen := Snapshot(stopper, false, true);
    var c1 := Next(p, c, StopCancel(1));
    assert c1 == c.(calls := [DispatchBound(dispatcher), Over]);
    var c2 := Next(p, c1, BeginRead);
    assert c2 == c.(calls := [DispatchBound(dispatcher), Over, ReadSeen(seen)]);
    var c3 := Next(p, c2, ReadFence(2, Resources(false, true, false, None, false)));
    assert c3 == c.(calls := [DispatchBound(dispatcher), Over, ReadFenced(seen, TerminalState.NotDispatched)]);
  }

  /**
   The case is reachable: after that race the log has its terminal, NOT_DISPATCHED, while the ledger still
   holds the losing dispatcher's live authority. Only the missing claim keeps that writer from being started.
   */
  lemma TerminalCanLeaveAnotherWriter(p: Preparation, db: Db, stopper: Identity, dispatcher: Identity, now: int)
    requires BudgetPrepared(db, p) && Agrees(p, stopper) && Agrees(p, dispatcher)
    requires stopper.binding.dispatchIdentity != dispatcher.binding.dispatchIdentity
    requires BindAuthority(db, dispatcher.binding, now).out.Done?
    ensures var c := Execute(p, db, RacingHistory(stopper, dispatcher, now));
            && c.log == [WriterBound(stopper), StopRequested(stopper), Terminal(TerminalState.NotDispatched, stopper)]
            && HeldByAnother(c.db, p, stopper.binding)
            && !Dead(c.db, dispatcher.binding)
  {
    var events := RacingHistory(stopper, dispatcher, now);
    RaceToTheLog(p, db, stopper, dispatcher, now);
    RaceToTheTerminal(p, BindAuthority(db, dispatcher.binding, now).db, stopper, dispatcher,
          Execute(p, db, events[..3]));
    ExecuteNext(p, db, events, 3);
    ExecuteNext(p, db, events, 4);
    ExecuteNext(p, db, events, 5);
    ExecuteNext(p, db, events, 6);
    assert events[..7] == events;
  }
}
