/**
 Draft publication of one WorkOrder. Several requests share one branch of one remote, which anyone else may change at
 any time. Each request has a durable action record; adapter calls, from any number of supervisors, run command by
 command and can crash anywhere; a command can take effect late or never. The sweep of a starting supervisor, which
 marks a dispatched action unknown, reads and writes in two steps.
 */
module PublicationProtocol {
  import opened Primitives
  import opened GitHubRemote

  datatype ActionState = Prepared | Dispatched | Unknown | Succeeded | Failed

  /** How an adapter call ends: with a result, with an adapter error, or with any other exception. */
  datatype Result = Returned | Refused(why: Fault) | Broke

  /** What the check of the local workspace finds. */
  datatype Local = Sound | Moved | Unreadable

  datatype Purpose = First | AfterPush | AfterCreate

  /** The next read of an inspection; before the last, the branch it saw. */
  datatype Reading = Repository | Base | Branch | Pulls(branch: Option<Commit>)

  /** Where an adapter call stands between two of its commands. */
  datatype Stage =
    | Fresh
    | Looking(purpose: Purpose, reading: Reading)
    | Pushing
    | Creating
    | Over(result: Result)                    // the outcome is known but not yet recorded
    | Gone                                    // recorded, or the process is gone

  /** A call, with the commands it has issued and whether they took effect. */
  datatype Call = Call(reconcileOnly: bool, stage: Stage, pushes: nat, creates: nat, branchMade: bool, draftMade: bool)

  datatype Request = Request(input: Input, record: Option<ActionState>, calls: seq<Call>, sweeps: nat)

  datatype World = World(branch: string, baseBranch: string, requests: seq<Request>, remote: RemoteState)

  datatype Step =
    | Claim(admitted: bool)                   // request found unclaimed; binding, approval and presence as told
    | Reconcile                               // request found unknown
    | Check(i: nat, local: Local)
    | Read(i: nat, ok: bool)
    | Push(i: nat)
    | PushLands(i: nat)                       // at once, late or never, its caller alive or not
    | Create(i: nat)
    | CreateLands(i: nat, number: nat)
    | Break(i: nat)
    | Record(i: nat)
    | Crash(i: nat)
    | SweepRead
    | SweepWrite

  datatype Event =
    | NewRequest(input: Input)
    | At(r: nat, step: Step)
    | Elsewhere(after: RemoteState)           // anyone else's change of the remote

  function Begin(branch: string, baseBranch: string, remote: RemoteState): World {
    World(branch, baseBranch, [], remote)
  }

  function NewCall(reconcileOnly: bool): Call {
    Call(reconcileOnly, Fresh, 0, 0, false, false)
  }

  /** The record after the outcome of one call is written. */
  function Recorded(record: ActionState, reconcileOnly: bool, result: Result): ActionState {
    if record.Succeeded? then record
    else
      match result
      case Returned => Succeeded
      case Refused(why) => if reconcileOnly || why.Uncertain? then Unknown else Failed
      case Broke => Unknown
  }

  // ---------------------------------------------------------------- one adapter call

  function Checked(input: Input, reconcileOnly: bool, local: Local): Stage {
    if !input.valid then Over(Refused(InvalidInput))
    else if !reconcileOnly && local.Moved? then Over(Refused(Conflict))
    else if !reconcileOnly && local.Unreadable? then Over(Refused(Unavailable))
    else Looking(First, Repository)
  }

  predicate RequiresBase(purpose: Purpose, reconcileOnly: bool) {
    purpose.First? ==> !reconcileOnly
  }

  /** Where a call goes from a finished inspection. */
  function Concluded(purpose: Purpose, reconcileOnly: bool, found: Outcome<Inspection, Fault>): Stage {
    if found.Done? && found.value.Published? then Over(Returned)
    else
      match purpose
      case First =>
        if found.Denied? then Over(Refused(found.why))
        else if reconcileOnly then Over(Refused(Uncertain))
        else if found.value.Absent? then Pushing else Creating
      case AfterPush => if found.Done? && found.value.BranchOnly? then Creating else Over(Refused(Uncertain))
      case AfterCreate => Over(Refused(Uncertain))
  }

  /** One read of an inspection, answered or not. */
  function AfterRead(
    s: RemoteState, input: Input, reconcileOnly: bool, purpose: Purpose, reading: Reading, ok: bool): Stage
  {
    if !ok then Concluded(purpose, reconcileOnly, Denied(Unavailable))
    else
      match reading
      case Repository =>
        if !s.identityMatches then Concluded(purpose, reconcileOnly, Denied(Conflict))
        else Looking(purpose, if RequiresBase(purpose, reconcileOnly) then Base else Branch)
      case Base =>
        if s.base != Some(input.inputCommit) then Concluded(purpose, reconcileOnly, Denied(Conflict))
        else Looking(purpose, Branch)
      case Branch => Looking(purpose, Pulls(s.branch))
      case Pulls(branch) => Concluded(purpose, reconcileOnly, PullsSay(s.pulls, branch, input))
  }

  predicate Live(q: Request, i: nat) {
    i < |q.calls| && !q.calls[i].stage.Gone?
  }

  predicate PushMayLand(q: Request, s: RemoteState, i: nat) {
    i < |q.calls| && q.calls[i].pushes > 0 && !q.calls[i].branchMade && Pushed(s, q.input) != s
  }

  predicate CreateMayLand(q: Request, s: RemoteState, i: nat, number: nat) {
    i < |q.calls| && q.calls[i].creates > 0 && !q.calls[i].draftMade && Created(s, q.input, number) != s
  }

  function SetCall(q: Request, i: nat, c: Call): Request
    requires i < |q.calls|
  {
    q.(calls := q.calls[i := c])
  }

  /** One step of a request over the remote as it stands; a step that is not possible changes nothing. */
  function RequestAfter(q: Request, s: RemoteState, step: Step): Request {
    match step
    case Claim(admitted) =>
      if admitted && q.record.None? then q.(record := Some(Dispatched), calls := q.calls + [NewCall(false)]) else q
    case Reconcile =>
      if q.record == Some(Unknown) then q.(calls := q.calls + [NewCall(true)]) else q
    case Check(i, local) =>
      if i < |q.calls| && q.calls[i].stage.Fresh?
      then SetCall(q, i, q.calls[i].(stage := Checked(q.input, q.calls[i].reconcileOnly, local))) else q
    case Read(i, ok) =>
      if i < |q.calls| && q.calls[i].stage.Looking? then
        var c := q.calls[i];
        SetCall(q, i, c.(stage := AfterRead(s, q.input, c.reconcileOnly, c.stage.purpose, c.stage.reading, ok)))
      else q
    case Push(i) =>
      if i < |q.calls| && q.calls[i].stage.Pushing?
      then SetCall(q, i, q.calls[i].(stage := Looking(AfterPush, Repository), pushes := q.calls[i].pushes + 1)) else q
    case PushLands(i) =>
      if PushMayLand(q, s, i) then SetCall(q, i, q.calls[i].(branchMade := true)) else q
    case Create(i) =>
      if i < |q.calls| && q.calls[i].stage.Creating?
      then SetCall(q, i, q.calls[i].(stage := Looking(AfterCreate, Repository), creates := q.calls[i].creates + 1))
      else q
    case CreateLands(i, number) =>
      if CreateMayLand(q, s, i, number) then SetCall(q, i, q.calls[i].(draftMade := true)) else q
    case Break(i) => if Live(q, i) then SetCall(q, i, q.calls[i].(stage := Over(Broke))) else q
    case Record(i) =>
      if i < |q.calls| && q.calls[i].stage.Over? && q.record.Some? then
        var c := q.calls[i];
        SetCall(q, i, c.(stage := Gone)).(record := Some(Recorded(q.record.value, c.reconcileOnly, c.stage.result)))
      else q
    case Crash(i) => if Live(q, i) then SetCall(q, i, q.calls[i].(stage := Gone)) else q
    case SweepRead => if q.record == Some(Dispatched) then q.(sweeps := q.sweeps + 1) else q
    case SweepWrite => if q.sweeps > 0 then q.(record := Some(Unknown), sweeps := q.sweeps - 1) else q
  }

  /** The remote changes only when a command lands. */
  function RemoteAfter(q: Request, s: RemoteState, step: Step): RemoteState {
    match step
    case PushLands(i) => if PushMayLand(q, s, i) then Pushed(s, q.input) else s
    case CreateLands(i, number) => if CreateMayLand(q, s, i, number) then Created(s, q.input, number) else s
    case _ => s
  }

  function Next(w: World, e: Event): World {
    match e
    case NewRequest(input) =>
      if input.branch == w.branch && input.baseBranch == w.baseBranch
      then w.(requests := w.requests + [Request(input, None, [], 0)]) else w
    case At(r, step) =>
      if r < |w.requests|
      then w.(requests := w.requests[r := RequestAfter(w.requests[r], w.remote, step)],
              remote := RemoteAfter(w.requests[r], w.remote, step)) else w
    case Elsewhere(after) => w.(remote := after)
  }

  function Run(w: World, history: seq<Event>): World {
    if history == [] then w else Next(Run(w, history[..|history| - 1]), history[|history| - 1])
  }

  lemma RunOne(w: World, history: seq<Event>, e: Event)
    ensures Run(w, history + [e]) == Next(Run(w, history), e)
  {
    assert (history + [e])[..|history|] == history;
  }

  // ---------------------------------------------------------------- what every request keeps

  /** The commands a call has issued, from where it stands. */
  predicate CallInv(q: Request, i: nat)
    requires i < |q.calls|
  {
    var c := q.calls[i];
    && (c.reconcileOnly <==> i > 0)
    && c.pushes <= 1 && c.creates <= 1
    && (c.branchMade ==> c.pushes == 1) && (c.draftMade ==> c.creates == 1)
    && (c.reconcileOnly ==> c.pushes == 0 && c.creates == 0 && !c.stage.Pushing? && !c.stage.Creating?)
    && match c.stage
       case Fresh => c.pushes == 0 && c.creates == 0
       case Looking(purpose, _) =>
         && (purpose.First? ==> c.pushes == 0 && c.creates == 0)
         && (purpose.AfterPush? ==> c.creates == 0)
         && (c.reconcileOnly ==> purpose.First?)
       case Pushing => c.pushes == 0 && c.creates == 0
       case Creating => c.creates == 0
       case Over(result) => result.Refused? && !result.why.Uncertain? ==> c.pushes == 0 && c.creates == 0
       case Gone => true
  }

  predicate RequestInv(q: Request) {
    && (q.record.None? <==> q.calls == [])
    && (q.record.None? ==> q.sweeps == 0)
    && (forall i: nat | i < |q.calls| :: CallInv(q, i))
    && (q.record == Some(Failed) ==> q.calls[0].stage.Gone? && q.calls[0].pushes == 0 && q.calls[0].creates == 0)
  }

  /** Every change of an existing call keeps what its stage says about its commands. */
  lemma CallKept(q: Request, s: RemoteState, step: Step, i: nat)
    requires RequestInv(q) && i < |RequestAfter(q, s, step).calls|
    ensures CallInv(RequestAfter(q, s, step), i)
  {
    if i < |q.calls| {
      assert CallInv(q, i);
    }
  }

  lemma StepKeeps(q: Request, s: RemoteState, step: Step)
    requires RequestInv(q)
    ensures RequestInv(RequestAfter(q, s, step))
  {
    var q' := RequestAfter(q, s, step);
    forall i: nat | i < |q'.calls| ensures CallInv(q', i) {
      CallKept(q, s, step, i);
    }
    if step.Record? && step.i < |q.calls| {
      assert CallInv(q, step.i);
    }
    if q.record == Some(Failed) {
      assert CallInv(q, 0);
    }
  }

  predicate WorldInv(w: World) {
    forall q <- w.requests :: RequestInv(q) && q.input.branch == w.branch && q.input.baseBranch == w.baseBranch
  }

  lemma InputStays(q: Request, s: RemoteState, step: Step)
    ensures RequestAfter(q, s, step).input == q.input
  {
  }

  lemma NextKeeps(w: World, e: Event)
    requires WorldInv(w)
    ensures WorldInv(Next(w, e))
  {
    if e.At? && e.r < |w.requests| {
      var q := w.requests[e.r];
      assert q in w.requests;
      StepKeeps(q, w.remote, e.step);
      InputStays(q, w.remote, e.step);
    }
  }

  lemma {:induction false} RunKeeps(start: World, history: seq<Event>)
    requires start.requests == []
    ensures WorldInv(Run(start, history))
    ensures Run(start, history).branch == start.branch && Run(start, history).baseBranch == start.baseBranch
  {
    if history != [] {
      var n := |history| - 1;
      RunKeeps(start, history[..n]);
      NextKeeps(Run(start, history[..n]), history[n]);
    }
  }

  /** Adapter calls that may change the remote, and the commands they issued. */
  function Mutating(calls: seq<Call>): nat {
    if calls == [] then 0 else Mutating(calls[..|calls| - 1]) + if calls[|calls| - 1].reconcileOnly then 0 else 1
  }

  function Commands(calls: seq<Call>): nat {
    if calls == [] then 0
    else Commands(calls[..|calls| - 1]) + calls[|calls| - 1].pushes + calls[|calls| - 1].creates
  }

  lemma {:induction false} CallsCount(q: Request, n: nat)
    requires n <= |q.calls| && forall i: nat | i < |q.calls| :: CallInv(q, i)
    ensures n > 0 ==>
              Mutating(q.calls[..n]) == 1
              && Commands(q.calls[..n]) == q.calls[0].pushes + q.calls[0].creates <= 2
  {
    if n > 0 {
      assert q.calls[..n][..n - 1] == q.calls[..n - 1];
      assert CallInv(q, n - 1) && CallInv(q, 0);
      if n == 1 {
        assert q.calls[..0] == [];
      } else {
        CallsCount(q, n - 1);
      }
    }
  }

  /** What one request may do over its whole life. */
  predicate OneAttempt(q: Request) {
    && Mutating(q.calls) <= 1 && Commands(q.calls) <= 2
    && (forall c <- q.calls :: c.pushes <= 1 && c.creates <= 1)
    && (forall c <- q.calls | c.reconcileOnly :: c.pushes == 0 && c.creates == 0)
    && (q.record == Some(Failed) ==> Commands(q.calls) == 0)
  }

  lemma RequestAttempts(q: Request)
    requires RequestInv(q)
    ensures OneAttempt(q)
  {
    CallsCount(q, |q.calls|);
    assert q.calls[..|q.calls|] == q.calls;
    forall c | c in q.calls
      ensures c.pushes <= 1 && c.creates <= 1 && (c.reconcileOnly ==> c.pushes == 0 && c.creates == 0)
    {
      var i: nat :| i < |q.calls| && q.calls[i] == c;
      assert CallInv(q, i);
    }
  }

  // ---------------------------------------------------------------- what a success was based on

  function RemoteAt(start: World, history: seq<Event>, n: nat): RemoteState
    requires n <= |history|
  {
    Run(start, history[..n]).remote
  }

  /** At some time so far the branch was at this commit, or absent. */
  ghost predicate BranchWas(start: World, history: seq<Event>, branch: Option<Commit>) {
    exists n: nat :: n <= |history| && RemoteAt(start, history, n).branch == branch
  }

  /** The branch was at the candidate, and then the exact draft was the only pull request. */
  ghost predicate SeenPublished(start: World, history: seq<Event>, input: Input) {
    exists m: nat, n: nat :: m <= n <= |history|
      && RemoteAt(start, history, m).branch == Some(input.candidate) && DraftOpen(RemoteAt(start, history, n), input)
  }

  lemma SeenLater(start: World, history: seq<Event>, e: Event)
    ensures forall n: nat | n <= |history| :: RemoteAt(start, history + [e], n) == RemoteAt(start, history, n)
  {
    forall n: nat | n <= |history| ensures RemoteAt(start, history + [e], n) == RemoteAt(start, history, n) {
      assert (history + [e])[..n] == history[..n];
    }
  }

  lemma BranchWasStays(start: World, history: seq<Event>, e: Event, branch: Option<Commit>)
    requires BranchWas(start, history, branch)
    ensures BranchWas(start, history + [e], branch)
  {
    SeenLater(start, history, e);
    var n: nat :| n <= |history| && RemoteAt(start, history, n).branch == branch;
    assert RemoteAt(start, history + [e], n).branch == branch;
  }

  lemma SeenPublishedStays(start: World, history: seq<Event>, e: Event, input: Input)
    requires SeenPublished(start, history, input)
    ensures SeenPublished(start, history + [e], input)
  {
    SeenLater(start, history, e);
    var m: nat, n: nat :| m <= n <= |history|
      && RemoteAt(start, history, m).branch == Some(input.candidate) && DraftOpen(RemoteAt(start, history, n), input);
    assert RemoteAt(start, history + [e], m).branch == Some(input.candidate);
    assert DraftOpen(RemoteAt(start, history + [e], n), input);
  }

  /** What a call or a record rests on. */
  ghost predicate StageBased(start: World, history: seq<Event>, input: Input, stage: Stage) {
    && (stage.Looking? && stage.reading.Pulls? ==> BranchWas(start, history, stage.reading.branch))
    && (stage.Over? && stage.result.Returned? ==> SeenPublished(start, history, input))
  }

  ghost predicate Based(start: World, history: seq<Event>, q: Request) {
    && (forall c <- q.calls :: StageBased(start, history, q.input, c.stage))
    && (q.record == Some(Succeeded) ==> SeenPublished(start, history, q.input))
  }

  lemma BasedStays(start: World, history: seq<Event>, e: Event, q: Request)
    requires Based(start, history, q)
    ensures Based(start, history + [e], q)
  {
    forall c | c in q.calls ensures StageBased(start, history + [e], q.input, c.stage) {
      StageBasedStays(start, history, e, q.input, c.stage);
    }
    if q.record == Some(Succeeded) {
      SeenPublishedStays(start, history, e, q.input);
    }
  }

  lemma StageBasedStays(start: World, history: seq<Event>, e: Event, input: Input, stage: Stage)
    requires StageBased(start, history, input, stage)
    ensures StageBased(start, history + [e], input, stage)
  {
    if stage.Looking? && stage.reading.Pulls? {
      BranchWasStays(start, history, e, stage.reading.branch);
    }
    if stage.Over? && stage.result.Returned? {
      SeenPublishedStays(start, history, e, input);
    }
  }

  /** A read rests on the remote it read. */
  lemma ReadBased(start: World, history: seq<Event>, q: Request, i: nat, ok: bool)
    requires i < |q.calls| && q.calls[i].stage.Looking? && StageBased(start, history, q.input, q.calls[i].stage)
    ensures StageBased(start, history, q.input, RequestAfter(q, Run(start, history).remote, Read(i, ok)).calls[i].stage)
  {
    var s, stage := Run(start, history).remote, q.calls[i].stage;
    assert history[..|history|] == history;
    assert RemoteAt(start, history, |history|) == s;
    if stage.reading.Pulls? && ok {
      var m: nat :| m <= |history| && RemoteAt(start, history, m).branch == stage.reading.branch;
      assert PullsSay(s.pulls, stage.reading.branch, q.input).Done?
             && PullsSay(s.pulls, stage.reading.branch, q.input).value.Published? ==>
               RemoteAt(start, history, m).branch == Some(q.input.candidate)
                   && DraftOpen(RemoteAt(start, history, |history|), q.input);
    }
  }

  lemma StepBased(start: World, history: seq<Event>, q: Request, step: Step)
    requires Based(start, history, q)
    ensures Based(start, history, RequestAfter(q, Run(start, history).remote, step))
  {
    var q' := RequestAfter(q, Run(start, history).remote, step);
    forall c | c in q'.calls ensures StageBased(start, history, q.input, c.stage) {
      var i: nat :| i < |q'.calls| && q'.calls[i] == c;
      if i < |q.calls| {
        assert q.calls[i] in q.calls;
        if step.Read? && step.i == i && q.calls[i].stage.Looking? {
          ReadBased(start, history, q, i, step.ok);
        }
      }
    }
    if step.Record? && step.i < |q.calls| {
      assert q.calls[step.i] in q.calls;
    }
  }

  lemma {:induction false} RunBased(start: World, history: seq<Event>)
    requires start.requests == []
    ensures forall q <- Run(start, history).requests :: Based(start, history, q)
  {
    if history != [] {
      var n := |history| - 1;
      var before, e := history[..n], history[n];
      var w := Run(start, before);
      assert history == before + [e];
      RunBased(start, before);
      forall q | q in Next(w, e).requests ensures Based(start, history, q) {
        if q in w.requests {
          BasedStays(start, before, e, q);
        } else if e.At? {
          assert w.requests[e.r] in w.requests;
          StepBased(start, before, w.requests[e.r], e.step);
          BasedStays(start, before, e, q);
        }
      }
    }
  }

  /**
   For every request of a WorkOrder, over any callers, supervisors, crashes, other requests and outside changes: at most
   one adapter call may change the remote, it pushes and creates at most once, reconciling calls issue no command, a
   failed record means that this request issued none, and a succeeded one that the branch was seen at the candidate and
   then the exact draft as the only pull request.
   */
  lemma AtMostOneAttempt(start: World, history: seq<Event>, r: nat)
    requires start.requests == [] && r < |Run(start, history).requests|
    ensures var q := Run(start, history).requests[r];
            OneAttempt(q) && (q.record == Some(Succeeded) ==> SeenPublished(start, history, q.input))
  {
    RunKeeps(start, history);
    RunBased(start, history);
    var q := Run(start, history).requests[r];
    assert q in Run(start, history).requests;
    RequestAttempts(q);
  }

  /** The outcome that turns a record into succeeded is a return; nothing else does. */
  lemma SuccessIsReturned(q: Request, s: RemoteState, step: Step)
    requires q.record != Some(Succeeded) && RequestAfter(q, s, step).record == Some(Succeeded)
    ensures step.Record? && step.i < |q.calls| && q.calls[step.i].stage == Over(Returned)
  {
  }

  // ---------------------------------------------------------------- what all requests of a WorkOrder do together

  /** A command of the factory only adds to the remote; what is there it neither moves nor removes. */
  lemma FactoryOnlyAdds(w: World, e: Event)
    requires WorldInv(w) && e.At? && e.r < |w.requests|
    ensures OnlyAdds(w.remote, Next(w, e).remote, w.requests[e.r].input)
  {
  }

  predicate Open(w: World) {
    HasOpen(w.remote, w.branch, w.baseBranch)
  }

  /** Changes of the remote worth counting: whether the branch is there, and whether a pull request of it is open. */
  datatype Change = BranchMade | BranchRemoved | DraftOpened | DraftClosed

  predicate Happens(w: World, e: Event, change: Change) {
    match change
    case BranchMade => w.remote.branch.None? && Next(w, e).remote.branch.Some?
    case BranchRemoved => w.remote.branch.Some? && Next(w, e).remote.branch.None?
    case DraftOpened => !Open(w) && Open(Next(w, e))
    case DraftClosed => Open(w) && !Open(Next(w, e))
  }

  /** How often a change happened, by the factory's own commands or by anyone else. */
  function Count(start: World, history: seq<Event>, change: Change, factory: bool): nat {
    if history == [] then 0
    else
      var n := |history| - 1;
      Count(start, history[..n], change, factory)
      + if Happens(Run(start, history[..n]), history[n], change) && (factory <==> !history[n].Elsewhere?) then 1 else 0
  }

  function Present(b: bool): nat {
    if b then 1 else 0
  }

  /** The factory removes no branch and closes no pull request. */
  lemma FactoryRemovesNothing(w: World, e: Event)
    requires WorldInv(w) && !e.Elsewhere?
    ensures !Happens(w, e, BranchRemoved) && !Happens(w, e, DraftClosed)
  {
    if e.At? && e.r < |w.requests| && Open(w) {
      FactoryOnlyAdds(w, e);
      var p :| p in w.remote.pulls && OpenHere(p, w.branch, w.baseBranch);
      assert p in Next(w, e).remote.pulls;
    }
  }

  /** Branches and open drafts are conserved: each one made is still there, or was removed by someone else. */
  lemma {:induction false} WorkOrderConserves(start: World, history: seq<Event>)
    requires start.requests == []
    ensures var w := Run(start, history);
            && Count(start, history, BranchMade, true) + Count(start, history, BranchMade, false)
               + Present(start.remote.branch.Some?)
               == Count(start, history, BranchRemoved, false) + Present(w.remote.branch.Some?)
            && Count(start, history, DraftOpened, true) + Count(start, history, DraftOpened, false)
               + Present(Open(start))
               == Count(start, history, DraftClosed, false) + Present(Open(w))
  {
    if history != [] {
      var n := |history| - 1;
      WorkOrderConserves(start, history[..n]);
      RunKeeps(start, history[..n]);
      if !history[n].Elsewhere? {
        FactoryRemovesNothing(Run(start, history[..n]), history[n]);
      }
    }
  }

  /** The remote's own rule, which outside changes keep too: one open pull request a branch and base. */
  predicate RuleKept(branch: string, baseBranch: string, e: Event) {
    e.Elsewhere? ==> CountOpen(e.after.pulls, branch, baseBranch) <= 1
  }

  lemma RuleNext(w: World, e: Event)
    requires WorldInv(w) && RuleKept(w.branch, w.baseBranch, e)
             && CountOpen(w.remote.pulls, w.branch, w.baseBranch) <= 1
    ensures CountOpen(Next(w, e).remote.pulls, w.branch, w.baseBranch) <= 1
  {
    if e.At? && e.r < |w.requests| && e.step.CreateLands? {
      assert w.requests[e.r] in w.requests;
      CreatedCount(w.remote, w.requests[e.r].input, e.step.number);
    }
  }

  lemma {:induction false} AtMostOneOpen(start: World, history: seq<Event>)
    requires start.requests == [] && CountOpen(start.remote.pulls, start.branch, start.baseBranch) <= 1
    requires forall e <- history :: RuleKept(start.branch, start.baseBranch, e)
    ensures CountOpen(Run(start, history).remote.pulls, start.branch, start.baseBranch) <= 1
  {
    if history != [] {
      var n := |history| - 1;
      assert history[n] in history;
      AtMostOneOpen(start, history[..n]);
      RunKeeps(start, history[..n]);
      RuleNext(Run(start, history[..n]), history[n]);
    }
  }

  /**
   Over all requests of a WorkOrder together, the factory makes the branch once, and once more for each time someone
   else removed it; it opens one draft, and one more for each time someone else closed the open one; and at no time is
   more than one open.
   */
  lemma OneDraftPerWorkOrder(start: World, history: seq<Event>)
    requires start.requests == [] && CountOpen(start.remote.pulls, start.branch, start.baseBranch) <= 1
    requires forall e <- history :: RuleKept(start.branch, start.baseBranch, e)
    ensures Count(start, history, BranchMade, true) <= 1 + Count(start, history, BranchRemoved, false)
    ensures Count(start, history, DraftOpened, true) <= 1 + Count(start, history, DraftClosed, false)
    ensures CountOpen(Run(start, history).remote.pulls, start.branch, start.baseBranch) <= 1
  {
    WorkOrderConserves(start, history);
    AtMostOneOpen(start, history);
  }

  /** The branch does not move once it is there, and pull requests are only added. */
  predicate OnlyGrew(s: RemoteState, s': RemoteState) {
    && (s.branch.Some? ==> s'.branch == s.branch) && s.pulls <= s'.pulls
    && s'.base == s.base && s'.identityMatches == s.identityMatches
  }

  lemma FactoryOnlyGrows(w: World, e: Event)
    requires WorldInv(w) && !e.Elsewhere?
    ensures OnlyGrew(w.remote, Next(w, e).remote)
  {
    if e.At? && e.r < |w.requests| {
      FactoryOnlyAdds(w, e);
    }
  }

  lemma GrewOn(s: RemoteState, t: RemoteState, u: RemoteState)
    requires OnlyGrew(s, t) && OnlyGrew(t, u)
    ensures OnlyGrew(s, u)
  {
  }

  lemma {:induction false} UndisturbedOnlyGrows(start: World, history: seq<Event>, n: nat)
    requires start.requests == [] && n <= |history|
    requires forall k | n <= k < |history| :: !history[k].Elsewhere?
    ensures OnlyGrew(RemoteAt(start, history, n), Run(start, history).remote)
  {
    if n == |history| {
      assert history[..n] == history;
    } else {
      var m := |history| - 1;
      assert history[..m][..n] == history[..n];
      UndisturbedOnlyGrows(start, history[..m], n);
      RunKeeps(start, history[..m]);
      FactoryOnlyGrows(Run(start, history[..m]), history[m]);
      GrewOn(RemoteAt(start, history, n), Run(start, history[..m]).remote, Run(start, history).remote);
    }
  }

  lemma {:induction false} NobodyElse(start: World, history: seq<Event>, change: Change)
    requires forall e <- history :: !e.Elsewhere?
    ensures Count(start, history, change, false) == 0
  {
    if history != [] {
      assert history[|history| - 1] in history;
      NobodyElse(start, history[..|history| - 1], change);
    }
  }

  /** With nobody else about, all requests together make the branch at most once and open at most one draft. */
  lemma UndisturbedOnce(start: World, history: seq<Event>)
    requires start.requests == [] && CountOpen(start.remote.pulls, start.branch, start.baseBranch) <= 1
    requires forall e <- history :: !e.Elsewhere?
    ensures Count(start, history, BranchMade, true) <= 1 && Count(start, history, DraftOpened, true) <= 1
  {
    OneDraftPerWorkOrder(start, history);
    NobodyElse(start, history, BranchRemoved);
    NobodyElse(start, history, DraftClosed);
  }

  /** While a pull request is open and nobody else interferes, no other appears. */
  lemma {:induction false} OpenKeepsPulls(start: World, history: seq<Event>, n: nat)
    requires start.requests == [] && n <= |history|
    requires forall k | n <= k < |history| :: !history[k].Elsewhere?
    requires HasOpen(RemoteAt(start, history, n), start.branch, start.baseBranch)
    ensures Run(start, history).remote.pulls == RemoteAt(start, history, n).pulls
  {
    if n == |history| {
      assert history[..n] == history;
    } else {
      var m := |history| - 1;
      assert history[..m][..n] == history[..n];
      OpenKeepsPulls(start, history[..m], n);
      RunKeeps(start, history[..m]);
    }
  }

  /** A draft once seen is still there as long as nobody else has touched the remote since. */
  lemma SeenIsStillThere(start: World, history: seq<Event>, input: Input, m: nat, n: nat)
    requires start.requests == [] && input.branch == start.branch && input.baseBranch == start.baseBranch
    requires m <= n <= |history| && forall k | m <= k < |history| :: !history[k].Elsewhere?
    requires RemoteAt(start, history, m).branch == Some(input.candidate)
             && DraftOpen(RemoteAt(start, history, n), input)
    ensures DraftPublished(Run(start, history).remote, input)
  {
    UndisturbedOnlyGrows(start, history, m);
    var p := RemoteAt(start, history, n).pulls[0];
    assert p in RemoteAt(start, history, n).pulls && OpenHere(p, start.branch, start.baseBranch);
    OpenKeepsPulls(start, history, n);
  }

  /** With nobody else about, a succeeded record means that the exact draft is there, whatever other requests do. */
  lemma SucceededIsPublished(start: World, history: seq<Event>, r: nat)
    requires start.requests == [] && forall e <- history :: !e.Elsewhere?
    requires r < |Run(start, history).requests| && Run(start, history).requests[r].record == Some(Succeeded)
    ensures DraftPublished(Run(start, history).remote, Run(start, history).requests[r].input)
  {
    AtMostOneAttempt(start, history, r);
    RunKeeps(start, history);
    var input := Run(start, history).requests[r].input;
    assert Run(start, history).requests[r] in Run(start, history).requests;
    var m: nat, n: nat :| m <= n <= |history|
      && RemoteAt(start, history, m).branch == Some(input.candidate) && DraftOpen(RemoteAt(start, history, n), input);
    forall k | m <= k < |history| ensures !history[k].Elsewhere? {
      assert history[k] in history;
    }
    SeenIsStillThere(start, history, input, m, n);
  }

  predicate Landed(q: Request) {
    exists c <- q.calls :: c.branchMade || c.draftMade
  }

  /** No command of any request has taken effect. */
  predicate NothingLanded(w: World) {
    forall q <- w.requests :: !Landed(q)
  }

  /** A command that took effect is on record, for good. */
  lemma LandingShows(q: Request, s: RemoteState, step: Step)
    ensures RemoteAfter(q, s, step) != s ==> Landed(RequestAfter(q, s, step))
    ensures Landed(q) ==> Landed(RequestAfter(q, s, step))
  {
    var q' := RequestAfter(q, s, step);
    if RemoteAfter(q, s, step) != s {
      assert q'.calls[step.i] in q'.calls;
    }
    if c :| c in q.calls && (c.branchMade || c.draftMade) {
      var i: nat :| i < |q.calls| && q.calls[i] == c;
      assert q'.calls[i] in q'.calls;
    }
  }

  lemma LandedBefore(w: World, e: Event)
    requires NothingLanded(Next(w, e)) && !e.Elsewhere?
    ensures NothingLanded(w) && Next(w, e).remote == w.remote
  {
    var w' := Next(w, e);
    if e.At? && e.r < |w.requests| {
      LandingShows(w.requests[e.r], w.remote, e.step);
      assert w'.requests[e.r] in w'.requests;
    }
    forall q | q in w.requests ensures !Landed(q) {
      var r: nat :| r < |w.requests| && w.requests[r] == q;
      assert w'.requests[r] in w'.requests;
    }
  }

  /** What nobody touched is as it was. */
  lemma {:induction false} UntouchedIsStart(start: World, history: seq<Event>)
    requires start.requests == [] && forall e <- history :: !e.Elsewhere?
    requires NothingLanded(Run(start, history))
    ensures Run(start, history).remote == start.remote
  {
    if history != [] {
      var n := |history| - 1;
      assert history[n] in history;
      LandedBefore(Run(start, history[..n]), history[n]);
      UntouchedIsStart(start, history[..n]);
    }
  }

  /** With nobody else about, the remote is untouched while every request that was tried has failed. */
  lemma FailedIsUntouched(start: World, history: seq<Event>)
    requires start.requests == [] && forall e <- history :: !e.Elsewhere?
    requires forall q <- Run(start, history).requests :: q.record.None? || q.record == Some(Failed)
    ensures Run(start, history).remote == start.remote
  {
    RunKeeps(start, history);
    forall q | q in Run(start, history).requests ensures !Landed(q) {
      forall c | c in q.calls ensures !c.branchMade && !c.draftMade {
        var i: nat :| i < |q.calls| && q.calls[i] == c;
        assert CallInv(q, i) && CallInv(q, 0);
      }
    }
    UntouchedIsStart(start, history);
  }
}
