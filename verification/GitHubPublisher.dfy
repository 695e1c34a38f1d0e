/**
 The draft pull request adapter as the source writes it: reads and commands over a remote that anyone may change between
 any two of them, and whose replies can be lost. Each call is proved to be a run of PublicationProtocol.
 */
module GitHubPublisher {
  import opened Primitives
  import opened GitHubRemote
  import opened PublicationProtocol

  lemma SetAgain(q: Request, i: nat, c: Call, d: Call)
    requires i < |q.calls|
    ensures SetCall(SetCall(q, i, c), i, d) == SetCall(q, i, d)
  {
  }

  /** Where a call that is looking goes from its next read. */
  function AfterOwnRead(s: RemoteState, input: Input, c: Call, ok: bool): Stage
    requires c.stage.Looking?
  {
    AfterRead(s, input, c.reconcileOnly, c.stage.purpose, c.stage.reading, ok)
  }

  function ResultOf<T>(out: Outcome<T, Fault>): Result {
    match out
    case Done(_) => Returned
    case Denied(why) => Refused(why)
  }

  class GitHub {
    var state: RemoteState
    /** Nobody but the adapter touches the remote. */
    const undisturbed: bool
    /** The run of the protocol so far, and the one request in it. */
    ghost const start: World
    ghost var trace: seq<Event>
    ghost var request: Request

    constructor (state: RemoteState, input: Input, undisturbed: bool)
      ensures Valid() && this.state == state && this.undisturbed == undisturbed
      ensures start == Begin(input.branch, input.baseBranch, state)
      ensures request == Request(input, None, [], 0)
      ensures undisturbed ==> Undisturbed()
    {
      this.state, this.undisturbed := state, undisturbed;
      start, request := Begin(input.branch, input.baseBranch, state), Request(input, None, [], 0);
      trace := [NewRequest(input)];
      new;
      RunOne(start, [], NewRequest(input));
      assert [] + [NewRequest(input)] == trace;
    }

    /** The protocol after the trace has this one request and this remote. */
    ghost predicate Valid()
      reads this
    {
      start.requests == [] && Run(start, trace) == start.(requests := [request], remote := state)
    }

    /** Nobody else has touched the remote so far. */
    ghost predicate Undisturbed()
      reads this
    {
      forall e <- trace :: !e.Elsewhere?
    }

    /** A step of the request that leaves the remote alone. */
    ghost method Note(step: Step)
      requires Valid() && RemoteAfter(request, state, step) == state
      modifies this`trace, this`request
      ensures Valid() && request == RequestAfter(old(request), state, step)
      ensures trace == old(trace) + [At(0, step)]
    {
      RunOne(start, trace, At(0, step));
      assert [request][0 := RequestAfter(request, state, step)] == [RequestAfter(request, state, step)];
      request := RequestAfter(request, state, step);
      trace := trace + [At(0, step)];
    }

    /** A step that moves one call of the request from c to d. */
    ghost method Advance(step: Step, q: Request, i: nat, c: Call, d: Call)
      requires Valid() && i < |q.calls| && request == SetCall(q, i, c) && RemoteAfter(request, state, step) == state
      requires RequestAfter(request, state, step) == SetCall(request, i, d)
      modifies this`trace, this`request
      ensures Valid() && request == SetCall(q, i, d) && trace == old(trace) + [At(0, step)]
    {
      Note(step);
      SetAgain(q, i, c, d);
    }

    /** Whatever anyone else does to the remote meanwhile. */
    method Elsewhere()
      requires Valid()
      modifies this`state, this`trace
      ensures Valid() && old(trace) <= trace
      ensures undisturbed ==> state == old(state) && trace == old(trace)
    {
      if !undisturbed {
        var after: RemoteState :| true;
        state := after;
        RunOne(start, trace, Event.Elsewhere(after));
        trace := trace + [Event.Elsewhere(after)];
      }
    }

    /** One read: the remote may have changed before it, and it may not be answered. */
    method Reads(ghost q: Request, ghost i: nat, ghost c: Call) returns (ok: bool)
      requires Valid() && i < |q.calls| && request == SetCall(q, i, c) && c.stage.Looking?
      modifies this
      ensures Valid() && old(trace) <= trace
      ensures undisturbed ==> state == old(state) && (old(Undisturbed()) ==> Undisturbed())
      ensures request == SetCall(q, i, c.(stage := AfterOwnRead(state, q.input, c, ok)))
    {
      Elsewhere();
      ok := *;
      Advance(Read(i, ok), q, i, c, c.(stage := AfterOwnRead(state, q.input, c, ok)));
    }

    /** The repository, the base if it must be unchanged, the branch, and the pull requests, in that order. */
    method Inspect(input: Input, reconcileOnly: bool, purpose: Purpose, ghost q: Request, ghost i: nat, ghost c: Call)
      returns (found: Outcome<Inspection, Fault>)
      requires Valid() && i < |q.calls| && request == SetCall(q, i, c) && q.input == input
      requires c.reconcileOnly == reconcileOnly && c.stage == Looking(purpose, Repository)
      modifies this
      ensures Valid() && old(trace) <= trace
      ensures undisturbed ==>
                && state == old(state) && (old(Undisturbed()) ==> Undisturbed())
                && (found == InspectionOf(state, input, RequiresBase(purpose, reconcileOnly))
                     || found == Denied(Unavailable))
      ensures request == SetCall(q, i, c.(stage := Concluded(purpose, reconcileOnly, found)))
    {
      var ok := Reads(q, i, c);
      if !ok {
        return Denied(Unavailable);
      }
      if !state.identityMatches {
        return Denied(Conflict);
      }
      if RequiresBase(purpose, reconcileOnly) {
        ok := Reads(q, i, c.(stage := Looking(purpose, Base)));
        if !ok {
          return Denied(Unavailable);
        }
        if state.base != Some(input.inputCommit) {
          return Denied(Conflict);
        }
      }
      ok := Reads(q, i, c.(stage := Looking(purpose, Branch)));
      if !ok {
        return Denied(Unavailable);
      }
      var branch := state.branch;
      ok := Reads(q, i, c.(stage := Looking(purpose, Pulls(branch))));
      if !ok {
        return Denied(Unavailable);
      }
      return PullsSay(state.pulls, branch, input);
    }

    /** A push that expects the branch to be absent; its reply is not used. */
    method Push(input: Input, ghost q: Request, ghost i: nat, ghost c: Call) returns (ghost d: Call)
      requires Valid() && i < |q.calls| && request == SetCall(q, i, c) && q.input == input
      requires c.stage.Pushing? && !c.branchMade
      modifies this
      ensures Valid() && old(trace) <= trace && request == SetCall(q, i, d)
      ensures d == c.(stage := Looking(AfterPush, Repository), pushes := c.pushes + 1, branchMade := d.branchMade)
      ensures undisturbed ==>
                && (state == old(state) || state == Pushed(old(state), input))
                && (old(Undisturbed()) ==> Undisturbed())
    {
      Elsewhere();
      d := c.(stage := Looking(AfterPush, Repository), pushes := c.pushes + 1);
      Advance(PublicationProtocol.Push(i), q, i, c, d);
      var reached: bool := *;
      if reached && state.branch.None? {
        Land(PushLands(i), q, i, d, d.(branchMade := true), Pushed(state, input));
        d := d.(branchMade := true);
      }
    }

    /** Opening the draft; the reply says nothing certain about the effect. */
    method Create(input: Input, ghost q: Request, ghost i: nat, ghost c: Call) returns (ghost d: Call, confirmed: bool)
      requires Valid() && i < |q.calls| && request == SetCall(q, i, c) && q.input == input
      requires c.stage.Creating? && !c.draftMade
      modifies this
      ensures Valid() && old(trace) <= trace && request == SetCall(q, i, d)
      ensures d == c.(stage := Looking(AfterCreate, Repository), creates := c.creates + 1, draftMade := d.draftMade)
      ensures undisturbed ==>
                && (state == old(state) || exists number: nat :: state == Created(old(state), input, number))
                && (old(Undisturbed()) ==> Undisturbed())
    {
      Elsewhere();
      d := c.(stage := Looking(AfterCreate, Repository), creates := c.creates + 1);
      Advance(PublicationProtocol.Create(i), q, i, c, d);
      confirmed := *;
      var reached: bool := *;
      var number: nat :| true;
      if reached && Created(state, input, number) != state {
        Land(CreateLands(i, number), q, i, d, d.(draftMade := true), Created(state, input, number));
        d := d.(draftMade := true);
      }
    }

    /** A command takes effect. */
    method Land(ghost step: Step, ghost q: Request, ghost i: nat, ghost c: Call, ghost d: Call, after: RemoteState)
      requires Valid() && i < |q.calls| && request == SetCall(q, i, c)
      requires RequestAfter(request, state, step) == SetCall(request, i, d)
               && RemoteAfter(request, state, step) == after
      modifies this
      ensures Valid() && request == SetCall(q, i, d) && state == after && trace == old(trace) + [At(0, step)]
    {
      RunOne(start, trace, At(0, step));
      SetAgain(q, i, c, d);
      assert [request][0 := SetCall(request, i, d)] == [SetCall(request, i, d)];
      request := SetCall(request, i, d);
      trace := trace + [At(0, step)];
      state := after;
    }

    /** The call stands at d, with the result it ends in if it is over. */
    ghost predicate Stopped(q: Request, i: nat, d: Call, r: Option<Outcome<Pull, Fault>>)
      requires i < |q.calls|
      reads this
    {
      request == SetCall(q, i, d) && (r.Some? ==> d.stage == Over(ResultOf(r.value)))
    }

    /** Push, and read back what became of it. */
    method PushBranch(input: Input, ghost q: Request, ghost i: nat, ghost c: Call)
      returns (r: Option<Outcome<Pull, Fault>>, ghost d: Call)
      requires Valid() && i < |q.calls| && request == SetCall(q, i, c) && q.input == input
      requires c == NewCall(false).(stage := Pushing)
      modifies this
      ensures Valid() && old(trace) <= trace && Stopped(q, i, d, r)
      ensures !d.reconcileOnly && d.pushes == 1 && d.creates == 0 && !d.draftMade
      ensures r.None? ==> d.stage.Creating?
      ensures r.Some? && r.value.Denied? ==> r.value.why.Uncertain?
      ensures undisturbed && old(state).branch.None? && old(state).pulls == [] ==>
                && (state == old(state) || state == Pushed(old(state), input)) && (old(Undisturbed()) ==> Undisturbed())
                && (r.None? ==> InspectionOf(state, input, true) == Done(BranchOnly))
                && (r.Some? ==> r.value.Denied?)
    {
      d := Push(input, q, i, c);
      var inspected := Inspect(input, false, AfterPush, q, i, d);
      d := d.(stage := Concluded(AfterPush, false, inspected));
      if inspected.Denied? {
        return Some(Denied(Uncertain)), d;
      }
      if inspected.value.Published? {
        return Some(Done(inspected.value.pull)), d;
      }
      if !inspected.value.BranchOnly? {
        return Some(Denied(Uncertain)), d;
      }
      return None, d;
    }

    /** Open the draft, and read back what became of it. */
    method OpenDraft(input: Input, ghost q: Request, ghost i: nat, ghost c: Call)
      returns (r: Outcome<Pull, Fault>, ghost d: Call)
      requires Valid() && i < |q.calls| && request == SetCall(q, i, c) && q.input == input
      requires c.stage.Creating? && !c.reconcileOnly && !c.draftMade && c.creates == 0
      modifies this
      ensures Valid() && old(trace) <= trace && Stopped(q, i, d, Some(r))
      ensures !d.reconcileOnly && d.pushes == c.pushes && d.creates == 1
      ensures r.Denied? ==> r.why.Uncertain?
      ensures undisturbed ==>
                && (state == old(state) || exists number: nat :: state == Created(old(state), input, number))
                && (old(Undisturbed()) ==> Undisturbed())
                && (r.Done? ==> DraftPublished(state, input) && state.pulls == [r.value])
    {
      var confirmed;
      d, confirmed := Create(input, q, i, c);
      var inspected := Inspect(input, false, AfterCreate, q, i, d);
      d := d.(stage := Concluded(AfterCreate, false, inspected));
      if inspected.Done? && inspected.value.Published? {
        return Done(inspected.value.pull), d;
      }
      return Denied(Uncertain), d;
    }

    /** What one call may have issued by the time it ends this way. */
    ghost predicate Issued(q: Request, i: nat, reconcileOnly: bool, r: Outcome<Pull, Fault>, d: Call)
      requires i < |q.calls|
      reads this
    {
      && Stopped(q, i, d, Some(r)) && d.reconcileOnly == reconcileOnly && d.pushes <= 1 && d.creates <= 1
      && (reconcileOnly || (r.Denied? && !r.why.Uncertain?) ==> d.pushes == 0 && d.creates == 0)
    }

    /** What the call did to a remote that nobody else touched. */
    ghost predicate Effect(before: RemoteState, input: Input, local: Local, r: Outcome<Pull, Fault>, d: Call)
      reads this
    {
      && OnlyAdds(before, state, input)
      && (r.Done? ==> DraftPublished(state, input) && state.pulls == [r.value])
      && (d.pushes == 0 && d.creates == 0 ==> state == before)
      && (d.pushes > 0 || d.creates > 0 ==>
            input.valid && local.Sound? && InspectionOf(before, input, true).Done? && !DraftPublished(before, input))
      && (d.creates > 0 ==> state.branch == Some(input.candidate))
    }

    /**
     Publish, or only reconcile. However the remote changes under it, a reconciling call and any certain refusal
     issue no command, and no command is issued twice. On a remote that nobody else touches, a result means the exact
     draft is there, and without a command nothing has changed.
     */
    method PublishDraft(input: Input, reconcileOnly: bool, local: Local, ghost q: Request, ghost i: nat)
      returns (r: Outcome<Pull, Fault>, ghost d: Call)
      requires Valid() && request == q && q.input == input && i < |q.calls| && q.calls[i] == NewCall(reconcileOnly)
      modifies this
      ensures Valid() && old(trace) <= trace && Issued(q, i, reconcileOnly, r, d)
      ensures undisturbed ==> Effect(old(state), input, local, r, d) && (old(Undisturbed()) ==> Undisturbed())
    {
      ghost var c := NewCall(reconcileOnly);
      assert SetCall(q, i, c) == q;
      d := c.(stage := Checked(input, reconcileOnly, local));
      Advance(Check(i, local), q, i, c, d);
      if !input.valid {
        return Denied(InvalidInput), d;
      }
      if !reconcileOnly && !local.Sound? {
        return Denied(if local.Moved? then Conflict else Unavailable), d;
      }
      var inspected := Inspect(input, reconcileOnly, First, q, i, d);
      d := d.(stage := Concluded(First, reconcileOnly, inspected));
      if inspected.Denied? {
        return Denied(inspected.why), d;
      }
      if inspected.value.Published? {
        return Done(inspected.value.pull), d;
      }
      if reconcileOnly {
        return Denied(Uncertain), d;
      }
      if inspected.value.Absent? {
        var ended;
        ended, d := PushBranch(input, q, i, d);
        if ended.Some? {
          return ended.value, d;
        }
      }
      r, d := OpenDraft(input, q, i, d);
    }
  }
}
