/** When a succeeded or failed publication record is final, and when a starting supervisor can still rewrite it. */
module PublicationFinality {
  import opened Primitives
  import opened GitHubRemote
  import opened PublicationProtocol

  predicate NoneLive(q: Request) {
    forall i: nat | i < |q.calls| :: q.calls[i].stage.Gone?
  }

  predicate Final(q: Request) {
    q.record == Some(Succeeded) || q.record == Some(Failed)
  }

  /** No sweep holds an old reading; and, for a failed record, no reconciliation is in flight. */
  predicate Quiet(q: Request) {
    q.sweeps == 0 && (q.record == Some(Failed) ==> NoneLive(q))
  }

  lemma QuietStep(q: Request, s: RemoteState, step: Step)
    requires Final(q) && Quiet(q)
    ensures var q' := RequestAfter(q, s, step); q'.record == q.record && Quiet(q')
  {
    if q.record == Some(Failed) {
      assert forall i: nat | i < |q.calls| :: q.calls[i].stage == Gone;
    }
  }

  /** Requests keep their places. */
  lemma {:induction false} RequestsStay(w: World, later: seq<Event>)
    ensures |w.requests| <= |Run(w, later).requests|
  {
    if later != [] {
      RequestsStay(w, later[..|later| - 1]);
    }
  }

  function RecordOf(w: World, later: seq<Event>, r: nat): Option<ActionState>
    requires r < |w.requests|
  {
    RequestsStay(w, later);
    Run(w, later).requests[r].record
  }

  lemma {:induction false} QuietForever(w: World, later: seq<Event>, r: nat)
    requires r < |w.requests| && Final(w.requests[r]) && Quiet(w.requests[r])
    ensures RecordOf(w, later, r) == w.requests[r].record
    ensures |w.requests| <= |Run(w, later).requests| && Quiet(Run(w, later).requests[r])
  {
    RequestsStay(w, later);
    if later != [] {
      var n := |later| - 1;
      QuietForever(w, later[..n], r);
      var v, e := Run(w, later[..n]), later[n];
      if e.At? && e.r == r {
        QuietStep(v.requests[r], v.remote, e.step);
      }
    }
  }

  lemma RunOnce(w: World, e: Event)
    ensures Run(w, [e]) == Next(w, e)
  {
    var one := [e];
    assert one[..0] == [];
  }

  lemma RunTwice(w: World, e: Event, f: Event)
    ensures Run(w, [e, f]) == Next(Next(w, e), f)
  {
    RunOnce(w, e);
    var two := [e, f];
    assert two[..1] == [e];
  }

  /** A live call of a final but unquiet request can still rewrite its record. */
  lemma Rewritten(w: World, r: nat) returns (later: seq<Event>)
    requires r < |w.requests| && RequestInv(w.requests[r]) && Final(w.requests[r]) && !Quiet(w.requests[r])
    ensures RecordOf(w, later, r) != w.requests[r].record
  {
    var q := w.requests[r];
    if q.sweeps > 0 {
      later := [At(r, SweepWrite)];
      RunOnce(w, At(r, SweepWrite));
    } else {
      var i: nat :| i < |q.calls| && !q.calls[i].stage.Gone?;
      assert CallInv(q, i);
      later := [At(r, Break(i)), At(r, Record(i))];
      RunTwice(w, At(r, Break(i)), At(r, Record(i)));
    }
  }

  /**
   A succeeded or failed record can never change again exactly when no starting supervisor still holds an old reading
   of it and, if it failed, no reconciliation of it is in flight; whatever the other requests and anyone else do.
   */
  lemma FinalExactly(start: World, history: seq<Event>, r: nat)
    requires start.requests == [] && r < |Run(start, history).requests| && Final(Run(start, history).requests[r])
    ensures var w := Run(start, history);
            (forall later :: RecordOf(w, later, r) == w.requests[r].record) <==> Quiet(w.requests[r])
  {
    var w := Run(start, history);
    RunKeeps(start, history);
    assert w.requests[r] in w.requests;
    if Quiet(w.requests[r]) {
      forall later ensures RecordOf(w, later, r) == w.requests[r].record {
        QuietForever(w, later, r);
      }
    } else {
      var later := Rewritten(w, r);
    }
  }

  // ---------------------------------------------------------------- overlapping supervisors

  /** The steps of one request in a row, over a remote that nobody else changes. */
  function RunSteps(q: Request, s: RemoteState, steps: seq<Step>): (Request, RemoteState) {
    if steps == [] then (q, s)
    else
      var before := RunSteps(q, s, steps[..|steps| - 1]);
      (RequestAfter(before.0, before.1, steps[|steps| - 1]), RemoteAfter(before.0, before.1, steps[|steps| - 1]))
  }

  function AllAt(r: nat, steps: seq<Step>): seq<Event> {
    if steps == [] then [] else AllAt(r, steps[..|steps| - 1]) + [At(r, steps[|steps| - 1])]
  }

  lemma {:induction false} RunStepsIsRun(w: World, steps: seq<Step>, r: nat)
    requires r < |w.requests|
    ensures var (q, s) := RunSteps(w.requests[r], w.remote, steps);
            Run(w, AllAt(r, steps)) == w.(requests := w.requests[r := q], remote := s)
  {
    if steps != [] {
      var n := |steps| - 1;
      RunStepsIsRun(w, steps[..n], r);
      RunOne(w, AllAt(r, steps[..n]), At(r, steps[n]));
      var (q, s) := RunSteps(w.requests[r], w.remote, steps[..n]);
      assert w.requests[r := q][r := RequestAfter(q, s, steps[n])] == w.requests[r := RequestAfter(q, s, steps[n])];
    }
  }

  lemma StepsOnce(q: Request, s: RemoteState, steps: seq<Step>, step: Step)
    ensures RunSteps(q, s, steps + [step]) ==
            var (q1, s1) := RunSteps(q, s, steps); (RequestAfter(q1, s1, step), RemoteAfter(q1, s1, step))
  {
    assert (steps + [step])[..|steps|] == steps;
  }

  function Untried(input: Input): Request {
    Request(input, None, [], 0)
  }

  /** A call that is refused for a changed workspace, while a starting supervisor holds its reading. */
  const FAILING: seq<Step> := [Claim(true), SweepRead, Check(0, Moved)] + [Record(0)]

  function FourReads(steps: seq<Step>): seq<Step> {
    steps + [Read(0, true)] + [Read(0, true)] + [Read(0, true)] + [Read(0, true)]
  }

  /**
   A call that inspects, pushes, inspects, opens the draft and inspects, while a starting supervisor holds its
   reading.
   */
  const PUSHING: seq<Step> := FourReads([Claim(true), SweepRead, Check(0, Sound)]) + [Push(0)] + [PushLands(0)]
  const PUBLISHING: seq<Step> := FourReads(FourReads(PUSHING) + [Create(0)] + [CreateLands(0, 1)]) + [Record(0)]

  /** A remote without the WorkOrder's branch, at the reviewed base. */
  predicate Pristine(s: RemoteState, input: Input) {
    s.identityMatches && s.base == Some(input.inputCommit) && s.branch.None? && s.pulls == []
  }

  /** A request whose one call stands here. */
  function Standing(q: Request, c: Call): Request {
    q.(calls := [c])
  }

  lemma OnlyCall(q: Request, c: Call, d: Call)
    ensures SetCall(Standing(q, c), 0, d) == Standing(q, d)
  {
  }

  /** These steps bring the only call here. */
  predicate Brings(q: Request, s: RemoteState, steps: seq<Step>, before: Request, call: Call, r: RemoteState) {
    RunSteps(q, s, steps) == (Standing(before, call), r)
  }

  /** One answered read of the only call. */
  lemma ReadBy(q: Request, s: RemoteState, steps: seq<Step>, before: Request, call: Call, r: RemoteState, next: Call)
    requires Brings(q, s, steps, before, call, r) && call.stage.Looking?
    requires var stage := AfterRead(r, before.input, call.reconcileOnly, call.stage.purpose, call.stage.reading, true);
             next == call.(stage := stage)
    ensures Brings(q, s, steps + [Read(0, true)], before, next, r)
  {
    OnlyCall(before, call, next);
    StepsOnce(q, s, steps, Read(0, true));
  }

  /** The reads of the repository and its base. */
  lemma BaseBy(q: Request, s: RemoteState, steps: seq<Step>, before: Request, call: Call, r: RemoteState,
               purpose: Purpose)
    requires Brings(q, s, steps, before, call, r) && call.stage == Looking(purpose, Repository) && !call.reconcileOnly
    requires r.identityMatches && r.base == Some(before.input.inputCommit)
    ensures Brings(q, s, steps + [Read(0, true)] + [Read(0, true)], before,
                   call.(stage := Looking(purpose, Branch)), r)
  {
    ReadBy(q, s, steps, before, call, r, call.(stage := Looking(purpose, Base)));
    ReadBy(q, s, steps + [Read(0, true)], before, call.(stage := Looking(purpose, Base)), r,
           call.(stage := Looking(purpose, Branch)));
  }

  /** The reads of the branch and the pull requests. */
  lemma PullsBy(q: Request, s: RemoteState, steps: seq<Step>, before: Request, call: Call, r: RemoteState,
                purpose: Purpose)
    requires Brings(q, s, steps, before, call, r) && call.stage == Looking(purpose, Branch) && !call.reconcileOnly
    ensures Brings(q, s, steps + [Read(0, true)] + [Read(0, true)], before,
                   call.(stage := Concluded(purpose, false, PullsSay(r.pulls, r.branch, before.input))), r)
  {
    var concluded := Concluded(purpose, false, PullsSay(r.pulls, r.branch, before.input));
    ReadBy(q, s, steps, before, call, r, call.(stage := Looking(purpose, Pulls(r.branch))));
    ReadBy(q, s, steps + [Read(0, true)], before, call.(stage := Looking(purpose, Pulls(r.branch))), r,
           call.(stage := concluded));
  }

  /** Four answered reads conclude an inspection of a remote that stays put. */
  lemma InspectBy(q: Request, s: RemoteState, steps: seq<Step>, before: Request, call: Call, r: RemoteState,
                  purpose: Purpose)
    requires Brings(q, s, steps, before, call, r) && call.stage == Looking(purpose, Repository) && !call.reconcileOnly
    requires r.identityMatches && r.base == Some(before.input.inputCommit)
    ensures Brings(q, s, FourReads(steps), before,
                   call.(stage := Concluded(purpose, false, PullsSay(r.pulls, r.branch, before.input))), r)
  {
    BaseBy(q, s, steps, before, call, r, purpose);
    PullsBy(q, s, steps + [Read(0, true)] + [Read(0, true)], before, call.(stage := Looking(purpose, Branch)), r,
            purpose);
  }

  /** The request under way, held by a sweep, and its one call. */
  function UnderWay(input: Input): Request {
    Request(input, Some(Dispatched), [], 1)
  }

  lemma ClaimedOnly(input: Input, s: RemoteState)
    ensures RunSteps(Untried(input), s, [Claim(true)]) == (Request(input, Some(Dispatched), [NewCall(false)], 0), s)
  {
    assert [] + [Claim(true)] == [Claim(true)] && [] + [NewCall(false)] == [NewCall(false)];
    StepsOnce(Untried(input), s, [], Claim(true));
  }

  lemma ClaimedBy(input: Input, s: RemoteState)
    ensures RunSteps(Untried(input), s, [Claim(true), SweepRead]) == (Standing(UnderWay(input), NewCall(false)), s)
  {
    ClaimedOnly(input, s);
    StepsOnce(Untried(input), s, [Claim(true)], SweepRead);
    assert [Claim(true)] + [SweepRead] == [Claim(true), SweepRead];
  }

  lemma CheckedBy(input: Input, s: RemoteState, local: Local)
    ensures RunSteps(Untried(input), s, [Claim(true), SweepRead, Check(0, local)]) ==
            (Standing(UnderWay(input), NewCall(false).(stage := Checked(input, false, local))), s)
  {
    assert [Claim(true), SweepRead, Check(0, local)] == [Claim(true), SweepRead] + [Check(0, local)];
    ClaimedBy(input, s);
    OnlyCall(UnderWay(input), NewCall(false), NewCall(false).(stage := Checked(input, false, local)));
    StepsOnce(Untried(input), s, [Claim(true), SweepRead], Check(0, local));
  }

  lemma {:induction false} RunAppend(w: World, a: seq<Event>, b: seq<Event>)
    ensures Run(w, a + b) == Run(Run(w, a), b)
  {
    if b == [] {
      assert a + b == a;
    } else {
      var n := |b| - 1;
      RunAppend(w, a, b[..n]);
      assert (a + b)[..|a| + n] == a + b[..n];
    }
  }

  /** The history of a WorkOrder with one request, which takes these steps. */
  function OneRequest(input: Input, steps: seq<Step>): seq<Event> {
    [NewRequest(input)] + AllAt(0, steps)
  }

  /** The history of one request, and that history when a sweep then writes what it had read. */
  lemma OneRequestRuns(input: Input, s: RemoteState, steps: seq<Step>)
    ensures var start, (q, s') := Begin(input.branch, input.baseBranch, s), RunSteps(Untried(input), s, steps);
            && Run(start, OneRequest(input, steps)) == start.(requests := [q], remote := s')
            && Run(start, OneRequest(input, steps) + [At(0, SweepWrite)])
               == start.(requests := [RequestAfter(q, s', SweepWrite)], remote := s')
  {
    var start := Begin(input.branch, input.baseBranch, s);
    RunOnce(start, NewRequest(input));
    RunAppend(start, [NewRequest(input)], AllAt(0, steps));
    assert [] + [Untried(input)] == [Untried(input)];
    var w := Run(start, [NewRequest(input)]);
    RunStepsIsRun(w, steps, 0);
    var (q, s') := RunSteps(Untried(input), s, steps);
    assert w.requests[0 := q] == [q];
    RunOne(start, OneRequest(input, steps), At(0, SweepWrite));
    assert [q][0 := RequestAfter(q, s', SweepWrite)] == [RequestAfter(q, s', SweepWrite)];
  }

  /** After this history the only request's record is `before`; a sweep that began earlier then makes it unknown. */
  predicate Reopens(start: World, history: seq<Event>, before: ActionState) {
    var w, w' := Run(start, history), Run(start, history + [At(0, SweepWrite)]);
    && |w.requests| == |w'.requests| == 1 && w'.remote == w.remote
    && w.requests[0].record == Some(before) && w'.requests[0].record == Some(Unknown)
  }

  lemma RefusedBy(input: Input, s: RemoteState)
    requires input.valid
    ensures var (q, s') := RunSteps(Untried(input), s, FAILING);
            && q.record == Some(Failed) && q.sweeps == 1 && s' == s
  {
    var w, refused := UnderWay(input), NewCall(false).(stage := Over(Refused(Conflict)));
    CheckedBy(input, s, Moved);
    StepsOnce(Untried(input), s, [Claim(true), SweepRead, Check(0, Moved)], Record(0));
    OnlyCall(w, refused, refused.(stage := Gone));
  }

  /** A supervisor that starts while a call is in flight can reopen a failed record: it then reads as unknown. */
  lemma OverlapReopensFailed(input: Input, s: RemoteState)
    requires input.valid
    ensures var start, history := Begin(input.branch, input.baseBranch, s), OneRequest(input, FAILING);
            Reopens(start, history, Failed) && Run(start, history).remote == s
  {
    RefusedBy(input, s);
    OneRequestRuns(input, s, FAILING);
  }

  /** From the claim to the pushed branch. */
  lemma PushedBy(input: Input, s: RemoteState) returns (steps: seq<Step>)
    requires input.valid && Pristine(s, input)
    ensures steps == PUSHING
    ensures RunSteps(Untried(input), s, steps) ==
            (Standing(UnderWay(input), Call(false, Looking(AfterPush, Repository), 1, 0, true, false)),
             s.(branch := Some(input.candidate)))
  {
    var q, w := Untried(input), UnderWay(input);
    var first := [Claim(true), SweepRead, Check(0, Sound)];
    CheckedBy(input, s, Sound);
    InspectBy(q, s, first, w, NewCall(false).(stage := Looking(First, Repository)), s, First);
    var pushing, pushed := Call(false, Pushing, 0, 0, false, false),
        Call(false, Looking(AfterPush, Repository), 1, 0, false, false);
    assert RunSteps(q, s, FourReads(first)) == (Standing(w, pushing), s);
    OnlyCall(w, pushing, pushed);
    StepsOnce(q, s, FourReads(first), Push(0));
    assert RunSteps(q, s, FourReads(first) + [Push(0)]) == (Standing(w, pushed), s);
    OnlyCall(w, pushed, pushed.(branchMade := true));
    StepsOnce(q, s, FourReads(first) + [Push(0)], PushLands(0));
    steps := FourReads(first) + [Push(0)] + [PushLands(0)];
  }

  /** From the pushed branch to the open draft. */
  lemma OpenedBy(input: Input, s: RemoteState, steps: seq<Step>, r: RemoteState) returns (all: seq<Step>)
    requires Pristine(s, input) && r == s.(branch := Some(input.candidate))
    requires RunSteps(Untried(input), s, steps) ==
             (Standing(UnderWay(input), Call(false, Looking(AfterPush, Repository), 1, 0, true, false)), r)
    ensures all == FourReads(steps) + [Create(0)] + [CreateLands(0, 1)]
    ensures RunSteps(Untried(input), s, all) ==
            (Standing(UnderWay(input), Call(false, Looking(AfterCreate, Repository), 1, 1, true, true)),
             r.(pulls := [Pull(1, true, true, input.branch, input.candidate, true, input.baseBranch)]))
  {
    var q, w := Untried(input), UnderWay(input);
    InspectBy(q, s, steps, w, Call(false, Looking(AfterPush, Repository), 1, 0, true, false), r, AfterPush);
    var read := FourReads(steps);
    var creating, made := Call(false, Creating, 1, 0, true, false),
        Call(false, Looking(AfterCreate, Repository), 1, 1, true, false);
    assert RunSteps(q, s, read) == (Standing(w, creating), r);
    OnlyCall(w, creating, made);
    StepsOnce(q, s, read, Create(0));
    assert RunSteps(q, s, read + [Create(0)]) == (Standing(w, made), r);
    OnlyCall(w, made, made.(draftMade := true));
    var draft := Pull(1, true, true, input.branch, input.candidate, true, input.baseBranch);
    assert r.pulls + [draft] == [draft];
    StepsOnce(q, s, read + [Create(0)], CreateLands(0, 1));
    all := read + [Create(0)] + [CreateLands(0, 1)];
  }

  /** From the open draft to the recorded success. */
  lemma RecordedBy(input: Input, s: RemoteState, steps: seq<Step>, r: RemoteState) returns (all: seq<Step>)
    requires r.identityMatches && r.base == Some(input.inputCommit) && DraftPublished(r, input)
    requires RunSteps(Untried(input), s, steps) ==
             (Standing(UnderWay(input), Call(false, Looking(AfterCreate, Repository), 1, 1, true, true)), r)
    ensures all == FourReads(steps) + [Record(0)]
    ensures RunSteps(Untried(input), s, all) == (Request(input, Some(Succeeded), [Call(false, Gone, 1, 1, true, true)],
              1), r)
  {
    var q, w := Untried(input), UnderWay(input);
    InspectBy(q, s, steps, w, Call(false, Looking(AfterCreate, Repository), 1, 1, true, true), r, AfterCreate);
    var done := Call(false, Over(Returned), 1, 1, true, true);
    assert RunSteps(q, s, FourReads(steps)) == (Standing(w, done), r);
    OnlyCall(w, done, done.(stage := Gone));
    StepsOnce(q, s, FourReads(steps), Record(0));
    all := FourReads(steps) + [Record(0)];
  }

  lemma PublishedBy(input: Input, s: RemoteState)
    requires input.valid && Pristine(s, input)
    ensures var (q, s') := RunSteps(Untried(input), s, PUBLISHING);
            q.record == Some(Succeeded) && q.sweeps == 1 && DraftPublished(s', input)
  {
    var pushed := PushedBy(input, s);
    var r := s.(branch := Some(input.candidate));
    var landed := OpenedBy(input, s, pushed, r);
    var draft := Pull(1, true, true, input.branch, input.candidate, true, input.baseBranch);
    var all := RecordedBy(input, s, landed, r.(pulls := [draft]));
  }

  /** And a succeeded record: its draft is published, and the record then reads as unknown. */
  lemma OverlapReopensSucceeded(input: Input, s: RemoteState)
    requires input.valid && Pristine(s, input)
    ensures var start, history := Begin(input.branch, input.baseBranch, s), OneRequest(input, PUBLISHING);
            Reopens(start, history, Succeeded) && DraftPublished(Run(start, history).remote, input)
  {
    PublishedBy(input, s);
    OneRequestRuns(input, s, PUBLISHING);
  }

  // ---------------------------------------------------------------- one supervisor at a time

  /** A supervisor starts only when no call of the request is in flight, and finishes its sweep of it first. */
  predicate Exclusive(q: Request, step: Step) {
    if q.sweeps > 0 then step.SweepWrite? else step.SweepRead? ==> NoneLive(q)
  }

  /** Every step of request r is exclusive; the other requests and anyone else do as they like. */
  predicate OneSupervisor(start: World, history: seq<Event>, r: nat) {
    forall n: nat | n < |history| && history[n].At? && history[n].r == r ::
      r < |Run(start, history[..n]).requests| ==> Exclusive(Run(start, history[..n]).requests[r], history[n].step)
  }

  predicate Alone(q: Request) {
    && q.sweeps <= 1
    && (q.sweeps == 1 ==> q.record == Some(Dispatched) && NoneLive(q))
    && (q.record == Some(Dispatched) ==> |q.calls| == 1)
    && (Live(q, 0) ==> q.record == Some(Dispatched))
    && (q.record == Some(Failed) ==> NoneLive(q))
  }

  lemma AloneStep(q: Request, s: RemoteState, step: Step)
    requires RequestInv(q) && Alone(q) && Exclusive(q, step)
    ensures Alone(RequestAfter(q, s, step))
    ensures Final(q) ==> RequestAfter(q, s, step).record == q.record
  {
    if step.Record? && step.i < |q.calls| {
      assert CallInv(q, step.i);
    }
    if q.record == Some(Dispatched) {
      assert |q.calls| == 1;
    }
  }

  lemma PrefixExclusive(start: World, history: seq<Event>, n: nat, r: nat)
    requires OneSupervisor(start, history, r) && n <= |history|
    ensures OneSupervisor(start, history[..n], r)
  {
    forall k: nat | k < n && history[..n][k].At? && history[..n][k].r == r
      ensures r < |Run(start, history[..n][..k]).requests| ==>
                Exclusive(Run(start, history[..n][..k]).requests[r], history[..n][k].step)
    {
      assert history[..n][..k] == history[..k];
    }
  }

  lemma {:induction false} AloneRun(start: World, history: seq<Event>, r: nat)
    requires start.requests == [] && OneSupervisor(start, history, r)
    ensures r < |Run(start, history).requests| ==> Alone(Run(start, history).requests[r])
  {
    if history != [] {
      var n := |history| - 1;
      PrefixExclusive(start, history, n, r);
      AloneRun(start, history[..n], r);
      AloneNext(start, history, r);
    }
  }

  /** One event of a history in which request r has one supervisor at a time. */
  lemma AloneNext(start: World, history: seq<Event>, r: nat)
    requires start.requests == [] && history != [] && OneSupervisor(start, history, r)
    requires var w := Run(start, history[..|history| - 1]); r < |w.requests| ==> Alone(w.requests[r])
    ensures r < |Run(start, history).requests| ==> Alone(Run(start, history).requests[r])
    ensures var w := Run(start, history[..|history| - 1]);
            r < |w.requests| && Final(w.requests[r]) ==>
              r < |Run(start, history).requests| && Run(start, history).requests[r].record == w.requests[r].record
  {
    var n := |history| - 1;
    var w, e := Run(start, history[..n]), history[n];
    RunKeeps(start, history[..n]);
    if r < |w.requests| && e.At? && e.r == r {
      assert w.requests[r] in w.requests;
      AloneStep(w.requests[r], w.remote, e.step);
    }
  }

  /** The record of request r, once there is one. */
  function RecordAfter(start: World, history: seq<Event>, r: nat): Option<ActionState> {
    var w := Run(start, history);
    if r < |w.requests| then w.requests[r].record else None
  }

  predicate FinalAfter(start: World, history: seq<Event>, r: nat) {
    RecordAfter(start, history, r) == Some(Succeeded) || RecordAfter(start, history, r) == Some(Failed)
  }

  lemma FinalNext(start: World, history: seq<Event>, r: nat)
    requires start.requests == [] && history != [] && OneSupervisor(start, history, r)
    requires FinalAfter(start, history[..|history| - 1], r)
    ensures RecordAfter(start, history, r) == RecordAfter(start, history[..|history| - 1], r)
  {
    var n := |history| - 1;
    PrefixExclusive(start, history, n, r);
    AloneRun(start, history[..n], r);
    AloneNext(start, history, r);
  }

  /** With one supervisor at a time, a request's succeeded and failed are final over every history. */
  lemma {:induction false} FinalWithOneSupervisor(start: World, history: seq<Event>, n: nat, r: nat)
    requires start.requests == [] && OneSupervisor(start, history, r) && n <= |history|
    requires FinalAfter(start, history[..n], r)
    ensures RecordAfter(start, history, r) == RecordAfter(start, history[..n], r)
  {
    if n == |history| {
      assert history[..n] == history;
    } else {
      var m := |history| - 1;
      PrefixExclusive(start, history, m, r);
      assert history[..m][..n] == history[..n];
      FinalWithOneSupervisor(start, history[..m], n, r);
      FinalNext(start, history, r);
    }
  }
}
