/**
 Which Works and requests the rounds of a repair chain can use: neighbouring rounds never share a Work, and a client's
 request prepares one WorkOrder.
 */
module RepairWorks {
  import opened Primitives
  import opened RepairTransactions
  import opened RepairTheorems
  import Spend = RepairSpend

  /**
   An admitted claim would be admitted for any other Work just the same, but for the one its parent was prepared with.
   */
  lemma WorkIdentityIsFree(
    s: Store, id: string, input: Prepare, workId: string, now: int, sameWork: bool, untouched: bool)
    requires ClaimRepairPreparation(s, id, input, now, sameWork, untouched).out.Some?
    ensures ClaimRepairPreparation(s, id, input.(workId := workId), now, sameWork, untouched).out.Some? <==>
            var parent := PrepareOf(s, LinkOf(s, id).value.parent.workOrderId);
            parent.Some? ==> parent.value.workId != workId
  {
  }

  // ---------------------------------------------------------------- calls that prepare and link nothing

  predicate Plain(e: Event) {
    !e.PrepareRequested? && !e.Linked? && !e.Approved?
  }

  predicate Plainly(log: seq<Entry>, log': seq<Entry>) {
    log <= log' && forall e <- log'[|log|..] :: Plain(e.event)
  }

  lemma {:induction false} PlainReads(log: seq<Entry>, more: seq<Entry>, id: string)
    requires forall e <- more :: Plain(e.event)
    ensures LinkIn(EventsOf(log + more, id)) == LinkIn(EventsOf(log, id))
    ensures PrepareIn(EventsOf(log + more, id)) == PrepareIn(EventsOf(log, id))
  {
    if more == [] {
      assert log + more == log;
    } else {
      var n := |more| - 1;
      PlainReads(log, more[..n], id);
      assert (log + more)[..|log| + n] == log + more[..n];
      assert more[n] in more;
      var events := EventsOf(log + more[..n], id);
      if more[n].order == id {
        LinkInAppend(events, more[n].event);
        Spend.PrepareInAppend(events, more[n].event);
      } else {
        assert events + [] == events;
      }
    }
  }

  lemma PlainlyReads(s: Store, s': Store, id: string)
    requires Plainly(s.log, s'.log)
    ensures LinkOf(s', id) == LinkOf(s, id) && PrepareOf(s', id) == PrepareOf(s, id)
  {
    PlainReads(s.log, s'.log[|s.log|..], id);
    assert s.log + s'.log[|s.log|..] == s'.log;
  }

  lemma ObserveIsPlain(s: Store, value: Observation, checks: bool)
    ensures Plainly(s.log, Observe(s, value, checks).store.log)
  {
  }

  lemma ReviewIsPlain(s: Store, value: Review, checks: bool, action: bool)
    ensures Plainly(s.log, RecordReview(s, value, checks, action).store.log)
  {
  }

  lemma ProposeIsPlain(s: Store, id: string, reviewId: string, policy: Policy, now: int, genuine: bool, newId: string)
    ensures Plainly(s.log, Propose(s, id, reviewId, policy, now, genuine, newId).store.log)
  {
  }

  predicate Preparing(call: Call) {
    call.CallClaim? || call.CallPrepare?
  }

  lemma OthersArePlain(s: Store, call: Call, now: int)
    requires !Preparing(call) && !call.CallApprove?
    ensures Plainly(s.log, Apply(s, call, now).log)
  {
    match call
    case CallObserve(value, checks) => ObserveIsPlain(s, value, checks);
    case CallReview(value, checks, action) => ReviewIsPlain(s, value, checks, action);
    case CallPropose(id, reviewId, policy, genuine, newId) =>
      ProposeIsPlain(s, id, reviewId, policy, now, genuine, newId);
    case CallCreate(id, order) =>
    case CallHold(id) =>
  }

  /** A call that prepares appends one request, which no client had made before, or nothing. */
  lemma PreparingAppends(s: Store, call: Call, now: int)
    requires Preparing(call)
    ensures var s' := Apply(s, call, now);
            || s' == s
            || (s'.log == s.log + [Entry(call.id, PrepareRequested(call.input))] && !Requested(s.log, call.input))
  {
  }

  // ---------------------------------------------------------------- one WorkOrder a request

  predicate SameRequest(a: Entry, b: Entry) {
    && a.event.PrepareRequested? && b.event.PrepareRequested?
    && a.event.prepare.client == b.event.prepare.client && a.event.prepare.requestId == b.event.prepare.requestId
  }

  predicate OneRequestEach(log: seq<Entry>) {
    forall i, j | 0 <= i < j < |log| :: !SameRequest(log[i], log[j])
  }

  predicate Unprepared(log: seq<Entry>, log': seq<Entry>) {
    log <= log' && forall i | |log| <= i < |log'| :: !log'[i].event.PrepareRequested?
  }

  lemma UnpreparedKeeps(log: seq<Entry>, log': seq<Entry>)
    requires OneRequestEach(log) && Unprepared(log, log')
    ensures OneRequestEach(log')
  {
  }

  lemma PlainlyUnprepared(log: seq<Entry>, log': seq<Entry>)
    requires Plainly(log, log')
    ensures Unprepared(log, log')
  {
    forall i | |log| <= i < |log'| ensures !log'[i].event.PrepareRequested? {
      assert log'[i] in log'[|log|..];
    }
  }

  /** Plain events, and then two that are not requests. */
  lemma ThenTwo(log: seq<Entry>, proposed: seq<Entry>, a: Entry, b: Entry)
    requires Plainly(log, proposed) && !a.event.PrepareRequested? && !b.event.PrepareRequested?
    ensures Unprepared(log, proposed + [a] + [b])
  {
    PlainlyUnprepared(log, proposed);
  }

  lemma ApproveIsUnprepared(s: Store, root: string, proposalId: string, expected: Terms, owner: string, now: int,
                            genuine: bool, newId: string, childId: string)
    ensures Unprepared(s.log, Approve(s, root, proposalId, expected, owner, now, genuine, newId, childId).store.log)
  {
    var id := expected.parent.workOrderId;
    var log' := Approve(s, root, proposalId, expected, owner, now, genuine, newId, childId).store.log;
    var proposed := Propose(s, id, expected.reviewId, expected.policy, now, genuine, newId).store.log;
    ApproveLog(s, root, proposalId, expected, owner, now, genuine, newId, childId);
    ProposeIsPlain(s, id, expected.reviewId, expected.policy, now, genuine, newId);
    if log' != s.log {
      ThenTwo(s.log, proposed, log'[|proposed|], log'[|proposed| + 1]);
    }
  }

  lemma OneMoreRequest(log: seq<Entry>, e: Entry)
    requires OneRequestEach(log) && e.event.PrepareRequested? && !Requested(log, e.event.prepare)
    ensures OneRequestEach(log + [e])
  {
    forall i | 0 <= i < |log| ensures !SameRequest(log[i], e) {
      assert log[i] in log;
    }
  }

  lemma ApplyRequests(s: Store, call: Call, now: int)
    requires OneRequestEach(s.log)
    ensures OneRequestEach(Apply(s, call, now).log)
  {
    if Preparing(call) {
      PreparingAppends(s, call, now);
      if Apply(s, call, now) != s {
        OneMoreRequest(s.log, Entry(call.id, PrepareRequested(call.input)));
      }
    } else {
      if call.CallApprove? {
        ApproveIsUnprepared(s, call.root, call.proposalId, call.expected, call.owner, now, call.genuine, call.newId,
                            call.childId);
      } else {
        OthersArePlain(s, call, now);
        PlainlyUnprepared(s.log, Apply(s, call, now).log);
      }
      UnpreparedKeeps(s.log, Apply(s, call, now).log);
    }
  }

  /** In every history a client's request is recorded at most once, for one WorkOrder. */
  lemma {:induction false} RequestsAreUnique(history: seq<Tx>)
    ensures OneRequestEach(Run(EMPTY, history).log)
  {
    if history != [] {
      var n := |history| - 1;
      RequestsAreUnique(history[..n]);
      ApplyRequests(Run(EMPTY, history[..n]), history[n].call, history[n].now);
    }
  }

  // ---------------------------------------------------------------- neighbouring rounds

  /** Two preparations of neighbours in a chain: different Works, the same repository. */
  predicate Apart(child: Option<Prepare>, parent: Option<Prepare>) {
    child.Some? && parent.Some? ==>
      child.value.workId != parent.value.workId && child.value.repository == parent.value.repository
  }

  predicate ApartFromParent(s: Store, id: string) {
    LinkOf(s, id).Some? ==> Apart(PrepareOf(s, id), PrepareOf(s, LinkOf(s, id).value.parent.workOrderId))
  }

  ghost predicate WorksInv(s: Store) {
    ChainInv(s) && forall id :: ApartFromParent(s, id)
  }

  /** What a repaired WorkOrder's parent is: known, of the same chain, and no longer its tip. */
  lemma ParentIsBehind(s: Store, id: string)
    requires ChainInv(s) && LinkOf(s, id).Some?
    ensures var link := LinkOf(s, id).value; var parent := link.parent.workOrderId;
            parent in s.orders && parent != id && RootOf(s, parent) == link.root && TipOf(s, link.root) != parent
  {
    var link := LinkOf(s, id).value;
    var approvals := ApprovalsOf(s, link.root);
    assert LinkHome(s, id) && Chain(s, link.root, approvals);
    var k, n := link.round - 1, |approvals|;
    assert LinkFits(s, link.root, approvals, k) && LinkFits(s, link.root, approvals, n - 1);
    if k > 0 {
      assert LinkFits(s, link.root, approvals, k - 1);
      ChainDistinct(s, link.root, approvals, k - 1, k);
      ChainDistinct(s, link.root, approvals, k - 1, n - 1);
    }
  }

  /** The readings after one more preparation. */
  lemma PreparedReads(s: Store, s': Store, id: string, input: Prepare, x: string)
    requires s'.log == s.log + [Entry(id, PrepareRequested(input))]
    ensures LinkOf(s', x) == LinkOf(s, x)
    ensures PrepareOf(s', x) == if x == id && PrepareOf(s, id).None? then Some(input) else PrepareOf(s, x)
  {
    EmitReadings(s, id, PrepareRequested(input), x);
    EventsOfEmit(s, id, PrepareRequested(input), x);
    if x == id {
      Spend.PrepareInAppend(EventsOf(s.log, id), PrepareRequested(input));
    } else {
      assert EventsOf(s.log, x) + [] == EventsOf(s.log, x);
    }
  }

  lemma ClaimApart(s: Store, id: string, input: Prepare, now: int, sameWork: bool, untouched: bool, x: string)
    requires WorksInv(s)
    ensures ApartFromParent(ClaimRepairPreparation(s, id, input, now, sameWork, untouched).store, x)
  {
    var s' := ClaimRepairPreparation(s, id, input, now, sameWork, untouched).store;
    assert ApartFromParent(s, x);
    if s' != s && LinkOf(s, x).Some? {
      var parent := LinkOf(s, x).value.parent.workOrderId;
      ParentIsBehind(s, x);
      PreparedReads(s, s', id, input, x);
      PreparedReads(s, s', id, input, parent);
      assert parent != id;
    } else {
      PreparedReadsIf(s, s', id, input, x);
    }
  }

  lemma PreparedReadsIf(s: Store, s': Store, id: string, input: Prepare, x: string)
    requires s' == s || s'.log == s.log + [Entry(id, PrepareRequested(input))]
    ensures LinkOf(s', x) == LinkOf(s, x)
  {
    if s' != s {
      PreparedReads(s, s', id, input, x);
    }
  }

  lemma PlainPreparationApart(s: Store, id: string, order: Order, input: Prepare, x: string)
    requires WorksInv(s)
    ensures ApartFromParent(PlainPreparation(s, id, order, input).store, x)
  {
    var s' := PlainPreparation(s, id, order, input).store;
    assert ApartFromParent(s, x);
    if s' != s {
      PreparedReads(s, s', id, input, x);
      UnknownOrderIsEmpty(s.log, id);
      if LinkOf(s, x).Some? {
        ParentIsBehind(s, x);
        PreparedReads(s, s', id, input, LinkOf(s, x).value.parent.workOrderId);
      }
    }
  }

  /** Preparations after an approval: those from before, and none of the child's. */
  lemma ApproveReadsPrepare(s: Store, s': Store, root: string, approval: Approval, x: string)
    requires Extended(s, s', root, approval)
    ensures PrepareOf(s', x) == PrepareOf(s, x) && (x == approval.workOrderId ==> PrepareOf(s', x).None?)
  {
    var child := approval.workOrderId;
    var mid := Emit(s, child, Linked(approval.link));
    assert s'.log == Emit(mid, root, Approved(approval)).log;
    UnknownOrderIsEmpty(s.log, child);
    UnpreparedReads(s, child, Linked(approval.link), x);
    UnpreparedReads(mid, root, Approved(approval), x);
  }

  lemma UnpreparedReads(s: Store, order: string, e: Event, x: string)
    requires !e.PrepareRequested?
    ensures PrepareOf(Emit(s, order, e), x) == PrepareOf(s, x)
  {
    EventsOfEmit(s, order, e, x);
    if x == order {
      Spend.PrepareInAppend(EventsOf(s.log, x), e);
    } else {
      assert EventsOf(s.log, x) + [] == EventsOf(s.log, x);
    }
  }

  lemma ApproveApart(s: Store, root: string, proposalId: string, expected: Terms, owner: string, now: int,
                     genuine: bool, newId: string, childId: string, x: string)
    requires WorksInv(s)
    ensures ApartFromParent(Approve(s, root, proposalId, expected, owner, now, genuine, newId, childId).store, x)
  {
    var s' := Approve(s, root, proposalId, expected, owner, now, genuine, newId, childId).store;
    assert ApartFromParent(s, x);
    if s' != s {
      var approval := ApprovalFits(s, root, proposalId, expected, owner, now, genuine, newId, childId);
      ExtendedApart(s, s', root, approval, x);
    }
  }

  lemma ExtendedApart(s: Store, s': Store, root: string, approval: Approval, x: string)
    requires Extended(s, s', root, approval) && ApartFromParent(s, x)
    ensures ApartFromParent(s', x)
  {
    ApproveReadings(s, s', root, approval, x);
    ApproveReadsPrepare(s, s', root, approval, x);
    if LinkOf(s', x).Some? {
      ApproveReadsPrepare(s, s', root, approval, LinkOf(s', x).value.parent.workOrderId);
    }
  }

  lemma OthersApart(s: Store, s': Store, x: string)
    requires Plainly(s.log, s'.log) && ApartFromParent(s, x)
    ensures ApartFromParent(s', x)
  {
    PlainlyReads(s, s', x);
    if LinkOf(s, x).Some? {
      PlainlyReads(s, s', LinkOf(s, x).value.parent.workOrderId);
    }
  }

  lemma ApplyApart(s: Store, call: Call, now: int, x: string)
    requires WorksInv(s)
    ensures ApartFromParent(Apply(s, call, now), x)
  {
    assert ApartFromParent(s, x);
    match call
    case CallClaim(id, input, sameWork, untouched) => ClaimApart(s, id, input, now, sameWork, untouched, x);
    case CallPrepare(id, order, input) => PlainPreparationApart(s, id, order, input, x);
    case CallApprove(root, proposalId, expected, owner, genuine, newId, childId) =>
      ApproveApart(s, root, proposalId, expected, owner, now, genuine, newId, childId, x);
    case _ =>
      OthersArePlain(s, call, now);
      OthersApart(s, Apply(s, call, now), x);
  }

  lemma {:induction false} RunApart(history: seq<Tx>)
    ensures WorksInv(Run(EMPTY, history))
  {
    if history != [] {
      var n := |history| - 1;
      RunApart(history[..n]);
      var s, tx := Run(EMPTY, history[..n]), history[n];
      ApplyKeeps(s, tx.call, tx.now);
      forall id ensures ApartFromParent(Apply(s, tx.call, tx.now), id) {
        ApplyApart(s, tx.call, tx.now, id);
      }
    }
  }

  /** The Work a WorkOrder was prepared for. */
  function WorkOf(s: Store, id: string): Option<string> {
    if PrepareOf(s, id).Some? then Some(PrepareOf(s, id).value.workId) else None
  }

  lemma ChainApart(s: Store, root: string, j: nat, k: nat)
    requires WorksInv(s) && j < k < |ApprovalsOf(s, root)|
    requires var approvals := ApprovalsOf(s, root);
             WorkOf(s, approvals[j].workOrderId).Some?
             && WorkOf(s, approvals[j].workOrderId) == WorkOf(s, approvals[k].workOrderId)
    ensures k >= j + 2
  {
    var approvals := ApprovalsOf(s, root);
    assert Chain(s, root, approvals) && LinkFits(s, root, approvals, k);
    assert ApartFromParent(s, approvals[k].workOrderId);
  }

  /** In every history, two rounds of one chain that are prepared for the same Work have a round between them. */
  lemma SharingRoundsAreApart(history: seq<Tx>, root: string, j: nat, k: nat)
    requires j < k < |ApprovalsOf(Run(EMPTY, history), root)|
    requires var s := Run(EMPTY, history); var approvals := ApprovalsOf(s, root);
             WorkOf(s, approvals[j].workOrderId).Some?
             && WorkOf(s, approvals[j].workOrderId) == WorkOf(s, approvals[k].workOrderId)
    ensures k >= j + 2
  {
    RunApart(history);
    ChainApart(Run(EMPTY, history), root, j, k);
  }
}
