/**
 What every history of the review and repair lifecycle keeps: ordered immutable evidence per candidate, and one
 unforked chain of approvals inside the limits fixed by the first.
 */
module RepairTheorems {
  import opened Primitives
  import opened RepairTransactions

  // ---------------------------------------------------------------- reading an extended log

  lemma EventsOfEmit(s: Store, order: string, event: Event, id: string)
    ensures EventsOf(Emit(s, order, event).log, id) == EventsOf(s.log, id) + if id == order then [event] else []
  {
    assert Emit(s, order, event).log[..|s.log|] == s.log;
  }

  lemma {:induction false} LinkInAppend(events: seq<Event>, e: Event)
    ensures LinkIn(events + [e]) ==
            if LinkIn(events).Some? then LinkIn(events) else if e.Linked? then Some(e.link) else None
  {
    if events != [] {
      LinkInAppend(events[1..], e);
      assert (events + [e])[1..] == events[1..] + [e];
    }
  }

  lemma ApprovalsInAppend(events: seq<Event>, e: Event)
    ensures ApprovalsIn(events + [e]) == ApprovalsIn(events) + if e.Approved? then [e.approval] else []
  {
    assert (events + [e])[..|events|] == events;
  }

  lemma ObservationsInAppend(events: seq<Event>, e: Event, c: Candidate)
    ensures ObservationsIn(events + [e], c) ==
            ObservationsIn(events, c) + if e.Observed? && e.observation.candidate == c then [e.observation] else []
  {
    assert (events + [e])[..|events|] == events;
  }

  /** What one appended event does to every derived reading. */
  lemma EmitReadings(s: Store, order: string, event: Event, id: string)
    ensures var s' := Emit(s, order, event);
            && ApprovalsOf(s', id) == ApprovalsOf(s, id)
               + (if id == order && event.Approved? then [event.approval] else [])
            && LinkOf(s', id) ==
               (if LinkOf(s, id).None? && id == order && event.Linked? then Some(event.link) else LinkOf(s, id))
  {
    EventsOfEmit(s, order, event, id);
    if id == order {
      ApprovalsInAppend(EventsOf(s.log, id), event);
      LinkInAppend(EventsOf(s.log, id), event);
    } else {
      assert EventsOf(s.log, id) + [] == EventsOf(s.log, id);
    }
  }

  // ---------------------------------------------------------------- verification evidence

  /** Custody, then protected, then CI; every entry but the last a PASS. */
  predicate OrderedEvidence(observations: seq<Observation>) {
    && |observations| <= 3
    && (|observations| > 0 ==> observations[0].stage.Custody?)
    && (|observations| > 1 ==> observations[1].stage.Protected? && observations[0].status.Pass?)
    && (|observations| > 2 ==> observations[2].stage.Ci? && observations[1].status.Pass?)
  }

  ghost predicate EvidenceInv(log: seq<Entry>) {
    forall c: Candidate :: OrderedEvidence(ObservationsIn(EventsOf(log, c.workOrderId), c))
  }

  lemma LastOfOrdered(observations: seq<Observation>, stage: Stage)
    requires OrderedEvidence(observations)
    ensures var i := if stage.Custody? then 0 else if stage.Protected? then 1 else 2;
            LastOf(observations, stage) == if i < |observations| then Some(observations[i]) else None
  {
    if |observations| == 3 {
      assert observations[..2][..1] == observations[..1];
    }
  }

  lemma ObservationsAppend(log: seq<Entry>, e: Entry, c: Candidate)
    ensures ObservationsIn(EventsOf(log + [e], c.workOrderId), c) ==
            ObservationsIn(EventsOf(log, c.workOrderId), c)
            + if e.order == c.workOrderId && e.event.Observed? && e.event.observation.candidate == c
              then [e.event.observation] else []
  {
    var events := EventsOf(log, c.workOrderId);
    assert (log + [e])[..|log|] == log;
    if e.order == c.workOrderId {
      ObservationsInAppend(events, e.event, c);
    } else {
      assert EventsOf(log + [e], c.workOrderId) == events;
    }
  }

  lemma ObserveEvidence(s: Store, value: Observation, checks: bool)
    requires EvidenceInv(s.log)
    ensures EvidenceInv(Observe(s, value, checks).store.log)
  {
    var s' := Observe(s, value, checks).store;
    if s' != s {
      var prior := ObservationsOf(s, value.candidate);
      LastOfOrdered(prior, Custody);
      LastOfOrdered(prior, Protected);
      LastOfOrdered(prior, Ci);
      assert forall i | 0 <= i < |prior| :: prior[i] in prior && prior[i].status.Pass?;
      assert s'.log == s.log + [Entry(value.candidate.workOrderId, Observed(value))];
      forall c: Candidate ensures OrderedEvidence(ObservationsIn(EventsOf(s'.log, c.workOrderId), c)) {
        ObservationsAppend(s.log, Entry(value.candidate.workOrderId, Observed(value)), c);
        assert OrderedEvidence(ObservationsIn(EventsOf(s.log, c.workOrderId), c));
      }
    }
  }

  /** Entries of any other kind leave all evidence as it was. */
  lemma {:induction false} QuietEvidence(log: seq<Entry>, more: seq<Entry>)
    requires EvidenceInv(log) && forall e <- more :: !e.event.Observed?
    ensures EvidenceInv(log + more)
  {
    if more == [] {
      assert log + more == log;
    } else {
      var n := |more| - 1;
      QuietEvidence(log, more[..n]);
      assert log + more == (log + more[..n]) + [more[n]];
      assert more[n] in more;
      forall c: Candidate ensures OrderedEvidence(ObservationsIn(EventsOf(log + more, c.workOrderId), c)) {
        ObservationsAppend(log + more[..n], more[n], c);
        var before := ObservationsIn(EventsOf(log + more[..n], c.workOrderId), c);
        assert before + [] == before && OrderedEvidence(before);
      }
    }
  }

  predicate Quietly(log: seq<Entry>, log': seq<Entry>) {
    log <= log' && forall e <- log'[|log|..] :: !e.event.Observed?
  }

  lemma ProposeIsQuiet(s: Store, id: string, reviewId: string, policy: Policy, now: int, genuine: bool, newId: string)
    ensures Quietly(s.log, Propose(s, id, reviewId, policy, now, genuine, newId).store.log)
  {
  }

  lemma QuietAppend(log: seq<Entry>, log': seq<Entry>, e: Entry)
    requires Quietly(log, log') && !e.event.Observed?
    ensures Quietly(log, log' + [e])
  {
    var more := log'[|log|..];
    assert (log' + [e])[|log|..] == more + [e];
  }

  lemma CurrentLog(s: Store, root: string, proposalId: string, terms: Terms, owner: string, now: int, childId: string,
                   current: Step<Proposal>)
    ensures var log' := ApproveCurrent(s, root, proposalId, terms, owner, now, childId, current).store.log;
            var proposed := current.store.log;
            || log' == s.log
            || (|log'| == |proposed| + 2 && log' == proposed + [log'[|proposed|]] + [log'[|proposed| + 1]]
                && log'[|proposed|].event.Linked? && log'[|proposed| + 1].event.Approved?)
  {
  }

  /** The log after an approval: unchanged, or what the nested proposal left and two more events. */
  lemma ApproveLog(s: Store, root: string, proposalId: string, expected: Terms, owner: string, now: int,
                   genuine: bool, newId: string, childId: string)
    ensures var log' := Approve(s, root, proposalId, expected, owner, now, genuine, newId, childId).store.log;
            var id := expected.parent.workOrderId;
            var proposed := Propose(s, id, expected.reviewId, expected.policy, now, genuine, newId).store.log;
            || log' == s.log
            || (|log'| == |proposed| + 2 && log' == proposed + [log'[|proposed|]] + [log'[|proposed| + 1]]
                && log'[|proposed|].event.Linked? && log'[|proposed| + 1].event.Approved?)
  {
    var current := Propose(s, expected.parent.workOrderId, expected.reviewId, expected.policy, now, genuine, newId);
    CurrentLog(s, root, proposalId, expected, owner, now, childId, current);
  }

  lemma ApproveIsQuiet(s: Store, root: string, proposalId: string, expected: Terms, owner: string, now: int,
                       genuine: bool, newId: string, childId: string)
    ensures Quietly(s.log, Approve(s, root, proposalId, expected, owner, now, genuine, newId, childId).store.log)
  {
    var id := expected.parent.workOrderId;
    var log' := Approve(s, root, proposalId, expected, owner, now, genuine, newId, childId).store.log;
    var proposed := Propose(s, id, expected.reviewId, expected.policy, now, genuine, newId).store.log;
    ProposeIsQuiet(s, id, expected.reviewId, expected.policy, now, genuine, newId);
    ApproveLog(s, root, proposalId, expected, owner, now, genuine, newId, childId);
    if log' != s.log {
      QuietAppend(s.log, proposed, log'[|proposed|]);
      QuietAppend(s.log, proposed + [log'[|proposed|]], log'[|proposed| + 1]);
    }
  }

  lemma ClaimIsQuiet(s: Store, id: string, input: Prepare, now: int, sameWork: bool, untouched: bool)
    ensures Quietly(s.log, ClaimRepairPreparation(s, id, input, now, sameWork, untouched).store.log)
  {
  }

  /** Every call but an observation appends no observation. */
  lemma OtherCallsAreQuiet(s: Store, call: Call, now: int)
    requires !call.CallObserve?
    ensures Quietly(s.log, Apply(s, call, now).log)
  {
    match call
    case CallPropose(id, reviewId, policy, genuine, newId) =>
        ProposeIsQuiet(s, id, reviewId, policy, now, genuine, newId);
    case CallApprove(root, proposalId, expected, owner, genuine, newId, childId) =>
      ApproveIsQuiet(s, root, proposalId, expected, owner, now, genuine, newId, childId);
    case CallClaim(id, input, sameWork, untouched) => ClaimIsQuiet(s, id, input, now, sameWork, untouched);
    case _ =>
  }

  lemma QuietKeepsEvidence(log: seq<Entry>, log': seq<Entry>)
    requires EvidenceInv(log) && Quietly(log, log')
    ensures EvidenceInv(log')
  {
    QuietEvidence(log, log'[|log|..]);
    assert log + log'[|log|..] == log';
  }

  lemma ApplyEvidence(s: Store, call: Call, now: int)
    requires EvidenceInv(s.log)
    ensures EvidenceInv(Apply(s, call, now).log)
  {
    if call.CallObserve? {
      ObserveEvidence(s, call.observation, call.checks);
    } else {
      OtherCallsAreQuiet(s, call, now);
      QuietKeepsEvidence(s.log, Apply(s, call, now).log);
    }
  }

  lemma {:induction false} RunEvidence(history: seq<Tx>)
    ensures EvidenceInv(Run(EMPTY, history).log)
  {
    if history != [] {
      var n := |history| - 1;
      RunEvidence(history[..n]);
      ApplyEvidence(Run(EMPTY, history[..n]), history[n].call, history[n].now);
    }
  }

  /** Over ordered evidence the gate opens exactly when it reaches protected and all of it passes. */
  lemma OrderedGate(observations: seq<Observation>)
    requires OrderedEvidence(observations)
    ensures PublicationEligible(observations) <==> |observations| >= 2 && forall o <- observations :: o.status.Pass?
  {
    if |observations| >= 2 {
      assert observations[0] in observations && observations[1] in observations;
    }
  }

  /**
   In every history, a candidate's observations are a prefix of custody, protected, ci with every entry but the
   last a PASS; and the publication gate opens exactly when they include protected and are all PASS.
   */
  lemma EvidenceGate(history: seq<Tx>, c: Candidate)
    ensures var observations := ObservationsOf(Run(EMPTY, history), c);
            && OrderedEvidence(observations)
            && (PublicationEligible(observations) <==>
                |observations| >= 2 && forall o <- observations :: o.status.Pass?)
  {
    RunEvidence(history);
    OrderedGate(ObservationsOf(Run(EMPTY, history), c));
  }

  // ---------------------------------------------------------------- the chain of approvals

  /** Proposals are stored with the root they name. */
  predicate ProposalsAtHome(s: Store) {
    forall e <- s.log | e.event.Proposed? :: e.event.proposal.terms.root == e.order
  }

  lemma {:induction false} EventsAreEntries(log: seq<Entry>, order: string, event: Event)
    ensures event in EventsOf(log, order) <==> Entry(order, event) in log
  {
    if log != [] {
      var n := |log| - 1;
      EventsAreEntries(log[..n], order, event);
      assert log == log[..n] + [log[n]];
    }
  }

  /**
   An approval that changes the store was made for the tip of its root's chain, under the chain's policy, and
   appended exactly one link and one approval beside the new child.
   */
  lemma ApprovalMade(s: Store, root: string, proposalId: string, expected: Terms, owner: string, now: int,
                     genuine: bool, newId: string, childId: string) returns (approval: Approval, terms: Terms)
    requires ProposalsAtHome(s)
    requires Approve(s, root, proposalId, expected, owner, now, genuine, newId, childId).store != s
    ensures ProposalById(EventsOf(s.log, root), proposalId) == Some(Proposal(proposalId, terms))
    ensures MayPropose(s, terms.parent.workOrderId, terms.reviewId, terms.policy, now, genuine)
    ensures terms == TermsFor(s, terms.parent.workOrderId, terms.policy)
    ensures childId !in s.orders && root in s.orders
    ensures ApprovalOf(ApprovalsOf(s, root), proposalId).None? && BoundedText(owner, 200) && terms == expected
    ensures RootOf(s, terms.parent.workOrderId) == root && TipOf(s, root) == terms.parent.workOrderId
    ensures approval.workOrderId == childId && approval.proposalId == proposalId
    ensures approval.operations == terms.policy.round.productive + 1 && approval.microusd == terms.policy.round.budget
    ensures approval.link.root == root && approval.link.parent == terms.parent && approval.link.policy == terms.policy
    ensures approval.link.round == |ApprovalsOf(s, root)| + 1 && approval.link.objective == terms.objective
    ensures ApprovalsOf(s, root) != [] ==> approval.link.deadline == ApprovalsOf(s, root)[0].link.deadline
    ensures Permitted(approval.link)
    ensures var child := s.orders[root].(
              baseRef := terms.parent.commit, allowedPaths := terms.policy.allowedPaths, queued := false);
            Approve(s, root, proposalId, expected, owner, now, genuine, newId, childId).store ==
            Emit(Emit(s.(orders := s.orders[childId := child]), childId, Linked(approval.link)),
                 root, Approved(approval))
  {
    ProposalIdMatches(EventsOf(s.log, root), proposalId);
    var step := Approve(s, root, proposalId, expected, owner, now, genuine, newId, childId);
    terms := expected;
    EventsAreEntries(s.log, root, Proposed(ProposalById(EventsOf(s.log, root), proposalId).value));
    var id := terms.parent.workOrderId;
    ProposalFound(EventsOf(s.log, root), proposalId, terms);
    var current := Propose(s, id, terms.reviewId, terms.policy, now, genuine, newId);
    if current.out.Some? {
      TermsFoundMatch(EventsOf(s.log, RootOf(s, id)), TermsFor(s, id, terms.policy));
    }
    assert RootOf(s, id) == root && current.store == s;
    approval := step.store.log[|step.store.log| - 1].event.approval;
    VisibleAre(ReviewOf(s, id).value.findings);
    var f :| f in ReviewOf(s, id).value.findings && f.visible;
    assert f in approval.link.permitted;
  }

  lemma {:induction false} ProposalIdMatches(events: seq<Event>, id: string)
    ensures ProposalById(events, id).Some? ==> ProposalById(events, id).value.id == id
    ensures ProposalById(events, id).Some? ==> Proposed(ProposalById(events, id).value) in events
  {
    if events != [] {
      ProposalIdMatches(events[1..], id);
    }
  }

  lemma {:induction false} TermsFoundMatch(events: seq<Event>, terms: Terms)
    ensures ProposalWith(events, terms).Some? ==> ProposalWith(events, terms).value.terms == terms
  {
    if events != [] {
      TermsFoundMatch(events[1..], terms);
    }
  }

  /** A stored proposal is found again by its terms. */
  lemma {:induction false} ProposalFound(events: seq<Event>, id: string, terms: Terms)
    requires ProposalById(events, id).Some? && ProposalById(events, id).value.terms == terms
    ensures ProposalWith(events, terms).Some?
  {
    if !(events[0].Proposed? && events[0].proposal.id == id) {
      ProposalFound(events[1..], id, terms);
    }
  }

  /** Approval k of a chain, given the ones before it. */
  predicate LinkFits(s: Store, root: string, approvals: seq<Approval>, k: nat)
    requires k < |approvals| && root in s.orders
  {
    var a, first := approvals[k], approvals[0].link;
    && a.link.root == root
    && a.link.round == k + 1
    && a.link.parent.workOrderId == (if k == 0 then root else approvals[k - 1].workOrderId)
    && a.link.policy == first.policy && a.link.deadline == first.deadline
    && a.operations == first.policy.round.productive + 1
    && a.microusd == first.policy.round.budget
    && a.workOrderId in s.orders && LinkOf(s, a.workOrderId) == Some(a.link)
    && s.orders[a.workOrderId].allowedPaths == first.policy.allowedPaths
    && Permitted(a.link)
  }

  /** A round repairs at least one publicly reproducible finding, and only such findings inside its paths. */
  predicate Permitted(link: Link) {
    link.permitted != [] && forall f <- link.permitted :: f.visible && f.path in link.policy.allowedPaths
  }

  lemma {:induction false} VisibleAre(findings: seq<Finding>)
    ensures forall f :: f in VisibleFindings(findings) <==> f in findings && f.visible
  {
    if findings != [] {
      VisibleAre(findings[1..]);
      assert findings == [findings[0]] + findings[1..];
    }
  }

  /** One unforked chain: it has one policy and deadline, stays in the root's scope and inside its limits. */
  predicate Chain(s: Store, root: string, approvals: seq<Approval>) {
    approvals != [] ==>
      var policy := approvals[0].link.policy;
      && root in s.orders && LinkOf(s, root).None?
      && ValidPolicy(policy)
      && (forall path <- policy.allowedPaths :: InScope(path, s.orders[root].allowedPaths))
      && (forall k: nat | k < |approvals| :: LinkFits(s, root, approvals, k))
      && |approvals| <= policy.maxRounds
      && |approvals| * (policy.round.productive + 1) <= policy.maxOperations
      && |approvals| * policy.round.budget <= policy.maxBudget
  }

  /** A linked WorkOrder is the child its root's chain approved in that round. */
  predicate LinkHome(s: Store, id: string) {
    LinkOf(s, id).Some? ==>
      var link := LinkOf(s, id).value;
      var approvals := ApprovalsOf(s, link.root);
      && id in s.orders
      && 1 <= link.round <= |approvals|
      && approvals[link.round - 1].workOrderId == id && approvals[link.round - 1].link == link
  }

  ghost predicate ChainInv(s: Store) {
    && ProposalsAtHome(s)
    && (forall e <- s.log :: e.order in s.orders)
    && (forall root :: Chain(s, root, ApprovalsOf(s, root)))
    && (forall id :: LinkHome(s, id))
  }

  /** Steps that touch no approval, link or scope. */
  ghost predicate SameChains(s: Store, s': Store) {
    && (forall id :: ApprovalsOf(s', id) == ApprovalsOf(s, id) && LinkOf(s', id) == LinkOf(s, id))
    && (forall id :: id in s.orders ==> id in s'.orders && s'.orders[id].allowedPaths == s.orders[id].allowedPaths)
  }

  lemma SameChainsKeep(s: Store, s': Store)
    requires ChainInv(s) && SameChains(s, s') && ProposalsAtHome(s') && (forall e <- s'.log :: e.order in s'.orders)
    ensures ChainInv(s')
  {
    forall root ensures Chain(s', root, ApprovalsOf(s', root)) {
      var approvals := ApprovalsOf(s, root);
      assert Chain(s, root, approvals);
      if approvals != [] {
        forall k: nat | k < |approvals| ensures LinkFits(s', root, approvals, k) {
          assert LinkFits(s, root, approvals, k);
        }
      }
    }
    forall id ensures LinkHome(s', id) {
      assert LinkHome(s, id);
    }
  }

  /** One event that is neither a link nor an approval. */
  lemma PlainEmit(s: Store, s': Store, order: string, event: Event)
    requires ChainInv(s) && order in s'.orders
    requires s' == Emit(s.(orders := s'.orders), order, event)
    requires forall id :: id in s.orders ==> id in s'.orders && s'.orders[id].allowedPaths == s.orders[id].allowedPaths
    requires !event.Approved? && !event.Linked?
    requires event.Proposed? ==> event.proposal.terms.root == order
    ensures ChainInv(s')
  {
    forall id ensures ApprovalsOf(s', id) == ApprovalsOf(s, id) && LinkOf(s', id) == LinkOf(s, id) {
      EmitReadings(s.(orders := s'.orders), order, event, id);
    }
    SameChainsKeep(s, s');
  }

  lemma {:induction false} UniformSums(approvals: seq<Approval>, operations: int, microusd: int)
    requires forall a <- approvals :: a.operations == operations && a.microusd == microusd
    ensures SumOperations(approvals) == |approvals| * operations
    ensures SumMicrousd(approvals) == |approvals| * microusd
  {
    if approvals != [] {
      var n := |approvals| - 1;
      UniformSums(approvals[..n], operations, microusd);
      assert approvals[n] in approvals;
      assert (n + 1) * operations == n * operations + operations;
      assert (n + 1) * microusd == n * microusd + microusd;
    }
  }

  lemma ChainSums(s: Store, root: string)
    requires ChainInv(s) && ApprovalsOf(s, root) != []
    ensures var approvals := ApprovalsOf(s, root); var round := approvals[0].link.policy.round;
            && SumOperations(approvals) == |approvals| * (round.productive + 1)
            && SumMicrousd(approvals) == |approvals| * round.budget
  {
    var approvals := ApprovalsOf(s, root);
    var round := approvals[0].link.policy.round;
    assert Chain(s, root, approvals);
    forall a | a in approvals ensures a.operations == round.productive + 1 && a.microusd == round.budget {
      var k :| 0 <= k < |approvals| && approvals[k] == a;
      assert LinkFits(s, root, approvals, k);
    }
    UniformSums(approvals, round.productive + 1, round.budget);
  }

  /** A WorkOrder that does not exist yet has no history. */
  lemma {:induction false} UnknownOrderIsEmpty(log: seq<Entry>, id: string)
    requires forall e <- log :: e.order != id
    ensures EventsOf(log, id) == []
  {
    if log != [] {
      assert log[|log| - 1] in log;
      UnknownOrderIsEmpty(log[..|log| - 1], id);
    }
  }

  /** Every reading after the two events of an approval. */
  lemma ApproveReadings(s: Store, s': Store, root: string, approval: Approval, id: string)
    requires ChainInv(s) && root in s.orders && approval.workOrderId !in s.orders
    requires s'.log == s.log + [Entry(approval.workOrderId, Linked(approval.link)), Entry(root, Approved(approval))]
    ensures ApprovalsOf(s', id) == ApprovalsOf(s, id) + if id == root then [approval] else []
    ensures LinkOf(s', id) == if id == approval.workOrderId then Some(approval.link) else LinkOf(s, id)
  {
    var child := approval.workOrderId;
    UnknownOrderIsEmpty(s.log, child);
    var mid := Emit(s, child, Linked(approval.link));
    assert Emit(mid, root, Approved(approval)).log == s'.log;
    EmitReadings(s, child, Linked(approval.link), id);
    EmitReadings(mid, root, Approved(approval), id);
  }

  /** The store after approving one more link of root's chain. */
  ghost predicate Extended(s: Store, s': Store, root: string, approval: Approval) {
    && ChainInv(s) && root in s.orders && approval.workOrderId !in s.orders
    && s'.log == s.log + [Entry(approval.workOrderId, Linked(approval.link)), Entry(root, Approved(approval))]
    && s'.orders.Keys == s.orders.Keys + {approval.workOrderId}
    && (forall id :: id in s.orders ==> s'.orders[id] == s.orders[id])
    && approval.link.root == root && approval.link.round == |ApprovalsOf(s, root)| + 1
  }

  /** What an approval has checked about the chain it extends. */
  predicate FitsChain(s: Store, root: string, approval: Approval)
    requires root in s.orders
  {
    var approvals, policy := ApprovalsOf(s, root), approval.link.policy;
    && LinkOf(s, root).None? && ValidPolicy(policy)
    && approval.link.parent.workOrderId == TipOf(s, root)
    && (approvals != [] ==> approvals[0].link.policy == policy && approvals[0].link.deadline == approval.link.deadline)
    && approval.operations == policy.round.productive + 1 && approval.microusd == policy.round.budget
    && Permitted(approval.link)
    && (forall path <- policy.allowedPaths :: InScope(path, s.orders[root].allowedPaths))
    && |approvals| < policy.maxRounds
    && SumOperations(approvals) + policy.round.productive + 1 <= policy.maxOperations
    && SumMicrousd(approvals) + policy.round.budget <= policy.maxBudget
  }

  lemma ExtendedLink(s: Store, s': Store, root: string, approval: Approval, k: nat)
    requires Extended(s, s', root, approval) && FitsChain(s, root, approval)
    requires s'.orders[approval.workOrderId].allowedPaths == approval.link.policy.allowedPaths
    requires k <= |ApprovalsOf(s, root)|
    ensures ApprovalsOf(s', root) == ApprovalsOf(s, root) + [approval]
    ensures LinkFits(s', root, ApprovalsOf(s', root), k)
  {
    var approvals := ApprovalsOf(s, root);
    ApproveReadings(s, s', root, approval, root);
    assert Chain(s, root, approvals);
    if k < |approvals| {
      assert LinkFits(s, root, approvals, k);
      ApproveReadings(s, s', root, approval, approvals[k].workOrderId);
    } else {
      ApproveReadings(s, s', root, approval, approval.workOrderId);
    }
  }

  /** One more round still fits the policy's limits. */
  lemma RoundFits(s: Store, root: string, approval: Approval)
    requires ChainInv(s) && root in s.orders && FitsChain(s, root, approval)
    ensures var n, policy := |ApprovalsOf(s, root)| + 1, approval.link.policy;
            n <= policy.maxRounds && n * (policy.round.productive + 1) <= policy.maxOperations
                && n * policy.round.budget <= policy.maxBudget
  {
    var n, round := |ApprovalsOf(s, root)|, approval.link.policy.round;
    if n > 0 {
      ChainSums(s, root);
    }
    assert (n + 1) * (round.productive + 1) == n * (round.productive + 1) + (round.productive + 1);
    assert (n + 1) * round.budget == n * round.budget + round.budget;
  }

  /** The approved chain, one longer. */
  lemma ExtendedChain(s: Store, s': Store, root: string, approval: Approval)
    requires Extended(s, s', root, approval) && FitsChain(s, root, approval)
    requires s'.orders[approval.workOrderId].allowedPaths == approval.link.policy.allowedPaths
    ensures Chain(s', root, ApprovalsOf(s', root))
  {
    var approvals' := ApprovalsOf(s', root);
    ApproveReadings(s, s', root, approval, root);
    RoundFits(s, root, approval);
    forall k: nat | k < |approvals'| ensures LinkFits(s', root, approvals', k) {
      ExtendedLink(s, s', root, approval, k);
    }
  }

  lemma ApproveKeeps(s: Store, root: string, proposalId: string, expected: Terms, owner: string, now: int,
                     genuine: bool, newId: string, childId: string)
    requires ChainInv(s)
    ensures ChainInv(Approve(s, root, proposalId, expected, owner, now, genuine, newId, childId).store)
  {
    var s' := Approve(s, root, proposalId, expected, owner, now, genuine, newId, childId).store;
    if s' != s {
      var approval := ApprovalFits(s, root, proposalId, expected, owner, now, genuine, newId, childId);
      ExtendedChain(s, s', root, approval);
      ApprovalKeepsRest(s, s', root, approval);
    }
  }

  /** An approval that changes the store extends its root's chain, and fits it. */
  lemma ApprovalFits(s: Store, root: string, proposalId: string, expected: Terms, owner: string, now: int,
                     genuine: bool, newId: string, childId: string) returns (approval: Approval)
    requires ChainInv(s)
    requires Approve(s, root, proposalId, expected, owner, now, genuine, newId, childId).store != s
    ensures var s' := Approve(s, root, proposalId, expected, owner, now, genuine, newId, childId).store;
            && Extended(s, s', root, approval) && FitsChain(s, root, approval)
            && s'.orders[approval.workOrderId].allowedPaths == approval.link.policy.allowedPaths
  {
    var terms;
    approval, terms := ApprovalMade(s, root, proposalId, expected, owner, now, genuine, newId, childId);
    var s' := Approve(s, root, proposalId, expected, owner, now, genuine, newId, childId).store;
    MadeExtends(s, s', root, approval, terms, childId);
    MadeFits(s, root, approval, terms, now, genuine);
  }

  lemma MadeExtends(s: Store, s': Store, root: string, approval: Approval, terms: Terms, childId: string)
    requires ChainInv(s) && root in s.orders && childId !in s.orders && approval.workOrderId == childId
    requires approval.link.root == root && approval.link.round == |ApprovalsOf(s, root)| + 1
    requires approval.link.policy == terms.policy
    requires var child := s.orders[root].(
               baseRef := terms.parent.commit, allowedPaths := terms.policy.allowedPaths, queued := false);
             s' == Emit(Emit(s.(orders := s.orders[childId := child]), childId, Linked(approval.link)),
                        root, Approved(approval))
    ensures Extended(s, s', root, approval)
    ensures s'.orders[approval.workOrderId].allowedPaths == approval.link.policy.allowedPaths
  {
  }

  lemma MadeFits(s: Store, root: string, approval: Approval, terms: Terms, now: int, genuine: bool)
    requires ChainInv(s) && root in s.orders && RootOf(s, terms.parent.workOrderId) == root
    requires MayPropose(s, terms.parent.workOrderId, terms.reviewId, terms.policy, now, genuine)
    requires approval.operations == terms.policy.round.productive + 1 && approval.microusd == terms.policy.round.budget
    requires approval.link.parent == terms.parent && approval.link.policy == terms.policy && Permitted(approval.link)
    requires ApprovalsOf(s, root) != [] ==> approval.link.deadline == ApprovalsOf(s, root)[0].link.deadline
    ensures FitsChain(s, root, approval)
  {
    RootHasNoLink(s, root, terms.parent.workOrderId);
  }

  lemma RootHasNoLink(s: Store, root: string, tip: string)
    requires ChainInv(s) && RootOf(s, tip) == root
    ensures LinkOf(s, root).None?
  {
    assert LinkHome(s, tip);
    assert Chain(s, root, ApprovalsOf(s, root));
  }

  /** The new child is the last of its root's chain. */
  lemma ChildAtHome(s: Store, s': Store, root: string, approval: Approval)
    requires Extended(s, s', root, approval)
    ensures LinkHome(s', approval.workOrderId)
  {
    ApproveReadings(s, s', root, approval, approval.workOrderId);
    ApproveReadings(s, s', root, approval, root);
  }

  lemma LinkHomeKept(s: Store, s': Store, root: string, approval: Approval, id: string)
    requires Extended(s, s', root, approval)
    ensures LinkHome(s', id)
  {
    if id == approval.workOrderId {
      ChildAtHome(s, s', root, approval);
    } else {
      assert LinkHome(s, id);
      ApproveReadings(s, s', root, approval, id);
      if LinkOf(s, id).Some? {
        ApproveReadings(s, s', root, approval, LinkOf(s, id).value.root);
      }
    }
  }

  lemma ApprovalKeepsRest(s: Store, s': Store, root: string, approval: Approval)
    requires Extended(s, s', root, approval)
    requires Chain(s', root, ApprovalsOf(s', root))
    ensures ChainInv(s')
  {
    forall r ensures Chain(s', r, ApprovalsOf(s', r)) {
      if r != root {
        OtherChain(s, s', root, approval, r);
      }
    }
    forall id ensures LinkHome(s', id) {
      LinkHomeKept(s, s', root, approval, id);
    }
  }

  lemma OtherChain(s: Store, s': Store, root: string, approval: Approval, r: string)
    requires Extended(s, s', root, approval) && r != root
    ensures Chain(s', r, ApprovalsOf(s', r))
  {
    var approvals := ApprovalsOf(s, r);
    ApproveReadings(s, s', root, approval, r);
    assert ApprovalsOf(s', r) == approvals;
    assert Chain(s, r, approvals);
    if approvals != [] {
      forall k: nat | k < |approvals| ensures LinkFits(s', r, approvals, k) {
        assert LinkFits(s, r, approvals, k);
        ApproveReadings(s, s', root, approval, approvals[k].workOrderId);
      }
    }
  }

  lemma ClaimKeeps(s: Store, id: string, input: Prepare, now: int, sameWork: bool, untouched: bool)
    requires ChainInv(s)
    ensures ChainInv(ClaimRepairPreparation(s, id, input, now, sameWork, untouched).store)
  {
    var s' := ClaimRepairPreparation(s, id, input, now, sameWork, untouched).store;
    if s' != s {
      PlainEmit(s, s', id, PrepareRequested(input));
    }
  }

  lemma ProposeKeeps(s: Store, id: string, reviewId: string, policy: Policy, now: int, genuine: bool, newId: string)
    requires ChainInv(s)
    ensures ChainInv(Propose(s, id, reviewId, policy, now, genuine, newId).store)
  {
    var s' := Propose(s, id, reviewId, policy, now, genuine, newId).store;
    if s' != s {
      PlainEmit(s, s', RootOf(s, id), Proposed(Proposal(newId, TermsFor(s, id, policy))));
    }
  }

  lemma ApplyKeeps(s: Store, call: Call, now: int)
    requires ChainInv(s)
    ensures ChainInv(Apply(s, call, now))
  {
    var s' := Apply(s, call, now);
    if s' != s {
      match call
      case CallObserve(value, checks) => PlainEmit(s, s', value.candidate.workOrderId, Observed(value));
      case CallReview(value, checks, action) => PlainEmit(s, s', value.candidate.workOrderId, Reviewed(value));
      case CallPropose(id, reviewId, policy, genuine, newId) =>
        ProposeKeeps(s, id, reviewId, policy, now, genuine, newId);
      case CallApprove(root, proposalId, expected, owner, genuine, newId, childId) =>
        ApproveKeeps(s, root, proposalId, expected, owner, now, genuine, newId, childId);
      case CallClaim(id, input, sameWork, untouched) => ClaimKeeps(s, id, input, now, sameWork, untouched);
      case CallPrepare(id, order, input) => PlainEmit(s, s', id, PrepareRequested(input));
      case CallCreate(id, order) => SameChainsKeep(s, s');
      case CallHold(id) => PlainEmit(s, s', id, Held);
    }
  }

  lemma {:induction false} RunKeeps(history: seq<Tx>)
    ensures ChainInv(Run(EMPTY, history))
  {
    if history != [] {
      var n := |history| - 1;
      RunKeeps(history[..n]);
      ApplyKeeps(Run(EMPTY, history[..n]), history[n].call, history[n].now);
    }
  }

  /** An unforked chain: its rounds are consecutive, distinct, and as many as the limits allow. */
  predicate Unforked(s: Store, root: string) {
    var approvals := ApprovalsOf(s, root);
    && Chain(s, root, approvals)
    && (forall j, k | 0 <= j < k < |approvals| ::
          && approvals[j].workOrderId != approvals[k].workOrderId
          && approvals[j].link.parent.workOrderId != approvals[k].link.parent.workOrderId)
    && (approvals != [] ==>
          var policy := approvals[0].link.policy;
          && |approvals| <= policy.maxRounds
          && |approvals| <= policy.maxOperations / (policy.round.productive + 1)
          && |approvals| <= policy.maxBudget / policy.round.budget)
  }

  lemma ChainIsUnforked(s: Store, root: string)
    requires Chain(s, root, ApprovalsOf(s, root))
    ensures Unforked(s, root)
  {
    var approvals := ApprovalsOf(s, root);
    forall j, k | 0 <= j < k < |approvals|
      ensures approvals[j].workOrderId != approvals[k].workOrderId
      ensures approvals[j].link.parent.workOrderId != approvals[k].link.parent.workOrderId
    {
      ChainDistinct(s, root, approvals, j, k);
    }
    if approvals != [] {
      var policy := approvals[0].link.policy;
      QuotientBound(|approvals|, policy.round.productive + 1, policy.maxOperations);
      QuotientBound(|approvals|, policy.round.budget, policy.maxBudget);
    }
  }

  lemma ChainsAreUnforked(s: Store, root: string)
    requires ChainInv(s)
    ensures Unforked(s, root)
  {
    assert Chain(s, root, ApprovalsOf(s, root));
    ChainIsUnforked(s, root);
  }

  /**
   Every reachable approval history is one unforked chain: approval k has round k, repairs the WorkOrder that
   approval k-1 created (or the root), under one policy and deadline, in the root's scope; children are distinct;
   and the length is within rounds, operations and budget.
   */
  lemma OneUnforkedChain(history: seq<Tx>, root: string)
    ensures Unforked(Run(EMPTY, history), root)
  {
    RunKeeps(history);
    ChainsAreUnforked(Run(EMPTY, history), root);
  }

  /** Different rounds have different children and repair different parents. */
  lemma ChainDistinct(s: Store, root: string, approvals: seq<Approval>, j: nat, k: nat)
    requires Chain(s, root, approvals) && j < k < |approvals|
    ensures approvals[j].workOrderId != approvals[k].workOrderId
    ensures approvals[j].link.parent.workOrderId != approvals[k].link.parent.workOrderId
  {
    assert LinkFits(s, root, approvals, j) && LinkFits(s, root, approvals, k) && LinkFits(s, root, approvals, k - 1);
    if j > 0 {
      assert LinkFits(s, root, approvals, j - 1);
    }
  }

  lemma ProductGrows(a: int, b: int, unit: int)
    requires a <= b && unit > 0
    ensures a * unit <= b * unit
  {
  }

  lemma QuotientBound(n: nat, unit: int, limit: int)
    requires unit > 0 && n * unit <= limit
    ensures n <= limit / unit
  {
    if n > limit / unit {
      ProductGrows(limit / unit + 1, n, unit);
    }
  }

  /** Approving again, in any later state, returns the same child and changes nothing. */
  lemma ApprovalReplays(s: Store, root: string, proposalId: string, expected: Terms, owner: string, now: int,
                        genuine: bool, newId: string, childId: string,
                        later: int, stillGenuine: bool, otherId: string, otherChild: string)
    requires ChainInv(s)
    requires Approve(s, root, proposalId, expected, owner, now, genuine, newId, childId).store != s
    ensures var s' := Approve(s, root, proposalId, expected, owner, now, genuine, newId, childId).store;
            Approve(s', root, proposalId, expected, owner, later, stillGenuine, otherId, otherChild)
                == Step(s', Some(childId))
  {
    var s' := Approve(s, root, proposalId, expected, owner, now, genuine, newId, childId).store;
    var approval, terms := ApprovalMade(s, root, proposalId, expected, owner, now, genuine, newId, childId);
    assert s'.log == s.log + [Entry(childId, Linked(approval.link)), Entry(root, Approved(approval))];
    ApproveReadings(s, s', root, approval, root);
    ApprovalOfAppend(ApprovalsOf(s, root), approval);
    ProposalSurvives(s, s', root, proposalId);
    ReplayFound(s', root, proposalId, expected, owner, later, stillGenuine, otherId, otherChild, childId);
  }

  lemma ReplayFound(s: Store, root: string, proposalId: string, expected: Terms, owner: string, now: int,
                    genuine: bool, newId: string, childId: string, made: string)
    requires BoundedText(owner, 200)
    requires ProposalById(EventsOf(s.log, root), proposalId) == Some(Proposal(proposalId, expected))
    requires ApprovalOf(ApprovalsOf(s, root), proposalId).Some?
    requires ApprovalOf(ApprovalsOf(s, root), proposalId).value.workOrderId == made
    ensures Approve(s, root, proposalId, expected, owner, now, genuine, newId, childId) == Step(s, Some(made))
  {
  }

  lemma ProposalSurvives(s: Store, s': Store, root: string, proposalId: string)
    requires |s'.log| == |s.log| + 2 && s.log <= s'.log
    requires ProposalById(EventsOf(s.log, root), proposalId).Some?
    ensures ProposalById(EventsOf(s'.log, root), proposalId) == ProposalById(EventsOf(s.log, root), proposalId)
  {
    var n := |s.log|;
    assert s'.log[..n + 1][..n] == s.log;
    assert EventsOf(s.log, root) <= EventsOf(s'.log[..n + 1], root) <= EventsOf(s'.log, root);
    ProposalByIdPrefix(EventsOf(s.log, root), EventsOf(s'.log, root), proposalId);
  }

  lemma {:induction false} ApprovalOfAppend(approvals: seq<Approval>, a: Approval)
    requires ApprovalOf(approvals, a.proposalId).None?
    ensures ApprovalOf(approvals + [a], a.proposalId) == Some(a)
  {
    if approvals != [] {
      assert (approvals + [a])[1..] == approvals[1..] + [a];
      ApprovalOfAppend(approvals[1..], a);
    }
  }

  lemma {:induction false} ProposalByIdPrefix(events: seq<Event>, events': seq<Event>, id: string)
    requires events <= events' && ProposalById(events, id).Some?
    ensures ProposalById(events', id) == ProposalById(events, id)
  {
    if !(events[0].Proposed? && events[0].proposal.id == id) {
      ProposalByIdPrefix(events[1..], events'[1..], id);
    }
  }
}
