/**
 The review and repair service as the source has it: an object over one append-only event store, whose entry points
 each run in one transaction. Every method is proved against its specification in RepairTransactions.
 */
module RepairServices {
  import opened Primitives
  import opened RepairTransactions
  import opened RepairTheorems
  import opened ReviewTheorems

  /** What every entry point owes the store: chains, evidence and reviews stay in order, and nothing is removed. */
  ghost predicate Kept(s: Store, s': Store) {
    && (ChainInv(s) ==> ChainInv(s'))
    && (EvidenceInv(s.log) ==> EvidenceInv(s'.log))
    && (ReviewInv(s.log) ==> ReviewInv(s'.log))
    && s.log <= s'.log && s.orders.Keys <= s'.orders.Keys
  }

  lemma QuietKept(s: Store, s': Store)
    requires ChainInv(s) ==> ChainInv(s')
    requires Quietly(s.log, s'.log) && Unreviewed(s.log, s'.log) && s.orders.Keys <= s'.orders.Keys
    ensures Kept(s, s')
  {
    if EvidenceInv(s.log) {
      QuietKeepsEvidence(s.log, s'.log);
    }
    if ReviewInv(s.log) {
      forall order ensures ReviewOrder(EventsOf(s'.log, order)) {
        UnreviewedGrowth(s.log, s'.log, order);
      }
    }
  }

  lemma ObserveKept(s: Store, value: Observation, checks: bool)
    ensures Kept(s, Observe(s, value, checks).store)
  {
    var s' := Observe(s, value, checks).store;
    if ChainInv(s) && s' != s {
      PlainEmit(s, s', value.candidate.workOrderId, Observed(value));
    }
    if EvidenceInv(s.log) {
      ObserveEvidence(s, value, checks);
    }
    if ReviewInv(s.log) {
      ObserveUnreviewed(s, value, checks);
      forall order ensures ReviewOrder(EventsOf(s'.log, order)) {
        UnreviewedGrowth(s.log, s'.log, order);
      }
    }
  }

  lemma ReviewKept(s: Store, value: Review, checks: bool, action: bool)
    ensures Kept(s, RecordReview(s, value, checks, action).store)
  {
    var s' := RecordReview(s, value, checks, action).store;
    if ChainInv(s) && s' != s {
      PlainEmit(s, s', value.candidate.workOrderId, Reviewed(value));
    }
    if EvidenceInv(s.log) {
      QuietKeepsEvidence(s.log, s'.log);
    }
    if ReviewInv(s.log) {
      forall order ensures ReviewOrder(EventsOf(s'.log, order)) {
        RecordKeeps(s, value, checks, action, order);
      }
    }
  }

  lemma ProposeKept(s: Store, id: string, reviewId: string, policy: Policy, now: int, genuine: bool, newId: string)
    ensures Kept(s, Propose(s, id, reviewId, policy, now, genuine, newId).store)
  {
    ProposeIsQuiet(s, id, reviewId, policy, now, genuine, newId);
    ProposeUnreviewed(s, id, reviewId, policy, now, genuine, newId);
    if ChainInv(s) {
      ProposeKeeps(s, id, reviewId, policy, now, genuine, newId);
    }
    QuietKept(s, Propose(s, id, reviewId, policy, now, genuine, newId).store);
  }

  lemma ApproveKept(s: Store, root: string, proposalId: string, expected: Terms, owner: string, now: int,
                    genuine: bool, newId: string, childId: string)
    ensures Kept(s, Approve(s, root, proposalId, expected, owner, now, genuine, newId, childId).store)
  {
    var s' := Approve(s, root, proposalId, expected, owner, now, genuine, newId, childId).store;
    ApproveIsQuiet(s, root, proposalId, expected, owner, now, genuine, newId, childId);
    ApproveUnreviewed(s, root, proposalId, expected, owner, now, genuine, newId, childId);
    if ChainInv(s) {
      ApproveKeeps(s, root, proposalId, expected, owner, now, genuine, newId, childId);
    }
    QuietKept(s, s');
  }

  /** An approval that changes the store made the child, and ends the log with its link and the approval. */
  predicate Made(s: Store, step: Step<string>, root: string, childId: string) {
    && step.out == Some(childId) && childId !in s.orders && childId in step.store.orders
    && |step.store.log| >= |s.log| + 2
    && var n := |step.store.log|;
       && step.store.log[n - 2].order == childId && step.store.log[n - 2].event.Linked?
       && step.store.log[n - 1].order == root && step.store.log[n - 1].event.Approved?
  }

  lemma CurrentSays(s: Store, root: string, proposalId: string, terms: Terms, owner: string, now: int, childId: string,
                    current: Step<Proposal>)
    requires s.log <= current.store.log
    ensures var step := ApproveCurrent(s, root, proposalId, terms, owner, now, childId, current);
            (step.out.None? ==> step.store == s) && (step.store != s ==> Made(s, step, root, childId))
  {
  }

  lemma ApproveSays(s: Store, root: string, proposalId: string, expected: Terms, owner: string, now: int,
                    genuine: bool, newId: string, childId: string)
    ensures var step := Approve(s, root, proposalId, expected, owner, now, genuine, newId, childId);
            (step.out.None? ==> step.store == s) && (step.store != s ==> Made(s, step, root, childId))
  {
    var id := expected.parent.workOrderId;
    ProposeIsQuiet(s, id, expected.reviewId, expected.policy, now, genuine, newId);
    CurrentSays(s, root, proposalId, expected, owner, now, childId,
                Propose(s, id, expected.reviewId, expected.policy, now, genuine, newId));
  }

  lemma ClaimKept(s: Store, id: string, input: Prepare, now: int, sameWork: bool, untouched: bool)
    ensures Kept(s, ClaimRepairPreparation(s, id, input, now, sameWork, untouched).store)
  {
    ClaimIsQuiet(s, id, input, now, sameWork, untouched);
    ClaimUnreviewed(s, id, input, now, sameWork, untouched);
    if ChainInv(s) {
      ClaimKeeps(s, id, input, now, sameWork, untouched);
    }
    QuietKept(s, ClaimRepairPreparation(s, id, input, now, sameWork, untouched).store);
  }

  class ReviewRepair {
    var orders: map<string, Order>
    var log: seq<Entry>

    constructor ()
      ensures Stored() == EMPTY
    {
      orders, log := map[], [];
    }

    function Stored(): Store
      reads this
    {
      Store(orders, log)
    }

    method ListEvents(id: string) returns (events: seq<Event>)
      ensures events == EventsOf(log, id)
    {
      events := [];
      for i := 0 to |log|
        invariant events == EventsOf(log[..i], id)
      {
        assert log[..i + 1][..i] == log[..i];
        if log[i].order == id {
          events := events + [log[i].event];
        }
      }
      assert log[..|log|] == log;
    }

    method AppendEvent(id: string, event: Event)
      modifies this
      ensures Stored() == Emit(old(Stored()), id, event)
    {
      log := log + [Entry(id, event)];
    }

    method RepairLink(id: string) returns (link: Option<Link>)
      ensures link == LinkOf(Stored(), id)
    {
      var events := ListEvents(id);
      link := LinkIn(events);
    }

    method Approvals(root: string) returns (approvals: seq<Approval>)
      ensures approvals == ApprovalsOf(Stored(), root)
    {
      var events := ListEvents(root);
      approvals := ApprovalsIn(events);
    }

    method Observations(c: Candidate) returns (observations: seq<Observation>)
      ensures observations == ObservationsOf(Stored(), c)
    {
      var events := ListEvents(c.workOrderId);
      observations := ObservationsIn(events, c);
    }

    method LatestReview(id: string) returns (review: Option<Review>)
      ensures review == ReviewOf(Stored(), id)
    {
      var events := ListEvents(id);
      review := ReviewIn(events);
    }

    /** An artifact digest of any candidate this one was repaired from cannot be evidence again. */
    method UsedByAncestor(id: string, artifactHash: string) returns (used: bool)
      ensures used == AncestorEvidence(Stored(), id, artifactHash)
    {
      var link := RepairLink(id);
      if link.None? {
        return false;
      }
      var approvals := Approvals(link.value.root);
      used := false;
      for i := 0 to |approvals|
        invariant used <==> exists a <- approvals[..i] :: exists o <- ObservationsOf(Stored(), a.link.parent) ::
                  o.artifactHash == artifactHash
      {
        var observations := Observations(approvals[i].link.parent);
        used := used || exists o <- observations :: o.artifactHash == artifactHash;
        assert approvals[..i + 1] == approvals[..i] + [approvals[i]];
      }
      assert approvals[..|approvals|] == approvals;
    }

    method Observe(value: Observation, checks: bool) returns (out: Option<Observation>)
      modifies this
      ensures Step(Stored(), out) == RepairTransactions.Observe(old(Stored()), value, checks)
      ensures Kept(old(Stored()), Stored()) && (out.None? ==> Stored() == old(Stored()))
      ensures out.Some? ==>
                && out.value == value && value in ObservationsOf(Stored(), value.candidate)
                && !AncestorEvidence(old(Stored()), value.candidate.workOrderId, value.artifactHash)
    {
      ObserveKept(Stored(), value, checks);
      ObservationsAppend(log, Entry(value.candidate.workOrderId, Observed(value)), value.candidate);
      var used := UsedByAncestor(value.candidate.workOrderId, value.artifactHash);
      if !ExactCandidate(Stored(), value.candidate) || !checks || !WellFormedObservation(value) || used {
        return None;
      }
      var prior := Observations(value.candidate);
      if value in prior {
        return Some(value);
      }
      if exists o <- prior :: !o.status.Pass? {
        return None;
      }
      if (value.stage.Protected? && !PassedStage(prior, Custody))
         || (value.stage.Ci? && !PassedStage(prior, Protected)) {
        return None;
      }
      if LastOf(prior, value.stage).Some? {
        return None;
      }
      AppendEvent(value.candidate.workOrderId, Observed(value));
      return Some(value);
    }

    method ReportReused(value: Review) returns (reused: bool)
      ensures reused == ReusedReport(Stored(), value)
    {
      var link := RepairLink(value.candidate.workOrderId);
      if link.None? {
        return false;
      }
      var approvals := Approvals(link.value.root);
      reused := false;
      for i := 0 to |approvals|
        invariant reused <==> exists a <- approvals[..i] ::
                    var parent := ReviewOf(Stored(), a.link.parent.workOrderId);
                    parent.Some? && (parent.value.reportHash in [value.reportHash, value.id]
                                     || parent.value.id in [value.reportHash, value.id])
      {
        var parent := LatestReview(approvals[i].link.parent.workOrderId);
        if parent.Some? && (parent.value.reportHash in [value.reportHash, value.id]
                            || parent.value.id in [value.reportHash, value.id]) {
          reused := true;
        }
        assert approvals[..i + 1] == approvals[..i] + [approvals[i]];
      }
      assert approvals[..|approvals|] == approvals;
    }

    method RecordReview(value: Review, checks: bool, action: bool) returns (out: Option<Review>)
      modifies this
      ensures Step(Stored(), out) == RepairTransactions.RecordReview(old(Stored()), value, checks, action)
      ensures Kept(old(Stored()), Stored()) && (out.None? ==> Stored() == old(Stored()))
      ensures out.Some? ==>
                out.value == value && WellFormedReview(value)
                    && Reviewed(value) in EventsOf(log, value.candidate.workOrderId)
    {
      ReviewKept(Stored(), value, checks, action);
      EventsOfEmit(Stored(), value.candidate.workOrderId, Reviewed(value), value.candidate.workOrderId);
      var reused := ReportReused(value);
      if !ExactCandidate(Stored(), value.candidate) || !checks || !WellFormedReview(value) || reused {
        return None;
      }
      var events := ListEvents(value.candidate.workOrderId);
      if exists e <- events :: e.Reviewed? && e.review.id == value.id {
        if Reviewed(value) in events {
          return Some(value);
        }
        return None;
      }
      var prior := LatestReview(value.candidate.workOrderId);
      if prior.Some? {
        var ci := LastCiPassAt(events);
        if !prior.value.passed || ci < 0 || ci <= LastReviewAt(events) || prior.value.reportHash == value.reportHash {
          return None;
        }
      }
      var observations := Observations(value.candidate);
      if !Reviewable(observations, action) {
        return None;
      }
      AppendEvent(value.candidate.workOrderId, Reviewed(value));
      return Some(value);
    }

    /** The body of a proposal's transaction, which an approval nests in its own. */
    method ProposeNested(id: string, reviewId: string, policy: Policy, now: int, genuine: bool, newId: string)
      returns (out: Option<Proposal>)
      modifies this
      ensures Step(Stored(), out) ==
              RepairTransactions.Propose(old(Stored()), id, reviewId, policy, now, genuine, newId)
      ensures orders == old(orders)
    {
      if !MayPropose(Stored(), id, reviewId, policy, now, genuine) {
        return None;
      }
      var root, terms := RootOf(Stored(), id), TermsFor(Stored(), id, policy);
      var events := ListEvents(root);
      out := ProposalWith(events, terms);
      if out.None? {
        out := Some(Proposal(newId, terms));
        AppendEvent(root, Proposed(out.value));
      }
    }

    method Propose(id: string, reviewId: string, policy: Policy, now: int, genuine: bool, newId: string)
      returns (out: Option<Proposal>)
      modifies this
      ensures Step(Stored(), out) ==
              RepairTransactions.Propose(old(Stored()), id, reviewId, policy, now, genuine, newId)
      ensures orders == old(orders)
      ensures Kept(old(Stored()), Stored()) && (out.None? ==> Stored() == old(Stored()))
      ensures out.Some? ==>
                && MayPropose(old(Stored()), id, reviewId, policy, now, genuine)
                && out.value.terms == TermsFor(old(Stored()), id, policy)
    {
      ProposeKept(Stored(), id, reviewId, policy, now, genuine, newId);
      if MayPropose(Stored(), id, reviewId, policy, now, genuine) {
        TermsFoundMatch(EventsOf(log, RootOf(Stored(), id)), TermsFor(Stored(), id, policy));
      }
      out := ProposeNested(id, reviewId, policy, now, genuine, newId);
    }

    /** The child WorkOrder, its link, and the approval in its root's history. */
    method Grant(root: string, proposalId: string, link: Link, childId: string)
      requires root in orders
      modifies this
      ensures Stored() == Granted(old(Stored()), root, proposalId, link, childId)
    {
      var round := link.policy.round;
      orders := orders[childId :=
        orders[root].(baseRef := link.parent.commit, allowedPaths := link.policy.allowedPaths, queued := false)];
      AppendEvent(childId, Linked(link));
      AppendEvent(root, Approved(Approval(proposalId, childId, round.productive + 1, round.budget, link)));
    }

    /** The body of the approval's transaction: a refusal after a nested proposal rolls that proposal back. */
    method ApproveNested(root: string, proposalId: string, expected: Terms, owner: string, now: int,
                         genuine: bool, newId: string, childId: string) returns (out: Option<string>)
      modifies this
      ensures Step(Stored(), out) ==
              RepairTransactions.Approve(old(Stored()), root, proposalId, expected, owner, now, genuine, newId, childId)
    {
      var before := log;
      var events := ListEvents(root);
      var proposal := ProposalById(events, proposalId);
      if !BoundedText(owner, 200) || proposal.None? || proposal.value.terms != expected {
        return None;
      }
      var approvals := Approvals(root);
      var existing := ApprovalOf(approvals, proposalId);
      if existing.Some? {
        return Some(existing.value.workOrderId);
      }
      var p := proposal.value.terms;
      var review := LatestReview(p.parent.workOrderId);
      var current := ProposeNested(p.parent.workOrderId, p.reviewId, p.policy, now, genuine, newId);
      if current.None? || current.value.terms != expected || root !in orders || childId in orders || review.None? {
        log := before;
        return None;
      }
      var link := NextLink(root, proposalId, p, approvals, review.value.findings, owner, now);
      Grant(root, proposalId, link, childId);
      return Some(childId);
    }

    method Approve(root: string, proposalId: string, expected: Terms, owner: string, now: int,
                   genuine: bool, newId: string, childId: string) returns (out: Option<string>)
      modifies this
      ensures Step(Stored(), out) ==
              RepairTransactions.Approve(old(Stored()), root, proposalId, expected, owner, now, genuine, newId, childId)
      ensures Kept(old(Stored()), Stored()) && (out.None? ==> Stored() == old(Stored()))
      ensures Stored() != old(Stored()) ==> Made(old(Stored()), Step(Stored(), out), root, childId)
    {
      ApproveKept(Stored(), root, proposalId, expected, owner, now, genuine, newId, childId);
      ApproveSays(Stored(), root, proposalId, expected, owner, now, genuine, newId, childId);
      out := ApproveNested(root, proposalId, expected, owner, now, genuine, newId, childId);
    }

    method ClaimRepairPreparation(id: string, input: Prepare, now: int, sameWork: bool, untouched: bool)
      returns (out: Option<()>)
      modifies this
      ensures Step(Stored(), out) ==
              RepairTransactions.ClaimRepairPreparation(old(Stored()), id, input, now, sameWork, untouched)
      ensures Kept(old(Stored()), Stored()) && (out.None? ==> Stored() == old(Stored()))
      ensures out.Some? ==>
                && LinkOf(old(Stored()), id).Some? && PrepareOf(old(Stored()), id).None?
                && log == old(log) + [Entry(id, PrepareRequested(input))] && id in orders && orders[id].queued
    {
      ClaimKept(Stored(), id, input, now, sameWork, untouched);
      var found := RepairLink(id);
      if found.None? || id !in orders {
        return None;
      }
      var link := found.value;
      var events := ListEvents(id);
      var review := ReviewIn(events);
      var original := PrepareOf(Stored(), link.parent.workOrderId);
      var blocked := Held in events || PrepareIn(events).Some?;
      if review.Some? {
        var observations := Observations(review.value.candidate);
        blocked := blocked || !review.value.passed || exists o <- observations :: !o.status.Pass?;
      }
      if TipOf(Stored(), RootOf(Stored(), id)) != id || !untouched || now >= link.deadline || blocked {
        return None;
      }
      if !sameWork || orders[id].description != link.objective || orders[id].baseRef != link.parent.commit
         || input.contract.None? {
        return None;
      }
      if original.Some? && (original.value.workId == input.workId || original.value.repository != input.repository) {
        return None;
      }
      var plan := input.contract.value;
      if plan.maxPaid != link.policy.round.productive + 1 || plan.productive != link.policy.round.productive
         || plan.completion != 1 || RoundUsd(input.spend) > link.policy.round.budget {
        return None;
      }
      if !input.deadline.After(now) || input.deadline.millis.value > link.deadline
         || input.deadline.millis.value > now + link.policy.round.duration * 1000 {
        return None;
      }
      orders := orders[id := orders[id].(queued := true)];
      AppendEvent(id, PrepareRequested(input));
      return Some(());
    }
  }
}
