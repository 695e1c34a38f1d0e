/**
 What every history keeps of a WorkOrder's reviews: identities are used once, a failed review is the last, and between
 two reviews there is new CI evidence.
 */
module ReviewTheorems {
  import opened Primitives
  import opened RepairTransactions
  import opened RepairTheorems

  predicate CiPass(e: Event) {
    e.Observed? && e.observation.stage.Ci? && e.observation.status.Pass?
  }

  predicate CiBetween(events: seq<Event>, i: nat, j: nat)
    requires i < j < |events|
  {
    exists k | i < k < j :: CiPass(events[k])
  }

  /** Two reviews of one WorkOrder, the earlier and the later. */
  predicate Successive(events: seq<Event>, i: nat, j: nat)
    requires i < j < |events|
  {
    events[i].Reviewed? && events[j].Reviewed? ==>
      && events[i].review.passed
      && events[i].review.id != events[j].review.id
      && CiBetween(events, i, j)
  }

  predicate ReviewOrder(events: seq<Event>) {
    && (forall i: nat, j: nat | i < j < |events| :: Successive(events, i, j))
    && (forall e <- events | e.Reviewed? :: WellFormedReview(e.review))
  }

  ghost predicate ReviewInv(log: seq<Entry>) {
    forall order :: ReviewOrder(EventsOf(log, order))
  }

  // ---------------------------------------------------------------- one more event

  lemma {:induction false} LastReviewIs(events: seq<Event>)
    ensures -1 <= LastReviewAt(events) < |events|
    ensures LastReviewAt(events) >= 0 ==> events[LastReviewAt(events)].Reviewed?
                                          && ReviewIn(events) == Some(events[LastReviewAt(events)].review)
    ensures forall i | LastReviewAt(events) < i < |events| :: !events[i].Reviewed?
    ensures ReviewIn(events).None? <==> LastReviewAt(events) < 0
  {
    if events != [] {
      LastReviewIs(events[..|events| - 1]);
    }
  }

  lemma {:induction false} LastCiPassIs(events: seq<Event>)
    ensures -1 <= LastCiPassAt(events) < |events|
    ensures LastCiPassAt(events) >= 0 ==> CiPass(events[LastCiPassAt(events)])
  {
    if events != [] {
      LastCiPassIs(events[..|events| - 1]);
    }
  }

  lemma SuccessiveKept(events: seq<Event>, e: Event, i: nat, j: nat)
    requires i < j < |events| && Successive(events, i, j)
    ensures Successive(events + [e], i, j)
  {
    var events' := events + [e];
    if events[i].Reviewed? && events[j].Reviewed? {
      var k :| i < k < j && CiPass(events[k]);
      assert CiPass(events'[k]);
    }
  }

  lemma OtherEvent(events: seq<Event>, e: Event)
    requires ReviewOrder(events) && !e.Reviewed?
    ensures ReviewOrder(events + [e])
  {
    forall i: nat, j: nat | i < j < |events + [e]| ensures Successive(events + [e], i, j) {
      if j < |events| {
        SuccessiveKept(events, e, i, j);
      }
    }
  }

  /** A review that may be recorded follows new CI evidence behind a passed one. */
  predicate MayFollow(events: seq<Event>, value: Review) {
    && WellFormedReview(value)
    && (forall e <- events | e.Reviewed? :: e.review.id != value.id)
    && (ReviewIn(events).Some? ==>
          ReviewIn(events).value.passed && LastCiPassAt(events) > LastReviewAt(events))
  }

  lemma NewReview(events: seq<Event>, value: Review)
    requires ReviewOrder(events) && MayFollow(events, value)
    ensures ReviewOrder(events + [Reviewed(value)])
  {
    var n, events' := |events|, events + [Reviewed(value)];
    LastReviewIs(events);
    LastCiPassIs(events);
    forall i: nat, j: nat | i < j < |events'| ensures Successive(events', i, j) {
      if j < n {
        SuccessiveKept(events, Reviewed(value), i, j);
      } else if events[i].Reviewed? {
        var last, k := LastReviewAt(events), LastCiPassAt(events);
        assert events[i] in events && i <= last;
        assert i < last ==> Successive(events, i, last);
        assert CiPass(events'[k]) && i < k < n;
      }
    }
  }

  // ---------------------------------------------------------------- one more call

  predicate Unreviewed(log: seq<Entry>, log': seq<Entry>) {
    log <= log' && forall e <- log'[|log|..] :: !e.event.Reviewed?
  }

  lemma {:induction false} UnreviewedKeeps(log: seq<Entry>, more: seq<Entry>, order: string)
    requires ReviewOrder(EventsOf(log, order)) && forall e <- more :: !e.event.Reviewed?
    ensures ReviewOrder(EventsOf(log + more, order))
  {
    if more == [] {
      assert log + more == log;
    } else {
      var n := |more| - 1;
      UnreviewedKeeps(log, more[..n], order);
      assert (log + more)[..|log| + n] == log + more[..n];
      assert more[n] in more;
      var events := EventsOf(log + more[..n], order);
      if more[n].order == order {
        OtherEvent(events, more[n].event);
      } else {
        assert events + [] == events;
      }
    }
  }

  lemma OneMoreUnreviewed(log: seq<Entry>, log': seq<Entry>, e: Entry)
    requires Unreviewed(log, log') && !e.event.Reviewed?
    ensures Unreviewed(log, log' + [e])
  {
    assert (log' + [e])[|log|..] == log'[|log|..] + [e];
  }

  lemma ObserveUnreviewed(s: Store, value: Observation, checks: bool)
    ensures Unreviewed(s.log, Observe(s, value, checks).store.log)
  {
  }

  lemma ProposeUnreviewed(
    s: Store, id: string, reviewId: string, policy: Policy, now: int, genuine: bool, newId: string)
    ensures Unreviewed(s.log, Propose(s, id, reviewId, policy, now, genuine, newId).store.log)
  {
  }

  lemma ApproveUnreviewed(s: Store, root: string, proposalId: string, expected: Terms, owner: string, now: int,
                          genuine: bool, newId: string, childId: string)
    ensures Unreviewed(s.log, Approve(s, root, proposalId, expected, owner, now, genuine, newId, childId).store.log)
  {
    var id := expected.parent.workOrderId;
    var log' := Approve(s, root, proposalId, expected, owner, now, genuine, newId, childId).store.log;
    var proposed := Propose(s, id, expected.reviewId, expected.policy, now, genuine, newId).store.log;
    ProposeUnreviewed(s, id, expected.reviewId, expected.policy, now, genuine, newId);
    ApproveLog(s, root, proposalId, expected, owner, now, genuine, newId, childId);
    if log' != s.log {
      OneMoreUnreviewed(s.log, proposed, log'[|proposed|]);
      OneMoreUnreviewed(s.log, proposed + [log'[|proposed|]], log'[|proposed| + 1]);
    }
  }

  lemma ClaimUnreviewed(s: Store, id: string, input: Prepare, now: int, sameWork: bool, untouched: bool)
    ensures Unreviewed(s.log, ClaimRepairPreparation(s, id, input, now, sameWork, untouched).store.log)
  {
  }

  lemma OtherCallsReviewNothing(s: Store, call: Call, now: int)
    requires !call.CallReview?
    ensures Unreviewed(s.log, Apply(s, call, now).log)
  {
    match call
    case CallObserve(observation, checks) => ObserveUnreviewed(s, observation, checks);
    case CallPropose(id, reviewId, policy, genuine, newId) =>
      ProposeUnreviewed(s, id, reviewId, policy, now, genuine, newId);
    case CallApprove(root, proposalId, expected, owner, genuine, newId, childId) =>
      ApproveUnreviewed(s, root, proposalId, expected, owner, now, genuine, newId, childId);
    case CallClaim(id, input, sameWork, untouched) => ClaimUnreviewed(s, id, input, now, sameWork, untouched);
    case _ =>
  }

  lemma RecordKeeps(s: Store, value: Review, checks: bool, action: bool, order: string)
    requires ReviewOrder(EventsOf(s.log, order))
    ensures ReviewOrder(EventsOf(RecordReview(s, value, checks, action).store.log, order))
  {
    var id := value.candidate.workOrderId;
    if RecordReview(s, value, checks, action).store != s {
      EventsOfEmit(s, id, Reviewed(value), order);
      if order == id {
        LastReviewIs(EventsOf(s.log, id));
        NewReview(EventsOf(s.log, id), value);
      } else {
        assert EventsOf(s.log, order) + [] == EventsOf(s.log, order);
      }
    }
  }

  lemma UnreviewedGrowth(log: seq<Entry>, log': seq<Entry>, order: string)
    requires ReviewOrder(EventsOf(log, order)) && Unreviewed(log, log')
    ensures ReviewOrder(EventsOf(log', order))
  {
    UnreviewedKeeps(log, log'[|log|..], order);
    assert log + log'[|log|..] == log';
  }

  lemma ApplyReviews(s: Store, call: Call, now: int)
    requires ReviewInv(s.log)
    ensures ReviewInv(Apply(s, call, now).log)
  {
    var log' := Apply(s, call, now).log;
    if !call.CallReview? {
      OtherCallsReviewNothing(s, call, now);
    }
    forall order ensures ReviewOrder(EventsOf(log', order)) {
      assert ReviewOrder(EventsOf(s.log, order));
      if call.CallReview? {
        RecordKeeps(s, call.review, call.checks, call.action, order);
      } else {
        UnreviewedGrowth(s.log, log', order);
      }
    }
  }

  /**
   In every history, each review of a WorkOrder but the last is a PASS, no review identity is used twice, and new CI
   evidence lies between any two reviews: a review is never replaced, and a failed one is final.
   */
  lemma {:induction false} ReviewsAreFinal(history: seq<Tx>)
    ensures ReviewInv(Run(EMPTY, history).log)
  {
    if history != [] {
      var n := |history| - 1;
      ReviewsAreFinal(history[..n]);
      ApplyReviews(Run(EMPTY, history[..n]), history[n].call, history[n].now);
    }
  }
}
