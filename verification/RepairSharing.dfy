/**
 Rounds of one repair chain can share a Work when a round lies between them: this history verifies, reviews, approves
 and prepares three rounds, of which the first and the third use, and fund, the same Work.
 */
module RepairSharing {
  import opened Primitives
  import opened SpendPolicy
  import S = SpendTransactions
  import opened RepairTransactions
  import opened RepairTheorems
  import Spend = RepairSpend

  // ---------------------------------------------------------------- names

  /** WorkOrders of the chain are numbered from its root; each has a letter for its identities. */
  function Letter(k: nat): char {
    if k == 0 then 'a' else if k == 1 then 'b' else if k == 2 then 'c' else 'd'
  }

  /** The first letter of an identity. */
  function Rank(text: string): int {
    if text == "" then 0 else text[0] as int
  }

  function Name(k: nat, length: nat): (text: string)
    ensures |text| == length && (forall c <- text :: c == Letter(k)) && (length > 0 ==> Rank(text) == Letter(k) as int)
  {
    seq(length, _ => Letter(k))
  }

  function IdOf(k: nat): (text: string)
    ensures DashedUuid(text) && Rank(text) == Letter(k) as int
  {
    seq(36, i => if i in [8, 13, 18, 23] then '-' else Letter(k))
  }

  /** Another identity of WorkOrder k. */
  function OtherId(k: nat, last: char): (text: string)
    requires HexDigit(last)
    ensures UuidText(text) && Rank(text) == Letter(k) as int
  {
    IdOf(k)[..35] + [last]
  }

  const ROOT := IdOf(0)
  const ORDER := Order("objective", "base", ["src/"], false)
  const POLICY := Policy("contract", ["src/a"], 3, 6, 30, 600, Round(1, 1, 10, 60))
  const DEADLINE := 600_000
  const QUOTE := Spend.Quote("m", Stamp("later", Some(DEADLINE)), 5)

  function CandidateOf(k: nat): Candidate {
    Candidate(IdOf(k), OtherId(k, '0'), Name(k, 40), Name(k, 39) + "0")
  }

  function Evidence(k: nat, stage: Stage): Observation {
    Observation(CandidateOf(k), stage, Pass, Name(k, 63) + if stage.Custody? then "0" else "1", "verifier", false)
  }

  function FailedReview(k: nat): Review {
    Review(OtherId(k, '1'), "reviewer", CandidateOf(k), false, [Finding("f", "src/a", true)], Name(k, 63) + "2")
  }

  function TermsOf(k: nat): Terms {
    Terms(ROOT, CandidateOf(k), FailedReview(k).id, FailedReview(k), ORDER.description, POLICY)
  }

  function ProposalOf(k: nat): Proposal {
    Proposal(OtherId(k, '2'), TermsOf(k))
  }

  /** The request that prepares WorkOrder k + 1; the first and the third name the same Work. */
  function RequestOf(k: nat): Prepare {
    Prepare("client", IdOf(if k == 1 then 1 else 0), k + 1, IdOf(k + 1), "owner/name", 10.0,
            Stamp("soon", Some(60_000)), Some(Contract("price", 1, 1, 2, 5)))
  }

  // ---------------------------------------------------------------- what holds at each round

  /** The identities in an entry have the letter of its WorkOrder. */
  predicate Named(e: Entry) {
    match e.event
    case Observed(o) => Rank(o.artifactHash) == Rank(e.order)
    case Reviewed(v) => Rank(v.id) == Rank(e.order) && Rank(v.reportHash) == Rank(e.order)
    case PrepareRequested(p) => Rank(p.requestId) == Rank(e.order)
    case Proposed(p) => Rank(p.id) == Rank(p.terms.parent.workOrderId)
    case _ => true
  }

  /** A round approved earlier in this chain. */
  predicate Earlier(a: Approval, tip: string) {
    && a.link.policy == POLICY && a.link.deadline == DEADLINE
    && Rank(a.link.parent.workOrderId) < Rank(tip) && Rank(a.proposalId) == Rank(a.link.parent.workOrderId)
    && a.operations == 2 && a.microusd == 10
  }

  predicate NamedLog(log: seq<Entry>) {
    forall e <- log :: Named(e)
  }

  predicate KnownOrders(s: Store, tip: string) {
    && ROOT in s.orders && s.orders[ROOT].description == ORDER.description
    && s.orders[ROOT].allowedPaths == ORDER.allowedPaths
    && tip in s.orders && (forall order <- s.orders :: order == tip || Rank(order) < Rank(tip))
    && (forall e <- s.log :: e.order in s.orders)
  }

  /** What the readings of the store say: a chain of k rounds. */
  predicate AtRound(approvals: seq<Approval>, link: Option<Link>, prepare: Option<Prepare>, k: nat) {
    && |approvals| == k && (forall a <- approvals :: Earlier(a, IdOf(k)))
    && (if k == 0 then link.None? && prepare.None?
        else
          && approvals[k - 1].workOrderId == IdOf(k) && prepare == Some(RequestOf(k - 1))
          && link.Some? && link.value.root == ROOT && link.value.deadline == DEADLINE
          && link.value.parent == CandidateOf(k - 1))
  }

  /** The chain has k rounds, the last of them prepared. */
  predicate Stands(s: Store, k: nat) {
    && k <= 3 && NamedLog(s.log) && KnownOrders(s, IdOf(k))
    && AtRound(ApprovalsOf(s, ROOT), LinkOf(s, IdOf(k)), PrepareOf(s, IdOf(k)), k)
  }

  predicate Plain(event: Event) {
    event.Observed? || event.Reviewed? || event.Proposed?
  }

  lemma PlainReadings(s: Store, order: string, event: Event, id: string)
    requires Plain(event)
    ensures var s' := Emit(s, order, event);
            && ApprovalsOf(s', id) == ApprovalsOf(s, id) && LinkOf(s', id) == LinkOf(s, id)
            && PrepareOf(s', id) == PrepareOf(s, id)
  {
    EmitReadings(s, order, event, id);
    EventsOfEmit(s, order, event, id);
    if order == id {
      Spend.PrepareInAppend(EventsOf(s.log, id), event);
    } else {
      assert EventsOf(s.log, id) + [] == EventsOf(s.log, id);
    }
  }

  /** An event that neither approves, links nor prepares leaves the chain standing. */
  lemma PlainStands(s: Store, k: nat, order: string, event: Event)
    requires Stands(s, k) && order in s.orders && Named(Entry(order, event)) && Plain(event)
    requires event.Proposed? ==> event.proposal.terms.root == order
    ensures Stands(Emit(s, order, event), k)
  {
    PlainReadings(s, order, event, ROOT);
    PlainReadings(s, order, event, IdOf(k));
  }

  lemma {:induction false} ObservationsAre(events: seq<Event>, c: Candidate)
    ensures forall o <- ObservationsIn(events, c) :: Observed(o) in events
    ensures (forall e <- events :: !e.Observed?) ==> ObservationsIn(events, c) == []
  {
    if events != [] {
      var n := |events| - 1;
      ObservationsAre(events[..n], c);
      assert events == events[..n] + [events[n]];
    }
  }

  lemma {:induction false} ReviewIsEvent(events: seq<Event>)
    ensures ReviewIn(events).Some? ==> Reviewed(ReviewIn(events).value) in events
  {
    if events != [] {
      var n := |events| - 1;
      ReviewIsEvent(events[..n]);
      assert events == events[..n] + [events[n]];
    }
  }

  /** Evidence of the tip is not evidence of an ancestor. */
  lemma FreshEvidence(s: Store, k: nat, artifactHash: string)
    requires Stands(s, k) && Rank(artifactHash) == Rank(IdOf(k))
    ensures !AncestorEvidence(s, IdOf(k), artifactHash)
  {
    forall a, o | a in ApprovalsOf(s, ROOT) && o in ObservationsOf(s, a.link.parent)
      ensures o.artifactHash != artifactHash
    {
      var order := a.link.parent.workOrderId;
      ObservationsAre(EventsOf(s.log, order), a.link.parent);
      EventsAreEntries(s.log, order, Observed(o));
      assert Earlier(a, IdOf(k)) && Named(Entry(order, Observed(o)));
    }
  }

  lemma FreshReport(s: Store, k: nat, value: Review)
    requires Stands(s, k) && value.candidate.workOrderId == IdOf(k)
    requires Rank(value.id) == Rank(IdOf(k)) && Rank(value.reportHash) == Rank(IdOf(k))
    ensures !ReusedReport(s, value)
  {
    forall a | a in ApprovalsOf(s, ROOT) && ReviewOf(s, a.link.parent.workOrderId).Some?
      ensures Rank(ReviewOf(s, a.link.parent.workOrderId).value.id) < Rank(IdOf(k))
      ensures Rank(ReviewOf(s, a.link.parent.workOrderId).value.reportHash) < Rank(IdOf(k))
    {
      var order := a.link.parent.workOrderId;
      ReviewIsEvent(EventsOf(s.log, order));
      EventsAreEntries(s.log, order, Reviewed(ReviewOf(s, order).value));
      assert Earlier(a, IdOf(k)) && Named(Entry(order, Reviewed(ReviewOf(s, order).value)));
    }
  }

  /** Every identity here has the form the store demands. */
  lemma NamesAreExact(k: nat)
    ensures UuidText(IdOf(k)) && UuidText(CandidateOf(k).runId) && HexText(CandidateOf(k).commit, 40)
    ensures HexText(CandidateOf(k).tree, 40)
    ensures WellFormedObservation(Evidence(k, Custody)) && WellFormedObservation(Evidence(k, Protected))
    ensures UuidText(FailedReview(k).id) && HexText(FailedReview(k).reportHash, 64)
  {
    assert "verifier"[0] in "verifier";
  }

  lemma CandidateIsExact(s: Store, k: nat)
    requires Stands(s, k)
    ensures ExactCandidate(s, CandidateOf(k))
  {
    NamesAreExact(k);
    if k > 0 {
      assert CandidateOf(k).commit[0] == Letter(k) && CandidateOf(k - 1).commit[0] == Letter(k - 1);
      assert CandidateOf(k).tree[0] == Letter(k) && CandidateOf(k - 1).tree[0] == Letter(k - 1);
    }
  }

  lemma ReviewIsWellFormed(k: nat)
    ensures WellFormedReview(FailedReview(k))
  {
    NamesAreExact(k);
    assert "f"[0] in "f";
  }

  // ---------------------------------------------------------------- one round

  function EvidenceSoFar(k: nat, n: nat): seq<Observation> {
    if n == 0 then [] else if n == 1 then [Evidence(k, Custody)]
       else [Evidence(k, Custody), Evidence(k, Protected)]
  }

  function StageAfter(n: nat): Stage {
    if n == 0 then Custody else Protected
  }

  /** Nothing of the tip's has been reviewed or proposed. */
  predicate Unreviewed(log: seq<Entry>, tip: string) {
    (forall e <- log | e.order == tip :: !e.event.Reviewed?) && Unproposed(log, tip)
  }

  predicate Unproposed(log: seq<Entry>, tip: string) {
    forall e <- log | e.event.Proposed? :: Rank(e.event.proposal.terms.parent.workOrderId) < Rank(tip)
  }

  lemma UnreviewedStays(log: seq<Entry>, tip: string, e: Entry)
    requires Unproposed(log, tip) && !e.event.Proposed?
    ensures Unproposed(log + [e], tip)
    ensures Unreviewed(log, tip) && !e.event.Reviewed? ==> Unreviewed(log + [e], tip)
  {
  }

  /** n stages of verification have passed for the tip. */
  predicate Verified(s: Store, k: nat, n: nat) {
    Stands(s, k) && Unreviewed(s.log, IdOf(k)) && ObservationsOf(s, CandidateOf(k)) == EvidenceSoFar(k, n)
  }

  /** What an observation finds before it: nothing of its stage, and the stage before it passed. */
  predicate MayFollow(prior: seq<Observation>, o: Observation) {
    && o !in prior && (forall p <- prior :: p.status.Pass?) && LastOf(prior, o.stage).None?
    && (o.stage.Protected? ==> PassedStage(prior, Custody)) && !o.stage.Ci?
  }

  lemma NextStage(k: nat, n: nat)
    requires n < 2
    ensures MayFollow(EvidenceSoFar(k, n), Evidence(k, StageAfter(n)))
  {
    var first := [Evidence(k, Custody)];
    assert first[..0] == [];
  }

  lemma ObserveFollows(s: Store, o: Observation)
    requires ExactCandidate(s, o.candidate) && WellFormedObservation(o)
    requires !AncestorEvidence(s, o.candidate.workOrderId, o.artifactHash)
    requires MayFollow(ObservationsOf(s, o.candidate), o)
    ensures Apply(s, CallObserve(o, true), 0) == Emit(s, o.candidate.workOrderId, Observed(o))
  {
  }

  lemma ObserveMakes(s: Store, k: nat, n: nat)
    requires Verified(s, k, n) && n < 2
    ensures Apply(s, CallObserve(Evidence(k, StageAfter(n)), true), 0)
            == Emit(s, IdOf(k), Observed(Evidence(k, StageAfter(n))))
  {
    FreshEvidence(s, k, Evidence(k, StageAfter(n)).artifactHash);
    CandidateIsExact(s, k);
    NamesAreExact(k);
    NextStage(k, n);
    ObserveFollows(s, Evidence(k, StageAfter(n)));
  }

  lemma EvidenceStep(s: Store, k: nat, n: nat)
    requires n < 2 && ObservationsOf(s, CandidateOf(k)) == EvidenceSoFar(k, n)
    ensures ObservationsOf(Emit(s, IdOf(k), Observed(Evidence(k, StageAfter(n)))), CandidateOf(k))
            == EvidenceSoFar(k, n + 1)
  {
    ObservationsAppend(s.log, Entry(IdOf(k), Observed(Evidence(k, StageAfter(n)))), CandidateOf(k));
  }

  lemma ObserveStep(s: Store, k: nat, n: nat)
    requires Verified(s, k, n) && n < 2
    ensures Verified(Emit(s, IdOf(k), Observed(Evidence(k, StageAfter(n)))), k, n + 1)
  {
    var o := Evidence(k, StageAfter(n));
    PlainStands(s, k, IdOf(k), Observed(o));
    UnreviewedStays(s.log, IdOf(k), Entry(IdOf(k), Observed(o)));
    EvidenceStep(s, k, n);
  }

  /** The tip's review has failed, and nothing has been proposed for it. */
  predicate Failed(s: Store, k: nat) {
    Stands(s, k) && Unproposed(s.log, IdOf(k)) && ReviewOf(s, IdOf(k)) == Some(FailedReview(k))
  }

  lemma FirstReview(s: Store, k: nat)
    requires ExactCandidate(s, CandidateOf(k)) && !ReusedReport(s, FailedReview(k)) && ReviewOf(s, IdOf(k)).None?
    requires forall e <- EventsOf(s.log, IdOf(k)) :: !e.Reviewed?
    requires ObservationsOf(s, CandidateOf(k)) == EvidenceSoFar(k, 2)
    ensures RecordReview(s, FailedReview(k), true, false).store == Emit(s, IdOf(k), Reviewed(FailedReview(k)))
  {
    var observations := ObservationsOf(s, CandidateOf(k));
    assert observations[0] in observations && observations[1] in observations;
    assert Reviewable(observations, false);
    ReviewIsWellFormed(k);
  }

  lemma LastReview(s: Store, id: string, value: Review)
    ensures ReviewOf(Emit(s, id, Reviewed(value)), id) == Some(value)
  {
    EventsOfEmit(s, id, Reviewed(value), id);
  }

  lemma NoReview(s: Store, tip: string)
    requires Unreviewed(s.log, tip)
    ensures ReviewOf(s, tip).None? && forall e <- EventsOf(s.log, tip) :: !e.Reviewed?
  {
    forall e | e in EventsOf(s.log, tip) ensures !e.Reviewed? {
      EventsAreEntries(s.log, tip, e);
      assert Entry(tip, e) in s.log;
    }
    ReviewIsEvent(EventsOf(s.log, tip));
  }

  lemma ReviewMakes(s: Store, k: nat)
    requires Verified(s, k, 2)
    ensures Apply(s, CallReview(FailedReview(k), true, false), 0) == Emit(s, IdOf(k), Reviewed(FailedReview(k)))
  {
    NoReview(s, IdOf(k));
    FreshReport(s, k, FailedReview(k));
    CandidateIsExact(s, k);
    FirstReview(s, k);
  }

  lemma ReviewStep(s: Store, k: nat)
    requires Verified(s, k, 2)
    ensures Failed(Emit(s, IdOf(k), Reviewed(FailedReview(k))), k)
  {
    PlainStands(s, k, IdOf(k), Reviewed(FailedReview(k)));
    UnreviewedStays(s.log, IdOf(k), Entry(IdOf(k), Reviewed(FailedReview(k))));
    LastReview(s, IdOf(k), FailedReview(k));
  }

  lemma PolicyIsValid()
    ensures ValidPolicy(POLICY)
  {
    assert "contract"[0] in "contract";
  }

  lemma PolicyInScope()
    ensures forall path <- POLICY.allowedPaths :: InScope(path, ORDER.allowedPaths)
  {
    assert ORDER.allowedPaths[0] in ORDER.allowedPaths;
  }

  lemma FindingRepairable(k: nat)
    ensures exists f <- FailedReview(k).findings :: f.visible
    ensures forall f <- FailedReview(k).findings :: f.path in POLICY.allowedPaths
  {
    assert FailedReview(k).findings[0] in FailedReview(k).findings;
    assert POLICY.allowedPaths[0] in POLICY.allowedPaths;
  }

  lemma SumsSoFar(approvals: seq<Approval>, tip: string)
    requires forall a <- approvals :: Earlier(a, tip)
    ensures SumOperations(approvals) == 2 * |approvals| && SumMicrousd(approvals) == 10 * |approvals|
    ensures approvals != [] ==> approvals[0].link.policy == POLICY && approvals[0].link.deadline == DEADLINE
  {
    UniformSums(approvals, 2, 10);
    if approvals != [] {
      assert Earlier(approvals[0], tip);
    }
  }

  /** With these readings one more round fits the policy. */
  lemma ReadingsAllow(s: Store, k: nat)
    requires k < 3 && ReviewOf(s, IdOf(k)) == Some(FailedReview(k))
    requires RootOf(s, IdOf(k)) == ROOT && TipOf(s, ROOT) == IdOf(k)
    requires ROOT in s.orders && s.orders[ROOT].description == ORDER.description
    requires s.orders[ROOT].allowedPaths == ORDER.allowedPaths
    requires var approvals := ApprovalsOf(s, ROOT);
             && |approvals| == k && SumOperations(approvals) == 2 * k && SumMicrousd(approvals) == 10 * k
             && (approvals != [] ==> approvals[0].link.policy == POLICY)
    requires LinkOf(s, IdOf(k)).Some? ==> LinkOf(s, IdOf(k)).value.deadline == DEADLINE
    requires ExactCandidate(s, CandidateOf(k))
    ensures MayPropose(s, IdOf(k), FailedReview(k).id, POLICY, 0, true)
    ensures TermsFor(s, IdOf(k), POLICY) == TermsOf(k)
  {
    PolicyIsValid();
    PolicyInScope();
    FindingRepairable(k);
  }

  /** One more round fits the policy. */
  lemma RoundAllowed(s: Store, k: nat)
    requires Stands(s, k) && k < 3 && ReviewOf(s, IdOf(k)) == Some(FailedReview(k))
    ensures MayPropose(s, IdOf(k), FailedReview(k).id, POLICY, 0, true)
    ensures TermsFor(s, IdOf(k), POLICY) == TermsOf(k)
  {
    SumsSoFar(ApprovalsOf(s, ROOT), IdOf(k));
    CandidateIsExact(s, k);
    ReadingsAllow(s, k);
  }

  lemma {:induction false} NewProposal(events: seq<Event>, p: Proposal)
    requires forall e <- events | e.Proposed? :: e.proposal.id != p.id && e.proposal.terms != p.terms
    ensures ProposalWith(events, p.terms).None?
    ensures ProposalById(events + [Proposed(p)], p.id) == Some(p)
    ensures ProposalWith(events + [Proposed(p)], p.terms) == Some(p)
  {
    if events != [] {
      NewProposal(events[1..], p);
      assert (events + [Proposed(p)])[1..] == events[1..] + [Proposed(p)];
    }
  }

  /** The repair of the tip has been proposed. */
  predicate Pending(s: Store, k: nat) {
    && Stands(s, k) && ReviewOf(s, IdOf(k)) == Some(FailedReview(k))
    && ProposalById(EventsOf(s.log, ROOT), ProposalOf(k).id) == Some(ProposalOf(k))
    && ProposalWith(EventsOf(s.log, ROOT), TermsOf(k)) == Some(ProposalOf(k))
    && (forall e <- s.log | e.event.Proposed? :: Rank(e.event.proposal.terms.parent.workOrderId) <= Rank(IdOf(k)))
  }

  lemma NoProposal(s: Store, k: nat)
    requires Failed(s, k)
    ensures forall e <- EventsOf(s.log, ROOT) | e.Proposed? ::
              e.proposal.id != ProposalOf(k).id && e.proposal.terms != ProposalOf(k).terms
  {
    forall e | e in EventsOf(s.log, ROOT) && e.Proposed?
      ensures e.proposal.id != ProposalOf(k).id && e.proposal.terms != ProposalOf(k).terms
    {
      EventsAreEntries(s.log, ROOT, e);
      assert Named(Entry(ROOT, e));
    }
  }

  lemma NewTerms(s: Store, k: nat)
    requires Failed(s, k)
    ensures ProposalWith(EventsOf(s.log, ROOT), TermsOf(k)).None?
  {
    NoProposal(s, k);
    NewProposal(EventsOf(s.log, ROOT), ProposalOf(k));
  }

  lemma ProposeNew(s: Store, k: nat)
    requires RootOf(s, IdOf(k)) == ROOT && ProposalWith(EventsOf(s.log, ROOT), TermsOf(k)).None?
    requires MayPropose(s, IdOf(k), FailedReview(k).id, POLICY, 0, true) && TermsFor(s, IdOf(k), POLICY) == TermsOf(k)
    ensures Apply(s, CallPropose(IdOf(k), FailedReview(k).id, POLICY, true, ProposalOf(k).id), 0) ==
            Emit(s, ROOT, Proposed(ProposalOf(k)))
  {
  }

  lemma ProposeMakes(s: Store, k: nat)
    requires Failed(s, k) && k < 3
    ensures Apply(s, CallPropose(IdOf(k), FailedReview(k).id, POLICY, true, ProposalOf(k).id), 0) ==
            Emit(s, ROOT, Proposed(ProposalOf(k)))
  {
    RoundAllowed(s, k);
    NewTerms(s, k);
    ProposeNew(s, k);
  }

  lemma ProposeStep(s: Store, k: nat)
    requires Failed(s, k)
    ensures Pending(Emit(s, ROOT, Proposed(ProposalOf(k))), k)
  {
    var p := ProposalOf(k);
    NoProposal(s, k);
    NewProposal(EventsOf(s.log, ROOT), p);
    PlainStands(s, k, ROOT, Proposed(p));
    EventsOfEmit(s, ROOT, Proposed(p), ROOT);
    ReviewStays(s, p, IdOf(k));
  }

  lemma ReviewStays(s: Store, p: Proposal, tip: string)
    ensures ReviewOf(Emit(s, ROOT, Proposed(p)), tip) == ReviewOf(s, tip)
  {
    EventsOfEmit(s, ROOT, Proposed(p), tip);
    if tip == ROOT {
      var events := EventsOf(s.log, tip);
      assert (events + [Proposed(p)])[..|events|] == events;
    } else {
      assert EventsOf(s.log, tip) + [] == EventsOf(s.log, tip);
    }
  }

  function LinkMade(k: nat): Link {
    Link(ROOT, CandidateOf(k), FailedReview(k).id, ProposalOf(k).id, k + 1, POLICY, ORDER.description,
         DEADLINE, "owner", FailedReview(k).findings)
  }

  lemma Unapproved(s: Store, k: nat)
    requires Stands(s, k) && k < 3
    ensures ApprovalOf(ApprovalsOf(s, ROOT), ProposalOf(k).id).None? && IdOf(k + 1) !in s.orders
    ensures LinkMade(k) ==
            NextLink(ROOT, ProposalOf(k).id, TermsOf(k), ApprovalsOf(s, ROOT), FailedReview(k).findings,
                     "owner", 0)
  {
    forall a | a in ApprovalsOf(s, ROOT) ensures a.proposalId != ProposalOf(k).id {
      assert Earlier(a, IdOf(k));
    }
    NoApproval(ApprovalsOf(s, ROOT), ProposalOf(k).id);
    SumsSoFar(ApprovalsOf(s, ROOT), IdOf(k));
    ChildIsNew(s, k);
    var findings := FailedReview(k).findings;
    assert findings[1..] == [] && VisibleFindings(findings) == findings;
  }

  lemma OwnerNamed()
    ensures BoundedText("owner", 200)
  {
    assert "owner"[0] in "owner";
  }

  /** Proposed again, the pending proposal is found. */
  lemma ProposeFinds(s: Store, k: nat)
    requires Pending(s, k) && k < 3
    ensures Propose(s, IdOf(k), FailedReview(k).id, POLICY, 0, true, "unused") == Step(s, Some(ProposalOf(k)))
  {
    RoundAllowed(s, k);
  }

  /** The checks before the proposal is made again. */
  lemma ApproveReaches(s: Store, k: nat, current: Step<Proposal>)
    requires ProposalById(EventsOf(s.log, ROOT), ProposalOf(k).id) == Some(ProposalOf(k))
    requires ApprovalOf(ApprovalsOf(s, ROOT), ProposalOf(k).id).None?
    requires current == Propose(s, IdOf(k), FailedReview(k).id, POLICY, 0, true, "unused")
    ensures Approve(s, ROOT, ProposalOf(k).id, TermsOf(k), "owner", 0, true, "unused", IdOf(k + 1)) ==
            ApproveCurrent(s, ROOT, ProposalOf(k).id, TermsOf(k), "owner", 0, IdOf(k + 1), current)
  {
    OwnerNamed();
  }

  lemma CurrentMakes(s: Store, k: nat)
    requires Stands(s, k) && k < 3 && ReviewOf(s, IdOf(k)) == Some(FailedReview(k))
    ensures ApproveCurrent(s, ROOT, ProposalOf(k).id, TermsOf(k), "owner", 0, IdOf(k + 1),
                           Step(s, Some(ProposalOf(k)))).store ==
            Granted(s, ROOT, ProposalOf(k).id, LinkMade(k), IdOf(k + 1))
  {
    Unapproved(s, k);
  }

  lemma ApproveMakes(s: Store, k: nat)
    requires Pending(s, k) && k < 3
    ensures Approve(s, ROOT, ProposalOf(k).id, TermsOf(k), "owner", 0, true, "unused", IdOf(k + 1)).store ==
            Granted(s, ROOT, ProposalOf(k).id, LinkMade(k), IdOf(k + 1))
  {
    Unapproved(s, k);
    ProposeFinds(s, k);
    ApproveReaches(s, k, Step(s, Some(ProposalOf(k))));
    CurrentMakes(s, k);
  }

  lemma {:induction false} NoApproval(approvals: seq<Approval>, id: string)
    requires forall a <- approvals :: a.proposalId != id
    ensures ApprovalOf(approvals, id).None?
  {
    if approvals != [] {
      NoApproval(approvals[1..], id);
    }
  }

  function ApprovalMadeFor(k: nat): Approval {
    Approval(ProposalOf(k).id, IdOf(k + 1), 2, 10, LinkMade(k))
  }

  /** What the readings say of a round that is approved and not yet prepared. */
  predicate OpenRound(approvals: seq<Approval>, link: Option<Link>, events: seq<Event>, before: Option<Prepare>, k: nat)
  {
    && |approvals| == k + 1 && (forall a <- approvals :: Earlier(a, IdOf(k + 1)))
    && approvals[k].workOrderId == IdOf(k + 1) && link == Some(LinkMade(k))
       && events == [Linked(LinkMade(k))]
    && before == (if k == 0 then None else Some(RequestOf(k - 1)))
  }

  predicate OpenOrder(s: Store, k: nat) {
    && KnownOrders(s, IdOf(k + 1)) && s.orders[IdOf(k + 1)].description == ORDER.description
    && s.orders[IdOf(k + 1)].baseRef == CandidateOf(k).commit
  }

  /** The next round is approved and not yet prepared. */
  predicate Open(s: Store, k: nat) {
    && NamedLog(s.log) && Unproposed(s.log, IdOf(k + 1)) && OpenOrder(s, k)
    && OpenRound(ApprovalsOf(s, ROOT), LinkOf(s, IdOf(k + 1)), EventsOf(s.log, IdOf(k + 1)), PrepareOf(s, IdOf(k)),
                 k)
  }

  /** The readings after an approval of a child that is new. */
  lemma GrantedReadings(s: Store, child: string, link: Link, approval: Approval)
    requires (forall e <- s.log :: e.order != child) && child != ROOT
    ensures var s' := Emit(Emit(s, child, Linked(link)), ROOT, Approved(approval));
            ApprovalsOf(s', ROOT) == ApprovalsOf(s, ROOT) + [approval] && LinkOf(s', child) == Some(link)
  {
    var mid := Emit(s, child, Linked(link));
    UnknownOrderIsEmpty(s.log, child);
    EmitReadings(s, child, Linked(link), child);
    EmitReadings(mid, ROOT, Approved(approval), child);
    EmitReadings(s, child, Linked(link), ROOT);
    EmitReadings(mid, ROOT, Approved(approval), ROOT);
    assert ApprovalsOf(s, ROOT) + [] == ApprovalsOf(s, ROOT);
  }

  lemma GrantedEvents(s: Store, child: string, link: Link, approval: Approval, id: string)
    requires forall e <- s.log :: e.order != child
    requires child != ROOT && id != child
    ensures var s' := Emit(Emit(s, child, Linked(link)), ROOT, Approved(approval));
            && EventsOf(s'.log, child) == [Linked(link)]
            && PrepareOf(s', id) == PrepareOf(s, id)
  {
    var mid := Emit(s, child, Linked(link));
    UnknownOrderIsEmpty(s.log, child);
    EventsOfEmit(s, child, Linked(link), child);
    EventsOfEmit(mid, ROOT, Approved(approval), child);
    EventsOfEmit(s, child, Linked(link), id);
    EventsOfEmit(mid, ROOT, Approved(approval), id);
    assert EventsOf(s.log, id) + [] == EventsOf(s.log, id);
    if id == ROOT {
      Spend.PrepareInAppend(EventsOf(s.log, id), Approved(approval));
    }
  }

  function Next(s: Store, k: nat): Store
    requires ROOT in s.orders
  {
    Granted(s, ROOT, ProposalOf(k).id, LinkMade(k), IdOf(k + 1))
  }

  lemma NextOrders(s: Store, k: nat)
    requires k < 3 && KnownOrders(s, IdOf(k))
    ensures OpenOrder(Next(s, k), k)
  {
    ChildIsNew(s, k);
  }

  lemma NextLog(s: Store, k: nat)
    requires k < 3 && NamedLog(s.log) && ROOT in s.orders
    requires forall e <- s.log | e.event.Proposed? :: Rank(e.event.proposal.terms.parent.workOrderId) <= Rank(IdOf(k))
    ensures NamedLog(Next(s, k).log) && Unproposed(Next(s, k).log, IdOf(k + 1))
  {
  }

  lemma NextReads(s: Store, k: nat)
    requires k < 3 && KnownOrders(s, IdOf(k))
    requires AtRound(ApprovalsOf(s, ROOT), LinkOf(s, IdOf(k)), PrepareOf(s, IdOf(k)), k)
    ensures var s' := Next(s, k);
            OpenRound(ApprovalsOf(s', ROOT), LinkOf(s', IdOf(k + 1)), EventsOf(s'.log, IdOf(k + 1)),
                      PrepareOf(s', IdOf(k)), k)
  {
    var child, approval, s' := IdOf(k + 1), ApprovalMadeFor(k), Next(s, k);
    ChildIsNew(s, k);
    GrantedReadings(s.(orders := s'.orders), child, LinkMade(k), approval);
    GrantedEvents(s.(orders := s'.orders), child, LinkMade(k), approval, IdOf(k));
    EarlierStill(ApprovalsOf(s, ROOT), k);
    OneMoreApproval(ApprovalsOf(s, ROOT), k);
  }

  lemma OneMoreApproval(approvals: seq<Approval>, k: nat)
    requires k < 3 && |approvals| == k && forall a <- approvals :: Earlier(a, IdOf(k + 1))
    ensures forall a <- approvals + [ApprovalMadeFor(k)] :: Earlier(a, IdOf(k + 1))
  {
  }

  lemma ApproveStep(s: Store, k: nat)
    requires Pending(s, k) && k < 3
    ensures Open(Next(s, k), k)
  {
    NextOrders(s, k);
    NextLog(s, k);
    NextReads(s, k);
  }

  lemma EarlierStill(approvals: seq<Approval>, k: nat)
    requires k < 3 && forall a <- approvals :: Earlier(a, IdOf(k))
    ensures forall a <- approvals :: Earlier(a, IdOf(k + 1))
  {
    forall a | a in approvals ensures Earlier(a, IdOf(k + 1)) {
      assert Earlier(a, IdOf(k));
    }
  }

  /** The next letter is used by no WorkOrder yet. */
  lemma ChildIsNew(s: Store, k: nat)
    requires k < 3 && KnownOrders(s, IdOf(k))
    ensures IdOf(k + 1) !in s.orders && IdOf(k + 1) != ROOT && IdOf(k + 1) != IdOf(k)
    ensures forall e <- s.log :: e.order != IdOf(k + 1)
  {
  }

  function Queued(s: Store, id: string, k: nat): Store
    requires id in s.orders
  {
    Emit(s.(orders := s.orders[id := s.orders[id].(queued := true)]), id, PrepareRequested(RequestOf(k)))
  }

  lemma OnlyLinked(link: Link)
    ensures var events := [Linked(link)];
            ReviewIn(events).None? && PrepareIn(events).None? && LinkIn(events) == Some(link) && Held !in events
  {
    var events := [Linked(link)];
    assert events[1..] == [] && events[..0] == [];
  }

  lemma ClaimMakes(s: Store, k: nat)
    requires Open(s, k) && k < 3
    ensures ClaimRepairPreparation(s, IdOf(k + 1), RequestOf(k), 0, true, true).store == Queued(s, IdOf(k + 1), k)
  {
    OnlyLinked(LinkMade(k));
  }

  lemma LinkedThenPrepared(link: Link, prepare: Prepare)
    ensures var events := [Linked(link), PrepareRequested(prepare)];
            LinkIn(events) == Some(link) && PrepareIn(events) == Some(prepare)
  {
    var events := [Linked(link), PrepareRequested(prepare)];
    assert events[1..] == [PrepareRequested(prepare)];
  }

  lemma QueuedReads(s: Store, k: nat)
    requires Open(s, k)
    ensures var s' := Queued(s, IdOf(k + 1), k);
            && ApprovalsOf(s', ROOT) == ApprovalsOf(s, ROOT)
            && EventsOf(s'.log, IdOf(k + 1)) == [Linked(LinkMade(k)), PrepareRequested(RequestOf(k))]
  {
    var child, e := IdOf(k + 1), PrepareRequested(RequestOf(k));
    var mid := s.(orders := Queued(s, child, k).orders);
    EmitReadings(mid, child, e, ROOT);
    EventsOfEmit(mid, child, e, child);
  }

  lemma QueuedOrders(s: Store, child: string, k: nat)
    requires KnownOrders(s, child)
    ensures KnownOrders(Queued(s, child, k), child)
  {
  }

  lemma QueuedQuiet(s: Store, k: nat, link: Link, prepare: Prepare)
    requires EventsOf(s.log, IdOf(k)) == [Linked(link), PrepareRequested(prepare)] && Unproposed(s.log, IdOf(k))
    ensures Unreviewed(s.log, IdOf(k)) && ObservationsOf(s, CandidateOf(k)) == []
  {
    ObservationsAre(EventsOf(s.log, IdOf(k)), CandidateOf(k));
    forall e | e in s.log && e.order == IdOf(k) ensures !e.event.Reviewed? {
      EventsAreEntries(s.log, IdOf(k), e.event);
      assert Entry(IdOf(k), e.event) == e;
    }
  }

  lemma QueuedLog(s: Store, k: nat)
    requires IdOf(k + 1) in s.orders && NamedLog(s.log) && Unproposed(s.log, IdOf(k + 1))
    ensures NamedLog(Queued(s, IdOf(k + 1), k).log) && Unproposed(Queued(s, IdOf(k + 1), k).log, IdOf(k + 1))
  {
  }

  lemma ClaimStep(s: Store, k: nat)
    requires Open(s, k) && k < 3
    ensures Verified(Queued(s, IdOf(k + 1), k), k + 1, 0)
  {
    QueuedReads(s, k);
    QueuedOrders(s, IdOf(k + 1), k);
    QueuedLog(s, k);
    QueuedQuiet(Queued(s, IdOf(k + 1), k), k + 1, LinkMade(k), RequestOf(k));
    LinkedThenPrepared(LinkMade(k), RequestOf(k));
  }

  lemma RequestIsWellFormed(k: nat)
    requires k < 3
    ensures WellFormedRequest(RequestOf(k), 0)
  {
    var repository := RequestOf(k).repository;
    assert repository[5] == '/' && forall i | 0 <= i < |repository| && i != 5 :: WordCharacter(repository[i]);
  }

  /** Nobody has used this round's request identity. */
  lemma RequestIsNew(s: Store, k: nat)
    requires Open(s, k) && k < 3
    ensures Admissible(s.log, RequestOf(k), 0)
  {
    RequestIsWellFormed(k);
    forall e | e in s.log && e.event.PrepareRequested?
      ensures e.event.prepare.requestId != RequestOf(k).requestId
    {
      assert Named(e);
      EventsAreEntries(s.log, e.order, e.event);
    }
  }

  // ---------------------------------------------------------------- three rounds

  type Moments = seq<Spend.Moment>

  /** `run` gives the world after each history. */
  ghost predicate Runs(run: Moments -> Spend.World) {
    forall history: Moments, m: Spend.Moment :: run(history + [m]) == Spend.Next(run(history), m.event, m.now)
  }

  lemma ExecuteOne(history: Moments, m: Spend.Moment)
    ensures Spend.Execute(history + [m]) == Spend.Next(Spend.Execute(history), m.event, m.now)
  {
    assert (history + [m])[..|history|] == history;
  }

  lemma ExecuteRuns()
    ensures Runs((h: Moments) => Spend.Execute(h))
  {
    forall h: Moments, m: Spend.Moment
      ensures Spend.Execute(h + [m]) == Spend.Next(Spend.Execute(h), m.event, m.now)
    {
      ExecuteOne(h, m);
    }
  }

  type Runner = run: Moments -> Spend.World | Runs(run)
    ghost witness (ExecuteRuns(); (h: Moments) => Spend.Execute(h))

  /** A later history with the same money and a longer log. */
  predicate Extends(run: Runner, history: Moments, later: Moments) {
    && history <= later && run(later).db == run(history).db
    && run(history).store.log <= run(later).store.log
  }

  lemma AfterCall(run: Runner, history: Moments, call: Call) returns (later: Moments)
    ensures Extends(run, history, later) && run(later).store == Apply(run(history).store, call, 0)
  {
    later := history + [Spend.Moment(Spend.Lifecycle(call), 0)];
    Spend.StoreGrows(run(history).store, call, 0);
  }

  lemma ObserveAt(run: Runner, history: Moments, k: nat, n: nat) returns (later: Moments)
    requires Verified(run(history).store, k, n) && n < 2
    ensures Extends(run, history, later) && Verified(run(later).store, k, n + 1)
  {
    ObserveMakes(run(history).store, k, n);
    ObserveStep(run(history).store, k, n);
    later := AfterCall(run, history, CallObserve(Evidence(k, StageAfter(n)), true));
  }

  lemma ReviewAt(run: Runner, history: Moments, k: nat) returns (later: Moments)
    requires Verified(run(history).store, k, 2)
    ensures Extends(run, history, later) && Failed(run(later).store, k)
  {
    ReviewMakes(run(history).store, k);
    ReviewStep(run(history).store, k);
    later := AfterCall(run, history, CallReview(FailedReview(k), true, false));
  }

  lemma ProposeAt(run: Runner, history: Moments, k: nat) returns (later: Moments)
    requires Failed(run(history).store, k) && k < 3
    ensures Extends(run, history, later) && Pending(run(later).store, k)
  {
    ProposeMakes(run(history).store, k);
    ProposeStep(run(history).store, k);
    later := AfterCall(run, history, CallPropose(IdOf(k), FailedReview(k).id, POLICY, true, ProposalOf(k).id));
  }

  lemma ApproveMoves(run: Runner, history: Moments, k: nat, s': Store) returns (later: Moments)
    requires s' == Approve(
      run(history).store, ROOT, ProposalOf(k).id, TermsOf(k), "owner", 0, true, "unused", IdOf(k + 1)).store
    ensures Extends(run, history, later) && run(later).store == s'
  {
    later := AfterCall(
      run, history, CallApprove(ROOT, ProposalOf(k).id, TermsOf(k), "owner", true, "unused", IdOf(k + 1)));
  }

  lemma ApproveTo(run: Runner, history: Moments, k: nat) returns (later: Moments)
    requires Pending(run(history).store, k) && k < 3
    ensures Extends(run, history, later) && run(later).store == Next(run(history).store, k)
  {
    ApproveMakes(run(history).store, k);
    later := ApproveMoves(run, history, k, Next(run(history).store, k));
  }

  lemma ApproveAt(run: Runner, history: Moments, k: nat) returns (later: Moments)
    requires Pending(run(history).store, k) && k < 3
    ensures Extends(run, history, later) && Open(run(later).store, k)
  {
    ApproveStep(run(history).store, k);
    later := ApproveTo(run, history, k);
  }

  lemma ClaimApplies(s: Store, k: nat)
    requires Admissible(s.log, RequestOf(k), 0)
    ensures Apply(s, CallClaim(IdOf(k + 1), RequestOf(k), true, true), 0) ==
            ClaimRepairPreparation(s, IdOf(k + 1), RequestOf(k), 0, true, true).store
  {
  }

  lemma ClaimApplied(s: Store, k: nat)
    requires Open(s, k) && k < 3
    ensures Apply(s, CallClaim(IdOf(k + 1), RequestOf(k), true, true), 0) == Queued(s, IdOf(k + 1), k)
  {
    ClaimMakes(s, k);
    RequestIsNew(s, k);
    ClaimApplies(s, k);
  }

  lemma ClaimTo(run: Runner, history: Moments, k: nat) returns (later: Moments)
    requires Open(run(history).store, k) && k < 3
    ensures Extends(run, history, later) && run(later).store == Queued(run(history).store, IdOf(k + 1), k)
  {
    ClaimApplied(run(history).store, k);
    later := AfterCall(run, history, CallClaim(IdOf(k + 1), RequestOf(k), true, true));
  }

  lemma ClaimAt(run: Runner, history: Moments, k: nat) returns (later: Moments)
    requires Open(run(history).store, k) && k < 3
    ensures Extends(run, history, later) && Verified(run(later).store, k + 1, 0)
  {
    ClaimStep(run(history).store, k);
    later := ClaimTo(run, history, k);
  }

  lemma ExtendsOn(run: Runner, a: Moments, b: Moments, c: Moments)
    requires Extends(run, a, b) && Extends(run, b, c)
    ensures Extends(run, a, c)
  {
  }

  lemma FirstStage(run: Runner, history: Moments, k: nat) returns (later: Moments)
    requires Verified(run(history).store, k, 0)
    ensures Extends(run, history, later) && Verified(run(later).store, k, 1)
  {
    later := ObserveAt(run, history, k, 0);
  }

  lemma SecondStage(run: Runner, history: Moments, k: nat) returns (later: Moments)
    requires Verified(run(history).store, k, 1)
    ensures Extends(run, history, later) && Verified(run(later).store, k, 2)
  {
    later := ObserveAt(run, history, k, 1);
  }

  lemma Verifying(run: Runner, history: Moments, k: nat) returns (later: Moments)
    requires Verified(run(history).store, k, 0)
    ensures Extends(run, history, later) && Verified(run(later).store, k, 2)
  {
    var observed := FirstStage(run, history, k);
    later := SecondStage(run, observed, k);
    ExtendsOn(run, history, observed, later);
  }

  /** Verification, and a failed review. */
  lemma Reviewing(run: Runner, history: Moments, k: nat) returns (later: Moments)
    requires Verified(run(history).store, k, 0)
    ensures Extends(run, history, later) && Failed(run(later).store, k)
  {
    var verified := Verifying(run, history, k);
    later := ReviewAt(run, verified, k);
    ExtendsOn(run, history, verified, later);
  }

  /** A proposal, its approval, and the preparation of the child. */
  lemma Repairing(run: Runner, history: Moments, k: nat) returns (later: Moments)
    requires Failed(run(history).store, k) && k < 3
    ensures Extends(run, history, later) && Verified(run(later).store, k + 1, 0)
  {
    var a := ProposeAt(run, history, k);
    var b := ApproveAt(run, a, k);
    ExtendsOn(run, history, a, b);
    later := ClaimAt(run, b, k);
    ExtendsOn(run, history, b, later);
  }

  lemma OneMoreRound(run: Runner, history: Moments, k: nat) returns (later: Moments)
    requires Verified(run(history).store, k, 0) && k < 3
    ensures Extends(run, history, later) && Verified(run(later).store, k + 1, 0)
  {
    var reviewed := Reviewing(run, history, k);
    later := Repairing(run, reviewed, k);
    ExtendsOn(run, history, reviewed, later);
  }

  lemma Begun(run: Runner) returns (history: Moments)
    requires run([]) == Spend.World(EMPTY, S.EMPTY)
    ensures Verified(run(history).store, 0, 0) && run(history).db == S.EMPTY
  {
    history := AfterCall(run, [], CallCreate(ROOT, ORDER));
  }

  /** The Work of round k + 1 is unfunded, or belongs to an earlier generation with the same money and no row. */
  predicate Fundable(db: S.Db, k: nat) {
    && db.operations == []
    && (RequestOf(k).workId in db.budgets ==>
          var b := db.budgets[RequestOf(k).workId];
          && b.workGeneration < k + 1 && b.ceiling == 10 && !b.cancelled
          && b.plan == Spend.PlanOf(RequestOf(k).contract, QUOTE))
  }

  lemma QuoteIsValid(order: string, k: nat)
    requires Bounded(order) && k < 3
    ensures ValidateBudget(RequestOf(k).workId, k + 1, RequestOf(k).requestId, order, 10, RequestOf(k).deadline,
                           Spend.PlanOf(RequestOf(k).contract, QUOTE), 0).None?
  {
    assert ModelReference("m");
  }

  /** The budget of round k + 1. */
  predicate FundedAs(db: S.Db, order: string, k: nat) {
    && db.operations == [] && RequestOf(k).workId in db.budgets
    && var b := db.budgets[RequestOf(k).workId];
      && b.workOrderId == order && b.workGeneration == k + 1 && b.ceiling == 10 && !b.cancelled
      && b.plan == Spend.PlanOf(RequestOf(k).contract, QUOTE)
  }

  lemma FundableAgain(db: S.Db, order: string)
    requires FundedAs(db, order, 0)
    ensures Fundable(db, 2)
  {
  }

  lemma FundMakes(w: Spend.World, order: string, k: nat)
    requires Bounded(order) && k < 3 && PrepareOf(w.store, order) == Some(RequestOf(k)) && Fundable(w.db, k)
    ensures var w' := Spend.Next(w, Spend.Fund(order, QUOTE), 0); w'.store == w.store && FundedAs(w'.db, order, k)
  {
    QuoteIsValid(order, k);
  }

  lemma FundAt(run: Runner, history: Moments, k: nat) returns (later: Moments)
    requires k < 3 && Verified(run(history).store, k + 1, 0) && Fundable(run(history).db, k)
    ensures history <= later && run(later).store == run(history).store && FundedAs(run(later).db, IdOf(k + 1), k)
  {
    FundMakes(run(history), IdOf(k + 1), k);
    later := history + [Spend.Moment(Spend.Fund(IdOf(k + 1), QUOTE), 0)];
  }

  lemma {:induction false} ApprovalsGrow(events: seq<Event>, more: seq<Event>)
    ensures ApprovalsIn(events) <= ApprovalsIn(events + more)
  {
    if more == [] {
      assert events + more == events;
    } else {
      var n := |more| - 1;
      ApprovalsGrow(events, more[..n]);
      assert (events + more)[..|events| + n] == events + more[..n];
    }
  }

  lemma EarlierApprovals(s: Store, s': Store)
    requires s.log <= s'.log
    ensures ApprovalsOf(s, ROOT) <= ApprovalsOf(s', ROOT)
  {
    Spend.EventsOfPrefix(s.log, s'.log[|s.log|..], ROOT);
    assert s.log + s'.log[|s.log|..] == s'.log;
    var events, events' := EventsOf(s.log, ROOT), EventsOf(s'.log, ROOT);
    ApprovalsGrow(events, events'[|events|..]);
    assert events + events'[|events|..] == events';
  }

  /** Rounds 1 and 3 name this Work and round 2 another, and the Work was funded for the one and is for the other. */
  predicate Shared(before: Spend.World, after: Spend.World, workId: string) {
    var approvals := ApprovalsOf(after.store, ROOT);
    && |approvals| == 3
    && (forall k | 0 <= k < 3 ::
          PrepareOf(after.store, approvals[k].workOrderId).Some? &&
          (PrepareOf(after.store, approvals[k].workOrderId).value.workId == workId <==> k != 1))
    && workId in before.db.budgets && before.db.budgets[workId].workOrderId == approvals[0].workOrderId
    && workId in after.db.budgets && after.db.budgets[workId].workOrderId == approvals[2].workOrderId
  }

  lemma SharedBy(first: Spend.World, second: Spend.World, third: Spend.World)
    requires Verified(first.store, 1, 0) && Verified(second.store, 2, 0) && Verified(third.store, 3, 0)
    requires first.store.log <= second.store.log <= third.store.log
    requires FundedAs(first.db, IdOf(1), 0) && FundedAs(third.db, IdOf(3), 2)
    ensures Shared(first, third, IdOf(0))
  {
    EarlierApprovals(first.store, third.store);
    EarlierApprovals(second.store, third.store);
    Spend.PreparationIsFixed(first.store, third.store, IdOf(1));
    Spend.PreparationIsFixed(second.store, third.store, IdOf(2));
  }

  /** The first round, funded. */
  lemma FirstRound(run: Runner) returns (history: Moments)
    requires run([]) == Spend.World(EMPTY, S.EMPTY)
    ensures Verified(run(history).store, 1, 0) && FundedAs(run(history).db, IdOf(1), 0)
  {
    var begun := Begun(run);
    var prepared := OneMoreRound(run, begun, 0);
    history := FundAt(run, prepared, 0);
  }

  /** The second round. Its Work is another one, and is not funded here. */
  lemma SecondRound(run: Runner, first: Moments) returns (second: Moments)
    requires Verified(run(first).store, 1, 0) && FundedAs(run(first).db, IdOf(1), 0)
    ensures Extends(run, first, second) && Verified(run(second).store, 2, 0) && Fundable(run(second).db, 2)
  {
    FundableAgain(run(first).db, IdOf(1));
    second := OneMoreRound(run, first, 1);
  }

  /** The third round, funded from the Work of the first. */
  lemma LastRound(run: Runner, second: Moments) returns (history: Moments)
    requires Verified(run(second).store, 2, 0) && Fundable(run(second).db, 2)
    ensures second <= history && run(second).store.log <= run(history).store.log
    ensures Verified(run(history).store, 3, 0) && FundedAs(run(history).db, IdOf(3), 2)
  {
    var third := OneMoreRound(run, second, 2);
    history := FundAt(run, third, 2);
  }

  lemma MoreRounds(run: Runner, first: Moments) returns (history: Moments)
    requires Verified(run(first).store, 1, 0) && FundedAs(run(first).db, IdOf(1), 0)
    ensures first <= history && Shared(run(first), run(history), IdOf(0))
  {
    var second := SecondRound(run, first);
    history := LastRound(run, second);
    SharedBy(run(first), run(second), run(history));
  }

  /**
   In this history rounds 1 and 3 of one chain are prepared with the same Work, which is funded first for the one
   WorkOrder and then for the other.
   */
  lemma RoundsShareWork() returns (history: Moments, n: nat, workId: string)
    ensures n <= |history| && Shared(Spend.Execute(history[..n]), Spend.Execute(history), workId)
  {
    ExecuteRuns();
    var run: Runner := (h: Moments) => Spend.Execute(h);
    var first := FirstRound(run);
    history := MoreRounds(run, first);
    n, workId := |first|, IdOf(0);
    assert history[..n] == first;
  }
}
