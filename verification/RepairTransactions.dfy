/**
 The review and repair lifecycle. Everything is derived from one append-only event history; each entry point is
 specified as a function of the store, and a refusal leaves the store alone.
 */
module RepairTransactions {
  import opened Primitives

  datatype Candidate = Candidate(workOrderId: string, runId: string, commit: string, tree: string)

  datatype Stage = Custody | Protected | Ci
  datatype Status = Pass | Fail | Unknown

  datatype Observation = Observation(
    candidate: Candidate, stage: Stage, status: Status, artifactHash: string, source: string, published: bool)

  datatype Finding = Finding(id: string, path: string, visible: bool)

  datatype Review = Review(
    id: string, reviewer: string, candidate: Candidate, passed: bool, findings: seq<Finding>, reportHash: string)

  datatype Round = Round(productive: int, completion: int, budget: int, duration: int)

  datatype Policy = Policy(
    publicContract: string, allowedPaths: seq<string>, maxRounds: int, maxOperations: int, maxBudget: int,
    maxDuration: int, round: Round)

  /** The digested fields of a proposal; digests are taken as injective, so the fields stand for their hash. */
  datatype Terms = Terms(
    root: string, parent: Candidate, reviewId: string, review: Review, objective: string, policy: Policy)

  datatype Proposal = Proposal(id: string, terms: Terms)

  datatype Link = Link(
    root: string, parent: Candidate, reviewId: string, proposalId: string, round: int, policy: Policy,
    objective: string, deadline: int, owner: string, permitted: seq<Finding>)

  datatype Approval = Approval(proposalId: string, workOrderId: string, operations: int, microusd: int, link: Link)

  /** A prepare request as stored: the spend in micro-USD is still the consumer's fractional amount. */
  datatype Contract = Contract(pricingRevision: string, productive: int, completion: int, maxPaid: int, reserve: int)
  datatype Prepare = Prepare(
    client: string, workId: string, generation: int, requestId: string, repository: string, spend: real,
    deadline: Stamp, contract: Option<Contract>)

  datatype Event =
    | Observed(observation: Observation)
    | Reviewed(review: Review)
    | Proposed(proposal: Proposal)
    | Approved(approval: Approval)
    | Linked(link: Link)
    | PrepareRequested(prepare: Prepare)
    | Held                                     // preparation failed, or a run was put on recovery hold

  datatype Entry = Entry(order: string, event: Event)

  datatype Order = Order(description: string, baseRef: string, allowedPaths: seq<string>, queued: bool)

  datatype Store = Store(orders: map<string, Order>, log: seq<Entry>)

  datatype Step<+T> = Step(store: Store, out: Option<T>)

  /** The events of one WorkOrder, in order. */
  function EventsOf(log: seq<Entry>, order: string): seq<Event> {
    if log == [] then []
    else
      EventsOf(log[..|log| - 1], order) + if log[|log| - 1].order == order then [log[|log| - 1].event] else []
  }

  function LinkIn(events: seq<Event>): Option<Link> {
    if events == [] then None
    else if events[0].Linked? then Some(events[0].link)
    else LinkIn(events[1..])
  }

  function ApprovalsIn(events: seq<Event>): seq<Approval> {
    if events == [] then []
    else
      ApprovalsIn(events[..|events| - 1])
      + if events[|events| - 1].Approved? then [events[|events| - 1].approval] else []
  }

  /** The latest review. */
  function ReviewIn(events: seq<Event>): Option<Review> {
    if events == [] then None
    else if events[|events| - 1].Reviewed? then Some(events[|events| - 1].review)
    else ReviewIn(events[..|events| - 1])
  }

  function ObservationsIn(events: seq<Event>, candidate: Candidate): seq<Observation> {
    if events == [] then []
    else
      var last := events[|events| - 1];
      ObservationsIn(events[..|events| - 1], candidate)
      + if last.Observed? && last.observation.candidate == candidate then [last.observation] else []
  }

  function PrepareIn(events: seq<Event>): Option<Prepare> {
    if events == [] then None
    else if events[0].PrepareRequested? then Some(events[0].prepare)
    else PrepareIn(events[1..])
  }

  function LinkOf(s: Store, id: string): Option<Link> { LinkIn(EventsOf(s.log, id)) }
  function ApprovalsOf(s: Store, root: string): seq<Approval> { ApprovalsIn(EventsOf(s.log, root)) }
  function ReviewOf(s: Store, id: string): Option<Review> { ReviewIn(EventsOf(s.log, id)) }
  function PrepareOf(s: Store, id: string): Option<Prepare> { PrepareIn(EventsOf(s.log, id)) }
  function ObservationsOf(s: Store, c: Candidate): seq<Observation> {
    ObservationsIn(EventsOf(s.log, c.workOrderId), c)
  }

  function RootOf(s: Store, id: string): string {
    match LinkOf(s, id)
    case Some(link) => link.root
    case None => id
  }

  /** The newest WorkOrder of the chain. */
  function TipOf(s: Store, root: string): string {
    var approvals := ApprovalsOf(s, root);
    if approvals == [] then root else approvals[|approvals| - 1].workOrderId
  }

  function Emit(s: Store, order: string, event: Event): Store {
    s.(log := s.log + [Entry(order, event)])
  }

  function Deny<T>(s: Store): Step<T> {
    Step(s, None)
  }

  // ---------------------------------------------------------------- verification observations

  function LastOf(observations: seq<Observation>, stage: Stage): Option<Observation> {
    if observations == [] then None
    else if observations[|observations| - 1].stage == stage then Some(observations[|observations| - 1])
    else LastOf(observations[..|observations| - 1], stage)
  }

  predicate PassedStage(observations: seq<Observation>, stage: Stage) {
    LastOf(observations, stage).Some? && LastOf(observations, stage).value.status.Pass?
  }

  /** An artifact digest already used for a candidate from which this one was repaired. */
  predicate AncestorEvidence(s: Store, id: string, artifactHash: string) {
    match LinkOf(s, id)
    case None => false
    case Some(link) =>
      exists a <- ApprovalsOf(s, link.root) ::
        exists o <- ObservationsOf(s, a.link.parent) :: o.artifactHash == artifactHash
  }

  predicate HexDigit(c: char) {
    '0' <= c <= '9' || 'a' <= c <= 'f'
  }

  predicate HexText(text: string, length: nat) {
    |text| == length && forall c <- text :: HexDigit(c)
  }

  predicate UuidText(text: string) {
    |text| == 36 && forall c <- text :: HexDigit(c) || c == '-'
  }

  /** Exact identities; and a repaired candidate differs in commit and tree from the one it repairs. */
  predicate ExactCandidate(s: Store, c: Candidate) {
    && UuidText(c.workOrderId) && UuidText(c.runId) && HexText(c.commit, 40) && HexText(c.tree, 40)
    && c.workOrderId in s.orders
    && (LinkOf(s, c.workOrderId).Some? ==>
          var parent := LinkOf(s, c.workOrderId).value.parent; c.commit != parent.commit && c.tree != parent.tree)
  }

  predicate WellFormedObservation(value: Observation) {
    HexText(value.artifactHash, 64) && BoundedText(value.source, 300)
  }

  /** `checks` says that the candidate's run and local evidence are complete, which the store answers elsewhere. */
  function Observe(s: Store, value: Observation, checks: bool): Step<Observation> {
    var prior := ObservationsOf(s, value.candidate);
    if !ExactCandidate(s, value.candidate) || !checks || !WellFormedObservation(value)
       || AncestorEvidence(s, value.candidate.workOrderId, value.artifactHash) then Deny(s)
    else if value in prior then Step(s, Some(value))
    else if exists o <- prior :: !o.status.Pass? then Deny(s)
    else if (value.stage.Protected? && !PassedStage(prior, Custody))
         || (value.stage.Ci? && !PassedStage(prior, Protected))
    then Deny(s)
    else if LastOf(prior, value.stage).Some? then Deny(s)
    else Step(Emit(s, value.candidate.workOrderId, Observed(value)), Some(value))
  }

  /** The publication gate of a repaired candidate whose local checks pass. */
  predicate PublicationEligible(observations: seq<Observation>) {
    && (exists o <- observations :: o.stage.Custody? && o.status.Pass?)
    && (exists o <- observations :: o.stage.Protected? && o.status.Pass?)
    && (forall o <- observations :: o.status.Pass?)
  }

  // ---------------------------------------------------------------- reviews

  predicate WellFormedReview(value: Review) {
    && UuidText(value.id) && HexText(value.reportHash, 64)
    && |value.findings| <= 20
    && (forall f <- value.findings :: BoundedText(f.id, 100) && RepairPath(f.path))
    && (value.passed <==> value.findings == [])
    && (forall i, j | 0 <= i < j < |value.findings| :: value.findings[i].id != value.findings[j].id)
  }

  /** The report or review identity was already used for a parent of this chain. */
  predicate ReusedReport(s: Store, value: Review) {
    match LinkOf(s, value.candidate.workOrderId)
    case None => false
    case Some(link) =>
      exists a <- ApprovalsOf(s, link.root) ::
        var parent := ReviewOf(s, a.link.parent.workOrderId);
        parent.Some? && (parent.value.reportHash in [value.reportHash, value.id]
                         || parent.value.id in [value.reportHash, value.id])
  }

  function LastReviewAt(events: seq<Event>): int {
    if events == [] then -1
    else if events[|events| - 1].Reviewed? then |events| - 1
    else LastReviewAt(events[..|events| - 1])
  }

  function LastCiPassAt(events: seq<Event>): int {
    if events == [] then -1
    else
      var last := events[|events| - 1];
      if last.Observed? && last.observation.stage.Ci? && last.observation.status.Pass? then |events| - 1
      else LastCiPassAt(events[..|events| - 1])
  }

  /** `action` says that an external publication of this candidate was dispatched, succeeded or is unknown. */
  predicate PublishedCandidate(observations: seq<Observation>, action: bool) {
    action || exists o <- observations :: o.published
  }

  /** The evidence a review needs behind it. */
  predicate Reviewable(observations: seq<Observation>, action: bool) {
    && (exists o <- observations :: o.stage.Custody? && o.status.Pass?)
    && (exists o <- observations :: o.stage.Protected? && o.status.Pass?)
    && (PublishedCandidate(observations, action) ==> exists o <- observations :: o.stage.Ci? && o.status.Pass?)
  }

  function RecordReview(s: Store, value: Review, checks: bool, action: bool): Step<Review> {
    var id := value.candidate.workOrderId;
    var events := EventsOf(s.log, id);
    var prior := ReviewIn(events);
    var observations := ObservationsOf(s, value.candidate);
    if !ExactCandidate(s, value.candidate) || !checks || !WellFormedReview(value) || ReusedReport(s, value) then Deny(s)
    else if exists e <- events :: e.Reviewed? && e.review.id == value.id then
      (if Reviewed(value) in events then Step(s, Some(value)) else Deny(s))
    else if prior.Some? &&
            (!prior.value.passed || LastCiPassAt(events) < 0 || LastCiPassAt(events) <= LastReviewAt(events)
             || prior.value.reportHash == value.reportHash)
    then Deny(s)
    else if !Reviewable(observations, action) then Deny(s)
    else Step(Emit(s, id, Reviewed(value)), Some(value))
  }

  // ---------------------------------------------------------------- proposals and approvals

  predicate Within(value: int, low: int, high: int) {
    low <= value <= high
  }

  /** Text with something in it, within a bound. */
  predicate BoundedText(text: string, max: int) {
    |text| <= max && exists c <- text :: c !in " \t\r\n"
  }

  predicate WordCharacter(c: char) {
    'a' <= c <= 'z' || 'A' <= c <= 'Z' || '0' <= c <= '9' || c == '_'
  }

  /** A relative path of nonempty components, none of which is hidden or a traversal. */
  predicate RepairPath(path: string) {
    && path != [] && path[|path| - 1] != '/'
    && (forall c <- path :: WordCharacter(c) || c in "-./")
    && forall i | 0 <= i < |path| && path[i] in "./" :: i > 0 && path[i - 1] != '/'
  }

  predicate ValidPolicy(p: Policy) {
    && BoundedText(p.publicContract, 8000) && (forall path <- p.allowedPaths :: RepairPath(path))
    && 0 < |p.allowedPaths| <= 30
    && (forall i, j | 0 <= i < j < |p.allowedPaths| :: p.allowedPaths[i] != p.allowedPaths[j])
    && Within(p.maxRounds, 1, 8) && Within(p.maxOperations, 1, 24) && Within(p.maxBudget, 1, 20_000_000)
    && Within(p.maxDuration, 1, 86_400)
    && Within(p.round.productive, 1, 2) && p.round.completion == 1
    && Within(p.round.budget, 1, p.maxBudget)
    && Within(p.round.duration, 1, if p.maxDuration < 600 then p.maxDuration else 600)
    && p.round.productive + 1 <= p.maxOperations
  }

  /** A repair path lies in the original scope: it is a listed path, or under a listed directory. */
  predicate InScope(path: string, scope: seq<string>) {
    exists a <- scope :: path == a || (a != [] && a[|a| - 1] == '/' && a <= path)
  }

  function SumOperations(approvals: seq<Approval>): int {
    if approvals == [] then 0 else SumOperations(approvals[..|approvals| - 1]) + approvals[|approvals| - 1].operations
  }

  function SumMicrousd(approvals: seq<Approval>): int {
    if approvals == [] then 0 else SumMicrousd(approvals[..|approvals| - 1]) + approvals[|approvals| - 1].microusd
  }

  /** Why a repair may be proposed: `genuine` says that the reviewed candidate's run still retains it. */
  predicate MayPropose(s: Store, id: string, reviewId: string, policy: Policy, now: int, genuine: bool) {
    var root := RootOf(s, id);
    var approvals := ApprovalsOf(s, root);
    var review := ReviewOf(s, id);
    && ValidPolicy(policy)
    && root in s.orders && TipOf(s, root) == id
    && review.Some? && !review.value.passed && review.value.id == reviewId
    && ExactCandidate(s, review.value.candidate) && genuine
    && (approvals != [] ==> approvals[0].link.policy == policy)
    && (forall p <- policy.allowedPaths :: InScope(p, s.orders[root].allowedPaths))
    && (exists f <- review.value.findings :: f.visible)
    && (forall f <- review.value.findings :: f.path in policy.allowedPaths)
    && |approvals| < policy.maxRounds
    && SumOperations(approvals) + policy.round.productive + 1 <= policy.maxOperations
    && SumMicrousd(approvals) + policy.round.budget <= policy.maxBudget
    && (LinkOf(s, id).Some? ==> now < LinkOf(s, id).value.deadline)
  }

  function ProposalWith(events: seq<Event>, terms: Terms): Option<Proposal> {
    if events == [] then None
    else if events[0].Proposed? && events[0].proposal.terms == terms then Some(events[0].proposal)
    else ProposalWith(events[1..], terms)
  }

  function ProposalById(events: seq<Event>, id: string): Option<Proposal> {
    if events == [] then None
    else if events[0].Proposed? && events[0].proposal.id == id then Some(events[0].proposal)
    else ProposalById(events[1..], id)
  }

  function TermsFor(s: Store, id: string, policy: Policy): Terms
    requires RootOf(s, id) in s.orders && ReviewOf(s, id).Some?
  {
    var root, review := RootOf(s, id), ReviewOf(s, id).value;
    Terms(root, review.candidate, review.id, review, s.orders[root].description, policy)
  }

  function Propose(s: Store, id: string, reviewId: string, policy: Policy, now: int, genuine: bool, newId: string)
    : Step<Proposal>
  {
    if !MayPropose(s, id, reviewId, policy, now, genuine) then Deny(s)
    else
      var root, terms := RootOf(s, id), TermsFor(s, id, policy);
      var existing := ProposalWith(EventsOf(s.log, root), terms);
      if existing.Some? then Step(s, existing)
      else Step(Emit(s, root, Proposed(Proposal(newId, terms))), Some(Proposal(newId, terms)))
  }

  function ApprovalOf(approvals: seq<Approval>, proposalId: string): Option<Approval> {
    if approvals == [] then None
    else if approvals[0].proposalId == proposalId then Some(approvals[0])
    else ApprovalOf(approvals[1..], proposalId)
  }

  function VisibleFindings(findings: seq<Finding>): seq<Finding> {
    if findings == [] then []
    else (if findings[0].visible then [findings[0]] else []) + VisibleFindings(findings[1..])
  }

  /** The link of the next round of a chain. */
  function NextLink(root: string, proposalId: string, terms: Terms, approvals: seq<Approval>, findings: seq<Finding>,
                    owner: string, now: int): Link
  {
    var deadline := if approvals == [] then now + terms.policy.maxDuration * 1000 else approvals[0].link.deadline;
    Link(root, terms.parent, terms.reviewId, proposalId, |approvals| + 1, terms.policy, terms.objective,
         deadline, owner, VisibleFindings(findings))
  }

  /** The child WorkOrder, its link, and the approval in its root's history. */
  function Granted(s: Store, root: string, proposalId: string, link: Link, childId: string): Store
    requires root in s.orders
  {
    var child := s.orders[root].(
      baseRef := link.parent.commit, allowedPaths := link.policy.allowedPaths, queued := false);
    var approval := Approval(proposalId, childId, link.policy.round.productive + 1, link.policy.round.budget, link);
    Emit(Emit(s.(orders := s.orders[childId := child]), childId, Linked(link)), root, Approved(approval))
  }

  /** What an approval does with the proposal that is current now. */
  function ApproveCurrent(s: Store, root: string, proposalId: string, terms: Terms, owner: string, now: int,
                          childId: string, current: Step<Proposal>): Step<string>
  {
    var review := ReviewOf(s, terms.parent.workOrderId);
    if current.out.None? || current.out.value.terms != terms then Deny(s)
    else if root !in s.orders || childId in s.orders || review.None? then Deny(s)
    else
      var link := NextLink(root, proposalId, terms, ApprovalsOf(s, root), review.value.findings, owner, now);
      Step(Granted(s.(log := current.store.log), root, proposalId, link, childId), Some(childId))
  }

  /** The owner's approval of an exact proposal creates the child WorkOrder, whose identity is new. */
  function Approve(s: Store, root: string, proposalId: string, expected: Terms, owner: string, now: int,
                   genuine: bool, newId: string, childId: string): Step<string>
  {
    var proposal := ProposalById(EventsOf(s.log, root), proposalId);
    if !BoundedText(owner, 200) || proposal.None? || proposal.value.terms != expected then Deny(s)
    else
      var existing := ApprovalOf(ApprovalsOf(s, root), proposalId);
      if existing.Some? then Step(s, Some(existing.value.workOrderId))
      else
        var current := Propose(s, expected.parent.workOrderId, expected.reviewId, expected.policy, now, genuine, newId);
        ApproveCurrent(s, root, proposalId, expected, owner, now, childId, current)
  }

  // ---------------------------------------------------------------- preparing an approved repair

  function RoundUsd(x: real): int {
    (x + 0.5).Floor
  }

  /** Admission of the one preparation of an approved repair; `untouched` says that it has no run yet. */
  function ClaimRepairPreparation(s: Store, id: string, input: Prepare, now: int, sameWork: bool, untouched: bool)
    : Step<()>
  {
    var link := LinkOf(s, id);
    if link.None? || id !in s.orders then Deny(s)
    else
      var l := link.value;
      var original := PrepareOf(s, l.parent.workOrderId);
      var review := ReviewOf(s, id);
      if TipOf(s, RootOf(s, id)) != id || !untouched || PrepareOf(s, id).Some? || now >= l.deadline
         || Held in EventsOf(s.log, id)
         || (review.Some? && (!review.value.passed ||
                              exists o <- ObservationsOf(s, review.value.candidate) :: !o.status.Pass?)) then Deny(s)
      else if !sameWork || s.orders[id].description != l.objective || s.orders[id].baseRef != l.parent.commit
              || input.contract.None? then Deny(s)
      else if original.Some? &&
              (original.value.workId == input.workId || original.value.repository != input.repository) then Deny(s)
      else
        var c := input.contract.value;
        if c.maxPaid != l.policy.round.productive + 1 || c.productive != l.policy.round.productive || c.completion != 1
           || RoundUsd(input.spend) > l.policy.round.budget
           || !input.deadline.After(now) || input.deadline.millis.value > l.deadline
           || input.deadline.millis.value > now + l.policy.round.duration * 1000
        then Deny(s)
        else
          var queued := s.(orders := s.orders[id := s.orders[id].(queued := true)]);
          Step(Emit(queued, id, PrepareRequested(input)), Some(()))
  }

  predicate DashedUuid(text: string) {
    |text| == 36 && forall i | 0 <= i < 36 :: if i in [8, 13, 18, 23] then text[i] == '-' else HexDigit(text[i])
  }

  /** An owner and a name, separated by a slash. */
  predicate RepositoryName(text: string) {
    exists slash | 0 < slash < |text| - 1 ::
      && text[slash] == '/'
      && forall i | 0 <= i < |text| && i != slash :: WordCharacter(text[i]) || text[i] in "-."
  }

  /** The bounds of every preparation, before the store is read. */
  predicate WellFormedRequest(input: Prepare, now: int) {
    && DashedUuid(input.requestId) && DashedUuid(input.workId) && PositiveSafe(input.generation)
    && RepositoryName(input.repository) && 1.0 <= input.spend <= 20_000_000.0
    && input.deadline.After(now) && input.deadline.millis.value <= now + 3_600_000
  }

  /** A client's request is taken up once; a repetition is answered from the record, a different one is refused. */
  predicate Requested(log: seq<Entry>, input: Prepare) {
    exists e <- log ::
      && e.event.PrepareRequested?
      && e.event.prepare.client == input.client && e.event.prepare.requestId == input.requestId
  }

  predicate Admissible(log: seq<Entry>, input: Prepare, now: int) {
    WellFormedRequest(input, now) && !Requested(log, input)
  }

  /** Any other request: a fresh WorkOrder with its preparation recorded in the same transaction. */
  function PlainPreparation(s: Store, id: string, order: Order, input: Prepare): Step<()> {
    if id in s.orders then Deny(s)
    else Step(Emit(s.(orders := s.orders[id := order]), id, PrepareRequested(input)), Some(()))
  }

  /** A WorkOrder that is made by hand: it has no preparation, and nothing here reads the event of its creation. */
  function CreateOrder(s: Store, id: string, order: Order): Store {
    if id in s.orders then s else s.(orders := s.orders[id := order])
  }

  // ---------------------------------------------------------------- histories

  datatype Call =
    | CallObserve(observation: Observation, checks: bool)
    | CallReview(review: Review, checks: bool, action: bool)
    | CallPropose(id: string, reviewId: string, policy: Policy, genuine: bool, newId: string)
    | CallApprove(
        root: string, proposalId: string, expected: Terms, owner: string, genuine: bool, newId: string, childId: string)
    | CallClaim(id: string, input: Prepare, sameWork: bool, untouched: bool)
    | CallPrepare(id: string, order: Order, input: Prepare)
    | CallCreate(id: string, order: Order)
    | CallHold(id: string)

  function Apply(s: Store, call: Call, now: int): Store {
    match call
    case CallObserve(observation, checks) => Observe(s, observation, checks).store
    case CallReview(review, checks, action) => RecordReview(s, review, checks, action).store
    case CallPropose(id, reviewId, policy, genuine, newId) =>
      Propose(s, id, reviewId, policy, now, genuine, newId).store
    case CallApprove(root, proposalId, expected, owner, genuine, newId, childId) =>
      Approve(s, root, proposalId, expected, owner, now, genuine, newId, childId).store
    case CallClaim(id, input, sameWork, untouched) =>
      if Admissible(s.log, input, now) then ClaimRepairPreparation(s, id, input, now, sameWork, untouched).store else s
    case CallPrepare(id, order, input) =>
      if Admissible(s.log, input, now) then PlainPreparation(s, id, order, input).store else s
    case CallCreate(id, order) => CreateOrder(s, id, order)
    case CallHold(id) => if id in s.orders then Emit(s, id, Held) else s
  }

  datatype Tx = Tx(call: Call, now: int)

  function Run(s: Store, history: seq<Tx>): Store {
    if history == [] then s
    else Apply(Run(s, history[..|history| - 1]), history[|history| - 1].call, history[|history| - 1].now)
  }

  const EMPTY := Store(map[], [])
}
