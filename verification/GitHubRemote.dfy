/** The part of a GitHub repository that one WorkOrder's draft publications read and change. */
module GitHubRemote {
  import opened Primitives

  type Commit = string

  datatype Pull = Pull(
    number: int, open: bool, draft: bool, headRef: string, headSha: Commit, sameRepository: bool, baseRef: string)

  /** The base branch, the WorkOrder's own branch, and every pull request whose head is that branch. */
  datatype RemoteState = RemoteState(identityMatches: bool, base: Option<Commit>, branch: Option<Commit>,
      pulls: seq<Pull>)

  /** `valid` says that destination, paths, commits and texts are well formed. */
  datatype Input = Input(valid: bool, branch: string, baseBranch: string, inputCommit: Commit, candidate: Commit)

  datatype Fault = InvalidInput | Conflict | Unavailable | Uncertain

  datatype Inspection = Absent | BranchOnly | Published(pull: Pull)

  /** The pull request is the open draft of this branch into the approved base. */
  predicate Approved(p: Pull, input: Input) {
    p.sameRepository && p.headRef == input.branch && p.baseRef == input.baseBranch && p.open && p.draft && p.number > 0
  }

  /** What the pull requests found, and the branch read before them, add up to. */
  function PullsSay(pulls: seq<Pull>, branch: Option<Commit>, input: Input): Outcome<Inspection, Fault> {
    if |pulls| > 1 then Denied(Conflict)
    else if |pulls| == 1 then
      if !Approved(pulls[0], input) || branch != Some(input.candidate) || pulls[0].headSha != input.candidate
      then Denied(Conflict) else Done(Published(pulls[0]))
    else if branch.Some? && branch != Some(input.candidate) then Denied(Conflict)
    else Done(if branch.None? then Absent else BranchOnly)
  }

  /** What an inspection of one state of the remote concludes. */
  function InspectionOf(s: RemoteState, input: Input, requireBase: bool): Outcome<Inspection, Fault> {
    if !s.identityMatches || (requireBase && s.base != Some(input.inputCommit)) then Denied(Conflict)
    else PullsSay(s.pulls, s.branch, input)
  }

  /** Exactly one pull request, the approved open draft, at the candidate. */
  predicate DraftOpen(s: RemoteState, input: Input) {
    |s.pulls| == 1 && Approved(s.pulls[0], input) && s.pulls[0].headSha == input.candidate
  }

  /** The branch is at the candidate, with exactly that draft. */
  predicate DraftPublished(s: RemoteState, input: Input) {
    s.branch == Some(input.candidate) && DraftOpen(s, input)
  }

  // ---------------------------------------------------------------- what the remote does with a command

  /** A push that expects the branch to be absent. */
  function Pushed(s: RemoteState, input: Input): RemoteState {
    if s.branch.None? then s.(branch := Some(input.candidate)) else s
  }

  /** An open pull request of this branch into this base, of which the remote accepts only one. */
  predicate OpenHere(p: Pull, branch: string, baseBranch: string) {
    p.sameRepository && p.headRef == branch && p.baseRef == baseBranch && p.open
  }

  predicate HasOpen(s: RemoteState, branch: string, baseBranch: string) {
    exists p <- s.pulls :: OpenHere(p, branch, baseBranch)
  }

  function CountOpen(pulls: seq<Pull>, branch: string, baseBranch: string): nat {
    if pulls == [] then 0
    else
      CountOpen(pulls[..|pulls| - 1], branch, baseBranch)
      + if OpenHere(pulls[|pulls| - 1], branch, baseBranch) then 1 else 0
  }

  /** Opening the draft of an existing branch. */
  function Created(s: RemoteState, input: Input, number: nat): RemoteState {
    if number > 0 && s.branch.Some? && !HasOpen(s, input.branch, input.baseBranch)
    then s.(pulls := s.pulls + [Pull(number, true, true, input.branch, s.branch.value, true, input.baseBranch)])
    else s
  }

  /** At most the branch and one draft of it appear; nothing that is there is changed. */
  predicate OnlyAdds(s: RemoteState, s': RemoteState, input: Input) {
    && s'.identityMatches == s.identityMatches && s'.base == s.base
    && (s'.branch == s.branch || (s.branch.None? && s'.branch == Some(input.candidate)))
    && (s'.pulls == s.pulls ||
        (|s'.pulls| == |s.pulls| + 1 && s.pulls <= s'.pulls && Approved(s'.pulls[|s.pulls|], input)))
  }

  lemma {:induction false} CountOpenIs(pulls: seq<Pull>, branch: string, baseBranch: string)
    ensures CountOpen(pulls, branch, baseBranch) == 0 <==> forall p <- pulls :: !OpenHere(p, branch, baseBranch)
  {
    if pulls != [] {
      CountOpenIs(pulls[..|pulls| - 1], branch, baseBranch);
      assert pulls == pulls[..|pulls| - 1] + [pulls[|pulls| - 1]];
    }
  }

  /** The remote never has two open pull requests of one branch into one base by opening one more. */
  lemma CreatedCount(s: RemoteState, input: Input, number: nat)
    requires CountOpen(s.pulls, input.branch, input.baseBranch) <= 1
    ensures CountOpen(Created(s, input, number).pulls, input.branch, input.baseBranch) <= 1
  {
    CountOpenIs(s.pulls, input.branch, input.baseBranch);
    var s' := Created(s, input, number);
    if s' != s {
      assert s'.pulls[..|s'.pulls| - 1] == s.pulls;
    }
  }
}
