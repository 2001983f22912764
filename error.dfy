/** The classified failures of the release bot (`IssueError`) and their messages. */
module Errors {
  import opened Wrappers
  import opened Strategy

  datatype IssueErrorType =
    | AlreadyMerged
    | NeedsApproval
    | FailedChecks
    | FailedWorkflow
    | HasMergeConflicts
    | NeedsPullRequest
    | StatusNotReady

  /**
   * What the error's JavaScript `assignee` property holds. The constructor is
   * meant to receive one assignee, but nothing stops a caller from storing an
   * issue's whole `assignees` array there.
   */
  datatype AssigneeSlot =
    | NoAssignee
    | OneAssignee(assignee: Assignee)
    | AssigneeList(list: seq<Assignee>)

  /**
   * An `IssueError`: the constructor keeps `type`, `issue` and `assignee` as
   * given (the datatype constructor below), `name` is always `ErrorName` and
   * `message` depends on the type alone.
   */
  datatype IssueError = IssueError(kind: IssueErrorType, issue: Option<Issue>, assignee: AssigneeSlot) {
    function Message(): string {
      MessageOf(kind)
    }
  }

  const ErrorName := "IssueError"

  /**
   * Which behaviour a drain follows where the code and its evident intent
   * differ (the catch blocks and the Ready check): the code as written, or
   * the corrected behaviour. The strategy objects run `AsWritten`.
   */
  datatype Variant = AsWritten | Corrected

  /** What the slot holds when a caller passes an issue's whole `assignees` array. */
  function ListSlot(assignees: Option<seq<Assignee>>): (r: AssigneeSlot)
    ensures r.OneAssignee? == false
  {
    match assignees
    case None => NoAssignee
    case Some(list) => AssigneeList(list)
  }

  /** The issue's first assignee, if it has one: the single assignee an error is meant to carry. */
  function FirstAssigneeSlot(issue: Issue): (r: AssigneeSlot)
    ensures r.OneAssignee? <==> issue.assignees.Some? && |issue.assignees.value| > 0
    ensures r.OneAssignee? ==> r.assignee == issue.assignees.value[0]
    ensures !r.AssigneeList?
  {
    if issue.assignees.Some? && |issue.assignees.value| > 0 then OneAssignee(issue.assignees.value[0])
    else NoAssignee
  }

  /** The error carries its issue's first assignee, when the issue has one, as intended. */
  predicate NamesFirstAssignee(e: IssueError) {
    e.issue.Some? && e.assignee == FirstAssigneeSlot(e.issue.value)
  }

  /** As written: an issue's whole assignee list (or nothing) for a missing link, nothing otherwise. */
  predicate KeepsThrownAssignee(e: IssueError) {
    e.issue.Some? && e.assignee == if e.kind == NeedsPullRequest then ListSlot(e.issue.value.assignees) else NoAssignee
  }

  /** The switch of the constructor: one fixed, non-empty message per error type. */
  function MessageOf(kind: IssueErrorType): (m: string)
    ensures |m| > 0
  {
    match kind
    case AlreadyMerged => "PR in the card has already been merged."
    case NeedsApproval => "PR requires approval from code owners before merging."
    case HasMergeConflicts => "PR has merge conflicts."
    case FailedChecks => "PR have failed checks that needs to be addressed."
    case FailedWorkflow => "The release staging workflow in CircleCI has failed."
    case NeedsPullRequest => "The card needs to have the pull request link in the description."
    case StatusNotReady => "The card status needs to be in Ready."
  }
}
