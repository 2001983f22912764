/**
 * The legacy release strategy (`Redmine`): extracting an issue number from a
 * Redmine link, the `dequeueCard` admission check, and `mergeCards`, which
 * drains only the selected issues, parks the others in a queue of skipped
 * issues that replaces the merge queue at the end, records every merged issue
 * as released before the pipeline gate runs, and stops on FAILED_WORKFLOW.
 *
 * Remote answers are inputs of `RedmineEnv`: the pull-request snapshots of
 * each pull request, the pipeline listing the k-th gate call sees, and the
 * user record `fetchUser` returns for a user id. Sleeps and the status
 * updates to MERGED are logs.
 */
module Redmine {
  import opened Wrappers
  import opened Text
  import opened Strategy
  import opened Errors
  import opened GitHub
  import opened CircleCI

  const RedmineIssuePrefix := "https://redmine.deriv.cloud/issues/"

  /** MERGE_DELAY: one minute, in milliseconds. */
  const MergeDelay: nat := 60000

  const ReadyStatus := "Ready"

  // ---------------------------------------------------------------------------
  // Issue links and issue records
  // ---------------------------------------------------------------------------

  /**
   * `getIssueId`: the digits the regex `https://redmine\.deriv\.cloud/issues/([0-9]+)`
   * captures at its leftmost match, or null when it does not match.
   */
  function GetIssueId(link: string): (r: Option<IssueId>)
    ensures r.None? <==> forall p: nat :: !DigitsFollow(link, RedmineIssuePrefix, p)
    ensures r.Some? ==> |r.value| > 0 && forall k :: 0 <= k < |r.value| ==> IsDigit(r.value[k])
  {
    match FindDigitsAfter(link, RedmineIssuePrefix, 0)
    case None => None
    case Some(p) =>
      var start := p + |RedmineIssuePrefix|;
      Some(link[start..DigitRunEnd(link, start)])
  }

  /** A link built from an issue number gives that number back, whatever follows it. */
  lemma IssueIdOfLink(digits: string, rest: string)
    requires |digits| > 0 && forall k :: 0 <= k < |digits| ==> IsDigit(digits[k])
    requires rest == [] || !IsDigit(rest[0])
    ensures GetIssueId(RedmineIssuePrefix + digits + rest) == Some(digits)
  {
    var link := RedmineIssuePrefix + digits + rest;
    var n := |RedmineIssuePrefix|;
    assert DigitsFollow(link, RedmineIssuePrefix, 0) by {
      assert link[..n] == RedmineIssuePrefix;
      assert link[n] == digits[0];
    }
    assert FindDigitsAfter(link, RedmineIssuePrefix, 0) == Some(0);
    var end := DigitRunEnd(link, n);
    assert forall k :: n <= k < n + |digits| ==> link[k] == digits[k - n];
    assert n + |digits| == |link| || link[n + |digits|] == rest[0];
    assert end == n + |digits|;
    assert link[n..end] == digits;
  }

  /**
   * `fetchIssue` mapping a Redmine issue: its one assignee (with an empty
   * e-mail) and the GitHub link of its description.
   */
  function IssueFromRedmine(id: IssueId, subject: string, description: string, status: string,
                            assignedId: int, assignedName: string): (issue: Issue)
    ensures issue.id == id && issue.title == subject && issue.status == status
    ensures issue.assignees == Some([Assignee(assignedId, assignedName, "")])
    ensures issue.pullRequest.Some?
    ensures issue.pullRequest.value == "" <==> !Contains(description, GitHubPrefix)
  {
    GetGitHubPRShape(description);
    Issue(id, subject, description, status, Some([Assignee(assignedId, assignedName, "")]), Some(GetGitHubPR(description)))
  }

  // ---------------------------------------------------------------------------
  // Admission of the dequeued issue
  // ---------------------------------------------------------------------------

  /**
   * The status and link checks of `dequeueCard` as written: the status test is
   * inverted, so a card in Ready is refused and a card in any other status
   * passes.
   */
  function CheckCardAsWritten(issue: Issue): (r: Option<IssueErrorType>)
    ensures r == Some(StatusNotReady) <==> issue.status == ReadyStatus
    ensures r == Some(NeedsPullRequest) <==> issue.status != ReadyStatus && !Contains(issue.description, GitHubPrefix)
    ensures r.None? <==> issue.status != ReadyStatus && Contains(issue.description, GitHubPrefix)
  {
    GetGitHubPRShape(issue.description);
    if issue.status == ReadyStatus then Some(StatusNotReady)
    else if GetGitHubPR(issue.description) == "" then Some(NeedsPullRequest)
    else None
  }

  /**
   * The checks as the error's message states them: a card must be in Ready,
   * and its description must hold a GitHub link.
   */
  function CheckCard(issue: Issue): (r: Option<IssueErrorType>)
    ensures r == Some(StatusNotReady) <==> issue.status != ReadyStatus
    ensures r == Some(NeedsPullRequest) <==> issue.status == ReadyStatus && !Contains(issue.description, GitHubPrefix)
    ensures r.None? <==> issue.status == ReadyStatus && Contains(issue.description, GitHubPrefix)
  {
    GetGitHubPRShape(issue.description);
    if issue.status != ReadyStatus then Some(StatusNotReady)
    else if GetGitHubPR(issue.description) == "" then Some(NeedsPullRequest)
    else None
  }

  /** As written, a Ready card with a link is refused and a card in another status with a link is let through. */
  lemma ReadyCheckInverted(issue: Issue)
    requires Contains(issue.description, GitHubPrefix)
    ensures issue.status == ReadyStatus ==>
      CheckCardAsWritten(issue) == Some(StatusNotReady) && CheckCard(issue).None?
    ensures issue.status != ReadyStatus ==>
      CheckCardAsWritten(issue).None? && CheckCard(issue) == Some(StatusNotReady)
  {
    GetGitHubPRShape(issue.description);
  }

  /** The checks of the given variant. */
  function Admission(v: Variant, issue: Issue): Option<IssueErrorType> {
    if v == AsWritten then CheckCardAsWritten(issue) else CheckCard(issue)
  }

  datatype RedmineEnv = RedmineEnv(
    merge: MergeConfig,
    pullRequests: Option<string> -> (nat -> PullRequest),
    pipelinesAt: nat -> seq<Pipeline>,
    userOf: int -> Assignee)

  /**
   * The error `dequeueCard` throws for the dequeued issue, if any: the checks,
   * then `mergePR`; never FAILED_WORKFLOW.
   */
  function CardResult(v: Variant, env: RedmineEnv, issue: Issue): (r: Option<IssueErrorType>)
    ensures Admission(v, issue).Some? ==> r == Admission(v, issue)
    ensures Admission(v, issue).None? ==>
      r == MergeSpec(env.merge, env.pullRequests(GetGitHubPRId(GetGitHubPR(issue.description)))).error
    ensures r != Some(FailedWorkflow)
  {
    match Admission(v, issue)
    case Some(kind) => Some(kind)
    case None => MergeSpec(env.merge, env.pullRequests(GetGitHubPRId(GetGitHubPR(issue.description)))).error
  }

  // ---------------------------------------------------------------------------
  // The drain as a function
  // ---------------------------------------------------------------------------

  /** The state of a `mergeCards` run between two iterations. */
  datatype LegacyDrain = LegacyDrain(
    queue: QueueState,
    skipped: QueueState,
    released: QueueState,
    failed: seq<IssueError>,
    running: set<string>,
    gateCalls: nat,
    delays: seq<nat>,
    statusUpdates: seq<IssueId>,
    halted: bool)

  /** A run starts with no skipped issue; the released cards and the failures persist from earlier runs. */
  function Start(queue: QueueState, released: QueueState, failed: seq<IssueError>, running: set<string>): LegacyDrain {
    LegacyDrain(queue, EmptyQueue, released, failed, running, 0, [], [], false)
  }

  /** `redmine_ids?.includes(head.id) || !redmine_ids`. */
  predicate Selected(ids: Option<seq<IssueId>>, id: IssueId) {
    ids.None? || id in ids.value
  }

  /** The issues of `q` that a run with `ids` parks, in order. */
  function Unselected(ids: Option<seq<IssueId>>, q: seq<Issue>): seq<Issue>
    decreases |q|
  {
    if q == [] then []
    else (if Selected(ids, q[0].id) then [] else [q[0]]) + Unselected(ids, q[1..])
  }

  /**
   * The failure recorded for `head`, as intended: when the issue has an id and
   * an assignee, the error with the issue and the user `fetchUser` returns for
   * its first assignee.
   */
  function FailureFor(env: RedmineEnv, kind: IssueErrorType, head: Issue): (r: Option<IssueError>)
    ensures r.Some? <==> head.id != "" && head.assignees.Some? && |head.assignees.value| > 0
    ensures r.Some? ==> r.value == IssueError(kind, Some(head), OneAssignee(env.userOf(head.assignees.value[0].id)))
  {
    if head.id != "" && head.assignees.Some? && |head.assignees.value| > 0 then
      Some(IssueError(kind, Some(head), OneAssignee(env.userOf(head.assignees.value[0].id))))
    else None
  }

  /**
   * The failure recorded as written: the test reads `head.assignee`, which no
   * issue has (issues carry `assignees`), so nothing is ever recorded.
   */
  function FailureForAsWritten(kind: IssueErrorType, head: Issue): Option<IssueError> {
    var assigneeProperty: Option<Assignee> := None;
    if head.id != "" && assigneeProperty.Some? then
      Some(IssueError(kind, Some(head), OneAssignee(assigneeProperty.value)))
    else None
  }

  /** What the catch block of the given variant records. */
  function Recording(v: Variant, env: RedmineEnv, kind: IssueErrorType, head: Issue): Option<IssueError> {
    if v == AsWritten then FailureForAsWritten(kind, head) else FailureFor(env, kind, head)
  }

  /** As written, `failed_issues` never grows, even for an issue that has an id and an assignee. */
  lemma FailuresNeverRecordedAsWritten(env: RedmineEnv, kind: IssueErrorType, head: Issue)
    ensures FailureForAsWritten(kind, head).None?
    ensures head.id != "" && head.assignees.Some? && |head.assignees.value| > 0 ==> FailureFor(env, kind, head).Some?
  {
  }

  /**
   * The catch block: the head's id is removed from the queue; FAILED_WORKFLOW
   * halts the run; another IssueError is recorded when the head allows it.
   */
  function Catch(v: Variant, env: RedmineEnv, d: LegacyDrain, kind: IssueErrorType, head: Issue): (r: LegacyDrain)
    ensures r.queue == d.queue.Remove(head.id)
    ensures r.skipped == d.skipped && r.released == d.released && r.running == d.running
    ensures r.gateCalls == d.gateCalls && r.delays == d.delays && r.statusUpdates == d.statusUpdates
    ensures r.halted <==> d.halted || kind == FailedWorkflow
    ensures v == AsWritten ==> r.failed == d.failed
    ensures v == Corrected ==>
      r.failed == d.failed + (if kind == FailedWorkflow || FailureFor(env, kind, head).None? then [] else [FailureFor(env, kind, head).value])
  {
    var removed := d.(queue := d.queue.Remove(head.id));
    if kind == FailedWorkflow then removed.(halted := true)
    else
      match Recording(v, env, kind, head)
      case None => removed
      case Some(e) => removed.(failed := removed.failed + [e])
  }

  /** `remove` never lengthens the queue. */
  lemma RemoveShrinks(q: QueueState, id: IssueId)
    ensures |q.Remove(id).queue| <= |q.queue|
  {
  }

  /** An unselected head is parked: appended to the skipped issues unless their lookup knows its id. */
  function Park(d: LegacyDrain, head: Issue): (r: LegacyDrain)
    ensures r == d.(skipped := d.skipped.Enqueue(head))
  {
    d.(skipped := d.skipped.Enqueue(head))
  }

  /**
   * A head that passed `dequeueCard`: its status update, its release, the
   * one-minute delay, then the gate. FAILED_WORKFLOW goes to the catch block;
   * a crashed gate removes the head's id and the run goes on.
   */
  function Release(v: Variant, env: RedmineEnv, name: string, d: LegacyDrain, head: Issue): (r: LegacyDrain)
    ensures r.statusUpdates == d.statusUpdates + [head.id] && r.delays == d.delays + [MergeDelay]
    ensures r.released == d.released.Enqueue(head) && r.skipped == d.skipped && r.failed == d.failed
    ensures r.gateCalls == d.gateCalls + 1
    ensures var (outcome, running) := GateSpec(d.running, name, env.pipelinesAt(d.gateCalls), DefaultWorkflowCount);
      && r.running == running
      && (r.halted <==> d.halted || outcome == WorkflowFailed)
      && r.queue == (if outcome == Passed then d.queue else d.queue.Remove(head.id))
  {
    var merged := d.(
      statusUpdates := d.statusUpdates + [head.id],
      released := d.released.Enqueue(head),
      delays := d.delays + [MergeDelay]);
    var (outcome, running) := GateSpec(merged.running, name, env.pipelinesAt(merged.gateCalls), DefaultWorkflowCount);
    var checked := merged.(running := running, gateCalls := merged.gateCalls + 1);
    match outcome
    case Passed => checked
    case WorkflowFailed => Catch(v, env, checked, FailedWorkflow, head)
    case Crashed => checked.(queue := checked.queue.Remove(head.id))
  }

  /**
   * One iteration of the loop for the head of the queue: the queue shrinks;
   * as written, the failures never change.
   */
  function Step(v: Variant, env: RedmineEnv, ids: Option<seq<IssueId>>, name: string, d: LegacyDrain): (r: LegacyDrain)
    requires d.queue.queue != []
    ensures |r.queue.queue| < |d.queue.queue|
    ensures v == AsWritten ==> r.failed == d.failed
  {
    var head := d.queue.queue[0];
    var rest := d.(queue := d.queue.Dequeue().1);
    RemoveShrinks(rest.queue, head.id);
    if !Selected(ids, head.id) then Park(rest, head)
    else
      match CardResult(v, env, head)
      case Some(kind) => Catch(v, env, rest, kind, head)
      case None => Release(v, env, name, rest, head)
  }

  /**
   * The whole loop: iterate until the queue is empty or a workflow failed. A
   * halted drain is left alone, one that did not halt has emptied its queue,
   * and as written the failures are those the run started with.
   */
  function Run(v: Variant, env: RedmineEnv, ids: Option<seq<IssueId>>, name: string, d: LegacyDrain): (r: LegacyDrain)
    ensures |r.queue.queue| <= |d.queue.queue|
    ensures d.halted ==> r == d
    ensures !r.halted ==> r.queue.queue == []
    ensures v == AsWritten ==> r.failed == d.failed
    decreases |d.queue.queue|
  {
    if d.halted || d.queue.queue == [] then d
    else Run(v, env, ids, name, Step(v, env, ids, name, d))
  }

  /** One turn of the loop. */
  lemma RunStep(v: Variant, env: RedmineEnv, ids: Option<seq<IssueId>>, name: string, d: LegacyDrain)
    requires !d.halted && d.queue.queue != []
    ensures Run(v, env, ids, name, d) == Run(v, env, ids, name, Step(v, env, ids, name, d))
  {
  }

  /** After the loop: a non-empty queue of skipped issues replaces the merge queue. */
  function Finish(d: LegacyDrain): (r: LegacyDrain)
    ensures d.skipped.queue != [] ==> r.queue == d.skipped
    ensures d.skipped.queue == [] ==> r.queue == d.queue
    ensures r.(queue := d.queue) == d
  {
    if d.skipped.queue != [] then d.(queue := d.skipped) else d
  }

  // ---------------------------------------------------------------------------
  // The strategy object
  // ---------------------------------------------------------------------------

  class RedmineStrategy {
    var issuesQueue: IssueQueue
    const releasedCards: IssueQueue
    var failedIssues: seq<IssueError>
    const gate: PipelineGate

    /** The merge queue and the released cards are two distinct queues. */
    ghost predicate Valid()
      reads this
    {
      issuesQueue != releasedCards
    }

    constructor (gate: PipelineGate)
      ensures Valid() && fresh(issuesQueue) && fresh(releasedCards) && this.gate == gate
      ensures issuesQueue.State() == EmptyQueue && releasedCards.State() == EmptyQueue && failedIssues == []
    {
      issuesQueue := new IssueQueue();
      releasedCards := new IssueQueue();
      failedIssues := [];
      this.gate := gate;
    }

    /**
     * `dequeueCard`: dequeues the head and, for an issue, runs the status and
     * link checks and `mergePR`; the error it throws, if any, is returned.
     */
    method DequeueCard(env: RedmineEnv) returns (issue: Option<Issue>, thrown: Option<IssueErrorType>)
      modifies issuesQueue
      ensures (issue, issuesQueue.State()) == old(issuesQueue.State()).Dequeue()
      ensures thrown == if issue.None? then None else CardResult(AsWritten, env, issue.value)
    {
      issue := issuesQueue.Dequeue();
      thrown := None;
      if issue.Some? {
        var card := issue.value;
        if card.status == ReadyStatus {
          thrown := Some(StatusNotReady);
          return;
        }
        var prUrl := GetGitHubPR(card.description);
        if prUrl != "" {
          var error, _ := MergePR(env.merge, env.pullRequests(GetGitHubPRId(prUrl)));
          thrown := error;
        } else {
          thrown := Some(NeedsPullRequest);
        }
      }
    }

    /**
     * The try block of one iteration for the head of the queue: a selected
     * issue goes through `dequeueCard`, is recorded as released, the delay is
     * slept and the gate runs; an unselected one is parked. What it threw,
     * and whether the gate crashed, is returned to the catch block.
     */
    method TryHead(env: RedmineEnv, ids: Option<seq<IssueId>>, skipped: IssueQueue, gateCalls: nat,
                   sleeps: seq<nat>, statusUpdates: seq<IssueId>)
      returns (thrown: Option<IssueErrorType>, crashed: bool, gateCalls': nat, sleeps': seq<nat>, statusUpdates': seq<IssueId>)
      requires issuesQueue.queue != []
      requires issuesQueue != releasedCards && skipped != issuesQueue && skipped != releasedCards
      modifies issuesQueue, skipped, releasedCards, gate
      ensures !(thrown.Some? && crashed)
      ensures var head := old(issuesQueue.queue[0]);
        var current := LegacyDrain(issuesQueue.State(), skipped.State(), releasedCards.State(), failedIssues,
                                   gate.runningChecks, gateCalls', sleeps', statusUpdates', false);
        Step(AsWritten, env, ids, gate.workflowName,
             LegacyDrain(old(issuesQueue.State()), old(skipped.State()), old(releasedCards.State()), failedIssues,
                         old(gate.runningChecks), gateCalls, sleeps, statusUpdates, false))
        == if thrown.Some? then Catch(AsWritten, env, current, thrown.value, head)
           else if crashed then current.(queue := current.queue.Remove(head.id))
           else current
    {
      var head := issuesQueue.Head().value;
      ghost var before := LegacyDrain(issuesQueue.State(), skipped.State(), releasedCards.State(), failedIssues,
                                      gate.runningChecks, gateCalls, sleeps, statusUpdates, false);
      ghost var rest := before.(queue := before.queue.Dequeue().1);
      ghost var after := Step(AsWritten, env, ids, gate.workflowName, before);
      thrown, crashed, gateCalls', sleeps', statusUpdates' := None, false, gateCalls, sleeps, statusUpdates;
      if Selected(ids, head.id) {
        var _, error := DequeueCard(env);
        if error.Some? {
          thrown := error;
          assert after == Catch(AsWritten, env, rest, error.value, head);
        } else {
          assert after == Release(AsWritten, env, gate.workflowName, rest, head);
          thrown, crashed, gateCalls', sleeps', statusUpdates' := ReleaseHead(env, head, gateCalls, sleeps, statusUpdates, rest);
        }
      } else {
        assert after == Park(rest, head);
        var parked := issuesQueue.Dequeue();
        skipped.Enqueue(parked.value);
      }
    }

    /**
     * The rest of the try block for a head that passed `dequeueCard`: its
     * status update, its release, the delay and the gate call.
     */
    method ReleaseHead(env: RedmineEnv, head: Issue, gateCalls: nat, sleeps: seq<nat>, statusUpdates: seq<IssueId>,
                       ghost d: LegacyDrain)
      returns (thrown: Option<IssueErrorType>, crashed: bool, gateCalls': nat, sleeps': seq<nat>, statusUpdates': seq<IssueId>)
      requires !d.halted && d.released == releasedCards.State() && d.running == gate.runningChecks
      requires d.gateCalls == gateCalls && d.delays == sleeps && d.statusUpdates == statusUpdates
      modifies releasedCards, gate
      ensures !(thrown.Some? && crashed)
      ensures var current := d.(released := releasedCards.State(), running := gate.runningChecks,
                                gateCalls := gateCalls', delays := sleeps', statusUpdates := statusUpdates');
        Release(AsWritten, env, gate.workflowName, d, head)
        == if thrown.Some? then Catch(AsWritten, env, current, thrown.value, head)
           else if crashed then current.(queue := current.queue.Remove(head.id))
           else current
    {
      thrown, crashed := None, false;
      statusUpdates' := statusUpdates + [head.id];
      releasedCards.Enqueue(head);
      sleeps' := sleeps + [MergeDelay];
      var outcome := gate.CheckPipelineStatus(env.pipelinesAt(gateCalls), DefaultWorkflowCount);
      gateCalls' := gateCalls + 1;
      if outcome == WorkflowFailed {
        thrown := Some(FailedWorkflow);
      } else if outcome == Crashed {
        crashed := true;
      }
    }

    /**
     * `mergeCards(redmine_ids)`: returns the released and the failed issues,
     * with the delays slept and the issues whose status became MERGED, in
     * order. The queue object drained keeps what the loop left; the field
     * holds the skipped issues when there are any.
     */
    method MergeCards(env: RedmineEnv, ids: Option<seq<IssueId>>)
      returns (released: seq<Issue>, failed: seq<IssueError>, sleeps: seq<nat>, statusUpdates: seq<IssueId>)
      requires Valid()
      modifies this, issuesQueue, releasedCards, gate
      ensures Valid()
      ensures var r := Run(AsWritten, env, ids, gate.workflowName,
                           Start(old(issuesQueue.State()), old(releasedCards.State()), old(failedIssues), old(gate.runningChecks)));
        && old(issuesQueue).State() == r.queue
        && issuesQueue.State() == Finish(r).queue
        && (if r.skipped.queue == [] then issuesQueue == old(issuesQueue) else fresh(issuesQueue))
        && releasedCards.State() == r.released && failedIssues == r.failed && gate.runningChecks == r.running
        && released == r.released.queue && failed == r.failed
        && sleeps == r.delays && statusUpdates == r.statusUpdates
    {
      sleeps, statusUpdates := [], [];
      var queue := issuesQueue;
      var skipped := new IssueQueue();
      var gateCalls: nat := 0;
      ghost var name := gate.workflowName;
      ghost var whole := Run(AsWritten, env, ids, name, Start(queue.State(), releasedCards.State(), failedIssues, gate.runningChecks));
      ghost var stopped := false;
      while !queue.IsEmpty()
        invariant issuesQueue == queue && queue != releasedCards && fresh(skipped)
        invariant !stopped
        invariant whole == Run(AsWritten, env, ids, name,
          LegacyDrain(queue.State(), skipped.State(), releasedCards.State(), failedIssues, gate.runningChecks,
                      gateCalls, sleeps, statusUpdates, false))
        decreases |queue.queue|
      {
        var head := queue.Head().value;
        ghost var before := LegacyDrain(queue.State(), skipped.State(), releasedCards.State(), failedIssues,
                                        gate.runningChecks, gateCalls, sleeps, statusUpdates, false);
        RunStep(AsWritten, env, ids, name, before);
        var thrown, crashed;
        thrown, crashed, gateCalls, sleeps, statusUpdates := TryHead(env, ids, skipped, gateCalls, sleeps, statusUpdates);
        if thrown.Some? || crashed {
          queue.Remove(head.id);
          if thrown.Some? {
            if thrown.value == FailedWorkflow {
              stopped := true;
              break;
            }
            // the recording test reads an `assignee` property that issues do
            // not have (they carry `assignees`), so no failure is pushed
            // (FailureForAsWritten)
          }
        }
      }
      assert whole == LegacyDrain(queue.State(), skipped.State(), releasedCards.State(), failedIssues,
                                  gate.runningChecks, gateCalls, sleeps, statusUpdates, stopped);
      if !skipped.IsEmpty() {
        issuesQueue := skipped;
      }
      released := releasedCards.Issues();
      failed := failedIssues;
    }
  }

  // ---------------------------------------------------------------------------
  // Properties of the drain
  // ---------------------------------------------------------------------------

  /** A failure as the corrected catch block records it: never FAILED_WORKFLOW, with the issue and its first assignee's user. */
  ghost predicate Recorded(env: RedmineEnv, e: IssueError) {
    && e.kind != FailedWorkflow
    && e.issue.Some? && e.issue.value.id != ""
    && e.issue.value.assignees.Some? && |e.issue.value.assignees.value| > 0
    && e.assignee == OneAssignee(env.userOf(e.issue.value.assignees.value[0].id))
  }

  /**
   * What every run keeps, from the state `base` it started in: the failures
   * only grow, as written not at all and corrected by recorded failures; one
   * one-minute delay and one gate call per status update; every updated issue
   * is among the released cards.
   */
  ghost predicate Bookkeeping(v: Variant, env: RedmineEnv, base: LegacyDrain, d: LegacyDrain) {
    && |base.failed| <= |d.failed| && d.failed[..|base.failed|] == base.failed
    && (v == AsWritten ==> |d.failed| == |base.failed|)
    && (forall k :: |base.failed| <= k < |d.failed| ==> Recorded(env, d.failed[k]))
    && base.gateCalls <= d.gateCalls && |base.delays| <= |d.delays| && |base.statusUpdates| <= |d.statusUpdates|
    && d.gateCalls - base.gateCalls == |d.delays| - |base.delays| == |d.statusUpdates| - |base.statusUpdates|
    && d.delays[..|base.delays|] == base.delays
    && (forall k :: |base.delays| <= k < |d.delays| ==> d.delays[k] == MergeDelay)
    && d.statusUpdates[..|base.statusUpdates|] == base.statusUpdates
    && (forall k :: |base.statusUpdates| <= k < |d.statusUpdates| ==> d.statusUpdates[k] in d.released.lookup)
    && base.released.lookup.Keys <= d.released.lookup.Keys
  }

  lemma CatchKeepsBookkeeping(v: Variant, env: RedmineEnv, base: LegacyDrain, d: LegacyDrain, kind: IssueErrorType, head: Issue)
    requires Bookkeeping(v, env, base, d)
    ensures Bookkeeping(v, env, base, Catch(v, env, d, kind, head))
  {
    var r := Catch(v, env, d, kind, head);
    assert r.failed[..|base.failed|] == d.failed[..|base.failed|];
  }

  lemma ReleaseKeepsBookkeeping(v: Variant, env: RedmineEnv, name: string, base: LegacyDrain, d: LegacyDrain, head: Issue)
    requires Bookkeeping(v, env, base, d)
    ensures Bookkeeping(v, env, base, Release(v, env, name, d, head))
  {
    var r := Release(v, env, name, d, head);
    assert head.id in r.released.lookup;
    assert r.delays[..|base.delays|] == d.delays[..|base.delays|];
    assert r.statusUpdates[..|base.statusUpdates|] == d.statusUpdates[..|base.statusUpdates|];
  }

  lemma StepKeepsBookkeeping(v: Variant, env: RedmineEnv, ids: Option<seq<IssueId>>, name: string, base: LegacyDrain, d: LegacyDrain)
    requires d.queue.queue != [] && Bookkeeping(v, env, base, d)
    ensures Bookkeeping(v, env, base, Step(v, env, ids, name, d))
  {
    var head := d.queue.queue[0];
    var rest := d.(queue := d.queue.Dequeue().1);
    if !Selected(ids, head.id) {
      assert Step(v, env, ids, name, d) == Park(rest, head);
    } else if CardResult(v, env, head).Some? {
      CatchKeepsBookkeeping(v, env, base, rest, CardResult(v, env, head).value, head);
      assert Step(v, env, ids, name, d) == Catch(v, env, rest, CardResult(v, env, head).value, head);
    } else {
      ReleaseKeepsBookkeeping(v, env, name, base, rest, head);
      assert Step(v, env, ids, name, d) == Release(v, env, name, rest, head);
    }
  }

  /**
   * A whole run keeps the bookkeeping, stops only on FAILED_WORKFLOW or with
   * an empty queue, and leaves as queue a suffix of the queue it started with.
   */
  lemma {:induction false} RunKeepsBookkeeping(v: Variant, env: RedmineEnv, ids: Option<seq<IssueId>>, name: string,
                                               base: LegacyDrain, d: LegacyDrain)
    requires Bookkeeping(v, env, base, d)
    ensures Bookkeeping(v, env, base, Run(v, env, ids, name, d))
    decreases |d.queue.queue|
  {
    if !d.halted && d.queue.queue != [] {
      StepKeepsBookkeeping(v, env, ids, name, base, d);
      RunKeepsBookkeeping(v, env, ids, name, base, Step(v, env, ids, name, d));
    }
  }

  /**
   * With distinct ids, an iteration leaves exactly the rest of the queue (the
   * removal of the head's id in the catch block finds nothing), parks an
   * unselected head at the end of the skipped issues and leaves them alone
   * otherwise.
   */
  lemma StepQueue(v: Variant, env: RedmineEnv, ids: Option<seq<IssueId>>, name: string, d: LegacyDrain)
    requires d.queue.queue != [] && DistinctIds(d.queue.queue)
    ensures var r := Step(v, env, ids, name, d);
      && r.queue == QueueState(d.queue.queue[1..], d.queue.lookup)
      && r.skipped == (if Selected(ids, d.queue.queue[0].id) then d.skipped else d.skipped.Enqueue(d.queue.queue[0]))
  {
    var head := d.queue.queue[0];
    var rest := QueueState(d.queue.queue[1..], d.queue.lookup);
    assert !InQueue(rest.queue, head.id) by {
      forall k | 0 <= k < |rest.queue| ensures rest.queue[k].id != head.id {
        assert rest.queue[k] == d.queue.queue[k + 1];
      }
    }
    assert rest.Remove(head.id) == rest;
  }

  /**
   * From drain `d` to drain `r`: the issues processed are a prefix of `d`'s
   * queue, the rest is left in the queue, and the unselected issues of that
   * prefix were parked in order after those already parked.
   */
  ghost predicate ParkedInOrder(ids: Option<seq<IssueId>>, d: LegacyDrain, r: LegacyDrain) {
    && |r.queue.queue| <= |d.queue.queue|
    && var n := |d.queue.queue| - |r.queue.queue|;
      && r.queue.queue == d.queue.queue[n..]
      && r.skipped.queue == d.skipped.queue + Unselected(ids, d.queue.queue[..n])
  }

  /**
   * Over a run whose queue has distinct ids none of which is already parked,
   * the issues processed are a prefix of the queue, the rest is left in the
   * queue, and the unselected issues of that prefix are parked in order.
   */
  lemma {:induction false} RunParksInOrder(v: Variant, env: RedmineEnv, ids: Option<seq<IssueId>>, name: string, d: LegacyDrain)
    requires DistinctIds(d.queue.queue)
    requires forall k :: 0 <= k < |d.queue.queue| ==> d.queue.queue[k].id !in d.skipped.lookup
    ensures ParkedInOrder(ids, d, Run(v, env, ids, name, d))
    decreases |d.queue.queue|
  {
    var q := d.queue.queue;
    if d.halted || q == [] {
      assert q[..0] == [];
    } else {
      var next := Step(v, env, ids, name, d);
      StepParks(v, env, ids, name, d);
      RunParksInOrder(v, env, ids, name, next);
      RunStep(v, env, ids, name, d);
      ParkedAfterStep(ids, d, next, Run(v, env, ids, name, next));
    }
  }

  /** Parking in order after one iteration that parked the head (or not) is parking in order from before it. */
  lemma ParkedAfterStep(ids: Option<seq<IssueId>>, d: LegacyDrain, next: LegacyDrain, r: LegacyDrain)
    requires d.queue.queue != [] && next.queue.queue == d.queue.queue[1..]
    requires next.skipped.queue ==
      d.skipped.queue + (if Selected(ids, d.queue.queue[0].id) then [] else [d.queue.queue[0]])
    requires ParkedInOrder(ids, next, r)
    ensures ParkedInOrder(ids, d, r)
  {
    ParkedAfterHead(ids, d.queue.queue, d.skipped.queue, next.skipped.queue, r.queue.queue, r.skipped.queue);
  }

  /** One iteration in the setting of `RunParksInOrder`, which it hands on to the next. */
  lemma StepParks(v: Variant, env: RedmineEnv, ids: Option<seq<IssueId>>, name: string, d: LegacyDrain)
    requires d.queue.queue != [] && DistinctIds(d.queue.queue)
    requires forall k :: 0 <= k < |d.queue.queue| ==> d.queue.queue[k].id !in d.skipped.lookup
    ensures var q := d.queue.queue;
      var next := Step(v, env, ids, name, d);
      && next.queue.queue == q[1..]
      && next.skipped.queue == d.skipped.queue + (if Selected(ids, q[0].id) then [] else [q[0]])
      && DistinctIds(next.queue.queue)
      && forall k :: 0 <= k < |next.queue.queue| ==> next.queue.queue[k].id !in next.skipped.lookup
  {
    var q := d.queue.queue;
    var next := Step(v, env, ids, name, d);
    StepQueue(v, env, ids, name, d);
    DistinctTail(q);
    if !Selected(ids, q[0].id) {
      EnqueueNewAppends(d.skipped, q[0]);
      forall k | 0 <= k < |q[1..]| ensures q[1..][k].id !in next.skipped.lookup {
        assert q[1..][k] == q[k + 1];
      }
    }
  }

  lemma DistinctTail(q: seq<Issue>)
    requires q != [] && DistinctIds(q)
    ensures DistinctIds(q[1..])
  {
    forall i, j | 0 <= i < j < |q[1..]| ensures q[1..][i].id != q[1..][j].id {
      assert q[1..][i] == q[i + 1] && q[1..][j] == q[j + 1];
    }
  }

  /** The head's parking followed by the parking of a prefix of the rest is the parking of a longer prefix. */
  lemma ParkedAfterHead(ids: Option<seq<IssueId>>, q: seq<Issue>, skipped: seq<Issue>, parked: seq<Issue>,
                        left: seq<Issue>, finalSkipped: seq<Issue>)
    requires q != [] && |left| <= |q| - 1
    requires parked == skipped + (if Selected(ids, q[0].id) then [] else [q[0]])
    requires left == q[1..][|q| - 1 - |left|..]
    requires finalSkipped == parked + Unselected(ids, q[1..][..|q| - 1 - |left|])
    ensures left == q[|q| - |left|..]
    ensures finalSkipped == skipped + Unselected(ids, q[..|q| - |left|])
  {
    var m := |q| - 1 - |left|;
    UnselectedPrefix(ids, q, m);
  }

  lemma UnselectedPrefix(ids: Option<seq<IssueId>>, q: seq<Issue>, m: nat)
    requires m < |q|
    ensures Unselected(ids, q[..m + 1]) == (if Selected(ids, q[0].id) then [] else [q[0]]) + Unselected(ids, q[1..][..m])
    ensures q[1..][m..] == q[m + 1..]
  {
    assert q[..m + 1][1..] == q[1..][..m];
  }

  /** Without `redmine_ids` every issue is attempted and nothing is parked. */
  lemma {:induction false} NothingParkedWithoutIds(v: Variant, env: RedmineEnv, name: string, d: LegacyDrain)
    ensures Run(v, env, None, name, d).skipped == d.skipped
    decreases |d.queue.queue|
  {
    if !d.halted && d.queue.queue != [] {
      NothingParkedWithoutIds(v, env, name, Step(v, env, None, name, d));
    }
  }

  /**
   * What a whole `mergeCards` run does to a queue with distinct ids: it
   * processes a prefix of the queue (all of it unless FAILED_WORKFLOW halted
   * the run), parks its unselected issues in order, and afterwards the queue
   * holds the parked issues if there are any, and the unprocessed rest
   * otherwise.
   */
  lemma MergeCardsQueue(v: Variant, env: RedmineEnv, ids: Option<seq<IssueId>>, name: string,
                        q: QueueState, released: QueueState, failed: seq<IssueError>, running: set<string>)
    requires DistinctIds(q.queue)
    ensures var r := Run(v, env, ids, name, Start(q, released, failed, running));
      var n := |q.queue| - |r.queue.queue|;
      var parked := Unselected(ids, q.queue[..n]);
      && (!r.halted ==> n == |q.queue|)
      && r.queue.queue == q.queue[n..]
      && Finish(r).queue.queue == (if parked != [] then parked else q.queue[n..])
      && (ids.None? ==> parked == [])
  {
    var d := Start(q, released, failed, running);
    RunParksInOrder(v, env, ids, name, d);
    NothingParkedWithoutIds(v, env, name, d);
  }

  /**
   * An issue that merges is recorded as released before the gate runs: when
   * the gate then reports FAILED_WORKFLOW, the run halts with the issue among
   * the released cards and its status updated, and no failure is recorded.
   */
  lemma ReleasedBeforeGate(v: Variant, env: RedmineEnv, ids: Option<seq<IssueId>>, name: string, d: LegacyDrain)
    requires d.queue.queue != [] && Selected(ids, d.queue.queue[0].id)
    requires CardResult(v, env, d.queue.queue[0]).None?
    requires GateSpec(d.running, name, env.pipelinesAt(d.gateCalls), DefaultWorkflowCount).0 == WorkflowFailed
    ensures var r := Step(v, env, ids, name, d);
      && r.halted && r.released == d.released.Enqueue(d.queue.queue[0])
      && r.released.HasIssue(d.queue.queue[0].id)
      && r.statusUpdates == d.statusUpdates + [d.queue.queue[0].id]
      && r.failed == d.failed
  {
  }

  /**
   * A failed check or merge on a selected issue: the run goes on with nothing
   * released; as written nothing is recorded, corrected the issue is recorded
   * when it has an id and an assignee.
   */
  lemma CardFailureRecorded(v: Variant, env: RedmineEnv, ids: Option<seq<IssueId>>, name: string, d: LegacyDrain)
    requires d.queue.queue != [] && Selected(ids, d.queue.queue[0].id)
    requires CardResult(v, env, d.queue.queue[0]).Some?
    ensures var head := d.queue.queue[0];
      var kind := CardResult(v, env, head).value;
      var r := Step(v, env, ids, name, d);
      && r.halted == d.halted
      && r.released == d.released && r.statusUpdates == d.statusUpdates && r.gateCalls == d.gateCalls
      && (v == AsWritten ==> r.failed == d.failed)
      && (v == Corrected ==>
            r.failed == d.failed + (if FailureFor(env, kind, head).Some? then [FailureFor(env, kind, head).value] else []))
  {
    var head := d.queue.queue[0];
    var kind := CardResult(v, env, head).value;
    assert Step(v, env, ids, name, d) == Catch(v, env, d.(queue := d.queue.Dequeue().1), kind, head);
  }

  /**
   * As written, a selected Ready card with a link is refused before
   * `mergePR`: it is neither released nor its status updated, and the run
   * goes on; corrected, the same card goes to `mergePR`.
   */
  lemma ReadyCardRefusedAsWritten(env: RedmineEnv, ids: Option<seq<IssueId>>, name: string, d: LegacyDrain)
    requires d.queue.queue != [] && Selected(ids, d.queue.queue[0].id)
    requires d.queue.queue[0].status == ReadyStatus && Contains(d.queue.queue[0].description, GitHubPrefix)
    ensures var r := Step(AsWritten, env, ids, name, d);
      && CardResult(AsWritten, env, d.queue.queue[0]) == Some(StatusNotReady)
      && r.released == d.released && r.statusUpdates == d.statusUpdates && r.failed == d.failed
      && r.halted == d.halted
    ensures CardResult(Corrected, env, d.queue.queue[0]) ==
      MergeSpec(env.merge, env.pullRequests(GetGitHubPRId(GetGitHubPR(d.queue.queue[0].description)))).error
  {
    var head := d.queue.queue[0];
    ReadyCheckInverted(head);
    assert Step(AsWritten, env, ids, name, d) == Catch(AsWritten, env, d.(queue := d.queue.Dequeue().1), StatusNotReady, head);
  }
}
