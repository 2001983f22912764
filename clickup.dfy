/**
 * The live release strategy (`Clickup`): turning a task into an issue,
 * collecting related task ids from custom fields, and `mergeCards`, which
 * drains the merge queue one issue at a time through `mergePR`, the settle
 * delay and the pipeline gate.
 *
 * Remote answers are inputs of `ClickupEnv`: the pull-request snapshots of each
 * pull request (keyed by the id `getGitHubPRId` extracts) and the pipeline
 * listing the k-th gate call sees. Sleeps and card-status updates are logs.
 */
module Clickup {
  import opened Wrappers
  import opened Text
  import opened Strategy
  import opened Errors
  import opened GitHub
  import opened CircleCI

  // ---------------------------------------------------------------------------
  // Tasks and their custom fields
  // ---------------------------------------------------------------------------

  datatype RelatedTask = RelatedTask(id: string)

  /** A custom field value as the core reads it: a text, or an array of related tasks. */
  datatype FieldValue = NoValue | TextValue(text: string) | RelationValue(items: seq<RelatedTask>)

  datatype CustomField = CustomField(name: string, fieldType: string, value: FieldValue)

  datatype Task = Task(
    id: string,
    name: string,
    description: string,
    status: string,
    assignees: seq<Assignee>,
    customFields: Option<seq<CustomField>>)

  /** `custom_fields?.find(field => field.name === name)`. */
  function FieldNamed(fields: Option<seq<CustomField>>, name: string): (r: Option<CustomField>)
    ensures r.Some? ==> fields.Some? && r.value.name == name && r.value in fields.value
    ensures r.None? ==> fields.None? || forall k :: 0 <= k < |fields.value| ==> fields.value[k].name != name
  {
    match fields
    case None => None
    case Some(list) => FirstNamed(list, name)
  }

  function FirstNamed(list: seq<CustomField>, name: string): (r: Option<CustomField>)
    ensures r.Some? ==> r.value.name == name && r.value in list
    ensures r.None? ==> forall k :: 0 <= k < |list| ==> list[k].name != name
    decreases |list|
  {
    if list == [] then None
    else if list[0].name == name then Some(list[0])
    else FirstNamed(list[1..], name)
  }

  const PullRequestField := "Pull Request"

  /**
   * The pull-request link of a task. Resolution order: a description holding
   * a GitHub link decides; otherwise the non-empty text of the first field
   * named 'Pull Request'; otherwise undefined. The result is never an empty
   * link.
   */
  function PullRequestOf(description: string, fields: Option<seq<CustomField>>): (r: Option<string>)
    ensures r.Some? ==> r.value != ""
    ensures Contains(description, GitHubPrefix) ==> r == Some(GetGitHubPR(description))
    ensures !Contains(description, GitHubPrefix) ==>
      match FieldNamed(fields, PullRequestField)
      case None => r.None?
      case Some(f) => r == (if f.value.TextValue? && f.value.text != "" then Some(f.value.text) else None)
  {
    var link := GetGitHubPR(description);
    if |link| > 0 then Some(link)
    else
      match FieldNamed(fields, PullRequestField)
      case Some(CustomField(_, _, TextValue(text))) => if text != "" then Some(text) else None
      case _ => None
  }

  /** `fetchIssues` mapping one task: an empty assignee list becomes undefined. */
  function IssueFromTask(task: Task): (issue: Issue)
    ensures issue.id == task.id && issue.title == task.name && issue.status == task.status
    ensures issue.assignees.None? <==> |task.assignees| == 0
    ensures HasPullRequest(issue) <==> issue.pullRequest.Some?
  {
    Issue(
      task.id,
      task.name,
      task.description,
      task.status,
      if |task.assignees| > 0 then Some(task.assignees) else None,
      PullRequestOf(task.description, task.customFields))
  }

  // ---------------------------------------------------------------------------
  // Related task ids
  // ---------------------------------------------------------------------------

  const ListRelationship := "list_relationship"

  /** A field whose value is a non-empty array and whose type is `list_relationship`. */
  predicate IsRelationField(field: CustomField) {
    field.fieldType == ListRelationship && field.value.RelationValue? && |field.value.items| > 0
  }

  /** The truthy ids of a value array, in order. */
  function ItemIds(items: seq<RelatedTask>): seq<string>
    decreases |items|
  {
    if items == [] then []
    else (if items[0].id != "" then [items[0].id] else []) + ItemIds(items[1..])
  }

  /** Reference meaning of `getTasksIdsFromCustomFields` over a field list. */
  function TaskIds(fields: seq<CustomField>): seq<string>
    decreases |fields|
  {
    if fields == [] then []
    else (if IsRelationField(fields[0]) then ItemIds(fields[0].value.items) else []) + TaskIds(fields[1..])
  }

  lemma {:induction false} ItemIdsSnoc(items: seq<RelatedTask>, x: RelatedTask)
    ensures ItemIds(items + [x]) == ItemIds(items) + (if x.id != "" then [x.id] else [])
    decreases |items|
  {
    if items == [] {
      assert items + [x] == [x];
    } else {
      assert (items + [x])[1..] == items[1..] + [x];
      ItemIdsSnoc(items[1..], x);
    }
  }

  /** Field order is kept: the ids of a concatenation are the concatenated ids. */
  lemma {:induction false} TaskIdsAppend(a: seq<CustomField>, b: seq<CustomField>)
    ensures TaskIds(a + b) == TaskIds(a) + TaskIds(b)
    decreases |a|
  {
    if a == [] {
      assert a + b == b;
    } else {
      assert (a + b)[0] == a[0];
      assert (a + b)[1..] == a[1..] + b;
      TaskIdsAppend(a[1..], b);
    }
  }

  /** Every collected id is non-empty and comes from a relationship field of the list. */
  lemma {:induction false} TaskIdsOrigin(fields: seq<CustomField>)
    ensures forall id :: id in TaskIds(fields) ==>
      id != "" && exists k :: 0 <= k < |fields| && IsRelationField(fields[k]) && RelatedTask(id) in fields[k].value.items
    decreases |fields|
  {
    if fields != [] {
      TaskIdsOrigin(fields[1..]);
      var head := if IsRelationField(fields[0]) then ItemIds(fields[0].value.items) else [];
      assert TaskIds(fields) == head + TaskIds(fields[1..]);
      forall id | id in TaskIds(fields)
        ensures id != "" && exists k :: 0 <= k < |fields| && IsRelationField(fields[k]) && RelatedTask(id) in fields[k].value.items
      {
        if id in head {
          ItemIdsOrigin(fields[0].value.items);
          assert IsRelationField(fields[0]) && RelatedTask(id) in fields[0].value.items;
        } else {
          var k :| 0 <= k < |fields[1..]| && IsRelationField(fields[1..][k]) && RelatedTask(id) in fields[1..][k].value.items;
          assert fields[1..][k] == fields[k + 1];
        }
      }
    }
  }

  lemma {:induction false} ItemIdsOrigin(items: seq<RelatedTask>)
    ensures forall id :: id in ItemIds(items) ==> id != "" && RelatedTask(id) in items
    decreases |items|
  {
    if items != [] {
      ItemIdsOrigin(items[1..]);
    }
  }

  /** `getTasksIdsFromCustomFields`: the nested loops pushing ids into an array. */
  method GetTasksIdsFromCustomFields(customFields: Option<seq<CustomField>>) returns (taskIds: seq<string>)
    ensures taskIds == if customFields.None? then [] else TaskIds(customFields.value)
  {
    taskIds := [];
    var fields := if customFields.None? then [] else customFields.value;
    for i := 0 to |fields|
      invariant taskIds == TaskIds(fields[..i])
    {
      var field := fields[i];
      if IsRelationField(field) {
        var items := field.value.items;
        for j := 0 to |items|
          invariant taskIds == TaskIds(fields[..i]) + ItemIds(items[..j])
        {
          if items[j].id != "" {
            taskIds := taskIds + [items[j].id];
          }
          ItemIdsSnoc(items[..j], items[j]);
          assert items[..j + 1] == items[..j] + [items[j]];
        }
        assert items[..|items|] == items;
      }
      TaskIdsAppend(fields[..i], [field]);
      assert fields[..i + 1] == fields[..i] + [field];
      assert TaskIds([field]) == (if IsRelationField(field) then ItemIds(field.value.items) else []) + TaskIds([]);
    }
    assert fields[..|fields|] == fields;
  }


  // ---------------------------------------------------------------------------
  // Draining the merge queue
  // ---------------------------------------------------------------------------

  datatype ClickupEnv = ClickupEnv(
    merge: MergeConfig,
    pullRequests: Option<string> -> (nat -> PullRequest),
    pipelinesAt: nat -> seq<Pipeline>,
    firstMergeDelay: nat,
    mergeDelay: nat,
    skipCircleCiChecks: bool)

  /** The state of a `mergeCards` run between two issues. */
  datatype Drain = Drain(
    queue: QueueState,
    running: set<string>,
    gateCalls: nat,
    firstCard: bool,
    merged: seq<Issue>,
    failed: seq<IssueError>,
    delays: seq<nat>,
    statusUpdates: seq<IssueId>,
    halted: bool)

  function Start(queue: QueueState, running: set<string>): Drain {
    Drain(queue, running, 0, true, [], [], [], [], false)
  }

  /**
   * The catch block for an `IssueError` thrown while merging `issue`, as
   * intended: the error gets the issue and the issue's first assignee.
   */
  function Attach(err: IssueError, issue: Issue): (e: IssueError)
    ensures e.kind == err.kind && e.issue == Some(issue)
    ensures e.assignee == FirstAssigneeSlot(issue)
  {
    err.(issue := Some(issue), assignee := FirstAssigneeSlot(issue))
  }

  /**
   * The catch block as written: it stores the issue's assignees under a new
   * `assignees` property and leaves `assignee` as the error was built with.
   */
  function AttachAsWritten(err: IssueError, issue: Issue): (e: IssueError)
    ensures e.kind == err.kind && e.issue == Some(issue)
    ensures e.assignee == err.assignee
  {
    err.(issue := Some(issue))
  }

  /** What the catch block of the given variant makes of the error. */
  function Caught(v: Variant, err: IssueError, issue: Issue): IssueError {
    if v == AsWritten then AttachAsWritten(err, issue) else Attach(err, issue)
  }

  /** FAILED_WORKFLOW stops the drain; any other error is recorded and draining goes on. */
  function Catch(v: Variant, d: Drain, err: IssueError, issue: Issue): (r: Drain)
    ensures r.queue == d.queue && r.merged == d.merged && r.delays == d.delays
    ensures r.running == d.running && r.gateCalls == d.gateCalls && r.statusUpdates == d.statusUpdates
    ensures err.kind == FailedWorkflow ==> r == d.(halted := true)
    ensures err.kind != FailedWorkflow ==> r == d.(failed := d.failed + [Caught(v, err, issue)])
  {
    var e := Caught(v, err, issue);
    if e.kind == FailedWorkflow then d.(halted := true)
    else d.(failed := d.failed + [e])
  }

  /**
   * One pass of the loop body for the dequeued `issue`: the queue is not
   * touched, the issue is merged or recorded as failed (never both), a halt
   * comes only from a gate call and records nothing.
   */
  function Attempt(v: Variant, env: ClickupEnv, name: string, cardsCount: nat, d: Drain, issue: Issue): (r: Drain)
    ensures r.queue == d.queue
    ensures r.merged == d.merged || (r.merged == d.merged + [issue] && HasPullRequest(issue))
    ensures |d.failed| <= |r.failed| <= |d.failed| + 1 && r.failed[..|d.failed|] == d.failed
    ensures |r.failed| > |d.failed| ==>
      r.failed[|d.failed|].issue == Some(issue) && r.merged == d.merged && r.halted == d.halted
    ensures r.halted && !d.halted ==>
      r.merged == d.merged && r.failed == d.failed && r.gateCalls == d.gateCalls + 1
  {
    if !HasPullRequest(issue) then
      Catch(v, d, IssueError(NeedsPullRequest, Some(issue), ListSlot(issue.assignees)), issue)
    else
      var fetch := env.pullRequests(GetGitHubPRId(issue.pullRequest.value));
      var m := MergeSpec(env.merge, fetch);
      if m.error.Some? then Catch(v, d, IssueError(m.error.value, None, NoAssignee), issue)
      else
        var settled := d.(
          statusUpdates := d.statusUpdates + [issue.id],
          delays := d.delays + [if d.firstCard then env.firstMergeDelay else env.mergeDelay],
          firstCard := false);
        if env.skipCircleCiChecks then settled.(merged := settled.merged + [issue])
        else
          var (outcome, running) := GateSpec(settled.running, name, env.pipelinesAt(settled.gateCalls), cardsCount);
          var checked := settled.(running := running, gateCalls := settled.gateCalls + 1);
          match outcome
          case Passed => checked.(merged := checked.merged + [issue])
          case WorkflowFailed => Catch(v, checked, IssueError(FailedWorkflow, None, NoAssignee), issue)
          case Crashed => checked
  }

  /**
   * The whole loop: dequeue and attempt until the queue is empty or a
   * workflow failed. A halted drain is left alone; a drain that did not halt
   * has emptied its queue.
   */
  function Run(v: Variant, env: ClickupEnv, name: string, cardsCount: nat, d: Drain): (r: Drain)
    ensures d.halted ==> r == d
    ensures !r.halted ==> r.queue.queue == []
    ensures |r.queue.queue| <= |d.queue.queue|
    decreases |d.queue.queue|
  {
    if d.halted || d.queue.queue == [] then d
    else
      var (head, rest) := d.queue.Dequeue();
      Run(v, env, name, cardsCount, Attempt(v, env, name, cardsCount, d.(queue := rest), head.value))
  }

  /** The release strategy object: its merge queue and the shared pipeline gate. */
  class ClickupStrategy {
    const issuesQueue: IssueQueue
    const gate: PipelineGate

    constructor (workflowName: string)
      ensures fresh(issuesQueue) && fresh(gate)
      ensures issuesQueue.State() == EmptyQueue && gate.runningChecks == {} && gate.workflowName == workflowName
    {
      issuesQueue := new IssueQueue();
      gate := new PipelineGate(workflowName);
    }

    /**
     * `mergeCards`: returns the merged and the failed issues, with the settle
     * delays slept and the cards moved to 'Merged - Release', in order; its
     * catch block is the one written in the source.
     */
    method MergeCards(env: ClickupEnv)
      returns (merged: seq<Issue>, failed: seq<IssueError>, sleeps: seq<nat>, statusUpdates: seq<IssueId>)
      modifies issuesQueue, gate
      ensures var d := Run(AsWritten, env, gate.workflowName, |old(issuesQueue.State()).queue|,
                           Start(old(issuesQueue.State()), old(gate.runningChecks)));
        && merged == d.merged && failed == d.failed
        && sleeps == d.delays && statusUpdates == d.statusUpdates
        && issuesQueue.State() == d.queue && gate.runningChecks == d.running
    {
      merged, failed, sleeps, statusUpdates := [], [], [], [];
      var cardsCount := |issuesQueue.Issues()|;
      var isMergingFirstCard := true;
      var gateCalls: nat := 0;
      ghost var whole := Run(AsWritten, env, gate.workflowName, cardsCount, Start(issuesQueue.State(), gate.runningChecks));
      while !issuesQueue.IsEmpty()
        invariant whole == Run(AsWritten, env, gate.workflowName, cardsCount,
          Drain(issuesQueue.State(), gate.runningChecks, gateCalls, isMergingFirstCard,
                merged, failed, sleeps, statusUpdates, false))
        decreases |issuesQueue.queue|
      {
        ghost var before := Drain(issuesQueue.State(), gate.runningChecks, gateCalls, isMergingFirstCard,
                                  merged, failed, sleeps, statusUpdates, false);
        var next := issuesQueue.Dequeue();
        var issue := next.value;
        ghost var dequeued := before.(queue := issuesQueue.State());
        ghost var after := Attempt(AsWritten, env, gate.workflowName, cardsCount, dequeued, issue);
        RunStep(AsWritten, env, gate.workflowName, cardsCount, before);
        assert whole == Run(AsWritten, env, gate.workflowName, cardsCount, after);
        var thrown: Option<IssueError> := None;
        if HasPullRequest(issue) {
          var crashed;
          thrown, crashed, gateCalls, isMergingFirstCard, sleeps, statusUpdates :=
            MergeLinked(env, cardsCount, issue, gateCalls, isMergingFirstCard, sleeps, statusUpdates, dequeued);
          if thrown.None? && !crashed {
            merged := merged + [issue];
          }
        } else {
          thrown := Some(IssueError(NeedsPullRequest, Some(issue), ListSlot(issue.assignees)));
          assert after == Catch(AsWritten, dequeued, thrown.value, issue);
        }
        ghost var current := Drain(issuesQueue.State(), gate.runningChecks, gateCalls, isMergingFirstCard,
                                   merged, failed, sleeps, statusUpdates, false);
        assert thrown.Some? ==> after == Catch(AsWritten, current, thrown.value, issue);
        assert thrown.None? ==> after == current;
        if thrown.Some? {
          // the catch block also copies the issue's assignees onto an `assignees`
          // property that nothing reads; only the attached issue matters
          var err := thrown.value.(issue := Some(issue));
          if err.kind == FailedWorkflow {
            assert after == Drain(issuesQueue.State(), gate.runningChecks, gateCalls, isMergingFirstCard,
                                  merged, failed, sleeps, statusUpdates, true);
            return;
          }
          failed := failed + [err];
        }
        assert after == Drain(issuesQueue.State(), gate.runningChecks, gateCalls, isMergingFirstCard,
                              merged, failed, sleeps, statusUpdates, false);
      }
    }

    /**
     * The `try` block for an issue with a link: merge its pull request, settle,
     * move the card, then ask the gate unless that is switched off. It returns
     * what was thrown, whether the gate call ended without an answer, and the
     * new settle bookkeeping; together they are one `Attempt` as written.
     */
    method MergeLinked(env: ClickupEnv, cardsCount: nat, issue: Issue, gateCalls: nat, isFirst: bool,
                       sleeps: seq<nat>, statusUpdates: seq<IssueId>, ghost d: Drain)
      returns (thrown: Option<IssueError>, crashed: bool, newGateCalls: nat, newFirst: bool,
               newSleeps: seq<nat>, newUpdates: seq<IssueId>)
      requires HasPullRequest(issue) && !d.halted
      requires d.running == gate.runningChecks && d.gateCalls == gateCalls && d.firstCard == isFirst
      requires d.delays == sleeps && d.statusUpdates == statusUpdates
      modifies gate
      ensures var current := d.(running := gate.runningChecks, gateCalls := newGateCalls, firstCard := newFirst,
                                delays := newSleeps, statusUpdates := newUpdates);
        Attempt(AsWritten, env, gate.workflowName, cardsCount, d, issue) ==
          if thrown.Some? then Catch(AsWritten, current, thrown.value, issue)
          else if crashed then current
          else current.(merged := d.merged + [issue])
    {
      thrown, crashed := None, false;
      newGateCalls, newFirst, newSleeps, newUpdates := gateCalls, isFirst, sleeps, statusUpdates;
      var prId := GetGitHubPRId(issue.pullRequest.value);
      var error, _ := MergePR(env.merge, env.pullRequests(prId));
      if error.Some? {
        thrown := Some(IssueError(error.value, None, NoAssignee));
        return;
      }
      newUpdates := statusUpdates + [issue.id];
      if isFirst {
        newSleeps := sleeps + [env.firstMergeDelay];
        newFirst := false;
      } else {
        newSleeps := sleeps + [env.mergeDelay];
      }
      if !env.skipCircleCiChecks {
        var outcome := gate.CheckPipelineStatus(env.pipelinesAt(gateCalls), cardsCount);
        newGateCalls := gateCalls + 1;
        if outcome == WorkflowFailed {
          thrown := Some(IssueError(FailedWorkflow, None, NoAssignee));
        } else if outcome == Crashed {
          crashed := true;
        }
      }
    }
  }

  // ---------------------------------------------------------------------------
  // Properties of the drain
  // ---------------------------------------------------------------------------

  /**
   * Bookkeeping kept by every run: one settle delay per status update, the
   * first delay being the first-merge delay and every later one the standard
   * delay, the first-card flag false exactly once a delay was slept; merged
   * issues all have a link and had their status updated; recorded failures
   * are never FAILED_WORKFLOW and carry their issue. As written, a failure's
   * `assignee` is the issue's assignee list for a missing link and nothing
   * otherwise; corrected, it is the issue's first assignee.
   */
  ghost predicate Bookkeeping(v: Variant, env: ClickupEnv, d: Drain) {
    && |d.delays| == |d.statusUpdates|
    && (d.firstCard <==> d.delays == [])
    && (forall k :: 0 <= k < |d.delays| ==> d.delays[k] == (if k == 0 then env.firstMergeDelay else env.mergeDelay))
    && (forall x :: x in d.merged ==> HasPullRequest(x) && x.id in d.statusUpdates)
    && (forall e :: e in d.failed ==>
          && e.kind != FailedWorkflow
          && (v == AsWritten ==> KeepsThrownAssignee(e))
          && (v == Corrected ==> NamesFirstAssignee(e)))
  }

  /** Recording an error the way the drain builds it keeps the bookkeeping. */
  lemma CatchKeepsBookkeeping(v: Variant, env: ClickupEnv, d: Drain, err: IssueError, issue: Issue)
    requires Bookkeeping(v, env, d)
    requires err.assignee == if err.kind == NeedsPullRequest then ListSlot(issue.assignees) else NoAssignee
    ensures Bookkeeping(v, env, Catch(v, d, err, issue))
  {
    if err.kind != FailedWorkflow {
      assert Catch(v, d, err, issue).failed == d.failed + [Caught(v, err, issue)];
    }
  }

  /** A settled merge (card moved, delay slept), with or without the issue counted as merged, keeps the bookkeeping. */
  lemma SettleKeepsBookkeeping(v: Variant, env: ClickupEnv, d: Drain, issue: Issue)
    requires Bookkeeping(v, env, d) && HasPullRequest(issue)
    ensures var s := d.(statusUpdates := d.statusUpdates + [issue.id],
                        delays := d.delays + [if d.firstCard then env.firstMergeDelay else env.mergeDelay],
                        firstCard := false);
      Bookkeeping(v, env, s) && Bookkeeping(v, env, s.(merged := s.merged + [issue]))
  {
  }

  /** One pass of the loop body keeps the bookkeeping. */
  lemma AttemptKeepsBookkeeping(v: Variant, env: ClickupEnv, name: string, cardsCount: nat, d: Drain, issue: Issue)
    requires Bookkeeping(v, env, d) && !d.halted
    ensures Bookkeeping(v, env, Attempt(v, env, name, cardsCount, d, issue))
  {
    var r := Attempt(v, env, name, cardsCount, d, issue);
    if !HasPullRequest(issue) {
      var err := IssueError(NeedsPullRequest, Some(issue), ListSlot(issue.assignees));
      assert r == Catch(v, d, err, issue);
      CatchKeepsBookkeeping(v, env, d, err, issue);
    } else {
      var m := MergeSpec(env.merge, env.pullRequests(GetGitHubPRId(issue.pullRequest.value)));
      if m.error.Some? {
        var err := IssueError(m.error.value, None, NoAssignee);
        assert r == Catch(v, d, err, issue);
        CatchKeepsBookkeeping(v, env, d, err, issue);
      } else {
        MergedKeepsBookkeeping(v, env, name, cardsCount, d, issue);
      }
    }
  }

  /** The pass for a linked issue whose pull request was merged keeps the bookkeeping. */
  lemma MergedKeepsBookkeeping(v: Variant, env: ClickupEnv, name: string, cardsCount: nat, d: Drain, issue: Issue)
    requires Bookkeeping(v, env, d) && !d.halted && HasPullRequest(issue)
    requires MergeSpec(env.merge, env.pullRequests(GetGitHubPRId(issue.pullRequest.value))).error.None?
    ensures Bookkeeping(v, env, Attempt(v, env, name, cardsCount, d, issue))
  {
    var r := Attempt(v, env, name, cardsCount, d, issue);
    SettleKeepsBookkeeping(v, env, d, issue);
    var settled := d.(statusUpdates := d.statusUpdates + [issue.id],
                      delays := d.delays + [if d.firstCard then env.firstMergeDelay else env.mergeDelay],
                      firstCard := false);
    if env.skipCircleCiChecks {
      assert r == settled.(merged := settled.merged + [issue]);
    } else {
      var (outcome, running) := GateSpec(settled.running, name, env.pipelinesAt(settled.gateCalls), cardsCount);
      var checked := settled.(running := running, gateCalls := settled.gateCalls + 1);
      var err := IssueError(FailedWorkflow, None, NoAssignee);
      CatchKeepsBookkeeping(v, env, checked, err, issue);
      assert r == match outcome
        case Passed => checked.(merged := checked.merged + [issue])
        case WorkflowFailed => Catch(v, checked, err, issue)
        case Crashed => checked;
    }
  }

  lemma {:induction false} RunKeepsBookkeeping(v: Variant, env: ClickupEnv, name: string, cardsCount: nat, d: Drain)
    requires Bookkeeping(v, env, d)
    ensures Bookkeeping(v, env, Run(v, env, name, cardsCount, d))
    decreases |d.queue.queue|
  {
    if !d.halted && d.queue.queue != [] {
      var (head, rest) := d.queue.Dequeue();
      AttemptKeepsBookkeeping(v, env, name, cardsCount, d.(queue := rest), head.value);
      RunKeepsBookkeeping(v, env, name, cardsCount, Attempt(v, env, name, cardsCount, d.(queue := rest), head.value));
    }
  }

  /** What is left in the queue after a run is a suffix of what was in it. */
  lemma {:induction false} RunLeavesSuffix(v: Variant, env: ClickupEnv, name: string, cardsCount: nat, d: Drain)
    ensures var r := Run(v, env, name, cardsCount, d);
      exists n :: 0 <= n <= |d.queue.queue| && r.queue.queue == d.queue.queue[n..]
    decreases |d.queue.queue|
  {
    if !d.halted && d.queue.queue != [] {
      var (head, rest) := d.queue.Dequeue();
      var next := Attempt(v, env, name, cardsCount, d.(queue := rest), head.value);
      RunLeavesSuffix(v, env, name, cardsCount, next);
      var r := Run(v, env, name, cardsCount, next);
      var n :| 0 <= n <= |next.queue.queue| && r.queue.queue == next.queue.queue[n..];
      assert next.queue.queue == d.queue.queue[1..];
      assert r.queue.queue == d.queue.queue[n + 1..];
    } else {
      assert d.queue.queue == d.queue.queue[0..];
    }
  }

  /** What a whole `mergeCards` run keeps, from a fresh start. */
  lemma MergeCardsBookkeeping(v: Variant, env: ClickupEnv, name: string, queue: QueueState, running: set<string>)
    ensures var r := Run(v, env, name, |queue.queue|, Start(queue, running));
      && Bookkeeping(v, env, r)
      && (exists n :: 0 <= n <= |queue.queue| && r.queue.queue == queue.queue[n..])
      && (!r.halted ==> r.queue.queue == [])
  {
    RunKeepsBookkeeping(v, env, name, |queue.queue|, Start(queue, running));
    RunLeavesSuffix(v, env, name, |queue.queue|, Start(queue, running));
  }

  /** The `assignee` a missing-link failure carries: the assignee list as written, the first assignee corrected. */
  function MissingLinkAssignee(v: Variant, issue: Issue): AssigneeSlot {
    if v == AsWritten then ListSlot(issue.assignees) else FirstAssigneeSlot(issue)
  }

  /**
   * An issue without a pull-request link fails with NEEDS_PULL_REQUEST
   * carrying the issue; `mergePR`, the status update, the delay and the gate
   * are all skipped.
   */
  lemma MissingLinkFails(v: Variant, env: ClickupEnv, name: string, cardsCount: nat, d: Drain, issue: Issue)
    requires !HasPullRequest(issue)
    ensures Attempt(v, env, name, cardsCount, d, issue) ==
      d.(failed := d.failed + [IssueError(NeedsPullRequest, Some(issue), MissingLinkAssignee(v, issue))])
  {
  }

  /**
   * A gate that reports FAILED_WORKFLOW halts the run with the issue merged
   * and its card updated, yet neither in the merged list nor in the failures.
   */
  lemma WorkflowFailureHalts(v: Variant, env: ClickupEnv, name: string, cardsCount: nat, d: Drain, issue: Issue)
    requires HasPullRequest(issue) && !env.skipCircleCiChecks
    requires MergeSpec(env.merge, env.pullRequests(GetGitHubPRId(issue.pullRequest.value))).error.None?
    requires GateSpec(d.running, name, env.pipelinesAt(d.gateCalls), cardsCount).0 == WorkflowFailed
    ensures var r := Attempt(v, env, name, cardsCount, d, issue);
      && r.halted && r.merged == d.merged && r.failed == d.failed
      && r.statusUpdates == d.statusUpdates + [issue.id]
      && r.gateCalls == d.gateCalls + 1
  {
  }

  /** Every gate call inspects as many pipelines as the queue held when the drain began. */
  lemma GateSeesBatchSize(v: Variant, env: ClickupEnv, name: string, cardsCount: nat, d: Drain, issue: Issue)
    requires HasPullRequest(issue) && !env.skipCircleCiChecks
    requires MergeSpec(env.merge, env.pullRequests(GetGitHubPRId(issue.pullRequest.value))).error.None?
    ensures Attempt(v, env, name, cardsCount, d, issue).running ==
      GateSpec(d.running, name, env.pipelinesAt(d.gateCalls), cardsCount).1
  {
  }

  /** A merge that succeeds with the gate switched off: status update, settle delay, merged. */
  lemma MergedWithoutGate(v: Variant, env: ClickupEnv, name: string, cardsCount: nat, d: Drain, issue: Issue)
    requires HasPullRequest(issue) && env.skipCircleCiChecks
    requires MergeSpec(env.merge, env.pullRequests(GetGitHubPRId(issue.pullRequest.value))).error.None?
    ensures Attempt(v, env, name, cardsCount, d, issue) == d.(
      statusUpdates := d.statusUpdates + [issue.id],
      delays := d.delays + [if d.firstCard then env.firstMergeDelay else env.mergeDelay],
      firstCard := false,
      merged := d.merged + [issue])
  {
  }

  /** One turn of the drain: the head is dequeued and attempted. */
  lemma RunStep(v: Variant, env: ClickupEnv, name: string, cardsCount: nat, d: Drain)
    requires !d.halted && d.queue.queue != []
    ensures Run(v, env, name, cardsCount, d) == Run(v, env, name, cardsCount,
      Attempt(v, env, name, cardsCount, d.(queue := QueueState(d.queue.queue[1..], d.queue.lookup)), d.queue.queue[0]))
  {
  }

  /** A head merged with the gate switched off: the drain goes on from the tail with it merged. */
  lemma RunMergesHeadWithoutGate(v: Variant, env: ClickupEnv, name: string, cardsCount: nat, d: Drain)
    requires !d.halted && d.queue.queue != [] && env.skipCircleCiChecks
    requires HasPullRequest(d.queue.queue[0])
    requires MergeSpec(env.merge, env.pullRequests(GetGitHubPRId(d.queue.queue[0].pullRequest.value))).error.None?
    ensures Run(v, env, name, cardsCount, d) == Run(v, env, name, cardsCount, d.(
      queue := QueueState(d.queue.queue[1..], d.queue.lookup),
      statusUpdates := d.statusUpdates + [d.queue.queue[0].id],
      delays := d.delays + [if d.firstCard then env.firstMergeDelay else env.mergeDelay],
      firstCard := false,
      merged := d.merged + [d.queue.queue[0]]))
  {
    RunStep(v, env, name, cardsCount, d);
    MergedWithoutGate(v, env, name, cardsCount, d.(queue := QueueState(d.queue.queue[1..], d.queue.lookup)), d.queue.queue[0]);
  }

  /** A head without a link: the drain goes on from the tail with its failure recorded. */
  lemma RunFailsHeadWithoutLink(v: Variant, env: ClickupEnv, name: string, cardsCount: nat, d: Drain)
    requires !d.halted && d.queue.queue != [] && !HasPullRequest(d.queue.queue[0])
    ensures Run(v, env, name, cardsCount, d) == Run(v, env, name, cardsCount, d.(
      queue := QueueState(d.queue.queue[1..], d.queue.lookup),
      failed := d.failed + [IssueError(NeedsPullRequest, Some(d.queue.queue[0]), MissingLinkAssignee(v, d.queue.queue[0]))]))
  {
    RunStep(v, env, name, cardsCount, d);
    MissingLinkFails(v, env, name, cardsCount, d.(queue := QueueState(d.queue.queue[1..], d.queue.lookup)), d.queue.queue[0]);
  }

  /** A fresh drain whose head merges with the gate switched off goes on from the tail with the first-merge delay. */
  lemma FirstMergedWithoutGate(v: Variant, env: ClickupEnv, name: string, cardsCount: nat, q: QueueState, running: set<string>)
    requires q.queue != [] && env.skipCircleCiChecks && HasPullRequest(q.queue[0])
    requires MergeSpec(env.merge, env.pullRequests(GetGitHubPRId(q.queue[0].pullRequest.value))).error.None?
    ensures Run(v, env, name, cardsCount, Start(q, running)) == Run(v, env, name, cardsCount,
      Drain(QueueState(q.queue[1..], q.lookup), running, 0, false, [q.queue[0]], [], [env.firstMergeDelay], [q.queue[0].id], false))
  {
    RunMergesHeadWithoutGate(v, env, name, cardsCount, Start(q, running));
    assert [] + [q.queue[0]] == [q.queue[0]];
    assert [] + [q.queue[0].id] == [q.queue[0].id];
    assert [] + [env.firstMergeDelay] == [env.firstMergeDelay];
  }

  /**
   * The end of the three-issue drain below, once the first issue merged: the
   * second issue, without a link, fails and the third merges with the
   * standard delay.
   */
  lemma ScenarioTail(v: Variant, env: ClickupEnv, name: string, q: QueueState, a: Issue, b: Issue, c: Issue,
                     running: set<string>)
    requires q.queue == [a, b, c]
    requires !HasPullRequest(b) && HasPullRequest(c) && env.skipCircleCiChecks
    requires MergeSpec(env.merge, env.pullRequests(GetGitHubPRId(c.pullRequest.value))).error.None?
    ensures var r := Run(v, env, name, 3,
      Drain(QueueState(q.queue[1..], q.lookup), running, 0, false, [q.queue[0]], [], [env.firstMergeDelay], [q.queue[0].id], false));
      && r.merged == [a, c]
      && r.failed == [IssueError(NeedsPullRequest, Some(b), MissingLinkAssignee(v, b))]
      && r.delays == [env.firstMergeDelay, env.mergeDelay]
      && r.statusUpdates == [a.id, c.id]
      && r.queue.queue == [] && !r.halted
  {
    var fail := IssueError(NeedsPullRequest, Some(b), MissingLinkAssignee(v, b));
    var d2 := Drain(QueueState([c], q.lookup), running, 0, false, [a], [fail], [env.firstMergeDelay], [a.id], false);
    ScenarioSecond(v, env, name, q, a, b, c, running);
    RunMergesHeadWithoutGate(v, env, name, 3, d2);
    assert d2.queue.queue[1..] == [];
  }

  /** The second step of the drain below: the issue without a link fails and the drain goes on. */
  lemma ScenarioSecond(v: Variant, env: ClickupEnv, name: string, q: QueueState, a: Issue, b: Issue, c: Issue,
                       running: set<string>)
    requires q.queue == [a, b, c]
    requires !HasPullRequest(b)
    ensures Run(v, env, name, 3,
      Drain(QueueState(q.queue[1..], q.lookup), running, 0, false, [q.queue[0]], [], [env.firstMergeDelay], [q.queue[0].id], false))
      == Run(v, env, name, 3,
      Drain(QueueState([c], q.lookup), running, 0, false, [a], [IssueError(NeedsPullRequest, Some(b), MissingLinkAssignee(v, b))],
            [env.firstMergeDelay], [a.id], false))
  {
    var fail := IssueError(NeedsPullRequest, Some(b), MissingLinkAssignee(v, b));
    var d1 := Drain(QueueState(q.queue[1..], q.lookup), running, 0, false, [q.queue[0]], [], [env.firstMergeDelay], [q.queue[0].id], false);
    assert q.queue[1..] == [b, c];
    RunFailsHeadWithoutLink(v, env, name, 3, d1);
    assert [b, c][1..] == [c];
    assert [] + [fail] == [fail];
  }

  /**
   * Three issues, the first merged, the second without a link, the third
   * merged (gate switched off): two merges, the first-merge delay then the
   * standard delay, and one NEEDS_PULL_REQUEST failure.
   */
  lemma ThreeIssueScenario(v: Variant, env: ClickupEnv, name: string, q: QueueState, a: Issue, b: Issue, c: Issue,
                           running: set<string>)
    requires q.queue == [a, b, c]
    requires HasPullRequest(a) && !HasPullRequest(b) && HasPullRequest(c)
    requires env.skipCircleCiChecks
    requires MergeSpec(env.merge, env.pullRequests(GetGitHubPRId(a.pullRequest.value))).error.None?
    requires MergeSpec(env.merge, env.pullRequests(GetGitHubPRId(c.pullRequest.value))).error.None?
    ensures var r := Run(v, env, name, 3, Start(q, running));
      && r.merged == [a, c]
      && r.failed == [IssueError(NeedsPullRequest, Some(b), MissingLinkAssignee(v, b))]
      && r.delays == [env.firstMergeDelay, env.mergeDelay]
      && r.statusUpdates == [a.id, c.id]
      && r.queue.queue == [] && !r.halted
  {
    FirstMergedWithoutGate(v, env, name, 3, q, running);
    ScenarioTail(v, env, name, q, a, b, c, running);
  }

  /**
   * As written, no failure the drain records ever carries a single assignee:
   * a missing link stores the `assignees` array (or nothing) in the
   * `assignee` slot, and errors from merging or the gate store nothing.
   */
  lemma {:induction false} AsWrittenNeverNamesOneAssignee(env: ClickupEnv, name: string, queue: QueueState, running: set<string>)
    ensures var r := Run(AsWritten, env, name, |queue.queue|, Start(queue, running));
      forall e | e in r.failed :: KeepsThrownAssignee(e) && !e.assignee.OneAssignee?
  {
    MergeCardsBookkeeping(AsWritten, env, name, queue, running);
  }

  /** Corrected, every failure of a run carries its issue's first assignee, when the issue has one. */
  lemma {:induction false} CorrectedNamesFirstAssignee(env: ClickupEnv, name: string, queue: QueueState, running: set<string>)
    ensures var r := Run(Corrected, env, name, |queue.queue|, Start(queue, running));
      forall e | e in r.failed :: NamesFirstAssignee(e)
  {
    MergeCardsBookkeeping(Corrected, env, name, queue, running);
  }
}
