/**
 * The release workflow (`ReleaseWorkflow`): the sequencing of `run` over the
 * live strategy, the grouping of failed issues by the e-mail of their
 * assignee, and the rows `logSummary` prints.
 *
 * The fetched issues and the strategy's remote answers are inputs; version
 * creation, tagging and the regression issue are reduced to whether they
 * happen.
 */
module Workflow {
  import opened Wrappers
  import opened Strategy
  import opened Errors
  import opened Clickup

  // ---------------------------------------------------------------------------
  // Grouping failures by assignee e-mail
  // ---------------------------------------------------------------------------

  /** The failure names one assignee and that assignee has an e-mail: it is grouped. */
  predicate Notifiable(e: IssueError) {
    e.assignee.OneAssignee? && e.assignee.assignee.email != ""
  }

  /**
   * The `assignee` property is truthy but has no e-mail: "Unable to notify
   * assignee" is logged. A stored array is truthy and has no `email`.
   */
  predicate Unnotifiable(e: IssueError) {
    e.assignee.AssigneeList? || (e.assignee.OneAssignee? && e.assignee.assignee.email == "")
  }

  function EmailOf(e: IssueError): string
    requires e.assignee.OneAssignee?
  {
    e.assignee.assignee.email
  }

  /** The e-mails the groups are keyed by. */
  function Emails(fs: seq<IssueError>): set<string> {
    set k | 0 <= k < |fs| && Notifiable(fs[k]) :: EmailOf(fs[k])
  }

  /** The grouped failures of one e-mail, in the order of the failed issues. */
  function WithEmail(fs: seq<IssueError>, email: string): (r: seq<IssueError>)
    ensures |r| <= |fs|
    decreases |fs|
  {
    if fs == [] then []
    else
      var e := fs[|fs| - 1];
      var init := WithEmail(fs[..|fs| - 1], email);
      if Notifiable(e) && EmailOf(e) == email then init + [e] else init
  }

  /** `failed_issues_by_assignee` once the `forEach` is done. */
  function GroupOf(fs: seq<IssueError>): map<string, seq<IssueError>> {
    map email | email in Emails(fs) :: WithEmail(fs, email)
  }

  /** The failures for which "Unable to notify assignee" is logged, in order. */
  function Unnotified(fs: seq<IssueError>): (r: seq<IssueError>)
    ensures |r| <= |fs|
    decreases |fs|
  {
    if fs == [] then []
    else
      var init := Unnotified(fs[..|fs| - 1]);
      if Unnotifiable(fs[|fs| - 1]) then init + [fs[|fs| - 1]] else init
  }

  /** The failures of an e-mail not among the keys: none. */
  lemma {:induction false} WithEmailOutsideKeys(fs: seq<IssueError>, email: string)
    requires email !in Emails(fs)
    ensures WithEmail(fs, email) == []
    decreases |fs|
  {
    if fs != [] {
      var init := fs[..|fs| - 1];
      assert Emails(init) <= Emails(fs) by {
        forall x | x in Emails(init) ensures x in Emails(fs) {
          var k :| 0 <= k < |init| && Notifiable(init[k]) && EmailOf(init[k]) == x;
          assert fs[k] == init[k];
        }
      }
      WithEmailOutsideKeys(init, email);
      var e := fs[|fs| - 1];
      assert Notifiable(e) ==> EmailOf(e) in Emails(fs);
    }
  }

  /** One more failure: its e-mail's list, started if needed, grows by it; nothing else changes. */
  lemma GroupOfSnoc(fs: seq<IssueError>, e: IssueError)
    ensures var g := GroupOf(fs);
      GroupOf(fs + [e]) ==
        if Notifiable(e) then g[EmailOf(e) := (if EmailOf(e) in g then g[EmailOf(e)] else []) + [e]] else g
  {
    var all := fs + [e];
    assert all[..|fs|] == fs;
    assert forall k :: 0 <= k < |fs| ==> all[k] == fs[k];
    assert Emails(all) == Emails(fs) + (if Notifiable(e) then {EmailOf(e)} else {}) by {
      forall x | x in Emails(all) ensures x in Emails(fs) + (if Notifiable(e) then {EmailOf(e)} else {}) {
        var k :| 0 <= k < |all| && Notifiable(all[k]) && EmailOf(all[k]) == x;
        if k < |fs| {
          assert fs[k] == all[k];
        }
      }
      forall x | x in Emails(fs) ensures x in Emails(all) {
        var k :| 0 <= k < |fs| && Notifiable(fs[k]) && EmailOf(fs[k]) == x;
        assert all[k] == fs[k];
      }
      if Notifiable(e) {
        assert all[|fs|] == e;
      }
    }
    if Notifiable(e) && EmailOf(e) !in Emails(fs) {
      WithEmailOutsideKeys(fs, EmailOf(e));
    }
  }

  /**
   * The `forEach` over `failed_issues`: the groups keyed by e-mail and the
   * failures logged as unnotifiable; a failure with no assignee is skipped.
   */
  method GroupFailuresByAssignee(failed: seq<IssueError>)
    returns (groups: map<string, seq<IssueError>>, logged: seq<IssueError>)
    ensures groups == GroupOf(failed) && logged == Unnotified(failed)
  {
    groups := map[];
    logged := [];
    for i := 0 to |failed|
      invariant groups == GroupOf(failed[..i])
      invariant logged == Unnotified(failed[..i])
    {
      var e := failed[i];
      assert failed[..i + 1] == failed[..i] + [e];
      assert failed[..i + 1][..i] == failed[..i];
      GroupOfSnoc(failed[..i], e);
      if e.assignee.OneAssignee? || e.assignee.AssigneeList? {
        if e.assignee.OneAssignee? && e.assignee.assignee.email != "" {
          var email := e.assignee.assignee.email;
          if email !in groups {
            assert [] + [e] == [e];
            groups := groups[email := [e]];
          } else {
            groups := groups[email := groups[email] + [e]];
          }
        } else {
          logged := logged + [e];
        }
      }
    }
    assert failed[..|failed|] == failed;
  }

  /**
   * Every grouped list holds exactly the failures naming that e-mail, in order,
   * and is not empty; a failure naming an e-mail is in that e-mail's list.
   */
  lemma {:induction false} GroupsHoldTheirFailures(fs: seq<IssueError>)
    ensures forall email | email in GroupOf(fs) :: GroupOf(fs)[email] != []
    ensures forall email, e | email in GroupOf(fs) && e in GroupOf(fs)[email] :: Notifiable(e) && EmailOf(e) == email
    ensures forall k | 0 <= k < |fs| && Notifiable(fs[k]) :: EmailOf(fs[k]) in GroupOf(fs) && fs[k] in GroupOf(fs)[EmailOf(fs[k])]
    decreases |fs|
  {
    if fs != [] {
      var init := fs[..|fs| - 1];
      var e := fs[|fs| - 1];
      assert fs == init + [e];
      GroupsHoldTheirFailures(init);
      GroupOfSnoc(init, e);
      forall k | 0 <= k < |fs| && Notifiable(fs[k])
        ensures EmailOf(fs[k]) in GroupOf(fs) && fs[k] in GroupOf(fs)[EmailOf(fs[k])]
      {
        if k < |init| {
          assert fs[k] == init[k];
        }
      }
    }
  }

  /** A grouped list holds only failures of the list it was built from. */
  lemma {:induction false} WithEmailWithin(fs: seq<IssueError>, email: string)
    ensures forall e | e in WithEmail(fs, email) :: e in fs
    decreases |fs|
  {
    if fs != [] {
      var init := fs[..|fs| - 1];
      WithEmailWithin(init, email);
      assert forall e | e in init :: e in fs;
    }
  }

  /** Each failure is grouped, logged or, having no assignee, skipped: exactly one of the three. */
  lemma {:induction false} EveryFailureAccounted(fs: seq<IssueError>)
    ensures forall e | e in Unnotified(fs) :: e in fs && Unnotifiable(e)
    ensures forall k | 0 <= k < |fs| && Unnotifiable(fs[k]) :: fs[k] in Unnotified(fs)
    ensures forall k | 0 <= k < |fs| :: fs[k].assignee.NoAssignee? <==> !Notifiable(fs[k]) && !Unnotifiable(fs[k])
    decreases |fs|
  {
    if fs != [] {
      var init := fs[..|fs| - 1];
      var e := fs[|fs| - 1];
      assert fs == init + [e];
      EveryFailureAccounted(init);
      forall k | 0 <= k < |fs| && Unnotifiable(fs[k]) ensures fs[k] in Unnotified(fs) {
        if k < |init| {
          assert fs[k] == init[k];
        }
      }
    }
  }

  /**
   * As written, a run of the live drain never groups anybody: the groups are
   * empty, and every missing-link failure of an issue with an assignee array
   * is logged as unnotifiable instead.
   */
  lemma {:induction false} ClickupFailuresNeverGroupedAsWritten(env: ClickupEnv, name: string, q: QueueState,
                                                                 running: set<string>, issues: seq<Issue>)
    ensures var fs := RunDrain(AsWritten, env, name, q, running, issues).failed;
      && GroupOf(fs) == map[]
      && forall k | 0 <= k < |fs| && fs[k].kind == NeedsPullRequest && fs[k].issue.Some? && fs[k].issue.value.assignees.Some? ::
           fs[k] in Unnotified(fs)
  {
    var enqueued := EnqueueAll(q, issues);
    var fs := RunDrain(AsWritten, env, name, q, running, issues).failed;
    AsWrittenNeverNamesOneAssignee(env, name, enqueued, running);
    assert forall k | 0 <= k < |fs| :: fs[k] in fs;
    assert Emails(fs) == {};
    EveryFailureAccounted(fs);
  }

  /** The e-mail of the issue's first assignee, or "" when it has none. */
  function FirstEmail(e: IssueError): string {
    if e.issue.Some? && e.issue.value.assignees.Some? && |e.issue.value.assignees.value| > 0
    then e.issue.value.assignees.value[0].email else ""
  }

  /**
   * Failures that carry their issue's first assignee are grouped by that
   * assignee's e-mail: each one with such an e-mail is in its group, and
   * every grouped failure is one of them under its own first e-mail.
   */
  lemma {:induction false} FirstAssigneesGrouped(fs: seq<IssueError>)
    requires forall e | e in fs :: NamesFirstAssignee(e)
    ensures forall k | 0 <= k < |fs| && FirstEmail(fs[k]) != "" ::
      FirstEmail(fs[k]) in GroupOf(fs) && fs[k] in GroupOf(fs)[FirstEmail(fs[k])]
    ensures forall email, e | email in GroupOf(fs) && e in GroupOf(fs)[email] :: e in fs && FirstEmail(e) == email
  {
    GroupsHoldTheirFailures(fs);
    forall k | 0 <= k < |fs| && FirstEmail(fs[k]) != ""
      ensures Notifiable(fs[k]) && EmailOf(fs[k]) == FirstEmail(fs[k])
    {
      assert NamesFirstAssignee(fs[k]);
    }
    forall email, e | email in GroupOf(fs) && e in GroupOf(fs)[email]
      ensures e in fs && FirstEmail(e) == email
    {
      WithEmailWithin(fs, email);
      assert NamesFirstAssignee(e);
    }
  }

  /**
   * With the error given the issue's first assignee, as intended, a run groups
   * each failure whose issue's first assignee has an e-mail under that e-mail,
   * and every grouped failure's issue has that e-mail on its first assignee.
   */
  lemma {:induction false} CorrectedFailureGrouped(env: ClickupEnv, name: string, q: QueueState,
                                                   running: set<string>, issues: seq<Issue>)
    ensures var fs := RunDrain(Corrected, env, name, q, running, issues).failed;
      && (forall k | 0 <= k < |fs| && FirstEmail(fs[k]) != "" ::
           FirstEmail(fs[k]) in GroupOf(fs) && fs[k] in GroupOf(fs)[FirstEmail(fs[k])])
      && (forall email, e | email in GroupOf(fs) && e in GroupOf(fs)[email] :: e in fs && FirstEmail(e) == email)
  {
    var enqueued := EnqueueAll(q, issues);
    var fs := RunDrain(Corrected, env, name, q, running, issues).failed;
    CorrectedNamesFirstAssignee(env, name, enqueued, running);
    FirstAssigneesGrouped(fs);
  }

  // ---------------------------------------------------------------------------
  // The run
  // ---------------------------------------------------------------------------

  /** The queue after the `forEach` enqueuing the fetched issues in order. */
  function EnqueueAll(q: QueueState, issues: seq<Issue>): QueueState
    decreases |issues|
  {
    if issues == [] then q
    else EnqueueAll(q, issues[..|issues| - 1]).Enqueue(issues[|issues| - 1])
  }

  /**
   * Fetched issues with distinct ids the lookup does not know yet are appended
   * in fetch order, each recorded in the lookup.
   */
  lemma {:induction false} EnqueueAllAppends(q: QueueState, issues: seq<Issue>)
    requires DistinctIds(issues)
    requires forall k | 0 <= k < |issues| :: issues[k].id !in q.lookup
    ensures EnqueueAll(q, issues).queue == q.queue + issues
    ensures forall k | 0 <= k < |issues| :: EnqueueAll(q, issues).GetIssueById(issues[k].id) == Some(issues[k])
    ensures forall id | id !in q.lookup && forall k | 0 <= k < |issues| :: issues[k].id != id ::
      id !in EnqueueAll(q, issues).lookup
    decreases |issues|
  {
    if issues != [] {
      var init := issues[..|issues| - 1];
      var x := issues[|issues| - 1];
      assert forall k | 0 <= k < |init| :: init[k] == issues[k];
      EnqueueAllAppends(q, init);
      var before := EnqueueAll(q, init);
      assert x.id !in before.lookup by {
        assert forall k | 0 <= k < |init| :: init[k].id != x.id;
      }
      EnqueueNewAppends(before, x);
      assert init + [x] == issues;
    }
  }

  /** What a `run` did, as far as the model follows it. */
  datatype RunReport =
    | NoIssues
    | Released(
        merged: seq<Issue>,
        failed: seq<IssueError>,
        versioned: bool,
        groups: map<string, seq<IssueError>>,
        unnotified: seq<IssueError>)

  /**
   * The drain a `run` performs: the fetched issues enqueued, then
   * `mergeCards` over the whole queue with the gate's running checks.
   */
  function RunDrain(v: Variant, env: ClickupEnv, name: string, q: QueueState, running: set<string>, issues: seq<Issue>): Drain {
    var enqueued := EnqueueAll(q, issues);
    Run(v, env, name, |enqueued.queue|, Start(enqueued, running))
  }

  /**
   * `run` with the live strategy: nothing happens without fetched issues;
   * otherwise every issue is enqueued in order, the queue is drained, a
   * version is made only when some issue merged, and the failures are grouped.
   */
  method ReleaseRun(strategy: ClickupStrategy, issues: seq<Issue>, env: ClickupEnv) returns (report: RunReport)
    modifies strategy.issuesQueue, strategy.gate
    ensures issues == [] ==> report == NoIssues
    ensures issues == [] ==> unchanged(strategy.issuesQueue, strategy.gate)
    ensures issues != [] ==>
      var d := RunDrain(AsWritten, env, strategy.gate.workflowName, old(strategy.issuesQueue.State()),
                        old(strategy.gate.runningChecks), issues);
      && report == Released(d.merged, d.failed, d.merged != [], GroupOf(d.failed), Unnotified(d.failed))
      && strategy.issuesQueue.State() == d.queue && strategy.gate.runningChecks == d.running
    ensures issues != [] ==> report.Released? && report.groups == map[]
  {
    if |issues| == 0 {
      return NoIssues;
    }
    for i := 0 to |issues|
      invariant strategy.issuesQueue.State() == EnqueueAll(old(strategy.issuesQueue.State()), issues[..i])
      invariant strategy.gate.runningChecks == old(strategy.gate.runningChecks)
    {
      strategy.issuesQueue.Enqueue(issues[i]);
      assert issues[..i + 1][..i] == issues[..i];
    }
    assert issues[..|issues|] == issues;
    var merged, failed, _, _ := strategy.MergeCards(env);
    ClickupFailuresNeverGroupedAsWritten(env, strategy.gate.workflowName, old(strategy.issuesQueue.State()),
                                         old(strategy.gate.runningChecks), issues);
    var versioned := false;
    if |merged| > 0 {
      versioned := true;
    }
    var groups: map<string, seq<IssueError>> := map[];
    var logged: seq<IssueError> := [];
    if |failed| > 0 {
      groups, logged := GroupFailuresByAssignee(failed);
    }
    return Released(merged, failed, versioned, groups, logged);
  }

  /**
   * A fresh strategy given issues with distinct ids drains exactly those
   * issues in fetch order: what is left is a suffix of them, and nothing is
   * left unless a workflow failed.
   */
  lemma FreshRunDrainsFetched(v: Variant, env: ClickupEnv, name: string, running: set<string>, issues: seq<Issue>)
    requires DistinctIds(issues)
    ensures EnqueueAll(EmptyQueue, issues).queue == issues
    ensures var d := RunDrain(v, env, name, EmptyQueue, running, issues);
      && (exists n :: 0 <= n <= |issues| && d.queue.queue == issues[n..])
      && (!d.halted ==> d.queue.queue == [])
  {
    EnqueueAllAppends(EmptyQueue, issues);
    var enqueued := EnqueueAll(EmptyQueue, issues);
    RunLeavesSuffix(v, env, name, |enqueued.queue|, Start(enqueued, running));
  }

  // ---------------------------------------------------------------------------
  // The summary
  // ---------------------------------------------------------------------------

  /** The merged table: title to pull request, for merged issues with a link; a later title wins. */
  function MergedRows(merged: seq<Issue>): map<string, string>
    decreases |merged|
  {
    if merged == [] then map[]
    else
      var rows := MergedRows(merged[..|merged| - 1]);
      var x := merged[|merged| - 1];
      if HasPullRequest(x) then rows[x.title := x.pullRequest.value] else rows
  }

  datatype FailedRow = FailedRow(reason: string, notified: bool)

  /** "Assignee notified": no failed notification is about an issue with the same id. */
  predicate Notified(failedNotifications: seq<IssueError>, issue: Issue) {
    !exists k | 0 <= k < |failedNotifications| ::
      failedNotifications[k].issue.Some? && failedNotifications[k].issue.value.id == issue.id
  }

  /** The failed table: title to reason and notification, for failures with an issue; a later title wins. */
  function FailedRows(failed: seq<IssueError>, failedNotifications: seq<IssueError>): map<string, FailedRow>
    decreases |failed|
  {
    if failed == [] then map[]
    else
      var rows := FailedRows(failed[..|failed| - 1], failedNotifications);
      var e := failed[|failed| - 1];
      if e.issue.Some? then rows[e.issue.value.title := FailedRow(e.Message(), Notified(failedNotifications, e.issue.value))]
      else rows
  }

  /** The `some` over the failed notifications. */
  method IsNotified(failedNotifications: seq<IssueError>, issue: Issue) returns (notified: bool)
    ensures notified == Notified(failedNotifications, issue)
  {
    for k := 0 to |failedNotifications|
      invariant forall j | 0 <= j < k ::
        !(failedNotifications[j].issue.Some? && failedNotifications[j].issue.value.id == issue.id)
    {
      var n := failedNotifications[k];
      if n.issue.Some? && n.issue.value.id == issue.id {
        return false;
      }
    }
    return true;
  }

  /** `logSummary`: each table is printed only when its list is not empty. */
  method LogSummary(merged: seq<Issue>, failed: seq<IssueError>, failedNotifications: seq<IssueError>)
    returns (mergedTable: Option<map<string, string>>, failedTable: Option<map<string, FailedRow>>)
    ensures mergedTable == if merged == [] then None else Some(MergedRows(merged))
    ensures failedTable == if failed == [] then None else Some(FailedRows(failed, failedNotifications))
  {
    mergedTable := None;
    failedTable := None;
    if |merged| != 0 {
      var rows: map<string, string> := map[];
      for i := 0 to |merged|
        invariant rows == MergedRows(merged[..i])
      {
        var issue := merged[i];
        assert merged[..i + 1][..i] == merged[..i];
        if issue.pullRequest.Some? && issue.pullRequest.value != "" {
          rows := rows[issue.title := issue.pullRequest.value];
        }
      }
      assert merged[..|merged|] == merged;
      mergedTable := Some(rows);
    }
    if |failed| != 0 {
      var rows: map<string, FailedRow> := map[];
      for i := 0 to |failed|
        invariant rows == FailedRows(failed[..i], failedNotifications)
      {
        var e := failed[i];
        assert failed[..i + 1][..i] == failed[..i];
        if e.issue.Some? {
          var notified := IsNotified(failedNotifications, e.issue.value);
          rows := rows[e.issue.value.title := FailedRow(e.Message(), notified)];
        }
      }
      assert failed[..|failed|] == failed;
      failedTable := Some(rows);
    }
  }

  /** Merged issue `i` is the last with a link and that title. */
  predicate LastMergedRow(merged: seq<Issue>, title: string, i: int) {
    && 0 <= i < |merged| && HasPullRequest(merged[i]) && merged[i].title == title
    && forall j | i < j < |merged| :: !HasPullRequest(merged[j]) || merged[j].title != title
  }

  /** A title has a merged row iff some merged issue with a link has it. */
  lemma {:induction false} MergedRowsKeys(merged: seq<Issue>, title: string)
    ensures title in MergedRows(merged) <==>
      exists i | 0 <= i < |merged| :: HasPullRequest(merged[i]) && merged[i].title == title
    decreases |merged|
  {
    if merged != [] {
      var init := merged[..|merged| - 1];
      MergedRowsKeys(init, title);
      assert forall i | 0 <= i < |init| :: init[i] == merged[i];
    }
  }

  /** The last merged issue with a link and that title fills the row. */
  lemma {:induction false} MergedRowsLast(merged: seq<Issue>, title: string, i: int)
    requires LastMergedRow(merged, title, i)
    ensures title in MergedRows(merged) && MergedRows(merged)[title] == merged[i].pullRequest.value
    decreases |merged|
  {
    var last := |merged| - 1;
    if i < last {
      var init := merged[..last];
      assert !HasPullRequest(merged[last]) || merged[last].title != title;
      assert LastMergedRow(init, title, i);
      MergedRowsLast(init, title, i);
    }
  }

  /**
   * A title has a failed row iff some failure with an issue has it; the row's
   * reason is that failure's message, and it says notified iff no failed
   * notification has the issue's id.
   */
  lemma {:induction false} FailedRowsEntries(failed: seq<IssueError>, failedNotifications: seq<IssueError>, title: string)
    ensures title in FailedRows(failed, failedNotifications) <==>
      exists i | 0 <= i < |failed| :: failed[i].issue.Some? && failed[i].issue.value.title == title
    ensures title in FailedRows(failed, failedNotifications) ==>
      exists i | 0 <= i < |failed| :: failed[i].issue.Some? && failed[i].issue.value.title == title
        && FailedRows(failed, failedNotifications)[title] ==
           FailedRow(MessageOf(failed[i].kind), Notified(failedNotifications, failed[i].issue.value))
    decreases |failed|
  {
    if failed != [] {
      var init := failed[..|failed| - 1];
      FailedRowsEntries(init, failedNotifications, title);
      assert forall i | 0 <= i < |init| :: init[i] == failed[i];
      var e := failed[|failed| - 1];
      if e.issue.Some? && e.issue.value.title == title {
        assert failed[|failed| - 1] == e;
      }
    }
  }
}
