# Release bot merge engine, modelled in Dafny

This project models the core of a release bot. The bot drains a queue of
release cards (ClickUp tasks on the live path, Redmine issues on the legacy
path). For each card it merges the linked GitHub pull request through a
polling state machine. It then waits for the build to settle and checks the
staging pipeline on CircleCI. It sorts every card into "merged" or a
classified failure. A failed CircleCI workflow aborts the whole batch.
Afterwards the release workflow groups failures by the assignee's e-mail for
notification, prints a summary, and rewrites Slack channel topics.

Remote services are inputs of the model:
- The k-th `fetchPR` answer of one merge is `fetch(k)`.
- The pipeline listing seen by the k-th gate call is `pipelinesAt(k)`.
- The pull-request snapshots are keyed by the link's id.
- The Redmine user lookup is `userOf`.
- The Slack channel listing is a sequence.

Sleeps, card-status updates, branch updates, merges, comments and topic
requests are appended to logs. Every module is a value-level specification
(datatypes, recursive functions and lemmas). Where the source changes state
step by step, a class or method sits beside it, written as the source's loop
and proved equal to that specification.

Modules, one per source file:
- `Strategy`: `IssueQueue`.
- `Errors`: `IssueError`.
- `GitHub`: links, `verifyUnstablePR`, `checkStatus` and `mergePR`.
- `CircleCI`: `checkPipelineStatus`.
- `Clickup`: the live strategy.
- `Redmine`: the legacy strategy.
- `Workflow`: `run` and `logSummary`.
- `Slack`: the topic rewrite and the channel cache.
- `Helpers`: `extractVersionFromTaskName`.

Two support modules: `Text` (string scanning, `split`/`join`) and `Wrappers` (`Option`).

Both drains, `Clickup.Run` and `Redmine.Run`, take a `Variant` for the places where the code and its evident intent differ:
- `AsWritten` follows the code. The strategy classes' methods (`Clickup.ClickupStrategy.MergeCards`, `Redmine.RedmineStrategy.TryHead` and `MergeCards`) and `Workflow.ReleaseRun` are proved against it.
- `Corrected` follows the intent. Only the lemmas that state the corrected behaviour use it: `Clickup.CorrectedNamesFirstAssignee`, `Workflow.CorrectedFailureGrouped`, and the `Corrected` clauses of `Redmine.Catch` and `Redmine.ReadyCardRefusedAsWritten`.

Each difference is listed under Findings with a member for each side. In summary:
- The live drain's catch block leaves `assignee` as the error was built. For a missing link that is the whole `assignees` array; otherwise nothing. So `run` groups none of the live failures.
- The legacy `dequeueCard` refuses a card exactly when its status is Ready.
- The legacy catch block records a failure only when the issue has an `assignee` property, which issues never have.

Other places where the code and the description of the system differ follow the code everywhere:
- `checkPipelineStatus` reads past the end of a short pipeline listing; the model includes that crash.
- `IssueQueue` never removes ids from its lookup map except in `clear`.
- The topic limit counts UTF-16 code units, as JavaScript's `length` does.

## Model

| member | source | states |
|---|---|---|
| Strategy.IssueQueue.constructor | src/models/strategy.ts:36-39 | a new queue is empty, with an empty lookup, and satisfies the queue invariant |
| Strategy.IssueQueue.Head | src/models/strategy.ts:41-43 | undefined iff the queue is empty, otherwise the first entry |
| Strategy.IssueQueue.Tail | src/models/strategy.ts:45-47 | undefined iff the queue is empty, otherwise the last entry |
| Strategy.IssueQueue.IsEmpty | src/models/strategy.ts:49-51 | true exactly when the array is empty |
| Strategy.IssueQueue.Enqueue | src/models/strategy.ts:62-69 | the new state is the value-level enqueue of the old state; the queue invariant is kept |
| Strategy.IssueQueue.Dequeue | src/models/strategy.ts:76-78 | returns and removes what the value-level dequeue gives; the queue invariant is kept |
| Strategy.IssueQueue.Remove | src/models/strategy.ts:85-90 | the new state is the value-level remove of the old one; the queue invariant is kept |
| Strategy.IssueQueue.Update | src/models/strategy.ts:97-102 | the new state is the value-level update of the old one; the queue invariant is kept |
| Strategy.IssueQueue.Clear | src/models/strategy.ts:104-107 | both the queue and the lookup are empty, so the invariant holds; `hasIssue` is false for every id |
| Strategy.IssueQueue.GetIssueById | src/models/strategy.ts:109-111 | the lookup entry for the id, or undefined |
| Strategy.IssueQueue.HasIssue | src/models/strategy.ts:113-115 | whether the lookup knows the id |
| Strategy.IndexOf | src/models/strategy.ts:86 | `findIndex`: -1 iff no entry has the id; otherwise the first index holding it |
| Strategy.FindIndex | src/models/strategy.ts:98 | the scanning loop returns exactly `IndexOf` |
| Strategy.EnqueueNewAppends | src/models/strategy.ts:62-68 | an id the lookup does not know is appended at the tail and recorded in the lookup |
| Strategy.EnqueueKnownReplacesInPlace | src/models/strategy.ts:63-65 | for a known id: the lookup is unchanged and the length is unchanged; the entry is replaced at its index, or nothing changes when the id has left the queue |
| Strategy.EnqueueKeepsValid | src/models/strategy.ts:62-69 | enqueue keeps queue ids distinct and each a key of the lookup |
| Strategy.RemoveKeepsValid | src/models/strategy.ts:85-90 | remove keeps the invariant |
| Strategy.OperationsKeepValid | src/models/strategy.ts:62-107 | enqueue, dequeue, remove and update all keep the invariant |
| Strategy.DequeueTakesHead | src/models/strategy.ts:76-78 | returns the old head, keeps the rest in order and leaves the lookup alone; on an empty queue, undefined and no change |
| Strategy.ReenqueueAfterDequeueIsNoOp | src/models/strategy.ts:62-65 | re-enqueuing a dequeued id is a silent no-op |
| Strategy.ReenqueueAfterRemoveIsNoOp | src/models/strategy.ts:62-65 | re-enqueuing a removed id is a silent no-op |
| Strategy.RemoveDeletesFirstOnly | src/models/strategy.ts:85-90 | only the first entry with the id is deleted and the others keep their order (entry k comes from k, or k+1 past the deleted index); a missing id changes nothing; the lookup is untouched |
| Strategy.UpdateLeavesLookupStale | src/models/strategy.ts:97-102 | after `update`, `getIssueById` and `hasIssue` answer as before |
| Errors.MessageOf | src/models/error.ts:26-48 | the switch covers all seven kinds, each with a non-empty message |
| Errors.FirstAssigneeSlot | src/utils/clickup.ts:163-170 | corrected helper: the single assignee the catch block is meant to attach, the issue's first assignee, present iff it has one, never a list |
| Errors.ListSlot | src/utils/clickup.ts:163 | passing the `assignees` array fills the slot with a list, never a single assignee |
| GitHub.FirstBracketed | src/utils/github.ts:65 | the leftmost position where the bracketed link regex matches |
| GitHub.FirstOccurrence | src/utils/github.ts:66 | the leftmost occurrence of the bare link prefix |
| GitHub.GetGitHubPR | src/utils/github.ts:64-75 | '' iff the description holds no `https://github.com/`; otherwise the link starts with it |
| GitHub.GetGitHubPRShape | src/utils/github.ts:64-75 | a link found lies on one line and is a piece of the description |
| GitHub.PrefersBracketedLink | src/utils/github.ts:68-71 | a bracketed link wins over any bare link, even an earlier one |
| GitHub.BracketedShape | src/utils/github.ts:65 | the bracketed capture starts with the prefix and runs to the last `]` on its line |
| GitHub.BareLinkCoversPrefix | src/utils/github.ts:66 | the bare capture holds at least the whole prefix |
| GitHub.PullIndex | src/utils/github.ts:85 | the first segment equal to "pull" ignoring case, or -1 |
| GitHub.GetGitHubPRId | src/utils/github.ts:83-87 | an id found is one whole segment: it holds no '/' |
| GitHub.GetGitHubPRIdSegments | src/utils/github.ts:83-87 | undefined exactly when the last segment is "pull" ignoring case; without a "pull" segment the first segment; otherwise the segment after the first "pull" |
| GitHub.PullRequestIdOfLink | src/utils/github.ts:83-87 | the id of `https://github.com/<owner>/<repo>/pull/<n>` is `<n>` |
| GitHub.LinkIsJoinOfSegments | src/utils/github.ts:84 | splitting such a link on '/' gives its segments |
| GitHub.PathIsJoinOfSegments | src/utils/github.ts:84 | owner, repository, `pull` and number joined by '/' give the link's path |
| GitHub.PullIndexOfSegments | src/utils/github.ts:85 | in those segments "pull" is found at index 5 |
| GitHub.VerifyUnstablePR | src/utils/github.ts:127-166 | the filter and the status scan return exactly the reference meaning: a non-skipped counting run, or a context whose newest report has the state asked for |
| GitHub.SkippedEntriesNeverCount | src/utils/github.ts:127-166 | a run or status whose name matches a skip pattern never changes the result |
| GitHub.OlderReportIgnored | src/utils/github.ts:151-163 | an older report of a context already reported changes nothing, whatever its state |
| GitHub.CheckStatus | src/utils/github.ts:44-56 | blocked → NEEDS_APPROVAL, dirty → HAS_MERGE_CONFLICTS, unknown/unstable → FAILED_CHECKS; any other state passes |
| GitHub.Iterate | src/utils/github.ts:203-271 | an iteration throws only ALREADY_MERGED or FAILED_CHECKS |
| GitHub.IterateDecides | src/utils/github.ts:203-271 | ALREADY_MERGED iff `unknown` and merged; a refetch iff `unknown` and not merged; a branch update iff `behind` and updating is not skipped; FAILED_CHECKS iff `unstable`, failing checks are not skipped, none is pending and one fails |
| GitHub.NextStep | src/utils/github.ts:203-271 | one loop iteration decides exactly what `Iterate` says |
| GitHub.Poll | src/utils/github.ts:200-273 | the counters never pass their limits; a loop that ends normally hands on the last snapshot fetched; it throws only ALREADY_MERGED or FAILED_CHECKS |
| GitHub.MergeSpec | src/utils/github.ts:186-286 | `mergePR` throws only the four pull-request kinds, never FAILED_WORKFLOW or a card error; without an error the last two effects are merge and comment |
| GitHub.PollStep | src/utils/github.ts:200-273 | how a continuing, skipping or throwing iteration shapes the rest of the loop |
| GitHub.MergePR | src/utils/github.ts:186-286 | the while loop with its two counters and `skipped` flag throws and issues effects exactly as `MergeSpec` |
| GitHub.PollBounds | src/utils/github.ts:200-202 | a loop that stopped on a polling state without a skip did so at a limit |
| GitHub.PollEffects | src/utils/github.ts:200-273 | one sleep per counter increment; the loop never merges or comments |
| GitHub.PrependEffects | src/utils/github.ts:209-255 | effects issued before the rest of the loop add their sleeps, merges and comments to it |
| GitHub.PrependCounted | src/utils/github.ts:209-255 | one sleep issued before a counted rest of the loop keeps the count one increment earlier |
| GitHub.MergeOnlyWithoutError | src/utils/github.ts:278-284 | merge and comment are issued, as the last two effects, iff nothing was thrown |
| GitHub.SkippedBypassesCheckStatus | src/utils/github.ts:200-284 | a loop left through a skip merges without `checkStatus` |
| GitHub.AlreadyMergedCause | src/utils/github.ts:203-207 | ALREADY_MERGED is thrown only for a snapshot that is `unknown` and already merged |
| GitHub.RefetchTwiceThenMerge | src/utils/github.ts:195-285 | `unknown, unknown, clean` with refetch limit 2: two refetch sleeps, then merge and comment |
| GitHub.FailingCheckDecides | src/utils/github.ts:257-266 | a failing non-skipped check: FAILED_CHECKS when failing checks are not skipped, a merge when they are |
| CircleCI.ReleaseWorkflow | src/utils/circleci.ts:81-83 | the first workflow with the release name, or none when no workflow has it |
| CircleCI.PipelineGate.constructor | src/utils/circleci.ts:72 | a new gate has seen no running pipeline |
| CircleCI.PipelineGate.CheckPipelineStatus | src/utils/circleci.ts:72-101 | the loop's outcome and new `running_checks` are those of `GateSpec` |
| CircleCI.Scan | src/utils/circleci.ts:78-97 | the set only grows; a crash means the listing is shorter than the count; a pass means the walk read up to the count |
| CircleCI.GateSpec | src/utils/circleci.ts:72-97 | the set only grows; an empty listing passes and changes nothing; a non-empty listing shorter than the count never passes, and a crash happens only then |
| CircleCI.ScanGains | src/utils/circleci.ts:78-97 | the walk stops at some index: at the count on a pass, at the end of the listing on a crash, at a failed pipeline whose id is in the set on FAILED_WORKFLOW; the set gains exactly the ids of the pipelines before that index seen running |
| CircleCI.StoppedOneEarlier | src/utils/circleci.ts:78-95 | a walk stopped from the next index, with the set grown by this pipeline if running, has stopped from this index |
| CircleCI.GateGains | src/utils/circleci.ts:72-97 | the same for a whole gate call; an empty listing passes without a walk |
| CircleCI.ScanFailureCause | src/utils/circleci.ts:85-93 | FAILED_WORKFLOW needs an inspected failed pipeline whose id was already known or seen running earlier in the same call |
| CircleCI.GateFailureNeedsSeenId | src/utils/circleci.ts:85-93 | with distinct ids, only a pipeline already in the set can fail the gate; a failed pipeline never seen running raises nothing |
| CircleCI.ScanSkipsUnnamed | src/utils/circleci.ts:84 | pipelines without a workflow of the release name change nothing |
| Clickup.FieldNamed | src/utils/clickup.ts:43 | `find` by name: a field of the list with that name, or none when no field has it |
| Clickup.FirstNamed | src/utils/clickup.ts:43 | the first field with that name, a member of the list, or none when no field has it |
| Clickup.PullRequestOf | src/utils/clickup.ts:78-87 | the description link decides; otherwise the first 'Pull Request' field's non-empty text; otherwise undefined; never an empty link |
| Clickup.IssueFromTask | src/utils/clickup.ts:89-105 | id, title and status copied; assignees undefined iff the task has none; a link present iff truthy |
| Clickup.GetTasksIdsFromCustomFields | src/utils/clickup.ts:293-311 | the nested loops give exactly `TaskIds`, and [] for undefined fields |
| Clickup.TaskIdsAppend | src/utils/clickup.ts:295 | field order is kept: ids of a concatenation are the concatenated ids |
| Clickup.ItemIdsSnoc | src/utils/clickup.ts:302-306 | value order is kept; falsy ids are skipped |
| Clickup.TaskIdsOrigin | src/utils/clickup.ts:296-306 | every id is non-empty and comes from a non-empty `list_relationship` field |
| Clickup.ItemIdsOrigin | src/utils/clickup.ts:302-306 | every id collected from a value array is non-empty and belongs to it |
| Clickup.Attach | src/utils/clickup.ts:168-170 | corrected: the caught error keeps its kind and gets the issue and its first assignee |
| Clickup.AttachAsWritten | src/utils/clickup.ts:168-170 | as written: the caught error keeps its kind and its `assignee` as thrown, and gets the issue |
| Clickup.Catch | src/utils/clickup.ts:165-178 | FAILED_WORKFLOW only halts; any other error is appended to the failures; nothing else changes |
| Clickup.Attempt | src/utils/clickup.ts:122-183 | one loop body never touches the queue; the issue is merged (only with a link) or appended to the failures, never both; earlier failures are kept; a halt comes from a gate call and records nothing |
| Clickup.Run | src/utils/clickup.ts:121-184 | a halted drain is left alone; a drain that did not halt has emptied its queue; the queue never grows |
| Clickup.ClickupStrategy.constructor | src/utils/clickup.ts:114-118 | a new strategy has an empty queue and a gate that has seen nothing |
| Clickup.ClickupStrategy.MergeCards | src/utils/clickup.ts:114-187 | the while loop returns the merged and failed issues and logs the delays and status updates of `Run` as written; it leaves the queue and the gate's set as `Run` does |
| Clickup.ClickupStrategy.MergeLinked | src/utils/clickup.ts:124-161 | the try block for a linked issue does exactly what `Attempt` as written does: the error it throws goes to the catch, a crashed gate records nothing, otherwise the issue is merged |
| Clickup.CatchKeepsBookkeeping | src/utils/clickup.ts:163-178 | recording an error built as the drain builds it keeps the bookkeeping invariant |
| Clickup.SettleKeepsBookkeeping | src/utils/clickup.ts:130-146 | the status update and the first-or-standard delay keep the invariant, with or without the issue merged |
| Clickup.MergedKeepsBookkeeping | src/utils/clickup.ts:124-161 | the pass for a linked issue whose pull request merged keeps the invariant |
| Clickup.AttemptKeepsBookkeeping | src/utils/clickup.ts:124-178 | one iteration keeps the bookkeeping invariant |
| Clickup.RunKeepsBookkeeping | src/utils/clickup.ts:121-184 | a run keeps the invariant: first delay FIRST_MERGE_DELAY and every later one MERGE_DELAY; one delay per status update; merged issues have a link and an update; failures are never FAILED_WORKFLOW; as written each keeps the thrown `assignee`, corrected each names its issue's first assignee |
| Clickup.RunLeavesSuffix | src/utils/clickup.ts:121-122 | what is left in the queue after a run is a suffix of what was in it |
| Clickup.MergeCardsBookkeeping | src/utils/clickup.ts:114-187 | the same for a whole `mergeCards` from a fresh start; the queue left is a suffix, empty unless halted |
| Clickup.RunStep | src/utils/clickup.ts:121-122 | one turn of the loop dequeues the head and attempts it |
| Clickup.MissingLinkFails | src/utils/clickup.ts:121-184 | a falsy link fails with NEEDS_PULL_REQUEST, is recorded, and skips `mergePR`, the update, the delay and the gate |
| Clickup.WorkflowFailureHalts | src/utils/clickup.ts:148-177 | FAILED_WORKFLOW halts with the card updated but neither merged nor recorded as failed |
| Clickup.GateSeesBatchSize | src/utils/clickup.ts:118-153 | the gate inspects as many pipelines as the queue held at the start |
| Clickup.MergedWithoutGate | src/utils/clickup.ts:148-161 | with the gate switched off, a successful merge is updated, delayed and merged |
| Clickup.RunMergesHeadWithoutGate | src/utils/clickup.ts:124-161 | with the gate off, a linked head that merges is updated, delayed and merged, and the run goes on |
| Clickup.RunFailsHeadWithoutLink | src/utils/clickup.ts:162-178 | a head without a link is recorded as NEEDS_PULL_REQUEST, with the assignee its variant attaches, and the run goes on |
| Clickup.FirstMergedWithoutGate | src/utils/clickup.ts:119-161 | from a fresh start, the first card merged with the gate off gets FIRST_MERGE_DELAY |
| Clickup.ScenarioTail | src/utils/clickup.ts:121-184 | after that, missing link then merged: the standard delay, one NEEDS_PULL_REQUEST failure, an empty queue |
| Clickup.ThreeIssueScenario | src/utils/clickup.ts:119-161 | merged, missing link, merged: two merges, the first-merge then the standard delay, one NEEDS_PULL_REQUEST failure |
| Clickup.AsWrittenNeverNamesOneAssignee | src/utils/clickup.ts:163-170 | as written, every failure of a whole run keeps the thrown `assignee` (the `assignees` array or nothing), never a single assignee |
| Clickup.CorrectedNamesFirstAssignee | src/utils/clickup.ts:163-170 | corrected, every failure of a whole run carries its issue's first assignee |
| Redmine.GetIssueId | src/utils/redmine.ts:67-75 | null iff no digit follows the issues prefix; otherwise a non-empty digit string |
| Redmine.IssueIdOfLink | src/utils/redmine.ts:67-75 | the link of an issue number gives that number back, whatever non-digit text follows |
| Redmine.IssueFromRedmine | src/utils/redmine.ts:122-136 | one assignee with an empty e-mail, and the description's GitHub link |
| Redmine.CheckCardAsWritten | src/utils/redmine.ts:202-214 | as written: STATUS_NOT_READY iff the status is Ready, else NEEDS_PULL_REQUEST iff no link |
| Redmine.CheckCard | src/utils/redmine.ts:202-214 | corrected: STATUS_NOT_READY iff the status is not Ready, else NEEDS_PULL_REQUEST iff no link |
| Redmine.ReadyCheckInverted | src/utils/redmine.ts:202-204 | as written, a Ready card with a link is refused and a non-Ready one is let through |
| Redmine.CardResult | src/utils/redmine.ts:198-218 | the card checks of the variant, then `mergePR`'s error; never FAILED_WORKFLOW |
| Redmine.FailureFor | src/utils/redmine.ts:357-360 | corrected: recorded iff the head has an id and an assignee, with the user found for the first assignee |
| Redmine.FailuresNeverRecordedAsWritten | src/utils/redmine.ts:357 | as written, nothing is ever recorded |
| Redmine.Catch | src/utils/redmine.ts:341-361 | the head's id is removed; FAILED_WORKFLOW halts; as written the failures never change; corrected, the failure for the head is appended when there is one |
| Redmine.RemoveShrinks | src/utils/redmine.ts:342 | `remove` never lengthens the queue |
| Redmine.Park | src/utils/redmine.ts:337-340 | an unselected head leaves the queue and is enqueued among the skipped issues |
| Redmine.Release | src/utils/redmine.ts:321-336 | a passed card is updated and released, then the one-minute delay and the gate with its default count; FAILED_WORKFLOW goes to the catch |
| Redmine.Step | src/utils/redmine.ts:315-362 | one iteration strictly shortens the queue; as written the failures never change |
| Redmine.Run | src/utils/redmine.ts:315-363 | the loop never lengthens the queue; a halted drain is left alone; one that did not halt has emptied its queue; as written the failures are those it started with |
| Redmine.RunStep | src/utils/redmine.ts:315-316 | one turn of the loop is one `Step` |
| Redmine.Finish | src/utils/redmine.ts:365 | a non-empty skipped queue replaces the merge queue |
| Redmine.RedmineStrategy.constructor | src/utils/redmine.ts:40-44 | fresh, separate queues, no failures |
| Redmine.RedmineStrategy.DequeueCard | src/utils/redmine.ts:198-218 | returns and removes the head with the error `CardResult` gives; undefined with no effect on an empty queue |
| Redmine.RedmineStrategy.TryHead | src/utils/redmine.ts:317-362 | one iteration of the source's loop body does exactly `Step` as written |
| Redmine.RedmineStrategy.ReleaseHead | src/utils/redmine.ts:321-336 | the rest of the try block for a passed card does exactly `Release` as written; FAILED_WORKFLOW and a crash are never both reported |
| Redmine.RedmineStrategy.MergeCards | src/utils/redmine.ts:311-369 | the loop and the final restore leave the queues, failures, delays and status updates of `Finish(Run(...))` |
| Redmine.CatchKeepsBookkeeping | src/utils/redmine.ts:341-361 | the catch keeps the bookkeeping invariant |
| Redmine.ReleaseKeepsBookkeeping | src/utils/redmine.ts:321-336 | the release keeps it |
| Redmine.StepKeepsBookkeeping | src/utils/redmine.ts:315-362 | one iteration keeps it |
| Redmine.RunKeepsBookkeeping | src/utils/redmine.ts:315-363 | failures only grow, by recorded failures; one delay and one gate call per status update; every updated issue is released; the run stops only on FAILED_WORKFLOW or an empty queue |
| Redmine.StepQueue | src/utils/redmine.ts:320-342 | with distinct ids an iteration leaves the rest of the queue and parks an unselected head at the end |
| Redmine.RunParksInOrder | src/utils/redmine.ts:313-340 | a prefix of the queue is processed, the rest is left, and the prefix's unselected issues are parked in order |
| Redmine.ParkedAfterStep | src/utils/redmine.ts:317-340 | parking in order after one iteration that parked the head (or not) is parking in order from before it |
| Redmine.StepParks | src/utils/redmine.ts:317-340 | with distinct ids none parked, an iteration leaves the rest of the queue, parks an unselected head at the end, and keeps both conditions |
| Redmine.NothingParkedWithoutIds | src/utils/redmine.ts:320 | without `redmine_ids` nothing is parked |
| Redmine.MergeCardsQueue | src/utils/redmine.ts:349-365 | afterwards the queue holds the parked issues if any, otherwise the unprocessed rest (discarded on a halt with parked issues) |
| Redmine.ReleasedBeforeGate | src/utils/redmine.ts:321-354 | a merged card stays released and updated when the gate then fails, and no failure is recorded |
| Redmine.CardFailureRecorded | src/utils/redmine.ts:342-360 | corrected: a failed selected card with an id and an assignee is removed and recorded, and the run goes on |
| Redmine.ReadyCardRefusedAsWritten | src/utils/redmine.ts:202-204 | as written, a selected Ready card with a link is refused with STATUS_NOT_READY: nothing released, updated or recorded, no halt; corrected, it goes on to `mergePR` |
| Workflow.WithEmail | src/utils/workflow.ts:85-93 | one e-mail's group never exceeds the failures |
| Workflow.GroupFailuresByAssignee | src/utils/workflow.ts:83-98 | the `forEach` builds exactly the groups by e-mail and logs exactly the unnotifiable failures |
| Workflow.GroupOfSnoc | src/utils/workflow.ts:88-93 | one more failure extends only its e-mail's list (starting it if new) |
| Workflow.WithEmailOutsideKeys | src/utils/workflow.ts:89-90 | an e-mail that is not a key has no failures |
| Workflow.GroupsHoldTheirFailures | src/utils/workflow.ts:85-93 | each group is non-empty and holds only failures naming that e-mail; each failure naming an e-mail is in that group |
| Workflow.WithEmailWithin | src/utils/workflow.ts:85-93 | every failure in an e-mail's group is one of the failures |
| Workflow.Unnotified | src/utils/workflow.ts:94-96 | the logged failures are never more than the failures |
| Workflow.EveryFailureAccounted | src/utils/workflow.ts:86-96 | a failure is grouped, logged, or skipped for lack of an assignee; the log holds exactly the failures with an assignee but no e-mail |
| Workflow.ClickupFailuresNeverGroupedAsWritten | src/utils/workflow.ts:85-98 | for the failures of a whole live drain as written, the groups are empty; missing-link failures with assignees are only logged |
| Workflow.FirstAssigneesGrouped | src/utils/workflow.ts:85-93 | when every failure names its first assignee, each one with an e-mail is in that e-mail's group, and groups hold only such failures |
| Workflow.CorrectedFailureGrouped | src/utils/workflow.ts:85-93 | for the failures of a whole live drain with the corrected catch, each failure whose first assignee has an e-mail is in that e-mail's group, and groups hold only such failures |
| Workflow.EnqueueAllAppends | src/utils/workflow.ts:57-60 | distinct, unknown issues are appended in fetch order and recorded in the lookup |
| Workflow.ReleaseRun | src/utils/workflow.ts:47-98 | no fetched issues: nothing changes; otherwise all are enqueued, the queue is drained as written, a version is made iff something merged, and the failures are grouped, which leaves the groups empty |
| Workflow.FreshRunDrainsFetched | src/utils/workflow.ts:57-73 | from a fresh strategy the queue holds exactly the fetched issues; what is left is a suffix, empty unless a workflow failed |
| Workflow.IsNotified | src/utils/workflow.ts:37-39 | the `some` gives `Notified`: no failed notification has the issue's id |
| Workflow.LogSummary | src/utils/workflow.ts:17-45 | each table exists iff its list is non-empty, with the rows `MergedRows`/`FailedRows` |
| Workflow.MergedRowsKeys | src/utils/workflow.ts:21-27 | a title has a merged row iff some merged issue with a link has it |
| Workflow.MergedRowsLast | src/utils/workflow.ts:21-27 | the last such issue gives the row's pull request |
| Workflow.FailedRowsEntries | src/utils/workflow.ts:33-42 | a title has a failed row iff some failure with an issue has it; the row holds that failure's message and notification flag |
| Slack.Replaced | src/utils/slack/slack.ts:118-124 | the map keeps the number of lines |
| Slack.NewTopic | src/utils/slack/slack.ts:114-135 | a topic is set iff the old one is non-empty and the new lines total under 250 UTF-16 code units |
| Slack.RewriteLines | src/utils/slack/slack.ts:117-126 | the map with `has_status` and the push give exactly the rewritten lines |
| Slack.LinesLength | src/utils/slack/slack.ts:128 | the reduce sums the lines' UTF-16 lengths |
| Slack.RewrittenLinesShape | src/utils/slack/slack.ts:118-126 | matching lines become the replacement; others are kept in order; the replacement is appended iff no line matched |
| Slack.NewTopicLines | src/utils/slack/slack.ts:128-133 | a set topic splits back into exactly the rewritten lines; its UTF-16 length adds one newline between lines |
| Slack.WideReplacementNotSet | src/utils/slack/slack.ts:128-133 | a replacement of 125 characters outside the Basic Multilingual Plane counts 250 code units, so no topic is set |
| Slack.UnmatchedTopicGetsNewLine | src/utils/slack/slack.ts:126-132 | an unmatched topic gets the replacement as a new last line and is otherwise unchanged |
| Slack.FetchedKeys | src/utils/slack/slack.ts:50-62 | after a fetch a name is cached iff it was before or a listed channel with an id has it |
| Slack.FetchedLast | src/utils/slack/slack.ts:53-60 | the last such channel decides the cached entry |
| Slack.FetchedUntouched | src/utils/slack/slack.ts:53-60 | names never listed with an id keep their entry |
| Slack.SlackWorkspace.constructor | src/utils/slack/slack.ts:20-29 | a new workspace has an empty channel cache and has made no request |
| Slack.SlackWorkspace.FetchChannels | src/utils/slack/slack.ts:50-62 | the cache becomes `Fetched` of the old cache and the listing |
| Slack.SlackWorkspace.GetChannelTopic | src/utils/slack/slack.ts:70-77 | channels are fetched only when the name is not cached; the cached topic is returned |
| Slack.SlackWorkspace.SetChannelTopic | src/utils/slack/slack.ts:86-103 | lazy fetch, then a topic request only when the cached channel has an id |
| Slack.SlackWorkspace.UpdateChannelTopic | src/utils/slack/slack.ts:114-135 | exactly the topic `NewTopic` gives is requested, and none when it gives none |
| Text.JoinSplit | src/utils/slack/slack.ts:118-132 | joining the pieces of a split gives back the string |
| Text.SplitJoin | src/utils/slack/slack.ts:118-132 | splitting a join gives back the pieces when none holds the separator |
| Text.Utf16Length | src/utils/slack/slack.ts:128 | JavaScript's `length`: between one and two code units per character |
| Text.Utf16LengthAppend | src/utils/slack/slack.ts:128 | the length of a concatenation is the sum of the lengths |
| Text.Utf16LengthPlanes | src/utils/slack/slack.ts:128 | the length equals the character count iff no character is above U+FFFF, and twice it iff all are |
| Text.JoinLength | src/utils/slack/slack.ts:132 | joining on a one-unit separator adds one code unit between pieces |
| Helpers.ExtractVersionFromTaskName | src/utils/helpers.ts:6-12 | '' iff no 'V' is followed by a digit; otherwise the leftmost maximal 'V' + digits substring |
| Helpers.VersionOfName | src/utils/helpers.ts:7-11 | a name with no earlier 'V'+digit gives back the version written into it |

## Left out

- HTTP and SDK calls (Octokit, axios, the Slack app, ClickUp, Redmine and CircleCI endpoints) are oracle parameters. Their failures are not modelled: `Http.get` swallowing errors, rejected requests, a falsy `fetchPR` answer.
- Time: sleeps are values in a log. Date-based version tags and logger timestamps are not part of this model.
- Regular expressions:
  - `checks_to_skip` matching is an abstract `matches(pattern, name)` parameter.
  - The link regexes are literal-prefix scans; the unescaped `.` of `github.com` is read as a literal dot.
  - The Slack e-mail regex is not modelled.
- `parseInt`/`Number` of the pull-request id is not modelled: the snapshots are keyed by the id string.
- Concurrency:
  - the `Promise.all`/`allSettled` fan-out of `enQueueCards`, `refetchIssues` and `createRegressionTestingIssue`;
  - the un-awaited `updatePRWithBase`, recorded only as an `UpdateBranch` effect;
  - the logger's lock.
- Workflow.ReleaseRun: the per-e-mail notifications run in an un-awaited `forEach(async …)`. So the user lookup, status updates, messages and `failed_notifications` are not modelled. `LogSummary` takes the failed notifications as an input.
- Workflow.ReleaseRun: the two `updateChannelTopic` calls of `run` are not sequenced into it; their errors are caught and logged. The topic update itself is `Slack.SlackWorkspace.UpdateChannelTopic`.
- Workflow.ReleaseRun: `createVersion`, `addVersionToTask` and `createRegressionTestingIssue` are reduced to the flag saying whether they run.
- Workflow.LogSummary: `console.table` output and row order are not modelled; a table is a map from title to row.
- Workflow.GroupFailuresByAssignee: `Object.keys` insertion order is not modelled; the groups are a map.
- A non-IssueError thrown by `fetchIssues` or `mergeCards` inside `run` is not modelled; the one non-domain error modelled is the gate reading past a short listing.
- Redmine `fetchUser` is the `userOf` oracle. HTML scraping of tags (`parseIssueTags`) is not part of this model.
- The UI (views, managers, the event manager's hooks, Slack messages), configuration loading and the logger are not part of this model. Limits, delays and skip switches are parameters.
- A `RelationValue` 'Pull Request' field (a non-string value) resolves to no link. The source would pass the array on as the link.
- Slack.SlackWorkspace.FetchChannels: a channel without a name is cached under the key `undefined` in the source; the model keeps the name as given.
- The ClickUp `fetchIssue` (single task) mapping differs from `fetchIssues` only in keeping an empty assignee list. Only the `fetchIssues` mapping is modelled.
- GitHub.GetGitHubPRId: its own contract states only that an id is one whole segment; the full case split is the lemma `GitHub.GetGitHubPRIdSegments`, kept apart so that every drain proof does not carry it.
- GitHub.Iterate: its own contract states only the kinds it throws; the if-and-only-if statements are the lemma `GitHub.IterateDecides`, for the same reason.
- Errors.MessageOf: its contract states only that every kind has a non-empty message; the exact strings are in its body.

## Findings

| source | as written | input that shows it | evidently intended | confidence | as-written member | corrected member |
|---|---|---|---|---|---|---|
| src/utils/redmine.ts:202 | `dequeueCard` throws STATUS_NOT_READY when the status is exactly "Ready" | a card in status "Ready" with a GitHub link is refused; a card in any other status is merged | refuse cards that are not in Ready, as the error's message says | not executed | Redmine.ReadyCardRefusedAsWritten | Redmine.CheckCard |
| src/utils/redmine.ts:357 | the failure is recorded only when `head.assignee` is set, but issues carry `assignees` | any failed card with an id and an assignee records nothing, so `failed_issues` stays empty for the whole run | record the failure with the user of the card's first assignee | not executed | Redmine.Run | Redmine.CardFailureRecorded |
| src/utils/clickup.ts:163-170 | the error gets the `assignees` array, either as its `assignee` argument or under a new `assignees` property | any live run with a failed card that has an assignee with an e-mail: no failure carries a single assignee, so `run` groups none of them and notifies nobody | attach the issue's assignee, so the failure is grouped under that assignee's e-mail | not executed | Workflow.ClickupFailuresNeverGroupedAsWritten | Workflow.CorrectedFailureGrouped |
