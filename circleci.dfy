/**
 * The pipeline gate run after each merge (`checkPipelineStatus`): it walks
 * the newest pipelines of the release branch, remembers in the grow-only set
 * `runningChecks` every pipeline whose release workflow it saw running, and
 * stops the release when a pipeline it had seen running has failed.
 *
 * The pipeline listing and each pipeline's workflow listing are inputs: a
 * `Pipeline` carries the workflows the service reports for it.
 */
module CircleCI {
  import opened Wrappers

  datatype Workflow = Workflow(name: string, status: string)

  datatype Pipeline = Pipeline(id: string, workflows: seq<Workflow>)

  /**
   * How a gate call ends: normally, with the FAILED_WORKFLOW error, or with the
   * TypeError of reading `.id` of a pipeline index past the end of the list.
   */
  datatype GateOutcome = Passed | WorkflowFailed | Crashed

  /** Default of `workflow_count`. */
  const DefaultWorkflowCount: nat := 15

  /** `workflows.find(w => w.name === name)`. */
  function ReleaseWorkflow(workflows: seq<Workflow>, name: string): (r: Option<Workflow>)
    ensures r.None? <==> forall k :: 0 <= k < |workflows| ==> workflows[k].name != name
    ensures r.Some? ==> r.value.name == name
    ensures r.Some? ==>
      exists k :: 0 <= k < |workflows| && workflows[k] == r.value && forall j :: 0 <= j < k ==> workflows[j].name != name
    decreases |workflows|
  {
    if workflows == [] then None
    else if workflows[0].name == name then Some(workflows[0])
    else
      ReleaseWorkflow(workflows[1..], name)
  }

  /** The release workflow of the pipeline is reported with `status`. */
  predicate ReleaseIs(p: Pipeline, name: string, status: string) {
    ReleaseWorkflow(p.workflows, name).Some? && ReleaseWorkflow(p.workflows, name).value.status == status
  }

  /**
   * The loop from index `i` on, with the set as it stands: outcome and final
   * set. The set only grows; reading past the end of the listing is the only
   * way to crash, and a walk that passes has read up to the count.
   */
  function Scan(running: set<string>, name: string, pipelines: seq<Pipeline>, i: nat, count: nat): (r: (GateOutcome, set<string>))
    requires i <= count
    ensures running <= r.1
    ensures r.0 == Crashed ==> |pipelines| < count
    ensures r.0 == Passed ==> i == count || count <= |pipelines|
    decreases count - i
  {
    if i == count then (Passed, running)
    else if i >= |pipelines| then (Crashed, running)
    else
      var p := pipelines[i];
      if ReleaseIs(p, name, "failed") && p.id in running then (WorkflowFailed, running)
      else if ReleaseIs(p, name, "running") then Scan(running + {p.id}, name, pipelines, i + 1, count)
      else Scan(running, name, pipelines, i + 1, count)
  }

  /**
   * `checkPipelineStatus(count)` on a listing: an empty listing passes and
   * changes nothing; a non-empty listing shorter than the count never passes,
   * as it is read past its end unless the walk stopped earlier.
   */
  function GateSpec(running: set<string>, name: string, pipelines: seq<Pipeline>, count: nat): (r: (GateOutcome, set<string>))
    ensures running <= r.1
    ensures |pipelines| == 0 ==> r == (Passed, running)
    ensures 0 < |pipelines| < count ==> r.0 != Passed
    ensures r.0 == Crashed ==> 0 < |pipelines| < count
  {
    if |pipelines| == 0 then (Passed, running) else Scan(running, name, pipelines, 0, count)
  }

  class PipelineGate {
    var runningChecks: set<string>
    const workflowName: string

    constructor (workflowName: string)
      ensures runningChecks == {} && this.workflowName == workflowName
    {
      runningChecks := {};
      this.workflowName := workflowName;
    }

    /** `checkPipelineStatus`: the loop over the first `workflowCount` pipelines. */
    method CheckPipelineStatus(pipelines: seq<Pipeline>, workflowCount: nat) returns (outcome: GateOutcome)
      modifies this
      ensures (outcome, runningChecks) == GateSpec(old(runningChecks), workflowName, pipelines, workflowCount)
    {
      if |pipelines| == 0 {
        return Passed;
      }
      for i := 0 to workflowCount
        invariant GateSpec(old(runningChecks), workflowName, pipelines, workflowCount)
          == Scan(runningChecks, workflowName, pipelines, i, workflowCount)
      {
        if i >= |pipelines| {
          return Crashed;
        }
        var pipeline := pipelines[i];
        var releaseWorkflow := ReleaseWorkflow(pipeline.workflows, workflowName);
        if releaseWorkflow.Some? {
          if releaseWorkflow.value.status == "failed" && pipeline.id in runningChecks {
            return WorkflowFailed;
          }
          if releaseWorkflow.value.status == "running" {
            runningChecks := runningChecks + {pipeline.id};
          }
        }
      }
      return Passed;
    }
  }

  // ---------------------------------------------------------------------------
  // Properties of the gate
  // ---------------------------------------------------------------------------

  function Min(a: nat, b: nat): nat {
    if a <= b then a else b
  }

  /** Pipeline `k` was inspected, and its release workflow was reported running. */
  predicate SeenRunning(name: string, pipelines: seq<Pipeline>, k: int, count: nat) {
    0 <= k < Min(count, |pipelines|) && ReleaseIs(pipelines[k], name, "running")
  }

  /**
   * A walk from index `i` that ended at index `stop` with outcome and set
   * `(outcome, after)`: the set gained exactly the ids of the pipelines in `[i, stop)`
   * seen running; a pass stopped at the count, a crash at the end of the
   * listing, and FAILED_WORKFLOW at a pipeline whose release workflow failed
   * and whose id was in the set by then.
   */
  predicate StoppedAt(running: set<string>, name: string, pipelines: seq<Pipeline>, i: nat, count: nat,
                      result: (GateOutcome, set<string>), stop: int) {
    var (outcome, after) := result;
    && i <= stop <= count
    && running <= after
    && (forall id :: id in after && id !in running ==>
          exists k :: i <= k < stop && SeenRunning(name, pipelines, k, count) && pipelines[k].id == id)
    && (forall k :: i <= k < stop && SeenRunning(name, pipelines, k, count) ==> pipelines[k].id in after)
    && (outcome == Passed ==> stop == count)
    && (outcome == Crashed ==> stop == |pipelines| < count)
    && (outcome == WorkflowFailed ==>
          && stop < Min(count, |pipelines|)
          && ReleaseIs(pipelines[stop], name, "failed") && pipelines[stop].id in after)
  }

  /** Every walk from a reachable index stops somewhere, as `StoppedAt` describes. */
  lemma {:induction false} ScanGains(running: set<string>, name: string, pipelines: seq<Pipeline>, i: nat, count: nat)
    requires i <= count && i <= |pipelines|
    ensures exists stop :: StoppedAt(running, name, pipelines, i, count, Scan(running, name, pipelines, i, count), stop)
    decreases count - i
  {
    var r := Scan(running, name, pipelines, i, count);
    if i == count || i == |pipelines| {
      assert StoppedAt(running, name, pipelines, i, count, r, i);
    } else {
      var p := pipelines[i];
      if ReleaseIs(p, name, "failed") && p.id in running {
        assert r == (WorkflowFailed, running);
        assert StoppedAt(running, name, pipelines, i, count, r, i);
      } else {
        var grown := if ReleaseIs(p, name, "running") then running + {p.id} else running;
        assert Scan(running, name, pipelines, i, count) == Scan(grown, name, pipelines, i + 1, count);
        ScanGains(grown, name, pipelines, i + 1, count);
        var stop :| StoppedAt(grown, name, pipelines, i + 1, count, r, stop);
        StoppedOneEarlier(running, grown, name, pipelines, i, count, r, stop);
      }
    }
  }

  /** A walk stopped from `i + 1` with the set grown by pipeline `i` (if running) has stopped from `i`. */
  lemma StoppedOneEarlier(running: set<string>, grown: set<string>, name: string, pipelines: seq<Pipeline>,
                          i: nat, count: nat, result: (GateOutcome, set<string>), stop: int)
    requires i < count && i < |pipelines|
    requires grown == if ReleaseIs(pipelines[i], name, "running") then running + {pipelines[i].id} else running
    requires StoppedAt(grown, name, pipelines, i + 1, count, result, stop)
    ensures StoppedAt(running, name, pipelines, i, count, result, stop)
  {
    var after := result.1;
    forall id | id in after && id !in running
      ensures exists k :: i <= k < stop && SeenRunning(name, pipelines, k, count) && pipelines[k].id == id
    {
      if id !in grown {
        var k :| i + 1 <= k < stop && SeenRunning(name, pipelines, k, count) && pipelines[k].id == id;
      } else {
        assert SeenRunning(name, pipelines, i, count) && pipelines[i].id == id;
      }
    }
  }

  /** The same for a whole gate call; an empty listing passes without a walk. */
  lemma GateGains(running: set<string>, name: string, pipelines: seq<Pipeline>, count: nat)
    ensures |pipelines| == 0 ==> GateSpec(running, name, pipelines, count) == (Passed, running)
    ensures |pipelines| > 0 ==>
      exists stop :: StoppedAt(running, name, pipelines, 0, count, GateSpec(running, name, pipelines, count), stop)
  {
    if |pipelines| > 0 {
      assert GateSpec(running, name, pipelines, count) == Scan(running, name, pipelines, 0, count);
      ScanGains(running, name, pipelines, 0, count);
    }
  }

  /**
   * Inspected pipeline `k` (at or after `i`) has a failed release workflow and
   * its id was already known: in `running`, or seen running at an index
   * between `i` and `k`.
   */
  predicate FailedAfterSeen(running: set<string>, name: string, pipelines: seq<Pipeline>, i: nat, k: int, count: nat) {
    && i <= k < Min(count, |pipelines|)
    && ReleaseIs(pipelines[k], name, "failed")
    && (|| pipelines[k].id in running
        || exists j :: i <= j < k && ReleaseIs(pipelines[j], name, "running") && pipelines[j].id == pipelines[k].id)
  }

  /**
   * FAILED_WORKFLOW needs an inspected pipeline whose release workflow failed
   * and whose id was seen running before: in an earlier call, or earlier in
   * this call.
   */
  lemma {:induction false} ScanFailureCause(running: set<string>, name: string, pipelines: seq<Pipeline>, i: nat, count: nat)
    requires i <= count
    requires Scan(running, name, pipelines, i, count).0 == WorkflowFailed
    ensures exists k :: FailedAfterSeen(running, name, pipelines, i, k, count)
    decreases count - i
  {
    var p := pipelines[i];
    if ReleaseIs(p, name, "failed") && p.id in running {
      assert FailedAfterSeen(running, name, pipelines, i, i, count);
    } else if ReleaseIs(p, name, "running") {
      ScanFailureCause(running + {p.id}, name, pipelines, i + 1, count);
      var k :| FailedAfterSeen(running + {p.id}, name, pipelines, i + 1, k, count);
      assert FailedAfterSeen(running, name, pipelines, i, k, count);
    } else {
      ScanFailureCause(running, name, pipelines, i + 1, count);
      var k :| FailedAfterSeen(running, name, pipelines, i + 1, k, count);
      assert FailedAfterSeen(running, name, pipelines, i, k, count);
    }
  }

  /** A failed pipeline never seen running raises nothing: with distinct ids, only an id already in the set can fail the gate. */
  lemma GateFailureNeedsSeenId(running: set<string>, name: string, pipelines: seq<Pipeline>, count: nat)
    requires forall a, b :: 0 <= a < b < |pipelines| ==> pipelines[a].id != pipelines[b].id
    requires GateSpec(running, name, pipelines, count).0 == WorkflowFailed
    ensures exists k :: 0 <= k < Min(count, |pipelines|) && ReleaseIs(pipelines[k], name, "failed") && pipelines[k].id in running
  {
    ScanFailureCause(running, name, pipelines, 0, count);
  }

  /** Pipelines with no workflow of the release name change nothing. */
  lemma {:induction false} ScanSkipsUnnamed(running: set<string>, name: string, pipelines: seq<Pipeline>, i: nat, count: nat)
    requires i < count && i < |pipelines|
    requires ReleaseWorkflow(pipelines[i].workflows, name).None?
    ensures Scan(running, name, pipelines, i, count) == Scan(running, name, pipelines, i + 1, count)
  {
  }
}
