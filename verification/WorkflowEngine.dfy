/** The stored run that the edge functions read and write: its step rows, its run row and its decision log. */
module WorkflowEngine {
  import opened Wrappers
  import opened WorkflowPlan
  import opened WorkflowRuns

  datatype Response = Ok | NotFound | NotWaiting | NotWaitingOrDone

  class StoredRun {
    var steps: seq<Step>
    var run: Run
    var decisions: seq<Decision>

    ghost function View(): Db
      reads this
    {
      Db(steps, run, decisions)
    }

    /** workflow-engine-start-run: insert the run and step rows, then progress. */
    constructor (defs: seq<StepDef>, wfYolo: bool, now: Time)
      ensures View() == Start(defs, wfYolo, now)
    {
      run := Run(RunRunning, None, wfYolo);
      steps := InitialSteps(defs);
      decisions := [];
      new;
      ProgressWorkflowRun(wfYolo, now);
    }

    method ApplyStepPatch(id: Id, patch: Patch)
      modifies this`steps
      ensures steps == ApplyPatch(old(steps), id, patch)
    {
      steps := ApplyPatch(steps, id, patch);
    }

    method ProgressWorkflowRun(wfYolo: bool, now: Time)
      modifies this`steps, this`run
      ensures View() == Progress(old(View()), wfYolo, now)
    {
      var plan := PlanWorkflowProgress(steps, wfYolo, now);
      assert plan.transitions[0..] == plan.transitions;
      for i := 0 to |plan.transitions|
        invariant run == old(run)
        invariant ApplyAll(steps, plan.transitions[i..]) == ApplyAll(old(steps), plan.transitions)
      {
        assert plan.transitions[i..][1..] == plan.transitions[i + 1..];
        ApplyStepPatch(plan.transitions[i].stepId, plan.transitions[i].patch);
      }
      run := run.(status := plan.runStatus, finishedAt := plan.runFinishedAt);
    }

    method ResetStepForRetry(step: Step, comment: string)
      modifies this`steps
      ensures steps == ApplyPatch(old(steps), step.id, RetryPatch(step, comment))
    {
      ApplyStepPatch(step.id,
        Patch(Pending, Put(None), Put(None), Put(Some(comment)), Put(step.retryCount + 1)));
    }

    /** workflow-engine-submit-step-approval, with its status guard. */
    method SubmitStepApproval(stepId: Id, approve: bool, comment: string, wfYolo: bool, now: Time, later: Time)
        returns (response: Response)
      modifies this
      ensures View() == Exec(old(View()),
        Call(if approve then Approve(stepId) else RequestChanges(stepId, comment), wfYolo, now, later))
      ensures response.NotFound? <==> forall i :: 0 <= i < |old(steps)| ==> old(steps)[i].id != stepId
      ensures response.NotWaiting? ==> approve
      ensures response.NotWaitingOrDone? ==> !approve
      ensures response.Ok? <==>
        Accepts(old(View()), if approve then Approve(stepId) else RequestChanges(stepId, comment))
    {
      var k := Find(steps, stepId);
      if k == |steps| { return NotFound; }
      var current := steps[k];
      if !current.status.Waiting? {
        if approve { return NotWaiting; }
        if !current.status.Done? { return NotWaitingOrDone; }
      }
      if approve {
        steps := ApplyPatch(steps, stepId,
          Patch(Done, Put(OrNow(current.startedAt, now)), Put(Some(now)), Put(None), Undefined));
        decisions := decisions + [Approved(stepId, current.requiresApproval)];
      } else {
        decisions := decisions + [ChangesRequested(stepId, current.requiresApproval, comment, current.status)];
        ResetStepForRetry(current, comment);
      }
      ProgressWorkflowRun(wfYolo, later);
      return Ok;
    }

    /** workflow-engine-toggle-yolo-mode: it writes the run's flag, which planning never reads. */
    method ToggleYoloMode(on: bool, wfYolo: bool, now: Time, later: Time)
      modifies this
      ensures View() == Exec(old(View()), Call(Toggle(on), wfYolo, now, later))
    {
      run := run.(yolo := on);
      if on {
        ProgressWorkflowRun(wfYolo, later);
      }
    }
  }
}
