/** The planner of workflow-engine-state-machine.ts, and how its plans become stored rows. */
module WorkflowPlan {
  import opened Wrappers

  type Id = nat
  type Time = int

  datatype Status = Pending | Running | Waiting | Done | Failed | Skipped {
    predicate Terminal() { Done? || Skipped? || Failed? }
  }

  /** A workflow_run_steps row joined with its definition's requires_approval. */
  datatype Step = Step(
    id: Id, stepType: string, status: Status, requiresApproval: bool, startedAt: Option<Time>,
    finishedAt: Option<Time>, rejectionNote: Option<string>, retryCount: nat)

  /** A patch field; an undefined one leaves its column alone. */
  datatype Field<+T> = Undefined | Put(value: T)

  datatype Patch = Patch(
    status: Status, startedAt: Field<Option<Time>>, finishedAt: Field<Option<Time>>,
    rejectionNote: Field<Option<string>>, retryCount: Field<nat>)

  datatype Log = AutoApproved(stepType: string) | Completed(stepType: string) | PausedOnGate(stepType: string)

  datatype Transition = Transition(stepId: Id, patch: Patch, log: Log)

  datatype RunStatus = RunRunning | RunDone

  datatype Plan = Plan(
    runStatus: RunStatus, runFinishedAt: Option<Time>, pausedStepId: Option<Id>, transitions: seq<Transition>)

  function OrNow(t: Option<Time>, now: Time): Option<Time> { if t.Some? then t else Some(now) }

  function DoneTransition(s: Step, yolo: bool, now: Time): Transition {
    Transition(s.id, Patch(Done, Put(OrNow(s.startedAt, now)), Put(Some(now)), Put(None), Undefined),
               if s.status.Waiting? || (yolo && s.requiresApproval) then AutoApproved(s.stepType)
               else Completed(s.stepType))
  }

  function GateTransition(s: Step, now: Time): Transition {
    Transition(s.id, Patch(Waiting, Put(OrNow(s.startedAt, now)), Put(None), Undefined, Undefined),
               PausedOnGate(s.stepType))
  }

  /** The plan of `steps`, read off front to back. */
  function PlanProgress(steps: seq<Step>, yolo: bool, now: Time): Plan {
    if steps == [] then Plan(RunDone, Some(now), None, [])
    else
      var s := steps[0];
      if s.status.Terminal() then PlanProgress(steps[1..], yolo, now)
      else if s.status.Waiting? && !yolo then Plan(RunRunning, None, Some(s.id), [])
      else if s.requiresApproval && !yolo then Plan(RunRunning, None, Some(s.id), [GateTransition(s, now)])
      else Prepend([DoneTransition(s, yolo, now)], PlanProgress(steps[1..], yolo, now))
  }

  function Prepend(ts: seq<Transition>, p: Plan): Plan { p.(transitions := ts + p.transitions) }

  lemma PrependTwice(a: seq<Transition>, b: seq<Transition>, p: Plan)
    ensures Prepend(a, Prepend(b, p)) == Prepend(a + b, p)
  {
    assert a + (b + p.transitions) == a + b + p.transitions;
  }

  /** The source's loop with its early returns. */
  method PlanWorkflowProgress(steps: seq<Step>, yolo: bool, now: Time) returns (plan: Plan)
    ensures plan == PlanProgress(steps, yolo, now)
  {
    var transitions: seq<Transition> := [];
    assert steps[0..] == steps;
    for i := 0 to |steps|
      invariant PlanProgress(steps, yolo, now) == Prepend(transitions, PlanProgress(steps[i..], yolo, now))
    {
      var step := steps[i];
      ghost var rest := PlanProgress(steps[i + 1..], yolo, now);
      assert steps[i..][1..] == steps[i + 1..];
      if step.status.Done? || step.status.Skipped? || step.status.Failed? {
        continue;
      }
      if step.status.Waiting? {
        if !yolo {
          return Plan(RunRunning, None, Some(step.id), transitions);
        }
        PrependTwice(transitions, [DoneTransition(step, yolo, now)], rest);
        transitions := transitions + [Transition(step.id,
          Patch(Done, Put(OrNow(step.startedAt, now)), Put(Some(now)), Put(None), Undefined),
          AutoApproved(step.stepType))];
        continue;
      }
      if step.requiresApproval && !yolo {
        transitions := transitions + [GateTransition(step, now)];
        return Plan(RunRunning, None, Some(step.id), transitions);
      }
      PrependTwice(transitions, [DoneTransition(step, yolo, now)], rest);
      transitions := transitions + [Transition(step.id,
        Patch(Done, Put(OrNow(step.startedAt, now)), Put(Some(now)), Put(None), Undefined),
        if yolo && step.requiresApproval then AutoApproved(step.stepType) else Completed(step.stepType))];
    }
    return Plan(RunDone, Some(now), None, transitions);
  }

  // ---- stored rows ---------------------------------------------------------

  function Over<T>(f: Field<T>, was: T): T {
    match f case Undefined => was case Put(v) => v
  }

  function Patched(s: Step, p: Patch): Step {
    s.(status := p.status, startedAt := Over(p.startedAt, s.startedAt), finishedAt := Over(p.finishedAt, s.finishedAt),
       rejectionNote := Over(p.rejectionNote, s.rejectionNote), retryCount := Over(p.retryCount, s.retryCount))
  }

  /** UPDATE ... WHERE id = stepId. */
  function ApplyPatch(steps: seq<Step>, id: Id, p: Patch): (r: seq<Step>)
    ensures |r| == |steps|
    ensures forall i :: 0 <= i < |steps| ==> r[i] == if steps[i].id == id then Patched(steps[i], p) else steps[i]
  {
    seq(|steps|, i requires 0 <= i < |steps| => if steps[i].id == id then Patched(steps[i], p) else steps[i])
  }

  function ApplyAll(steps: seq<Step>, ts: seq<Transition>): (r: seq<Step>)
    ensures |r| == |steps|
    decreases |ts|
  {
    if ts == [] then steps else ApplyAll(ApplyPatch(steps, ts[0].stepId, ts[0].patch), ts[1..])
  }

  ghost predicate UniqueIds(steps: seq<Step>) {
    forall i, j :: 0 <= i < j < |steps| ==> steps[i].id != steps[j].id
  }

  // ---- what a plan does, declaratively ---------------------------------------

  /** Progress must stop at this step. */
  predicate Blocks(s: Step, yolo: bool) {
    !yolo && !s.status.Terminal() && (s.status.Waiting? || s.requiresApproval)
  }

  /** The index of the first step progress must stop at, or |steps|. */
  function Gate(steps: seq<Step>, yolo: bool): (g: nat)
    ensures g <= |steps|
    ensures g < |steps| ==> Blocks(steps[g], yolo)
    ensures forall i :: 0 <= i < g ==> !Blocks(steps[i], yolo)
  {
    if steps == [] || Blocks(steps[0], yolo) then 0 else 1 + Gate(steps[1..], yolo)
  }

  function Finished(s: Step, now: Time): Step {
    if s.status.Terminal() then s
    else s.(status := Done, startedAt := OrNow(s.startedAt, now), finishedAt := Some(now), rejectionNote := None)
  }

  function Paused(s: Step, now: Time): Step {
    if s.status.Waiting? then s
    else s.(status := Waiting, startedAt := OrNow(s.startedAt, now), finishedAt := None)
  }

  /** Before the gate everything is finished, the gate waits, after it nothing changes. */
  function Progressed(steps: seq<Step>, yolo: bool, now: Time): (r: seq<Step>)
    ensures |r| == |steps|
  {
    var g := Gate(steps, yolo);
    seq(|steps|, i requires 0 <= i < |steps| =>
      if i < g then Finished(steps[i], now) else if i == g then Paused(steps[i], now) else steps[i])
  }

  // ---- proofs ----------------------------------------------------------------

  ghost predicate OnlyNames(ts: seq<Transition>, steps: seq<Step>) {
    forall t :: t in ts ==> exists i :: 0 <= i < |steps| && steps[i].id == t.stepId
  }

  lemma {:induction false} PlanNamesSteps(steps: seq<Step>, yolo: bool, now: Time)
    ensures OnlyNames(PlanProgress(steps, yolo, now).transitions, steps)
  {
    if steps != [] {
      PlanNamesSteps(steps[1..], yolo, now);
      forall t | t in PlanProgress(steps, yolo, now).transitions
        ensures exists i :: 0 <= i < |steps| && steps[i].id == t.stepId
      {
        if t in PlanProgress(steps[1..], yolo, now).transitions {
          var i :| 0 <= i < |steps[1..]| && steps[1..][i].id == t.stepId;
          assert steps[i + 1].id == t.stepId;
        } else {
          assert steps[0].id == t.stepId;
        }
      }
    }
  }

  /** Transitions that never name the first step leave it alone. */
  lemma {:induction false} ApplyTail(head: Step, tail: seq<Step>, ts: seq<Transition>)
    requires forall t :: t in ts ==> t.stepId != head.id
    ensures ApplyAll([head] + tail, ts) == [head] + ApplyAll(tail, ts)
    decreases |ts|
  {
    if ts != [] {
      var next := ApplyPatch(tail, ts[0].stepId, ts[0].patch);
      assert ApplyPatch([head] + tail, ts[0].stepId, ts[0].patch) == [head] + next;
      ApplyTail(head, next, ts[1..]);
    }
  }

  /** A transition for the first step leaves the others alone. */
  lemma ApplyHead(steps: seq<Step>, p: Patch)
    requires UniqueIds(steps) && steps != []
    ensures ApplyPatch(steps, steps[0].id, p) == [Patched(steps[0], p)] + steps[1..]
  {}

  lemma TailPlanSkipsHead(steps: seq<Step>, yolo: bool, now: Time)
    requires UniqueIds(steps) && steps != []
    ensures UniqueIds(steps[1..])
    ensures forall t :: t in PlanProgress(steps[1..], yolo, now).transitions ==> t.stepId != steps[0].id
  {
    PlanNamesSteps(steps[1..], yolo, now);
  }

  lemma ProgressedUnfolds(steps: seq<Step>, yolo: bool, now: Time)
    requires steps != []
    ensures Progressed(steps, yolo, now) ==
      if Blocks(steps[0], yolo) then [Paused(steps[0], now)] + steps[1..]
      else [Finished(steps[0], now)] + Progressed(steps[1..], yolo, now)
  {}

  /** Executing a plan is exactly `Progressed`. */
  lemma {:induction false} PlanMeansProgressed(steps: seq<Step>, yolo: bool, now: Time)
    requires UniqueIds(steps)
    ensures ApplyAll(steps, PlanProgress(steps, yolo, now).transitions) == Progressed(steps, yolo, now)
  {
    if steps == [] {
    } else {
      var s, tail := steps[0], steps[1..];
      var ts := PlanProgress(tail, yolo, now).transitions;
      TailPlanSkipsHead(steps, yolo, now);
      ProgressedUnfolds(steps, yolo, now);
      assert steps == [s] + tail;
      if Blocks(s, yolo) {
        if !s.status.Waiting? {
          ApplyHead(steps, GateTransition(s, now).patch);
          assert Patched(s, GateTransition(s, now).patch) == Paused(s, now);
        }
      } else if s.status.Terminal() {
        PlanMeansProgressed(tail, yolo, now);
        ApplyTail(s, tail, ts);
      } else {
        var d := DoneTransition(s, yolo, now);
        PlanMeansProgressed(tail, yolo, now);
        ApplyHead(steps, d.patch);
        assert Patched(s, d.patch) == Finished(s, now);
        ApplyTail(Finished(s, now), tail, ts);
        assert ([d] + ts)[1..] == ts;
      }
    }
  }

  /** The plan reports the gate it stopped at, or that the run is done. */
  lemma {:induction false} PlanReportsGate(steps: seq<Step>, yolo: bool, now: Time)
    ensures var p, g := PlanProgress(steps, yolo, now), Gate(steps, yolo);
      if g == |steps| then p.runStatus.RunDone? && p.runFinishedAt == Some(now) && p.pausedStepId == None
      else p.runStatus.RunRunning? && p.runFinishedAt == None && p.pausedStepId == Some(steps[g].id)
  {
    if steps == [] {
    } else {
      PlanReportsGate(steps[1..], yolo, now);
    }
  }

  /** What each transition logs: a pause on the gate it waits at, an automatic approval of a step that needed one, and
      plain completion of a step that needed none.  With YOLO off nothing is approved automatically. */
  ghost predicate LogsTruth(t: Transition, s: Step, yolo: bool) {
    && s.id == t.stepId && t.log.stepType == s.stepType
    && (t.log.PausedOnGate? <==> t.patch.status == Waiting)
    && (t.log.AutoApproved? <==> t.patch.status == Done && (s.status == Waiting || s.requiresApproval))
    && (t.log.Completed? <==> t.patch.status == Done && s.status != Waiting && !s.requiresApproval)
    && (t.log.AutoApproved? ==> yolo)
  }

  lemma {:induction false} PlanLogs(steps: seq<Step>, yolo: bool, now: Time, t: Transition) returns (i: nat)
    requires t in PlanProgress(steps, yolo, now).transitions
    ensures i < |steps| && LogsTruth(t, steps[i], yolo)
  {
    if !steps[0].status.Terminal() && (Blocks(steps[0], yolo) || t == DoneTransition(steps[0], yolo, now)) {
      i := 0;
    } else {
      i := PlanLogs(steps[1..], yolo, now, t);
      i := i + 1;
    }
  }

  /** Crash and resume: after any prefix of a plan has been written, replanning the stored rows (at the same or
      any other instant) gives exactly the transitions that a fresh plan would still have to make. */
  lemma {:induction false} ReplanGivesRemainder(steps: seq<Step>, yolo: bool, now: Time, later: Time, k: nat)
    requires UniqueIds(steps)
    requires k <= |PlanProgress(steps, yolo, now).transitions|
    ensures var stored := ApplyAll(steps, PlanProgress(steps, yolo, now).transitions[..k]);
      var anew := PlanProgress(steps, yolo, later);
      && k <= |anew.transitions|
      && PlanProgress(stored, yolo, later) == anew.(transitions := anew.transitions[k..])
    decreases steps, 1
  {
    var ts, us := PlanProgress(steps, yolo, now).transitions, PlanProgress(steps, yolo, later).transitions;
    if k == 0 {
      assert ts[..0] == [] && us[0..] == us;
    } else {
      var s, tail := steps[0], steps[1..];
      TailPlanSkipsHead(steps, yolo, now);
      assert steps == [s] + tail;
      if s.status.Terminal() {
        ReplanGivesRemainder(tail, yolo, now, later, k);
        ApplyTail(s, tail, ts[..k]);
      } else if Blocks(s, yolo) {
        ApplyHead(steps, GateTransition(s, now).patch);
        assert ts == [GateTransition(s, now)] == ts[..1];
      } else {
        ReplanPastFirst(steps, yolo, now, later, k);
      }
    }
  }

  lemma TakeNext<T>(d: T, ts: seq<T>, k: nat)
    requires 0 < k <= |ts| + 1
    ensures ([d] + ts)[..k] == [d] + ts[..k - 1]
    ensures ([d] + ts)[k..] == ts[k - 1..]
  {}

  lemma TailOf<T>(d: T, ts: seq<T>)
    ensures ([d] + ts)[1..] == ts
  {}

  lemma ApplyCons(steps: seq<Step>, t: Transition, ts: seq<Transition>)
    ensures ApplyAll(steps, [t] + ts) == ApplyAll(ApplyPatch(steps, t.stepId, t.patch), ts)
  {
    TailOf(t, ts);
  }

  lemma FinishHead(steps: seq<Step>, yolo: bool, now: Time)
    requires UniqueIds(steps) && steps != [] && !steps[0].status.Terminal()
    ensures ApplyPatch(steps, steps[0].id, DoneTransition(steps[0], yolo, now).patch) ==
      [Finished(steps[0], now)] + steps[1..]
  {
    ApplyHead(steps, DoneTransition(steps[0], yolo, now).patch);
  }

  lemma PlanStartsWithHead(steps: seq<Step>, yolo: bool, now: Time)
    requires steps != [] && !steps[0].status.Terminal() && !Blocks(steps[0], yolo)
    ensures PlanProgress(steps, yolo, now).transitions ==
      [DoneTransition(steps[0], yolo, now)] + PlanProgress(steps[1..], yolo, now).transitions
  {}

  /** Finishing the first step and then applying transitions that name only later ones. */
  lemma ApplyPastHead(steps: seq<Step>, yolo: bool, now: Time, ts: seq<Transition>)
    requires UniqueIds(steps) && steps != [] && !steps[0].status.Terminal()
    requires forall t :: t in ts ==> t.stepId != steps[0].id
    ensures ApplyAll(steps, [DoneTransition(steps[0], yolo, now)] + ts) ==
      [Finished(steps[0], now)] + ApplyAll(steps[1..], ts)
  {
    ApplyCons(steps, DoneTransition(steps[0], yolo, now), ts);
    FinishHead(steps, yolo, now);
    ApplyTail(Finished(steps[0], now), steps[1..], ts);
  }

  /** The first `k` transitions of a plan whose first step is finished: that step, then `k - 1` of the tail's plan. */
  lemma ApplyPastFirst(steps: seq<Step>, yolo: bool, now: Time, k: nat)
    requires UniqueIds(steps) && steps != [] && !steps[0].status.Terminal() && !Blocks(steps[0], yolo)
    requires 0 < k <= |PlanProgress(steps, yolo, now).transitions|
    ensures k - 1 <= |PlanProgress(steps[1..], yolo, now).transitions|
    ensures ApplyAll(steps, PlanProgress(steps, yolo, now).transitions[..k]) ==
      [Finished(steps[0], now)] + ApplyAll(steps[1..], PlanProgress(steps[1..], yolo, now).transitions[..k - 1])
  {
    var ts := PlanProgress(steps[1..], yolo, now).transitions;
    PlanStartsWithHead(steps, yolo, now);
    TakeNext(DoneTransition(steps[0], yolo, now), ts, k);
    TailPlanSkipsHead(steps, yolo, now);
    assert forall t :: t in ts[..k - 1] ==> t in ts;
    ApplyPastHead(steps, yolo, now, ts[..k - 1]);
  }

  lemma PlanSkipsFinished(s: Step, rest: seq<Step>, yolo: bool, now: Time, later: Time)
    ensures PlanProgress([Finished(s, now)] + rest, yolo, later) == PlanProgress(rest, yolo, later)
  {
    TailOf(Finished(s, now), rest);
  }

  lemma {:induction false} ReplanPastFirst(steps: seq<Step>, yolo: bool, now: Time, later: Time, k: nat)
    requires UniqueIds(steps) && steps != [] && !steps[0].status.Terminal() && !Blocks(steps[0], yolo)
    requires 0 < k <= |PlanProgress(steps, yolo, now).transitions|
    ensures var stored := ApplyAll(steps, PlanProgress(steps, yolo, now).transitions[..k]);
      var anew := PlanProgress(steps, yolo, later);
      && k <= |anew.transitions|
      && PlanProgress(stored, yolo, later) == anew.(transitions := anew.transitions[k..])
    decreases steps, 0
  {
    var tail := steps[1..];
    TailPlanSkipsHead(steps, yolo, now);
    ReplanGivesRemainder(tail, yolo, now, later, k - 1);
    ApplyPastFirst(steps, yolo, now, k);
    PlanSkipsFinished(steps[0], ApplyAll(tail, PlanProgress(tail, yolo, now).transitions[..k - 1]), yolo, now, later);
    PlanStartsWithHead(steps, yolo, later);
    TakeNext(DoneTransition(steps[0], yolo, later), PlanProgress(tail, yolo, later).transitions, k);
  }

  lemma {:induction false} ApplyConcat(steps: seq<Step>, a: seq<Transition>, b: seq<Transition>)
    ensures ApplyAll(steps, a + b) == ApplyAll(ApplyAll(steps, a), b)
    decreases |a|
  {
    if a == [] {
      assert a + b == b;
    } else {
      assert (a + b)[1..] == a[1..] + b;
      ApplyConcat(ApplyPatch(steps, a[0].stepId, a[0].patch), a[1..], b);
    }
  }

  /** Resuming at the same instant makes exactly the remaining transitions and ends in the same rows. */
  lemma CrashAndResume(steps: seq<Step>, yolo: bool, now: Time, k: nat)
    requires UniqueIds(steps)
    requires k <= |PlanProgress(steps, yolo, now).transitions|
    ensures var ts := PlanProgress(steps, yolo, now).transitions;
      PlanProgress(ApplyAll(steps, ts[..k]), yolo, now).transitions == ts[k..]
    ensures var ts := PlanProgress(steps, yolo, now).transitions;
      ApplyAll(ApplyAll(steps, ts[..k]), ts[k..]) == ApplyAll(steps, ts)
  {
    var ts := PlanProgress(steps, yolo, now).transitions;
    ReplanGivesRemainder(steps, yolo, now, now, k);
    ApplyInTwoParts(steps, ts, k);
  }

  lemma ApplyInTwoParts(steps: seq<Step>, ts: seq<Transition>, k: nat)
    requires k <= |ts|
    ensures ApplyAll(ApplyAll(steps, ts[..k]), ts[k..]) == ApplyAll(steps, ts)
  {
    ApplyConcat(steps, ts[..k], ts[k..]);
    assert ts[..k] + ts[k..] == ts;
  }

  /** A fully applied plan leaves nothing to do, now or later. */
  lemma AppliedPlanIsComplete(steps: seq<Step>, yolo: bool, now: Time, later: Time)
    requires UniqueIds(steps)
    ensures PlanProgress(ApplyAll(steps, PlanProgress(steps, yolo, now).transitions), yolo, later).transitions == []
  {
    var ts, us := PlanProgress(steps, yolo, now).transitions, PlanProgress(steps, yolo, later).transitions;
    ReplanGivesRemainder(steps, yolo, now, later, |ts|);
    ReplanGivesRemainder(steps, yolo, later, now, |us|);
    assert ts[..|ts|] == ts;
  }
}
