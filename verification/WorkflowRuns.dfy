/** The edge functions that start, approve, reject and toggle a workflow run, and what every run of them keeps.
    Each call is one atomic operation on the stored rows. */
module WorkflowRuns {
  import opened Wrappers
  import opened WorkflowPlan

  datatype Run = Run(status: RunStatus, finishedAt: Option<Time>, yolo: bool)

  /** An approval_decision log row, with the status and gate flag the step had when it was taken. */
  datatype Decision =
    | Approved(stepId: Id, gated: bool)
    | ChangesRequested(stepId: Id, gated: bool, comment: string, was: Status)

  datatype Db = Db(steps: seq<Step>, run: Run, decisions: seq<Decision>)

  /** A workflow_steps definition; requires_approval may be missing, which counts as required. */
  datatype StepDef = StepDef(id: Id, stepType: string, enabled: bool, requiresApproval: Option<bool>)

  datatype Op = Approve(stepId: Id) | RequestChanges(stepId: Id, comment: string) | Toggle(on: bool)

  /** One request: the decision is stamped `now`, the progress after it `later`; `wfYolo` is workflow.yolo_mode. */
  datatype Call = Call(op: Op, wfYolo: bool, now: Time, later: Time)

  function Progress(db: Db, wfYolo: bool, now: Time): Db {
    var p := PlanProgress(db.steps, wfYolo, now);
    db.(steps := ApplyAll(db.steps, p.transitions),
        run := db.run.(status := p.runStatus, finishedAt := p.runFinishedAt))
  }

  function InitialStep(d: StepDef): Step {
    Step(d.id, d.stepType, if d.enabled then Pending else Skipped,
         d.requiresApproval.None? || d.requiresApproval.value, None, None, None, 0)
  }

  function InitialSteps(defs: seq<StepDef>): (r: seq<Step>)
    ensures |r| == |defs|
  {
    seq(|defs|, i requires 0 <= i < |defs| => InitialStep(defs[i]))
  }

  function Inserted(defs: seq<StepDef>, wfYolo: bool): Db {
    Db(InitialSteps(defs), Run(RunRunning, None, wfYolo), [])
  }

  function Start(defs: seq<StepDef>, wfYolo: bool, now: Time): Db {
    Progress(Inserted(defs, wfYolo), wfYolo, now)
  }

  /** The index of the row with this id, or |steps|. */
  function Find(steps: seq<Step>, id: Id): (k: nat)
    ensures k <= |steps|
    ensures k < |steps| ==> steps[k].id == id
    ensures k == |steps| ==> forall i :: 0 <= i < |steps| ==> steps[i].id != id
  {
    if steps == [] || steps[0].id == id then 0 else 1 + Find(steps[1..], id)
  }

  /** The status guard; a refused request changes nothing. */
  predicate Accepts(db: Db, op: Op) {
    match op
    case Approve(id) => Find(db.steps, id) < |db.steps| && db.steps[Find(db.steps, id)].status.Waiting?
    case RequestChanges(id, _) =>
      && Find(db.steps, id) < |db.steps|
      && (db.steps[Find(db.steps, id)].status.Waiting? || db.steps[Find(db.steps, id)].status.Done?)
    case Toggle(_) => true
  }

  function ApprovalPatch(s: Step, now: Time): Patch {
    Patch(Done, Put(OrNow(s.startedAt, now)), Put(Some(now)), Put(None), Undefined)
  }

  function RetryPatch(s: Step, comment: string): Patch {
    Patch(Pending, Put(None), Put(None), Put(Some(comment)), Put(s.retryCount + 1))
  }

  /** The accepted request's own writes, before progress. */
  function Decide(db: Db, op: Op, now: Time): Db
    requires Accepts(db, op)
  {
    match op
    case Approve(id) =>
      var s := db.steps[Find(db.steps, id)];
      db.(steps := ApplyPatch(db.steps, id, ApprovalPatch(s, now)),
          decisions := db.decisions + [Approved(id, s.requiresApproval)])
    case RequestChanges(id, comment) =>
      var s := db.steps[Find(db.steps, id)];
      db.(steps := ApplyPatch(db.steps, id, RetryPatch(s, comment)),
          decisions := db.decisions + [ChangesRequested(id, s.requiresApproval, comment, s.status)])
    case Toggle(on) => db.(run := db.run.(yolo := on))
  }

  function Exec(db: Db, c: Call): Db {
    if !Accepts(db, c.op) then db
    else if c.op == Toggle(false) then Decide(db, c.op, c.now)
    else Progress(Decide(db, c.op, c.now), c.wfYolo, c.later)
  }

  function ExecAll(db: Db, calls: seq<Call>): Db {
    if calls == [] then db else Exec(ExecAll(db, calls[..|calls| - 1]), calls[|calls| - 1])
  }

  // ---- reading the decision log ----------------------------------------------

  /** The latest decision about a step. */
  function Latest(ds: seq<Decision>, id: Id): Option<Decision> {
    if ds == [] then None
    else if ds[|ds| - 1].stepId == id then Some(ds[|ds| - 1])
    else Latest(ds[..|ds| - 1], id)
  }

  predicate ApprovedSinceReset(ds: seq<Decision>, id: Id) {
    Latest(ds, id).Some? && Latest(ds, id).value.Approved?
  }

  function LatestComment(ds: seq<Decision>, id: Id): Option<string> {
    if Latest(ds, id).Some? && Latest(ds, id).value.ChangesRequested? then Some(Latest(ds, id).value.comment) else None
  }

  function Rejections(ds: seq<Decision>, id: Id): nat {
    if ds == [] then 0
    else Rejections(ds[..|ds| - 1], id) +
         if ds[|ds| - 1].ChangesRequested? && ds[|ds| - 1].stepId == id then 1 else 0
  }

  function Approvals(ds: seq<Decision>): nat {
    if ds == [] then 0 else Approvals(ds[..|ds| - 1]) + if ds[|ds| - 1].Approved? then 1 else 0
  }

  /** Request-changes decisions that re-opened a finished gated step. */
  function Reopened(ds: seq<Decision>): nat {
    if ds == [] then 0
    else Reopened(ds[..|ds| - 1]) +
         if ds[|ds| - 1].ChangesRequested? && ds[|ds| - 1].gated && ds[|ds| - 1].was.Done? then 1 else 0
  }

  // ---- shape: ids and definitions never change ---------------------------------

  ghost predicate SameShape(a: seq<Step>, b: seq<Step>) {
    |a| == |b| && forall i :: 0 <= i < |a| ==>
      a[i].id == b[i].id && a[i].stepType == b[i].stepType && a[i].requiresApproval == b[i].requiresApproval
  }

  /** Progress on the stored rows is exactly the declarative `Progressed`. */
  lemma ProgressIs(db: Db, wfYolo: bool, now: Time)
    requires UniqueIds(db.steps)
    ensures Progress(db, wfYolo, now).steps == Progressed(db.steps, wfYolo, now)
    ensures Progress(db, wfYolo, now).decisions == db.decisions
    ensures SameShape(db.steps, Progress(db, wfYolo, now).steps)
  {
    PlanMeansProgressed(db.steps, wfYolo, now);
  }

  // ---- settled ----------------------------------------------------------------

  predicate AllTerminal(steps: seq<Step>) { forall i :: 0 <= i < |steps| ==> steps[i].status.Terminal() }

  /** The run is DONE with finished_at set exactly when every step is terminal; otherwise it is RUNNING without
      finished_at and its first non-terminal step is waiting for approval. */
  ghost predicate Settled(db: Db) {
    if AllTerminal(db.steps)
    then db.run.status.RunDone? && db.run.finishedAt.Some?
    else db.run.status.RunRunning? && db.run.finishedAt.None? && FirstOpenWaits(db.steps)
  }

  ghost predicate FirstOpenWaits(steps: seq<Step>) {
    exists g :: 0 <= g < |steps| && steps[g].status.Waiting?
      && forall i :: 0 <= i < g ==> steps[i].status.Terminal()
  }

  lemma ProgressSettles(db: Db, wfYolo: bool, now: Time)
    requires UniqueIds(db.steps)
    ensures Settled(Progress(db, wfYolo, now))
  {
    ProgressIs(db, wfYolo, now);
    PlanReportsGate(db.steps, wfYolo, now);
    var g, steps := Gate(db.steps, wfYolo), Progressed(db.steps, wfYolo, now);
    if g < |steps| {
      assert steps[g].status.Waiting? && forall i :: 0 <= i < g ==> steps[i].status.Terminal();
    }
  }

  // ---- what each row keeps -------------------------------------------------------

  /** A row's columns against the decisions taken on it. */
  predicate RowOk(s: Step, ds: seq<Decision>) {
    && s.retryCount == Rejections(ds, s.id)
    && (match s.status
        case Pending => s.startedAt.None? && s.finishedAt.None?
        case Waiting => s.startedAt.Some? && s.finishedAt.None?
        case Done => s.startedAt.Some? && s.finishedAt.Some?
        case Skipped => s.startedAt.None? && s.finishedAt.None? && Latest(ds, s.id).None?
        case _ => false)
    && s.rejectionNote == (if s.status.Terminal() then None else LatestComment(ds, s.id))
    && (ApprovedSinceReset(ds, s.id) ==> s.status.Done?)
  }

  /** With YOLO off: a gated row is DONE only on an approval newer than its latest reset, and only gated rows wait. */
  predicate GateOk(s: Step, ds: seq<Decision>) {
    && (s.requiresApproval && s.status.Done? ==> ApprovedSinceReset(ds, s.id))
    && (s.status.Waiting? ==> s.requiresApproval)
  }

  ghost predicate RowsOk(db: Db) {
    forall i :: 0 <= i < |db.steps| ==> RowOk(db.steps[i], db.decisions)
  }

  ghost predicate GatesOk(db: Db) {
    forall i :: 0 <= i < |db.steps| ==> GateOk(db.steps[i], db.decisions)
  }

  lemma FinishKeepsRow(s: Step, ds: seq<Decision>, now: Time)
    requires RowOk(s, ds)
    ensures RowOk(Finished(s, now), ds)
    ensures GateOk(s, ds) && !Blocks(s, false) ==> GateOk(Finished(s, now), ds)
  {}

  lemma PauseKeepsRow(s: Step, ds: seq<Decision>, now: Time)
    requires RowOk(s, ds) && Blocks(s, false)
    ensures RowOk(Paused(s, now), ds)
    ensures GateOk(s, ds) ==> GateOk(Paused(s, now), ds)
  {}

  lemma ProgressKeepsRows(db: Db, wfYolo: bool, now: Time)
    requires UniqueIds(db.steps) && RowsOk(db)
    ensures RowsOk(Progress(db, wfYolo, now))
    ensures GatesOk(db) && !wfYolo ==> GatesOk(Progress(db, wfYolo, now))
  {
    ProgressIs(db, wfYolo, now);
    var steps := Progressed(db.steps, wfYolo, now);
    forall i | 0 <= i < |db.steps|
      ensures RowOk(steps[i], db.decisions)
      ensures GateOk(db.steps[i], db.decisions) && !wfYolo ==> GateOk(steps[i], db.decisions)
    {
      FinishKeepsRow(db.steps[i], db.decisions, now);
      if i == Gate(db.steps, wfYolo) {
        PauseKeepsRow(db.steps[i], db.decisions, now);
      }
    }
  }

  lemma DecisionLogGrows(ds: seq<Decision>, d: Decision, id: Id)
    ensures Latest(ds + [d], id) == if d.stepId == id then Some(d) else Latest(ds, id)
    ensures Rejections(ds + [d], id) == Rejections(ds, id) + if d.ChangesRequested? && d.stepId == id then 1 else 0
    ensures Approvals(ds + [d]) == Approvals(ds) + if d.Approved? then 1 else 0
    ensures Reopened(ds + [d]) == Reopened(ds) + if d.ChangesRequested? && d.gated && d.was.Done? then 1 else 0
  {
    assert (ds + [d])[..|ds|] == ds;
  }

  /** What decision d, taken at `now`, makes of a row. */
  ghost predicate DecidedRow(s: Step, t: Step, d: Decision, now: Time) {
    if d.stepId != s.id then t == s
    else if d.Approved? then s.status.Waiting? && t == Patched(s, ApprovalPatch(s, now))
    else (s.status.Waiting? || s.status.Done?) && t == Patched(s, RetryPatch(s, d.comment))
  }

  lemma DecideKeepsRow(s: Step, t: Step, ds: seq<Decision>, d: Decision, now: Time)
    requires RowOk(s, ds) && DecidedRow(s, t, d, now)
    ensures RowOk(t, ds + [d])
    ensures GateOk(s, ds) ==> GateOk(t, ds + [d])
  {
    DecisionLogGrows(ds, d, s.id);
  }

  /** A decision changes its own row and no other, and is appended to the log. */
  lemma DecideRows(db: Db, op: Op, now: Time) returns (d: Decision)
    requires UniqueIds(db.steps) && Accepts(db, op) && !op.Toggle?
    ensures Decide(db, op, now).decisions == db.decisions + [d]
    ensures var s := db.steps[Find(db.steps, op.stepId)];
      d == if op.Approve? then Approved(s.id, s.requiresApproval)
           else ChangesRequested(s.id, s.requiresApproval, op.comment, s.status)
    ensures SameShape(db.steps, Decide(db, op, now).steps)
    ensures forall i :: 0 <= i < |db.steps| ==> DecidedRow(db.steps[i], Decide(db, op, now).steps[i], d, now)
  {
    var k := Find(db.steps, op.stepId);
    var s := db.steps[k];
    d := if op.Approve? then Approved(s.id, s.requiresApproval)
         else ChangesRequested(s.id, s.requiresApproval, op.comment, s.status);
  }

  lemma DecideKeepsRows(db: Db, op: Op, now: Time)
    requires UniqueIds(db.steps) && RowsOk(db) && Accepts(db, op)
    ensures var after := Decide(db, op, now);
      && SameShape(db.steps, after.steps) && RowsOk(after) && (GatesOk(db) ==> GatesOk(after))
  {
    if !op.Toggle? {
      var d := DecideRows(db, op, now);
      var after := Decide(db, op, now);
      forall i | 0 <= i < |db.steps|
        ensures RowOk(after.steps[i], after.decisions)
        ensures GateOk(db.steps[i], db.decisions) ==> GateOk(after.steps[i], after.decisions)
      {
        DecideKeepsRow(db.steps[i], after.steps[i], db.decisions, d, now);
      }
    }
  }

  lemma InsertedOk(defs: seq<StepDef>, wfYolo: bool)
    ensures RowsOk(Inserted(defs, wfYolo)) && GatesOk(Inserted(defs, wfYolo))
  {}

  lemma StartKeeps(defs: seq<StepDef>, wfYolo: bool, now: Time)
    requires UniqueIds(InitialSteps(defs))
    ensures var db := Start(defs, wfYolo, now);
      && SameShape(InitialSteps(defs), db.steps) && Settled(db) && RowsOk(db)
      && (!wfYolo ==> GatesOk(db))
      && db.decisions == []
  {
    InsertedOk(defs, wfYolo);
    ProgressIs(Inserted(defs, wfYolo), wfYolo, now);
    ProgressSettles(Inserted(defs, wfYolo), wfYolo, now);
    ProgressKeepsRows(Inserted(defs, wfYolo), wfYolo, now);
  }

  lemma ExecKeeps(db: Db, c: Call)
    requires UniqueIds(db.steps) && Settled(db) && RowsOk(db)
    ensures var after := Exec(db, c);
      && SameShape(db.steps, after.steps) && Settled(after) && RowsOk(after)
      && (GatesOk(db) && !c.wfYolo ==> GatesOk(after))
  {
    if Accepts(db, c.op) && c.op != Toggle(false) {
      DecideKeepsRows(db, c.op, c.now);
      var mid := Decide(db, c.op, c.now);
      ProgressIs(mid, c.wfYolo, c.later);
      ProgressSettles(mid, c.wfYolo, c.later);
      ProgressKeepsRows(mid, c.wfYolo, c.later);
    }
  }

  // ---- the definitions ---------------------------------------------------------------

  /** A definition whose step needs an approval: it is not switched off by an explicit `false`. */
  predicate Gated(d: StepDef) { d.requiresApproval != Some(false) }

  /** The enabled definitions that need an approval. */
  function GatedDefs(defs: seq<StepDef>): nat {
    if defs == [] then 0 else (if defs[0].enabled && Gated(defs[0]) then 1 else 0) + GatedDefs(defs[1..])
  }

  /** The rows a run starts from: pending, or skipped where disabled, and untouched. */
  lemma InsertedRows(defs: seq<StepDef>, i: nat)
    requires i < |defs|
    ensures var s := InitialSteps(defs)[i];
      && s.id == defs[i].id && s.stepType == defs[i].stepType && (s.requiresApproval <==> Gated(defs[i]))
      && s.status == (if defs[i].enabled then Pending else Skipped)
      && s.startedAt.None? && s.finishedAt.None? && s.rejectionNote.None? && s.retryCount == 0
  {}

  lemma {:induction false} OpenGatesAreGatedDefs(defs: seq<StepDef>)
    ensures OpenGates(InitialSteps(defs)) == GatedDefs(defs)
  {
    if defs != [] {
      OpenGatesAreGatedDefs(defs[1..]);
      InsertedRows(defs, 0);
      assert InitialSteps(defs)[1..] == InitialSteps(defs[1..]);
    }
  }

  // ---- whole runs -------------------------------------------------------------------

  predicate YoloOff(calls: seq<Call>) { forall i :: 0 <= i < |calls| ==> !calls[i].wfYolo }

  lemma {:induction false} RunKeeps(defs: seq<StepDef>, wfYolo: bool, start: Time, calls: seq<Call>)
    requires UniqueIds(InitialSteps(defs))
    ensures var db := ExecAll(Start(defs, wfYolo, start), calls);
      && SameShape(InitialSteps(defs), db.steps) && Settled(db) && RowsOk(db)
      && (!wfYolo && YoloOff(calls) ==> GatesOk(db))
  {
    if calls == [] {
      StartKeeps(defs, wfYolo, start);
    } else {
      var front := calls[..|calls| - 1];
      RunKeeps(defs, wfYolo, start, front);
      ExecKeeps(ExecAll(Start(defs, wfYolo, start), front), calls[|calls| - 1]);
    }
  }

  /** After every operation, whatever the YOLO flags, the run is settled. */
  lemma AlwaysSettled(defs: seq<StepDef>, wfYolo: bool, start: Time, calls: seq<Call>)
    requires UniqueIds(InitialSteps(defs))
    ensures Settled(ExecAll(Start(defs, wfYolo, start), calls))
  {
    RunKeeps(defs, wfYolo, start, calls);
  }

  /** With the workflow's YOLO flag off, over every sequence of calls, a gated step is DONE if and only if it has
      been approved since its latest reset. */
  lemma DoneMeansApproved(defs: seq<StepDef>, start: Time, calls: seq<Call>, i: nat)
    requires UniqueIds(InitialSteps(defs)) && YoloOff(calls)
    requires i < |defs| && defs[i].requiresApproval != Some(false)
    ensures var db := ExecAll(Start(defs, false, start), calls);
      |db.steps| == |defs| && (db.steps[i].status.Done? <==> ApprovedSinceReset(db.decisions, defs[i].id))
  {
    InsertedRows(defs, i);
    RunKeeps(defs, false, start, calls);
    var db := ExecAll(Start(defs, false, start), calls);
    assert InitialSteps(defs)[i].id == defs[i].id;
    assert RowOk(db.steps[i], db.decisions) && GateOk(db.steps[i], db.decisions);
  }

  /** Nothing but a request for changes leaves the terminal statuses, and it needs a finished step. */
  lemma ExecKeepsSkipped(db: Db, c: Call, i: nat)
    requires UniqueIds(db.steps) && i < |db.steps| && db.steps[i].status.Skipped?
    ensures |Exec(db, c).steps| == |db.steps| && Exec(db, c).steps[i] == db.steps[i]
  {
    if Accepts(db, c.op) && c.op != Toggle(false) {
      var mid := Decide(db, c.op, c.now);
      if !c.op.Toggle? {
        var d := DecideRows(db, c.op, c.now);
        assert DecidedRow(db.steps[i], mid.steps[i], d, c.now);
      }
      ProgressIs(mid, c.wfYolo, c.later);
    }
  }

  /** Over every run, whatever the YOLO flags, a step whose definition is disabled stays skipped and untouched. */
  lemma {:induction false} DisabledStaysSkipped(defs: seq<StepDef>, wfYolo: bool, start: Time, calls: seq<Call>, i: nat)
    requires UniqueIds(InitialSteps(defs)) && i < |defs| && !defs[i].enabled
    ensures var db := ExecAll(Start(defs, wfYolo, start), calls);
      && |db.steps| == |defs| && db.steps[i].status.Skipped? && db.steps[i].retryCount == 0
      && db.steps[i].startedAt.None? && db.steps[i].finishedAt.None?
  {
    if calls == [] {
      InsertedRows(defs, i);
      ProgressIs(Inserted(defs, wfYolo), wfYolo, start);
    } else {
      var front := calls[..|calls| - 1];
      DisabledStaysSkipped(defs, wfYolo, start, front, i);
      RunKeeps(defs, wfYolo, start, front);
      ExecKeepsSkipped(ExecAll(Start(defs, wfYolo, start), front), calls[|calls| - 1], i);
    }
  }

  /** An enabled definition is never skipped. */
  lemma EnabledIsNotSkipped(defs: seq<StepDef>, wfYolo: bool, start: Time, i: nat)
    requires UniqueIds(InitialSteps(defs)) && i < |defs| && defs[i].enabled
    ensures |Start(defs, wfYolo, start).steps| == |defs| && !Start(defs, wfYolo, start).steps[i].status.Skipped?
  {
    InsertedRows(defs, i);
    ProgressIs(Inserted(defs, wfYolo), wfYolo, start);
  }

  // ---- what one call does -------------------------------------------------------------

  /** Which requests are accepted: an approval of a waiting step, a request for changes on a waiting or finished one,
      and every toggle. */
  lemma AcceptsExactly(db: Db, i: nat, comment: string)
    requires UniqueIds(db.steps) && i < |db.steps|
    ensures Accepts(db, Approve(db.steps[i].id)) <==> db.steps[i].status == Waiting
    ensures Accepts(db, RequestChanges(db.steps[i].id, comment)) <==> db.steps[i].status in {Waiting, Done}
  {
    assert Find(db.steps, db.steps[i].id) == i;
  }

  lemma UnknownIsRefused(db: Db, id: Id, comment: string)
    requires forall i :: 0 <= i < |db.steps| ==> db.steps[i].id != id
    ensures !Accepts(db, Approve(id)) && !Accepts(db, RequestChanges(id, comment))
  {}

  /** What an accepted decision itself writes.  An approval keeps a start time that is already set. */
  lemma DecidedColumns(db: Db, op: Op, now: Time, i: nat)
    requires UniqueIds(db.steps) && i < |db.steps| && !op.Toggle? && op.stepId == db.steps[i].id && Accepts(db, op)
    ensures var s, t := db.steps[i], Decide(db, op, now).steps[i];
      if op.Approve? then
        && t.status == Done && t.finishedAt == Some(now) && t.rejectionNote == None && t.retryCount == s.retryCount
        && t.startedAt == (if s.startedAt.Some? then s.startedAt else Some(now))
      else
        && t.status == Pending && t.finishedAt == None && t.startedAt == None
        && t.rejectionNote == Some(op.comment) && t.retryCount == s.retryCount + 1
  {
    assert Find(db.steps, op.stepId) == i;
  }

  /** What progress writes: a step it finishes is finished `now`, a step it makes wait has started by now, and a start
      time that is set stays. */
  lemma ProgressStamps(db: Db, wfYolo: bool, now: Time, i: nat)
    requires UniqueIds(db.steps) && i < |db.steps|
    ensures |Progress(db, wfYolo, now).steps| == |db.steps|
    ensures var s, t := db.steps[i], Progress(db, wfYolo, now).steps[i];
      && t.retryCount == s.retryCount
      && (t != s ==>
            && t.status in {Done, Waiting} && !s.status.Terminal()
            && t.startedAt == (if s.startedAt.Some? then s.startedAt else Some(now))
            && t.finishedAt == (if t.status == Done then Some(now) else None)
            && t.rejectionNote == (if t.status == Done then None else s.rejectionNote))
  {
    ProgressIs(db, wfYolo, now);
  }

  /** Over every call: a start time that is set goes only by a request for changes on that very step. */
  lemma StartTimeStays(db: Db, c: Call, i: nat)
    requires UniqueIds(db.steps) && i < |db.steps| && db.steps[i].startedAt.Some?
    ensures |Exec(db, c).steps| == |db.steps|
    ensures Exec(db, c).steps[i].startedAt == db.steps[i].startedAt
      || (c.op.RequestChanges? && c.op.stepId == db.steps[i].id && Accepts(db, c.op))
  {
    if Accepts(db, c.op) && c.op != Toggle(false) {
      var mid := Decide(db, c.op, c.now);
      if !c.op.Toggle? {
        var d := DecideRows(db, c.op, c.now);
        assert DecidedRow(db.steps[i], mid.steps[i], d, c.now);
      }
      ProgressStamps(mid, c.wfYolo, c.later, i);
    }
  }

  /** The run's finish time is the instant of the progress that found nothing left to do. */
  lemma FinishedWhenProgressed(db: Db, c: Call)
    requires UniqueIds(db.steps) && Accepts(db, c.op) && c.op != Toggle(false)
    ensures Exec(db, c).run.finishedAt == if Exec(db, c).run.status.RunDone? then Some(c.later) else None
  {
    PlanReportsGate(Decide(db, c.op, c.now).steps, c.wfYolo, c.later);
  }

  /** The run's flag as the calls leave it: the last toggle decides, or else what the run started with. */
  function FlagAfter(wfYolo: bool, calls: seq<Call>): bool {
    if calls == [] then wfYolo
    else if calls[|calls| - 1].op.Toggle? then calls[|calls| - 1].op.on
    else FlagAfter(wfYolo, calls[..|calls| - 1])
  }

  /** The run starts with the workflow's flag, and only toggles change it. */
  lemma {:induction false} FlagIsLastToggle(defs: seq<StepDef>, wfYolo: bool, start: Time, calls: seq<Call>)
    ensures ExecAll(Start(defs, wfYolo, start), calls).run.yolo == FlagAfter(wfYolo, calls)
  {
    if calls != [] {
      FlagIsLastToggle(defs, wfYolo, start, calls[..|calls| - 1]);
    }
  }

  /** Switching the flag off writes nothing else. */
  lemma TogglingOffWritesFlagOnly(db: Db, wfYolo: bool, now: Time, later: Time)
    ensures var after := Exec(db, Call(Toggle(false), wfYolo, now, later));
      && !after.run.yolo && after.steps == db.steps && after.decisions == db.decisions
      && after.run.status == db.run.status && after.run.finishedAt == db.run.finishedAt
  {}

  // ---- timestamps -------------------------------------------------------------------

  /** The clock never goes backwards across the calls. */
  ghost predicate Ordered(start: Time, calls: seq<Call>) {
    && (forall i :: 0 <= i < |calls| ==> start <= calls[i].now <= calls[i].later)
    && (forall i, j :: 0 <= i < j < |calls| ==> calls[i].later <= calls[j].now)
  }

  function Clock(start: Time, calls: seq<Call>): Time {
    if calls == [] then start else calls[|calls| - 1].later
  }

  /** A row has started before it finished, and both by `clock`. */
  predicate TimesOk(s: Step, clock: Time) {
    && (s.startedAt.Some? ==> s.startedAt.value <= clock)
    && (s.finishedAt.Some? ==> s.finishedAt.value <= clock)
    && (s.startedAt.Some? && s.finishedAt.Some? ==> s.startedAt.value <= s.finishedAt.value)
  }

  ghost predicate AllTimesOk(steps: seq<Step>, clock: Time) {
    forall i :: 0 <= i < |steps| ==> TimesOk(steps[i], clock)
  }

  lemma ProgressKeepsTimes(db: Db, wfYolo: bool, clock: Time, now: Time)
    requires UniqueIds(db.steps) && AllTimesOk(db.steps, clock) && clock <= now
    ensures AllTimesOk(Progress(db, wfYolo, now).steps, now)
  {
    ProgressIs(db, wfYolo, now);
  }

  lemma ExecKeepsTimes(db: Db, c: Call, clock: Time)
    requires UniqueIds(db.steps) && AllTimesOk(db.steps, clock) && clock <= c.now <= c.later
    ensures AllTimesOk(Exec(db, c).steps, c.later)
  {
    if Accepts(db, c.op) && c.op != Toggle(false) {
      var mid := Decide(db, c.op, c.now);
      if !c.op.Toggle? { var d := DecideRows(db, c.op, c.now); }
      assert AllTimesOk(mid.steps, c.now);
      ProgressKeepsTimes(mid, c.wfYolo, c.now, c.later);
    }
  }

  lemma {:induction false} RunKeepsTimes(defs: seq<StepDef>, wfYolo: bool, start: Time, calls: seq<Call>)
    requires UniqueIds(InitialSteps(defs)) && Ordered(start, calls)
    ensures AllTimesOk(ExecAll(Start(defs, wfYolo, start), calls).steps, Clock(start, calls))
  {
    if calls == [] {
      ProgressKeepsTimes(Inserted(defs, wfYolo), wfYolo, start, start);
    } else {
      var front := calls[..|calls| - 1];
      RunKeeps(defs, wfYolo, start, front);
      RunKeepsTimes(defs, wfYolo, start, front);
      ExecKeepsTimes(ExecAll(Start(defs, wfYolo, start), front), calls[|calls| - 1], Clock(start, front));
    }
  }

  /** Step bookkeeping over all runs, whatever the YOLO flags; the timestamps are in order if the clock is. */
  lemma Bookkeeping(defs: seq<StepDef>, wfYolo: bool, start: Time, calls: seq<Call>, i: nat)
    requires UniqueIds(InitialSteps(defs)) && i < |defs|
    ensures var db := ExecAll(Start(defs, wfYolo, start), calls);
      && |db.steps| == |defs| && db.steps[i].id == defs[i].id && RowOk(db.steps[i], db.decisions)
      && (Ordered(start, calls) ==> TimesOk(db.steps[i], Clock(start, calls)))
  {
    RunKeeps(defs, wfYolo, start, calls);
    if Ordered(start, calls) { RunKeepsTimes(defs, wfYolo, start, calls); }
    assert InitialSteps(defs)[i].id == defs[i].id;
  }

  // ---- conservation ------------------------------------------------------------------

  predicate OpenGate(s: Step) { s.requiresApproval && !s.status.Terminal() }

  function OpenGates(steps: seq<Step>): nat {
    if steps == [] then 0 else (if OpenGate(steps[0]) then 1 else 0) + OpenGates(steps[1..])
  }

  lemma {:induction false} SameOpenGates(a: seq<Step>, b: seq<Step>)
    requires |a| == |b| && forall i :: 0 <= i < |a| ==> OpenGate(a[i]) == OpenGate(b[i])
    ensures OpenGates(a) == OpenGates(b)
  {
    if a != [] {
      SameOpenGates(a[1..], b[1..]);
    }
  }

  function Bit(b: bool): nat { if b then 1 else 0 }

  lemma {:induction false} OneGateChanges(a: seq<Step>, b: seq<Step>, k: nat)
    requires k < |a| == |b| && forall i :: 0 <= i < |a| && i != k ==> OpenGate(a[i]) == OpenGate(b[i])
    ensures OpenGates(a) + Bit(OpenGate(b[k])) == OpenGates(b) + Bit(OpenGate(a[k]))
  {
    if k == 0 {
      SameOpenGates(a[1..], b[1..]);
    } else {
      OneGateChanges(a[1..], b[1..], k - 1);
    }
  }

  ghost predicate Balanced(db: Db, gates: nat) {
    Approvals(db.decisions) + OpenGates(db.steps) == gates + Reopened(db.decisions)
  }

  lemma ProgressKeepsOpenGates(db: Db, now: Time)
    requires UniqueIds(db.steps)
    ensures OpenGates(Progress(db, false, now).steps) == OpenGates(db.steps)
  {
    ProgressIs(db, false, now);
    SameOpenGates(Progressed(db.steps, false, now), db.steps);
  }

  lemma DecisionMovesGate(steps: seq<Step>, after: seq<Step>, k: nat, d: Decision, now: Time)
    requires UniqueIds(steps) && k < |steps| == |after| && d.stepId == steps[k].id
    requires forall i :: 0 <= i < |steps| ==> DecidedRow(steps[i], after[i], d, now)
    ensures OpenGates(steps) + Bit(OpenGate(after[k])) == OpenGates(after) + Bit(OpenGate(steps[k]))
  {
    forall i | 0 <= i < |steps| && i != k ensures OpenGate(steps[i]) == OpenGate(after[i]) {
      assert steps[i].id != steps[k].id && DecidedRow(steps[i], after[i], d, now);
    }
    OneGateChanges(steps, after, k);
  }

  /** An approval closes one gate; a request for changes on a finished gated step opens one. */
  lemma DecidedGate(s: Step, t: Step, d: Decision, now: Time)
    requires DecidedRow(s, t, d, now) && d.stepId == s.id && d.gated == s.requiresApproval
    requires d.ChangesRequested? ==> d.was == s.status
    requires s.status.Waiting? ==> s.requiresApproval
    ensures Bit(d.Approved?) + Bit(OpenGate(t)) ==
      Bit(d.ChangesRequested? && d.gated && d.was.Done?) + Bit(OpenGate(s))
  {}

  lemma DecideKeepsBalance(db: Db, op: Op, now: Time, gates: nat)
    requires UniqueIds(db.steps) && GatesOk(db) && Accepts(db, op) && !op.Toggle? && Balanced(db, gates)
    ensures Balanced(Decide(db, op, now), gates)
  {
    var k := Find(db.steps, op.stepId);
    var d := DecideRows(db, op, now);
    var after := Decide(db, op, now);
    assert GateOk(db.steps[k], db.decisions) && DecidedRow(db.steps[k], after.steps[k], d, now);
    DecisionLogGrows(db.decisions, d, op.stepId);
    DecisionMovesGate(db.steps, after.steps, k, d, now);
    DecidedGate(db.steps[k], after.steps[k], d, now);
  }

  lemma ExecKeepsBalance(db: Db, c: Call, gates: nat)
    requires UniqueIds(db.steps) && GatesOk(db) && !c.wfYolo && Balanced(db, gates)
    ensures Balanced(Exec(db, c), gates)
  {
    if Accepts(db, c.op) && c.op != Toggle(false) {
      var mid := Decide(db, c.op, c.now);
      if !c.op.Toggle? {
        var d := DecideRows(db, c.op, c.now);
        DecideKeepsBalance(db, c.op, c.now, gates);
      }
      ProgressKeepsOpenGates(mid, c.later);
    }
  }

  lemma {:induction false} RunBalanced(defs: seq<StepDef>, start: Time, calls: seq<Call>)
    requires UniqueIds(InitialSteps(defs)) && YoloOff(calls)
    ensures Balanced(ExecAll(Start(defs, false, start), calls), OpenGates(InitialSteps(defs)))
  {
    if calls == [] {
      ProgressKeepsOpenGates(Inserted(defs, false), start);
    } else {
      var front := calls[..|calls| - 1];
      RunBalanced(defs, start, front);
      RunKeeps(defs, false, start, front);
      ExecKeepsBalance(ExecAll(Start(defs, false, start), front), calls[|calls| - 1], OpenGates(InitialSteps(defs)));
    }
  }

  lemma {:induction false} NoOpenGates(steps: seq<Step>, k: nat)
    requires k < |steps| && OpenGate(steps[k])
    ensures OpenGates(steps) > 0
  {
    if k > 0 {
      NoOpenGates(steps[1..], k - 1);
    }
  }

  lemma {:induction false} AllTerminalNoGates(steps: seq<Step>)
    requires AllTerminal(steps)
    ensures OpenGates(steps) == 0
  {
    if steps != [] {
      AllTerminalNoGates(steps[1..]);
    }
  }

  /** With YOLO off: approvals so far + open gates = enabled gates at the start + gates re-opened, and the run is
      DONE exactly when the approvals have paid for both. */
  lemma ApprovalsConserved(defs: seq<StepDef>, start: Time, calls: seq<Call>)
    requires UniqueIds(InitialSteps(defs)) && YoloOff(calls)
    ensures var db := ExecAll(Start(defs, false, start), calls);
      var due := GatedDefs(defs) + Reopened(db.decisions);
      && Approvals(db.decisions) + OpenGates(db.steps) == due
      && (db.run.status.RunDone? <==> Approvals(db.decisions) == due)
  {
    OpenGatesAreGatedDefs(defs);
    RunBalanced(defs, start, calls);
    RunKeeps(defs, false, start, calls);
    var db := ExecAll(Start(defs, false, start), calls);
    if AllTerminal(db.steps) {
      AllTerminalNoGates(db.steps);
    } else {
      var g :| 0 <= g < |db.steps| && db.steps[g].status.Waiting?;
      assert GateOk(db.steps[g], db.decisions);
      NoOpenGates(db.steps, g);
    }
  }

  lemma {:induction false} NothingReopened(ds: seq<Decision>)
    requires forall d :: d in ds ==> d.Approved?
    ensures Reopened(ds) == 0
  {
    if ds != [] {
      assert ds[|ds| - 1] in ds;
      NothingReopened(ds[..|ds| - 1]);
    }
  }

  /** A run without request-changes finishes after exactly as many approvals as it has enabled gates. */
  lemma ExactlyOneApprovalPerGate(defs: seq<StepDef>, start: Time, calls: seq<Call>)
    requires UniqueIds(InitialSteps(defs)) && YoloOff(calls)
    requires forall d :: d in ExecAll(Start(defs, false, start), calls).decisions ==> d.Approved?
    ensures var db := ExecAll(Start(defs, false, start), calls);
      && Approvals(db.decisions) <= GatedDefs(defs)
      && (db.run.status.RunDone? <==> Approvals(db.decisions) == GatedDefs(defs))
  {
    ApprovalsConserved(defs, start, calls);
    NothingReopened(ExecAll(Start(defs, false, start), calls).decisions);
  }

  // ---- how many steps wait --------------------------------------------------------------

  ghost predicate AtMostOneWaits(steps: seq<Step>) {
    forall i, j :: 0 <= i < j < |steps| ==> !(steps[i].status.Waiting? && steps[j].status.Waiting?)
  }

  ghost predicate OnlyGatedWait(steps: seq<Step>) {
    forall i :: 0 <= i < |steps| && steps[i].status.Waiting? ==> steps[i].requiresApproval
  }

  /** The request asks for changes on a finished gated step while a later one waits. */
  ghost predicate ReopensBehindGate(db: Db, op: Op) {
    && op.RequestChanges? && Accepts(db, op)
    && ReopensAt(db.steps, Find(db.steps, op.stepId))
  }

  ghost predicate ReopensAt(steps: seq<Step>, k: nat)
    requires k < |steps|
  {
    && steps[k].status.Done? && steps[k].requiresApproval
    && exists j :: k < j < |steps| && steps[j].status.Waiting?
  }

  /** Progress with YOLO off: the steps that wait after it are the first gate and whatever waited behind it. */
  lemma WaitingAfterProgress(db: Db, now: Time)
    requires UniqueIds(db.steps)
    ensures var steps := Progress(db, false, now).steps;
      && |steps| == |db.steps|
      && forall i :: 0 <= i < |steps| ==>
           (steps[i].status.Waiting? <==>
            i == Gate(db.steps, false) || (i > Gate(db.steps, false) && db.steps[i].status.Waiting?))
  {
    ProgressIs(db, false, now);
  }

  lemma GateIsFirst(steps: seq<Step>, g: nat)
    requires g <= |steps| && (g < |steps| ==> Blocks(steps[g], false))
    requires forall i :: 0 <= i < g ==> !Blocks(steps[i], false)
    ensures Gate(steps, false) == g
  {
    var h := Gate(steps, false);
    assert h >= g;
  }

  /** Where progress stops in a settled run: at its first waiting step, or nowhere. */
  lemma SettledGate(db: Db)
    requires Settled(db)
    ensures var g := Gate(db.steps, false);
      && (g < |db.steps| <==> !AllTerminal(db.steps))
      && (g < |db.steps| ==> db.steps[g].status.Waiting?)
      && forall i :: 0 <= i < g ==> db.steps[i].status.Terminal()
  {
    if AllTerminal(db.steps) {
      GateIsFirst(db.steps, |db.steps|);
    } else {
      var g :| 0 <= g < |db.steps| && db.steps[g].status.Waiting?
        && forall i :: 0 <= i < g ==> db.steps[i].status.Terminal();
      GateIsFirst(db.steps, g);
    }
  }

  lemma ApprovalKeepsOneWaiting(db: Db, c: Call)
    requires UniqueIds(db.steps) && c.op.Approve? && Accepts(db, c.op) && !c.wfYolo
    requires AtMostOneWaits(db.steps)
    ensures AtMostOneWaits(Exec(db, c).steps)
  {
    var d := DecideRows(db, c.op, c.now);
    var mid, k := Decide(db, c.op, c.now), Find(db.steps, c.op.stepId);
    forall i | 0 <= i < |mid.steps| ensures !mid.steps[i].status.Waiting? {
      if i != k { assert db.steps[i].id != db.steps[k].id && mid.steps[i] == db.steps[i]; }
    }
    WaitingAfterProgress(mid, c.later);
  }

  /** `mid` is `steps` with row k reset. */
  ghost predicate ResetAt(steps: seq<Step>, mid: seq<Step>, k: nat) {
    && k < |steps| == |mid|
    && (steps[k].status.Waiting? || steps[k].status.Done?)
    && mid[k].status.Pending? && mid[k].requiresApproval == steps[k].requiresApproval
    && forall i :: 0 <= i < |steps| && i != k ==> mid[i] == steps[i]
  }

  lemma ResetMovesGate(steps: seq<Step>, mid: seq<Step>, k: nat, g: nat)
    requires ResetAt(steps, mid, k) && g <= |steps| && OnlyGatedWait(steps)
    requires g < |steps| ==> steps[g].status.Waiting?
    requires forall i :: 0 <= i < g ==> steps[i].status.Terminal()
    ensures Gate(mid, false) == if steps[k].requiresApproval && k <= g then k else g
  {
    GateIsFirst(mid, if steps[k].requiresApproval && k <= g then k else g);
  }

  /** Behind the gate that progress stops at after the reset, another step waits only if k was re-opened in front of
      it. */
  lemma ResetWaits(steps: seq<Step>, mid: seq<Step>, after: seq<Step>, k: nat, g: nat)
    requires ResetAt(steps, mid, k) && g <= |steps| == |after| && AtMostOneWaits(steps)
    requires g < |steps| ==> steps[g].status.Waiting?
    requires forall i :: 0 <= i < g ==> steps[i].status.Terminal()
    requires var h := if steps[k].requiresApproval && k <= g then k else g;
      forall i :: 0 <= i < |after| ==> (after[i].status.Waiting? <==> i == h || (i > h && mid[i].status.Waiting?))
    ensures AtMostOneWaits(after) <==> !ReopensAt(steps, k)
  {
    if ReopensAt(steps, k) {
      var j :| k < j < |steps| && steps[j].status.Waiting?;
      assert after[k].status.Waiting? && after[j].status.Waiting?;
    }
  }

  lemma ResetRow(db: Db, c: Call)
    requires UniqueIds(db.steps) && c.op.RequestChanges? && Accepts(db, c.op)
    ensures ResetAt(db.steps, Decide(db, c.op, c.now).steps, Find(db.steps, c.op.stepId))
    ensures SameShape(db.steps, Decide(db, c.op, c.now).steps)
  {
    var d := DecideRows(db, c.op, c.now);
    var mid, k := Decide(db, c.op, c.now), Find(db.steps, c.op.stepId);
    forall i | 0 <= i < |mid.steps| && i != k ensures mid.steps[i] == db.steps[i] {
      assert db.steps[i].id != db.steps[k].id && DecidedRow(db.steps[i], mid.steps[i], d, c.now);
    }
    assert DecidedRow(db.steps[k], mid.steps[k], d, c.now);
  }

  lemma RejectionWaits(db: Db, c: Call)
    requires UniqueIds(db.steps) && Settled(db) && c.op.RequestChanges? && Accepts(db, c.op) && !c.wfYolo
    requires OnlyGatedWait(db.steps) && AtMostOneWaits(db.steps)
    ensures AtMostOneWaits(Exec(db, c).steps) <==> !ReopensAt(db.steps, Find(db.steps, c.op.stepId))
  {
    var mid, k, g := Decide(db, c.op, c.now), Find(db.steps, c.op.stepId), Gate(db.steps, false);
    ResetRow(db, c);
    SettledGate(db);
    ResetMovesGate(db.steps, mid.steps, k, g);
    WaitingAfterProgress(mid, c.later);
    ResetWaits(db.steps, mid.steps, Exec(db, c).steps, k, g);
  }

  /** Progress with the workflow's YOLO flag on leaves no step open. */
  lemma YoloFinishesAll(db: Db, now: Time)
    requires UniqueIds(db.steps)
    ensures AllTerminal(Progress(db, true, now).steps)
  {
    ProgressIs(db, true, now);
    var g := Gate(db.steps, true);
  }

  lemma NoneWaits(steps: seq<Step>)
    requires AllTerminal(steps)
    ensures AtMostOneWaits(steps) && OnlyGatedWait(steps)
  {}

  /** From a settled run with one waiting step at most, which is gated, a call leaves at most one step waiting if and
      only if the workflow's YOLO flag is on or the call does not re-open a finished gate in front of a waiting one. */
  lemma OneWaitsExactlyWhen(db: Db, c: Call)
    requires UniqueIds(db.steps) && Settled(db)
    requires OnlyGatedWait(db.steps) && AtMostOneWaits(db.steps)
    ensures AtMostOneWaits(Exec(db, c).steps) <==> c.wfYolo || !ReopensBehindGate(db, c.op)
  {
    if Accepts(db, c.op) && c.op != Toggle(false) {
      if c.wfYolo {
        YoloAfterCall(db, c);
      } else {
        match c.op
        case Approve(_) => ApprovalKeepsOneWaiting(db, c);
        case RequestChanges(_, _) => RejectionWaits(db, c);
        case Toggle(on) => ToggleFinishesNothing(db, on, c.now, c.later);
      }
    }
  }

  lemma YoloAfterCall(db: Db, c: Call)
    requires UniqueIds(db.steps) && Accepts(db, c.op) && c.op != Toggle(false) && c.wfYolo
    ensures AtMostOneWaits(Exec(db, c).steps) && OnlyGatedWait(Exec(db, c).steps)
  {
    if !c.op.Toggle? { var d := DecideRows(db, c.op, c.now); }
    YoloFinishesAll(Decide(db, c.op, c.now), c.later);
    NoneWaits(Exec(db, c).steps);
  }

  lemma DecideKeepsOnlyGated(db: Db, op: Op, now: Time)
    requires UniqueIds(db.steps) && OnlyGatedWait(db.steps) && Accepts(db, op)
    ensures UniqueIds(Decide(db, op, now).steps) && OnlyGatedWait(Decide(db, op, now).steps)
  {
    if !op.Toggle? {
      var d := DecideRows(db, op, now);
      var steps := Decide(db, op, now).steps;
      forall i | 0 <= i < |steps| && steps[i].status.Waiting? ensures steps[i].requiresApproval {
        assert DecidedRow(db.steps[i], steps[i], d, now);
      }
    }
  }

  lemma ProgressKeepsOnlyGated(db: Db, now: Time)
    requires UniqueIds(db.steps) && OnlyGatedWait(db.steps)
    ensures OnlyGatedWait(Progress(db, false, now).steps)
  {
    ProgressIs(db, false, now);
    var steps := Progress(db, false, now).steps;
    forall i | 0 <= i < |steps| && steps[i].status.Waiting? ensures steps[i].requiresApproval {
      WaitingAfterProgress(db, now);
      if i == Gate(db.steps, false) { assert Blocks(db.steps[i], false); }
    }
  }

  /** Whatever the YOLO flags, only gated steps ever wait. */
  lemma ExecKeepsOnlyGated(db: Db, c: Call)
    requires UniqueIds(db.steps) && OnlyGatedWait(db.steps)
    ensures OnlyGatedWait(Exec(db, c).steps)
  {
    if Accepts(db, c.op) && c.op != Toggle(false) {
      if c.wfYolo {
        YoloAfterCall(db, c);
      } else {
        DecideKeepsOnlyGated(db, c.op, c.now);
        ProgressKeepsOnlyGated(Decide(db, c.op, c.now), c.later);
      }
    }
  }

  /** The run after its first n calls. */
  function Prefix(defs: seq<StepDef>, wfYolo: bool, start: Time, calls: seq<Call>, n: nat): Db
    requires n <= |calls|
  {
    ExecAll(Start(defs, wfYolo, start), calls[..n])
  }

  lemma PrefixNext(defs: seq<StepDef>, wfYolo: bool, start: Time, calls: seq<Call>, n: nat)
    requires n < |calls|
    ensures Prefix(defs, wfYolo, start, calls, n + 1) == Exec(Prefix(defs, wfYolo, start, calls, n), calls[n])
  {
    assert calls[..n + 1][..n] == calls[..n];
  }

  lemma StartWaitsOnce(defs: seq<StepDef>, wfYolo: bool, start: Time)
    requires UniqueIds(InitialSteps(defs))
    ensures AtMostOneWaits(Start(defs, wfYolo, start).steps) && OnlyGatedWait(Start(defs, wfYolo, start).steps)
  {
    if wfYolo {
      YoloFinishesAll(Inserted(defs, true), start);
      NoneWaits(Start(defs, true, start).steps);
    } else {
      WaitingAfterProgress(Inserted(defs, false), start);
      ProgressKeepsOnlyGated(Inserted(defs, false), start);
    }
  }

  lemma {:induction false} PrefixKeeps(defs: seq<StepDef>, wfYolo: bool, start: Time, calls: seq<Call>, n: nat)
    requires UniqueIds(InitialSteps(defs)) && n <= |calls|
    ensures var db := Prefix(defs, wfYolo, start, calls, n);
      UniqueIds(db.steps) && Settled(db) && OnlyGatedWait(db.steps)
  {
    RunKeeps(defs, wfYolo, start, calls[..n]);
    if n == 0 {
      assert calls[..0] == [];
      StartWaitsOnce(defs, wfYolo, start);
    } else {
      PrefixKeeps(defs, wfYolo, start, calls, n - 1);
      PrefixNext(defs, wfYolo, start, calls, n - 1);
      ExecKeepsOnlyGated(Prefix(defs, wfYolo, start, calls, n - 1), calls[n - 1]);
    }
  }

  /** Call n re-opens a finished gate in front of a waiting one, with the workflow's YOLO flag off. */
  ghost predicate ReopensAtCall(defs: seq<StepDef>, wfYolo: bool, start: Time, calls: seq<Call>, n: nat) {
    n < |calls| && !calls[n].wfYolo && ReopensBehindGate(Prefix(defs, wfYolo, start, calls, n), calls[n].op)
  }

  lemma PrefixStep(defs: seq<StepDef>, wfYolo: bool, start: Time, calls: seq<Call>, n: nat)
    requires UniqueIds(InitialSteps(defs)) && n < |calls|
    requires AtMostOneWaits(Prefix(defs, wfYolo, start, calls, n).steps)
    ensures AtMostOneWaits(Prefix(defs, wfYolo, start, calls, n + 1).steps)
      <==> !ReopensAtCall(defs, wfYolo, start, calls, n)
  {
    PrefixKeeps(defs, wfYolo, start, calls, n);
    PrefixNext(defs, wfYolo, start, calls, n);
    OneWaitsExactlyWhen(Prefix(defs, wfYolo, start, calls, n), calls[n]);
  }

  /** "At most one step waits" holds all through a run, whatever the YOLO flags, if and only if no call of it re-opens a
      finished gate in front of a waiting one with the workflow's flag off. */
  lemma OneWaitsThroughoutExactlyWhen(defs: seq<StepDef>, wfYolo: bool, start: Time, calls: seq<Call>)
    requires UniqueIds(InitialSteps(defs))
    ensures (forall n :: 0 <= n <= |calls| ==> AtMostOneWaits(Prefix(defs, wfYolo, start, calls, n).steps))
      <==> (forall n :: 0 <= n < |calls| ==> !ReopensAtCall(defs, wfYolo, start, calls, n))
  {
    if forall n :: 0 <= n <= |calls| ==> AtMostOneWaits(Prefix(defs, wfYolo, start, calls, n).steps) {
      forall n | 0 <= n < |calls| ensures !ReopensAtCall(defs, wfYolo, start, calls, n) {
        assert AtMostOneWaits(Prefix(defs, wfYolo, start, calls, n + 1).steps);
        PrefixStep(defs, wfYolo, start, calls, n);
      }
    }
    if forall n :: 0 <= n < |calls| ==> !ReopensAtCall(defs, wfYolo, start, calls, n) {
      forall n | 0 <= n <= |calls| ensures AtMostOneWaits(Prefix(defs, wfYolo, start, calls, n).steps) {
        OneWaitsUpTo(defs, wfYolo, start, calls, n);
      }
    }
  }

  lemma {:induction false} OneWaitsUpTo(defs: seq<StepDef>, wfYolo: bool, start: Time, calls: seq<Call>, n: nat)
    requires UniqueIds(InitialSteps(defs)) && n <= |calls|
    requires forall m :: 0 <= m < |calls| ==> !ReopensAtCall(defs, wfYolo, start, calls, m)
    ensures AtMostOneWaits(Prefix(defs, wfYolo, start, calls, n).steps)
  {
    if n == 0 {
      assert calls[..0] == [];
      StartWaitsOnce(defs, wfYolo, start);
    } else {
      OneWaitsUpTo(defs, wfYolo, start, calls, n - 1);
      PrefixStep(defs, wfYolo, start, calls, n - 1);
    }
  }

  /** Two enabled definitions that require approval, with ids 0 and 1. */
  predicate TwoGatedDefs(defs: seq<StepDef>) {
    && |defs| == 2 && defs[0].id == 0 && defs[1].id == 1
    && defs[0].enabled && defs[1].enabled && defs[0].requiresApproval.None? && defs[1].requiresApproval.None?
  }

  /** A run of two gated steps with ids 0 and 1. */
  ghost predicate TwoGates(db: Db) {
    && |db.steps| == 2 && db.steps[0].id == 0 && db.steps[1].id == 1
    && db.steps[0].requiresApproval && db.steps[1].requiresApproval
  }

  lemma FirstGateWaits(defs: seq<StepDef>, start: Time)
    requires TwoGatedDefs(defs)
    ensures UniqueIds(InitialSteps(defs))
    ensures var db := Start(defs, false, start);
      TwoGates(db) && db.steps[0].status.Waiting? && db.steps[1].status.Pending?
  {
    ProgressIs(Inserted(defs, false), false, start);
    GateIsFirst(InitialSteps(defs), 0);
  }

  lemma ApprovingFirst(db: Db, c: Call)
    requires TwoGates(db) && db.steps[0].status.Waiting? && db.steps[1].status.Pending?
    requires c.op == Approve(0) && !c.wfYolo
    ensures Accepts(db, c.op)
    ensures TwoGates(Exec(db, c)) && Exec(db, c).steps[0].status.Done? && Exec(db, c).steps[1].status.Waiting?
  {
    var d := DecideRows(db, c.op, c.now);
    var mid := Decide(db, c.op, c.now);
    GateIsFirst(mid.steps, 1);
    ProgressIs(mid, false, c.later);
  }

  lemma ReopeningFirst(db: Db, c: Call)
    requires TwoGates(db) && db.steps[0].status.Done? && db.steps[1].status.Waiting?
    requires c.op.RequestChanges? && c.op.stepId == 0 && !c.wfYolo
    ensures Accepts(db, c.op)
    ensures |Exec(db, c).steps| == 2
    ensures Exec(db, c).steps[0].status.Waiting? && Exec(db, c).steps[1].status.Waiting?
  {
    var d := DecideRows(db, c.op, c.now);
    var mid := Decide(db, c.op, c.now);
    GateIsFirst(mid.steps, 0);
    WaitingAfterProgress(mid, c.later);
  }

  lemma ExecTwo(db: Db, c: Call, e: Call)
    ensures ExecAll(db, [c, e]) == Exec(Exec(db, c), e)
  {
    assert [c, e][..1] == [c] && [c][..0] == [];
    assert ExecAll(db, [c]) == Exec(db, c);
  }

  lemma ReopeningTwo(defs: seq<StepDef>, start: Time, c: Call, e: Call)
    requires TwoGatedDefs(defs) && !c.wfYolo && !e.wfYolo
    requires c.op == Approve(0) && e.op.RequestChanges? && e.op.stepId == 0
    ensures UniqueIds(InitialSteps(defs))
    ensures !AtMostOneWaits(ExecAll(Start(defs, false, start), [c, e]).steps)
  {
    var db := Start(defs, false, start);
    FirstGateWaits(defs, start);
    ApprovingFirst(db, c);
    ReopeningFirst(Exec(db, c), e);
    ExecTwo(db, c, e);
  }

  lemma TwoGatesExist() returns (defs: seq<StepDef>)
    ensures TwoGatedDefs(defs)
  {
    defs := [StepDef(0, "review", true, None), StepDef(1, "release", true, None)];
  }

  lemma ApproveThenReopen() returns (c: Call, e: Call)
    ensures c.op == Approve(0) && e.op.RequestChanges? && e.op.stepId == 0
    ensures YoloOff([c, e]) && Ordered(0, [c, e]) && !c.wfYolo && !e.wfYolo
  {
    c, e := Call(Approve(0), false, 1, 1), Call(RequestChanges(0, "again"), false, 2, 2);
  }

  /** From the start, with the clock in order: approving the first of two gates and then requesting changes on it
      leaves both waiting. */
  lemma ReopeningWaitsTwice() returns (defs: seq<StepDef>, calls: seq<Call>)
    ensures UniqueIds(InitialSteps(defs)) && YoloOff(calls) && Ordered(0, calls)
    ensures !AtMostOneWaits(ExecAll(Start(defs, false, 0), calls).steps)
  {
    defs := TwoGatesExist();
    var c, e := ApproveThenReopen();
    calls := [c, e];
    ReopeningTwo(defs, 0, c, e);
  }

  // ---- the run's own YOLO flag -------------------------------------------------------------

  /** Toggling a run's YOLO flag never finishes a step by itself: planning reads the workflow's flag instead. */
  lemma ToggleFinishesNothing(db: Db, on: bool, now: Time, later: Time)
    requires UniqueIds(db.steps) && Settled(db)
    ensures Exec(db, Call(Toggle(on), false, now, later)).steps == db.steps
  {
    if on {
      ProgressIs(Decide(db, Toggle(on), now), false, later);
      SettledGate(db);
      assert Progressed(db.steps, false, later) == db.steps;
    }
  }

  /** Toggling a run's YOLO flag on finishes the run if and only if the workflow's own flag is on or nothing was left
      to do; with the workflow's flag on it leaves no step open. */
  lemma ToggleFinishesExactlyWhen(db: Db, wfYolo: bool, now: Time, later: Time)
    requires UniqueIds(db.steps) && Settled(db)
    ensures var after := Exec(db, Call(Toggle(true), wfYolo, now, later));
      && (after.run.status.RunDone? <==> wfYolo || AllTerminal(db.steps))
      && (wfYolo ==> AllTerminal(after.steps))
      && (!wfYolo ==> after.steps == db.steps)
  {
    var mid := Decide(db, Toggle(true), now);
    PlanReportsGate(mid.steps, wfYolo, later);
    ProgressIs(mid, wfYolo, later);
    if wfYolo {
      var g := Gate(db.steps, true);
    } else {
      SettledGate(db);
      ToggleFinishesNothing(db, true, now, later);
    }
  }

  /** A run that toggling on leaves open: it has just started, with two gates, and the workflow's flag is off. */
  lemma ToggleLeavesOpen() returns (defs: seq<StepDef>)
    ensures UniqueIds(InitialSteps(defs))
    ensures var after := Exec(Start(defs, false, 0), Call(Toggle(true), false, 1, 1));
      after.run.yolo && after.run.status.RunRunning?
  {
    defs := TwoGatesExist();
    FirstGateWaits(defs, 0);
    StartKeeps(defs, false, 0);
    ToggleFinishesExactlyWhen(Start(defs, false, 0), false, 1, 1);
  }
}
