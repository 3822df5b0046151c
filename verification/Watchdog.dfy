/** The stall watchdog of scripts/watch_vibe_run.py: when it nudges a run, which notes it drafts and when it dies, over
    every sequence of polls. */
module Watchdog {
  import opened Text
  import opened Wrappers

  type Time = int

  /** One step of the run: `id` is its stepId and `name` its nodeId, or stepId if it has none. */
  datatype StepView = StepView(id: string, name: string, status: string, retryCount: int, rejected: bool)

  /** progress_watermark: the run status, the timeline cursor and the steps' (id, status, retries), in any order. */
  datatype Watermark = Watermark(status: string, nextSeq: int, steps: multiset<(string, string, int)>)

  /** The signature under which a note is drafted. */
  datatype Signature =
    | TerminalNote(status: string)
    | StepFailed(name: string)
    | StepRetry(name: string, retryCount: int)
    | StepReject(name: string)
    | Attention(kinds: string)
    | WorktreeFlag(status: string)
    | GateStall(status: string)
    | Hang(status: string)
    | Outage

  datatype Config = Config(hangMinutes: int, noAct: bool)

  /** Where a cycle raises outside its notes: while it reads, up to the watermark (by then `chatSeqs` have been seen);
      behind the watermark, up to the poll's log line; or at its last log line. */
  datatype Stop = Nowhere | Reading | PollLine | LastLine

  /** What raises in a cycle: a statement outside the notes, the drafting of these notes, the log lines behind these
      notes, and the log line of the exception handler. */
  datatype Faults = Faults(stop: Stop, drafts: set<Signature>, noteLines: set<Signature>, handlerLine: bool) {
    predicate StopsEarly() { stop.Reading? || stop.PollLine? }
  }

  /** What one poll sees.  `attention` is the joined list of kinds, if there are dispatch-attention items. */
  datatype View = View(
    status: string, steps: seq<StepView>, chatSeqs: seq<int>, attention: Option<string>, redWorktree: bool,
    gatePending: bool, now: Time, faults: Faults)

  /** A poll either is told that it cannot have the run, which includes an unreachable runner, or reads on. */
  datatype Poll = Unreadable | Seen(view: View)

  datatype End = Going | Finished | Crashed

  datatype State = State(
    lastSeq: int, lastProgress: Option<Watermark>, lastProgressAt: Time, actedResume: bool, actedContinue: bool,
    drafted: set<Signature>,
    files: seq<Signature>,     // the note files written so far
    consecErrors: nat, outageNoted: bool,
    end: End)

  datatype Act = NoAct | Resume | Continue

  const TERMINAL: set<string> := {"completed", "failed", "cancelled"}
  const HUMAN_GATE_STATUSES: set<string> :=
    {"waiting_approval", "waiting_user_approval", "waiting_question", "blocked"}

  function Init(): State { State(0, None, 0, false, false, {}, [], 0, false, Going) }

  function MaxOf(m: int, xs: seq<int>): (r: int)
    ensures r >= m
    ensures forall i :: 0 <= i < |xs| ==> xs[i] <= r
    ensures r == m || r in xs
    decreases |xs|
  {
    if xs == [] then m else MaxOf(if xs[0] > m then xs[0] else m, xs[1..])
  }

  // ---- progress ----------------------------------------------------------------------

  function StepMarks(steps: seq<StepView>): multiset<(string, string, int)> {
    if steps == [] then multiset{}
    else StepMarks(steps[..|steps| - 1]) +
         multiset{(steps[|steps| - 1].id, steps[|steps| - 1].status, steps[|steps| - 1].retryCount)}
  }

  function MarkOf(s: State, v: View): Watermark {
    Watermark(v.status, MaxOf(s.lastSeq, v.chatSeqs), StepMarks(v.steps))
  }

  predicate Progressed(s: State, p: Poll) {
    s.end.Going? && p.Seen? && !p.view.faults.stop.Reading? && s.lastProgress != Some(MarkOf(s, p.view))
  }

  /** The state after the cursor and, if the cycle gets there, the watermark have been taken in. */
  function Noticed(s: State, v: View): State {
    var t := s.(lastSeq := MaxOf(s.lastSeq, v.chatSeqs));
    if !v.faults.stop.Reading? && s.lastProgress != Some(MarkOf(s, v))
    then t.(lastProgress := Some(MarkOf(s, v)), lastProgressAt := v.now, actedResume := false, actedContinue := false)
    else t
  }

  /** The variables of the current stall are the same. */
  predicate SameFlags(s: State, t: State) {
    && s.lastProgress == t.lastProgress && s.lastProgressAt == t.lastProgressAt
    && s.actedResume == t.actedResume && s.actedContinue == t.actedContinue
  }

  /** now - (last_progress_at or now): a zero timestamp counts as missing. */
  function Idle(t: State, v: View): Time { if t.lastProgressAt == 0 then 0 else v.now - t.lastProgressAt }

  predicate HumanGate(v: View) { v.gatePending || v.status in HUMAN_GATE_STATUSES }

  // ---- notes ---------------------------------------------------------------------------

  function StepNotes(steps: seq<StepView>): seq<Signature> {
    if steps == [] then [] else StepNote(steps[0]) + StepNotes(steps[1..])
  }

  function StepNote(s: StepView): seq<Signature> {
    if s.status == "FAILED" then [StepFailed(s.name)]
    else if s.retryCount >= 5 then [StepRetry(s.name, s.retryCount)]
    else if s.rejected && s.status != "DONE" then [StepReject(s.name)]
    else []
  }

  function HangNotes(c: Config, t: State, v: View): seq<Signature> {
    if Idle(t, v) < c.hangMinutes * 60 then []
    else if !HumanGate(v) then [Hang(v.status)]
    else if Idle(t, v) >= 2 * c.hangMinutes * 60 then [GateStall(v.status)]
    else []
  }

  /** What a cycle wants noted, in order; a terminal run is noted, unless completed, and nothing else. */
  function Notes(c: Config, t: State, v: View): seq<Signature> {
    if v.status in TERMINAL then TerminalNotes(v) else OpenNotes(c, t, v)
  }

  function TerminalNotes(v: View): seq<Signature> {
    if v.status == "completed" then [] else [TerminalNote(v.status)]
  }

  function OpenNotes(c: Config, t: State, v: View): seq<Signature> {
    StepNotes(v.steps) + RunNotes(c, t, v)
  }

  function RunNotes(c: Config, t: State, v: View): seq<Signature> {
    (if v.attention.Some? then [Attention(v.attention.value)] else [])
    + ((if v.redWorktree then [WorktreeFlag(v.status)] else []) + HangNotes(c, t, v))
  }

  /** The signatures noted so far, the files written, and whether drafting has raised. */
  datatype Drafts = Drafts(drafted: set<Signature>, files: seq<Signature>, raised: bool)

  function DraftOne(d: Drafts, sig: Signature, faults: Faults): Drafts {
    if d.raised || sig in d.drafted then d
    else if sig in faults.drafts then d.(raised := true)
    else Drafts(d.drafted + {sig}, d.files + [sig], sig in faults.noteLines)
  }

  /** Notes are drafted in order until one raises. */
  function Draft(d: Drafts, sigs: seq<Signature>, faults: Faults): Drafts {
    if sigs == [] then d
    else DraftOne(Draft(d, sigs[..|sigs| - 1], faults), sigs[|sigs| - 1], faults)
  }

  lemma {:induction false} DraftSplit(d: Drafts, a: seq<Signature>, b: seq<Signature>, faults: Faults)
    ensures Draft(d, a + b, faults) == Draft(Draft(d, a, faults), b, faults)
  {
    if b == [] {
      assert a + b == a;
    } else {
      assert (a + b)[..|a + b| - 1] == a + b[..|b| - 1];
      DraftSplit(d, a, b[..|b| - 1], faults);
    }
  }

  lemma {:induction false} RaisedStays(d: Drafts, sigs: seq<Signature>, faults: Faults)
    requires d.raised
    ensures Draft(d, sigs, faults) == d
  {
    if sigs != [] { RaisedStays(d, sigs[..|sigs| - 1], faults); }
  }

  lemma DraftSingle(d: Drafts, sig: Signature, faults: Faults)
    ensures Draft(d, [sig], faults) == DraftOne(d, sig, faults)
  {
    assert [sig][..0] == [];
  }

  // ---- one cycle -----------------------------------------------------------------------

  function DraftsOf(s: State): Drafts { Drafts(s.drafted, s.files, false) }

  function Drafting(c: Config, s: State, v: View): Drafts {
    if v.faults.StopsEarly() then DraftsOf(s).(raised := true)
    else Draft(DraftsOf(s), Notes(c, Noticed(s, v), v), v.faults)
  }

  lemma DraftingOpen(c: Config, s: State, v: View)
    requires v.status !in TERMINAL && !v.faults.StopsEarly()
    ensures Drafting(c, s, v) == Draft(DraftsOf(s), OpenNotes(c, Noticed(s, v), v), v.faults)
  {}

  /** Everything a nudge requires except that one is left. */
  predicate MayNudge(c: Config, t: State, v: View) {
    && v.status == "running" && !HumanGate(v) && !c.noAct
    && Idle(t, v) >= c.hangMinutes * 60
  }

  function ActOf(c: Config, s: State, p: Poll): Act {
    if !s.end.Going? || p.Unreadable? || Drafting(c, s, p.view).raised then NoAct
    else NudgeOf(c, Noticed(s, p.view), p.view)
  }

  function NudgeOf(c: Config, t: State, v: View): Act {
    if MayNudge(c, t, v) then NudgeLeft(t.actedResume, t.actedContinue) else NoAct
  }

  function NudgeLeft(resumed: bool, continued: bool): Act {
    if !resumed then Resume else if !continued then Continue else NoAct
  }

  /** A cycle ends with a log line when it saw a completed run, waits for a human, or has posted a nudge. */
  predicate WritesLastLine(c: Config, t: State, v: View) {
    if v.status in TERMINAL then v.status == "completed"
    else if Idle(t, v) < c.hangMinutes * 60 then false
    else if HumanGate(v) then Idle(t, v) < 2 * c.hangMinutes * 60
    else !NudgeOf(c, t, v).NoAct?
  }

  predicate Raises(c: Config, s: State, p: Poll) {
    && s.end.Going? && p.Seen?
    && (Drafting(c, s, p.view).raised || LastLineRaises(c, Noticed(s, p.view), p.view))
  }

  predicate LastLineRaises(c: Config, t: State, v: View) { v.faults.stop.LastLine? && WritesLastLine(c, t, v) }

  /** `t` once the notes have been drafted and the nudge posted. */
  function Left(t: State, d: Drafts, a: Act): State {
    t.(drafted := d.drafted, files := d.files,
       actedResume := t.actedResume || a.Resume?, actedContinue := t.actedContinue || a.Continue?)
  }

  /** poll_once, whether or not it raises. */
  function Polled(c: Config, s: State, v: View): State {
    Left(Noticed(s, v), Drafting(c, s, v), ActOf(c, s, Seen(v)))
  }

  /** The exception handler of the cycle: it logs, and the fourth error in a row drafts the outage note.  Nothing
      catches what it raises itself. */
  function OnError(s: State, faults: Faults): State {
    var t := s.(consecErrors := s.consecErrors + 1);
    if faults.handlerLine then t.(end := Crashed)
    else if t.consecErrors < 4 || t.outageNoted then t
    else
      var d := DraftOne(DraftsOf(t), Outage, faults);
      t.(outageNoted := true, drafted := d.drafted, files := d.files, end := if d.raised then Crashed else Going)
  }

  function Next(c: Config, s: State, p: Poll): State {
    if !s.end.Going? then s
    else if p.Unreadable? then s.(consecErrors := 0, outageNoted := false)
    else if Raises(c, s, p) then OnError(Polled(c, s, p.view), p.view.faults)
    else Polled(c, s, p.view).(consecErrors := 0, outageNoted := false,
                               end := if p.view.status in TERMINAL then Finished else Going)
  }

  class Watcher {
    var lastSeq: int
    var lastProgress: Option<Watermark>
    var lastProgressAt: Time
    var actedResume: bool
    var actedContinue: bool
    var drafted: set<Signature>
    var files: seq<Signature>
    var consecErrors: nat
    var outageNoted: bool
    var end: End

    ghost function View(): State
      reads this
    {
      State(lastSeq, lastProgress, lastProgressAt, actedResume, actedContinue, drafted, files, consecErrors,
            outageNoted, end)
    }

    constructor ()
      ensures View() == Init()
    {
      lastSeq, lastProgress, lastProgressAt, actedResume, actedContinue := 0, None, 0, false, false;
      drafted, files, consecErrors, outageNoted, end := {}, [], 0, false, Going;
    }

    /** guarded_cycle and the loop around it. */
    method GuardedCycle(c: Config, p: Poll) returns (act: Act)
      requires end.Going?
      modifies this
      ensures View() == Next(c, old(View()), p)
      ensures act == ActOf(c, old(View()), p)
    {
      if p.Unreadable? {
        consecErrors, outageNoted := 0, false;
        return NoAct;
      }
      var done, raised;
      act, done, raised := PollOnce(c, p.view);
      if !raised {
        consecErrors, outageNoted := 0, false;
        if done { end := Finished; }
        return;
      }
      HandleError(p.view.faults);
    }

    /** The exception handler of guarded_cycle. */
    method HandleError(faults: Faults)
      requires end.Going?
      modifies this`consecErrors, this`outageNoted, this`drafted, this`files, this`end
      ensures View() == OnError(old(View()), faults)
    {
      consecErrors := consecErrors + 1;
      if faults.handlerLine {
        end := Crashed;
        return;
      }
      if consecErrors >= 4 && !outageNoted {
        outageNoted := true;
        var died := Note(Outage, faults);
        if died { end := Crashed; }
      }
    }

    /** One cycle: the notes in order, then the nudge.  Whatever raises ends it. */
    method PollOnce(c: Config, v: View) returns (act: Act, done: bool, raised: bool)
      requires end.Going?
      modifies this
      ensures View() == Polled(c, old(View()), v)
      ensures act == ActOf(c, old(View()), Seen(v))
      ensures raised == Raises(c, old(View()), Seen(v))
      ensures !raised ==> (done <==> v.status in TERMINAL)
    {
      act, done := NoAct, false;
      ghost var s := View();
      var stopped := Notice(v);
      if stopped { return NoAct, false, true; }
      if v.status in TERMINAL {
        raised := NoteTerminal(v);
        done := !raised;
      } else {
        DraftingOpen(c, s, v);
        act, raised := PollOpen(c, v);
      }
    }

    /** The rest of the cycle for a run that is not terminal. */
    method PollOpen(c: Config, v: View) returns (act: Act, raised: bool)
      requires v.status !in TERMINAL
      modifies this`actedResume, this`actedContinue, this`drafted, this`files
      ensures actedResume == (old(actedResume) || act.Resume?)
      ensures actedContinue == (old(actedContinue) || act.Continue?)
      ensures var d := Draft(old(Noted(false)), OpenNotes(c, old(View()), v), v.faults);
        && Noted(d.raised) == d
        && raised == (d.raised || LastLineRaises(c, old(View()), v))
        && act == if d.raised then NoAct else NudgeOf(c, old(View()), v)
    {
      var idle := if lastProgressAt == 0 then 0 else v.now - lastProgressAt;
      var humanGate := v.gatePending || v.status in HUMAN_GATE_STATUSES;
      act := NoAct;
      raised := NoteAnomalies(v, idle, humanGate, c, View());
      if raised || idle < c.hangMinutes * 60 { return; }
      if humanGate {
        raised := idle < 2 * c.hangMinutes * 60 && v.faults.stop.LastLine?;
      } else if !c.noAct && v.status == "running" {
        act := Nudge();
        raised := !act.NoAct? && v.faults.stop.LastLine?;
      }
    }

    /** The safe nudge that is left in this stall, if any. */
    method Nudge() returns (act: Act)
      modifies this`actedResume, this`actedContinue
      ensures act == NudgeLeft(old(actedResume), old(actedContinue))
      ensures actedResume == (old(actedResume) || act.Resume?)
      ensures actedContinue == (old(actedContinue) || act.Continue?)
    {
      act := NoAct;
      if !actedResume {
        actedResume := true;
        act := Resume;
      } else if !actedContinue {
        actedContinue := true;
        act := Continue;
      }
    }

    /** The cursor, the watermark and the poll's log line. */
    method Notice(v: View) returns (stopped: bool)
      modifies this`lastSeq, this`lastProgress, this`lastProgressAt, this`actedResume, this`actedContinue
      ensures View() == Noticed(old(View()), v)
      ensures stopped == v.faults.StopsEarly()
    {
      TakeSeqs(v.chatSeqs);
      if v.faults.stop.Reading? { return true; }
      var mark := Watermark(v.status, lastSeq, StepMarks(v.steps));
      if lastProgress != Some(mark) {
        lastProgress, lastProgressAt := Some(mark), v.now;
        actedResume, actedContinue := false, false;
      }
      return v.faults.stop.PollLine?;
    }

    /** The timeline cursor: it only moves forward, to the largest number seen. */
    method TakeSeqs(seqs: seq<int>)
      modifies this`lastSeq
      ensures lastSeq == MaxOf(old(lastSeq), seqs)
    {
      assert seqs[0..] == seqs;
      for i := 0 to |seqs|
        invariant MaxOf(lastSeq, seqs[i..]) == MaxOf(old(lastSeq), seqs)
      {
        assert seqs[i..][1..] == seqs[i + 1..];
        if seqs[i] > lastSeq {
          lastSeq := seqs[i];
        }
      }
    }

    ghost function Noted(raised: bool): Drafts
      reads this
    {
      Drafts(drafted, files, raised)
    }

    /** note(): one file a signature. */
    method Note(sig: Signature, faults: Faults) returns (raised: bool)
      modifies this`drafted, this`files
      ensures Noted(raised) == DraftOne(old(Noted(false)), sig, faults)
    {
      if sig in drafted { return false; }
      if sig in faults.drafts { return true; }
      drafted, files := drafted + {sig}, files + [sig];
      return sig in faults.noteLines;
    }

    method NoteTerminal(v: View) returns (raised: bool)
      modifies this`drafted, this`files
      ensures var d := Draft(old(Noted(false)), TerminalNotes(v), v.faults);
        && Noted(d.raised) == d
        && raised == (d.raised || (v.faults.stop.LastLine? && v.status == "completed"))
    {
      if v.status == "completed" { return v.faults.stop.LastLine?; }
      DraftSingle(Noted(false), TerminalNote(v.status), v.faults);
      raised := Note(TerminalNote(v.status), v.faults);
    }

    method NoteSteps(steps: seq<StepView>, faults: Faults) returns (raised: bool)
      modifies this`drafted, this`files
      ensures Noted(raised) == Draft(old(Noted(false)), StepNotes(steps), faults)
    {
      raised := false;
      ghost var goal := Draft(Noted(false), StepNotes(steps), faults);
      assert steps[0..] == steps;
      for i := 0 to |steps|
        invariant !raised && goal == Draft(Noted(false), StepNotes(steps[i..]), faults)
      {
        ghost var before := Noted(false);
        assert steps[i..][1..] == steps[i + 1..];
        DraftSplit(before, StepNote(steps[i]), StepNotes(steps[i + 1..]), faults);
        raised := NoteStep(steps[i], faults);
        if raised {
          RaisedStays(Noted(true), StepNotes(steps[i + 1..]), faults);
          return;
        }
      }
    }

    method NoteStep(s: StepView, faults: Faults) returns (raised: bool)
      modifies this`drafted, this`files
      ensures Noted(raised) == Draft(old(Noted(false)), StepNote(s), faults)
    {
      if s.status == "FAILED" {
        DraftSingle(Noted(false), StepFailed(s.name), faults);
        raised := Note(StepFailed(s.name), faults);
      } else if s.retryCount >= 5 {
        DraftSingle(Noted(false), StepRetry(s.name, s.retryCount), faults);
        raised := Note(StepRetry(s.name, s.retryCount), faults);
      } else if s.rejected && s.status != "DONE" {
        DraftSingle(Noted(false), StepReject(s.name), faults);
        raised := Note(StepReject(s.name), faults);
      } else {
        raised := false;
      }
    }

    /** note() behind an `if`. */
    method NoteIf(wanted: bool, sig: Signature, faults: Faults) returns (raised: bool)
      modifies this`drafted, this`files
      ensures Noted(raised) == Draft(old(Noted(false)), if wanted then [sig] else [], faults)
    {
      if !wanted { return false; }
      DraftSingle(Noted(false), sig, faults);
      raised := Note(sig, faults);
    }

    /** Steps, dispatch attention, worktree, hang: each note only if the ones before it did not raise. */
    method NoteAnomalies(v: View, idle: Time, humanGate: bool, c: Config, ghost t: State) returns (raised: bool)
      requires idle == Idle(t, v) && humanGate == HumanGate(v)
      modifies this`drafted, this`files
      ensures Noted(raised) == Draft(old(Noted(false)), OpenNotes(c, t, v), v.faults)
    {
      ghost var hang := HangNotes(c, t, v);
      ghost var worktree := (if v.redWorktree then [WorktreeFlag(v.status)] else []) + hang;
      ghost var attention := (if v.attention.Some? then [Attention(v.attention.value)] else []) + worktree;
      DraftSplit(Noted(false), StepNotes(v.steps), attention, v.faults);
      raised := NoteSteps(v.steps, v.faults);
      if raised {
        RaisedStays(Noted(true), attention, v.faults);
        return;
      }
      if v.attention.Some? {
        DraftSplit(Noted(false), [Attention(v.attention.value)], worktree, v.faults);
        raised := NoteIf(true, Attention(v.attention.value), v.faults);
        if raised {
          RaisedStays(Noted(true), worktree, v.faults);
          return;
        }
      } else {
        assert attention == worktree;
      }
      DraftSplit(Noted(false), if v.redWorktree then [WorktreeFlag(v.status)] else [], hang, v.faults);
      raised := NoteIf(v.redWorktree, WorktreeFlag(v.status), v.faults);
      if raised {
        RaisedStays(Noted(true), hang, v.faults);
        return;
      }
      if idle >= c.hangMinutes * 60 {
        if humanGate {
          raised := NoteIf(idle >= 2 * c.hangMinutes * 60, GateStall(v.status), v.faults);
        } else {
          raised := NoteIf(true, Hang(v.status), v.faults);
        }
      }
    }
  }

  // ---- whole watches ------------------------------------------------------------------

  function After(c: Config, ps: seq<Poll>): State {
    if ps == [] then Init() else Next(c, After(c, ps[..|ps| - 1]), ps[|ps| - 1])
  }

  /** The state before poll j. */
  function Before(c: Config, ps: seq<Poll>, j: nat): State
    requires j <= |ps|
  {
    After(c, ps[..j])
  }

  lemma BeforeNext(c: Config, ps: seq<Poll>, j: nat)
    requires j < |ps|
    ensures Before(c, ps, j + 1) == Next(c, Before(c, ps, j), ps[j])
  {
    assert ps[..j + 1][..j] == ps[..j];
  }

  lemma BeforeFirst(c: Config, ps: seq<Poll>)
    ensures Before(c, ps, 0) == Init()
  {
    assert ps[..0] == [];
  }

  /** What poll i of the watch does. */
  function ActAt(c: Config, ps: seq<Poll>, i: nat): Act
    requires i < |ps|
  {
    ActOf(c, Before(c, ps, i), ps[i])
  }

  predicate ProgressAt(c: Config, ps: seq<Poll>, i: nat)
    requires i < |ps|
  {
    Progressed(Before(c, ps, i), ps[i])
  }

  /** The state after one poll as far as the current stall goes, given what the poll posted. */
  function Flagged(s: State, p: Poll, a: Act): State {
    var t := if Progressed(s, p) then Noticed(s, p.view) else s;
    t.(actedResume := t.actedResume || a.Resume?, actedContinue := t.actedContinue || a.Continue?)
  }

  lemma OnErrorKeepsFlags(s: State, faults: Faults)
    ensures SameFlags(OnError(s, faults), s)
  {}

  /** What one poll leaves of the nudge flags and the watermark. */
  lemma NextFlags(c: Config, s: State, p: Poll)
    ensures SameFlags(Next(c, s, p), Flagged(s, p, ActOf(c, s, p)))
  {
    if s.end.Going? && p.Seen? {
      assert SameFlags(Polled(c, s, p.view), Flagged(s, p, ActOf(c, s, p)));
      OnErrorKeepsFlags(Polled(c, s, p.view), p.view.faults);
    }
  }

  lemma ActNeeds(c: Config, s: State, p: Poll)
    ensures var a := ActOf(c, s, p);
      && (a.Resume? ==> Progressed(s, p) || !s.actedResume)
      && (a.Continue? ==> !Progressed(s, p) && s.actedResume && !s.actedContinue)
      && (!a.NoAct? ==>
            s.end.Going? && p.Seen? && !p.view.faults.StopsEarly() && MayNudge(c, Noticed(s, p.view), p.view))
  {}

  /** What poll j does to the flags and what it needed to post its nudge. */
  lemma FlagsAt(c: Config, ps: seq<Poll>, j: nat)
    requires j < |ps|
    ensures var s, t, a := Before(c, ps, j), Before(c, ps, j + 1), ActAt(c, ps, j);
      && t.actedResume == ((s.actedResume && !ProgressAt(c, ps, j)) || a.Resume?)
      && t.actedContinue == ((s.actedContinue && !ProgressAt(c, ps, j)) || a.Continue?)
      && (a.Resume? ==> ProgressAt(c, ps, j) || !s.actedResume)
      && (a.Continue? ==> !ProgressAt(c, ps, j) && s.actedResume && !s.actedContinue)
  {
    BeforeNext(c, ps, j);
    NextFlags(c, Before(c, ps, j), ps[j]);
    ActNeeds(c, Before(c, ps, j), ps[j]);
  }

  lemma MoveAt(c: Config, ps: seq<Poll>, j: nat)
    requires j < |ps|
    ensures var s, t := Before(c, ps, j), Before(c, ps, j + 1);
      if ProgressAt(c, ps, j) then t.lastProgress.Some? && t.lastProgressAt == ps[j].view.now
      else t.lastProgress == s.lastProgress && t.lastProgressAt == s.lastProgressAt
  {
    BeforeNext(c, ps, j);
    NextFlags(c, Before(c, ps, j), ps[j]);
  }

  // ---- when a nudge is posted ---------------------------------------------------------------

  /** One poll as far as stalls go: did something move, when, and what did it post. */
  datatype Tick = Tick(moved: bool, at: Time, act: Act)

  /** The watch as a sequence of ticks. */
  function Trace(c: Config, ps: seq<Poll>): (r: seq<Tick>)
    ensures |r| == |ps|
  {
    seq(|ps|, k requires 0 <= k < |ps| =>
      Tick(ProgressAt(c, ps, k), if ps[k].Seen? then ps[k].view.now else 0, ActAt(c, ps, k)))
  }

  lemma TraceAt(c: Config, ps: seq<Poll>, k: nat)
    requires k < |ps|
    ensures var t := Trace(c, ps)[k];
      && t.moved == ProgressAt(c, ps, k) && t.act == ActAt(c, ps, k)
      && (ps[k].Seen? ==> t.at == ps[k].view.now)
  {}

  /** Some tick from i on and before j posts this nudge. */
  predicate Posted(tr: seq<Tick>, a: Act, i: nat, j: nat)
    requires j <= |tr|
  {
    exists k :: i <= k < j && tr[k].act == a
  }

  /** Nothing moves after tick i and before tick j. */
  predicate Still(tr: seq<Tick>, i: nat, j: nat)
    requires j <= |tr|
  {
    forall k :: i < k < j ==> !tr[k].moved
  }

  /** The stall that tick i began reaches to before tick j. */
  predicate StallIn(tr: seq<Tick>, i: nat, j: nat)
    requires j <= |tr|
  {
    i < j && tr[i].moved && Still(tr, i, j)
  }

  /** A nudge flag before tick n. */
  function FlagIn(tr: seq<Tick>, a: Act, n: nat): bool
    requires n <= |tr|
  {
    n > 0 && (tr[n - 1].act == a || (FlagIn(tr, a, n - 1) && !tr[n - 1].moved))
  }

  /** The time of the last move before tick n, and whether there was one. */
  function MoveIn(tr: seq<Tick>, n: nat): Option<Time>
    requires n <= |tr|
  {
    if n == 0 then None else if tr[n - 1].moved then Some(tr[n - 1].at) else MoveIn(tr, n - 1)
  }

  /** A resume is posted only when none is left over from this stall, a continue only after a resume and once. */
  predicate Disciplined(tr: seq<Tick>) {
    forall k :: 0 <= k < |tr| ==>
      && (tr[k].act.Resume? ==> tr[k].moved || !FlagIn(tr, Resume, k))
      && (tr[k].act.Continue? ==> !tr[k].moved && FlagIn(tr, Resume, k) && !FlagIn(tr, Continue, k))
  }

  lemma {:induction false} FlagIsPosted(tr: seq<Tick>, a: Act, i: nat, j: nat)
    requires j <= |tr| && StallIn(tr, i, j)
    ensures FlagIn(tr, a, j) <==> Posted(tr, a, i, j)
    ensures MoveIn(tr, j) == Some(tr[i].at)
  {
    if i + 1 < j {
      FlagIsPosted(tr, a, i, j - 1);
    }
  }

  lemma {:induction false} FlagStays(tr: seq<Tick>, a: Act, i: nat, j: nat)
    requires i < j <= |tr| && Still(tr, i, j) && FlagIn(tr, a, i + 1)
    ensures FlagIn(tr, a, j)
  {
    if i + 1 < j { FlagStays(tr, a, i, j - 1); }
  }

  lemma {:induction false} FlagWasSet(tr: seq<Tick>, a: Act, j: nat) returns (i: nat)
    requires j <= |tr| && FlagIn(tr, a, j)
    ensures i < j && tr[i].act == a && Still(tr, i, j)
  {
    if tr[j - 1].act == a {
      i := j - 1;
    } else {
      i := FlagWasSet(tr, a, j - 1);
    }
  }

  lemma {:induction false} LastMoveIn(tr: seq<Tick>, n: nat) returns (i: nat)
    requires n <= |tr| && MoveIn(tr, n).Some?
    ensures StallIn(tr, i, n) && MoveIn(tr, n) == Some(tr[i].at)
  {
    if tr[n - 1].moved {
      i := n - 1;
    } else {
      i := LastMoveIn(tr, n - 1);
    }
  }

  /** The watcher's variables are what its trace tells. */
  lemma {:induction false} TraceTells(c: Config, ps: seq<Poll>, n: nat)
    requires n <= |ps|
    ensures var s, tr := Before(c, ps, n), Trace(c, ps);
      && s.actedResume == FlagIn(tr, Resume, n) && s.actedContinue == FlagIn(tr, Continue, n)
      && (s.lastProgress.Some? <==> MoveIn(tr, n).Some?)
      && s.lastProgressAt == (if MoveIn(tr, n).Some? then MoveIn(tr, n).value else 0)
  {
    if n == 0 {
      BeforeFirst(c, ps);
    } else {
      TraceTells(c, ps, n - 1);
      TraceAt(c, ps, n - 1);
      FlagsAt(c, ps, n - 1);
      MoveAt(c, ps, n - 1);
      if ProgressAt(c, ps, n - 1) { assert ps[n - 1].Seen?; }
    }
  }

  lemma TraceIsDisciplined(c: Config, ps: seq<Poll>)
    ensures Disciplined(Trace(c, ps))
  {
    forall k | 0 <= k < |ps|
      ensures Trace(c, ps)[k].act.Resume? ==> Trace(c, ps)[k].moved || !FlagIn(Trace(c, ps), Resume, k)
      ensures Trace(c, ps)[k].act.Continue? ==>
        !Trace(c, ps)[k].moved && FlagIn(Trace(c, ps), Resume, k) && !FlagIn(Trace(c, ps), Continue, k)
    {
      TraceAt(c, ps, k);
      TraceTells(c, ps, k);
      FlagsAt(c, ps, k);
    }
  }

  lemma SecondNudge(tr: seq<Tick>, i: nat, j: nat)
    requires Disciplined(tr) && i < j < |tr| && Still(tr, i, j + 1)
    requires !tr[i].act.NoAct? && !tr[j].act.NoAct?
    ensures tr[i].act.Resume? && tr[j].act.Continue?
  {
    assert FlagIn(tr, tr[i].act, i + 1) && FlagIn(tr, Resume, i + 1);
    FlagStays(tr, tr[i].act, i, j);
    FlagStays(tr, Resume, i, j);
  }

  /** Within one stall at most one resume and one continue are posted, the resume strictly earlier: of any two
      nudges without progress between them the first is the resume and the second the continue. */
  lemma NudgesOfOneStall(c: Config, ps: seq<Poll>, i: nat, j: nat)
    requires i < j < |ps|
    ensures var tr := Trace(c, ps);
      Still(tr, i, j + 1) && !tr[i].act.NoAct? && !tr[j].act.NoAct? ==> tr[i].act.Resume? && tr[j].act.Continue?
  {
    TraceIsDisciplined(c, ps);
    var tr := Trace(c, ps);
    if Still(tr, i, j + 1) && !tr[i].act.NoAct? && !tr[j].act.NoAct? {
      SecondNudge(tr, i, j);
    }
  }

  /** Every continue follows a resume of the same stall. */
  lemma ContinueFollowsResume(c: Config, ps: seq<Poll>, j: nat) returns (i: nat)
    requires j < |ps| && Trace(c, ps)[j].act.Continue?
    ensures i < j && Trace(c, ps)[i].act.Resume? && Still(Trace(c, ps), i, j + 1)
  {
    TraceIsDisciplined(c, ps);
    i := FlagWasSet(Trace(c, ps), Resume, j);
  }

  /** The watch is alive and gets past its notes, and nothing but the stall and earlier nudges decides whether it
      nudges: the run is running, nobody is asked, and acting is enabled. */
  predicate Clear(c: Config, ps: seq<Poll>, j: nat)
    requires j < |ps|
  {
    && Before(c, ps, j).end.Going? && ps[j].Seen? && !Drafting(c, Before(c, ps, j), ps[j].view).raised
    && ps[j].view.status == "running" && !ps[j].view.gatePending && !c.noAct
  }

  /** The threshold has passed at `now` since a move at `at`.  (A time of 0 counts as none, so that no time has passed
      since.) */
  predicate Stalled(c: Config, at: Time, now: Time) {
    if at == 0 then c.hangMinutes <= 0 else now - at >= c.hangMinutes * 60
  }

  /** What a poll that gets to the watermark knows of the stall. */
  lemma StallAt(c: Config, ps: seq<Poll>, i: nat, j: nat, tr: seq<Tick>)
    requires i <= j < |ps| && tr == Trace(c, ps) && StallIn(tr, i, j + 1)
    requires Before(c, ps, j).end.Going? && ps[j].Seen? && !ps[j].view.faults.stop.Reading?
    ensures var t := Noticed(Before(c, ps, j), ps[j].view);
      && t.lastProgressAt == tr[i].at
      && (t.actedResume <==> Posted(tr, Resume, i, j))
      && (t.actedContinue <==> Posted(tr, Continue, i, j))
  {
    TraceAt(c, ps, j);
    if i == j {
      NoticedAfresh(Before(c, ps, j), ps[j]);
    } else {
      TraceTells(c, ps, j);
      FlagIsPosted(tr, Resume, i, j);
      FlagIsPosted(tr, Continue, i, j);
      NoticedAgain(Before(c, ps, j), ps[j]);
    }
  }

  lemma NoticedAfresh(s: State, p: Poll)
    requires Progressed(s, p)
    ensures var t := Noticed(s, p.view); t.lastProgressAt == p.view.now && !t.actedResume && !t.actedContinue
  {}

  lemma NoticedAgain(s: State, p: Poll)
    requires s.end.Going? && p.Seen? && !p.view.faults.stop.Reading? && !Progressed(s, p)
    ensures SameFlags(Noticed(s, p.view), s)
  {}

  lemma ActFromStall(c: Config, s: State, p: Poll)
    requires s.end.Going? && p.Seen? && !Drafting(c, s, p.view).raised
    ensures var t := Noticed(s, p.view);
      ActOf(c, s, p) ==
        if p.view.status == "running" && !p.view.gatePending && !c.noAct && Idle(t, p.view) >= c.hangMinutes * 60
        then (if !t.actedResume then Resume else if !t.actedContinue then Continue else NoAct)
        else NoAct
  {}

  /** Poll i last saw progress.  Poll j posts the resume if and only if it is clear to nudge, the threshold has passed
      since poll i, and no resume has been posted since. */
  lemma ResumePostedExactlyWhen(c: Config, ps: seq<Poll>, i: nat, j: nat)
    requires i <= j < |ps| && StallIn(Trace(c, ps), i, j + 1)
    ensures var tr := Trace(c, ps);
      tr[j].act.Resume? <==>
        Clear(c, ps, j) && Stalled(c, tr[i].at, ps[j].view.now) && !Posted(tr, Resume, i, j)
  {
    TraceAt(c, ps, j);
    if Before(c, ps, j).end.Going? && ps[j].Seen? && !Drafting(c, Before(c, ps, j), ps[j].view).raised {
      StallAt(c, ps, i, j, Trace(c, ps));
      ActFromStall(c, Before(c, ps, j), ps[j]);
    }
  }

  /** It posts the continue if and only if all that holds, a resume has been posted since, and no continue. */
  lemma ContinuePostedExactlyWhen(c: Config, ps: seq<Poll>, i: nat, j: nat)
    requires i <= j < |ps| && StallIn(Trace(c, ps), i, j + 1)
    ensures var tr := Trace(c, ps);
      tr[j].act.Continue? <==>
        && Clear(c, ps, j) && Stalled(c, tr[i].at, ps[j].view.now)
        && Posted(tr, Resume, i, j) && !Posted(tr, Continue, i, j)
  {
    TraceAt(c, ps, j);
    if Before(c, ps, j).end.Going? && ps[j].Seen? && !Drafting(c, Before(c, ps, j), ps[j].view).raised {
      StallAt(c, ps, i, j, Trace(c, ps));
      ActFromStall(c, Before(c, ps, j), ps[j]);
    }
  }

  /** The poll at which tick i moved was seen at that time. */
  lemma MovedSeen(c: Config, ps: seq<Poll>, i: nat)
    requires i < |ps| && Trace(c, ps)[i].moved
    ensures ps[i].Seen? && Trace(c, ps)[i].at == ps[i].view.now
  {
    TraceAt(c, ps, i);
  }

  lemma {:induction false} FlagNeedsMove(tr: seq<Tick>, n: nat)
    requires n < |tr| && (tr[n].moved || MoveIn(tr, n).Some?)
    ensures MoveIn(tr, n + 1).Some?
  {}

  /** A nudge is only posted to a running run with no human gate and acting enabled, and only when the poll that last
      saw anything move lies the threshold, of whatever sign, or longer in the past. */
  lemma NudgeConditions(c: Config, ps: seq<Poll>, j: nat) returns (i: nat)
    requires j < |ps| && !Trace(c, ps)[j].act.NoAct?
    ensures ps[j].Seen? && ps[j].view.status == "running" && !HumanGate(ps[j].view) && !c.noAct
    ensures i <= j && StallIn(Trace(c, ps), i, j + 1) && ps[i].Seen?
    ensures if ps[i].view.now == 0 then c.hangMinutes <= 0
            else ps[j].view.now - ps[i].view.now >= c.hangMinutes * 60
    ensures c.hangMinutes > 0 ==> i < j
  {
    var s := Before(c, ps, j);
    TraceAt(c, ps, j);
    ActNeeds(c, s, ps[j]);
    TraceTells(c, ps, j);
    NoticedMoves(s, ps[j]);
    FlagNeedsMove(Trace(c, ps), j);
    i := LastMoveIn(Trace(c, ps), j + 1);
    MovedSeen(c, ps, i);
    StallAt(c, ps, i, j, Trace(c, ps));
  }

  lemma NoticedMoves(s: State, p: Poll)
    requires s.end.Going? && p.Seen? && !p.view.faults.stop.Reading?
    ensures !Progressed(s, p) ==> s.lastProgress.Some?
  {}

  // ---- what counts as progress --------------------------------------------------------------

  /** Poll j gets as far as the watermark. */
  predicate NoticesAt(c: Config, ps: seq<Poll>, j: nat)
    requires j < |ps|
  {
    Before(c, ps, j).end.Going? && ps[j].Seen? && !ps[j].view.faults.stop.Reading?
  }

  function Triples(steps: seq<StepView>): (r: seq<(string, string, int)>)
    ensures |r| == |steps|
  {
    seq(|steps|, k requires 0 <= k < |steps| => (steps[k].id, steps[k].status, steps[k].retryCount))
  }

  /** The id, status and retries of every step, in any order. */
  function StepTriples(v: View): multiset<(string, string, int)> { multiset(Triples(v.steps)) }

  lemma LastTriple(steps: seq<StepView>)
    requires steps != []
    ensures var n := |steps| - 1;
      Triples(steps) == Triples(steps[..n]) + [(steps[n].id, steps[n].status, steps[n].retryCount)]
  {}

  lemma {:induction false} MarksAreTriples(steps: seq<StepView>)
    ensures StepMarks(steps) == multiset(Triples(steps))
  {
    if steps != [] {
      LastTriple(steps);
      MarksAreTriples(steps[..|steps| - 1]);
    }
  }

  lemma OnErrorKeepsCursor(s: State, faults: Faults)
    ensures OnError(s, faults).lastSeq == s.lastSeq
  {}

  lemma PolledCursor(c: Config, s: State, v: View)
    ensures Polled(c, s, v).lastSeq == MaxOf(s.lastSeq, v.chatSeqs)
  {}

  lemma NextCursor(c: Config, s: State, p: Poll)
    ensures Next(c, s, p).lastSeq ==
      if s.end.Going? && p.Seen? then MaxOf(s.lastSeq, p.view.chatSeqs) else s.lastSeq
  {
    if s.end.Going? && p.Seen? {
      PolledCursor(c, s, p.view);
      OnErrorKeepsCursor(Polled(c, s, p.view), p.view.faults);
    }
  }

  /** The timeline cursor takes in every number of a poll that reads on. */
  lemma CursorAt(c: Config, ps: seq<Poll>, j: nat)
    requires j < |ps|
    ensures Before(c, ps, j + 1).lastSeq ==
      if Before(c, ps, j).end.Going? && ps[j].Seen? then MaxOf(Before(c, ps, j).lastSeq, ps[j].view.chatSeqs)
      else Before(c, ps, j).lastSeq
  {
    BeforeNext(c, ps, j);
    NextCursor(c, Before(c, ps, j), ps[j]);
  }

  lemma NextMark(c: Config, ps: seq<Poll>, j: nat)
    requires j < |ps|
    ensures Before(c, ps, j + 1).lastProgress ==
      if NoticesAt(c, ps, j) then Some(MarkOf(Before(c, ps, j), ps[j].view)) else Before(c, ps, j).lastProgress
  {
    BeforeNext(c, ps, j);
    NextFlags(c, Before(c, ps, j), ps[j]);
  }

  lemma {:induction false} LastMark(c: Config, ps: seq<Poll>, i: nat, j: nat)
    requires i <= j < |ps| && NoticesAt(c, ps, i) && forall k :: i < k <= j ==> !NoticesAt(c, ps, k)
    ensures Before(c, ps, j + 1).lastProgress == Some(MarkOf(Before(c, ps, i), ps[i].view))
  {
    NextMark(c, ps, j);
    if i < j { LastMark(c, ps, i, j - 1); }
  }

  /** Poll i is the last one before j that got to the watermark.  Poll j is progress if and only if it gets there too
      and the run's status, the timeline cursor or the steps' statuses and retries have changed since. */
  lemma ProgressExactlyWhen(c: Config, ps: seq<Poll>, i: nat, j: nat)
    requires i < j < |ps| && NoticesAt(c, ps, i) && forall k :: i < k < j ==> !NoticesAt(c, ps, k)
    ensures ProgressAt(c, ps, j) <==>
      && NoticesAt(c, ps, j)
      && (|| ps[j].view.status != ps[i].view.status
          || Before(c, ps, j + 1).lastSeq != Before(c, ps, i + 1).lastSeq
          || StepTriples(ps[j].view) != StepTriples(ps[i].view))
  {
    LastMark(c, ps, i, j - 1);
    ProgressGiven(c, ps, i, j);
  }

  lemma ProgressGiven(c: Config, ps: seq<Poll>, i: nat, j: nat)
    requires i < j < |ps| && NoticesAt(c, ps, i)
    requires Before(c, ps, j).lastProgress == Some(MarkOf(Before(c, ps, i), ps[i].view))
    ensures ProgressAt(c, ps, j) <==>
      && NoticesAt(c, ps, j)
      && (|| ps[j].view.status != ps[i].view.status
          || Before(c, ps, j + 1).lastSeq != Before(c, ps, i + 1).lastSeq
          || StepTriples(ps[j].view) != StepTriples(ps[i].view))
  {
    if NoticesAt(c, ps, j) {
      CursorAt(c, ps, i);
      CursorAt(c, ps, j);
      MarksAreTriples(ps[i].view.steps);
      MarksAreTriples(ps[j].view.steps);
      MarkDiffers(Before(c, ps, j), ps[j], MarkOf(Before(c, ps, i), ps[i].view));
    }
  }

  lemma MarkDiffers(s: State, p: Poll, mark: Watermark)
    requires s.lastProgress == Some(mark)
    ensures Progressed(s, p) <==>
      && s.end.Going? && p.Seen? && !p.view.faults.stop.Reading?
      && (|| p.view.status != mark.status
          || MaxOf(s.lastSeq, p.view.chatSeqs) != mark.nextSeq
          || StepMarks(p.view.steps) != mark.steps)
  {}

  /** The first poll that gets to the watermark is progress. */
  lemma {:induction false} NoMarkYet(c: Config, ps: seq<Poll>, j: nat)
    requires j <= |ps| && forall k :: 0 <= k < j ==> !NoticesAt(c, ps, k)
    ensures Before(c, ps, j).lastProgress.None?
    ensures j < |ps| ==> (ProgressAt(c, ps, j) <==> NoticesAt(c, ps, j))
  {
    if j == 0 {
      BeforeFirst(c, ps);
    } else {
      NoMarkYet(c, ps, j - 1);
      NextMark(c, ps, j - 1);
    }
  }

  // ---- notes over whole watches ----------------------------------------------------------

  ghost predicate OneFileEach(s: State) {
    && (forall x :: x in s.files <==> x in s.drafted)
    && (forall i, j :: 0 <= i < j < |s.files| ==> s.files[i] != s.files[j])
  }

  lemma {:induction false} DraftKeepsFiles(s: State, sigs: seq<Signature>, faults: Faults)
    requires OneFileEach(s)
    ensures var d := Draft(DraftsOf(s), sigs, faults);
      && OneFileEach(s.(drafted := d.drafted, files := d.files))
      && s.drafted <= d.drafted
      && (forall x :: x in d.drafted ==> x in s.drafted || x in sigs)
      && (!d.raised ==> forall x :: x in sigs ==> x in d.drafted)
  {
    if sigs == [] {
    } else {
      DraftKeepsFiles(s, sigs[..|sigs| - 1], faults);
      assert sigs == sigs[..|sigs| - 1] + [sigs[|sigs| - 1]];
    }
  }

  lemma OnErrorKeepsFiles(s: State, faults: Faults)
    requires OneFileEach(s)
    ensures OneFileEach(OnError(s, faults)) && s.drafted <= OnError(s, faults).drafted
    ensures forall x :: x in OnError(s, faults).drafted ==> x in s.drafted || x == Outage
    ensures Outage in OnError(s, faults).drafted && Outage !in s.drafted ==> s.consecErrors >= 3
  {}

  lemma PolledKeepsFiles(c: Config, s: State, v: View)
    requires OneFileEach(s)
    ensures var t := Polled(c, s, v);
      && OneFileEach(t) && s.drafted <= t.drafted && t.consecErrors == s.consecErrors
      && (forall x :: x in t.drafted ==> x in s.drafted || x in Notes(c, Noticed(s, v), v))
      && (s.end.Going? && !Raises(c, s, Seen(v)) ==> forall x :: x in Notes(c, Noticed(s, v), v) ==> x in t.drafted)
  {
    DraftKeepsFiles(s, Notes(c, Noticed(s, v), v), v.faults);
  }

  /** One poll keeps the notes and their files in step, and takes none back. */
  lemma NextKeepsFiles(c: Config, s: State, p: Poll)
    requires OneFileEach(s)
    ensures OneFileEach(Next(c, s, p)) && s.drafted <= Next(c, s, p).drafted
    ensures s.end.Going? && p.Seen? ==> Polled(c, s, p.view).drafted <= Next(c, s, p).drafted
  {
    if s.end.Going? && p.Seen? {
      PolledKeepsFiles(c, s, p.view);
      OnErrorKeepsFiles(Polled(c, s, p.view), p.view.faults);
    }
  }

  lemma {:induction false} WatchKeepsFiles(c: Config, ps: seq<Poll>)
    ensures OneFileEach(After(c, ps))
  {
    if ps == [] {
    } else {
      WatchKeepsFiles(c, ps[..|ps| - 1]);
      NextKeepsFiles(c, After(c, ps[..|ps| - 1]), ps[|ps| - 1]);
    }
  }

  predicate HotRetry(s: StepView, name: string, n: int) {
    s.name == name && s.status != "FAILED" && s.retryCount == n
  }

  predicate Rejected(s: StepView, name: string) {
    s.name == name && s.status != "FAILED" && s.status != "DONE" && s.retryCount < 5 && s.rejected
  }

  /** What a cycle is to note, read off the view: `idle` is the time without progress. */
  ghost predicate Calls(c: Config, idle: Time, v: View, x: Signature) {
    var open := v.status !in {"completed", "failed", "cancelled"};
    var asked := v.gatePending ||
      v.status in {"waiting_approval", "waiting_user_approval", "waiting_question", "blocked"};
    match x
    case TerminalNote(status) => status == v.status && status in {"failed", "cancelled"}
    case StepFailed(name) =>
      open && exists k :: 0 <= k < |v.steps| && v.steps[k].name == name && v.steps[k].status == "FAILED"
    case StepRetry(name, n) => open && n >= 5 && exists k :: 0 <= k < |v.steps| && HotRetry(v.steps[k], name, n)
    case StepReject(name) => open && exists k :: 0 <= k < |v.steps| && Rejected(v.steps[k], name)
    case Attention(kinds) => open && v.attention == Some(kinds)
    case WorktreeFlag(status) => open && v.redWorktree && status == v.status
    case GateStall(status) => open && asked && idle >= c.hangMinutes * 60 && idle >= 2 * c.hangMinutes * 60
      && status == v.status
    case Hang(status) => open && !asked && idle >= c.hangMinutes * 60 && status == v.status
    case Outage => false
  }

  lemma {:induction false} StepNotesExactly(steps: seq<StepView>, x: Signature)
    ensures x in StepNotes(steps) <==> exists k :: 0 <= k < |steps| && x in StepNote(steps[k])
  {
    if steps != [] {
      StepNotesExactly(steps[1..], x);
      if k :| 0 <= k < |steps[1..]| && x in StepNote(steps[1..][k]) {
        assert x in StepNote(steps[k + 1]);
      }
      if k :| 0 <= k < |steps| && x in StepNote(steps[k]) {
        if k > 0 { assert x in StepNote(steps[1..][k - 1]); }
      }
    }
  }

  lemma StepCalls(c: Config, idle: Time, v: View, x: Signature)
    requires v.status !in TERMINAL && (x.StepFailed? || x.StepRetry? || x.StepReject?)
    ensures x in StepNotes(v.steps) <==> Calls(c, idle, v, x)
  {
    StepNotesExactly(v.steps, x);
  }

  lemma OnlyStepsInStepNotes(steps: seq<StepView>, x: Signature)
    ensures x in StepNotes(steps) ==> x.StepFailed? || x.StepRetry? || x.StepReject?
  {
    StepNotesExactly(steps, x);
  }

  predicate OfSteps(x: Signature) { x.StepFailed? || x.StepRetry? || x.StepReject? }

  lemma RunCalls(c: Config, t: State, v: View, x: Signature)
    requires v.status !in TERMINAL
    ensures x in RunNotes(c, t, v) <==> !OfSteps(x) && Calls(c, Idle(t, v), v, x)
  {
    assert x in RunNotes(c, t, v) <==>
      || (v.attention.Some? && x == Attention(v.attention.value))
      || (v.redWorktree && x == WorktreeFlag(v.status))
      || x in HangNotes(c, t, v);
  }

  lemma OpenCalls(c: Config, t: State, v: View, x: Signature)
    requires v.status !in TERMINAL
    ensures x in OpenNotes(c, t, v) <==> Calls(c, Idle(t, v), v, x)
  {
    OnlyStepsInStepNotes(v.steps, x);
    if OfSteps(x) { StepCalls(c, Idle(t, v), v, x); }
    RunCalls(c, t, v, x);
  }

  lemma TerminalCalls(c: Config, idle: Time, v: View, x: Signature)
    requires v.status in TERMINAL
    ensures x in TerminalNotes(v) <==> Calls(c, idle, v, x)
  {}

  /** A cycle wants to note exactly what its view calls for. */
  lemma NotesExactly(c: Config, t: State, v: View, x: Signature)
    ensures x in Notes(c, t, v) <==> Calls(c, Idle(t, v), v, x)
  {
    if v.status in TERMINAL { TerminalCalls(c, Idle(t, v), v, x); } else { OpenCalls(c, t, v, x); }
  }

  function Rank(x: Signature): nat {
    match x
    case StepFailed(_) => 0
    case StepRetry(_, _) => 0
    case StepReject(_) => 0
    case Attention(_) => 1
    case WorktreeFlag(_) => 2
    case _ => 3
  }

  /** Steps are noted first, in their order, then dispatch attention, the worktree and the stall. */
  lemma NotesInOrder(c: Config, t: State, v: View)
    requires v.status !in TERMINAL
    ensures StepNotes(v.steps) <= Notes(c, t, v)
    ensures forall i, j :: 0 <= i < j < |Notes(c, t, v)| ==> Rank(Notes(c, t, v)[i]) <= Rank(Notes(c, t, v)[j])
  {
    StepsRankFirst(v.steps);
  }

  lemma {:induction false} StepsRankFirst(steps: seq<StepView>)
    ensures forall i :: 0 <= i < |StepNotes(steps)| ==> Rank(StepNotes(steps)[i]) == 0
  {
    if steps != [] { StepsRankFirst(steps[1..]); }
  }

  lemma {:induction false} StepNotesSplit(a: seq<StepView>, b: seq<StepView>)
    ensures StepNotes(a + b) == StepNotes(a) + StepNotes(b)
  {
    if a == [] {
      assert a + b == b;
    } else {
      assert (a + b)[1..] == a[1..] + b;
      StepNotesSplit(a[1..], b);
      Assoc(StepNote(a[0]), StepNotes(a[1..]), StepNotes(b));
    }
  }

  /** Over a whole watch: a cycle that does not raise leaves noted all that its view calls for, and what a cycle notes
      first is called for by its view, or is the outage. */
  lemma NotedExactly(c: Config, ps: seq<Poll>, j: nat, x: Signature)
    requires j < |ps| && Before(c, ps, j).end.Going? && ps[j].Seen?
    ensures var s, t, v := Before(c, ps, j), Before(c, ps, j + 1), ps[j].view;
      var called := Calls(c, Idle(Noticed(s, v), v), v, x);
      && (called && !Raises(c, s, ps[j]) ==> x in t.files)
      && (x in t.files && x !in s.files ==> called || x == Outage)
  {
    var s, v := Before(c, ps, j), ps[j].view;
    NotesExactly(c, Noticed(s, v), v, x);
    WatchKeepsFiles(c, ps[..j]);
    BeforeNext(c, ps, j);
    NextKeepsFiles(c, s, ps[j]);
    PolledKeepsFiles(c, s, v);
    OnErrorKeepsFiles(Polled(c, s, v), v.faults);
  }

  /** A cycle whose notes all went through raises exactly when its last log line does: the one on a completed run, on
      waiting for a human until the stall is noted, or on the nudge it has posted. */
  lemma LastLineExactly(c: Config, s: State, v: View)
    requires s.end.Going? && !Drafting(c, s, v).raised
    ensures var idle := Idle(Noticed(s, v), v);
      var asked := v.gatePending ||
        v.status in {"waiting_approval", "waiting_user_approval", "waiting_question", "blocked"};
      Raises(c, s, Seen(v)) <==>
        && v.faults.stop == LastLine
        && (|| v.status == "completed"
            || (&& v.status !in {"completed", "failed", "cancelled"} && asked
                && c.hangMinutes * 60 <= idle < 2 * c.hangMinutes * 60)
            || !ActOf(c, s, Seen(v)).NoAct?)
  {}

  /** The watch ends, other than by dying, exactly when a cycle that does not raise sees a terminal run. */
  lemma FinishesExactlyWhen(c: Config, ps: seq<Poll>, j: nat)
    requires j < |ps| && Before(c, ps, j).end.Going?
    ensures Before(c, ps, j + 1).end.Finished? <==>
      && ps[j].Seen? && !Raises(c, Before(c, ps, j), ps[j])
      && ps[j].view.status in {"completed", "failed", "cancelled"}
  {
    BeforeNext(c, ps, j);
  }

  /** Over a whole watch every signature is drafted once at most, and a cycle that did not raise leaves nothing it saw
      undrafted. */
  lemma NotedOnce(c: Config, ps: seq<Poll>, j: nat)
    requires j < |ps| && Before(c, ps, j).end.Going?
    ensures var s, t := Before(c, ps, j), Before(c, ps, j + 1);
      && (forall x, y :: 0 <= x < y < |t.files| ==> t.files[x] != t.files[y])
      && s.drafted <= t.drafted
      && (ps[j].Seen? && !Raises(c, s, ps[j]) ==>
            forall x :: x in Notes(c, Noticed(s, ps[j].view), ps[j].view) ==> x in t.files)
  {
    var s := Before(c, ps, j);
    WatchKeepsFiles(c, ps[..j]);
    BeforeNext(c, ps, j);
    NextKeepsFiles(c, s, ps[j]);
    if ps[j].Seen? { PolledKeepsFiles(c, s, ps[j].view); }
  }

  // ---- errors over whole watches -----------------------------------------------------------

  /** How many polls in a row have raised at the end of the watch so far. */
  function Streak(c: Config, ps: seq<Poll>): nat {
    if ps == [] then 0
    else if Raises(c, After(c, ps[..|ps| - 1]), ps[|ps| - 1]) then Streak(c, ps[..|ps| - 1]) + 1
    else 0
  }

  /** Drafting the outage note now would raise, or the log line behind it would. */
  predicate OutageFails(s: State, faults: Faults) {
    Outage !in s.drafted && (Outage in faults.drafts || Outage in faults.noteLines)
  }

  lemma HandlerCounts(s: State, faults: Faults)
    requires s.end.Going?
    ensures var t := OnError(s, faults);
      && t.consecErrors == s.consecErrors + 1
      && (!faults.handlerLine ==> (t.outageNoted <==> s.outageNoted || t.consecErrors >= 4))
      && (t.end.Crashed? <==> faults.handlerLine || (s.consecErrors >= 3 && !s.outageNoted && OutageFails(s, faults)))
      && !t.end.Finished?
  {}

  lemma PolledCounts(c: Config, s: State, v: View)
    ensures var t := Polled(c, s, v);
      t.consecErrors == s.consecErrors && t.outageNoted == s.outageNoted && t.end == s.end
  {}

  /** What one poll of a living watch leaves of the error count, and when it kills the watch. */
  lemma NextCounts(c: Config, s: State, p: Poll)
    requires s.end.Going?
    ensures var t := Next(c, s, p);
      && t.consecErrors == (if Raises(c, s, p) then s.consecErrors + 1 else 0)
      && (t.end.Going? ==> (t.outageNoted <==> Raises(c, s, p) && (s.outageNoted || t.consecErrors >= 4)))
      && (t.end.Crashed? <==>
            && Raises(c, s, p)
            && (p.view.faults.handlerLine ||
                (s.consecErrors >= 3 && !s.outageNoted && OutageFails(Polled(c, s, p.view), p.view.faults))))
  {
    if p.Seen? {
      PolledCounts(c, s, p.view);
      HandlerCounts(Polled(c, s, p.view), p.view.faults);
    }
  }

  lemma {:induction false} ErrorsCountStreak(c: Config, ps: seq<Poll>)
    requires After(c, ps).end.Going?
    ensures After(c, ps).consecErrors == Streak(c, ps)
    ensures After(c, ps).outageNoted <==> Streak(c, ps) >= 4
  {
    if ps == [] {
    } else {
      var front := ps[..|ps| - 1];
      assert After(c, front).end.Going?;
      ErrorsCountStreak(c, front);
      NextCounts(c, After(c, front), ps[|ps| - 1]);
    }
  }

  /** The watch is meant to survive every failed cycle.  It dies exactly when a cycle raises and either the handler's
      log line raises as well, or the cycle is the fourth in a row to raise, no outage has been noted in the whole
      watch, and noting it raises too. */
  lemma DiesExactlyWhen(c: Config, ps: seq<Poll>, j: nat)
    requires j < |ps| && Before(c, ps, j).end.Going?
    ensures Before(c, ps, j + 1).end.Crashed? <==>
      && Raises(c, Before(c, ps, j), ps[j])
      && (ps[j].view.faults.handlerLine ||
          (Streak(c, ps[..j]) == 3 && OutageFails(Before(c, ps, j), ps[j].view.faults)))
  {
    BeforeNext(c, ps, j);
    ErrorsCountStreak(c, ps[..j]);
    NextCounts(c, Before(c, ps, j), ps[j]);
    WatchKeepsFiles(c, ps[..j]);
    if ps[j].Seen? { PolledNoOutage(c, Before(c, ps, j), ps[j].view); }
  }

  lemma {:induction false} StepNotesNoOutage(steps: seq<StepView>)
    ensures Outage !in StepNotes(steps)
  {
    if steps != [] { StepNotesNoOutage(steps[1..]); }
  }

  lemma NotesNoOutage(c: Config, t: State, v: View)
    ensures Outage !in Notes(c, t, v)
  {
    StepNotesNoOutage(v.steps);
  }

  /** A cycle itself never drafts the outage note; only the exception handler does. */
  lemma PolledNoOutage(c: Config, s: State, v: View)
    requires OneFileEach(s)
    ensures Outage in Polled(c, s, v).drafted <==> Outage in s.drafted
  {
    PolledKeepsFiles(c, s, v);
    NotesNoOutage(c, Noticed(s, v), v);
  }

  /** This poll is the fourth in a row to raise and the handler gets as far as drafting the outage note. */
  ghost predicate NotesOutageAt(c: Config, ps: seq<Poll>, n: nat) {
    && 0 < n <= |ps| && Streak(c, ps[..n]) == 4 && ps[n - 1].Seen?
    && !ps[n - 1].view.faults.handlerLine && Outage !in ps[n - 1].view.faults.drafts
  }

  lemma HandlerNotes(s: State, faults: Faults)
    requires s.outageNoted <==> s.consecErrors >= 4
    ensures Outage in OnError(s, faults).drafted <==>
      || Outage in s.drafted
      || (s.consecErrors == 3 && !faults.handlerLine && Outage !in faults.drafts)
  {}

  lemma LastPollNotes(c: Config, front: seq<Poll>, p: Poll)
    ensures Outage in Next(c, After(c, front), p).drafted <==>
      || Outage in After(c, front).drafted
      || (&& Raises(c, After(c, front), p) && Streak(c, front) == 3
          && !p.view.faults.handlerLine && Outage !in p.view.faults.drafts)
  {
    var s := After(c, front);
    if s.end.Going? && p.Seen? {
      WatchKeepsFiles(c, front);
      ErrorsCountStreak(c, front);
      PolledNoOutage(c, s, p.view);
      PolledCounts(c, s, p.view);
      HandlerNotes(Polled(c, s, p.view), p.view.faults);
    }
  }

  lemma StreakNext(c: Config, front: seq<Poll>, p: Poll)
    ensures Streak(c, front + [p]) == if Raises(c, After(c, front), p) then Streak(c, front) + 1 else 0
    ensures After(c, front + [p]) == Next(c, After(c, front), p)
  {
    assert (front + [p])[..|front|] == front;
  }

  lemma EarlierNote(c: Config, front: seq<Poll>, p: Poll, n: nat)
    requires n <= |front|
    ensures NotesOutageAt(c, front + [p], n) <==> NotesOutageAt(c, front, n)
  {
    assert (front + [p])[..n] == front[..n];
  }

  lemma NoteAtLast(c: Config, front: seq<Poll>, p: Poll)
    ensures NotesOutageAt(c, front + [p], |front| + 1) <==>
      && Raises(c, After(c, front), p) && Streak(c, front) == 3
      && !p.view.faults.handlerLine && Outage !in p.view.faults.drafts
  {
    StreakNext(c, front, p);
    assert (front + [p])[..|front| + 1] == front + [p];
  }

  /** For each stretch of the watch, whether it ends in drafting the outage note. */
  ghost function Points(c: Config, ps: seq<Poll>): (r: seq<bool>)
    ensures |r| == |ps| + 1
  {
    seq(|ps| + 1, n requires 0 <= n <= |ps| => NotesOutageAt(c, ps, n))
  }

  lemma PointAt(c: Config, ps: seq<Poll>, n: nat)
    requires n <= |ps|
    ensures Points(c, ps)[n] == NotesOutageAt(c, ps, n)
  {}

  lemma SamePoint(c: Config, front: seq<Poll>, p: Poll, n: nat)
    requires n <= |front|
    ensures Points(c, front + [p])[n] == Points(c, front)[n]
  {
    PointAt(c, front + [p], n);
    PointAt(c, front, n);
    EarlierNote(c, front, p, n);
  }

  lemma PointsNext(c: Config, front: seq<Poll>, p: Poll)
    ensures Points(c, front + [p]) == Points(c, front) + [NotesOutageAt(c, front + [p], |front| + 1)]
  {
    PointAt(c, front + [p], |front| + 1);
    forall n | 0 <= n <= |front| ensures Points(c, front + [p])[n] == Points(c, front)[n] {
      SamePoint(c, front, p, n);
    }
  }

  lemma {:induction false} OutageInPoints(c: Config, ps: seq<Poll>)
    ensures Outage in After(c, ps).drafted <==> true in Points(c, ps)
  {
    if ps == [] {
    } else {
      var front, p := ps[..|ps| - 1], ps[|ps| - 1];
      assert ps == front + [p];
      OutageInPoints(c, front);
      PointsNext(c, front, p);
      LastPollNotes(c, front, p);
      NoteAtLast(c, front, p);
    }
  }

  /** The outage note exists if and only if at some point four cycles in a row, and no more, had raised and the handler
      of the fourth could write its log line and the note. */
  lemma OutageNotedExactlyWhen(c: Config, ps: seq<Poll>)
    ensures Outage in After(c, ps).drafted <==> exists n :: NotesOutageAt(c, ps, n)
  {
    OutageInPoints(c, ps);
    if true in Points(c, ps) {
      var n :| 0 <= n <= |ps| && Points(c, ps)[n];
      PointAt(c, ps, n);
      assert NotesOutageAt(c, ps, n);
    }
    if exists n :: NotesOutageAt(c, ps, n) {
      var n: nat :| NotesOutageAt(c, ps, n);
      PointAt(c, ps, n);
      assert Points(c, ps)[n];
    }
  }

  /** A runner that becomes unreachable, at any point of any watch and for however long, is never noted: such polls
      draft nothing and, as long as the watch lives, reset the count of errors. */
  lemma {:induction false} UnreachableNeverNoted(c: Config, ps: seq<Poll>, qs: seq<Poll>)
    requires forall i :: 0 <= i < |qs| ==> qs[i].Unreadable?
    ensures After(c, ps + qs).drafted == After(c, ps).drafted && After(c, ps + qs).files == After(c, ps).files
    ensures qs != [] ==> Streak(c, ps + qs) == 0
  {
    if qs == [] {
      assert ps + qs == ps;
    } else {
      var front, p := qs[..|qs| - 1], qs[|qs| - 1];
      UnreachableNeverNoted(c, ps, front);
      assert ps + qs == (ps + front) + [p];
      StreakNext(c, ps + front, p);
    }
  }

  // ---- watches that die --------------------------------------------------------------------

  /** A failed step that has not been noted and whose note cannot be drafted makes the cycle raise, and it stays
      unnoted. */
  lemma FailedStepRaises(c: Config, s: State, v: View)
    requires s.end.Going? && !v.faults.StopsEarly() && v.status !in TERMINAL
    requires v.steps != [] && v.steps[0].status == "FAILED"
    requires StepFailed(v.steps[0].name) in v.faults.drafts && StepFailed(v.steps[0].name) !in s.drafted
    ensures Raises(c, s, Seen(v)) && Polled(c, s, v).drafted == s.drafted
  {
    var sig := StepFailed(v.steps[0].name);
    var t := Noticed(s, v);
    var rest := OpenNotes(c, t, v)[1..];
    DraftingOpen(c, s, v);
    assert OpenNotes(c, t, v) == [sig] + rest by {
      assert StepNotes(v.steps)[0] == sig;
    }
    DraftSplit(DraftsOf(s), [sig], rest, v.faults);
    DraftSingle(DraftsOf(s), sig, v.faults);
    RaisedStays(Draft(DraftsOf(s), [sig], v.faults), rest, v.faults);
  }

  /** One more such cycle, of which the handler survives the first three. */
  lemma FailedStepCounts(c: Config, s: State, v: View)
    requires s.end.Going? && !v.faults.StopsEarly() && v.status !in TERMINAL && !v.faults.handlerLine
    requires v.steps != [] && v.steps[0].status == "FAILED"
    requires StepFailed(v.steps[0].name) in v.faults.drafts && StepFailed(v.steps[0].name) !in s.drafted
    requires Outage in v.faults.drafts && Outage !in s.drafted && !s.outageNoted && s.consecErrors <= 3
    ensures var t := Next(c, s, Seen(v));
      && t.drafted == s.drafted && t.consecErrors == s.consecErrors + 1
      && (s.consecErrors < 3 ==> t.end.Going? && !t.outageNoted)
      && (s.consecErrors == 3 ==> t.end.Crashed?)
  {
    FailedStepRaises(c, s, v);
  }

  /** A failed step whose note cannot be written, nor the outage's. */
  predicate Failing(v: View) {
    && !v.faults.StopsEarly() && v.status !in TERMINAL && !v.faults.handlerLine
    && v.steps != [] && v.steps[0].status == "FAILED"
    && StepFailed(v.steps[0].name) in v.faults.drafts && Outage in v.faults.drafts
  }

  lemma FailingView() returns (v: View)
    ensures Failing(v)
  {
    v := View("running", [StepView("s", "s", "FAILED", 0, false)], [], None, false, false, 1,
              Faults(Nowhere, {StepFailed("s"), Outage}, {}, false));
  }

  function Polls(v: View, n: nat): (r: seq<Poll>)
    ensures |r| == n && forall i :: 0 <= i < n ==> r[i] == Seen(v)
  {
    if n == 0 then [] else Polls(v, n - 1) + [Seen(v)]
  }

  lemma {:induction false} FailingSoFar(c: Config, v: View, n: nat)
    requires Failing(v) && n <= 3
    ensures var s := After(c, Polls(v, n));
      s.end.Going? && s.drafted == {} && !s.outageNoted && s.consecErrors == n
  {
    if n > 0 {
      FailingSoFar(c, v, n - 1);
      StreakNext(c, Polls(v, n - 1), Seen(v));
      FailedStepCounts(c, After(c, Polls(v, n - 1)), v);
    }
  }

  /** A watch of four polls of a run with a failed step dies when the directory of the notes is not writable. */
  lemma DyingWatch(c: Config) returns (ps: seq<Poll>)
    ensures |ps| == 4 && forall i :: 0 <= i < 4 ==> ps[i].Seen? && !ps[i].view.faults.handlerLine
    ensures After(c, ps).end.Crashed?
  {
    var v := FailingView();
    ps := Polls(v, 4);
    FailingSoFar(c, v, 3);
    StreakNext(c, Polls(v, 3), Seen(v));
    FailedStepCounts(c, After(c, Polls(v, 3)), v);
  }

  /** With an unwritable log file the first poll that reaches its log line is the last. */
  lemma FullDiskKills(c: Config, v: View)
    requires v.faults.stop.PollLine? && v.faults.handlerLine
    ensures After(c, [Seen(v)]).end.Crashed?
  {
    StreakNext(c, [], Seen(v));
    assert [] + [Seen(v)] == [Seen(v)];
  }
}
