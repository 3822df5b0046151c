/** The scripted turns of MockRunnerClient.ts: a recursive interpreter of step trees with approval and question
    gates, cut short by interrupts. */
module TurnScript {
  import opened Wrappers

  datatype Choice = One(value: string) | Many(values: seq<string>)

  /** A step that only emits one event of the given type. */
  datatype Step =
    | Emit(kind: string, text: string)
    | Complete(finalMessage: string)
    | Fail(error: string, recoverable: bool)
    | Disconnect(error: string)
    | AwaitApproval(onApprove: Script, onDeny: Script)
    | AwaitQuestion(prompt: string, onAnswer: Choice -> Script)

  datatype Script = End | Then(step: Step, rest: Script)

  datatype Body =
    | TurnStarted(prompt: string)
    | Plain(kind: string, text: string)
    | MessageCompleted(text: string)
    | TurnCompleted(finalMessage: string)
    | TurnFailed(error: string, recoverable: bool)
    | PermissionRequired
    | QuestionRequired(prompt: string)
  {
    predicate Terminal() { TurnCompleted? || TurnFailed? }
  }

  /** What has happened by the end of one await: was an interrupt requested, and how was the gate (if it was one)
      resolved. */
  datatype Input = Input(interrupted: bool, choice: Choice)

  const CANCELLED := One("__cancelled__")

  predicate Cancels(i: Input) { i.choice == CANCELLED || i.interrupted }

  const INTERRUPTED := TurnFailed("interrupted by user", true)

  /** The events of a turn so far, and whether its generator has returned. */
  datatype Turn = Turn(events: seq<Body>, finished: bool)

  function Prepend(e: Body, t: Turn): Turn { Turn([e] + t.events, t.finished) }

  /** runSteps on the awaits that have been resolved so far, one input an await. */
  function Play(s: Script, ins: seq<Input>): Turn
    decreases |ins|
  {
    if s.End? then Turn([], true)
    else if ins == [] then Turn([], false)
    else if ins[0].interrupted then Turn([INTERRUPTED], true)
    else
      match s.step
      case Emit(kind, text) => Prepend(Plain(kind, text), Play(s.rest, ins[1..]))
      case Complete(m) => Turn([MessageCompleted(m), TurnCompleted(m)], true)
      case Fail(e, r) => Turn([TurnFailed(e, r)], true)
      case Disconnect(e) => Turn([TurnFailed(e, true)], true)
      case AwaitApproval(yes, no) =>
        Prepend(PermissionRequired,
          if |ins| == 1 then Turn([], false)
          else if Cancels(ins[1]) then Turn([INTERRUPTED], true)
          else Play(if ins[1].choice == One("deny") then no else yes, ins[2..]))
      case AwaitQuestion(prompt, onAnswer) =>
        Prepend(QuestionRequired(prompt),
          if |ins| == 1 then Turn([], false)
          else if Cancels(ins[1]) then Turn([INTERRUPTED], true)
          else Play(onAnswer(ins[1].choice), ins[2..]))
  }

  // ---- which scripts end properly ------------------------------------------------

  datatype WalkEnd = Closed | FellOff | AtGate

  /** Follows the branch that the given gate answers select: does it reach a closing step, fall off the end of a step
      list, or stand at a gate when the answers run out? */
  function Walk(s: Script, answers: seq<Choice>): WalkEnd
    decreases |answers|, s
  {
    match s
    case End => FellOff
    case Then(Emit(_, _), rest) => Walk(rest, answers)
    case Then(AwaitApproval(yes, no), _) =>
      if answers == [] then AtGate else Walk(if answers[0] == One("deny") then no else yes, answers[1..])
    case Then(AwaitQuestion(_, onAnswer), _) =>
      if answers == [] then AtGate else Walk(onAnswer(answers[0]), answers[1..])
    case Then(_, _) => Closed
  }

  /** Every branch ends in completed, failed or disconnect.  (A branch on the cancel marker is never taken.) */
  ghost predicate Ends(s: Script) {
    forall answers :: CANCELLED !in answers ==> Walk(s, answers) != FellOff
  }

  /** No terminal event except possibly the last, and none at all while the turn is running. */
  ghost predicate AtMostOneTerminal(t: Turn) {
    && (forall i :: 0 <= i < |t.events| - 1 ==> !t.events[i].Terminal())
    && (t.events != [] && t.events[|t.events| - 1].Terminal() ==> t.finished)
  }

  ghost predicate ClosedProperly(t: Turn) {
    AtMostOneTerminal(t) && (t.finished ==> t.events != [] && t.events[|t.events| - 1].Terminal())
  }

  lemma PrependPlain(e: Body, t: Turn)
    requires AtMostOneTerminal(t) && !e.Terminal()
    ensures AtMostOneTerminal(Prepend(e, t))
    ensures t.finished ==> (ClosedProperly(Prepend(e, t)) <==> ClosedProperly(t))
  {}

  /** Whatever the script, a turn never has two terminal events nor anything after one. */
  lemma {:induction false} NeverTwoTerminals(s: Script, ins: seq<Input>)
    ensures AtMostOneTerminal(Play(s, ins))
    decreases |ins|
  {
    if s.Then? && ins != [] && !ins[0].interrupted {
      match s.step
      case Emit(kind, text) =>
        NeverTwoTerminals(s.rest, ins[1..]);
        PrependPlain(Plain(kind, text), Play(s.rest, ins[1..]));
      case AwaitApproval(yes, no) =>
        if |ins| > 1 && !Cancels(ins[1]) {
          var cont := if ins[1].choice == One("deny") then no else yes;
          NeverTwoTerminals(cont, ins[2..]);
          PrependPlain(PermissionRequired, Play(cont, ins[2..]));
        }
      case AwaitQuestion(prompt, onAnswer) =>
        if |ins| > 1 && !Cancels(ins[1]) {
          NeverTwoTerminals(onAnswer(ins[1].choice), ins[2..]);
          PrependPlain(QuestionRequired(prompt), Play(onAnswer(ins[1].choice), ins[2..]));
        }
      case _ =>
    }
  }

  /** A turn that returned without a terminal event followed a branch that falls off. */
  lemma {:induction false} FoundFellOff(s: Script, ins: seq<Input>) returns (answers: seq<Choice>)
    requires Play(s, ins).finished && !ClosedProperly(Play(s, ins))
    ensures CANCELLED !in answers && Walk(s, answers) == FellOff
    decreases |ins|
  {
    NeverTwoTerminals(s, ins);
    answers := [];
    if s.Then? {
      match s.step
      case Emit(kind, text) =>
        NeverTwoTerminals(s.rest, ins[1..]);
        answers := FoundFellOff(s.rest, ins[1..]);
      case AwaitApproval(yes, no) =>
        var more := FoundFellOff(if ins[1].choice == One("deny") then no else yes, ins[2..]);
        answers := [ins[1].choice] + more;
      case AwaitQuestion(_, onAnswer) =>
        var more := FoundFellOff(onAnswer(ins[1].choice), ins[2..]);
        answers := [ins[1].choice] + more;
      case _ =>
    }
  }

  /** Awaits without interrupts that drive the interpreter down the branch the answers select. */
  lemma {:induction false} DriveFellOff(s: Script, answers: seq<Choice>) returns (ins: seq<Input>)
    requires CANCELLED !in answers && Walk(s, answers) == FellOff
    ensures Play(s, ins).finished && !ClosedProperly(Play(s, ins))
    decreases |answers|, s
  {
    match s
    case End => ins := [];
    case Then(Emit(kind, text), rest) =>
      var more := DriveFellOff(rest, answers);
      ins := [Input(false, One(""))] + more;
      NeverTwoTerminals(rest, more);
      PrependPlain(Plain(kind, text), Play(rest, more));
    case Then(AwaitApproval(yes, no), _) =>
      var cont := if answers[0] == One("deny") then no else yes;
      var more := DriveFellOff(cont, answers[1..]);
      ins := [Input(false, One("")), Input(false, answers[0])] + more;
      assert ins[2..] == more && Play(s, ins) == Prepend(PermissionRequired, Play(cont, more));
      NeverTwoTerminals(cont, more);
      PrependPlain(PermissionRequired, Play(cont, more));
    case Then(AwaitQuestion(prompt, onAnswer), _) =>
      var more := DriveFellOff(onAnswer(answers[0]), answers[1..]);
      ins := [Input(false, One("")), Input(false, answers[0])] + more;
      assert ins[2..] == more && Play(s, ins) == Prepend(QuestionRequired(prompt), Play(onAnswer(answers[0]), more));
      NeverTwoTerminals(onAnswer(answers[0]), more);
      PrependPlain(QuestionRequired(prompt), Play(onAnswer(answers[0]), more));
    case Then(_, _) =>
  }

  /** A turn of a script that ends properly is running without a terminal event, or has exactly one, in last place. */
  lemma TurnCloses(s: Script, ins: seq<Input>)
    requires Ends(s)
    ensures ClosedProperly(Play(s, ins))
  {
    NeverTwoTerminals(s, ins);
    if !ClosedProperly(Play(s, ins)) {
      var answers := FoundFellOff(s, ins);
      assert false;
    }
  }

  /** For all gate answers and interrupt points the interpreter ends each turn with exactly one terminal event, in
      last place, if and only if every branch of the script ends in completed, failed or disconnect. */
  lemma TurnsEndExactlyWhen(s: Script)
    ensures Ends(s) <==> forall ins :: ClosedProperly(Play(s, ins))
  {
    if Ends(s) {
      forall ins ensures ClosedProperly(Play(s, ins)) {
        TurnCloses(s, ins);
      }
    } else {
      var answers :| CANCELLED !in answers && Walk(s, answers) == FellOff;
      var ins := DriveFellOff(s, answers);
      assert !ClosedProperly(Play(s, ins));
    }
  }

  // ---- the shipped scenarios --------------------------------------------------------

  datatype Scenario =
    | Normal | ApprovalRequired | QuestionRequiredScenario | ToolHeavy | FileChanges | Failed | Reconnect

  function FromSeq(steps: seq<Step>): Script {
    if steps == [] then End else Then(steps[0], FromSeq(steps[1..]))
  }

  // Each list keeps the source's steps in order; the labels stand for the message texts.

  const NORMAL: seq<Step> := [
    Emit("message_delta", "start"), Emit("token_usage_updated", ""),
    Emit("message_delta", "reviewed"), Emit("message_delta", "proceeding"),
    Complete("done")]

  const TOOL_HEAVY: seq<Step> := [
    Emit("message_delta", "start"),
    Emit("tool_started", "grep"), Emit("tool_completed", "grep"),
    Emit("tool_started", "read_file"), Emit("tool_completed", "read_file"),
    Emit("tool_started", "run_tests"), Emit("tool_completed", "run_tests"),
    Emit("message_delta", "fixing"),
    Emit("tool_started", "run_tests"), Emit("tool_completed", "run_tests"),
    Complete("passed")]

  const FILE_CHANGES: seq<Step> := [
    Emit("message_delta", "start"),
    Emit("file_changed", "slice"), Emit("file_changed", "view"),
    Emit("file_changed", "test"), Emit("file_changed", "legacy"),
    Complete("refactored")]

  const FAILED: seq<Step> := [
    Emit("message_delta", "start"), Emit("tool_started", "build"), Emit("tool_completed", "build"),
    Fail("build failed", true)]

  const RECONNECT_PARTIAL: seq<Step> := [
    Emit("message_delta", "start"), Emit("tool_started", "index_repo"), Emit("tool_completed", "index_repo"),
    Emit("message_delta", "halfway"),
    Disconnect("disconnected")]

  const RECONNECT_REPLAY: seq<Step> := [
    Emit("message_delta", "start"), Emit("tool_started", "index_repo"), Emit("tool_completed", "index_repo"),
    Emit("message_delta", "halfway"), Emit("message_delta", "complete"),
    Complete("recovered")]

  const ON_APPROVE: seq<Step> := [
    Emit("tool_started", "shell"), Emit("tool_completed", "shell"), Complete("applied")]

  const ON_DENY: seq<Step> := [Emit("tool_completed", "shell"), Complete("denied")]

  function Picked(c: Choice): string {
    match c case One(v) => v case Many(vs) => JoinComma(vs)
  }

  function JoinComma(vs: seq<string>): string {
    if vs == [] then "" else if |vs| == 1 then vs[0] else vs[0] + ", " + JoinComma(vs[1..])
  }

  function OnAnswer(c: Choice): seq<Step> {
    [Emit("message_delta", Picked(c)), Emit("file_changed", "widget"), Complete(Picked(c))]
  }

  function ScriptFor(scenario: Scenario, replay: bool): Script {
    match scenario
    case Normal => FromSeq(NORMAL)
    case ToolHeavy => FromSeq(TOOL_HEAVY)
    case FileChanges => FromSeq(FILE_CHANGES)
    case Failed => FromSeq(FAILED)
    case ApprovalRequired =>
      Then(Emit("message_delta", "migration"), Then(AwaitApproval(FromSeq(ON_APPROVE), FromSeq(ON_DENY)), End))
    case QuestionRequiredScenario =>
      Then(Emit("message_delta", "decision"), Then(AwaitQuestion("styling", c => FromSeq(OnAnswer(c))), End))
    case Reconnect => if replay then FromSeq(RECONNECT_REPLAY) else FromSeq(RECONNECT_PARTIAL)
  }

  predicate Closing(s: Step) { s.Complete? || s.Fail? || s.Disconnect? }

  /** A step list that emits and then closes. */
  predicate Straight(steps: seq<Step>) {
    steps != [] && Closing(steps[|steps| - 1]) && forall i :: 0 <= i < |steps| - 1 ==> steps[i].Emit?
  }

  lemma {:induction false} StraightCloses(steps: seq<Step>, answers: seq<Choice>)
    requires Straight(steps)
    ensures Walk(FromSeq(steps), answers) == Closed
  {
    if |steps| > 1 {
      StraightCloses(steps[1..], answers);
    }
  }

  lemma StraightScripts()
    ensures Straight(NORMAL) && Straight(TOOL_HEAVY) && Straight(FILE_CHANGES) && Straight(FAILED)
    ensures Straight(RECONNECT_PARTIAL) && Straight(RECONNECT_REPLAY) && Straight(ON_APPROVE) && Straight(ON_DENY)
    ensures forall c :: Straight(OnAnswer(c))
  {}

  lemma GatedCloses(kind: string, text: string, gate: Step, answers: seq<Choice>)
    requires gate.AwaitApproval? || gate.AwaitQuestion?
    ensures answers == [] ==> Walk(Then(Emit(kind, text), Then(gate, End)), answers) == AtGate
    ensures answers != [] ==>
      var cont := if gate.AwaitQuestion? then gate.onAnswer(answers[0])
                  else if answers[0] == One("deny") then gate.onDeny else gate.onApprove;
      Walk(Then(Emit(kind, text), Then(gate, End)), answers) == Walk(cont, answers[1..])
  {}

  /** Every scenario ends properly on all its branches, so every turn of the mock does. */
  lemma ScenariosEnd(scenario: Scenario, replay: bool)
    ensures Ends(ScriptFor(scenario, replay))
    ensures forall ins :: ClosedProperly(Play(ScriptFor(scenario, replay), ins))
  {
    forall answers ensures Walk(ScriptFor(scenario, replay), answers) != FellOff {
      ScenarioWalk(scenario, replay, answers);
    }
    TurnsEndExactlyWhen(ScriptFor(scenario, replay));
  }

  lemma ApprovalWalk(answers: seq<Choice>)
    ensures Walk(ScriptFor(ApprovalRequired, false), answers) != FellOff
  {
    StraightScripts();
    var script := ScriptFor(ApprovalRequired, false);
    GatedCloses(script.step.kind, script.step.text, script.rest.step, answers);
    if answers != [] {
      StraightCloses(ON_APPROVE, answers[1..]);
      StraightCloses(ON_DENY, answers[1..]);
    }
  }

  lemma QuestionWalk(answers: seq<Choice>)
    ensures Walk(ScriptFor(QuestionRequiredScenario, false), answers) != FellOff
  {
    StraightScripts();
    var script := ScriptFor(QuestionRequiredScenario, false);
    GatedCloses(script.step.kind, script.step.text, script.rest.step, answers);
    if answers != [] { StraightCloses(OnAnswer(answers[0]), answers[1..]); }
  }

  lemma ScenarioWalk(scenario: Scenario, replay: bool, answers: seq<Choice>)
    ensures Walk(ScriptFor(scenario, replay), answers) != FellOff
  {
    match scenario
    case ApprovalRequired => ApprovalWalk(answers);
    case QuestionRequiredScenario => QuestionWalk(answers);
    case _ =>
      StraightScripts();
      var steps := match scenario
        case ToolHeavy => TOOL_HEAVY
        case FileChanges => FILE_CHANGES
        case Failed => FAILED
        case Reconnect => if replay then RECONNECT_REPLAY else RECONNECT_PARTIAL
        case _ => NORMAL;
      StraightCloses(steps, answers);
  }

  // ---- what gates and scenarios do --------------------------------------------------------

  /** The await of a gate's own event. */
  lemma GateAnswers(s: Script, ins: seq<Input>)
    requires s.Then? && (s.step.AwaitApproval? || s.step.AwaitQuestion?)
    requires |ins| >= 2 && !ins[0].interrupted
    ensures var asked := if s.step.AwaitApproval? then PermissionRequired else QuestionRequired(s.step.prompt);
      Play(s, ins) ==
        if ins[1].interrupted || ins[1].choice == One("__cancelled__")
        then Turn([asked, TurnFailed("interrupted by user", true)], true)
        else Prepend(asked, Play(
          if s.step.AwaitQuestion? then s.step.onAnswer(ins[1].choice)
          else if ins[1].choice == One("deny") then s.step.onDeny else s.step.onApprove, ins[2..]))
  {}

  function EventOf(s: Step): Body
    requires s.Emit?
  {
    Plain(s.kind, s.text)
  }

  /** What a closing step says: its text, and whether it completed the turn. */
  function Closes(s: Step): seq<Body>
    requires Closing(s)
  {
    if s.Complete? then [MessageCompleted(s.finalMessage), TurnCompleted(s.finalMessage)]
    else if s.Fail? then [TurnFailed(s.error, s.recoverable)]
    else [TurnFailed(s.error, true)]
  }

  function Emitted(steps: seq<Step>): seq<Body>
    requires forall i :: 0 <= i < |steps| ==> steps[i].Emit?
  {
    if steps == [] then [] else [EventOf(steps[0])] + Emitted(steps[1..])
  }

  predicate Undisturbed(ins: seq<Input>) { forall i :: 0 <= i < |ins| ==> !ins[i].interrupted }

  /** An undisturbed turn of a straight script shows every step in order and then its closing. */
  lemma {:induction false} StraightPlay(steps: seq<Step>, ins: seq<Input>)
    requires Straight(steps) && |ins| >= |steps| && Undisturbed(ins)
    ensures Play(FromSeq(steps), ins) ==
      Turn(Emitted(steps[..|steps| - 1]) + Closes(steps[|steps| - 1]), true)
  {
    var front, last := steps[..|steps| - 1], steps[|steps| - 1];
    if |steps| == 1 {
      assert front == [] && Emitted(front) + Closes(last) == Closes(last);
    } else {
      StraightPlay(steps[1..], ins[1..]);
      assert steps[1..][..|steps| - 2] == front[1..];
      AssocBodies([EventOf(steps[0])], Emitted(front[1..]), Closes(last));
    }
  }

  lemma AssocBodies(a: seq<Body>, b: seq<Body>, c: seq<Body>)
    ensures a + (b + c) == a + b + c
  {}

  function LastOf(es: seq<Body>): Body
    requires es != []
  {
    es[|es| - 1]
  }

  /** An event of this type is shown. */
  predicate Shows(es: seq<Body>, kind: string) { exists i :: 0 <= i < |es| && es[i].Plain? && es[i].kind == kind }

  lemma {:induction false} EmittedShows(steps: seq<Step>, kind: string)
    requires forall i :: 0 <= i < |steps| ==> steps[i].Emit?
    ensures |Emitted(steps)| == |steps| && forall i :: 0 <= i < |steps| ==> Emitted(steps)[i] == EventOf(steps[i])
    ensures Shows(Emitted(steps), kind) <==> exists i :: 0 <= i < |steps| && steps[i].kind == kind
  {
    EmittedAre(steps);
  }

  lemma {:induction false} EmittedAre(steps: seq<Step>)
    requires forall i :: 0 <= i < |steps| ==> steps[i].Emit?
    ensures |Emitted(steps)| == |steps| && forall i :: 0 <= i < |steps| ==> Emitted(steps)[i] == EventOf(steps[i])
  {
    if steps != [] { EmittedAre(steps[1..]); }
  }

  /** Some step emits an event of this type. */
  predicate Emits(steps: seq<Step>, kind: string) {
    exists i :: 0 <= i < |steps| && steps[i].Emit? && steps[i].kind == kind
  }

  /** An undisturbed straight turn: how it ends and which types of event it shows. */
  lemma {:induction false} StraightTurn(steps: seq<Step>, ins: seq<Input>, kind: string)
    requires Straight(steps) && |ins| >= |steps| && Undisturbed(ins)
    ensures var t := Play(FromSeq(steps), ins);
      && t.finished && t.events != [] && LastOf(t.events) == LastOf(Closes(steps[|steps| - 1]))
      && (Shows(t.events, kind) <==> Emits(steps, kind))
  {
    var front, last := steps[..|steps| - 1], steps[|steps| - 1];
    var es := Emitted(front) + Closes(last);
    StraightPlay(steps, ins);
    EmittedShows(front, kind);
    if Shows(es, kind) {
      var i :| 0 <= i < |es| && es[i].Plain? && es[i].kind == kind;
      assert i < |front| && front[i] == steps[i];
    }
    if i :| 0 <= i < |steps| && steps[i].Emit? && steps[i].kind == kind {
      assert front[i] == steps[i] && es[i] == EventOf(steps[i]);
    }
  }

  /** The plain scenarios, played undisturbed: how each ends and what sets it apart. */
  lemma {:induction false} NormalPlays(ins: seq<Input>, kind: string)
    requires |ins| >= 11 && Undisturbed(ins)
    ensures var es := Play(ScriptFor(Normal, false), ins).events;
      && es != [] && LastOf(es).TurnCompleted?
      && (Shows(es, kind) <==> kind == "message_delta" || kind == "token_usage_updated")
  {
    assert Straight(NORMAL);
    StraightTurn(NORMAL, ins, kind);
    assert NORMAL[0].kind == "message_delta" && NORMAL[1].kind == "token_usage_updated";
  }

  lemma {:induction false} ToolHeavyPlays(ins: seq<Input>, kind: string)
    requires |ins| >= 11 && Undisturbed(ins)
    ensures var es := Play(ScriptFor(ToolHeavy, false), ins).events;
      && es != [] && LastOf(es).TurnCompleted?
      && (Shows(es, kind) <==> kind == "message_delta" || kind == "tool_started" || kind == "tool_completed")
  {
    assert Straight(TOOL_HEAVY);
    StraightTurn(TOOL_HEAVY, ins, kind);
    ToolHeavyEmits(kind);
  }

  lemma ToolHeavyEmits(kind: string)
    ensures Emits(TOOL_HEAVY, kind) <==>
      kind == "message_delta" || kind == "tool_started" || kind == "tool_completed"
  {
    assert TOOL_HEAVY[0].kind == "message_delta";
    assert TOOL_HEAVY[1].kind == "tool_started" && TOOL_HEAVY[2].kind == "tool_completed";
  }

  lemma {:induction false} FileChangesPlays(ins: seq<Input>, kind: string)
    requires |ins| >= 11 && Undisturbed(ins)
    ensures var es := Play(ScriptFor(FileChanges, false), ins).events;
      && es != [] && LastOf(es).TurnCompleted?
      && (Shows(es, kind) <==> kind == "message_delta" || kind == "file_changed")
  {
    assert Straight(FILE_CHANGES);
    StraightTurn(FILE_CHANGES, ins, kind);
    assert FILE_CHANGES[0].kind == "message_delta" && FILE_CHANGES[1].kind == "file_changed";
  }

  lemma {:induction false} FailedPlays(ins: seq<Input>)
    requires |ins| >= 11 && Undisturbed(ins)
    ensures var es := Play(ScriptFor(Failed, false), ins).events;
      es != [] && LastOf(es).TurnFailed? && LastOf(es).recoverable
  {
    assert Straight(FAILED);
    StraightTurn(FAILED, ins, "");
  }

  /** Reconnect: the first turn breaks off recoverably, and the replay shows all of it again and then completes. */
  lemma {:induction false} ReconnectReplays(ins: seq<Input>)
    requires |ins| >= 11 && Undisturbed(ins)
    ensures var broken := Play(ScriptFor(Reconnect, false), ins).events;
      var replay := Play(ScriptFor(Reconnect, true), ins).events;
      && broken != [] && LastOf(broken).TurnFailed? && LastOf(broken).recoverable
      && replay != [] && LastOf(replay).TurnCompleted?
      && broken[..|broken| - 1] <= replay
  {
    StraightScripts();
    StraightPlay(RECONNECT_PARTIAL, ins);
    StraightPlay(RECONNECT_REPLAY, ins);
    var shown := RECONNECT_PARTIAL[..4];
    assert RECONNECT_PARTIAL[..|RECONNECT_PARTIAL| - 1] == shown == RECONNECT_REPLAY[..5][..4];
    EmittedAre(shown);
    EmittedAre(RECONNECT_REPLAY[..5]);
  }

  /** A denied command is not run and an approved one is; both turns complete. */
  lemma {:induction false} ApprovalDecides(ins: seq<Input>)
    requires |ins| >= 11 && Undisturbed(ins) && ins[2].choice != One("__cancelled__")
    ensures var es := Play(ScriptFor(ApprovalRequired, false), ins).events;
      && es != [] && LastOf(es).TurnCompleted? && PermissionRequired in es
      && (Shows(es, "tool_started") <==> ins[2].choice != One("deny"))
  {
    StraightScripts();
    var script := ScriptFor(ApprovalRequired, false);
    var asked, cont := [Plain(script.step.kind, script.step.text), PermissionRequired],
      if ins[2].choice == One("deny") then ON_DENY else ON_APPROVE;
    GateAnswers(script.rest, ins[1..]);
    assert ins[1..][2..] == ins[3..] && ins[1..][1] == ins[2];
    StraightTurn(cont, ins[3..], "tool_started");
    assert ON_APPROVE[0].kind == "tool_started";
    ShowsBehind(asked, Play(FromSeq(cont), ins[3..]).events, "tool_started");
    assert Play(script, ins).events == asked + Play(FromSeq(cont), ins[3..]).events;
  }

  lemma ShowsBehind(asked: seq<Body>, es: seq<Body>, kind: string)
    requires es != [] && forall i :: 0 <= i < |asked| ==> asked[i].Plain? ==> asked[i].kind != kind
    ensures Shows(asked + es, kind) <==> Shows(es, kind)
    ensures LastOf(asked + es) == LastOf(es)
  {
    if i :| 0 <= i < |es| && es[i].Plain? && es[i].kind == kind {
      assert (asked + es)[|asked| + i] == es[i];
    }
  }

  /** The answer to the question is what the turn completes with; several answers are joined. */
  lemma {:induction false} QuestionAnswered(ins: seq<Input>)
    requires |ins| >= 11 && Undisturbed(ins) && ins[2].choice != One("__cancelled__")
    ensures var es := Play(ScriptFor(QuestionRequiredScenario, false), ins).events;
      && es != [] && LastOf(es).TurnCompleted? && LastOf(es).finalMessage == Picked(ins[2].choice)
    ensures Picked(One("a")) == "a" && Picked(Many(["a", "b"])) == "a, b"
  {
    StraightScripts();
    var script := ScriptFor(QuestionRequiredScenario, false);
    GateAnswers(script.rest, ins[1..]);
    assert ins[1..][2..] == ins[3..] && ins[1..][1] == ins[2];
    StraightTurn(OnAnswer(ins[2].choice), ins[3..], "");
    assert ["a", "b"][1..] == ["b"];
  }
}
