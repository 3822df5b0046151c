/** The two clients as objects: the mock that records and replays, and the HTTP client that keeps a cursor per run. */
module RunClients {
  import opened RunLog
  import opened Text
  import opened TurnScript
  import opened Wrappers

  function After(s: RunState, bodies: seq<Body>): RunState {
    RunState(s.seqNo + |bodies|, StatusAfter(s.status, bodies), s.turn)
  }

  /** The stored part of the mock. */
  datatype Store = Store(runs: map<string, RunState>, eventLog: map<string, seq<Event>>)

  function LogIn(v: Store, run: string): seq<Event> {
    if run in v.eventLog then v.eventLog[run] else []
  }

  /** One event of `run`: numbered, appended to its log, and driving its status. */
  function Recorded(v: Store, run: string, body: Body): Store
    requires run in v.runs
  {
    var s := v.runs[run];
    Store(v.runs[run := RunState(s.seqNo + 1, StatusOn(s.status, body), s.turn)],
          v.eventLog[run := LogIn(v, run) + [Event(s.seqNo + 1, Some(s.turn), body)]])
  }

  /** A new turn of `run` begins; a run seen for the first time starts at 0. */
  function Opened(v: Store, run: string, turn: nat): Store {
    v.(runs := v.runs[run := RunState(if run in v.runs then v.runs[run].seqNo else 0, RunRunning, turn)])
  }

  /** `v` with the turn of `run` that started from state `s` and log `log` at the point where `done` is recorded. */
  function At(v: Store, run: string, s: RunState, log: seq<Event>, done: seq<Body>): Store {
    Store(v.runs[run := After(s, done)], v.eventLog[run := log + Stamp(done, s.turn, s.seqNo)])
  }

  lemma LogMore(log: seq<Event>, turn: nat, from: nat, done: seq<Body>, e: Body)
    ensures log + Stamp(done + [e], turn, from) ==
      log + Stamp(done, turn, from) + [Event(from + |done| + 1, Some(turn), e)]
  {
    StampMore(done, e, turn, from);
    Assoc(log, Stamp(done, turn, from), [Event(from + |done| + 1, Some(turn), e)]);
  }

  lemma AfterMore(s: RunState, done: seq<Body>, e: Body)
    ensures After(s, done + [e]) == RunState(s.seqNo + |done| + 1, StatusOn(StatusAfter(s.status, done), e), s.turn)
  {
    StatusMore(s.status, done, e);
  }

  /** Every log is gapless and as long as its run's counter. */
  ghost predicate ValidStore(v: Store) {
    && (forall r :: r in v.eventLog ==> r in v.runs)
    && (forall r :: r in v.runs ==> Gapless(LogIn(v, r)) && v.runs[r].seqNo == |LogIn(v, r)|)
  }

  lemma TurnKeepsValid(v: Store, run: string, s: RunState, es: seq<Body>)
    requires ValidStore(v) && s.seqNo == |LogIn(v, run)|
    ensures ValidStore(At(v, run, s, LogIn(v, run), es))
  {
    assert Gapless(LogIn(v, run));
    GaplessAppend(LogIn(v, run), es, s.turn);
  }

  lemma OneEvent(s: RunState, e: Body)
    ensures Stamp([e], s.turn, s.seqNo) == [Event(s.seqNo + 1, Some(s.turn), e)]
    ensures After(s, [e]) == RunState(s.seqNo + 1, StatusOn(s.status, e), s.turn)
  {
    assert [e][..0] == [] && StatusAfter(s.status, []) == s.status;
  }

  /** Recording one more event of a turn. */
  lemma RecordedMore(v: Store, run: string, s: RunState, log: seq<Event>, done: seq<Body>, e: Body)
    ensures Recorded(At(v, run, s, log, done), run, e) == At(v, run, s, log, done + [e])
  {
    LogMore(log, s.turn, s.seqNo, done, e);
    AfterMore(s, done, e);
    PutTwice(v.runs, run, After(s, done), After(s, done + [e]));
    PutTwice(v.eventLog, run, log + Stamp(done, s.turn, s.seqNo), log + Stamp(done + [e], s.turn, s.seqNo));
  }

  lemma PutTwice<K, V>(m: map<K, V>, k: K, x: V, y: V)
    ensures m[k := x][k := y] == m[k := y]
  {}

  /** Opening a turn and recording its first event. */
  lemma OpenedTurn(v: Store, run: string, turn: nat, e: Body)
    requires ValidStore(v) && e.TurnStarted?
    ensures Recorded(Opened(v, run, turn), run, e) ==
      At(v, run, RunState(|LogIn(v, run)|, RunRunning, turn), LogIn(v, run), [e])
  {
    var s := RunState(|LogIn(v, run)|, RunRunning, turn);
    assert Opened(v, run, turn).runs[run] == s;
    OneEvent(s, e);
    PutTwice(v.runs, run, s, After(s, [e]));
  }

  function Extend(done: seq<Body>, t: Turn): Turn { Turn(done + t.events, t.finished) }

  /** The continuation of an approval gate. */
  function OnDecision(yes: Script, no: Script): Choice -> Script {
    c => if c == One("deny") then no else yes
  }

  lemma ExtendPrepend(done: seq<Body>, e: Body, t: Turn)
    ensures Extend(done, Prepend(e, t)) == Extend(done + [e], t)
  {}

  /** The turn on the inputs from position k. */
  function PlayFrom(s: Script, ins: seq<Input>, k: nat): Turn
    requires k <= |ins|
  {
    Play(s, ins[k..])
  }

  /** What the step at hand, at the await of input k, makes of the turn. */
  lemma NextStep(s: Script, ins: seq<Input>, k: nat, done: seq<Body>)
    requires s.Then? && k < |ins|
    ensures Extend(done, PlayFrom(s, ins, k)) ==
      if ins[k].interrupted then Turn(done + [INTERRUPTED], true)
      else match s.step
        case Emit(kind, text) => Extend(done + [Plain(kind, text)], PlayFrom(s.rest, ins, k + 1))
        case Complete(m) => Turn(done + [MessageCompleted(m)] + [TurnCompleted(m)], true)
        case Fail(e, r) => Turn(done + [TurnFailed(e, r)], true)
        case Disconnect(e) => Turn(done + [TurnFailed(e, true)], true)
        case AwaitApproval(yes, no) => Extend(done + [PermissionRequired], Gate(OnDecision(yes, no), ins, k + 1))
        case AwaitQuestion(prompt, onAnswer) => Extend(done + [QuestionRequired(prompt)], Gate(onAnswer, ins, k + 1))
  {
    assert ins[k..][1..] == ins[k + 1..];
    if k + 1 < |ins| { assert ins[k..][2..] == ins[k + 2..]; }
    match s.step
    case Emit(kind, text) => ExtendPrepend(done, Plain(kind, text), PlayFrom(s.rest, ins, k + 1));
    case Complete(m) =>
      assert [MessageCompleted(m), TurnCompleted(m)] == [MessageCompleted(m)] + [TurnCompleted(m)];
      Assoc(done, [MessageCompleted(m)], [TurnCompleted(m)]);
    case AwaitApproval(yes, no) => ExtendPrepend(done, PermissionRequired, Gate(OnDecision(yes, no), ins, k + 1));
    case AwaitQuestion(prompt, onAnswer) => ExtendPrepend(done, QuestionRequired(prompt), Gate(onAnswer, ins, k + 1));
    case _ =>
  }

  lemma StopsHere(s: Script, ins: seq<Input>, k: nat, done: seq<Body>)
    requires k <= |ins| && (s.End? || k == |ins|)
    ensures Extend(done, PlayFrom(s, ins, k)) == Turn(done, s.End?)
  {
    assert done + [] == done;
  }

  class MockRunnerClient {
    var runs: map<string, RunState>
    var eventLog: map<string, seq<Event>>
    var aborted: set<string>
    var replayRuns: set<string>
    var nextTurn: nat

    ghost function Stored(): Store
      reads this
    {
      Store(runs, eventLog)
    }

    ghost function LogOf(run: string): seq<Event>
      reads this
    {
      LogIn(Stored(), run)
    }

    ghost predicate Valid()
      reads this
    {
      ValidStore(Stored())
    }

    constructor ()
      ensures Valid() && runs == map[] && eventLog == map[]
    {
      runs, eventLog, aborted, replayRuns, nextTurn := map[], map[], {}, {}, 0;
    }

    method Interrupt(run: string)
      modifies this`aborted
      ensures aborted == old(aborted) + {run}
    {
      aborted := aborted + {run};
    }

    method ResumeRun(run: string)
      modifies this`replayRuns
      ensures replayRuns == old(replayRuns) + {run}
    {
      replayRuns := replayRuns + {run};
    }

    /** base() and rec(): number the event, append it to the log and let it drive the run's status. */
    method Record(run: string, body: Body)
      requires run in runs
      modifies this`runs, this`eventLog
      ensures Stored() == Recorded(old(Stored()), run, body)
    {
      var s := runs[run];
      var e := Event(s.seqNo + 1, Some(s.turn), body);
      s := s.(seqNo := s.seqNo + 1);
      if run in eventLog {
        eventLog := eventLog[run := eventLog[run] + [e]];
      } else {
        eventLog := eventLog[run := [e]];
        assert [] + [e] == [e];
      }
      match body {
        case TurnStarted(_) => s := s.(status := RunRunning);
        case PermissionRequired => s := s.(status := WaitingApproval);
        case QuestionRequired(_) => s := s.(status := WaitingQuestion);
        case TurnCompleted(_) => s := s.(status := RunCompleted);
        case TurnFailed(_, _) => s := s.(status := RunFailed);
        case _ =>
      }
      runs := runs[run := s];
    }

    /** One more event of the turn. */
    method RecordMore(run: string, body: Body, ghost v: Store, ghost s: RunState, ghost log: seq<Event>,
                      ghost done: seq<Body>)
      requires Stored() == At(v, run, s, log, done)
      modifies this`runs, this`eventLog
      ensures Stored() == At(v, run, s, log, done + [body])
    {
      RecordedMore(v, run, s, log, done, body);
      Record(run, body);
    }

    /** runSteps: plays the script on the inputs that arrive at its awaits, recording every event.  The result tells
        whether the generator has returned or still waits. */
    method RunSteps(run: string, script: Script, ins: seq<Input>, ghost v: Store, ghost s: RunState,
                    ghost log: seq<Event>, ghost before: seq<Body>)
        returns (finished: bool)
      requires Stored() == At(v, run, s, log, before) && run !in aborted
      modifies this`runs, this`eventLog, this`aborted
      ensures finished == Play(script, ins).finished
      ensures Stored() == At(v, run, s, log, before + Play(script, ins).events)
      ensures aborted == old(aborted)
      decreases |ins|
    {
      var rest, k := script, 0;
      ghost var done, goal := before, Extend(before, Play(script, ins));
      assert ins[0..] == ins;
      while rest.Then? && k < |ins|
        invariant k <= |ins| && run !in aborted && aborted == old(aborted)
        invariant Stored() == At(v, run, s, log, done)
        invariant goal == Extend(done, PlayFrom(rest, ins, k))
        decreases |ins| - k
      {
        NextStep(rest, ins, k, done);
        // await delay(step.delay)
        if ins[k].interrupted { Interrupt(run); }
        if run in aborted {
          aborted := aborted - {run};
          RecordMore(run, INTERRUPTED, v, s, log, done);
          return true;
        }
        match rest.step {
          case Emit(kind, text) =>
            RecordMore(run, Plain(kind, text), v, s, log, done);
            done := done + [Plain(kind, text)];
          case Complete(m) =>
            RecordMore(run, MessageCompleted(m), v, s, log, done);
            RecordMore(run, TurnCompleted(m), v, s, log, done + [MessageCompleted(m)]);
            return true;
          case Fail(e, r) =>
            RecordMore(run, TurnFailed(e, r), v, s, log, done);
            return true;
          case Disconnect(e) =>
            RecordMore(run, TurnFailed(e, true), v, s, log, done);
            return true;
          case AwaitApproval(yes, no) =>
            RecordMore(run, PermissionRequired, v, s, log, done);
            finished := PassGate(run, OnDecision(yes, no), ins, k + 1, v, s, log, done + [PermissionRequired]);
            return;
          case AwaitQuestion(prompt, onAnswer) =>
            RecordMore(run, QuestionRequired(prompt), v, s, log, done);
            finished := PassGate(run, onAnswer, ins, k + 1, v, s, log, done + [QuestionRequired(prompt)]);
            return;
        }
        rest, k := rest.rest, k + 1;
      }
      StopsHere(rest, ins, k, done);
      return rest.End?;
    }

    /** A gate: wait for its answer or a cancel, then play the continuation that the answer selects. */
    method PassGate(run: string, cont: Choice -> Script, ins: seq<Input>, k: nat, ghost v: Store,
                    ghost s: RunState, ghost log: seq<Event>, ghost before: seq<Body>)
        returns (finished: bool)
      requires Stored() == At(v, run, s, log, before) && run !in aborted && k <= |ins|
      modifies this`runs, this`eventLog, this`aborted
      ensures finished == Gate(cont, ins, k).finished
      ensures Stored() == At(v, run, s, log, before + Gate(cont, ins, k).events)
      ensures aborted == old(aborted)
      decreases |ins| - k
    {
      if k == |ins| {
        assert before + [] == before;
        return false;
      }
      if ins[k].interrupted { Interrupt(run); }
      if ins[k].choice == CANCELLED || run in aborted {
        aborted := aborted - {run};
        RecordMore(run, INTERRUPTED, v, s, log, before);
        return true;
      }
      finished := RunSteps(run, cont(ins[k].choice), ins[k + 1..], v, s, log, before);
    }

    /** The script sendTurn selects: the scenario's, replayed in full once after a resume. */
    method NextScript(run: string, scenario: Scenario) returns (script: Script)
      modifies this`replayRuns
      ensures script == ScriptFor(scenario, run in old(replayRuns))
      ensures replayRuns == old(replayRuns) - {run}
    {
      var isReplay := run in replayRuns;
      if isReplay { replayRuns := replayRuns - {run}; }
      return ScriptFor(scenario, isReplay);
    }

    /** sendTurn on the script it has selected: open the turn, play the script, record everything. */
    method SendTurn(run: string, prompt: string, script: Script, ins: seq<Input>) returns (finished: bool)
      requires Valid()
      modifies this`runs, this`eventLog, this`aborted, this`nextTurn
      ensures var s := RunState(|old(LogOf(run))|, RunRunning, old(nextTurn));
        && finished == Play(script, ins).finished
        && Stored() == At(old(Stored()), run, s, old(LogOf(run)), TurnBodies(prompt, script, ins))
      ensures Valid()
      ensures nextTurn == old(nextTurn) + 1
    {
      ghost var s := RunState(|LogOf(run)|, RunRunning, nextTurn);
      ghost var v, log := Stored(), LogOf(run);
      TurnKeepsValid(v, run, s, TurnBodies(prompt, script, ins));
      OpenTurn(run, prompt);
      finished := RunSteps(run, script, ins, v, s, log, [TurnStarted(prompt)]);
    }

    /** Fetch or make the run's state, stamp a new turn, forget old interrupts, and lead with turn_started. */
    method OpenTurn(run: string, prompt: string)
      requires Valid()
      modifies this`runs, this`eventLog, this`aborted, this`nextTurn
      ensures Stored() == Recorded(Opened(old(Stored()), run, old(nextTurn)), run, TurnStarted(prompt))
      ensures Stored() == At(old(Stored()), run, RunState(|old(LogOf(run))|, RunRunning, old(nextTurn)),
                             old(LogOf(run)), [TurnStarted(prompt)])
      ensures aborted == old(aborted) - {run} && nextTurn == old(nextTurn) + 1
    {
      var state := if run in runs then runs[run] else RunState(0, RunRunning, 0);
      state := state.(turn := nextTurn, status := RunRunning);
      nextTurn := nextTurn + 1;
      runs := runs[run := state];
      aborted := aborted - {run};
      OpenedTurn(old(Stored()), run, old(nextTurn), TurnStarted(prompt));
      Record(run, TurnStarted(prompt));
    }

    /** Events that other generators record for `run` while its stream pauses. */
    method RecordArrivals(run: string, bodies: seq<Body>)
      requires Valid() && run in runs
      modifies this`runs, this`eventLog
      ensures Valid() && run in runs && old(LogOf(run)) <= LogOf(run)
      ensures |LogOf(run)| == old(|LogOf(run)|) + |bodies|
      ensures forall r :: r != run ==> LogOf(r) == old(LogOf(r))
    {
      for i := 0 to |bodies|
        invariant Valid() && run in runs && old(LogOf(run)) <= LogOf(run)
        invariant |LogOf(run)| == old(|LogOf(run)|) + i
        invariant forall r :: r != run ==> LogOf(r) == old(LogOf(r))
      {
        RecordKeepsValid(Stored(), run, bodies[i]);
        Record(run, bodies[i]);
      }
    }

    /** streamRun: replay the log after a cursor.  The log is read live: before each event it yields the stream pauses,
        and what is recorded in the k-th pause (`during[k]`) is replayed too. */
    method StreamRun(run: string, after: nat, during: seq<seq<Body>>) returns (events: seq<Event>)
      requires Valid()
      modifies this`runs, this`eventLog
      ensures Valid() && old(LogOf(run)) <= LogOf(run)
      ensures forall r :: r != run ==> LogOf(r) == old(LogOf(r))
      ensures events == Since(LogOf(run), after)
      ensures after <= |LogOf(run)| ==> events == LogOf(run)[after..]
      ensures during == [] ==> LogOf(run) == old(LogOf(run))
    {
      events := [];
      var i, pauses := 0, 0;
      while run in eventLog && i < |eventLog[run]|
        invariant Valid() && old(LogOf(run)) <= LogOf(run)
        invariant forall r :: r != run ==> LogOf(r) == old(LogOf(r))
        invariant i <= |LogOf(run)| && pauses <= |during|
        invariant events == Replayed(LogOf(run), i, after)
        invariant during == [] ==> LogOf(run) == old(LogOf(run))
        decreases |during| - pauses, |LogOf(run)| - i
      {
        var e := eventLog[run][i];
        ghost var log := LogOf(run);
        ReplayedNext(log, i, after);
        if e.seqNo > after {
          if pauses < |during| {
            RecordArrivals(run, during[pauses]);
            ReplayedGrows(log, LogOf(run), i + 1, after);
            pauses := pauses + 1;
          }
          events := events + [e];
        }
        i := i + 1;
      }
      ReplayedAll(LogOf(run), after);
      LogsAreGapless(Stored(), run);
      if after <= |LogOf(run)| { ReplayIsSuffix(LogOf(run), after); }
    }
  }

  lemma LogsAreGapless(v: Store, run: string)
    requires ValidStore(v)
    ensures Gapless(LogIn(v, run))
  {}

  /** How a gate continues on the inputs from position k. */
  function Gate(cont: Choice -> Script, ins: seq<Input>, k: nat): Turn
    requires k <= |ins|
  {
    if k == |ins| then Turn([], false)
    else if Cancels(ins[k]) then Turn([INTERRUPTED], true)
    else Play(cont(ins[k].choice), ins[k + 1..])
  }

  // ---- runs do not interfere --------------------------------------------------------

  /** What a generator does to the store between two of its awaits: open a turn, or record one event. */
  datatype Op = Opens(run: string, turn: nat) | Records(run: string, body: Body)

  function Applied(v: Store, op: Op): Store
    requires op.Opens? || op.run in v.runs
  {
    if op.Opens? then Opened(v, op.run, op.turn) else Recorded(v, op.run, op.body)
  }

  /** Events are recorded for runs whose turn has been opened. */
  predicate Possible(v: Store, ops: seq<Op>)
    decreases |ops|, 0
  {
    ops == [] ||
    (Possible(v, ops[..|ops| - 1]) &&
     (ops[|ops| - 1].Opens? || ops[|ops| - 1].run in AppliedAll(v, ops[..|ops| - 1]).runs))
  }

  /** Any interleaving of the operations of any number of turns. */
  function AppliedAll(v: Store, ops: seq<Op>): Store
    requires Possible(v, ops)
    decreases |ops|, 1
  {
    if ops == [] then v else Applied(AppliedAll(v, ops[..|ops| - 1]), ops[|ops| - 1])
  }

  function OpsOf(ops: seq<Op>, run: string): seq<Op> {
    if ops == [] then []
    else OpsOf(ops[..|ops| - 1], run) + (if ops[|ops| - 1].run == run then [ops[|ops| - 1]] else [])
  }

  /** Both stores hold the same of `run`. */
  ghost predicate SameRun(v: Store, w: Store, run: string) {
    && (run in v.runs <==> run in w.runs)
    && (run in v.runs ==> v.runs[run] == w.runs[run])
    && LogIn(v, run) == LogIn(w, run)
  }

  lemma OpenKeepsValid(v: Store, run: string, turn: nat)
    requires ValidStore(v)
    ensures ValidStore(Opened(v, run, turn))
  {
    var w := Opened(v, run, turn);
    forall r | r in w.runs ensures Gapless(LogIn(w, r)) && w.runs[r].seqNo == |LogIn(w, r)| {
      assert LogIn(w, r) == LogIn(v, r);
    }
  }

  lemma RecordKeepsValid(v: Store, run: string, body: Body)
    requires ValidStore(v) && run in v.runs
    ensures ValidStore(Recorded(v, run, body))
  {
    var w := Recorded(v, run, body);
    forall r | r in w.runs ensures Gapless(LogIn(w, r)) && w.runs[r].seqNo == |LogIn(w, r)| {
      assert Gapless(LogIn(v, r));
    }
  }

  /** However the turns of several runs interleave, event by event, each run ends with exactly the state and the log
      that its own operations alone would have left, and every log stays gapless. */
  lemma {:induction false} RunsDoNotInterfere(v: Store, ops: seq<Op>, run: string)
    requires ValidStore(v) && Possible(v, ops)
    ensures ValidStore(AppliedAll(v, ops))
    ensures Possible(v, OpsOf(ops, run))
    ensures SameRun(AppliedAll(v, ops), AppliedAll(v, OpsOf(ops, run)), run)
  {
    if ops == [] {
    } else {
      var front, op := ops[..|ops| - 1], ops[|ops| - 1];
      RunsDoNotInterfere(v, front, run);
      if op.Opens? {
        OpenKeepsValid(AppliedAll(v, front), op.run, op.turn);
      } else {
        RecordKeepsValid(AppliedAll(v, front), op.run, op.body);
      }
      if op.run == run {
        LastOp(v, OpsOf(front, run), op);
      } else {
        assert OpsOf(front, run) + [] == OpsOf(front, run);
      }
    }
  }

  lemma LastOp(v: Store, ops: seq<Op>, op: Op)
    requires Possible(v, ops) && (op.Opens? || op.run in AppliedAll(v, ops).runs)
    ensures Possible(v, ops + [op])
    ensures AppliedAll(v, ops + [op]) == Applied(AppliedAll(v, ops), op)
  {
    assert (ops + [op])[..|ops|] == ops;
  }

  /** The operations of one turn: open it, then record its events. */
  function TurnOps(run: string, turn: nat, bodies: seq<Body>): seq<Op> {
    if bodies == [] then [Opens(run, turn)]
    else TurnOps(run, turn, bodies[..|bodies| - 1]) + [Records(run, bodies[|bodies| - 1])]
  }

  lemma FirstOfTurn(v: Store, run: string, turn: nat, e: Body)
    requires ValidStore(v) && e.TurnStarted?
    ensures Possible(v, TurnOps(run, turn, [e]))
    ensures AppliedAll(v, TurnOps(run, turn, [e])) ==
      At(v, run, RunState(|LogIn(v, run)|, RunRunning, turn), LogIn(v, run), [e])
  {
    assert [e][..0] == [];
    AppliedOpen(v, run, turn);
    LastOp(v, [Opens(run, turn)], Records(run, e));
    OpenedTurn(v, run, turn, e);
  }

  lemma TurnOpsMore(run: string, turn: nat, bodies: seq<Body>, e: Body)
    ensures TurnOps(run, turn, bodies + [e]) == TurnOps(run, turn, bodies) + [Records(run, e)]
  {
    assert (bodies + [e])[..|bodies|] == bodies;
  }

  lemma MoreOfTurn(v: Store, w: Store, ops: seq<Op>, run: string, s: RunState, log: seq<Event>, bodies: seq<Body>,
                   e: Body)
    requires Possible(v, ops) && AppliedAll(v, ops) == w && w == At(v, run, s, log, bodies)
    ensures Possible(v, ops + [Records(run, e)])
    ensures AppliedAll(v, ops + [Records(run, e)]) == At(v, run, s, log, bodies + [e])
  {
    LastOp(v, ops, Records(run, e));
    RecordedMore(v, run, s, log, bodies, e);
  }

  lemma {:induction false} AppliedTurn(v: Store, run: string, turn: nat, bodies: seq<Body>)
    requires ValidStore(v) && bodies != [] && bodies[0].TurnStarted?
    ensures Possible(v, TurnOps(run, turn, bodies))
    ensures AppliedAll(v, TurnOps(run, turn, bodies)) ==
      At(v, run, RunState(|LogIn(v, run)|, RunRunning, turn), LogIn(v, run), bodies)
  {
    var front, last := bodies[..|bodies| - 1], bodies[|bodies| - 1];
    assert bodies == front + [last];
    if front == [] {
      assert bodies == [last];
      FirstOfTurn(v, run, turn, last);
    } else {
      AppliedTurn(v, run, turn, front);
      TurnOpsMore(run, turn, front, last);
      var s := RunState(|LogIn(v, run)|, RunRunning, turn);
      MoreOfTurn(v, At(v, run, s, LogIn(v, run), front), TurnOps(run, turn, front), run, s, LogIn(v, run), front, last);
    }
  }

  lemma AppliedOpen(v: Store, run: string, turn: nat)
    ensures Possible(v, [Opens(run, turn)]) && AppliedAll(v, [Opens(run, turn)]) == Opened(v, run, turn)
  {
    assert [] + [Opens(run, turn)] == [Opens(run, turn)];
    LastOp(v, [], Opens(run, turn));
  }

  /** A turn of `run`, however it interleaves with the turns of other runs, appends exactly its own events, numbered
      without gaps; and wherever a client of the run stops reading, the replay after its cursor gives it the rest. */
  lemma InterleavedTurn(v: Store, ops: seq<Op>, run: string, turn: nat, prompt: string, script: Script,
                        ins: seq<Input>, k: nat)
    requires ValidStore(v) && Possible(v, ops)
    requires OpsOf(ops, run) == TurnOps(run, turn, TurnBodies(prompt, script, ins))
    ensures var log := LogIn(AppliedAll(v, ops), run);
      && log == LogIn(v, run) + Stamp(TurnBodies(prompt, script, ins), turn, |LogIn(v, run)|)
      && Gapless(log)
      && (k <= |log| ==> MaxSeq(0, log[..k]) == k && log[..k] + Since(log, MaxSeq(0, log[..k])) == log)
  {
    RunsDoNotInterfere(v, ops, run);
    AppliedTurn(v, run, turn, TurnBodies(prompt, script, ins));
    var log := LogIn(AppliedAll(v, ops), run);
    LogsAreGapless(AppliedAll(v, ops), run);
    if k <= |log| { ExactlyOnceResume(log, k); }
  }

  // ---- the HTTP client's cursor ---------------------------------------------------

  /** An event that sendTurn does not filter out: one of its turn, or one without a turn. */
  predicate ForTurn(e: Event, turn: nat) { e.turn.None? || e.turn == Some(turn) }

  /** The event that ends the turn. */
  predicate EndsTurn(e: Event, turn: nat) { e.body.Terminal() && e.turn == Some(turn) }

  /** What sendTurn yields of a stream and how much of it it reads: it skips other turns' events and stops after its
      own terminal event. */
  function TurnView(es: seq<Event>, turn: nat): (r: (seq<Event>, nat))
    ensures r.1 <= |es|
  {
    if es == [] then ([], 0)
    else if es[0].turn.Some? && es[0].turn != Some(turn) then
      var r := TurnView(es[1..], turn);
      (r.0, r.1 + 1)
    else if es[0].body.Terminal() && es[0].turn == Some(turn) then ([es[0]], 1)
    else
      var r := TurnView(es[1..], turn);
      ([es[0]] + r.0, r.1 + 1)
  }

  /** The events of a stream that are not another turn's, in order. */
  function Filtered(es: seq<Event>, turn: nat): seq<Event> {
    if es == [] then []
    else Filtered(es[..|es| - 1], turn) + (if ForTurn(es[|es| - 1], turn) then [es[|es| - 1]] else [])
  }

  lemma {:induction false} FilteredSplit(a: seq<Event>, b: seq<Event>, turn: nat)
    ensures Filtered(a + b, turn) == Filtered(a, turn) + Filtered(b, turn)
  {
    if b == [] {
      assert a + b == a && Filtered(a, turn) + [] == Filtered(a, turn);
    } else {
      var front, e := b[..|b| - 1], b[|b| - 1];
      FilteredSplit(a, front, turn);
      assert (a + b)[..|a + b| - 1] == a + front && (a + b)[|a + b| - 1] == e;
      Assoc(Filtered(a, turn), Filtered(front, turn), if ForTurn(e, turn) then [e] else []);
    }
  }

  lemma FilteredCons(es: seq<Event>, n: nat, turn: nat)
    requires n < |es|
    ensures Filtered(es[..n + 1], turn) ==
      (if ForTurn(es[0], turn) then [es[0]] else []) + Filtered(es[1..][..n], turn)
  {
    assert es[..n + 1] == [es[0]] + es[1..][..n];
    assert [es[0]][..0] == [] && [] + [es[0]] == [es[0]];
    FilteredSplit([es[0]], es[1..][..n], turn);
  }

  /** sendTurn reads up to its own terminal event, or to the end of the stream, and of what it has read it yields
      everything that is not another turn's and nothing else. */
  lemma {:induction false} TurnViewFilters(es: seq<Event>, turn: nat)
    ensures var (yielded, n) := TurnView(es, turn);
      && yielded == Filtered(es[..n], turn)
      && (forall i :: 0 <= i < n - 1 ==> !EndsTurn(es[i], turn))
      && (n < |es| ==> n > 0 && EndsTurn(es[n - 1], turn))
  {
    if es != [] {
      TurnViewFilters(es[1..], turn);
      if EndsTurn(es[0], turn) {
        FilteredCons(es, 0, turn);
        assert [es[0]] + [] == [es[0]];
      } else {
        FilteredCons(es, TurnView(es[1..], turn).1, turn);
        assert [] + TurnView(es[1..], turn).0 == TurnView(es[1..], turn).0;
      }
    }
  }

  /** What is filtered out is another turn's, and nothing else is. */
  lemma {:induction false} FilteredHolds(es: seq<Event>, turn: nat, e: Event)
    ensures e in Filtered(es, turn) <==> e in es && ForTurn(e, turn)
  {
    if es != [] {
      var front, last := es[..|es| - 1], es[|es| - 1];
      FilteredHolds(front, turn, e);
      assert es == front + [last];
    }
  }

  /** Events of other turns in front of a stream are read and dropped. */
  lemma {:induction false} TurnViewSkips(other: seq<Event>, es: seq<Event>, turn: nat)
    requires forall i :: 0 <= i < |other| ==> !ForTurn(other[i], turn)
    ensures TurnView(other + es, turn) == (TurnView(es, turn).0, |other| + TurnView(es, turn).1)
  {
    if other == [] {
      assert other + es == es;
    } else {
      assert (other + es)[1..] == other[1..] + es;
      TurnViewSkips(other[1..], es, turn);
    }
  }

  /** The body list of a turn that has ended: its last event is terminal and no other one is. */
  ghost predicate Ended(bodies: seq<Body>) {
    && bodies != [] && bodies[|bodies| - 1].Terminal()
    && forall i :: 0 <= i < |bodies| - 1 ==> !bodies[i].Terminal()
  }

  lemma StampCons(bodies: seq<Body>, turn: nat, from: nat)
    requires bodies != []
    ensures Stamp(bodies, turn, from) == [Event(from + 1, Some(turn), bodies[0])] + Stamp(bodies[1..], turn, from + 1)
  {}

  /** Of a stream that starts with a whole turn, sendTurn yields and reads that turn exactly. */
  lemma {:induction false} TurnViewOfTurn(bodies: seq<Body>, turn: nat, from: nat, more: seq<Event>)
    requires Ended(bodies)
    ensures TurnView(Stamp(bodies, turn, from) + more, turn) == (Stamp(bodies, turn, from), |bodies|)
  {
    var first := Event(from + 1, Some(turn), bodies[0]);
    StampCons(bodies, turn, from);
    ConsThenRest(first, Stamp(bodies[1..], turn, from + 1), more);
    if |bodies| == 1 {
      assert Stamp(bodies, turn, from) == [first];
    } else {
      TurnViewOfTurn(bodies[1..], turn, from + 1, more);
    }
  }

  class HttpClient {
    var lastSeq: map<string, nat>

    function Cursor(run: string): nat
      reads this
    {
      if run in lastSeq then lastSeq[run] else 0
    }

    constructor ()
      ensures forall r :: Cursor(r) == 0
    {
      lastSeq := map[];
    }

    method Advance(run: string, seqNo: nat)
      modifies this
      ensures lastSeq == old(lastSeq)[run := if seqNo > old(Cursor(run)) then seqNo else old(Cursor(run))]
    {
      var c := Cursor(run);
      lastSeq := lastSeq[run := if seqNo > c then seqNo else c];
    }

    /** streamRun: yield everything, keeping the cursor at the largest number seen. */
    method StreamRun(run: string, events: seq<Event>) returns (yielded: seq<Event>)
      modifies this
      ensures yielded == events
      ensures Cursor(run) == MaxSeq(old(Cursor(run)), events) >= old(Cursor(run))
      ensures forall r :: r != run ==> Cursor(r) == old(Cursor(r))
    {
      yielded := [];
      for i := 0 to |events|
        invariant yielded == events[..i]
        invariant Cursor(run) == MaxSeq(old(Cursor(run)), events[..i])
        invariant forall r :: r != run ==> Cursor(r) == old(Cursor(r))
      {
        assert events[..i + 1][..i] == events[..i];
        Advance(run, events[i].seqNo);
        yielded := yielded + [events[i]];
      }
      assert events[..|events|] == events;
      CursorIsMax(old(Cursor(run)), events);
    }

    /** sendTurn over the stream that was opened at the cursor. */
    method SendTurn(run: string, turn: nat, events: seq<Event>) returns (yielded: seq<Event>)
      modifies this
      ensures yielded == TurnView(events, turn).0
      ensures Cursor(run) == MaxSeq(old(Cursor(run)), events[..TurnView(events, turn).1]) >= old(Cursor(run))
      ensures forall r :: r != run ==> Cursor(r) == old(Cursor(r))
    {
      yielded := [];
      var i := 0;
      ghost var view := TurnView(events, turn);
      assert events[0..] == events && [] + view.0 == view.0;
      while i < |events|
        invariant i <= |events|
        invariant view == Seen(yielded, i, TurnView(events[i..], turn))
        invariant Cursor(run) == MaxSeq(old(Cursor(run)), events[..i])
        invariant forall r :: r != run ==> Cursor(r) == old(Cursor(r))
      {
        var e := events[i];
        ViewNext(yielded, events, i, turn);
        MaxNext(old(Cursor(run)), events, i);
        Advance(run, e.seqNo);
        i := i + 1;
        if e.turn.Some? && e.turn.value != turn { continue; }
        yielded := yielded + [e];
        if e.body.Terminal() && e.turn == Some(turn) { break; }
      }
      CursorIsMax(old(Cursor(run)), events[..i]);
    }
  }

  /** The view of a stream of which `n` events have been read and `done` yielded. */
  function Seen(done: seq<Event>, n: nat, rest: (seq<Event>, nat)): (seq<Event>, nat) { (done + rest.0, n + rest.1) }

  lemma MaxNext(cursor: nat, es: seq<Event>, i: nat)
    requires i < |es|
    ensures MaxSeq(cursor, es[..i + 1]) ==
      if es[i].seqNo > MaxSeq(cursor, es[..i]) then es[i].seqNo else MaxSeq(cursor, es[..i])
  {
    assert es[..i + 1][..i] == es[..i];
  }

  lemma ViewNext(done: seq<Event>, es: seq<Event>, i: nat, turn: nat)
    requires i < |es|
    ensures Seen(done, i, TurnView(es[i..], turn)) ==
      if !ForTurn(es[i], turn) then Seen(done, i + 1, TurnView(es[i + 1..], turn))
      else if EndsTurn(es[i], turn) then (done + [es[i]], i + 1)
      else Seen(done + [es[i]], i + 1, TurnView(es[i + 1..], turn))
  {
    assert es[i..][1..] == es[i + 1..];
    Assoc(done, [es[i]], TurnView(es[i + 1..], turn).0);
  }

  lemma CutAround<T>(earlier: seq<T>, own: seq<T>, later: seq<T>, k: nat)
    requires k <= |earlier|
    ensures var log, m := earlier + (own + later), |earlier| + |own|;
      log[k..] == earlier[k..] + (own + later) && log[m..] == later
  {}

  lemma TurnViewFrom(other: seq<Event>, own: seq<Event>, more: seq<Event>, turn: nat)
    requires forall i :: 0 <= i < |other| ==> !ForTurn(other[i], turn)
    requires TurnView(own + more, turn) == (own, |own|)
    ensures TurnView(other + (own + more), turn) == (own, |other| + |own|)
  {
    TurnViewSkips(other, own + more, turn);
  }

  /** Where the cursor stands once the events up to position m have been read from k on. */
  lemma CursorBehind(log: seq<Event>, k: nat, m: nat)
    requires Gapless(log) && k <= m <= |log|
    ensures |Since(log, k)| == |log| - k
    ensures MaxSeq(k, Since(log, k)[..m - k]) == m
  {
    ReplayIsSuffix(log, k);
    CursorOnPrefix(log, k, m);
    assert log[k..][..m - k] == log[k..m];
  }

  /** The turn `own` in a gapless log, read from cursor k in front of it. */
  lemma OwnOffReplay(earlier: seq<Event>, own: seq<Event>, later: seq<Event>, turn: nat, k: nat)
    requires k <= |earlier| && Gapless(earlier + (own + later))
    requires forall i :: k <= i < |earlier| ==> !ForTurn(earlier[i], turn)
    requires TurnView(own + later, turn) == (own, |own|)
    ensures TurnView(Since(earlier + (own + later), k), turn) == (own, |earlier| - k + |own|)
    ensures Since(earlier + (own + later), |earlier| + |own|) == later
  {
    CutAround(earlier, own, later, k);
    ReplayIsSuffix(earlier + (own + later), k);
    TurnViewFrom(earlier[k..], own, later, turn);
    ReplayIsSuffix(earlier + (own + later), |earlier| + |own|);
  }

  /** Reading one's turn off the replay.  `log` holds earlier events, then the turn, then later ones; the client's
      cursor stands at k, from where the earlier events are other turns'.  Of what the runner replays, sendTurn yields
      exactly the turn's events, and leaves the cursor at the turn's last number, so that the next stream starts with
      the first later event. */
  lemma SendTurnReadsItsTurn(earlier: seq<Event>, bodies: seq<Body>, turn: nat, later: seq<Event>, k: nat)
    requires Ended(bodies) && k <= |earlier|
    requires Gapless(earlier + (Stamp(bodies, turn, |earlier|) + later))
    requires forall i :: k <= i < |earlier| ==> !ForTurn(earlier[i], turn)
    ensures var log := earlier + (Stamp(bodies, turn, |earlier|) + later);
      var (yielded, n) := TurnView(Since(log, k), turn);
      var cursor := MaxSeq(k, Since(log, k)[..n]);
      && yielded == Stamp(bodies, turn, |earlier|)
      && cursor == |earlier| + |bodies|
      && Since(log, cursor) == later
  {
    TurnViewOfTurn(bodies, turn, |earlier|, later);
    OwnOffReplay(earlier, Stamp(bodies, turn, |earlier|), later, turn, k);
    CursorBehind(earlier + (Stamp(bodies, turn, |earlier|) + later), k, |earlier| + |bodies|);
  }

  /** What the runner records for one turn of a script that ends properly, once the turn has finished, is such a
      body list. */
  lemma FinishedTurnHasEnded(prompt: string, script: Script, ins: seq<Input>)
    requires Ends(script) && Play(script, ins).finished
    ensures Ended(TurnBodies(prompt, script, ins))
  {
    TurnShape(prompt, script, ins, RunRunning);
  }
}
