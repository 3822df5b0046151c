/** The replay log of MockRunnerClient.ts and the reconnect cursor of HttpWsRunnerClient.ts. */
module RunLog {
  import opened Text
  import opened TurnScript
  import opened Wrappers

  datatype Event = Event(seqNo: nat, turn: Option<nat>, body: Body)

  datatype Status = RunRunning | WaitingApproval | WaitingQuestion | RunCompleted | RunFailed

  datatype RunState = RunState(seqNo: nat, status: Status, turn: nat)

  // ---- the log ---------------------------------------------------------------

  function Stamp(bodies: seq<Body>, turn: nat, from: nat): (r: seq<Event>)
    ensures |r| == |bodies|
  {
    seq(|bodies|, i requires 0 <= i < |bodies| => Event(from + 1 + i, Some(turn), bodies[i]))
  }

  function StatusOn(was: Status, b: Body): Status {
    match b
    case TurnStarted(_) => RunRunning
    case PermissionRequired => WaitingApproval
    case QuestionRequired(_) => WaitingQuestion
    case TurnCompleted(_) => RunCompleted
    case TurnFailed(_, _) => RunFailed
    case _ => was
  }

  function StatusAfter(was: Status, bodies: seq<Body>): Status {
    if bodies == [] then was else StatusOn(StatusAfter(was, bodies[..|bodies| - 1]), bodies[|bodies| - 1])
  }

  /** Sequence numbers 1, 2, 3, ... without gaps. */
  ghost predicate Gapless(log: seq<Event>) {
    forall i :: 0 <= i < |log| ==> log[i].seqNo == i + 1
  }

  /** The event list of a whole turn. */
  function TurnBodies(prompt: string, script: Script, ins: seq<Input>): seq<Body> {
    [TurnStarted(prompt)] + Play(script, ins).events
  }

  /** One turn emits turn_started first, at most one terminal event, only in last place, and if the script ends
      properly the run's status tells exactly whether and how the turn has ended. */
  lemma TurnShape(prompt: string, script: Script, ins: seq<Input>, was: Status)
    ensures var es := TurnBodies(prompt, script, ins);
      && es[0] == TurnStarted(prompt)
      && (forall i :: 0 <= i < |es| - 1 ==> !es[i].Terminal())
      && (forall i :: 0 < i < |es| ==> !es[i].TurnStarted?)
      && (es[|es| - 1].TurnCompleted? <==> StatusAfter(was, es) == RunCompleted)
      && (es[|es| - 1].TurnFailed? <==> StatusAfter(was, es) == RunFailed)
      && (Ends(script) ==> (Play(script, ins).finished <==> es[|es| - 1].Terminal()))
  {
    var t := Play(script, ins);
    NeverTwoTerminals(script, ins);
    StartsOnce(script, ins);
    if Ends(script) {
      TurnCloses(script, ins);
    }
    StatusMatchesLast(TurnBodies(prompt, script, ins), was);
  }

  lemma {:induction false} StartsOnce(s: Script, ins: seq<Input>)
    ensures forall i :: 0 <= i < |Play(s, ins).events| ==> !Play(s, ins).events[i].TurnStarted?
    decreases |ins|
  {
    if s.Then? && ins != [] && !ins[0].interrupted {
      match s.step
      case Emit(_, _) => StartsOnce(s.rest, ins[1..]);
      case AwaitApproval(yes, no) =>
        if |ins| > 1 { StartsOnce(if ins[1].choice == One("deny") then no else yes, ins[2..]); }
      case AwaitQuestion(_, onAnswer) =>
        if |ins| > 1 { StartsOnce(onAnswer(ins[1].choice), ins[2..]); }
      case _ =>
    }
  }

  lemma {:induction false} StatusMatchesLast(es: seq<Body>, was: Status)
    requires es != [] && es[0].TurnStarted? && forall i :: 0 <= i < |es| - 1 ==> !es[i].Terminal()
    ensures es[|es| - 1].TurnCompleted? <==> StatusAfter(was, es) == RunCompleted
    ensures es[|es| - 1].TurnFailed? <==> StatusAfter(was, es) == RunFailed
  {
    if |es| > 1 {
      StatusMatchesLast(es[..|es| - 1], was);
    }
  }

  /** What the run's status says after an event: it waits for exactly the kind of answer that was asked for last, and
      other events leave it as it was. */
  lemma StatusTells(was: Status, bodies: seq<Body>, e: Body)
    ensures var status := StatusAfter(was, bodies + [e]);
      && (e == PermissionRequired ==> status == WaitingApproval)
      && (e.QuestionRequired? ==> status == WaitingQuestion)
      && (e.TurnStarted? ==> status == RunRunning)
      && (e.TurnCompleted? ==> status == RunCompleted)
      && (e.TurnFailed? ==> status == RunFailed)
      && (e.Plain? || e.MessageCompleted? ==> status == StatusAfter(was, bodies))
  {
    StatusMore(was, bodies, e);
  }

  lemma StampMore(bodies: seq<Body>, e: Body, turn: nat, from: nat)
    ensures Stamp(bodies + [e], turn, from) == Stamp(bodies, turn, from) + [Event(from + |bodies| + 1, Some(turn), e)]
  {}

  lemma StatusMore(was: Status, bodies: seq<Body>, e: Body)
    ensures StatusAfter(was, bodies + [e]) == StatusOn(StatusAfter(was, bodies), e)
  {
    assert (bodies + [e])[..|bodies|] == bodies;
  }

  // ---- cursors ------------------------------------------------------------------

  /** The events after a cursor, as streamRun replays them. */
  function Since(log: seq<Event>, after: int): seq<Event> {
    if log == [] then [] else (if log[0].seqNo > after then [log[0]] else []) + Since(log[1..], after)
  }

  function MaxSeq(cursor: nat, es: seq<Event>): nat {
    if es == [] then cursor
    else
      var c := MaxSeq(cursor, es[..|es| - 1]);
      if es[|es| - 1].seqNo > c then es[|es| - 1].seqNo else c
  }

  lemma {:induction false} SinceSplit(a: seq<Event>, b: seq<Event>, after: int)
    ensures Since(a + b, after) == Since(a, after) + Since(b, after)
  {
    if a == [] {
      assert a + b == b;
    } else {
      assert (a + b)[1..] == a[1..] + b;
      SinceSplit(a[1..], b, after);
    }
  }

  lemma {:induction false} SinceAll(es: seq<Event>, after: int)
    requires forall e :: e in es ==> e.seqNo > after
    ensures Since(es, after) == es
  {
    if es != [] {
      assert es[0] in es;
      SinceAll(es[1..], after);
    }
  }

  lemma {:induction false} SinceNone(es: seq<Event>, after: int)
    requires forall e :: e in es ==> e.seqNo <= after
    ensures Since(es, after) == []
  {
    if es != [] {
      assert es[0] in es;
      SinceNone(es[1..], after);
    }
  }

  /** The cursor never decreases and is at least every sequence number seen. */
  lemma {:induction false} CursorIsMax(cursor: nat, es: seq<Event>)
    ensures MaxSeq(cursor, es) >= cursor
    ensures forall i :: 0 <= i < |es| ==> MaxSeq(cursor, es) >= es[i].seqNo
    ensures MaxSeq(cursor, es) == cursor || exists i :: 0 <= i < |es| && MaxSeq(cursor, es) == es[i].seqNo
  {
    if es != [] {
      CursorIsMax(cursor, es[..|es| - 1]);
    }
  }

  /** What a replay loop has yielded of the first i events. */
  function Replayed(log: seq<Event>, i: nat, after: int): seq<Event>
    requires i <= |log|
  {
    Since(log[..i], after)
  }

  lemma ReplayedNext(log: seq<Event>, i: nat, after: int)
    requires i < |log|
    ensures Replayed(log, i + 1, after) ==
      if log[i].seqNo > after then Replayed(log, i, after) + [log[i]] else Replayed(log, i, after)
  {
    assert log[..i + 1] == log[..i] + [log[i]];
    SinceSplit(log[..i], [log[i]], after);
    assert Since([log[i]], after) == if log[i].seqNo > after then [log[i]] else [];
  }

  /** Events recorded behind position i do not change what has been yielded before it. */
  lemma ReplayedGrows(log: seq<Event>, more: seq<Event>, i: nat, after: int)
    requires log <= more && i <= |log|
    ensures Replayed(log, i, after) == Replayed(more, i, after)
  {
    assert log[..i] == more[..i];
  }

  lemma ReplayedAll(log: seq<Event>, after: int)
    ensures Replayed(log, |log|, after) == Since(log, after)
  {
    assert log[..|log|] == log;
  }

  lemma ReplayIsSuffix(log: seq<Event>, k: nat)
    requires Gapless(log) && k <= |log|
    ensures Since(log, k) == log[k..]
  {
    assert log == log[..k] + log[k..];
    SinceSplit(log[..k], log[k..], k);
    SinceNone(log[..k], k);
    SinceAll(log[k..], k);
  }

  /** Reading on from cursor k to position m of a gapless log leaves the cursor at m. */
  lemma CursorOnPrefix(log: seq<Event>, k: nat, m: nat)
    requires Gapless(log) && k <= m <= |log|
    ensures MaxSeq(k, log[k..m]) == m
  {
    var es := log[k..m];
    CursorIsMax(k, es);
    if k < m {
      assert es[m - k - 1] == log[m - 1];
    }
  }

  /** Exactly-once resume: wherever a client stops reading, what it has seen followed by the replay after its cursor
      is the whole log. */
  lemma ExactlyOnceResume(log: seq<Event>, k: nat)
    requires Gapless(log) && k <= |log|
    ensures MaxSeq(0, log[..k]) == k
    ensures log[..k] + Since(log, MaxSeq(0, log[..k])) == log
  {
    CursorOnPrefix(log, 0, k);
    assert log[0..k] == log[..k];
    ReplayIsSuffix(log, k);
    TakeDrop(log, k);
  }

  lemma TakeDrop(log: seq<Event>, k: nat)
    requires k <= |log|
    ensures log[..k] + log[k..] == log
  {}

  /** Appending a turn keeps the log gapless. */
  lemma GaplessAppend(log: seq<Event>, bodies: seq<Body>, turn: nat)
    requires Gapless(log)
    ensures Gapless(log + Stamp(bodies, turn, |log|))
  {}
}
