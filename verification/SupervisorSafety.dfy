/** Safety of the restart protocol over every run. */
module SupervisorSafety {
  import opened Wrappers
  import opened SupervisorProtocol

  /** `cmd` is an accepted copy of the restart record that generation `g` itself wrote. */
  ghost predicate Backs(s: Sys, cmd: Command, g: Gen) {
    && cmd in s.accepted
    && cmd.record.IsRestart()
    && cmd.record.instance == Some(g)
    && g in s.written && s.written[g] == cmd.record
  }

  /** A record found in the control file or in a copy: junk, or what some generation wrote about itself. */
  ghost predicate Genuine(s: Sys, r: Record) {
    || r == Record(Unknown, None, None)
    || (r.instance.Some? && r.instance.value in s.written && s.written[r.instance.value] == r)
  }

  /** The control file no longer holds the current generation's record. */
  ghost predicate Consumed(s: Sup) { s.file.Fenced? ==> s.file.record.instance != Some(s.runner) }

  /** What the supervisor's own variables keep. */
  ghost predicate SupInv(s: Sys) {
    && Coherent(s.sup)
    && (s.sup.planned ==> Backs(s, s.sup.waits[0].cmd, s.sup.runner))
    && (s.sup.pending.Some? ==> Backs(s, s.sup.pending.value, s.sup.runner))
    && (s.sup.file.Fenced? ==> Genuine(s, s.sup.file.record))
    && (s.sup.planned || s.sup.pending.Some? ==> Consumed(s.sup))
    && (forall c :: c in s.sup.polls ==> Genuine(s, c.record))
    && (s.life.Gone? ==> s.sup.planned || s.sup.exiting)
  }

  /** What the histories keep. */
  ghost predicate HistoryInv(s: Sys) {
    && (forall g :: g in s.written ==> g <= s.sup.runner && s.written[g].instance == Some(g))
    && |s.respawns| == s.sup.runner
    && (forall i :: 0 <= i < |s.respawns| ==>
          s.respawns[i].replaced == i && Backs(s, s.respawns[i].cmd, i))
  }

  ghost predicate Inv(s: Sys) { SupInv(s) && HistoryInv(s) }

  /** No step takes back what a generation wrote or what was accepted. */
  ghost predicate Grows(s: Sys, t: Sys) {
    && s.accepted <= t.accepted
    && (forall g :: g in s.written ==> g in t.written && t.written[g] == s.written[g])
  }

  lemma StepGrows(s: Sys, e: Event)
    requires Enabled(s, e)
    ensures Grows(s, Step(s, e))
  {}

  lemma BacksGrows(s: Sys, t: Sys, cmd: Command, g: Gen)
    requires Backs(s, cmd, g) && Grows(s, t)
    ensures Backs(t, cmd, g)
  {}

  lemma HistoryGrows(s: Sys, t: Sys)
    requires HistoryInv(s) && Grows(s, t) && t.respawns == s.respawns && t.sup.runner == s.sup.runner
    requires forall g :: g in t.written ==> g in s.written || (g == s.sup.runner && t.written[g].instance == Some(g))
    ensures HistoryInv(t)
  {
    forall i | 0 <= i < |s.respawns| ensures Backs(t, s.respawns[i].cmd, i) {
      BacksGrows(s, t, s.respawns[i].cmd, i);
    }
  }

  /** A handler that only moves genuine records around keeps the invariant of its variables. */
  lemma SupGrows(s: Sys, t: Sys)
    requires SupInv(s) && Grows(s, t)
    requires t.sup.runner == s.sup.runner && t.sup.planned == s.sup.planned && t.sup.waits == s.sup.waits
    requires t.sup.known == s.sup.known || t.sup.known == Some(s.sup.runner)
    requires t.sup.pending == s.sup.pending
             || (t.sup.pending.Some? && Backs(t, t.sup.pending.value, s.sup.runner)) || t.sup.pending.None?
    requires t.sup.file == s.sup.file || (t.sup.file.Fenced? ==> Genuine(t, t.sup.file.record))
    requires forall c :: c in t.sup.polls && c !in s.sup.polls ==> Genuine(s, c.record)
    requires t.sup.planned || t.sup.pending.Some? ==> Consumed(t.sup)
    requires s.sup.exiting ==> t.sup.exiting
    requires t.sup.stopped ==> t.sup.exiting
    requires t.life.Gone? ==> t.sup.planned || t.sup.exiting
    ensures SupInv(t)
  {
    if s.sup.planned { BacksGrows(s, t, s.sup.waits[0].cmd, s.sup.runner); }
    if s.sup.pending.Some? { BacksGrows(s, t, s.sup.pending.value, s.sup.runner); }
  }

  /** A copy that passes validation is the restart or shutdown record of the current generation. */
  lemma ValidNamesCurrent(s: Sys, r: Record, live: Option<Gen>)
    requires SupInv(s) && Genuine(s, r)
    requires live.Some? ==> live.value == s.sup.runner
    requires Validate(r, live, s.sup.known, s.now).Valid?
    ensures r.instance == Some(s.sup.runner) && s.sup.runner in s.written && s.written[s.sup.runner] == r
  {}

  lemma PollResumesKeepsInv(s: Sys, c: Command, answered: bool)
    requires Inv(s) && Enabled(s, PollResumes(c, answered))
    ensures Inv(Step(s, PollResumes(c, answered)))
  {
    var t := Step(s, PollResumes(c, answered));
    if Validate(c.record, LiveId(s, answered), s.sup.known, s.now).Valid? {
      ValidNamesCurrent(s, c.record, LiveId(s, answered));
    }
    SupGrows(s, t);
    HistoryGrows(s, t);
  }

  lemma TimerKeepsInv(s: Sys, c: Command)
    requires Inv(s) && Enabled(s, TimerFires(c))
    ensures Inv(Step(s, TimerFires(c)))
  {
    HistoryGrows(s, Step(s, TimerFires(c)));
  }

  lemma ExitKeepsInv(s: Sys)
    requires Inv(s) && Enabled(s, ExitDelivered)
    ensures Inv(Step(s, ExitDelivered))
  {
    var t := Step(s, ExitDelivered);
    HistoryGrows(s, t);
    if !s.sup.exiting && !s.sup.planned && ExitIsPlanned(s.sup, s.now) {
      ValidNamesCurrent(s, ExitCommand(s.sup).value.record, s.sup.known);
    } else {
      SupGrows(s, t);
    }
  }

  lemma RespawnKeepsInv(s: Sys, k: nat)
    requires Inv(s) && Enabled(s, Respawn(k))
    ensures Inv(Step(s, Respawn(k)))
  {
    var t := Step(s, Respawn(k));
    forall i | 0 <= i < |s.respawns| ensures t.respawns[i] == s.respawns[i] && Backs(t, s.respawns[i].cmd, i) {
      BacksGrows(s, t, s.respawns[i].cmd, i);
    }
  }

  lemma OtherKeepsInv(s: Sys, e: Event, t: Sys)
    requires Inv(s) && Enabled(s, e) && t == Step(s, e)
    requires !e.PollResumes? && !e.TimerFires? && !e.ExitDelivered? && !e.Respawn?
    ensures Inv(t)
  {
    StepGrows(s, e);
    SupGrows(s, t);
    HistoryGrows(s, t);
  }

  lemma StepKeepsInv(s: Sys, e: Event)
    requires Inv(s) && Enabled(s, e)
    ensures Inv(Step(s, e))
  {
    match e
    case PollResumes(c, answered) => PollResumesKeepsInv(s, c, answered);
    case TimerFires(c) => TimerKeepsInv(s, c);
    case ExitDelivered => ExitKeepsInv(s);
    case Respawn(k) => RespawnKeepsInv(s, k);
    case _ => OtherKeepsInv(s, e, Step(s, e));
  }

  lemma {:induction false} RunKeepsInv(s: Sys, es: seq<Event>, t: Sys)
    requires Inv(s) && Reaches(s, es, t)
    ensures Inv(t)
  {
    if es == [] {
    } else {
      var before := Run(s, es[..|es| - 1]).value;
      RunKeepsInv(s, es[..|es| - 1], before);
      StepKeepsInv(before, es[|es| - 1]);
    }
  }

  lemma ReachableInv(s: Sys)
    requires Reachable(s)
    ensures Inv(s)
  {
    var es :| Reaches(Init(), es, s);
    RunKeepsInv(Init(), es, s);
  }

  /** Spawned generations = 1 + planned respawns; each respawn is backed by an accepted record that the
      generation it replaces wrote about itself, and no generation is replaced twice. */
  lemma RespawnAccounting(s: Sys)
    requires Reachable(s)
    ensures s.sup.runner + 1 == 1 + |s.respawns|
    ensures forall i :: 0 <= i < |s.respawns| ==> Backs(s, s.respawns[i].cmd, s.respawns[i].replaced)
    ensures forall i, j :: 0 <= i < j < |s.respawns| ==> s.respawns[i].replaced != s.respawns[j].replaced
    ensures forall i :: 0 <= i < |s.respawns| ==> s.respawns[i].replaced < s.sup.runner
  {
    ReachableInv(s);
  }

  /** plannedRunnerRestart is true exactly while one planned restart is in flight, and there are never two. */
  lemma OneRestartInFlight(s: Sys)
    requires Reachable(s)
    ensures s.sup.planned <==> |s.sup.waits| == 1
    ensures !s.sup.planned <==> s.sup.waits == []
    ensures s.sup.planned ==> Backs(s, s.sup.waits[0].cmd, s.sup.runner)
  {
    ReachableInv(s);
  }

  /** A record is consumed before it is acted on: once it has been handed over or its restart has begun, no later
      poll can read it again. */
  lemma ConsumedBeforeActing(s: Sys)
    requires Reachable(s) && (s.sup.planned || s.sup.pending.Some?)
    ensures s.sup.runner in s.written && s.sup.file != Fenced(s.written[s.sup.runner])
  {
    ReachableInv(s);
  }

  lemma TeardownStep(s: Sys, e: Event)
    requires s.sup.exiting && |s.sup.waits| == (if s.sup.planned then 1 else 0) && Enabled(s, e)
    ensures var t := Step(s, e);
      && t.sup.exiting && |t.sup.waits| == (if t.sup.planned then 1 else 0)
      && (t.sup.planned ==> s.sup.planned && t.sup.waits == s.sup.waits)
      && t.sup.runner + |t.sup.waits| == s.sup.runner + |s.sup.waits|
  {}

  lemma {:induction false} TeardownRun(s: Sys, es: seq<Event>, t: Sys)
    requires SupInv(s) && s.sup.exiting && Reaches(s, es, t)
    ensures t.sup.exiting && |t.sup.waits| == (if t.sup.planned then 1 else 0)
    ensures t.sup.planned ==> s.sup.planned && t.sup.waits == s.sup.waits
    ensures t.sup.runner + |t.sup.waits| == s.sup.runner + |s.sup.waits|
  {
    if es == [] {
    } else {
      var before := Run(s, es[..|es| - 1]).value;
      TeardownRun(s, es[..|es| - 1], before);
      TeardownStep(before, es[|es| - 1]);
    }
  }

  /** Once teardown has begun it is never undone and no planned restart begins; at most the one restart that
      was already waiting can still respawn, because it does not look at isExiting again. */
  lemma TeardownIsFinal(s: Sys, es: seq<Event>, t: Sys)
    requires Reachable(s) && s.sup.exiting && Reaches(s, es, t)
    ensures t.sup.exiting
    ensures t.sup.planned ==> s.sup.planned && t.sup.waits == s.sup.waits
    ensures t.sup.runner == s.sup.runner + (if s.sup.planned && !t.sup.planned then 1 else 0)
  {
    ReachableInv(s);
    TeardownRun(s, es, t);
  }

  lemma {:induction false} StoppedStays(s: Sys, es: seq<Event>, t: Sys)
    requires s.sup.stopped && Reaches(s, es, t)
    ensures t == s
  {
    if es == [] {
    } else {
      StoppedStays(s, es[..|es| - 1], Run(s, es[..|es| - 1]).value);
      assert false;
    }
  }

  lemma RunOfOne(s: Sys, e: Event)
    requires Enabled(s, e)
    ensures Reaches(s, [e], Step(s, e))
  {
    assert [e][..0] == [];
  }

  lemma RunOfTwo(s: Sys, e: Event, f: Event)
    requires Enabled(s, e) && Enabled(Step(s, e), f)
    ensures Reaches(s, [e, f], Step(Step(s, e), f))
  {
    RunOfOne(s, e);
    assert [e, f][..1] == [e];
  }

  lemma RunOfThree(s: Sys, e: Event, f: Event, h: Event)
    requires Enabled(s, e) && Enabled(Step(s, e), f) && Enabled(Step(Step(s, e), f), h)
    ensures Reaches(s, [e, f, h], Step(Step(Step(s, e), f), h))
  {
    RunOfTwo(s, e, f);
    assert [e, f, h][..2] == [e, f];
  }

  ghost predicate CanStillRespawn(s: Sys) {
    exists es, t :: Reaches(s, es, t) && t.sup.runner > s.sup.runner
  }

  /** During a teardown another runner can still be spawned if and only if a restart is waiting and the process has
      not ended yet; `isExiting` itself does not prevent it. */
  lemma RespawnsAfterTeardownExactlyWhen(s: Sys)
    requires Reachable(s) && s.sup.exiting
    ensures CanStillRespawn(s) <==> s.sup.planned && !s.sup.stopped
  {
    if CanStillRespawn(s) {
      var es, t :| Reaches(s, es, t) && t.sup.runner > s.sup.runner;
      TeardownIsFinal(s, es, t);
      if s.sup.stopped { StoppedStays(s, es, t); }
    }
    if s.sup.planned && !s.sup.stopped {
      var es, t := WaitingRespawns(s);
    }
  }

  /** The waiting restart outlives the rest of its generation's life. */
  lemma WaitingRespawns(s: Sys) returns (es: seq<Event>, t: Sys)
    requires Reachable(s) && s.sup.exiting && s.sup.planned && !s.sup.stopped
    ensures Reaches(s, es, t) && t.sup.runner == s.sup.runner + 1
  {
    ReachableInv(s);
    match s.life {
      case Gone =>
        RunOfOne(s, Respawn(0));
        es, t := [Respawn(0)], Step(s, Respawn(0));
      case Dying =>
        RunOfTwo(s, ExitDelivered, Respawn(0));
        es, t := [ExitDelivered, Respawn(0)], Step(Step(s, ExitDelivered), Respawn(0));
      case Live =>
        RunOfThree(s, RunnerDies, ExitDelivered, Respawn(0));
        es := [RunnerDies, ExitDelivered, Respawn(0)];
        t := Step(Step(Step(s, RunnerDies), ExitDelivered), Respawn(0));
    }
  }

  /** What an exit event does outside a teardown: with no restart under way it starts one exactly when the
      handed-over copy, or failing that the control file, holds an unexpired restart record naming the
      learned generation; in every other case it tears the stack down. */
  lemma ExitDecides(s: Sys)
    requires Reachable(s) && Enabled(s, ExitDelivered) && !s.sup.exiting
    ensures var t := Step(s, ExitDelivered);
      && (t.sup.exiting <==> !s.sup.planned && !RestartOnRecord(s))
      && (t.sup.planned <==> s.sup.planned || RestartOnRecord(s))
      && t.sup.runner == s.sup.runner
  {
    ReachableInv(s);
    if ExitIsPlanned(s.sup, s.now) {
      ValidNamesCurrent(s, ExitCommand(s.sup).value.record, s.sup.known);
    }
  }

  /** An unexpired restart record written by the current, learned generation is at hand. */
  ghost predicate RestartOnRecord(s: Sys) {
    && s.sup.known == Some(s.sup.runner)
    && s.sup.runner in s.written
    && s.written[s.sup.runner].IsRestart()
    && !s.written[s.sup.runner].Expired(s.now)
    && (s.sup.pending.Some? || s.sup.file == Fenced(s.written[s.sup.runner]))
  }

  /** Every copy still referenced has an older tag than the next one, so each parse makes a new object and
      comparing commands compares identities. */
  ghost predicate TagInv(s: Sup) {
    && (forall c :: c in s.polls ==> c.tag < s.nextTag)
    && (forall c :: c in s.restartTimers ==> c.tag < s.nextTag)
    && (s.pending.Some? ==> s.pending.value.tag < s.nextTag)
  }

  lemma StepKeepsTags(s: Sys, e: Event)
    requires TagInv(s.sup) && Enabled(s, e)
    ensures TagInv(Step(s, e).sup)
  {
    var t := Step(s, e).sup;
    assert forall c :: c in t.polls ==> c in s.sup.polls || c.tag == s.sup.nextTag < t.nextTag;
    assert forall c :: c in t.restartTimers ==> c in s.sup.restartTimers || c in s.sup.polls;
  }

  lemma {:induction false} RunKeepsTags(s: Sys, es: seq<Event>, t: Sys)
    requires TagInv(s.sup) && Reaches(s, es, t)
    ensures TagInv(t.sup)
  {
    if es == [] {
    } else {
      var before := Run(s, es[..|es| - 1]).value;
      RunKeepsTags(s, es[..|es| - 1], before);
      StepKeepsTags(before, es[|es| - 1]);
    }
  }

  lemma CopiesAreFresh(s: Sys, r: Record)
    requires Reachable(s)
    ensures Command(s.sup.nextTag, r) !in s.sup.polls + s.sup.restartTimers
    ensures s.sup.pending != Some(Command(s.sup.nextTag, r))
  {
    var es :| Reaches(Init(), es, s);
    RunKeepsTags(Init(), es, s);
  }

  // ---- what accepted commands do ---------------------------------------------

  /** A record to act on at `now`: of a known action, not expired, and naming the generation that answered the probe
      or, if none did, the one learned before. */
  predicate Honoured(r: Record, live: Option<Gen>, known: Option<Gen>, now: Time) {
    && r.action in {Shutdown, Restart, RestartRunner}
    && (r.expiresAt.None? || now < r.expiresAt.value)
    && r.instance.Some?
    && (r.instance == live || (live.None? && r.instance == known))
  }

  /** Outside a teardown and a restart a poll takes one copy of the record that the control file holds; broken JSON is
      copied as an unknown action.  In every other case it takes none. */
  lemma PollTakesExactly(s: Sys)
    requires Enabled(s, PollRead)
    ensures var t := Step(s, PollRead).sup;
      if s.sup.exiting || s.sup.planned || s.sup.file.Absent? || s.sup.file.NoCommand? then t == s.sup
      else
        && t.polls == s.sup.polls + {Command(s.sup.nextTag,
             if s.sup.file.Fenced? then s.sup.file.record else Record(Unknown, None, None))}
        && t == s.sup.(polls := t.polls, nextTag := t.nextTag)
  {}

  /** A poll that resumes always removes the control file.  It schedules a teardown for an honoured shutdown; it hands
      an honoured restart over and schedules its watchdog; otherwise it does nothing more. */
  lemma PollResumesExactly(s: Sys, c: Command, answered: bool)
    requires Enabled(s, PollResumes(c, answered))
    ensures var t, r := Step(s, PollResumes(c, answered)).sup, c.record;
      var honoured := Honoured(r, if answered then Some(s.sup.runner) else None, s.sup.known, s.now);
      && t.file.Absent? && t.polls == s.sup.polls - {c}
      && t.shutdownTimers == s.sup.shutdownTimers + (if honoured && r.action == Shutdown then 1 else 0)
      && t.pending == (if honoured && r.IsRestart() then Some(c) else s.sup.pending)
      && t.restartTimers == s.sup.restartTimers + (if honoured && r.IsRestart() then {c} else {})
      && t.exiting == s.sup.exiting && t.planned == s.sup.planned && t.waits == s.sup.waits
      && t.runner == s.sup.runner && t.known == s.sup.known
  {}

  /** A shutdown record of the current generation that a poll can verify schedules a teardown, and when its timer fires
      the teardown has begun. */
  lemma ShutdownActs(s: Sys, c: Command, answered: bool)
    requires Reachable(s) && Enabled(s, PollResumes(c, answered))
    requires c.record.action.Shutdown? && c.record.instance == Some(s.sup.runner) && !c.record.Expired(s.now)
    requires answered || s.sup.known.Some?
    ensures var t := Step(s, PollResumes(c, answered));
      Enabled(t, ShutdownFires) && Step(t, ShutdownFires).sup.exiting
  {
    ReachableInv(s);
  }

  /** An accepted shutdown is not forgotten: its teardown is due until it has begun. */
  ghost predicate ShutdownDue(s: Sys) {
    && (s.sup.stopped ==> s.sup.exiting)
    && ((exists c :: c in s.accepted && c.record.action.Shutdown?) ==> s.sup.exiting || s.sup.shutdownTimers > 0)
  }

  lemma StepKeepsShutdownDue(s: Sys, e: Event)
    requires ShutdownDue(s) && Enabled(s, e)
    ensures ShutdownDue(Step(s, e))
  {
    var t := Step(s, e);
    if c :| c in t.accepted && c.record.action.Shutdown? {
      if c in s.accepted {
        assert s.sup.exiting || s.sup.shutdownTimers > 0;
      }
    }
  }

  lemma {:induction false} RunKeepsShutdownDue(s: Sys, es: seq<Event>, t: Sys)
    requires ShutdownDue(s) && Reaches(s, es, t)
    ensures ShutdownDue(t)
  {
    if es == [] {
    } else {
      var before := Run(s, es[..|es| - 1]).value;
      RunKeepsShutdownDue(s, es[..|es| - 1], before);
      StepKeepsShutdownDue(before, es[|es| - 1]);
    }
  }

  /** Over every run: once a shutdown has been accepted the supervisor is exiting, or a teardown is scheduled and firing
      it makes it exit. */
  lemma AcceptedShutdownIsDue(s: Sys, c: Command)
    requires Reachable(s) && c in s.accepted && c.record.action.Shutdown?
    ensures s.sup.exiting || (Enabled(s, ShutdownFires) && Step(s, ShutdownFires).sup.exiting)
  {
    var es :| Reaches(Init(), es, s);
    RunKeepsShutdownDue(Init(), es, s);
    ReachableInv(s);
  }

  /** The command in the hand-over slot has its watchdog scheduled, unless a teardown or a restart is under way. */
  predicate Watched(s: Sup) {
    s.pending.Some? ==> s.exiting || s.planned || s.pending.value in s.restartTimers
  }

  lemma StepKeepsWatched(s: Sys, e: Event)
    requires Watched(s.sup) && Enabled(s, e)
    ensures Watched(Step(s, e).sup)
  {}

  lemma {:induction false} RunKeepsWatched(s: Sys, es: seq<Event>, t: Sys)
    requires Watched(s.sup) && Reaches(s, es, t)
    ensures Watched(t.sup)
  {
    if es == [] {
    } else {
      var before := Run(s, es[..|es| - 1]).value;
      RunKeepsWatched(s, es[..|es| - 1], before);
      StepKeepsWatched(before, es[|es| - 1]);
    }
  }

  /** Over every run: a handed-over restart never hangs.  Outside a teardown and a restart its watchdog is due, and when
      it fires the restart of the current generation begins with that command. */
  lemma HandedOverRestartIsDue(s: Sys)
    requires Reachable(s) && s.sup.pending.Some? && !s.sup.exiting && !s.sup.planned
    ensures var c := s.sup.pending.value;
      && Enabled(s, TimerFires(c))
      && Step(s, TimerFires(c)).sup.planned && Step(s, TimerFires(c)).sup.pending.None?
      && Step(s, TimerFires(c)).sup.waits == [Wait(c, s.now + 15000)]
  {
    var es :| Reaches(Init(), es, s);
    RunKeepsWatched(Init(), es, s);
    ReachableInv(s);
  }

  /** A watchdog whose command has been claimed, overwritten or overtaken does nothing but end. */
  lemma WatchdogYields(s: Sys, c: Command)
    requires Enabled(s, TimerFires(c)) && (s.sup.exiting || s.sup.planned || s.sup.pending != Some(c))
    ensures Step(s, TimerFires(c)).sup == s.sup.(restartTimers := s.sup.restartTimers - {c})
  {}

  /** The old runner has its 15 s: while the restart that began at `began` waits, it is not killed earlier. */
  ghost predicate Patient(s: Sys, began: Time, runner: Gen) {
    s.sup.runner == runner && s.sup.planned ==> |s.sup.waits| == 1 && s.sup.waits[0].deadline == began + 15000
  }

  lemma {:induction false} RunStaysPatient(s: Sys, es: seq<Event>, t: Sys)
    requires Inv(s) && s.sup.planned && s.sup.waits[0].deadline == s.now + 15000 && Reaches(s, es, t)
    ensures Inv(t) && s.sup.runner <= t.sup.runner && Patient(t, s.now, s.sup.runner)
    ensures t.sup.runner == s.sup.runner ==> t.sup.planned
  {
    RunKeepsInv(s, es, t);
    if es == [] {
    } else {
      var before, e := Run(s, es[..|es| - 1]).value, es[|es| - 1];
      RunStaysPatient(s, es[..|es| - 1], before);
      StepKeepsWait(before, e);
    }
  }

  lemma StepKeepsWait(s: Sys, e: Event)
    requires Inv(s) && Enabled(s, e)
    ensures Step(s, e).sup.runner >= s.sup.runner
    ensures s.sup.planned && Step(s, e).sup.runner == s.sup.runner ==>
      Step(s, e).sup.planned && Step(s, e).sup.waits == s.sup.waits
  {}

  /** From the step that begins a planned restart on, the old runner is not killed before 15 s have passed. */
  lemma NotKilledBeforeDeadline(s: Sys, e: Event, es: seq<Event>, t: Sys, k: nat)
    requires Reachable(s) && Enabled(s, e) && !s.sup.planned && Step(s, e).sup.planned
    requires Reaches(Step(s, e), es, t) && t.sup.runner == s.sup.runner && Enabled(t, KillStale(k))
    ensures t.now >= s.now + 15000
  {
    ReachableInv(s);
    StepKeepsInv(s, e);
    BeginsWithDeadline(s, e);
    PatientFrom(Step(s, e), es, t, k);
  }

  lemma PatientFrom(s: Sys, es: seq<Event>, t: Sys, k: nat)
    requires Inv(s) && s.sup.planned && s.sup.waits[0].deadline == s.now + 15000 && Reaches(s, es, t)
    requires t.sup.runner == s.sup.runner && Enabled(t, KillStale(k))
    ensures t.now >= s.now + 15000
  {
    RunStaysPatient(s, es, t);
  }

  lemma BeginsWithDeadline(s: Sys, e: Event)
    requires Inv(s) && Enabled(s, e) && !s.sup.planned && Step(s, e).sup.planned
    ensures var t := Step(s, e);
      t.now == s.now && t.sup.runner == s.sup.runner && |t.sup.waits| == 1 && t.sup.waits[0].deadline == s.now + 15000
  {}

  /** A supervisor that has ended leaves no control file behind. */
  lemma {:induction false} EndsWithoutFile(s: Sys, es: seq<Event>, t: Sys)
    requires !s.sup.stopped && Reaches(s, es, t) && t.sup.stopped
    ensures t.sup.file.Absent?
  {
    if es == [] {
    } else {
      var before, e := Run(s, es[..|es| - 1]).value, es[|es| - 1];
      assert !before.sup.stopped && t == Step(before, e);
    }
  }

  /** A respawn starts the next generation unlearned, with the slot empty and no restart under way. */
  lemma RespawnStartsAfresh(s: Sys, k: nat)
    requires Reachable(s) && Enabled(s, Respawn(k))
    ensures var t := Step(s, Respawn(k));
      && t.sup.runner == s.sup.runner + 1 && t.life.Live? && t.sup.known.None? && t.sup.pending.None?
      && !t.sup.planned && t.sup.waits == [] && t.sup.exiting == s.sup.exiting && t.sup.file == s.sup.file
  {
    ReachableInv(s);
  }

  /** A teardown or a restart under way leaves the exit event nothing to do. */
  lemma ExitYields(s: Sys)
    requires Enabled(s, ExitDelivered) && (s.sup.exiting || s.sup.planned)
    ensures Step(s, ExitDelivered).sup == s.sup
  {}

  // ---- planned drains ----------------------------------------------------

  /** Events of a run with no separate shutdown and no stray write to the control file. */
  predicate Quiet(e: Event) { !e.Signal? && !e.ShutdownFires? && !e.JunkWritten? }

  predicate AllQuiet(es: seq<Event>) { forall i :: 0 <= i < |es| ==> Quiet(es[i]) }

  /** While generation g has not been replaced the stack is not torn down, and once g is gone the respawn is
      due: nothing but that respawn is still needed to reach generation g + 1. */
  predicate OnCourse(t: Sys, g: Gen) {
    t.sup.runner == g ==>
      && !t.sup.exiting
      && (t.life.Gone? ==> Enabled(t, Respawn(0)) && Step(t, Respawn(0)).sup.runner == g + 1)
  }

  /** Every order of polls, probe answers, timers and the exit event leads generation g to its respawn. */
  ghost predicate DrainSucceeds(s: Sys, g: Gen, r: Record) {
    forall es, t :: AllQuiet(es) && Reaches(s, es, t) && !r.Expired(t.now) ==> OnCourse(t, g)
  }

  /** The record of generation g is somewhere the exit handler or a watchdog will find it. */
  ghost predicate Armed(t: Sys, g: Gen, r: Record) {
    && t.sup.runner == g
    && !t.sup.exiting
    && t.sup.known == Some(g)
    && (t.sup.file.Absent? || t.sup.file == Fenced(r))
    && (forall c :: c in t.sup.polls ==> c.record == r)
    && (t.sup.pending.Some? ==> t.sup.pending.value.record == r)
    && (t.sup.planned || t.sup.pending.Some? || t.sup.file == Fenced(r))
  }

  /** `r` is the restart record that generation g wrote. */
  ghost predicate Wrote(s: Sys, g: Gen, r: Record) {
    g in s.written && s.written[g] == r && r.IsRestart() && r.instance == Some(g)
  }

  lemma StepKeepsArmed(s: Sys, e: Event, g: Gen, r: Record)
    requires Inv(s) && Enabled(s, e) && Quiet(e)
    requires Wrote(s, g, r) && !r.Expired(s.now)
    requires Armed(s, g, r)
    ensures Armed(Step(s, e), g, r) || Step(s, e).sup.runner == g + 1
  {}

  lemma StepStaysOnCourse(s: Sys, e: Event, t: Sys, g: Gen, r: Record)
    requires Inv(s) && Enabled(s, e) && t == Step(s, e) && Quiet(e)
    requires Wrote(s, g, r) && !r.Expired(s.now)
    requires Armed(s, g, r) || s.sup.runner > g
    ensures Wrote(t, g, r) && (Armed(t, g, r) || t.sup.runner > g)
  {
    StepGrows(s, e);
    if Armed(s, g, r) {
      StepKeepsArmed(s, e, g, r);
    }
  }

  lemma TimeMovesOn(s: Sys, e: Event)
    requires Enabled(s, e)
    ensures s.now <= Step(s, e).now
  {}

  lemma {:induction false} RunKeepsArmed(s: Sys, es: seq<Event>, t: Sys, g: Gen, r: Record)
    requires Inv(s) && Reaches(s, es, t) && AllQuiet(es)
    requires Wrote(s, g, r) && Armed(s, g, r) && !r.Expired(t.now)
    ensures Wrote(t, g, r) && (Armed(t, g, r) || t.sup.runner > g)
  {
    if es == [] {
    } else {
      var front, e := es[..|es| - 1], es[|es| - 1];
      var before := Run(s, front).value;
      RunKeepsInv(s, front, before);
      TimeMovesOn(before, e);
      RunKeepsArmed(s, front, before, g, r);
      StepStaysOnCourse(before, e, t, g, r);
    }
  }

  /** The live generation writes a restart record.  Its drain is never read as a death, whatever the order of
      events, if and only if its id has been learned and no poll is in flight when the record is written:
      an in-flight poll carries an earlier copy, and its rejection deletes the new record unread. */
  lemma PlannedDrainExactlyWhen(s: Sys, r: Record)
    requires Reachable(s) && !s.sup.exiting
    requires Enabled(s, RunnerWrites(r)) && r.IsRestart() && !r.Expired(s.now)
    ensures DrainSucceeds(Step(s, RunnerWrites(r)), s.sup.runner, r)
      <==> s.sup.known == Some(s.sup.runner) && s.sup.polls == {}
  {
    ReachableInv(s);
    var g, w := s.sup.runner, Step(s, RunnerWrites(r));
    StepKeepsInv(s, RunnerWrites(r));
    if s.sup.known == Some(g) && s.sup.polls == {} {
      forall es, t | AllQuiet(es) && Reaches(w, es, t) && !r.Expired(t.now) ensures OnCourse(t, g) {
        RunKeepsInv(w, es, t);
        RunKeepsArmed(w, es, t, g, r);
      }
    } else if s.sup.known.None? {
      UnlearnedDrainDies(w, g, r);
    } else {
      var c :| c in s.sup.polls;
      StalePollLosesRecord(w, c, g, r);
    }
  }

  lemma UnlearnedDrainDies(w: Sys, g: Gen, r: Record)
    requires Inv(w) && !w.sup.exiting && w.sup.runner == g && w.life.Live?
    requires w.sup.known.None? && !w.sup.planned && w.sup.file == Fenced(r) && !r.Expired(w.now)
    ensures !DrainSucceeds(w, g, r)
  {
    var es := [RunnerDies, ExitDelivered];
    RunOfTwo(w, RunnerDies, ExitDelivered);
    var t := Step(Step(w, RunnerDies), ExitDelivered);
    assert AllQuiet(es) && Reaches(w, es, t) && !OnCourse(t, g);
  }

  lemma StalePollLosesRecord(w: Sys, c: Command, g: Gen, r: Record)
    requires Inv(w) && !w.sup.exiting && w.sup.runner == g && w.life.Live?
    requires w.sup.known == Some(g) && !w.sup.planned && w.sup.pending.None? && !r.Expired(w.now)
    requires c in w.sup.polls && c.record.instance != Some(g)
    ensures !DrainSucceeds(w, g, r)
  {
    var es := [PollResumes(c, false), RunnerDies, ExitDelivered];
    RunOfThree(w, PollResumes(c, false), RunnerDies, ExitDelivered);
    var t := Step(Step(Step(w, PollResumes(c, false)), RunnerDies), ExitDelivered);
    assert AllQuiet(es) && Reaches(w, es, t) && !OnCourse(t, g);
  }

  // ---- concrete runs -------------------------------------------------------

  lemma ReachableStep(s: Sys, e: Event)
    requires Reachable(s) && Enabled(s, e)
    ensures Reachable(Step(s, e))
  {
    var es :| Reaches(Init(), es, s);
    assert (es + [e])[..|es|] == es;
    assert Reaches(Init(), es + [e], Step(s, e));
  }

  lemma InitReachable()
    ensures Reachable(Init())
  {
    assert Reaches(Init(), [], Init());
  }

  const FIRST: Record := Record(Restart, Some(0), None)
  const SECOND: Record := Record(Restart, Some(1), None)

  /** Generation 0 is learned and its restart record has been read by two polls. */
  lemma TwoPollsInFlight() returns (s: Sys)
    ensures Reachable(s)
    ensures s == Sys(Sup(false, false, false, None, Some(0), 0, Fenced(FIRST), 2,
                         {Command(0, FIRST), Command(1, FIRST)}, {}, 0, []),
                     0, Live, map[0 := FIRST], {}, [])
  {
    InitReachable();
    s := Init();
    ReachableStep(s, IdLearned); s := Step(s, IdLearned);
    ReachableStep(s, RunnerWrites(FIRST)); s := Step(s, RunnerWrites(FIRST));
    ReachableStep(s, PollRead); s := Step(s, PollRead);
    ReachableStep(s, PollRead); s := Step(s, PollRead);
    assert s.sup.polls == {Command(0, FIRST), Command(1, FIRST)};
  }

  /** One of the polls has handed its copy over and the exit has claimed it. */
  lemma DrainClaimed() returns (s: Sys)
    ensures Reachable(s) && s.life.Gone? && s.sup.runner == 0 && s.sup.planned && |s.sup.waits| == 1
    ensures !s.sup.exiting && !s.sup.stopped && s.sup.polls == {Command(1, FIRST)} && s.written == map[0 := FIRST]
    ensures s.now == 0
  {
    s := TwoPollsInFlight();
    var c := Command(0, FIRST);
    ReachableStep(s, PollResumes(c, true)); s := Step(s, PollResumes(c, true));
    ReachableStep(s, RunnerDies); s := Step(s, RunnerDies);
    ReachableStep(s, ExitDelivered); s := Step(s, ExitDelivered);
  }

  /** The failing input of PlannedDrainExactlyWhen, reached from the start: two polls read generation 0's
      record, one of them and the exit complete the restart, and the other is still in flight when
      generation 1, already learned, writes its own. */
  lemma StalePollWitness() returns (s: Sys)
    ensures Reachable(s) && !s.sup.exiting && s.sup.runner == 1 && s.sup.known == Some(1)
    ensures Enabled(s, RunnerWrites(SECOND)) && SECOND.IsRestart() && !SECOND.Expired(s.now)
    ensures !DrainSucceeds(Step(s, RunnerWrites(SECOND)), 1, SECOND)
  {
    s := DrainClaimed();
    ReachableStep(s, Respawn(0)); s := Step(s, Respawn(0));
    ReachableStep(s, IdLearned); s := Step(s, IdLearned);
    assert Command(1, FIRST) in s.sup.polls;
    PlannedDrainExactlyWhen(s, SECOND);
  }

  /** A plainer failing input: a poll of generation 0 has read a half-written file when the generation writes its
      restart record. */
  lemma HalfWrittenWitness() returns (s: Sys)
    ensures Reachable(s) && !s.sup.exiting && s.sup.runner == 0 && s.sup.known == Some(0)
    ensures Enabled(s, RunnerWrites(FIRST)) && FIRST.IsRestart() && !FIRST.Expired(s.now)
    ensures !DrainSucceeds(Step(s, RunnerWrites(FIRST)), 0, FIRST)
  {
    InitReachable();
    s := Init();
    ReachableStep(s, IdLearned); s := Step(s, IdLearned);
    ReachableStep(s, JunkWritten(Garbled)); s := Step(s, JunkWritten(Garbled));
    ReachableStep(s, PollRead); s := Step(s, PollRead);
    assert Command(0, Record(Unknown, None, None)) in s.sup.polls;
    PlannedDrainExactlyWhen(s, FIRST);
  }

  /** A restart that is already waiting respawns a runner although a signal has begun the teardown. */
  lemma RespawnDuringTeardown() returns (s: Sys, es: seq<Event>, t: Sys)
    ensures Reachable(s) && s.sup.exiting && Reaches(s, es, t)
    ensures t.sup.runner == s.sup.runner + 1
  {
    s := DrainClaimed();
    ReachableStep(s, Signal);
    s := Step(s, Signal);
    es, t := [Respawn(0)], Step(s, Respawn(0));
    RunOfOne(s, Respawn(0));
  }
}
