/** The runner-restart protocol of scripts/supervisor.js as a labelled transition system.

    One event loop interleaves overlapping command polls (each suspended at its /health probe),
    200 ms timers, the runner's exit event, suspended planned restarts and signals.  Handlers are
    functions on the supervisor's variables (`Sup`); `Step` adds the environment: the clock, the
    current runner's life, and histories that nothing reads.
 */
module SupervisorProtocol {
  import opened Wrappers

  /** Runner generations are numbered in spawn order; the number doubles as the fresh runnerInstanceId. */
  type Gen = nat
  type Time = int

  datatype Action = Shutdown | Restart | RestartRunner | Unknown

  /** A fenced JSON record.  `expiresAt` is None when absent or not a date. */
  datatype Record = Record(action: Action, instance: Option<Gen>, expiresAt: Option<Time>) {
    predicate IsRestart() { action.Restart? || action.RestartRunner? }
    predicate Expired(now: Time) { expiresAt.Some? && expiresAt.value <= now }
  }

  /** The control file: missing; blank or JSON without an action; unparseable JSON; a fenced record. */
  datatype Content = Absent | NoCommand | Garbled | Fenced(record: Record)

  /** One parsed copy of a record.  The tag is the identity of the in-memory object. */
  datatype Command = Command(tag: nat, record: Record)

  datatype Verdict = Valid | UnknownAction | ExpiredRecord | MissingInstance | Unverifiable | StaleInstance

  /** A suspended activation of handlePlannedRunnerRestart. */
  datatype Wait = Wait(cmd: Command, deadline: Time)

  datatype Sup = Sup(
    exiting: bool,                // isExiting
    stopped: bool,                // the process has ended (finishExit)
    planned: bool,                // plannedRunnerRestart
    pending: Option<Command>,     // pendingRestartCmd
    known: Option<Gen>,           // currentRunnerInstanceId
    runner: Gen,                  // runnerProcess
    file: Content,                // the control file
    nextTag: nat,
    polls: set<Command>,          // polls suspended at their probe
    restartTimers: set<Command>,  // scheduled hung-drain watchdogs
    shutdownTimers: nat,          // scheduled teardowns
    waits: seq<Wait>)

  const RESTART_DEADLINE: Time := 15000

  function ReadCommand(file: Content): Option<Record> {
    match file
    case Absent => None
    case NoCommand => None
    case Garbled => Some(Record(Unknown, None, None))
    case Fenced(r) => Some(r)
  }

  function Expected(live: Option<Gen>, known: Option<Gen>): Option<Gen> {
    if live.Some? then live else known
  }

  function Validate(r: Record, live: Option<Gen>, known: Option<Gen>, now: Time): Verdict {
    if r.action.Unknown? then UnknownAction
    else if r.Expired(now) then ExpiredRecord
    else if r.instance.None? then MissingInstance
    else if Expected(live, known).None? then Unverifiable
    else if r.instance != Expected(live, known) then StaleInstance
    else Valid
  }

  /** `cmd` is a restart of the runner that is current. */
  predicate ForCurrent(s: Sup, cmd: Command) {
    cmd.record.IsRestart() && cmd.record.instance == Some(s.runner)
  }

  /** What the supervisor's variables say of each other between two handlers. */
  predicate Coherent(s: Sup) {
    && (s.stopped ==> s.exiting)
    && (s.known.Some? ==> s.known.value == s.runner)
    && |s.waits| == (if s.planned then 1 else 0)
    && (s.planned ==> ForCurrent(s, s.waits[0].cmd))
    && (s.pending.Some? ==> ForCurrent(s, s.pending.value))
  }

  // ---- handlers ----------------------------------------------------------

  function CleanupAndExit(s: Sup): Sup { s.(exiting := true) }

  function FinishExit(s: Sup): Sup { s.(stopped := true, file := Absent) }

  function BeginRestart(s: Sup, cmd: Command, now: Time): Sup {
    s.(planned := true, waits := s.waits + [Wait(cmd, now + RESTART_DEADLINE)])
  }

  /** The tail of handlePlannedRunnerRestart, with startRunnerProcess inside it. */
  function FinishRestart(s: Sup, k: nat): Sup
    requires k < |s.waits|
  {
    s.(runner := s.runner + 1, known := None, pending := None, planned := false,
       waits := s.waits[..k] + s.waits[k + 1..])
  }

  /** pollSupervisorCommand up to its await. */
  function PollStart(s: Sup): Sup {
    if s.exiting || s.planned || ReadCommand(s.file).None? then s
    else s.(polls := s.polls + {Command(s.nextTag, ReadCommand(s.file).value)}, nextTag := s.nextTag + 1)
  }

  /** pollSupervisorCommand after its await; every verdict removes the control file. */
  function PollResume(s: Sup, cmd: Command, live: Option<Gen>, now: Time): Sup {
    var t := s.(polls := s.polls - {cmd}, file := Absent);
    if !Validate(cmd.record, live, s.known, now).Valid? then t
    else if cmd.record.action.Shutdown? then t.(shutdownTimers := s.shutdownTimers + 1)
    else t.(pending := Some(cmd), restartTimers := s.restartTimers + {cmd})
  }

  function RestartTimer(s: Sup, cmd: Command, now: Time): Sup {
    var t := s.(restartTimers := s.restartTimers - {cmd});
    if s.exiting || s.planned || s.pending != Some(cmd) then t
    else BeginRestart(t.(pending := None), cmd, now)
  }

  function ShutdownTimer(s: Sup): Sup
    requires s.shutdownTimers > 0
  {
    CleanupAndExit(s.(shutdownTimers := s.shutdownTimers - 1))
  }

  /** The command the exit handler consults: the handed-over copy first, then the control file. */
  function ExitCommand(s: Sup): Option<Command> {
    if s.pending.Some? then s.pending
    else if ReadCommand(s.file).Some? then Some(Command(s.nextTag, ReadCommand(s.file).value))
    else None
  }

  predicate ExitIsPlanned(s: Sup, now: Time) {
    && ExitCommand(s).Some?
    && ExitCommand(s).value.record.IsRestart()
    && Validate(ExitCommand(s).value.record, s.known, s.known, now).Valid?
  }

  /** The runner's exit event. */
  function RunnerExit(s: Sup, now: Time): Sup {
    if s.exiting || s.planned then s
    else
      var read := s.pending.None? && ReadCommand(s.file).Some?;
      var t := s.(pending := None, nextTag := if read then s.nextTag + 1 else s.nextTag);
      if ExitIsPlanned(s, now) then BeginRestart(t.(file := Absent), ExitCommand(s).value, now)
      else CleanupAndExit(t)
  }

  // ---- the system ----------------------------------------------------------

  /** Live: answers probes and may write.  Dying: no longer answers.  Gone: exit event delivered, pid reads dead. */
  datatype Life = Live | Dying | Gone

  datatype Replacement = Replacement(replaced: Gen, cmd: Command)

  datatype Sys = Sys(
    sup: Sup,
    now: Time,
    life: Life,                    // of generation sup.runner
    written: map<Gen, Record>,     // history: the record each generation wrote
    accepted: set<Command>,        // history: copies whose validation succeeded
    respawns: seq<Replacement>)    // history: planned respawns

  datatype Event =
    | Tick(elapsed: nat)
    | RunnerWrites(record: Record)
    | JunkWritten(content: Content)
    | PollRead
    | PollResumes(cmd: Command, answered: bool)
    | TimerFires(cmd: Command)
    | ShutdownFires
    | RunnerDies
    | ExitDelivered
    | KillStale(k: nat)
    | Respawn(k: nat)
    | IdLearned
    | Signal
    | ProcessEnds

  function Init(): Sys {
    Sys(Sup(false, false, false, None, None, 0, Absent, 0, {}, {}, 0, []), 0, Live, map[], {}, [])
  }

  predicate Enabled(s: Sys, e: Event) {
    && !s.sup.stopped
    && match e
       case RunnerWrites(r) => s.life.Live? && s.sup.runner !in s.written && r.instance == Some(s.sup.runner)
       case JunkWritten(c) => c.NoCommand? || c.Garbled?
       case PollResumes(c, answered) => c in s.sup.polls && (answered ==> s.life.Live?)
       case TimerFires(c) => c in s.sup.restartTimers
       case ShutdownFires => s.sup.shutdownTimers > 0
       case RunnerDies => s.life.Live?
       case ExitDelivered => s.life.Dying?
       case KillStale(k) => k < |s.sup.waits| && s.sup.waits[k].deadline <= s.now && s.life.Live?
       case Respawn(k) => k < |s.sup.waits| && s.life.Gone?
       case IdLearned => s.life.Live?
       case ProcessEnds => s.sup.exiting
       case _ => true
  }

  function LiveId(s: Sys, answered: bool): Option<Gen> {
    if answered then Some(s.sup.runner) else None
  }

  function Step(s: Sys, e: Event): Sys
    requires Enabled(s, e)
  {
    match e
    case Tick(d) => s.(now := s.now + d)
    case RunnerWrites(r) => s.(sup := s.sup.(file := Fenced(r)), written := s.written[s.sup.runner := r])
    case JunkWritten(c) => s.(sup := s.sup.(file := c))
    case PollRead => s.(sup := PollStart(s.sup))
    case PollResumes(c, answered) =>
      s.(sup := PollResume(s.sup, c, LiveId(s, answered), s.now),
         accepted := s.accepted +
           if Validate(c.record, LiveId(s, answered), s.sup.known, s.now).Valid? then {c} else {})
    case TimerFires(c) => s.(sup := RestartTimer(s.sup, c, s.now))
    case ShutdownFires => s.(sup := ShutdownTimer(s.sup))
    case RunnerDies => s.(life := Dying)
    case ExitDelivered =>
      s.(sup := RunnerExit(s.sup, s.now), life := Gone,
         accepted := s.accepted +
           if !s.sup.exiting && !s.sup.planned && ExitIsPlanned(s.sup, s.now) then {ExitCommand(s.sup).value} else {})
    case KillStale(k) => s.(life := Dying)
    case Respawn(k) =>
      s.(sup := FinishRestart(s.sup, k), life := Live,
         respawns := s.respawns + [Replacement(s.sup.runner, s.sup.waits[k].cmd)])
    case IdLearned => s.(sup := s.sup.(known := Some(s.sup.runner)))
    case Signal => s.(sup := CleanupAndExit(s.sup))
    case ProcessEnds => s.(sup := FinishExit(s.sup))
  }

  /** The state a run leads to, if every event of it is enabled in turn. */
  function Run(s: Sys, es: seq<Event>): Option<Sys> {
    if es == [] then Some(s)
    else
      var before := Run(s, es[..|es| - 1]);
      if before.Some? && Enabled(before.value, es[|es| - 1])
      then Some(Step(before.value, es[|es| - 1])) else None
  }

  ghost predicate Reaches(s: Sys, es: seq<Event>, t: Sys) { Run(s, es) == Some(t) }

  ghost predicate Reachable(s: Sys) { exists es :: Reaches(Init(), es, s) }
}
