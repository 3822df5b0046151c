/** The supervisor of scripts/supervisor.js with its module-level flags as fields.  Suspended activations and
    scheduled timers are fields too.  Each handler is proved against its function in SupervisorProtocol and keeps the
    flags coherent; dispatching enabled events to the handlers is a run of the transition system, so what
    SupervisorSafety proves of every run holds of the object. */
module SupervisorObject {
  import opened Wrappers
  import opened SupervisorProtocol
  import opened SupervisorSafety

  class Supervisor {
    var isExiting: bool
    var stopped: bool
    var plannedRunnerRestart: bool
    var pendingRestartCmd: Option<Command>
    var currentRunnerInstanceId: Option<Gen>
    var runnerProcess: Gen
    var controlFile: Content
    var nextTag: nat
    var polls: set<Command>
    var restartTimers: set<Command>
    var shutdownTimers: nat
    var waits: seq<Wait>
    /** The run so far: the clock, the runner's life and what was written, accepted and respawned. */
    ghost var world: Sys

    ghost function View(): Sup
      reads this
    {
      Sup(isExiting, stopped, plannedRunnerRestart, pendingRestartCmd, currentRunnerInstanceId, runnerProcess,
          controlFile, nextTag, polls, restartTimers, shutdownTimers, waits)
    }

    /** The learned id is the current one, one activation waits exactly while the flag is set, and waiting and pending
        commands are restarts of the current runner. */
    ghost predicate Valid()
      reads this
    {
      Coherent(View())
    }

    /** The fields are those of the state that the run so far has reached. */
    ghost predicate Follows()
      reads this
    {
      world.sup == View() && Reachable(world)
    }

    /** The state once startServicesFresh has spawned generation 0 over a cleared control file. */
    constructor ()
      ensures View() == Init().sup
      ensures !isExiting && !stopped && !plannedRunnerRestart && controlFile.Absent? && waits == [] && polls == {}
      ensures pendingRestartCmd.None? && currentRunnerInstanceId.None? && runnerProcess == 0
      ensures Valid() && Follows() && world == Init()
    {
      isExiting, stopped, plannedRunnerRestart := false, false, false;
      pendingRestartCmd, currentRunnerInstanceId, runnerProcess := None, None, 0;
      controlFile, nextTag, polls, restartTimers, shutdownTimers, waits := Absent, 0, {}, {}, 0, [];
      world := Init();
      new;
      InitReachable();
    }

    /** Parses the control file into a fresh command object. */
    method ReadSupervisorCommand() returns (cmd: Option<Command>)
      modifies this`nextTag
      ensures cmd.Some? <==> controlFile.Garbled? || controlFile.Fenced?
      ensures cmd.Some? ==> cmd == Some(Command(old(nextTag), ReadCommand(controlFile).value))
      ensures cmd.Some? && controlFile.Garbled? ==> cmd.value.record.action.Unknown?
      ensures nextTag == if cmd.None? then old(nextTag) else old(nextTag) + 1
    {
      cmd := None;
      match controlFile {
        case Absent => return;
        case NoCommand => return;
        case Garbled => cmd := Some(Command(nextTag, Record(Unknown, None, None)));
        case Fenced(r) => cmd := Some(Command(nextTag, r));
      }
      nextTag := nextTag + 1;
    }

    /** A record is honoured exactly when its action is known, it has not expired and it names the generation that
        answered the probe or, if none answered, the one learned before. */
    method ValidateSupervisorCommand(cmd: Command, live: Option<Gen>, now: Time) returns (v: Verdict)
      ensures v == Validate(cmd.record, live, currentRunnerInstanceId, now)
      ensures v.Valid? <==>
        && cmd.record.action in {Shutdown, Restart, RestartRunner}
        && (cmd.record.expiresAt.Some? ==> now < cmd.record.expiresAt.value)
        && cmd.record.instance.Some?
        && (cmd.record.instance == live || (live.None? && cmd.record.instance == currentRunnerInstanceId))
    {
      if cmd.record.action.Unknown? { return UnknownAction; }
      if cmd.record.expiresAt.Some? && cmd.record.expiresAt.value <= now { return ExpiredRecord; }
      if cmd.record.instance.None? { return MissingInstance; }
      var expected := if live.Some? then live else currentRunnerInstanceId;
      if expected.None? { return Unverifiable; }
      if cmd.record.instance.value != expected.value { return StaleInstance; }
      return Verdict.Valid;
    }

    /** pollSupervisorCommand up to the probe; the parsed copy waits in `polls`. */
    method PollSupervisorCommand()
      requires Valid()
      modifies this
      ensures View() == PollStart(old(View()))
      ensures Valid()
    {
      if isExiting || plannedRunnerRestart { return; }
      var cmd := ReadSupervisorCommand();
      if cmd.None? { return; }
      polls := polls + {cmd.value};
    }

    /** pollSupervisorCommand once the probe has answered `live`. */
    method ResumePoll(cmd: Command, live: Option<Gen>, now: Time)
      requires Valid() && (live.Some? ==> live.value == runnerProcess)
      modifies this
      ensures View() == PollResume(old(View()), cmd, live, now)
      ensures Valid()
    {
      polls := polls - {cmd};
      var verdict := ValidateSupervisorCommand(cmd, live, now);
      if !verdict.Valid? {
        controlFile := Absent;
        return;
      }
      controlFile := Absent;
      if cmd.record.action.Shutdown? {
        shutdownTimers := shutdownTimers + 1;
      } else if cmd.record.action.Restart? || cmd.record.action.RestartRunner? {
        pendingRestartCmd := Some(cmd);
        restartTimers := restartTimers + {cmd};
      }
    }

    /** The hung-drain watchdog scheduled for `cmd`. */
    method FireRestartTimer(cmd: Command, now: Time)
      requires Valid()
      modifies this
      ensures View() == RestartTimer(old(View()), cmd, now)
      ensures Valid()
    {
      restartTimers := restartTimers - {cmd};
      if isExiting || plannedRunnerRestart || pendingRestartCmd != Some(cmd) { return; }
      pendingRestartCmd := None;
      HandlePlannedRunnerRestart(cmd, now);
    }

    method FireShutdownTimer()
      requires Valid() && shutdownTimers > 0
      modifies this
      ensures View() == ShutdownTimer(old(View()))
      ensures Valid()
    {
      shutdownTimers := shutdownTimers - 1;
      Cleanup();
    }

    /** The exit event of the current runner. */
    method OnRunnerExit(now: Time)
      requires Valid()
      modifies this
      ensures View() == RunnerExit(old(View()), now)
      ensures Valid()
    {
      if isExiting { return; }
      if plannedRunnerRestart { return; }
      var cmd := pendingRestartCmd;
      if cmd.None? {
        cmd := ReadSupervisorCommand();
      }
      pendingRestartCmd := None;
      if cmd.Some? && (cmd.value.record.action.Restart? || cmd.value.record.action.RestartRunner?) {
        var verdict := ValidateSupervisorCommand(cmd.value, currentRunnerInstanceId, now);
        if verdict.Valid? {
          controlFile := Absent;
          HandlePlannedRunnerRestart(cmd.value, now);
          return;
        }
      }
      Cleanup();
    }

    /** handlePlannedRunnerRestart up to its wait loop.  Its callers make sure that no restart is under way and that
        the command is one for the current runner. */
    method HandlePlannedRunnerRestart(cmd: Command, now: Time)
      requires Valid() && !plannedRunnerRestart && ForCurrent(View(), cmd)
      modifies this`plannedRunnerRestart, this`waits
      ensures View() == BeginRestart(old(View()), cmd, now)
      ensures Valid()
    {
      plannedRunnerRestart := true;
      waits := waits + [Wait(cmd, now + RESTART_DEADLINE)];
    }

    /** The rest of handlePlannedRunnerRestart, for suspended activation k. */
    method CompletePlannedRestart(k: nat)
      requires Valid() && k < |waits|
      modifies this
      ensures View() == FinishRestart(old(View()), k)
      ensures Valid() && !plannedRunnerRestart
    {
      waits := waits[..k] + waits[k + 1..];
      StartRunnerProcess();
      plannedRunnerRestart := false;
    }

    method StartRunnerProcess()
      modifies this`runnerProcess, this`currentRunnerInstanceId, this`pendingRestartCmd
      ensures runnerProcess == old(runnerProcess) + 1
      ensures currentRunnerInstanceId == None && pendingRestartCmd == None
    {
      runnerProcess := runnerProcess + 1;
      currentRunnerInstanceId := None;
      pendingRestartCmd := None;
    }

    /** refreshRunnerInstanceId with the probe's answer. */
    method RefreshRunnerInstanceId(id: Option<Gen>)
      requires Valid() && (id.Some? ==> id.value == runnerProcess)
      modifies this`currentRunnerInstanceId
      ensures currentRunnerInstanceId == Expected(id, old(currentRunnerInstanceId))
      ensures Valid()
    {
      if id.Some? { currentRunnerInstanceId := id; }
    }

    method Cleanup()
      requires Valid()
      modifies this`isExiting
      ensures View() == CleanupAndExit(old(View()))
      ensures Valid()
    {
      if isExiting { return; }
      isExiting := true;
    }

    method FinishExit()
      requires Valid() && isExiting
      modifies this`stopped, this`controlFile
      ensures View() == SupervisorProtocol.FinishExit(old(View()))
      ensures Valid()
    {
      stopped, controlFile := true, Absent;
    }

    /** One turn of the event loop.  Whatever enabled event comes next, its handler takes the object exactly where the
        transition system goes. */
    method Dispatch(e: Event, now: Time)
      requires Follows() && Enabled(world, e) && now == world.now
      modifies this
      ensures Follows() && Valid() && world == Step(old(world), e)
    {
      ghost var before := world;
      ReachableInv(world);
      match e {
        case Tick(_) =>
        case RunnerWrites(r) => controlFile := Fenced(r);
        case JunkWritten(c) => controlFile := c;
        case PollRead => PollSupervisorCommand();
        case PollResumes(c, answered) => ResumePoll(c, if answered then Some(runnerProcess) else None, now);
        case TimerFires(c) => FireRestartTimer(c, now);
        case ShutdownFires => FireShutdownTimer();
        case RunnerDies =>
        case ExitDelivered => OnRunnerExit(now);
        case KillStale(_) =>
        case Respawn(k) => CompletePlannedRestart(k);
        case IdLearned => RefreshRunnerInstanceId(Some(runnerProcess));
        case Signal => Cleanup();
        case ProcessEnds => FinishExit();
      }
      ReachableStep(before, e);
      world := Step(before, e);
      ReachableInv(world);
    }
  }

  /** What the runs keep, read off the object's own fields. */
  lemma ObjectIsSafe(s: Supervisor)
    requires s.Follows()
    ensures s.Valid()
    ensures s.runnerProcess == |s.world.respawns|
    ensures forall i :: 0 <= i < s.runnerProcess ==> Backs(s.world, s.world.respawns[i].cmd, i)
    ensures s.pendingRestartCmd.Some? || s.waits != [] ==>
      s.runnerProcess in s.world.written && s.controlFile != Fenced(s.world.written[s.runnerProcess])
  {
    RespawnAccounting(s.world);
    ReachableInv(s.world);
    if s.world.sup.planned || s.world.sup.pending.Some? { ConsumedBeforeActing(s.world); }
  }
}
