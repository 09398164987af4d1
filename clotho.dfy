/**
 * The command runner of clotho.go: the quiet flag, the verbosity-to-level
 * table of the logger, the lifecycle of a sub-command (prologue, execute,
 * deferred epilogue) with its exit code, and the dispatch that fails when no
 * sub-command was chosen.
 *
 * A sub-command is described by what its calls do (`SubCommand`); the calls
 * the runner makes on it are recorded in the `events` trace of the `Clotho`
 * object.
 */
module Clotho {
  import opened Base

  /** The global levels of zerolog the runner chooses between. */
  datatype Level = Disabled | ErrorLevel | WarnLevel | InfoLevel | DebugLevel | TraceLevel

  /** zerolog's numeric value of a level: a message is written when its level is at least the global one. */
  function Rank(level: Level): int
  {
    match level
    case TraceLevel => -1
    case DebugLevel => 0
    case InfoLevel => 1
    case WarnLevel => 2
    case ErrorLevel => 3
    case Disabled => 7
  }

  /** Whether a message of level `message` is written under the global level `global`. */
  predicate Written(global: Level, message: Level)
  {
    message != Disabled && global != Disabled && Rank(message) >= Rank(global)
  }

  /**
   * The global level for a verbosity count: -1 disables logging, 0 to 3 go
   * from errors only to debug, and every other value (including values below
   * -1) means trace.
   */
  function LevelFor(verbose: int): (level: Level)
    ensures level == Disabled <==> verbose == -1
    ensures level == TraceLevel <==> !(-1 <= verbose <= 3)
  {
    if verbose == -1 then Disabled
    else if verbose == 0 then ErrorLevel
    else if verbose == 1 then WarnLevel
    else if verbose == 2 then InfoLevel
    else if verbose == 3 then DebugLevel
    else TraceLevel
  }

  /** The smallest verbosity count that selects a level. */
  function Verbosity(level: Level): (verbose: int)
    ensures -1 <= verbose <= 4
  {
    match level
    case Disabled => -1
    case ErrorLevel => 0
    case WarnLevel => 1
    case InfoLevel => 2
    case DebugLevel => 3
    case TraceLevel => 4
  }

  /** Every level is reachable, and `Verbosity` picks a count that selects it. */
  lemma LevelRoundTrip(level: Level)
    ensures LevelFor(Verbosity(level)) == level
  {
  }

  /** Counts from -1 to 4 are exactly the canonical ones: each selects a distinct level. */
  lemma VerbosityRoundTrip(verbose: int)
    requires -1 <= verbose <= 4
    ensures Verbosity(LevelFor(verbose)) == verbose
  {
  }

  /** From -1 upwards, one more `-v` never hides a message that was written before. */
  lemma MoreVerboseWritesMore(v: int, w: int, message: Level)
    requires -1 <= v <= w
    requires Written(LevelFor(v), message)
    ensures Written(LevelFor(w), message)
  {
  }

  /** With `--quiet` nothing is written. */
  lemma QuietWritesNothing(message: Level)
    ensures !Written(LevelFor(-1), message)
  {
  }

  /** What a sub-command's calls do: whether `Prologue` panics, and what `Execute` returns (the JSON text of its response, or its error). */
  datatype SubCommand = SubCommand(prologuePanic: Option<Error>, execute: Result<string>)

  /** A call the runner makes on a sub-command, or the printed response. */
  datatype Event = CmdPrologue | CmdExecute | Printed(payload: string) | CmdEpilogue

  /** How the runner ends: an exit code, or a panic that escapes it. */
  datatype Outcome = Exited(code: int) | Panicked(error: Error)

  /** The exit code of a finished execution. */
  function ExitCode(r: Result<string>): (code: int)
    ensures code == 1 <==> r.Err?
    ensures code == 0 <==> r.Ok?
  {
    if r.Err? then 1 else 0
  }

  /**
   * The calls of `run`: the prologue; unless it panics (before the epilogue
   * is deferred), the execution, the printed response when there is no error,
   * and the deferred epilogue.
   */
  function RunEvents(cmd: SubCommand): (events: seq<Event>)
    ensures |events| >= 1 && events[0] == CmdPrologue
    ensures cmd.prologuePanic.Some? ==> events == [CmdPrologue]
    ensures cmd.prologuePanic.None? ==> events[|events| - 1] == CmdEpilogue
  {
    if cmd.prologuePanic.Some? then [CmdPrologue]
    else [CmdPrologue, CmdExecute] + (if cmd.execute.Ok? then [Printed(cmd.execute.value)] else []) + [CmdEpilogue]
  }

  /** How `run` ends. */
  function RunOutcome(cmd: SubCommand): (outcome: Outcome)
    ensures outcome.Panicked? <==> cmd.prologuePanic.Some?
    ensures cmd.prologuePanic.None? ==> outcome == Exited(ExitCode(cmd.execute))
  {
    if cmd.prologuePanic.Some? then Panicked(cmd.prologuePanic.value) else Exited(ExitCode(cmd.execute))
  }

  /**
   * Once the prologue has returned, the epilogue runs exactly once and last,
   * after the prologue and the execution, whatever the execution returns.
   */
  lemma EpilogueOnceAndLast(cmd: SubCommand)
    requires cmd.prologuePanic.None?
    ensures var events := RunEvents(cmd);
      events[0] == CmdPrologue && events[1] == CmdExecute && events[|events| - 1] == CmdEpilogue
      && multiset(events)[CmdEpilogue] == 1 && multiset(events)[CmdExecute] == 1
  {
  }

  /** The response is printed exactly when the execution has no error, which is exactly when the exit code is 0. */
  lemma PrintedIffSuccess(cmd: SubCommand)
    requires cmd.prologuePanic.None?
    ensures (exists p :: Printed(p) in RunEvents(cmd)) <==> RunOutcome(cmd) == Exited(0)
  {
    if cmd.execute.Ok? {
      assert Printed(cmd.execute.value) in RunEvents(cmd);
    }
  }

  /** A prologue panic stops everything: no execution, no epilogue. */
  lemma PanicSkipsTheRest(cmd: SubCommand)
    requires cmd.prologuePanic.Some?
    ensures CmdExecute !in RunEvents(cmd) && CmdEpilogue !in RunEvents(cmd)
    ensures RunOutcome(cmd).Panicked?
  {
  }

  /** The root command: the logger flags, the chosen sub-command, the logger level, and the trace of calls. */
  class Clotho {
    /** `--quiet`. */
    const quiet: bool
    /** The `-v` count, overwritten by `AfterApply`. */
    var verbose: int
    /** The GitHub sub-command, when it was chosen on the command line. */
    const github: Option<SubCommand>
    /** zerolog's global level. */
    var level: Level
    /** The calls made on the sub-command so far, oldest first. */
    var events: seq<Event>

    /** The parsed command line. */
    constructor (quiet: bool, verbose: int, github: Option<SubCommand>)
      ensures this.quiet == quiet && this.verbose == verbose && this.github == github
      ensures level == DebugLevel && events == []
    {
      this.quiet := quiet;
      this.verbose := verbose;
      this.github := github;
      level := DebugLevel;  // zerolog's initial global level
      events := [];
    }

    /** `AfterApply`: `--quiet` means verbosity -1; never an error. */
    method AfterApply() returns (err: Option<Error>)
      modifies this`verbose
      ensures verbose == if quiet then -1 else old(verbose)
      ensures err == None
    {
      if quiet {
        verbose := -1;
      }
      err := None;
    }

    /** `setupLogger`: the global level chosen by the verbosity. */
    method SetupLogger()
      modifies this`level
      ensures level == LevelFor(verbose)
    {
      match verbose
      case -1 => level := Disabled;
      case 0 => level := ErrorLevel;
      case 1 => level := WarnLevel;
      case 2 => level := InfoLevel;
      case 3 => level := DebugLevel;
      case _ => level := TraceLevel;
    }

    /** `run`: prologue, deferred epilogue, execute, print on success; exit code 1 on an error. */
    method RunCommand(cmd: SubCommand) returns (outcome: Outcome)
      modifies this`events
      ensures events == old(events) + RunEvents(cmd)
      ensures outcome == RunOutcome(cmd)
    {
      events := events + [CmdPrologue];
      if cmd.prologuePanic.Some? {
        outcome := Panicked(cmd.prologuePanic.value);
        return;
      }

      events := events + [CmdExecute];
      match cmd.execute {
        case Err(_) =>
          outcome := Exited(1);
        case Ok(payload) =>
          events := events + [Printed(payload)];
          outcome := Exited(0);
      }
      events := events + [CmdEpilogue];
    }

    /**
     * `Run`: apply the flags, set the logger up, then run the chosen
     * sub-command, or exit with 1 without running anything when none was chosen.
     */
    method Run() returns (outcome: Outcome)
      modifies this`verbose, this`level, this`events
      ensures verbose == if quiet then -1 else old(verbose)
      ensures level == LevelFor(verbose)
      ensures github.None? ==> outcome == Exited(1) && events == old(events)
      ensures github.Some? ==> outcome == RunOutcome(github.value) && events == old(events) + RunEvents(github.value)
    {
      var err := AfterApply();
      SetupLogger();
      if github.None? {
        outcome := Exited(1);
        return;
      }
      outcome := RunCommand(github.value);
    }
  }
}
