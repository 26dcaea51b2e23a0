/**
 * The entry point `Run`: it picks the command from the first argument and
 * starts a background copy of the program, stops a running one through its
 * pid file, or runs the work function in the foreground. The operating system
 * is an environment value: the files in the working directory, and what
 * starting a process, writing a file and delivering a signal turn out to do.
 */
module Service {
  import opened Wrappers
  import opened Errors
  import Text
  import Decimal
  import Options
  import Lifecycle

  /** `arg(idx)`: the raw argument after the program name at position `idx`, if there is one. */
  function Arg(osArgs: seq<string>, idx: nat): (r: Option<string>)
    ensures r.Some? <==> idx + 1 < |osArgs|
    ensures r.Some? ==> r.value == osArgs[idx + 1]
  {
    if idx < |osArgs| - 1 then Some(osArgs[idx + 1]) else None
  }

  datatype Command =
    /** No command, or one that is not known: print the usage line. */
    | Usage
    /** `start`, launching the program again with these arguments. */
    | Start(childArgs: seq<string>)
    | Stop
    | RunForeground

  /** The `switch` of `Run` over `arg(0)`. */
  function Dispatch(osArgs: seq<string>): (c: Command)
    ensures c.Usage? <==> |osArgs| < 2 || osArgs[1] !in {"start", "stop", "run"}
    ensures c.Start? <==> |osArgs| >= 2 && osArgs[1] == "start"
    ensures c.Stop? <==> |osArgs| >= 2 && osArgs[1] == "stop"
    ensures c.RunForeground? <==> |osArgs| >= 2 && osArgs[1] == "run"
    ensures c.Start? ==> c.childArgs == ["run"] + osArgs[2..]
  {
    match Arg(osArgs, 0)
    case None => Usage
    case Some(cmd) =>
      if cmd == "start" then Start(["run"] + osArgs[2..])
      else if cmd == "stop" then Stop
      else if cmd == "run" then RunForeground
      else Usage
  }

  /** `Filename`: the base name of the program path. */
  function Filename(osArgs: seq<string>): string
    requires |osArgs| >= 1
  {
    Text.BaseName(osArgs[0])
  }

  /** The name of the file that records the pid of the background copy. */
  function PidFile(filename: string): string {
    filename + ".pid"
  }

  function UsageLine(filename: string): string {
    "Usage: " + filename + " [start/stop/run]"
  }

  /** A process that `start` asked the system to create. */
  datatype Launch = Launch(path: string, args: seq<string>)

  /**
   * What the operating system does for one call of `Run`: the files of the
   * working directory, the pid or the error that starting the child gives,
   * the error (if any) that writing the pid file gives, the error (if any)
   * that finding the process and delivering the interrupt give, and the
   * events the `run` listener sees.
   */
  datatype Env = Env(
    files: map<string, string>,
    spawn: Result<int, Error>,
    writeErr: Option<Error>,
    signalErr: Option<Error>,
    events: seq<Lifecycle.Event>)

  /**
   * What one call of `Run` did: how far it got, the files afterwards, the
   * lines written to standard error, the process it launched, the pid it
   * addressed the interrupt to and how often the stop hook was started.
   */
  datatype Effects = Effects(
    status: Lifecycle.Phase,
    files: map<string, string>,
    stderr: seq<string>,
    launched: Option<Launch>,
    interrupted: Option<int>,
    hookStarts: nat)

  function Returning(files: map<string, string>, result: Option<Error>): Effects {
    Effects(Lifecycle.Returned(result), files, [], None, None, 0)
  }

  /** `start`: launch `./<filename>` with the child arguments, then write the child's pid to the pid file. */
  function StartChild(filename: string, childArgs: seq<string>, env: Env): Effects {
    var launch := Some(Launch("./" + filename, childArgs));
    match env.spawn
    case Err(e) => Returning(env.files, Some(e)).(launched := launch)
    case Ok(pid) =>
      if env.writeErr.Some? then Returning(env.files, env.writeErr).(launched := launch)
      else Returning(env.files[PidFile(filename) := Decimal.Itoa(pid)], None).(launched := launch)
  }

  /** `stop`: read the pid file, trim it and parse it, then interrupt that process. */
  function StopChild(filename: string, env: Env): Effects {
    var path := PidFile(filename);
    if path !in env.files then Returning(env.files, Some(ReadError(path)))
    else
      match Decimal.Atoi(Text.TrimSpace(env.files[path]))
      case Err(kind) => Returning(env.files, Some(NumError(kind)))
      case Ok(pid) => Returning(env.files, env.signalErr).(interrupted := Some(pid))
  }

  /** Everything `Run` does for the raw arguments, a registered stop hook or not, in the environment. */
  function Execute(osArgs: seq<string>, hasHook: bool, env: Env): Effects
    requires |osArgs| >= 1
  {
    var filename := Filename(osArgs);
    match Dispatch(osArgs)
    case Usage => Returning(env.files, None).(stderr := [UsageLine(filename)])
    case Start(childArgs) => StartChild(filename, childArgs, env)
    case Stop => StopChild(filename, env)
    case RunForeground =>
      var runner := Lifecycle.Outcome(env.events, hasHook);
      Effects(runner.phase, env.files, [], None, None, runner.hookStarts)
  }

  /** `start` is StartChild with the forwarded arguments. */
  lemma ExecuteStart(osArgs: seq<string>, hasHook: bool, env: Env)
    requires |osArgs| >= 2 && osArgs[1] == "start"
    ensures Execute(osArgs, hasHook, env) == StartChild(Filename(osArgs), ["run"] + osArgs[2..], env)
  {
  }

  /** `stop` is StopChild. */
  lemma ExecuteStop(osArgs: seq<string>, hasHook: bool, env: Env)
    requires |osArgs| >= 2 && osArgs[1] == "stop"
    ensures Execute(osArgs, hasHook, env) == StopChild(Filename(osArgs), env)
  {
  }

  /** A missing or unknown command prints the usage line, returns nil and does nothing else. */
  lemma UnknownCommandDoesNothing(osArgs: seq<string>, hasHook: bool, env: Env)
    requires |osArgs| >= 1
    requires |osArgs| < 2 || osArgs[1] !in {"start", "stop", "run"}
    ensures Execute(osArgs, hasHook, env)
            == Effects(Lifecycle.Returned(None), env.files, [UsageLine(Filename(osArgs))], None, None, 0)
  {
  }

  /** `start` launches `./<filename>` with `run` followed by the arguments after the command. */
  lemma StartForwardsArguments(osArgs: seq<string>, hasHook: bool, env: Env)
    requires |osArgs| >= 2 && osArgs[1] == "start"
    ensures Execute(osArgs, hasHook, env).launched == Some(Launch("./" + Filename(osArgs), ["run"] + osArgs[2..]))
    ensures Execute(osArgs, hasHook, env).hookStarts == 0
  {
  }

  /** A successful `start` writes the pid, and nothing else, to `<filename>.pid`. */
  lemma StartRecordsPid(osArgs: seq<string>, hasHook: bool, env: Env)
    requires |osArgs| >= 2 && osArgs[1] == "start"
    requires env.spawn.Ok? && env.writeErr.None?
    ensures Execute(osArgs, hasHook, env).status == Lifecycle.Returned(None)
    ensures Execute(osArgs, hasHook, env).files == env.files[Filename(osArgs) + ".pid" := Decimal.Itoa(env.spawn.value)]
  {
  }

  /** A failed `start` reports the error of the failing step and leaves the files as they were. */
  lemma StartFailure(osArgs: seq<string>, hasHook: bool, env: Env)
    requires |osArgs| >= 2 && osArgs[1] == "start"
    requires env.spawn.Err? || env.writeErr.Some?
    ensures Execute(osArgs, hasHook, env).files == env.files
    ensures Execute(osArgs, hasHook, env).status
            == Lifecycle.Returned(if env.spawn.Err? then Some(env.spawn.error) else env.writeErr)
  {
    ExecuteStart(osArgs, hasHook, env);
    var effects := StartChild(Filename(osArgs), ["run"] + osArgs[2..], env);
    if env.spawn.Err? {
      assert effects == Returning(env.files, Some(env.spawn.error)).(launched := effects.launched);
    } else {
      assert effects == Returning(env.files, env.writeErr).(launched := effects.launched);
    }
  }

  /** `stop` without a pid file fails with a read error and signals nothing. */
  lemma StopWithoutPidFile(osArgs: seq<string>, hasHook: bool, env: Env)
    requires |osArgs| >= 2 && osArgs[1] == "stop"
    requires Filename(osArgs) + ".pid" !in env.files
    ensures Execute(osArgs, hasHook, env).status == Lifecycle.Returned(Some(ReadError(Filename(osArgs) + ".pid")))
    ensures Execute(osArgs, hasHook, env).interrupted == None
  {
    ExecuteStop(osArgs, hasHook, env);
  }

  /** `stop` with a pid file whose trimmed text is not an integer returns Atoi's error and signals nothing. */
  lemma StopBadPidText(osArgs: seq<string>, hasHook: bool, env: Env)
    requires |osArgs| >= 2 && osArgs[1] == "stop"
    requires PidFile(Filename(osArgs)) in env.files
    requires Decimal.Atoi(Text.TrimSpace(env.files[PidFile(Filename(osArgs))])).Err?
    ensures Execute(osArgs, hasHook, env).status
            == Lifecycle.Returned(Some(NumError(Decimal.Atoi(Text.TrimSpace(env.files[PidFile(Filename(osArgs))])).error)))
    ensures Execute(osArgs, hasHook, env).interrupted == None
  {
    ExecuteStop(osArgs, hasHook, env);
  }

  /**
   * `stop` with a pid file whose trimmed text Atoi accepts: that pid is
   * interrupted, the delivery's result is returned, and no file changes.
   */
  lemma StopSignalsRecordedPid(osArgs: seq<string>, hasHook: bool, env: Env)
    requires |osArgs| >= 2 && osArgs[1] == "stop"
    requires PidFile(Filename(osArgs)) in env.files
    requires Decimal.Atoi(Text.TrimSpace(env.files[PidFile(Filename(osArgs))])).Ok?
    ensures Execute(osArgs, hasHook, env).interrupted
            == Some(Decimal.Atoi(Text.TrimSpace(env.files[PidFile(Filename(osArgs))])).value)
    ensures Execute(osArgs, hasHook, env).status == Lifecycle.Returned(env.signalErr)
    ensures Execute(osArgs, hasHook, env).files == env.files
  {
    ExecuteStop(osArgs, hasHook, env);
  }

  /** A pid file edited by hand, with white space around the number, still names that process. */
  lemma StopTrimsPidText(osArgs: seq<string>, hasHook: bool, env: Env)
    requires |osArgs| >= 2 && osArgs[1] == "stop"
    requires PidFile(Filename(osArgs)) in env.files && env.files[PidFile(Filename(osArgs))] == " 42\n"
    ensures Execute(osArgs, hasHook, env).interrupted == Some(42)
  {
    assert " 42\n" == " " + "42" + "\n";
    Text.TrimSpaceSurrounded(" ", "42", "\n");
    Text.TrimSpaceNoSpace("42");
    assert Decimal.Value("42") == 42 by {
      assert "42"[..1] == "4";
    }
    StopSignalsRecordedPid(osArgs, hasHook, env);
  }

  /**
   * `start` then `stop` of the same program: the pid the first call records is
   * the pid the second one interrupts, and `stop` returns what delivering the
   * signal returned.
   */
  lemma StopInterruptsStartedChild(program: string, startRest: seq<string>, stopRest: seq<string>,
                                   env1: Env, env2: Env, hasHook: bool)
    requires env1.spawn.Ok? && Decimal.IsInt64(env1.spawn.value) && env1.writeErr.None?
    requires env2.files == Execute([program, "start"] + startRest, hasHook, env1).files
    ensures Execute([program, "stop"] + stopRest, hasHook, env2).interrupted == Some(env1.spawn.value)
    ensures Execute([program, "stop"] + stopRest, hasHook, env2).status == Lifecycle.Returned(env2.signalErr)
  {
    var pid := env1.spawn.value;
    Decimal.ItoaNoSpace(pid);
    Text.TrimSpaceNoSpace(Decimal.Itoa(pid));
    Decimal.AtoiItoa(pid);
  }

  /** The pid text round trip of `start` and `stop`: `Atoi(TrimSpace(Itoa(pid)))` gives back `pid`. */
  lemma PidTextRoundTrip(pid: int)
    requires Decimal.IsInt64(pid)
    ensures Decimal.Atoi(Text.TrimSpace(Decimal.Itoa(pid))) == Ok(pid)
  {
    Decimal.ItoaNoSpace(pid);
    Text.TrimSpaceNoSpace(Decimal.Itoa(pid));
    Decimal.AtoiItoa(pid);
  }

  /** `run` returns what the race decides, and touches no file and no other process. */
  lemma RunFollowsLifecycle(osArgs: seq<string>, hasHook: bool, env: Env)
    requires |osArgs| >= 2 && osArgs[1] == "run"
    ensures Execute(osArgs, hasHook, env).status == Lifecycle.Outcome(env.events, hasHook).phase
    ensures Execute(osArgs, hasHook, env).hookStarts <= 1
    ensures Execute(osArgs, hasHook, env).files == env.files
    ensures Execute(osArgs, hasHook, env).launched == None && Execute(osArgs, hasHook, env).interrupted == None
  {
    Lifecycle.HookStartedAtMostOnce(env.events, hasHook);
  }

  /**
   * The package state of the service: the lazily built option map (`args`)
   * and whether a stop hook is registered (`stopFn != nil`).
   */
  class Process {
    const args: Options.ArgMap
    var hasStopHook: bool

    constructor ()
      ensures fresh(args) && !args.built && !hasStopHook
    {
      args := new Options.ArgMap();
      hasStopHook := false;
    }

    /** `OnStop`: registers a stop hook, or removes it when given nil. */
    method OnStop(registered: bool)
      modifies this
      ensures hasStopHook == registered
    {
      hasStopHook := registered;
    }

    /**
     * `Run`: does what Execute says; only the `run` command builds the option
     * map (when it is not built yet), so that the work function can read it.
     */
    method Run(osArgs: seq<string>, env: Env) returns (effects: Effects)
      requires |osArgs| >= 1
      modifies args
      ensures effects == Execute(osArgs, hasStopHook, env)
      ensures Dispatch(osArgs).RunForeground? ==>
                args.built && args.entries == if old(args.built) then old(args.entries) else Options.ParsedArgs(osArgs)
      ensures !Dispatch(osArgs).RunForeground? ==> args.built == old(args.built) && args.entries == old(args.entries)
    {
      if Dispatch(osArgs).RunForeground? {
        args.Parse(osArgs);
      }
      effects := Execute(osArgs, hasStopHook, env);
    }
  }
}
