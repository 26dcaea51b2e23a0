# service: a Dafny model of the run/start/stop harness

The Go package `service` turns a work function into a small command-line
service. `Run` looks at the first argument. `start` launches a background copy of
the program with `run` as its command and writes that copy's pid to
`<program>.pid`. `stop` reads the pid file back and sends the process an
interrupt. `run` runs the work function in the foreground. While it runs, a
listener waits for SIGINT or SIGQUIT. On the first signal a registered stop hook
is started. A second signal during shutdown returns the `force stop` error.
Long options `--name=value` given after the command are read by `Get` and
`GetInt`. They come from a map that is built once, on first use.

This project models that decision logic and proves properties of it:

- `wrappers.dfy`: `Option` and `Result`.
- `text.dfy` (module `Text`): the library string functions the package uses.
  These are `strings.TrimSpace` with Go's set of Unicode white space,
  `strings.HasPrefix`, the first-`=` split of `strings.SplitN(s, "=", 2)`, and the
  file part of `filepath.Split`.
- `decimal.dfy` (module `Decimal`): `strconv.Itoa` and `strconv.Atoi` for Go's
  64-bit `int`. The model keeps the optional sign, the digits-only rule, the
  range [-2^63, 2^63-1], and which error (`ErrSyntax` or `ErrRange`) is reported;
  the contracts of `ParseUint` and `Atoi` state all four.
- `errors.dfy` (module `Errors`): the error values.
- `options.dfy` (module `Options`): the token rule, the map as a fold over the
  arguments after the command, and the class `ArgMap`. `ArgMap` holds the
  lazily built package map and has the methods `Parse` (`parseArgs`), `Get`
  and `GetInt`.
- `lifecycle.dfy` (module `Lifecycle`): the two nested `select`s of `run`.
  They are modelled as a step function over the order in which the events
  "work function returned", "signal" and "stop hook returned" arrive.
- `service.dfy` (module `Service`): `arg`, the command switch, `Filename`,
  `start` and `stop` over an environment value, the whole of `Run` as one
  function (`Execute`), and the class `Process`. `Process` holds the package
  state (`args`, and whether `stopFn` is set) and has `OnStop` and `Run`.

The operating system is given as a value (`Service.Env`). It holds the
working directory's files as a map from name to text, the pid or error that
starting the child gives, the error (if any) that writing the pid file
gives, the error (if any) that finding the process and delivering the
interrupt give, and the events the `run` listener sees, in order. `os.Args`
is a parameter of every operation that reads it.

Two consequences of the code are easy to miss:

- The stop hook is a bare `func()` with no result. The goroutine that runs it
  sends `nil` on `doneSignal` when the hook returns, so a graceful shutdown
  always returns `nil`.
- The work function sends on the same `doneSignal` channel. So if it returns
  while the hook is running, `run` returns `nil` and the work function's error
  is lost (`Lifecycle.WorkFinishesDuringShutdown`).

## Model

| member | source | states |
|---|---|---|
| Text.IsSpace | service.go:77 | unicode.IsSpace, the set TrimSpace removes: tab, line feed, vertical tab, form feed, carriage return, space, U+0085, U+00A0, U+1680, U+2000 to U+200A, U+2028, U+2029, U+202F, U+205F and U+3000 |
| Text.HasPrefix | service.go:74 | strings.HasPrefix; used by Options.Token, whose contract states the "--" test |
| Text.TrimSpace | service.go:77 | strings.TrimSpace; its contract is given by TrimSpaceShape, TrimSpaceSurrounded and TrimSpaceIdempotent |
| Text.TrimSpaceShape | service.go:77 | TrimSpace removes only white space, and only at the two ends; what remains is a slice of the input that starts and ends with a non-space character, or is empty |
| Text.TrimSpaceSurrounded | service.go:77 | any amount of white space before and after a text is removed: TrimSpace(w1 + t + w2) == TrimSpace(t) |
| Text.TrimSpaceIdempotent | service.go:77 | trimming an already trimmed name or value changes nothing |
| Text.TrimLeftShape | service.go:77 | the left trim keeps a suffix that does not start with a space and drops only spaces |
| Text.TrimRightShape | service.go:77 | the right trim keeps a prefix that does not end with a space and drops only spaces |
| Text.IndexOf | service.go:75 | the split point is the first '=': absent exactly when the text has no '=', otherwise an '=' with none before it |
| Text.BaseName | service.go:63 | the file part of filepath.Split; its contract is given by BaseNameShape |
| Text.BaseNameShape | service.go:62-65 | the program's file name is the longest suffix of argv[0] without '/', preceded by '/' when it is not the whole path |
| Decimal.NatDigits | service.go:153 | the digits written for a pid are non-empty decimal digits with no leading zero, and they denote that number |
| Decimal.Itoa | service.go:153 | strconv.Itoa: a '-' exactly for negative numbers, then NatDigits of the magnitude; read back by AtoiItoa and characterised by ItoaAtoi |
| Decimal.ParseUint | service.go:165 | the unsigned part is accepted exactly when it is a non-empty digit string not above 2^64-1, and then its value is returned; a failure is ErrRange exactly when the leading run of digits already exceeds 2^64-1, otherwise ErrSyntax |
| Decimal.Atoi | service.go:35 | a text is accepted exactly when it is an optional sign and one or more digits whose value lies in the 64-bit range, and the result is that signed value; a failure is ErrRange exactly when the digits after the sign overflow 2^64-1 before a non-digit, or are all digits and their signed value lies outside the 64-bit range, otherwise ErrSyntax |
| Decimal.AtoiItoa | service.go:165 | every 64-bit integer written by Itoa is read back unchanged by Atoi |
| Decimal.ItoaAtoi | service.go:153 | conversely a canonical accepted text (no '+', no leading zero, no "-0") is exactly what Itoa writes for its value |
| Decimal.ItoaNoSpace | service.go:153 | the written pid text contains no white space, so the trim in stop leaves it intact |
| Options.Token | service.go:74-76 | an argument contributes an entry exactly when it starts with "--" and contains an '=' |
| Options.TokenSplitsAtFirstEquals | service.go:75-77 | "--" + name + "=" + value with no '=' in name binds the trimmed name to the trimmed value, even when value holds more '=' |
| Options.Fold | service.go:77 | the map after assigning the entries in order; its contract is given by FoldKeys, FoldLastWins and FoldValueSource |
| Options.Contributions | service.go:72-76 | the entry each raw argument contributes: none for the program name and the command, otherwise Token of the argument |
| Options.FoldKeys | service.go:77 | inserting entries in order binds exactly the names some entry binds |
| Options.FoldLastWins | service.go:77 | the last entry for a name determines its value |
| Options.FoldValueSource | service.go:77 | each bound value comes from an entry that no later entry for the same name overrides |
| Options.ParsedArgs | service.go:67-82 | the map parseArgs builds from the raw arguments; its contract is given by ParsedArgsKeys, ParsedArgsLastWins, ParsedArgsValueSource and the two lemmas below, and ArgMap.Parse computes it |
| Options.ParsedArgsIgnoreProgramAndCommand | service.go:72-73 | replacing the program name and the command leaves the option map unchanged |
| Options.ParsedArgsOfCommandOnly | service.go:72-73 | with nothing after the command the option map is empty |
| Options.ParsedArgsKeys | service.go:72-79 | a name is in the map if and only if some argument after the command binds it |
| Options.ParsedArgsLastWins | service.go:77 | the value of a name is the one from its last binding argument: a repeated option takes the later value |
| Options.ParsedArgsValueSource | service.go:72-79 | every value in the map is that of the last argument after the command binding its name |
| Options.SingleOption | service.go:74-77 | one option `--  name = value ` after the command yields exactly the map from the trimmed name to the trimmed value |
| Options.ArgMap.constructor | service.go:19 | the package map starts out unbuilt (nil) |
| Options.ArgMap.Parse | service.go:67-82 | a built map is never rebuilt, whatever the arguments are now; an unbuilt one becomes the option map of the current arguments (the loop keeps the map equal to the fold of the arguments scanned so far) |
| Options.ArgMap.Get | service.go:24-30 | Get builds the map if needed and returns the bound value, or "" when the name is absent |
| Options.ArgMap.GetInt | service.go:32-42 | GetInt builds the map if needed and returns Atoi of the bound value, or 0 when the name is absent or the value is not an integer |
| Options.LookupsAreStable | service.go:67-70 | two lookups of a name return the same value even when the raw arguments change between them |
| Lifecycle.Step | service.go:110-127 | one event of the two nested selects; its behaviour is given by ReturnedIsFinal and the outcome lemmas below |
| Lifecycle.Replay | service.go:110-127 | the state after a sequence of events; its invariant is given by ReplayStaysReachable |
| Lifecycle.Outcome | service.go:105-127 | what run decides for an event order from the start; given by HookStartedAtMostOnce, WorkFinishesFirst to WorkFinishesDuringShutdown and ForceStopNeedsTwoSignals |
| Lifecycle.ReturnedIsFinal | service.go:119-127 | once run has returned, later events change nothing |
| Lifecycle.ReplayStaysReachable | service.go:112-116 | along every event order the hook has been started at most once, only while shutting down or after, and only when registered |
| Lifecycle.HookStartedAtMostOnce | service.go:112-116 | for every event order the hook is started at most once, and never when no hook is registered |
| Lifecycle.WorkFinishesFirst | service.go:123-124 | when the work function returns before any signal, run returns its error and the hook is never started |
| Lifecycle.InterruptWithoutHook | service.go:111-112 | a first signal with no hook registered makes run return nil |
| Lifecycle.InterruptStartsHook | service.go:112-116 | a first signal with a hook registered starts the hook once and run keeps waiting |
| Lifecycle.SecondInterruptForcesStop | service.go:117-119 | a second signal while the hook runs makes run return the force-stop error |
| Lifecycle.HookFinishes | service.go:113-127 | the hook returning before a second signal makes run return nil |
| Lifecycle.WorkFinishesDuringShutdown | service.go:105-127 | the work function returning while the hook runs also makes run return nil, discarding its error (shared doneSignal) |
| Lifecycle.ForceStopNeedsTwoSignals | service.go:110-127 | the force-stop error requires a registered hook and, from the start, two signals |
| Service.Arg | service.go:140-145 | arg(idx) succeeds exactly when there is an argument at idx + 1 and returns it |
| Service.Dispatch | service.go:87-97 | start, stop and run are selected exactly by their names in argument 1; anything else, or no argument, selects the usage message; start forwards ["run"] + Args[2:] |
| Service.Filename | service.go:62-65 | the base name of argv[0]; its contract is given by Text.BaseNameShape |
| Service.PidFile | service.go:152 | the pid file is <filename>.pid, used by StopBadPidText, StopSignalsRecordedPid and StopTrimsPidText; StartRecordsPid and StopWithoutPidFile state the name literally |
| Service.UsageLine | service.go:89 | the usage message; used by UnknownCommandDoesNothing |
| Service.StartChild | service.go:147-157 | start; its contract is given by StartForwardsArguments, StartRecordsPid and StartFailure |
| Service.StopChild | service.go:159-174 | stop; its contract is given by StopWithoutPidFile, StopBadPidText, StopSignalsRecordedPid and StopInterruptsStartedChild |
| Service.Execute | service.go:84-132 | all of Run; its contract is given by ExecuteStart, ExecuteStop, UnknownCommandDoesNothing and RunFollowsLifecycle |
| Service.ExecuteStart | service.go:93-94 | the start command is the start operation with "run" followed by the arguments after the command |
| Service.ExecuteStop | service.go:95-96 | the stop command is the stop operation for the program's file name |
| Service.UnknownCommandDoesNothing | service.go:87-91 | a missing or unknown command prints the usage line, returns nil, and launches, signals and writes nothing |
| Service.StartForwardsArguments | service.go:93-94 | start launches ./<filename> with exactly ["run"] + Args[2:] and starts no hook |
| Service.StartRecordsPid | service.go:147-157 | a successful start returns nil and writes Itoa(pid) to <filename>.pid, changing no other file |
| Service.StartFailure | service.go:147-155 | a failed spawn or pid write returns that error and leaves the files unchanged |
| Service.StopWithoutPidFile | service.go:159-164 | stop with no pid file returns a read error for <filename>.pid and signals nothing |
| Service.StopBadPidText | service.go:165-167 | stop with a pid file whose trimmed text Atoi rejects returns that error and signals nothing |
| Service.StopSignalsRecordedPid | service.go:159-174 | stop with any pid file whose trimmed text Atoi accepts interrupts that pid, returns the delivery's result and changes no file |
| Service.StopTrimsPidText | service.go:165 | a pid file holding " 42" and a line feed makes stop interrupt pid 42: the white space is trimmed before parsing |
| Service.StopInterruptsStartedChild | service.go:147-174 | stop after a successful start of the same program interrupts exactly the started pid and returns the delivery's result |
| Service.PidTextRoundTrip | service.go:152-165 | Atoi(TrimSpace(Itoa(pid))) == pid for every 64-bit pid |
| Service.RunFollowsLifecycle | service.go:97-127 | the run command returns what the event race decides, starts the hook at most once and touches no file or process |
| Service.Process.constructor | service.go:18-22 | initially the map is unbuilt and no stop hook is registered |
| Service.Process.OnStop | service.go:58-60 | OnStop sets whether a stop hook is registered |
| Service.Process.Run | service.go:84-132 | Run's effects are those of Execute; only the run command builds the option map (once), other commands leave it untouched |

## Left out

- Panic recovery and its hook (`HandlePanic`, `OnPanic`): they are runtime behaviour. A work function that panics is recovered and never sends on `doneSignal`. In the model that is an event sequence without `WorkDone`.
- `Wait`: it only blocks until a signal arrives and makes no decision.
- Goroutines, channels, `signal.Notify` and scheduling: they are replaced by the order of events. The one-slot buffer of `exitSignal`, which drops a signal when full, is not modelled. A `HookDone` before the hook has started cannot happen and is ignored.
- Process creation (`exec.Command`, `cmd.Start`), `os.FindProcess` and `proc.Signal`: they are operating-system facilities. Their outcomes are fields of `Service.Env`. The model records the launch that was asked for and the pid it addressed the interrupt to.
- File I/O: the working directory is a map from name to text. A `WriteFile` that fails after truncating the file is modelled as leaving the file unchanged. Only a missing file is modelled as a read failure.
- `println` of the usage text: it is recorded as a line on standard error and not otherwise modelled.
- Bytes and UTF-8: strings are sequences of Unicode scalar values, so invalid UTF-8 in arguments or in the pid file is not modelled.
- `filepath.Split` is modelled only for a '/' separator.
- An empty `os.Args`: `Filename` then panics in Go. `Service.Execute` and `Service.Process.Run` require at least the program name.
- The `Func` and `Num` fields of `*strconv.NumError`: only the error kind is kept.
- Service.Process.Run: the stop hook registration is fixed when `Run` is entered. Go reads `stopFn` when the first signal arrives, so a hook that the work function registers or clears with `OnStop` while `run` is under way is not modelled.
- Service.Arg: the index is a `nat`. Negative indices are not modelled: in Go `arg(-1)` returns the program name (or fails when `os.Args` is empty), and an index of -2 or less panics. Only `arg(0)` is ever called.
- Lifecycle.ForceStopNeedsTwoSignals: it assumes that the work function does not itself return the force-stop error value. In Go that value is created fresh by `errors.New`, so no other code can return it.
