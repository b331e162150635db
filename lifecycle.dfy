/** The lifecycle of `run` and the top-level capture of `main`
    (src/cbws/run.py:62-93): construct the server, start it, sleep until
    an interrupt arrives, stop it; `main` logs any Exception that escapes.

    The server itself is outside the model. What it and the operator do is
    given as a `Script`: how construction, `start()` and `stop()` end, and
    how each `time.sleep(0.1)` of the wait loop ends. */
module Lifecycle {
  import opened Base
  import opened Settings
  import Cli

  /** How one `time.sleep(0.1)` of the wait loop ends. */
  datatype Event = Tick | Interrupt

  datatype ConstructResult = ConstructOk | ConstructRaised | ConstructInterrupted
  datatype StartResult = StartOk | StartRaised | StartInterrupted
  datatype StopResult = StopOk | StopRaised | StopInterrupted

  /** The behaviour of the server and of the operator during one run. */
  datatype Script = Script(construct: ConstructResult, start: StartResult, sleeps: seq<Event>, stop: StopResult)

  /** An invocation on the server, in the order the entry point makes them. */
  datatype Call = Construct(config: Config) | Start | Stop

  /** How `run` ends: it returns, raises an Exception, lets a
      KeyboardInterrupt through, or is still in its wait loop when the
      script's sleeps are used up. */
  datatype Exit = Returned | Raised(failure: Failure) | KeyboardInterrupt | Waiting

  datatype Trace = Trace(exit: Exit, calls: seq<Call>)

  /** The calls are a prefix of construct, start, stop: each at most once
      and in that order. */
  predicate Ordered(calls: seq<Call>) {
    |calls| <= 3 &&
    (forall i :: 0 <= i < |calls| ==> (calls[i].Construct? <==> i == 0)) &&
    (forall i :: 0 <= i < |calls| ==> (calls[i] == Start <==> i == 1)) &&
    (forall i :: 0 <= i < |calls| ==> (calls[i] == Stop <==> i == 2))
  }

  /** The wait loop `while 1: time.sleep(0.1)` of line 82: it leaves only on
      an interrupt, at the first one, and sleeps again after every tick. */
  method SleepUntilInterrupt(sleeps: seq<Event>) returns (interrupted: bool, slept: nat)
    ensures interrupted <==> Interrupt in sleeps
    ensures interrupted ==> slept < |sleeps| && sleeps[slept] == Interrupt && Interrupt !in sleeps[..slept]
    ensures !interrupted ==> slept == |sleeps|
  {
    slept := 0;
    while slept < |sleeps|
      invariant slept <= |sleeps|
      invariant forall j :: 0 <= j < slept ==> sleeps[j] == Tick
    {
      if sleeps[slept] == Interrupt {
        return true, slept;
      }
      slept := slept + 1;
    }
    interrupted := false;
  }

  /** The settings `run` resolves from the path, the parsed file and the environment. */
  function Resolved(confFile: Option<string>, parsed: map<string, Value>, env: map<string, string>): Result<Config> {
    Resolve(env, LoadedConfig(confFile, parsed))
  }

  /** How `run` ends once the KeyboardInterrupt handler has called `stop()`. */
  function AfterStop(r: StopResult): Exit {
    match r
    case StopOk => Returned
    case StopRaised => Raised(StopFailed)
    case StopInterrupted => KeyboardInterrupt
  }

  /** What `run(config_file, level)` does, given the parsed file and the
      environment: resolve, construct, start, wait, stop. */
  function RunSpec(confFile: Option<string>, parsed: map<string, Value>, env: map<string, string>, s: Script): (t: Trace)
    ensures Ordered(t.calls)
    ensures Resolved(confFile, parsed, env).Err? ==>
      t == Trace(Raised(Resolved(confFile, parsed, env).error), [])
    ensures Resolved(confFile, parsed, env).Ok? ==>
      |t.calls| > 0 && t.calls[0] == Construct(Resolved(confFile, parsed, env).value)
    ensures Resolved(confFile, parsed, env).Ok? && s.construct == ConstructRaised ==>
      t == Trace(Raised(ConstructFailed), [Construct(Resolved(confFile, parsed, env).value)])
    ensures Resolved(confFile, parsed, env).Ok? && s.construct == ConstructInterrupted ==>
      t == Trace(KeyboardInterrupt, [Construct(Resolved(confFile, parsed, env).value)])
    ensures Resolved(confFile, parsed, env).Ok? && s.construct == ConstructOk && s.start == StartRaised ==>
      t == Trace(Raised(StartFailed), [Construct(Resolved(confFile, parsed, env).value), Start])
    ensures Stop in t.calls <==>
      Resolved(confFile, parsed, env).Ok? && s.construct == ConstructOk &&
      (s.start == StartInterrupted || (s.start == StartOk && Interrupt in s.sleeps))
    ensures Stop in t.calls ==> t.exit == AfterStop(s.stop)
    ensures t.exit == Waiting <==>
      Resolved(confFile, parsed, env).Ok? && s.construct == ConstructOk &&
      s.start == StartOk && Interrupt !in s.sleeps
    ensures t.exit == Waiting ==> t.calls == [Construct(Resolved(confFile, parsed, env).value), Start]
  {
    match Resolve(env, LoadedConfig(confFile, parsed))
    case Err(e) => Trace(Raised(e), [])
    case Ok(config) =>
      var constructed := [Construct(config)];
      match s.construct
      case ConstructRaised => Trace(Raised(ConstructFailed), constructed)
      case ConstructInterrupted => Trace(KeyboardInterrupt, constructed)
      case ConstructOk =>
        var started := constructed + [Start];
        if s.start == StartRaised then Trace(Raised(StartFailed), started)
        else if s.start == StartOk && Interrupt !in s.sleeps then Trace(Waiting, started)
        else
          assert s.start == StartInterrupted || (s.start == StartOk && Interrupt in s.sleeps);
          var stopped := started + [Stop];
          assert stopped == [Construct(config), Start, Stop];
          Trace(AfterStop(s.stop), stopped)
  }

  /** Stop is called at most once, last, and only right after start. */
  lemma StopOnceAfterStart(calls: seq<Call>)
    requires Ordered(calls)
    ensures multiset(calls)[Stop] <= 1
    ensures Stop in calls ==> calls == [calls[0], Start, Stop] && calls[0].Construct?
  {
  }

  /** The states of the entry point's one server. */
  datatype Phase = Idle | Constructed | Running | Stopping | Stopped | Failed

  /** The local state of `run`: the phase reached and the calls made so far. */
  class Orchestrator {
    var phase: Phase
    var calls: seq<Call>

    ghost predicate Valid()
      reads this
    {
      Ordered(calls) &&
      match phase
      case Idle => calls == []
      case Constructed => |calls| == 1
      case Running => |calls| == 2
      case Stopping => |calls| == 2
      case Stopped => |calls| == 3
      case Failed => |calls| != 0
    }

    constructor ()
      ensures Valid() && phase == Idle && calls == []
    {
      phase := Idle;
      calls := [];
    }

    /** `WebsocketServer(...)` with the resolved settings (lines 76-79). */
    method ConstructServer(config: Config, r: ConstructResult)
      requires Valid() && phase == Idle
      modifies this
      ensures Valid() && calls == old(calls) + [Construct(config)]
      ensures phase == if r == ConstructOk then Constructed else Failed
    {
      calls := calls + [Construct(config)];
      phase := if r == ConstructOk then Constructed else Failed;
    }

    /** `server.start()` (line 81); an interrupt inside it reaches the handler. */
    method StartServer(r: StartResult)
      requires Valid() && phase == Constructed
      modifies this
      ensures Valid() && calls == old(calls) + [Start]
      ensures phase == match r case StartOk => Running case StartRaised => Failed case StartInterrupted => Stopping
    {
      calls := calls + [Start];
      phase := match r case StartOk => Running case StartRaised => Failed case StartInterrupted => Stopping;
    }

    /** The wait loop (lines 82-83); no call is made while sleeping. */
    method Wait(sleeps: seq<Event>)
      requires Valid() && phase == Running
      modifies this
      ensures Valid() && calls == old(calls)
      ensures phase == if Interrupt in sleeps then Stopping else Running
    {
      var interrupted, _ := SleepUntilInterrupt(sleeps);
      if interrupted {
        phase := Stopping;
      }
    }

    /** `server.stop()` in the KeyboardInterrupt handler (lines 84-85). */
    method StopServer()
      requires Valid() && phase == Stopping
      modifies this
      ensures Valid() && calls == old(calls) + [Stop] && phase == Stopped
    {
      calls := calls + [Stop];
      phase := Stopped;
    }

    /** `run` from line 66 on; the logging set-up of line 64 is left out. */
    method Run(confFile: Option<string>, parsed: map<string, Value>, env: map<string, string>, s: Script) returns (exit: Exit)
      requires Valid() && phase == Idle
      modifies this
      ensures Valid()
      ensures Trace(exit, calls) == RunSpec(confFile, parsed, env, s)
      ensures exit == Waiting <==> phase == Running
    {
      var config := LoadedConfig(confFile, parsed);
      var resolved := Resolve(env, config);
      if resolved.Err? {
        return Raised(resolved.error);
      }
      ConstructServer(resolved.value, s.construct);
      if s.construct == ConstructRaised {
        return Raised(ConstructFailed);
      } else if s.construct == ConstructInterrupted {
        return KeyboardInterrupt;
      }
      StartServer(s.start);
      if s.start == StartRaised {
        return Raised(StartFailed);
      }
      if s.start == StartOk {
        Wait(s.sleeps);
        if phase == Running {
          return Waiting;
        }
      }
      StopServer();
      exit := AfterStop(s.stop);
    }
  }

  /** How the process's `main` ends. */
  datatype MainOutcome =
    | Finished          // `run` returned after stopping the server
    | Logged(failure: Failure)  // an Exception was caught and logged
    | StillWaiting      // the wait loop is still sleeping
    | Escaped           // a KeyboardInterrupt propagated out of `main`

  /** `main` (lines 88-93): parse the options, read their level (an
      AttributeError when unset), run, and log every Exception. */
  function MainSpec(fileFlag: Option<string>, logFlag: Option<string>, parsed: map<string, Value>, env: map<string, string>, s: Script): (m: MainOutcome)
    ensures Cli.LevelFor(Cli.LogWord(logFlag)) == None ==> m == Logged(NoLogLevel)
    ensures Cli.LevelFor(Cli.LogWord(logFlag)) != None ==>
      var exit := RunSpec(fileFlag, parsed, env, s).exit;
      (m.Logged? <==> exit.Raised?) &&
      (exit.Raised? ==> m.failure == exit.failure) &&
      (m == Finished <==> exit == Returned) &&
      (m == StillWaiting <==> exit == Waiting) &&
      (m == Escaped <==> exit == KeyboardInterrupt)
  {
    if Cli.LevelFor(Cli.LogWord(logFlag)) == None then Logged(NoLogLevel)
    else
      match RunSpec(fileFlag, parsed, env, s).exit
      case Returned => Finished
      case Raised(f) => Logged(f)
      case KeyboardInterrupt => Escaped
      case Waiting => StillWaiting
  }

  /** The server calls `main` makes: none when the level is unset. */
  function MainCalls(fileFlag: Option<string>, logFlag: Option<string>, parsed: map<string, Value>, env: map<string, string>, s: Script): (calls: seq<Call>)
    ensures Ordered(calls)
    ensures Cli.LevelFor(Cli.LogWord(logFlag)) == None ==> calls == []
  {
    if Cli.LevelFor(Cli.LogWord(logFlag)) == None then [] else RunSpec(fileFlag, parsed, env, s).calls
  }

  /** `main`, with the calls it made on the server. */
  method RunMain(fileFlag: Option<string>, logFlag: Option<string>, parsed: map<string, Value>, env: map<string, string>, s: Script)
    returns (m: MainOutcome, calls: seq<Call>)
    ensures m == MainSpec(fileFlag, logFlag, parsed, env, s)
    ensures calls == MainCalls(fileFlag, logFlag, parsed, env, s)
  {
    var options := Cli.ParseArgs(fileFlag, logFlag);
    if options.logLevel == None {
      return Logged(NoLogLevel), [];
    }
    var orchestrator := new Orchestrator();
    var exit := orchestrator.Run(options.confFile, parsed, env, s);
    calls := orchestrator.calls;
    m := match exit
      case Returned => Finished
      case Raised(f) => Logged(f)
      case KeyboardInterrupt => Escaped
      case Waiting => StillWaiting;
  }

  /** Whatever the options, the file, the environment and the server do,
      `main` stops the server at most once, and only after constructing and
      starting it. */
  lemma MainStopsAtMostOnce(fileFlag: Option<string>, logFlag: Option<string>, parsed: map<string, Value>, env: map<string, string>, s: Script)
    ensures var calls := MainCalls(fileFlag, logFlag, parsed, env, s);
      multiset(calls)[Stop] <= 1 &&
      (Stop in calls ==> calls == [calls[0], Start, Stop] && calls[0].Construct?)
  {
  }

  /** With a valid log level and resolved settings, a constructor or
      `start()` that raises ends in a logged failure and no stop, and a
      missing key is logged before any server call. */
  lemma MainLogsStartupFailures(fileFlag: Option<string>, logFlag: Option<string>, parsed: map<string, Value>, env: map<string, string>, s: Script)
    requires Cli.LevelFor(Cli.LogWord(logFlag)) != None
    ensures Resolved(fileFlag, parsed, env).Err? ==>
      MainSpec(fileFlag, logFlag, parsed, env, s) == Logged(Resolved(fileFlag, parsed, env).error) &&
      MainCalls(fileFlag, logFlag, parsed, env, s) == []
    ensures Resolved(fileFlag, parsed, env).Ok? && s.construct == ConstructRaised ==>
      MainSpec(fileFlag, logFlag, parsed, env, s) == Logged(ConstructFailed) &&
      Stop !in MainCalls(fileFlag, logFlag, parsed, env, s)
    ensures Resolved(fileFlag, parsed, env).Ok? && s.construct == ConstructOk && s.start == StartRaised ==>
      MainSpec(fileFlag, logFlag, parsed, env, s) == Logged(StartFailed) &&
      Stop !in MainCalls(fileFlag, logFlag, parsed, env, s)
  {
  }
}
