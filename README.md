# cbws entry point: configuration precedence and server lifecycle

A Dafny model of the process entry point of the CloudBrain websocket server
(`src/cbws/run.py`). The entry point does three things, and the model has
one part for each:

- **Configuration resolution** (`settings.dfy`, module `Settings`). Four
  settings are resolved one after another: the port, then the RabbitMQ
  address, user and password. Each comes from its environment variable
  (`PORT`, `RABBITMQ_ADDRESS`, `RABBITMQ_USER`, `RABBITMQ_PWD`) when that
  variable is present and non-empty. Otherwise it comes from the matching
  key of the JSON configuration file (`ws_server_port`, `rabbitmq_address`,
  `rabbitmq_user`, `rabbitmq_pwd`). A missing key raises KeyError. Python's
  `or` is modelled through `Base.Truthy`: the environment value is skipped
  only when it is absent or empty, and the file value is returned as it is,
  even when it is falsy. This part is pure, so it is written as functions.
- **Command-line options** (`cli.dfy`, module `Cli`). `_Options` is a class
  whose constructor sets `logLevel` conditionally: `"info"` gives level 20
  (INFO), `"debug"` gives level 10 (DEBUG), and any other word leaves the
  attribute unset (`None` in the model). `ParseArgs` applies the argparse
  defaults: no `--file` and `--log info`.
- **Lifecycle** (`lifecycle.dfy`, module `Lifecycle`). The class
  `Orchestrator` holds the phase of the single server (`Idle`,
  `Constructed`, `Running`, `Stopping`, `Stopped`, `Failed`) and the calls
  made on it so far. Its methods construct, start, wait and stop. Its
  invariant keeps the calls a prefix of construct, start, stop.
  `SleepUntilInterrupt` is the `while 1: time.sleep(0.1)` loop. It runs over
  a finite sequence of sleep outcomes and leaves only at the first
  interrupt. `RunSpec` and `MainSpec` are the reference functions that
  `Orchestrator.Run` and `RunMain` are proved against. `main` turns every
  Exception into a logged outcome. A KeyboardInterrupt is not an Exception,
  so it escapes `main`.

`base.dfy` (module `Base`) holds the shared vocabulary: JSON/Python values,
their truthiness, `Option`, `Result` and the `Failure` exceptions.

Some behaviours of the code that the model keeps as they are:

- A KeyboardInterrupt raised inside `server.start()` is caught by the same
  `except KeyboardInterrupt` (lines 80-85). So `stop()` runs even though
  `start()` never returned.
- `--log` accepts any string, because argparse is given no choices.
  An unknown word leaves `log_level` unset. Reading it in `main` then
  raises AttributeError, which is logged. It is not a command-line error.
- A value taken from the file is returned verbatim. It may be `""`, `0`,
  `null` or `false`, and the server is still constructed with it.
- A failing `stop()` is not handled separately. Its exception leaves `run`
  and is logged by `main` like any other.

## Model

| member | source | states |
|---|---|---|
| `Settings.ResolveField` | src/cbws/run.py:71-74 | The field resolves to the environment string when its variable is present and non-empty. Otherwise it resolves to the file value for its key, unchanged. If the key is absent, it fails with KeyError naming that key. It succeeds exactly when some source supplies the field. |
| `Settings.Resolve` | src/cbws/run.py:71-74 | Resolution succeeds iff every field is supplied, and each resolved field is that field's own precedence result. On failure, the error names the first unsupplied field in the order port, address, user, password, and every earlier field was supplied. |
| `Settings.LoadedConfig` | src/cbws/run.py:66-69 | With no path or an empty path, the map is empty. Otherwise it is the parsed file. |
| `Settings.PairingDistinct` | src/cbws/run.py:71-79 | The environment variables differ from field to field, and so do the file keys. No environment variable is a file key. |
| `Settings.NoFileNeedsEnv` | src/cbws/run.py:66-74 | Without a file, resolution succeeds iff all four environment variables are non-empty. The result is then exactly those four values. |
| `Settings.EnvOverridesOneField` | src/cbws/run.py:71-74 | Example: a full file alone gives its four values. A `PORT=9090` variable replaces only the port. An empty `PORT` falls back to the file's port. |
| `Cli.LevelFor` | src/cbws/run.py:27-30 | `"info"` maps to INFO and `"debug"` maps to DEBUG, each iff. Every other word maps to no level. |
| `Cli.LogWord` | src/cbws/run.py:49-55 | `--log` defaults to `"info"`. Otherwise the flag's word is passed through. |
| `Cli.Options.constructor` | src/cbws/run.py:19-30 | Stores the path. Sets `logLevel` to the level of the word, or leaves it unset. |
| `Cli.ParseArgs` | src/cbws/run.py:33-59 | `--file` defaults to none and `--log` to INFO. Each given flag reaches the options unchanged. |
| `Lifecycle.SleepUntilInterrupt` | src/cbws/run.py:82-83 | The loop ends iff an interrupt occurs, at the first one. Every earlier sleep was a tick. With no interrupt, the loop is still sleeping after every observed sleep. |
| `Lifecycle.RunSpec` | src/cbws/run.py:66-85 | Calls are made at most once each, in the order construct, start, stop. A KeyError is raised before any call. The constructor receives exactly the resolved config. A raising constructor ends `run` with that exception after the one construct call, an interrupted one with KeyboardInterrupt. A raising `start()` ends it with that exception after construct and start, and no stop. Stop is called iff construction succeeded and an interrupt arrived during `start()` or during a wait after it returned. After a stop, `run` returns, raises the stop's exception or lets its KeyboardInterrupt through, as `stop()` did. `run` is still waiting, after construct and start only, iff start returned and no interrupt came. |
| `Lifecycle.StopOnceAfterStart` | src/cbws/run.py:80-85 | In any ordered call sequence, stop appears at most once. When it appears, the sequence is exactly construct, start, stop. |
| `Lifecycle.Orchestrator.ConstructServer` | src/cbws/run.py:76-79 | Records the construction with the given settings. The phase becomes `Constructed` on success and `Failed` otherwise. |
| `Lifecycle.Orchestrator.StartServer` | src/cbws/run.py:80-81 | Records the start. The phase becomes `Running` when start returns, `Failed` when it raises, and `Stopping` when it is interrupted. |
| `Lifecycle.Orchestrator.Wait` | src/cbws/run.py:82-84 | Makes no call. The phase becomes `Stopping` iff an interrupt arrives, and otherwise stays `Running`. |
| `Lifecycle.Orchestrator.StopServer` | src/cbws/run.py:84-85 | Records the one stop call, which is allowed only in phase `Stopping`. The phase becomes `Stopped`. |
| `Lifecycle.Orchestrator.Run` | src/cbws/run.py:66-85 | The exit and the recorded calls equal `RunSpec`. The call-order invariant is kept. The run is still waiting iff the phase is `Running`. |
| `Lifecycle.MainSpec` | src/cbws/run.py:88-93 | An unset log level is logged as AttributeError. Every Exception from `run` is logged with its cause, and then `main` returns. A clean return, a pending wait and an escaping KeyboardInterrupt pass through unchanged. |
| `Lifecycle.MainCalls` | src/cbws/run.py:88-93 | The calls keep the construct, start, stop order. There are no server calls when the log level is unset. |
| `Lifecycle.RunMain` | src/cbws/run.py:88-93 | `main`'s outcome and calls equal `MainSpec` and `MainCalls`. |
| `Lifecycle.MainStopsAtMostOnce` | src/cbws/run.py:76-93 | For every input, `main` stops the server at most once. When it does, it has first constructed and then started the server. |
| `Lifecycle.MainLogsStartupFailures` | src/cbws/run.py:71-93 | With a valid log level, a missing key is logged before any server call. A raising constructor is logged as a construction failure, and a raising `start()` as a start failure; in both cases `main` returns and the server is never stopped. |

## Left out

- Reading and decoding the configuration file (`open`, `json.load`) is not modelled. The decoded map is a parameter. Unreadable files, malformed JSON and a top-level JSON value that is not an object are not modelled.
- Reading `os.environ` is not modelled. The environment is a map parameter.
- argparse mechanics are not modelled: `--help`, and the SystemExit on unknown flags (which `main` does not catch because it is not an Exception). Only which flags were given and the two defaults are modelled.
- `logging.basicConfig` (line 64) and the text of `logging.exception` are not modelled. Logging appears only as the `Logged` outcome. The `log_level` argument of `run` is used only by `basicConfig`, so `Orchestrator.Run` does not take it.
- `WebsocketServer` (cbws/server.py) is not part of this model. Its constructor, `start()` and `stop()` are abstract operations. Each one returns, raises an Exception or is interrupted, as a `Script` says.
- The 0.1-second sleep and real signal delivery are not modelled. Each sleep is a `Tick` or an `Interrupt` event. The loop never ends by itself, so a finite script with no interrupt ends in `Waiting`.
- A KeyboardInterrupt during argument parsing, file reading or resolution is not modelled. Like the modelled ones, it would escape `main`.
- JSON floats are modelled as reals, so NaN and infinities are not represented.
- `_CommandLineArgError` (lines 11-13) is never raised by the code, so it has no counterpart.
