# UroFlow desktop launcher — a Dafny model

UroFlow's desktop shell is an Electron main script. It starts the Python backend server in one of two ways. In a packaged build it runs a bundled binary from the resources directory. In development it runs uvicorn from the repository's virtual environment, or from `python3` when that environment is absent. The script supervises that child process through one module-level handle, relays its output under a `[backend] ` tag, and opens the application window. This project models those decisions and proves what they guarantee.

Modules, in dependency order:

- `Wrappers`: `Option` and `Result`.
- `Paths`: `path.join` as `/`-concatenation, and the fact that a joined path lies under its base.
- `Config`: the environment variables. This covers the port rule (`UROFLOW_BACKEND_PORT`, default `8000`, where an empty value counts as unset) and the child environment. It also has Python's `os.getenv`, as the backend entry point uses it.
- `Launch`: the launch plan as a pure function returning `Result<Plan, LaunchError>`. It includes a small reader for command-line options, which states what the development arguments mean.
- `Output`: the tagged relay of output chunks, with its inverse. It also covers the exit notice and how it renders the exit code, with a round trip.
- `Supervisor`: the handle lifecycle as a pure state machine (`Step`, `Run`) with lemmas over any run of events.
- `Window`: the load target, plus the `activate` and `window-all-closed` rules.
- `Shell`: class `App` holds the script's module state (`backendProcess`, `mainWindow`, and logs of what is handed to Electron and Node). It has one method per handler. Each method that changes the handle or the kill log ties the new supervisor state to `Supervisor.Step`. Every method keeps an invariant: the port is the configured one, only SIGTERM is ever sent and only to spawned processes, and every write to the host's output streams starts with the tag.

Side effects become inputs or records. A file exists when its path is in a set `existing` passed in. The process id that `spawn` returns is a parameter. Dialogs, quit requests, spawns and window loads are appended to `effects`. Kill requests go to `signals`, and host output goes to `stdout` and `stderr`.

Behaviour worth knowing, as the code has it:

- The port variable is `UROFLOW_BACKEND_PORT` (frontend/electron/main.cjs:9) and the renderer variable is `ELECTRON_RENDERER_URL` (frontend/electron/main.cjs:93).
- Stop does not clear the handle; only the exit callback does (frontend/electron/main.cjs:65). A second stop while the handle is set sends another SIGTERM. Any number of stops leaves the handle unchanged (`Supervisor.RepeatedStop`).

## Model

| member | source | states |
|---|---|---|
| Paths.JoinUnder | frontend/electron/main.cjs:26 | a path joined from at least one plain segment (not empty, `.` or `..`) is strictly longer than its base and starts with the base followed by '/' |
| Paths.JoinNotBareName | frontend/electron/main.cjs:39-40 | a joined path never equals a name without '/', so the venv interpreter path is never confused with `python3` |
| Config.BackendPort | frontend/electron/main.cjs:9 | the port is the override when it is set and non-empty, `8000` otherwise, and is never empty |
| Config.ChildEnv | frontend/electron/main.cjs:48-52 | the child environment has exactly the inherited keys plus the two added ones; `PYTHONUNBUFFERED` is `1`, the port variable is the resolved port, and every other inherited entry is unchanged |
| Config.EntryReadsLauncherPort | backend_entry.py:7 | the backend entry point, whose getenv treats an empty value as set, reads from the child environment exactly the port the launcher resolved; re-resolving it there gives the same port |
| Config.EmptyOverrideRulesDiffer | frontend/electron/main.cjs:9 | for every environment whose port override is set to the empty string, the launcher falls back to `8000`, while the backend's own rule reads the empty string |
| Launch.ResolvePlan | frontend/electron/main.cjs:17-43 | fails exactly when packaged and the bundled binary does not exist, naming that path; a packaged plan runs the bundled binary with no arguments in the resources directory; a development plan runs in the repo root with the uvicorn arguments, its command is the venv interpreter exactly when it exists and `python3` exactly when it does not |
| Launch.DevArgsBindLoopbackAndPort | frontend/electron/main.cjs:41 | the development arguments run module `uvicorn`, give `--host` the loopback address and `--port` the configured port, for any port text |
| Launch.PackagedCommandUnderResources | frontend/electron/main.cjs:26-37 | a packaged plan's command lies under its working directory (the resources directory) |
| Shell.BackendListensOnConfiguredPort | frontend/electron/main.cjs:41-52 | in either mode the started backend uses the resolved port: the child environment carries it, the packaged entry point reads it back (assuming the bundled `uroflow-backend` is built from backend_entry.py), and a development plan passes it and the loopback host as options |
| Shell.DevPortOverrideScenario | frontend/electron/main.cjs:39-41 | for any environment whose port override is `9100`, in development with no venv, the command is `python3` and `--port` is `9100` |
| Output.UntagTagged | frontend/electron/main.cjs:56 | a relayed write is the chunk after the `[backend] ` tag, and the chunk can be read back from it |
| Output.UnrelayRelayed | frontend/electron/main.cjs:55-61 | relaying a sequence of chunks loses and reorders nothing: stripping the tags gives the chunks back in order |
| Output.RelayedAppend | frontend/electron/main.cjs:55-61 | relaying chunk by chunk equals relaying the concatenation: per-stream order is preserved |
| Output.CodeRoundTrip | frontend/electron/main.cjs:64 | the rendering of an exit code or `null` parses back to it and contains no comma |
| Output.ExitLineRecordsCode | frontend/electron/main.cjs:64 | the exit notice carries the backend tag, and the exit code read from it between `code=` and `,` is the code that was reported |
| Supervisor.HandleFollowsLastLifecycle | frontend/electron/main.cjs:45-79 | after any run of events, the handle is the process of the last start if that came after the last exit, empty after an exit, and the initial handle if neither occurred; stops never change it |
| Supervisor.RepeatedStop | frontend/electron/main.cjs:69-79 | n stops with no handle change nothing; with a handle they keep it and send one SIGTERM per call to that process |
| Supervisor.StopTwiceKeepsHandle | frontend/electron/main.cjs:69-79 | a second stop leaves the handle as the first left it, which is the handle before either |
| Supervisor.ExitThenRestart | frontend/electron/main.cjs:45-66 | an exit with any code and signal empties the handle, and a later start sets it again |
| Supervisor.StepSafe | frontend/electron/main.cjs:45-79 | one event keeps the handle a spawned process and keeps every kill request a SIGTERM to a spawned process |
| Supervisor.RunSafe | frontend/electron/main.cjs:45-79 | no run of starts, exits and stops ever sends a signal other than SIGTERM or signals a process that was not spawned |
| Window.LoadTarget | frontend/electron/main.cjs:93-98 | the window loads the renderer URL verbatim exactly when it is set and non-empty, and the bundled `dist/index.html` otherwise |
| Shell.StartEffects | frontend/electron/main.cjs:25-53 | a failed plan yields exactly the `Backend Not Found` dialog naming the missing path, then one quit, and no spawn; a plan yields exactly one spawn of the returned process with the plan's command, arguments and working directory and the child environment |
| Shell.App.constructor | frontend/electron/main.cjs:6-9 | at load, there is no backend handle and no window, nothing has been sent or written, and the port is the configured one |
| Shell.App.StartBackend | frontend/electron/main.cjs:17-67 | appends the start effects; on a plan, it overwrites the handle with the spawned process unconditionally; on the fatal path, the handle is unchanged |
| Shell.App.OnBackendStdout | frontend/electron/main.cjs:55-57 | appends the tagged chunk to stdout alone |
| Shell.App.OnBackendStderr | frontend/electron/main.cjs:59-61 | appends the tagged chunk to stderr alone |
| Shell.App.OnBackendExit | frontend/electron/main.cjs:63-66 | appends the exit notice to stdout and clears the handle, whatever the code and signal |
| Shell.App.StopBackend | frontend/electron/main.cjs:69-79 | with no handle, changes nothing; with a handle, records one SIGTERM to it and keeps the handle; the outcome is the same whether or not the kill request raises |
| Shell.App.CreateWindow | frontend/electron/main.cjs:81-98 | the new main window loads the chosen target |
| Shell.App.OnReady | frontend/electron/main.cjs:101-104 | starts the backend, then opens the window, even on the fatal path after the quit request; writes nothing to stdout or stderr |
| Shell.App.OnActivate | frontend/electron/main.cjs:105-109 | opens a window exactly when no window is open, and otherwise changes nothing |
| Shell.App.OnWindowAllClosed | frontend/electron/main.cjs:112-116 | requests a quit exactly when the platform is not `darwin` |
| Shell.App.OnBeforeQuit | frontend/electron/main.cjs:118-120 | stops the backend |

## Left out

- Process spawning, `fs.existsSync`, `dialog.showErrorBox`, `app.quit`, `loadURL` and `loadFile` are Electron and Node calls. Their results are parameters, and calls to them are recorded in `effects`.
- The `BrowserWindow` construction options (size, preload script, context isolation, title) are configuration handed to Electron, with no decision in them.
- `buf.toString()` decoding is not modelled. Chunks are strings.
- `stdout` and `stderr` are modelled as the sequence of writes, one tagged write per chunk. The real host stream is their concatenation, and chunks end wherever a pipe read ends. So only the first line of each chunk carries the tag, a line split across two reads has the tag in its middle, and the exit notice may share a line with a last chunk that lacks a trailing newline.
- The event loop's interleaving of stdout data, stderr data and exit is not modelled. Each callback is a method that a caller invokes in any order.
- The `app.whenReady()` promise and the `app.on` registrations are not modelled. Each handler is a method.
- Paths.Join: `path.join` is plain `/`-concatenation without normalisation, so the bundled page path keeps its `..` segment. `path.resolve` in `getPaths` is not modelled, and the repository root is a constructor parameter.
- Failed spawns are not modelled. The script sets the handle to whatever `spawn` returns, at once. When the spawn fails (for example ENOENT when `python3` is absent), Node reports an `'error'` event on the child, and `'exit'` may or may not follow. The script registers no `'error'` listener (frontend/electron/main.cjs:55-66). The handle can therefore stay set after a failed spawn. In the model, too, the handle stays set until an exit event is delivered, but the model does not say that none may ever come. The uncaught exception that the unhandled `'error'` event raises in the main process is not captured.
- A stale exit notification can come from a process that a second start has replaced. It still clears the handle, because the model's exit event names no process, like the callback. The script calls start once per run.
- Shell.BackendListensOnConfiguredPort: the packaged half assumes that the bundled `uroflow-backend` binary is built from backend_entry.py. No modelled file says so; the launcher names only the binary path.
- backend_entry.py is context. The model includes only its `os.getenv` port read; the `int()` conversion and `uvicorn.run` are library calls.
