/**
 * The launcher's module state and event handlers: the backend handle, the
 * main window, and everything the launcher hands to the host (dialogs,
 * quit requests, spawns, windows, kill requests, output writes) as logs.
 */
module Shell {
  import opened Wrappers
  import Config
  import Launch
  import Output
  import Supervisor
  import Window

  /** A call the launcher makes into Electron or Node, in the order made. */
  datatype Effect =
    | ErrorBox(title: string, content: string)
    | Quit
    | Spawn(pid: Supervisor.ProcId, cmd: string, args: seq<string>, cwd: string, env: Config.Env)
    | OpenWindow(target: Window.Target)

  /** The processes spawned according to a log of effects. */
  function SpawnedPids(effects: seq<Effect>): set<Supervisor.ProcId>
  {
    set e | e in effects && e.Spawn? :: e.pid
  }

  /**
   * The effects of one `startBackend` attempt: the error dialog and a quit
   * when the plan fails, a single spawn with the child environment otherwise.
   */
  function StartEffects(r: Result<Launch.Plan, Launch.LaunchError>, pid: Supervisor.ProcId,
                        child: Config.Env): (effs: seq<Effect>)
    ensures r.Failure? ==>
              effs == [ErrorBox(Launch.MissingTitle, Launch.MissingMessage(r.error.path)), Quit]
    ensures r.Success? ==> effs == [Spawn(pid, r.value.cmd, r.value.args, r.value.cwd, child)]
    ensures SpawnedPids(effs) == if r.Success? then {pid} else {}
  {
    match r
    case Failure(BackendMissing(path)) =>
      var effs := [ErrorBox(Launch.MissingTitle, Launch.MissingMessage(path)), Quit];
      assert forall e :: e in effs ==> !e.Spawn?;
      effs
    case Success(plan) =>
      var effs := [Spawn(pid, plan.cmd, plan.args, plan.cwd, child)];
      assert forall e :: e in effs ==> e.Spawn? && e.pid == pid;
      effs
  }

  lemma SpawnedPidsAppend(a: seq<Effect>, b: seq<Effect>)
    ensures SpawnedPids(a + b) == SpawnedPids(a) + SpawnedPids(b)
  {
  }

  /**
   * Whatever the mode, the started backend listens where the launcher says:
   * the child environment carries the resolved port, the packaged entry point
   * reads it back from there (assuming the bundled binary is built from the
   * Python entry point), and the development invocation passes it (and
   * the loopback host) on the command line.
   */
  lemma BackendListensOnConfiguredPort(env: Config.Env, isPackaged: bool, existing: set<string>,
                                       resourcesPath: string, repoRoot: string)
    requires Launch.ResolvePlan(isPackaged, existing, resourcesPath, repoRoot, Config.BackendPort(env)).Success?
    ensures var port := Config.BackendPort(env);
            var child := Config.ChildEnv(env, port);
            var plan := Launch.ResolvePlan(isPackaged, existing, resourcesPath, repoRoot, port).value;
            && child[Config.PortVar] == port
            && Config.EntryPort(child) == port
            && (!isPackaged ==>
                  Launch.OptionValue(plan.args, "--port") == Some(port) &&
                  Launch.OptionValue(plan.args, "--host") == Some(Launch.Loopback))
  {
    Config.EntryReadsLauncherPort(env);
    Launch.DevArgsBindLoopbackAndPort(Config.BackendPort(env));
  }

  /**
   * With the port override 9100 in development and no virtual environment,
   * the system interpreter is started with `--port 9100`.
   */
  lemma DevPortOverrideScenario(env: Config.Env, existing: set<string>, resourcesPath: string,
                                repoRoot: string)
    requires Config.PortVar in env && env[Config.PortVar] == "9100"
    requires Launch.VenvPython(repoRoot) !in existing
    ensures var r := Launch.ResolvePlan(false, existing, resourcesPath, repoRoot, Config.BackendPort(env));
            && r.Success?
            && r.value.cmd == Launch.SystemPython
            && Launch.OptionValue(r.value.args, "--port") == Some("9100")
  {
    Launch.DevArgsBindLoopbackAndPort("9100");
  }

  class App {
    const env: Config.Env
    /** `BACKEND_PORT`, fixed when the launcher module loads. */
    const port: string
    const isPackaged: bool
    const resourcesPath: string
    /** The launcher's own directory (`__dirname`). */
    const dirname: string
    /** The repository root that `getPaths` resolves from `dirname`. */
    const repoRoot: string

    /** `backendProcess`. */
    var backendProcess: Option<Supervisor.ProcId>
    /** The kill requests sent to the backend so far. */
    var signals: seq<Supervisor.Kill>
    /** `mainWindow`, represented by what it loads. */
    var mainWindow: Option<Window.Target>
    var effects: seq<Effect>
    /** The writes made to the host's standard output and error, one per call. */
    var stdout: seq<string>
    var stderr: seq<string>

    function SupState(): Supervisor.Sup
      reads this
    {
      Supervisor.Sup(backendProcess, signals)
    }

    /**
     * The invariant the handlers keep: the port is the configured one, the
     * supervisor is safe with respect to the processes spawned so far, and
     * every write to the host's output streams starts with the backend tag.
     */
    ghost predicate Valid()
      reads this
    {
      && port == Config.BackendPort(env)
      && Supervisor.Safe(SupState(), SpawnedPids(effects))
      && (forall i :: 0 <= i < |stdout| ==> Output.Untagged(stdout[i]).Some?)
      && (forall i :: 0 <= i < |stderr| ==> Output.Untagged(stderr[i]).Some?)
    }

    /** Module load: nothing running, no window, nothing written. */
    constructor (env: Config.Env, isPackaged: bool, resourcesPath: string, dirname: string,
                 repoRoot: string)
      ensures Valid()
      ensures this.env == env && port == Config.BackendPort(env) && this.isPackaged == isPackaged
      ensures this.resourcesPath == resourcesPath && this.dirname == dirname && this.repoRoot == repoRoot
      ensures SupState() == Supervisor.Idle && mainWindow == None
      ensures effects == [] && stdout == [] && stderr == []
    {
      this.env := env;
      port := Config.BackendPort(env);
      this.isPackaged := isPackaged;
      this.resourcesPath := resourcesPath;
      this.dirname := dirname;
      this.repoRoot := repoRoot;
      backendProcess := None;
      signals := [];
      mainWindow := None;
      effects := [];
      stdout := [];
      stderr := [];
    }

    function Plan(existing: set<string>): Result<Launch.Plan, Launch.LaunchError>
      reads this
    {
      Launch.ResolvePlan(isPackaged, existing, resourcesPath, repoRoot, port)
    }

    /**
     * `startBackend`, with the paths on disk `existing` and the process `pid`
     * that a spawn would return. On a missing packaged binary: the dialog and
     * a quit, and the handle is untouched. Otherwise one spawn with the child
     * environment, and the handle is overwritten with `pid`.
     */
    method StartBackend(existing: set<string>, pid: Supervisor.ProcId)
      requires Valid()
      modifies this
      ensures Valid()
      ensures effects == old(effects) + StartEffects(Plan(existing), pid, Config.ChildEnv(env, port))
      ensures SupState() == if Plan(existing).Success?
                            then Supervisor.Step(old(SupState()), Supervisor.Start(pid))
                            else old(SupState())
      ensures stdout == old(stdout) && stderr == old(stderr) && mainWindow == old(mainWindow)
    {
      var plan := Launch.ResolvePlan(isPackaged, existing, resourcesPath, repoRoot, port);
      var child := Config.ChildEnv(env, port);
      var effs := StartEffects(plan, pid, child);
      SpawnedPidsAppend(effects, effs);
      effects := effects + effs;
      if plan.Success? {
        backendProcess := Some(pid);
      }
    }

    /** The backend's stdout `data` handler: the chunk goes out tagged. */
    method OnBackendStdout(chunk: string)
      requires Valid()
      modifies this`stdout
      ensures Valid()
      ensures stdout == old(stdout) + Output.Relayed([chunk])
    {
      Output.UntagTagged(chunk);
      stdout := stdout + [Output.Tagged(chunk)];
    }

    /** The backend's stderr `data` handler: the chunk goes out tagged. */
    method OnBackendStderr(chunk: string)
      requires Valid()
      modifies this`stderr
      ensures Valid()
      ensures stderr == old(stderr) + Output.Relayed([chunk])
    {
      Output.UntagTagged(chunk);
      stderr := stderr + [Output.Tagged(chunk)];
    }

    /**
     * The backend's `exit` handler, for any code and any signal (either may
     * be null): the notice goes to stdout and the handle is cleared.
     */
    method OnBackendExit(code: Option<int>, signal: Option<string>)
      requires Valid()
      modifies this`stdout, this`backendProcess
      ensures Valid()
      ensures stdout == old(stdout) + [Output.ExitLine(code, signal)]
      ensures SupState() == Supervisor.Step(old(SupState()), Supervisor.Exit)
      ensures backendProcess == None
    {
      Output.ExitLineRecordsCode(code, signal);
      stdout := stdout + [Output.ExitLine(code, signal)];
      backendProcess := None;
    }

    /**
     * `stopBackend`. `killThrows` says whether the kill request raises. The
     * error is discarded, so the body never reads it and the contract holds
     * for both values on purpose. No handle: nothing happens. A handle: one
     * SIGTERM to it, and the handle stays.
     */
    method StopBackend(killThrows: bool)
      requires Valid()
      modifies this`signals
      ensures Valid()
      ensures SupState() == Supervisor.Step(old(SupState()), Supervisor.Stop)
    {
      if backendProcess.None? {
        return;
      }
      signals := signals + [Supervisor.Kill(backendProcess.value, Supervisor.SIGTERM)];
    }

    /** `createWindow`: a new main window loading the chosen target. */
    method CreateWindow()
      requires Valid()
      modifies this`mainWindow, this`effects
      ensures Valid()
      ensures mainWindow == Some(Window.LoadTarget(env, dirname))
      ensures effects == old(effects) + [OpenWindow(Window.LoadTarget(env, dirname))]
    {
      var target := Window.LoadTarget(env, dirname);
      SpawnedPidsAppend(effects, [OpenWindow(target)]);
      mainWindow := Some(target);
      effects := effects + [OpenWindow(target)];
    }

    /**
     * The ready handler: start the backend, then create the window. The window
     * is created even after the fatal path has requested a quit.
     */
    method OnReady(existing: set<string>, pid: Supervisor.ProcId)
      requires Valid()
      modifies this
      ensures Valid()
      ensures effects == old(effects) + StartEffects(Plan(existing), pid, Config.ChildEnv(env, port))
                         + [OpenWindow(Window.LoadTarget(env, dirname))]
      ensures SupState() == if Plan(existing).Success?
                            then Supervisor.Step(old(SupState()), Supervisor.Start(pid))
                            else old(SupState())
      ensures mainWindow == Some(Window.LoadTarget(env, dirname))
      ensures stdout == old(stdout) && stderr == old(stderr)
    {
      StartBackend(existing, pid);
      CreateWindow();
    }

    /** The `activate` handler, given how many windows are open. */
    method OnActivate(openWindows: nat)
      requires Valid()
      modifies this`mainWindow, this`effects
      ensures Valid()
      ensures Window.CreatesOnActivate(openWindows) ==>
                mainWindow == Some(Window.LoadTarget(env, dirname)) &&
                effects == old(effects) + [OpenWindow(Window.LoadTarget(env, dirname))]
      ensures !Window.CreatesOnActivate(openWindows) ==>
                mainWindow == old(mainWindow) && effects == old(effects)
    {
      if Window.CreatesOnActivate(openWindows) {
        CreateWindow();
      }
    }

    /** The `window-all-closed` handler, given the platform name. */
    method OnWindowAllClosed(platform: string)
      requires Valid()
      modifies this`effects
      ensures Valid()
      ensures effects == old(effects) + (if Window.QuitsWhenAllClosed(platform) then [Quit] else [])
    {
      if Window.QuitsWhenAllClosed(platform) {
        SpawnedPidsAppend(effects, [Quit]);
        effects := effects + [Quit];
      }
    }

    /** The `before-quit` handler: stop the backend (`killThrows` as in StopBackend). */
    method OnBeforeQuit(killThrows: bool)
      requires Valid()
      modifies this`signals
      ensures Valid()
      ensures SupState() == Supervisor.Step(old(SupState()), Supervisor.Stop)
    {
      StopBackend(killThrows);
    }
  }
}
