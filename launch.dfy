/**
 * The launch plan of the backend: which executable to start, with which
 * arguments and in which directory, or the fatal missing-binary outcome.
 */
module Launch {
  import opened Wrappers
  import opened Paths

  /** What `spawn` is given: command, argument list and working directory. */
  datatype Plan = Plan(cmd: string, args: seq<string>, cwd: string)

  /** The packaged backend binary is absent; `path` is where it was looked for. */
  datatype LaunchError = BackendMissing(path: string)

  const Loopback := "127.0.0.1"
  const SystemPython := "python3"
  const MissingTitle := "Backend Not Found"

  /** Where the packaged build keeps the backend binary. */
  function BundledBackend(resourcesPath: string): string
  {
    Join(resourcesPath, ["backend", "uroflow-backend"])
  }

  /** The interpreter of the development virtual environment. */
  function VenvPython(repoRoot: string): string
  {
    Join(repoRoot, ["venv", "bin", "python"])
  }

  /** The development invocation: uvicorn serving `main:app` on loopback at `port`. */
  function DevArgs(port: string): seq<string>
  {
    ["-m", "uvicorn", "main:app", "--host", Loopback, "--port", port]
  }

  /** The body of the error dialog shown when the packaged binary is missing. */
  function MissingMessage(path: string): string
  {
    "Bundled backend binary is missing at:\n" + path + "\n\nRun desktop packaging with backend build first."
  }

  /**
   * The plan `startBackend` computes. `existing` is the set of paths on disk
   * (`fs.existsSync(p)` is `p in existing`).
   */
  function ResolvePlan(isPackaged: bool, existing: set<string>, resourcesPath: string,
                       repoRoot: string, port: string): (r: Result<Plan, LaunchError>)
    ensures r.Failure? <==> isPackaged && BundledBackend(resourcesPath) !in existing
    ensures r.Failure? ==> r.error == BackendMissing(BundledBackend(resourcesPath))
    ensures isPackaged && r.Success? ==>
              r.value.cmd == BundledBackend(resourcesPath) && r.value.args == [] &&
              r.value.cwd == resourcesPath
    ensures !isPackaged ==> r.Success? && r.value.cwd == repoRoot && r.value.args == DevArgs(port)
    ensures !isPackaged ==> (r.value.cmd == VenvPython(repoRoot) <==> VenvPython(repoRoot) in existing)
    ensures !isPackaged ==> (r.value.cmd == SystemPython <==> VenvPython(repoRoot) !in existing)
  {
    if isPackaged then
      var bundled := BundledBackend(resourcesPath);
      if bundled !in existing then Failure(BackendMissing(bundled))
      else Success(Plan(bundled, [], resourcesPath))
    else
      var venv := VenvPython(repoRoot);
      JoinNotBareName(repoRoot, ["venv", "bin", "python"], SystemPython);
      Success(Plan(if venv in existing then venv else SystemPython, DevArgs(port), repoRoot))
  }

  /**
   * The value a command-line parser reads for `flag`: the argument that
   * follows its first occurrence.
   */
  function OptionValue(args: seq<string>, flag: string): Option<string>
    decreases |args|
  {
    if |args| < 2 then None
    else if args[0] == flag then Some(args[1])
    else OptionValue(args[1..], flag)
  }

  /**
   * The development invocation runs the uvicorn module, binds the loopback
   * host and listens on the configured port, whatever the port text is.
   */
  lemma DevArgsBindLoopbackAndPort(port: string)
    ensures OptionValue(DevArgs(port), "-m") == Some("uvicorn")
    ensures OptionValue(DevArgs(port), "--host") == Some(Loopback)
    ensures OptionValue(DevArgs(port), "--port") == Some(port)
  {
    var a := DevArgs(port);
    var host := a[3..];
    var portFlag := a[5..];
    assert host == ["--host", Loopback, "--port", port] && host[2..] == portFlag;
    assert OptionValue(a, "--host") == OptionValue(a[1..], "--host")
        == OptionValue(a[2..], "--host") == OptionValue(host, "--host");
    assert OptionValue(a, "--port") == OptionValue(a[1..], "--port")
        == OptionValue(a[2..], "--port") == OptionValue(host, "--port")
        == OptionValue(host[1..], "--port") == OptionValue(portFlag, "--port");
  }

  /** The packaged command lies under the resources directory it runs in. */
  lemma PackagedCommandUnderResources(existing: set<string>, resourcesPath: string,
                                      repoRoot: string, port: string)
    requires ResolvePlan(true, existing, resourcesPath, repoRoot, port).Success?
    ensures var plan := ResolvePlan(true, existing, resourcesPath, repoRoot, port).value;
            |plan.cwd| < |plan.cmd| && plan.cmd[..|plan.cwd| + 1] == plan.cwd + "/"
  {
  }
}
