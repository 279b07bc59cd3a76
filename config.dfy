/**
 * Configuration read from the environment: the backend port and the
 * environment handed to the backend child process.
 */
module Config {
  import opened Wrappers

  /** A process environment: variable name to value. */
  type Env = map<string, string>

  const PortVar := "UROFLOW_BACKEND_PORT"
  const UnbufferedVar := "PYTHONUNBUFFERED"
  const DefaultPort := "8000"

  /**
   * `process.env[name]` read as a JavaScript condition (`||`, `if (x)`):
   * a variable that is unset and one set to the empty string are both absent.
   */
  function Setting(env: Env, name: string): Option<string>
  {
    if name in env && env[name] != "" then Some(env[name]) else None
  }

  /** `BACKEND_PORT`: the override when it is set and non-empty, else '8000'. */
  function BackendPort(env: Env): (port: string)
    ensures port != ""
    ensures PortVar in env && env[PortVar] != "" ==> port == env[PortVar]
    ensures PortVar !in env || env[PortVar] == "" ==> port == DefaultPort
  {
    match Setting(env, PortVar)
    case Some(v) => v
    case None => DefaultPort
  }

  /**
   * The environment of the spawned backend: everything inherited, with the
   * unbuffered-output hint and the resolved port laid over it.
   */
  function ChildEnv(env: Env, port: string): (child: Env)
    ensures child.Keys == env.Keys + {UnbufferedVar, PortVar}
    ensures child[UnbufferedVar] == "1" && child[PortVar] == port
    ensures forall k :: k in env && k != UnbufferedVar && k != PortVar ==> child[k] == env[k]
  {
    env[UnbufferedVar := "1"][PortVar := port]
  }

  /**
   * Python's `os.getenv(name, default)`, as the backend entry point uses it:
   * unlike the JavaScript rule, a variable set to "" counts as set.
   */
  function GetEnv(env: Env, name: string, default: string): string
  {
    if name in env then env[name] else default
  }

  /** The port text the backend entry point reads before converting it to an int. */
  function EntryPort(env: Env): string
  {
    GetEnv(env, PortVar, DefaultPort)
  }

  /**
   * The backend entry point, started with the child environment, reads back
   * exactly the port the launcher resolved, though the two default rules differ.
   */
  lemma EntryReadsLauncherPort(env: Env)
    ensures EntryPort(ChildEnv(env, BackendPort(env))) == BackendPort(env)
    ensures BackendPort(ChildEnv(env, BackendPort(env))) == BackendPort(env)
  {
  }

  /** The two default rules disagree on an empty override; the child env hides that. */
  lemma EmptyOverrideRulesDiffer(env: Env)
    requires PortVar in env && env[PortVar] == ""
    ensures BackendPort(env) == DefaultPort
    ensures EntryPort(env) == ""
  {
  }
}
