/**
 * The backend supervisor as a state machine over the single process handle
 * `backendProcess` and the termination requests sent so far. Idle and
 * Exited are one state: no handle.
 */
module Supervisor {
  import opened Wrappers

  /** The identity of a spawned child process. */
  type ProcId = nat

  /** Signals a process can be sent; the supervisor only ever sends SIGTERM. */
  datatype Signal = SIGTERM | SIGKILL

  /** One `kill` request: the target process and the signal. */
  datatype Kill = Kill(pid: ProcId, signal: Signal)

  datatype Sup = Sup(handle: Option<ProcId>, sent: seq<Kill>)

  /**
   * What can happen to the supervisor: a spawn that returned process `pid`,
   * the exit notification, or a stop request.
   */
  datatype Event = Start(pid: ProcId) | Exit | Stop

  const Idle := Sup(None, [])

  /**
   * One transition. Start overwrites the handle without looking at it, Exit
   * clears it whichever process it held, and Stop sends SIGTERM to the held
   * process without clearing the handle; with no handle Stop does nothing.
   */
  function Step(s: Sup, e: Event): Sup
  {
    match e
    case Start(p) => s.(handle := Some(p))
    case Exit => s.(handle := None)
    case Stop =>
      match s.handle
      case None => s
      case Some(p) => s.(sent := s.sent + [Kill(p, SIGTERM)])
  }

  /** The state after the events `evs`, in order. */
  function Run(s: Sup, evs: seq<Event>): Sup
    decreases |evs|
  {
    if evs == [] then s else Run(Step(s, evs[0]), evs[1..])
  }

  /** The processes spawned during `evs`. */
  function Started(evs: seq<Event>): set<ProcId>
    decreases |evs|
  {
    if evs == [] then {}
    else (if evs[0].Start? then {evs[0].pid} else {}) + Started(evs[1..])
  }

  /**
   * Safety: the handle, if any, is a spawned process, and every kill request
   * went to a spawned process and was a graceful SIGTERM.
   */
  predicate Safe(s: Sup, spawned: set<ProcId>)
  {
    && (s.handle.Some? ==> s.handle.value in spawned)
    && forall i :: 0 <= i < |s.sent| ==> s.sent[i].signal == SIGTERM && s.sent[i].pid in spawned
  }

  /** The last event of `evs` that touches the handle (a Start or an Exit), if any. */
  function LastLifecycle(evs: seq<Event>): Option<Event>
    decreases |evs|
  {
    if evs == [] then None
    else if evs[|evs| - 1].Stop? then LastLifecycle(evs[..|evs| - 1])
    else Some(evs[|evs| - 1])
  }

  /** `n` stop requests in a row. */
  function Stops(n: nat): seq<Event>
  {
    seq(n, _ => Stop)
  }

  /** `n` copies of one kill request. */
  function Repeat(k: Kill, n: nat): seq<Kill>
  {
    seq(n, _ => k)
  }

  lemma {:induction false} RunSnoc(s: Sup, evs: seq<Event>, e: Event)
    ensures Run(s, evs + [e]) == Step(Run(s, evs), e)
    decreases |evs|
  {
    if evs == [] {
      assert evs + [e] == [e];
    } else {
      assert (evs + [e])[1..] == evs[1..] + [e];
      RunSnoc(Step(s, evs[0]), evs[1..], e);
    }
  }

  /**
   * The handle after any run is decided by the last Start or Exit alone:
   * the process of the last Start, nothing after an Exit, and the initial
   * handle when neither occurs. Stop requests never change it.
   */
  lemma {:induction false} HandleFollowsLastLifecycle(s: Sup, evs: seq<Event>)
    ensures Run(s, evs).handle == match LastLifecycle(evs)
                                  case None => s.handle
                                  case Some(Start(p)) => Some(p)
                                  case Some(_) => None
    decreases |evs|
  {
    if evs != [] {
      var init, last := evs[..|evs| - 1], evs[|evs| - 1];
      assert evs == init + [last];
      RunSnoc(s, init, last);
      HandleFollowsLastLifecycle(s, init);
    }
  }

  /**
   * Stopping `n` times leaves the handle as it was and sends one SIGTERM per
   * call to the held process; with no handle it changes nothing at all.
   */
  lemma {:induction false} RepeatedStop(s: Sup, n: nat)
    ensures Run(s, Stops(n)) == match s.handle
                                case None => s
                                case Some(p) => Sup(s.handle, s.sent + Repeat(Kill(p, SIGTERM), n))
    decreases n
  {
    if n > 0 {
      assert Stops(n)[1..] == Stops(n - 1);
      RepeatedStop(Step(s, Stop), n - 1);
      if s.handle.Some? {
        var k := Kill(s.handle.value, SIGTERM);
        assert s.sent + [k] + Repeat(k, n - 1) == s.sent + Repeat(k, n);
      }
    } else {
      assert s.sent + Repeat(Kill(0, SIGTERM), 0) == s.sent;
    }
  }

  /** A second stop leaves the handle exactly where the first left it. */
  lemma StopTwiceKeepsHandle(s: Sup)
    ensures Run(s, [Stop, Stop]).handle == Run(s, [Stop]).handle == s.handle
  {
  }

  /** After an exit (any code, any signal) a new start is accepted and held. */
  lemma ExitThenRestart(s: Sup, p: ProcId)
    ensures Run(s, [Exit]).handle == None
    ensures Run(s, [Exit, Start(p)]).handle == Some(p)
  {
    HandleFollowsLastLifecycle(s, [Exit]);
    HandleFollowsLastLifecycle(s, [Exit, Start(p)]);
  }

  lemma StepSafe(s: Sup, spawned: set<ProcId>, e: Event)
    requires Safe(s, spawned)
    ensures Safe(Step(s, e), spawned + (if e.Start? then {e.pid} else {}))
  {
  }

  /** No run ever signals a process that was not spawned, or signals it forcefully. */
  lemma {:induction false} RunSafe(s: Sup, spawned: set<ProcId>, evs: seq<Event>)
    requires Safe(s, spawned)
    ensures Safe(Run(s, evs), spawned + Started(evs))
    decreases |evs|
  {
    if evs != [] {
      var e := evs[0];
      var now := spawned + (if e.Start? then {e.pid} else {});
      StepSafe(s, spawned, e);
      RunSafe(Step(s, e), now, evs[1..]);
      assert now + Started(evs[1..]) == spawned + Started(evs);
    }
  }
}
