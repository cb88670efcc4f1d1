/**
 * The command controller (controller/controller.py): one entry point per ingress protocol,
 * dispatch by command name, port changes, start/stop, and the connection monitor with
 * exponential backoff. All calls are sequential here; the command lock then holds by
 * construction.
 */
module Controller {
  import opened Wrappers
  import opened Interface
  import opened Commands
  import Whill

  /** The command names `_execute_command` recognises. */
  const KnownCommands: set<string> := {"joystick", "power_on", "power_off", "emergency_stop"}

  /** `kwargs.get(key, 0)`. */
  function Param(params: map<string, int>, key: string): int
  {
    if key in params then params[key] else 0
  }

  /** The command name that invokes a device operation. */
  function CommandName(op: Whill.DeviceOp): string
  {
    match op
    case SendJoystick(_, _) => "joystick"
    case SendPowerOn => "power_on"
    case SendPowerOff => "power_off"
    case SendEmergencyStop => "emergency_stop"
  }

  /**
   * `_execute_command`: the device operation a call invokes. Unknown names invoke none;
   * a known name invokes the operation of that name, the joystick taking `front` and
   * `side` from the parameters (0 when absent).
   */
  function Dispatch(call: Call): (op: Option<Whill.DeviceOp>)
    ensures op.None? <==> call.command !in KnownCommands
    ensures op.Some? ==> CommandName(op.value) == call.command
    ensures op.Some? && op.value.SendJoystick? ==>
      op.value.front == Param(call.params, "front") && op.value.side == Param(call.params, "side")
  {
    if call.command == "joystick" then
      Some(Whill.SendJoystick(Param(call.params, "front"), Param(call.params, "side")))
    else if call.command == "power_on" then Some(Whill.SendPowerOn)
    else if call.command == "power_off" then Some(Whill.SendPowerOff)
    else if call.command == "emergency_stop" then Some(Whill.SendEmergencyStop)
    else None
  }

  /** Every device operation is reached by the call that names it, with its own arguments. */
  lemma DispatchReachesEveryOp(op: Whill.DeviceOp)
    ensures Dispatch(Call(CommandName(op), if op.SendJoystick? then map["front" := op.front, "side" := op.side] else map[]))
            == Some(op)
  {
  }

  // ---------------------------------------------------------------------------------
  // Connection monitor: exponential backoff

  /** `reconnect_interval`: the first wait, and the value every reset returns to. */
  const BaseInterval: int := 5
  /** `max_interval`: the cap of the doubling. */
  const MaxInterval: int := 60
  /** The wait between checks while connected. */
  const PollInterval: int := 10

  /** What one iteration of the monitor loop found. */
  datatype Observation =
    | StayedConnected        // `is_connected()` held
    | ReconnectSucceeded     // disconnected, and `reconnect()` returned true
    | ReconnectFailed        // disconnected, and `reconnect()` returned false
    | UnexpectedFault        // the loop body raised; the `except` branch ran

  /**
   * The interval after one iteration: reset to the base while connected or after a
   * successful reconnect, doubled up to the cap after a failed one, kept after a fault.
   */
  function NextInterval(interval: int, o: Observation): (next: int)
    ensures o == StayedConnected || o == ReconnectSucceeded ==> next == BaseInterval
    ensures o == UnexpectedFault ==> next == interval
    ensures o == ReconnectFailed && 2 * interval < MaxInterval ==> next == 2 * interval
    ensures o == ReconnectFailed && 2 * interval >= MaxInterval ==> next == MaxInterval
    ensures o == ReconnectFailed && 0 <= interval ==> interval <= next || next == MaxInterval
    ensures BaseInterval <= interval <= MaxInterval ==> BaseInterval <= next <= MaxInterval
  {
    match o
    case StayedConnected => BaseInterval
    case ReconnectSucceeded => BaseInterval
    case ReconnectFailed => if interval * 2 < MaxInterval then interval * 2 else MaxInterval
    case UnexpectedFault => interval
  }

  /** How long an iteration sleeps: the poll interval while connected, else the current interval. */
  function SleepFor(interval: int, o: Observation): (d: int)
    ensures o != StayedConnected ==> d == interval
    ensures o == StayedConnected ==> d == PollInterval
  {
    if o == StayedConnected then PollInterval else interval
  }

  /** The interval after the iterations `obs`, starting from `start`. */
  function Current(start: int, obs: seq<Observation>): int
    decreases |obs|
  {
    if obs == [] then start else NextInterval(Current(start, obs[..|obs| - 1]), obs[|obs| - 1])
  }

  /** The interval after each of the iterations `obs`. */
  function Trace(start: int, obs: seq<Observation>): (r: seq<int>)
    ensures |r| == |obs|
    ensures obs != [] ==> r[|obs| - 1] == Current(start, obs)
    decreases |obs|
  {
    if obs == [] then [] else Trace(start, obs[..|obs| - 1]) + [Current(start, obs)]
  }

  /**
   * How long each iteration of `obs` waits: the first the starting interval (or the poll
   * interval), every later one the interval the iteration before it left.
   */
  function Waits(start: int, obs: seq<Observation>): (r: seq<int>)
    ensures |r| == |obs|
    ensures forall k :: 0 <= k < |obs| ==>
      r[k] == SleepFor(if k == 0 then start else Trace(start, obs)[k - 1], obs[k])
    decreases |obs|
  {
    if obs == [] then []
    else Waits(start, obs[..|obs| - 1]) + [SleepFor(Current(start, obs[..|obs| - 1]), obs[|obs| - 1])]
  }

  /** One more iteration extends the trace by the interval it leaves, and the waits by its wait. */
  lemma TraceStep(start: int, obs: seq<Observation>, o: Observation)
    ensures Current(start, obs + [o]) == NextInterval(Current(start, obs), o)
    ensures Trace(start, obs + [o]) == Trace(start, obs) + [NextInterval(Current(start, obs), o)]
    ensures Waits(start, obs + [o]) == Waits(start, obs) + [SleepFor(Current(start, obs), o)]
  {
    assert (obs + [o])[..|obs|] == obs;
  }

  /** Starting inside [base, cap], the interval never leaves it, whatever happens. */
  lemma {:induction false} CurrentInBounds(start: int, obs: seq<Observation>)
    requires BaseInterval <= start <= MaxInterval
    ensures BaseInterval <= Current(start, obs) <= MaxInterval
    decreases |obs|
  {
    if obs != [] {
      CurrentInBounds(start, obs[..|obs| - 1]);
    }
  }

  /** Every interval in a trace lies in [base, cap]. */
  lemma {:induction false} TraceInBounds(start: int, obs: seq<Observation>)
    requires BaseInterval <= start <= MaxInterval
    ensures forall k :: 0 <= k < |obs| ==> BaseInterval <= Trace(start, obs)[k] <= MaxInterval
    decreases |obs|
  {
    if obs != [] {
      TraceInBounds(start, obs[..|obs| - 1]);
      CurrentInBounds(start, obs);
    }
  }

  /** One success brings the interval back to the base, whatever came before. */
  lemma SuccessResets(start: int, obs: seq<Observation>)
    ensures Current(start, obs + [ReconnectSucceeded]) == BaseInterval
  {
  }

  function Pow2(n: nat): nat
  {
    if n == 0 then 1 else 2 * Pow2(n - 1)
  }

  function Repeat(o: Observation, n: nat): (r: seq<Observation>)
    ensures |r| == n && forall k :: 0 <= k < n ==> r[k] == o
  {
    seq(n, _ => o)
  }

  /** After `n` failed reconnects from the base, the interval is base * 2^n, capped. */
  lemma {:induction false} FailuresDoubleUpToCap(n: nat)
    ensures Current(BaseInterval, Repeat(ReconnectFailed, n))
            == if BaseInterval * Pow2(n) < MaxInterval then BaseInterval * Pow2(n) else MaxInterval
  {
    if n > 0 {
      assert Repeat(ReconnectFailed, n)[..n - 1] == Repeat(ReconnectFailed, n - 1);
      FailuresDoubleUpToCap(n - 1);
    }
  }

  /** The k-th entry of a trace is the interval after the first k + 1 iterations. */
  lemma {:induction false} TraceAt(start: int, obs: seq<Observation>, k: nat)
    requires k < |obs|
    ensures Trace(start, obs)[k] == Current(start, obs[..k + 1])
    decreases |obs|
  {
    if k < |obs| - 1 {
      TraceAt(start, obs[..|obs| - 1], k);
      assert obs[..|obs| - 1][..k + 1] == obs[..k + 1];
    } else {
      assert obs[..k + 1] == obs;
    }
  }

  /**
   * Six failing iterations in a row wait 5, 10, 20, 40, 60, 60 seconds, and leave the
   * intervals 10, 20, 40, 60, 60, 60.
   */
  lemma BackoffSequence()
    ensures Waits(BaseInterval, Repeat(ReconnectFailed, 6)) == [5, 10, 20, 40, 60, 60]
    ensures Trace(BaseInterval, Repeat(ReconnectFailed, 6)) == [10, 20, 40, 60, 60, 60]
  {
    var fails := Repeat(ReconnectFailed, 6);
    var expected := [10, 20, 40, 60, 60, 60];
    forall k | 0 <= k < 6
      ensures Trace(BaseInterval, fails)[k] == expected[k]
    {
      TraceAt(BaseInterval, fails, k);
      assert fails[..k + 1] == Repeat(ReconnectFailed, k + 1);
      FailuresDoubleUpToCap(k + 1);
      if k == 0 { assert Pow2(1) == 2; }
      else if k == 1 { assert Pow2(2) == 4; }
      else if k == 2 { assert Pow2(3) == 8; }
      else if k == 3 { assert Pow2(4) == 16; }
      else if k == 4 { assert Pow2(5) == 32; }
      else { assert Pow2(6) == 64; }
    }
    var waits := Waits(BaseInterval, fails);
    assert waits[0] == 5;
    assert forall k :: 1 <= k < 6 ==> waits[k] == expected[k - 1];
  }

  // ---------------------------------------------------------------------------------
  // One monitor iteration, and a run of them, on the device's fields

  /**
   * What happens during one iteration of the monitor loop: whether its body raises at the
   * start, and the SDK oracles for closing and opening should it reconnect.
   */
  datatype Round = Round(unexpected: bool, closeFault: Option<string>, openFault: Option<string>)

  /**
   * One iteration of the monitor loop, without the waiting: the device state it leaves and
   * what it found. A fault raised at the start of the body changes nothing; a connected
   * device is left alone; a disconnected one is reconnected to its last port.
   */
  function Iteration(mode: Whill.Mode, s: DeviceState, round: Round): (r: (DeviceState, Observation))
    ensures r.1 == UnexpectedFault <==> round.unexpected
    ensures r.1 == StayedConnected <==> !round.unexpected && s.connected
    ensures r.1 == UnexpectedFault || r.1 == StayedConnected ==> r.0 == s
    ensures r.1 == ReconnectSucceeded || r.1 == ReconnectFailed ==>
      r.0 == Whill.ReconnectEffect(mode, s, None, round.closeFault, round.openFault).0
    ensures r.1 == ReconnectSucceeded ==> r.0.connected && r.0.port == s.port
    ensures r.1 == ReconnectFailed ==>
      mode == Whill.RealMode && !r.0.connected && r.0.port == s.port && r.0.lastError == round.openFault
    ensures Whill.ValidState(mode, s) ==> Whill.ValidState(mode, r.0)
  {
    if round.unexpected then (s, UnexpectedFault)
    else if s.connected then (s, StayedConnected)
    else
      var reconnected := Whill.ReconnectEffect(mode, s, None, round.closeFault, round.openFault);
      (reconnected.0, if reconnected.1 then ReconnectSucceeded else ReconnectFailed)
  }

  /** The iterations `rounds`, one after another: the device state they leave and what each found. */
  function Monitor(mode: Whill.Mode, s: DeviceState, rounds: seq<Round>): (r: (DeviceState, seq<Observation>))
    ensures |r.1| == |rounds|
    ensures forall k :: 0 <= k < |rounds| ==> (r.1[k] == UnexpectedFault <==> rounds[k].unexpected)
    ensures mode == Whill.MockMode ==> forall k :: 0 <= k < |rounds| ==> r.1[k] != ReconnectFailed
    ensures Whill.ValidState(mode, s) ==> Whill.ValidState(mode, r.0)
    decreases |rounds|
  {
    if rounds == [] then (s, [])
    else
      var before := Monitor(mode, s, rounds[..|rounds| - 1]);
      var last := Iteration(mode, before.0, rounds[|rounds| - 1]);
      (last.0, before.1 + [last.1])
  }

  /** Running one more iteration extends the run by that iteration. */
  lemma MonitorStep(mode: Whill.Mode, s: DeviceState, rounds: seq<Round>, i: nat)
    requires i < |rounds|
    ensures var before := Monitor(mode, s, rounds[..i]);
      var last := Iteration(mode, before.0, rounds[i]);
      Monitor(mode, s, rounds[..i + 1]) == (last.0, before.1 + [last.1])
  {
    assert rounds[..i + 1][..i] == rounds[..i];
  }

  /**
   * The monitor never touches a connected device: every iteration either finds it
   * connected or raises, and the device is as it was.
   */
  lemma {:induction false} ConnectedStaysConnected(mode: Whill.Mode, s: DeviceState, rounds: seq<Round>)
    requires s.connected
    ensures Monitor(mode, s, rounds).0 == s
    ensures forall k :: 0 <= k < |rounds| ==>
      Monitor(mode, s, rounds).1[k] == StayedConnected || Monitor(mode, s, rounds).1[k] == UnexpectedFault
    decreases |rounds|
  {
    if rounds != [] {
      ConnectedStaysConnected(mode, s, rounds[..|rounds| - 1]);
    }
  }

  /** Iterations that make no reconnect attempt keep the interval at the base. */
  lemma {:induction false} NoAttemptKeepsBase(obs: seq<Observation>)
    requires forall k :: 0 <= k < |obs| ==> obs[k] == StayedConnected || obs[k] == UnexpectedFault
    ensures Current(BaseInterval, obs) == BaseInterval
    decreases |obs|
  {
    if obs != [] {
      NoAttemptKeepsBase(obs[..|obs| - 1]);
    }
  }

  /** While the device stays connected, the monitor's interval is the base after every iteration. */
  lemma ConnectedKeepsBaseInterval(mode: Whill.Mode, s: DeviceState, rounds: seq<Round>)
    requires s.connected
    ensures forall k :: 0 <= k < |rounds| ==> Trace(BaseInterval, Monitor(mode, s, rounds).1)[k] == BaseInterval
  {
    var obs := Monitor(mode, s, rounds).1;
    ConnectedStaysConnected(mode, s, rounds);
    forall k | 0 <= k < |rounds|
      ensures Trace(BaseInterval, obs)[k] == BaseInterval
    {
      TraceAt(BaseInterval, obs, k);
      NoAttemptKeepsBase(obs[..k + 1]);
    }
  }

  // ---------------------------------------------------------------------------------
  // The controller object

  /** The connection-monitor task handle `reconnect_task`. */
  datatype TaskState = NoTask | MonitorRunning | MonitorCancelled

  class WhillController {
    const whill: Whill.Device
    var running: bool
    var monitorTask: TaskState

    constructor (whill: Whill.Device)
      ensures this.whill == whill && !running && monitorTask == NoTask
    {
      this.whill := whill;
      running := false;
      monitorTask := NoTask;
    }

    /** Sets the running flag and starts the monitor task; the device is not touched. */
    method Start() returns (ok: bool)
      modifies this
      ensures ok && running && monitorTask == MonitorRunning
    {
      running := true;
      monitorTask := MonitorRunning;
      ok := true;
    }

    /** Clears the running flag, cancels the monitor task if there is one, then disconnects the device. */
    method Stop(closeFault: Option<string>)
      modifies this, whill.Repr()
      ensures !running
      ensures monitorTask == (if old(monitorTask) == NoTask then NoTask else MonitorCancelled)
      ensures whill.State() == Whill.DisconnectEffect(whill.ModeOf(), old(whill.State()))
    {
      running := false;
      if monitorTask != NoTask {
        monitorTask := MonitorCancelled;
      }
      Whill.Disconnect(whill, closeFault);
    }

    /**
     * `_execute_command`: the operation `Dispatch` picks is run on the device; an unknown
     * name leaves the device exactly as it was.
     */
    method ExecuteCommand(command: string, params: map<string, int>, fault: Option<string>)
      modifies whill.Repr()
      ensures Dispatch(Call(command, params)).None? ==> whill.State() == old(whill.State())
      ensures Dispatch(Call(command, params)).Some? ==>
        whill.State() == Whill.SendEffect(whill.ModeOf(), old(whill.State()), Dispatch(Call(command, params)).value, fault)
    {
      var op := Dispatch(Call(command, params));
      if op.Some? {
        Whill.Send(whill, op.value, fault);
      }
    }

    /** The entry point for OSC: exactly `ExecuteCommand`, under the command lock. */
    method HandleOscCommand(command: string, params: map<string, int>, fault: Option<string>)
      modifies whill.Repr()
      ensures Dispatch(Call(command, params)).None? ==> whill.State() == old(whill.State())
      ensures Dispatch(Call(command, params)).Some? ==>
        whill.State() == Whill.SendEffect(whill.ModeOf(), old(whill.State()), Dispatch(Call(command, params)).value, fault)
    {
      ExecuteCommand(command, params, fault);
    }

    /** The entry point for MQTT: the same effect as the OSC one. */
    method HandleMqttCommand(command: string, params: map<string, int>, fault: Option<string>)
      modifies whill.Repr()
      ensures Dispatch(Call(command, params)).None? ==> whill.State() == old(whill.State())
      ensures Dispatch(Call(command, params)).Some? ==>
        whill.State() == Whill.SendEffect(whill.ModeOf(), old(whill.State()), Dispatch(Call(command, params)).value, fault)
    {
      ExecuteCommand(command, params, fault);
    }

    /** `change_port`: `reconnect(port=new_port)`, returning its result. */
    method ChangePort(newPort: string, closeFault: Option<string>, openFault: Option<string>) returns (ok: bool)
      modifies whill.Repr()
      ensures (whill.State(), ok) == Whill.ReconnectEffect(whill.ModeOf(), old(whill.State()), Some(newPort), closeFault, openFault)
      ensures ok ==> whill.IsConnected() && whill.Port() == newPort
    {
      ok := Whill.Reconnect(whill, Some(newPort), closeFault, openFault);
    }

    /** The body of one monitor iteration, without the waiting, as `Iteration` says. */
    method CheckConnection(round: Round) returns (o: Observation)
      requires whill.Valid()
      modifies whill.Repr()
      ensures whill.Valid()
      ensures (whill.State(), o) == Iteration(whill.ModeOf(), old(whill.State()), round)
    {
      if round.unexpected {
        o := UnexpectedFault;
      } else if !whill.IsConnected() {
        var ok := Whill.Reconnect(whill, None, round.closeFault, round.openFault);
        o := if ok then ReconnectSucceeded else ReconnectFailed;
      } else {
        o := StayedConnected;
      }
    }

    /**
     * `monitor_connection`, for as long as the controller runs, one iteration per element
     * of `rounds`. Each iteration sleeps `sleeps[k]`, then (when disconnected) reconnects to
     * the last port; `intervals[k]` is the backoff interval it leaves. `observed` is what
     * each iteration found; the device and `observed` are exactly what `Monitor` gives.
     */
    method MonitorConnection(rounds: seq<Round>)
      returns (intervals: seq<int>, sleeps: seq<int>, ghost observed: seq<Observation>)
      requires whill.Valid()
      modifies whill.Repr()
      ensures whill.Valid()
      ensures running ==> (whill.State(), observed) == Monitor(whill.ModeOf(), old(whill.State()), rounds)
      ensures !running ==> whill.State() == old(whill.State()) && observed == []
      ensures |intervals| == |sleeps| == |observed|
      ensures intervals == Trace(BaseInterval, observed)
      ensures forall k :: 0 <= k < |intervals| ==> BaseInterval <= intervals[k] <= MaxInterval
      ensures forall k :: 0 <= k < |sleeps| ==>
        sleeps[k] == SleepFor(if k == 0 then BaseInterval else intervals[k - 1], observed[k])
    {
      intervals, sleeps, observed := [], [], [];
      if !running {
        return;
      }
      ghost var mode, start := whill.ModeOf(), whill.State();
      var interval := BaseInterval;
      var i := 0;
      while running && i < |rounds|
        invariant 0 <= i <= |rounds| && |observed| == i
        invariant whill.Valid()
        invariant (whill.State(), observed) == Monitor(mode, start, rounds[..i])
        invariant interval == Current(BaseInterval, observed)
        invariant intervals == Trace(BaseInterval, observed)
        invariant sleeps == Waits(BaseInterval, observed)
      {
        var o := CheckConnection(rounds[i]);
        MonitorStep(mode, start, rounds, i);
        TraceStep(BaseInterval, observed, o);
        sleeps := sleeps + [SleepFor(interval, o)];
        observed := observed + [o];
        interval := NextInterval(interval, o);
        intervals := intervals + [interval];
        i := i + 1;
      }
      assert rounds[..i] == rounds;
      TraceInBounds(BaseInterval, observed);
    }
  }
}
