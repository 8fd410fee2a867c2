/**
 * The state of one panel connection as a value, and each handler of the
 * connection as a pure transition on that value. Sockets, timers and
 * callbacks are abstract: a socket is a flag, a timer is the contents of its
 * slot, and everything the connection does to the outside world (a frame
 * sent, a callback fired, a timer started or cancelled, the socket closed) is
 * appended, in order, to one trace.
 */
module FortressSession {

  import opened Wrappers
  import opened FortressFrames

  const HEARTBEAT_INTERVAL: nat := 4
  const TIMEOUT_AFTER: nat := 9
  const RETRY_AFTER_ERROR: nat := 3

  /**
   * What a timer calls when it expires: `_reconnect` after the liveness
   * deadline, `_reconnect` after an error, or `_send_heartbeat` periodically.
   */
  datatype TimerKind = LivenessDeadline | RetryAfterError | HeartbeatTicker

  datatype Timer = Timer(kind: TimerKind, delay: nat)

  /**
   * `fortress_socket`: absent, or a socket object. `connected` is false for a
   * socket whose connect failed and for one the peer has reset: both are in
   * the closed TCP state, where `shutdown` and `send` fail.
   */
  datatype Socket = NoSocket | Open(connected: bool)

  /** A callback invocation: onErrorChange, onStatusChange, onAlarmChange. */
  datatype Event =
    | HealthChanged(good: bool)
    | StatusChanged(status: seq<byte>)
    | AlarmChanged(alarming: Option<bool>, zone: nat)

  datatype Effect =
    | Sent(frame: seq<byte>)
    | Notified(event: Event)
    | Started(timer: Timer)
    | Cancelled(timer: Timer)
    | SocketClosed

  /** Which of the three callbacks the host has registered. */
  datatype Handlers = Handlers(onErrorChange: bool, onStatusChange: bool, onAlarmChange: bool)

  datatype Snapshot = Snapshot(
    allGood: bool,
    count: nat,
    armStatus: Option<seq<byte>>,
    alarming: Option<bool>,
    socket: Socket,
    timeoutTimer: Option<Timer>,
    heartbeatTimer: Option<Timer>,
    handlers: Handlers,
    trace: seq<Effect>)

  /** The result of a step that may raise: the state reached, and whether it raised. */
  datatype Attempt = Attempt(state: Snapshot, raised: bool)

  /** How the link behaves during a connect attempt (the network is not modelled). */
  datatype Link = Link(connects: bool, handshakeSends: bool, bindSends: bool)

  /** What one turn of the receive loop observes. */
  datatype Input =
    | Received(data: seq<byte>)   // select() reported data and recv() returned it
    | Silence                     // select() timed out
    | RecvFailure(reset: bool)    // select() or recv() raised; `reset`: the peer reset the connection

  const LIVENESS: Timer := Timer(LivenessDeadline, TIMEOUT_AFTER)
  const RETRY: Timer := Timer(RetryAfterError, RETRY_AFTER_ERROR)
  const TICKER: Timer := Timer(HeartbeatTicker, HEARTBEAT_INTERVAL)

  /** A step never retracts an effect and never changes the registered callbacks. */
  predicate Extends(s: Snapshot, t: Snapshot)
  {
    s.trace <= t.trace && t.handlers == s.handlers
  }

  /** The state `__init__` leaves. */
  function Initial(h: Handlers): Snapshot
  {
    Snapshot(false, 0, None, None, NoSocket, None, None, h, [])
  }

  function Notify(s: Snapshot, registered: bool, e: Event): (t: Snapshot)
  {
    if registered then s.(trace := s.trace + [Notified(e)]) else s
  }

  /**
   * `_send_to_socket`: raises unless the socket exists and is connected and
   * the write succeeds. A write that fails on a connected socket means the
   * connection was reset or timed out, which leaves the socket in the closed
   * state.
   */
  function Transmit(s: Snapshot, frame: seq<byte>, writeOk: bool): (a: Attempt)
    ensures Extends(s, a.state)
    ensures a.raised <==> !(s.socket == Open(true) && writeOk)
    ensures a.state == if a.raised then s.(socket := BrokenBy(s.socket))
                       else s.(trace := s.trace + [Sent(frame)])
  {
    if s.socket == Open(true) && writeOk then Attempt(s.(trace := s.trace + [Sent(frame)]), false)
    else Attempt(s.(socket := BrokenBy(s.socket)), true)
  }

  /** The socket after a failed write: a connected socket is left closed, any other is unchanged. */
  function BrokenBy(socket: Socket): Socket
  {
    if socket == Open(true) then Open(false) else socket
  }

  /** `sendCommand`: transmits the command frame for `code`; a failure propagates to the caller. */
  function SendCommand(s: Snapshot, code: seq<byte>, writeOk: bool): (a: Attempt)
    ensures Extends(s, a.state)
  {
    Transmit(s, EncodeCommand(code), writeOk)
  }

  /** `_set_all_good`: stores the flag and fires onErrorChange on every call. */
  function SetAllGood(s: Snapshot, good: bool): (t: Snapshot)
    ensures Extends(s, t)
  {
    Notify(s.(allGood := good), s.handlers.onErrorChange, HealthChanged(good))
  }

  function CancelTimeout(s: Snapshot): (t: Snapshot)
    ensures Extends(s, t) && t.timeoutTimer == None
  {
    if s.timeoutTimer.Some?
    then s.(timeoutTimer := None, trace := s.trace + [Cancelled(s.timeoutTimer.value)])
    else s
  }

  /** `_clear_timers`: cancels and empties both timer slots. */
  function ClearTimers(s: Snapshot): (t: Snapshot)
    ensures Extends(s, t)
    ensures t.timeoutTimer == None && t.heartbeatTimer == None
  {
    var s1 := CancelTimeout(s);
    if s1.heartbeatTimer.Some?
    then s1.(heartbeatTimer := None, trace := s1.trace + [Cancelled(s1.heartbeatTimer.value)])
    else s1
  }

  /** `_reschedule_reconnect_asap`: the immediate-error path. */
  function RescheduleReconnectAsap(s: Snapshot): (t: Snapshot)
    ensures Extends(s, t)
  {
    var s1 := ClearTimers(SetAllGood(s, false));
    s1.(timeoutTimer := Some(RETRY), trace := s1.trace + [Started(RETRY)])
  }

  /** `_reschedule_reconnect`: replaces the pending timeout timer by a fresh liveness deadline. */
  function RescheduleReconnect(s: Snapshot): (t: Snapshot)
    ensures Extends(s, t)
  {
    var s1 := CancelTimeout(s);
    s1.(timeoutTimer := Some(LIVENESS), trace := s1.trace + [Started(LIVENESS)])
  }

  /** `_send_heartbeat`: counts the heartbeat, then transmits it. */
  function SendHeartbeat(s: Snapshot, writeOk: bool): (a: Attempt)
    ensures Extends(s, a.state)
  {
    Transmit(s.(count := s.count + 1), HEARTBEAT, writeOk)
  }

  /** `_set_arm_status`: stores the status and fires onStatusChange. */
  function SetArmStatus(s: Snapshot, status: seq<byte>): (t: Snapshot)
    ensures Extends(s, t)
  {
    Notify(s.(armStatus := Some(status)), s.handlers.onStatusChange, StatusChanged(status))
  }

  /** `_set_alarming`: stores the flag and fires onAlarmChange with the zone as an integer. */
  function SetAlarming(s: Snapshot, alarming: Option<bool>, zone: seq<byte>): (t: Snapshot)
    ensures Extends(s, t)
  {
    Notify(s.(alarming := alarming), s.handlers.onAlarmChange,
           AlarmChanged(alarming, FromBytesBigEndian(zone)))
  }

  /**
   * The guard on alarm changes: a different flag is taken unless an alarm is
   * currently active and the same frame does not report DISARM.
   */
  predicate AlarmChangeAccepted(stored: Option<bool>, nowAlarming: bool, armStatus: seq<byte>)
  {
    Some(nowAlarming) != stored && (stored != Some(true) || armStatus == DISARM)
  }

  /** The part of `_process_update` that decodes a 182-byte status frame. */
  function ApplyStatusFrame(s: Snapshot, d: seq<byte>): (t: Snapshot)
    requires |d| == STATUS_LEN
    ensures Extends(s, t)
  {
    var nowAlarming := DecodeAlarming(d);
    var latest := DecodeArm(d);
    var zone := ToBinChar(d[ZONE_OFFSET]);
    var s1 := if Some(latest) != s.armStatus then SetArmStatus(s, latest) else s;
    if AlarmChangeAccepted(s1.alarming, nowAlarming, latest)
    then SetAlarming(s1, Some(nowAlarming), zone)
    else s1
  }

  /** `_process_update`: validates, rearms the deadline on a heartbeat ack, decodes status. */
  function ProcessUpdate(s: Snapshot, data: seq<byte>): (t: Snapshot)
    ensures Extends(s, t)
    ensures s.timeoutTimer.Some? ==> t.timeoutTimer.Some?
  {
    if !IsValidInbound(data) then RescheduleReconnectAsap(s)
    else
      var s1 := if ContainsSubseq(data, HEARTBEAT_ACK) then RescheduleReconnect(s) else s;
      if |data| == STATUS_LEN then ApplyStatusFrame(s1, data) else s1
  }

  function CloseSocket(s: Snapshot): (t: Snapshot)
    ensures Extends(s, t) && t.socket == NoSocket
  {
    if s.socket.Open? then s.(socket := NoSocket, trace := s.trace + [SocketClosed]) else s
  }

  /** The first four steps of `_tear_down`, which cannot fail. */
  function ResetPanelState(s: Snapshot): (t: Snapshot)
    ensures Extends(s, t)
  {
    SetAlarming(SetAllGood(s, false).(count := 0, armStatus := None), None, [0x00])
  }

  /**
   * `_tear_down`, with the socket closed whatever state it is in (the
   * source shuts down the write side first, which fails on a socket in the
   * closed state: connect failed, peer reset or a failed write; see
   * TearDownAsWritten).
   */
  function TearDown(s: Snapshot): (t: Snapshot)
    ensures Extends(s, t)
  {
    ClearTimers(CloseSocket(ResetPanelState(s)))
  }

  /**
   * `_tear_down` as the source writes it: `shutdown` on a socket in the
   * closed state (connect failed, peer reset or a failed write) raises, and
   * the socket and the timers are then left as they were.
   */
  function TearDownAsWritten(s: Snapshot): (a: Attempt)
    ensures Extends(s, a.state)
    ensures a.raised <==> s.socket == Open(false)
    ensures a.raised ==> a.state.socket == s.socket && a.state.timeoutTimer == s.timeoutTimer
                         && a.state.heartbeatTimer == s.heartbeatTimer
  {
    var s1 := ResetPanelState(s);
    if s1.socket == Open(false) then Attempt(s1, true)
    else Attempt(ClearTimers(CloseSocket(s1)), false)
  }

  /** The `try` block at the head of `work`: connect, handshake, bind, start the timers. */
  function Connect(s: Snapshot, link: Link): (a: Attempt)
    ensures Extends(s, a.state)
  {
    var s1 := s.(socket := Open(false));
    if !link.connects then Attempt(RescheduleReconnectAsap(s1), true)
    else
      var hs := Transmit(s1.(socket := Open(true)), HANDSHAKE, link.handshakeSends);
      if hs.raised then Attempt(RescheduleReconnectAsap(hs.state), true)
      else
        var bind := Transmit(hs.state, BIND_ME, link.bindSends);
        if bind.raised then Attempt(RescheduleReconnectAsap(bind.state), true)
        else
          var s2 := RescheduleReconnect(SetAllGood(bind.state, true));
          Attempt(s2.(heartbeatTimer := Some(TICKER), trace := s2.trace + [Started(TICKER)]), false)
  }

  /** The `while self.all_good` receive loop of `work`, over the inputs it observes. */
  function ReceiveLoop(s: Snapshot, inputs: seq<Input>): (t: Snapshot)
    ensures Extends(s, t)
    ensures !s.allGood ==> t == s
    ensures s.timeoutTimer.Some? ==> t.timeoutTimer.Some?
    decreases |inputs|
  {
    if !s.allGood || inputs == [] then s
    else
      match inputs[0]
      case Silence => s
      case RecvFailure(reset) =>
        RescheduleReconnectAsap(if reset then s.(socket := Open(false)) else s)
      case Received(data) => ReceiveLoop(ProcessUpdate(s, data), inputs[1..])
  }

  /** `work`: a connect attempt, then the receive loop if it succeeded. */
  function Work(s: Snapshot, link: Link, inputs: seq<Input>): (t: Snapshot)
    ensures Extends(s, t)
  {
    var c := Connect(s, link);
    if c.raised then c.state else ReceiveLoop(c.state, inputs)
  }

  /** `_reconnect`: teardown, then `work`. */
  function Reconnect(s: Snapshot, link: Link, inputs: seq<Input>): (t: Snapshot)
    ensures Extends(s, t)
  {
    Work(TearDown(s), link, inputs)
  }

  /** `_reconnect` as written, over TearDownAsWritten: if teardown raises, `work` never runs. */
  function ReconnectAsWritten(s: Snapshot, link: Link, inputs: seq<Input>): (a: Attempt)
    ensures Extends(s, a.state)
    ensures a.raised <==> s.socket == Open(false)
    ensures a.raised ==> a.state.socket == s.socket && a.state.timeoutTimer == s.timeoutTimer
                         && a.state.heartbeatTimer == s.heartbeatTimer
  {
    var td := TearDownAsWritten(s);
    if td.raised then td else Attempt(Work(td.state, link, inputs), false)
  }
}
