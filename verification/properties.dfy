/**
 * What the connection promises, stated over the transitions of
 * FortressSession: the error path, the heartbeat acknowledgement, the status
 * decoding and the alarm guard, teardown, the connect sequence, the heartbeat
 * counter, and the reconnect supervisor retrying forever.
 */
module SessionProperties {

  import opened Wrappers
  import opened FortressFrames
  import opened FortressSession

  // The effects each handler appends, spelled out so that traces can be compared.

  function HealthNote(h: Handlers, good: bool): seq<Effect>
  {
    if h.onErrorChange then [Notified(HealthChanged(good))] else []
  }

  function StatusNote(h: Handlers, status: seq<byte>): seq<Effect>
  {
    if h.onStatusChange then [Notified(StatusChanged(status))] else []
  }

  function AlarmNote(h: Handlers, alarming: Option<bool>, zone: nat): seq<Effect>
  {
    if h.onAlarmChange then [Notified(AlarmChanged(alarming, zone))] else []
  }

  function TimeoutCancellation(s: Snapshot): seq<Effect>
  {
    if s.timeoutTimer.Some? then [Cancelled(s.timeoutTimer.value)] else []
  }

  function HeartbeatCancellation(s: Snapshot): seq<Effect>
  {
    if s.heartbeatTimer.Some? then [Cancelled(s.heartbeatTimer.value)] else []
  }

  function CloseNote(s: Snapshot): seq<Effect>
  {
    if s.socket.Open? then [SocketClosed] else []
  }

  // ---------------------------------------------------------------------------
  // sendCommand

  /**
   * A command is sent as one 92-byte frame when the socket is connected; a
   * failed write leaves a connected socket closed and changes nothing else.
   */
  lemma CommandFrameSent(s: Snapshot, code: byte, writeOk: bool)
    ensures var a := SendCommand(s, [code], writeOk);
      && (a.raised <==> !(s.socket == Open(true) && writeOk))
      && (a.raised ==> a.state == s.(socket := if s.socket == Open(true) then Open(false) else s.socket))
      && (!a.raised ==> a.state == s.(trace := s.trace + [Sent(EncodeCommand([code]))]))
      && |EncodeCommand([code])| == COMMAND_LEN
      && CommandCode(EncodeCommand([code])) == Some(code)
  {
    CommandRoundTrip(code);
  }

  // ---------------------------------------------------------------------------
  // _process_update

  /**
   * Data that fails the validity test takes the immediate-error path: the
   * panel state is untouched, the connection is marked bad, both timers are
   * cancelled and exactly one retry timer (delay 3) is left.
   */
  lemma InvalidInboundTakesErrorPath(s: Snapshot, data: seq<byte>)
    requires !IsValidInbound(data)
    ensures var t := ProcessUpdate(s, data);
      && t.armStatus == s.armStatus && t.alarming == s.alarming && t.count == s.count
      && t.socket == s.socket
      && !t.allGood
      && t.heartbeatTimer == None && t.timeoutTimer == Some(Timer(RetryAfterError, 3))
      && t.trace == s.trace + HealthNote(s.handlers, false) + TimeoutCancellation(s)
                    + HeartbeatCancellation(s) + [Started(RETRY)]
  {
  }

  /**
   * A heartbeat acknowledgement anywhere in accepted data cancels the pending
   * timeout timer and leaves exactly one liveness deadline of 9; the
   * heartbeat timer is untouched.
   */
  lemma HeartbeatAckRearmsDeadline(s: Snapshot, data: seq<byte>, j: nat)
    requires IsValidInbound(data) && OccursAt(data, HEARTBEAT_ACK, j)
    ensures var t := ProcessUpdate(s, data);
      && t.timeoutTimer == Some(Timer(LivenessDeadline, 9))
      && t.heartbeatTimer == s.heartbeatTimer
      && t.allGood == s.allGood && t.count == s.count && t.socket == s.socket
      && s.trace + TimeoutCancellation(s) + [Started(LIVENESS)] <= t.trace
  {
    assert ContainsSubseq(data, HEARTBEAT_ACK);
  }

  /** Accepted data with no acknowledgement in it leaves both timers alone. */
  lemma NoAckKeepsTimers(s: Snapshot, data: seq<byte>)
    requires IsValidInbound(data) && forall j: nat :: !OccursAt(data, HEARTBEAT_ACK, j)
    ensures var t := ProcessUpdate(s, data);
      t.timeoutTimer == s.timeoutTimer && t.heartbeatTimer == s.heartbeatTimer
  {
  }

  /** Accepted data that is not a 182-byte status frame changes no panel state. */
  lemma OnlyStatusFramesChangePanelState(s: Snapshot, data: seq<byte>)
    requires IsValidInbound(data) && |data| != STATUS_LEN
    ensures var t := ProcessUpdate(s, data);
      && t.armStatus == s.armStatus && t.alarming == s.alarming
      && t.allGood == s.allGood && t.count == s.count && t.socket == s.socket
  {
  }

  /**
   * A status frame stores the decoded arm status; the status callback fires,
   * once and with the new value, exactly when it differs from the stored one.
   */
  lemma StatusFrameSetsArmStatus(s: Snapshot, data: seq<byte>)
    requires |data| == STATUS_LEN
    ensures var t := ProcessUpdate(s, data);
      var u := if ContainsSubseq(data, HEARTBEAT_ACK) then RescheduleReconnect(s) else s;
      var latest := DecodeArm(data);
      var flag := DecodeAlarming(data);
      && t.armStatus == Some(latest)
      && t.allGood == s.allGood && t.count == s.count && t.socket == s.socket
      && t.trace == u.trace
                    + (if Some(latest) != s.armStatus then StatusNote(s.handlers, latest) else [])
                    + (if AlarmChangeAccepted(s.alarming, flag, latest)
                       then AlarmNote(s.handlers, Some(flag), DecodeZone(data[ZONE_OFFSET])) else [])
  {
  }

  /**
   * The alarm flag changes exactly when the decoded flag differs from the
   * stored one and either no alarm is active or the frame reports DISARM;
   * it then takes the decoded value (true exactly when byte 181 is 0x01).
   */
  lemma AlarmGuard(s: Snapshot, data: seq<byte>)
    requires |data| == STATUS_LEN
    ensures var t := ProcessUpdate(s, data);
      var flag := data[ALARM_OFFSET] == 0x01;
      var accepted := Some(flag) != s.alarming && (s.alarming != Some(true) || data[ARM_OFFSET] / 16 == 1);
      && (t.alarming != s.alarming <==> accepted)
      && t.alarming == (if accepted then Some(flag) else s.alarming)
  {
  }

  /** Whatever arrives, an active alarm is not cleared unless a status frame reports DISARM. */
  lemma ActiveAlarmNotClearedWhileArmed(s: Snapshot, data: seq<byte>)
    requires s.alarming == Some(true)
    requires |data| != STATUS_LEN || data[ARM_OFFSET] / 16 != 1
    ensures ProcessUpdate(s, data).alarming == Some(true)
  {
  }

  // ---------------------------------------------------------------------------
  // _tear_down

  /**
   * After teardown the connection is bad, the counter is 0, the panel state is
   * None, the socket is closed and both timer slots are empty, whatever the
   * state before; the effects are the health and alarm callbacks (zone 0),
   * the close, and the cancellations.
   */
  lemma TearDownResets(s: Snapshot)
    ensures var t := TearDown(s);
      && !t.allGood && t.count == 0 && t.armStatus == None && t.alarming == None
      && t.socket == NoSocket && t.timeoutTimer == None && t.heartbeatTimer == None
      && t.trace == s.trace + HealthNote(s.handlers, false) + AlarmNote(s.handlers, None, 0)
                    + CloseNote(s) + TimeoutCancellation(s) + HeartbeatCancellation(s)
  {
  }

  /**
   * A second teardown leaves the same fields; it only fires the health and
   * alarm callbacks again, which the source calls unconditionally.
   */
  lemma TearDownIdempotent(s: Snapshot)
    ensures var t := TearDown(s);
      TearDown(t) == t.(trace := t.trace + HealthNote(s.handlers, false) + AlarmNote(s.handlers, None, 0))
  {
    TearDownResets(s);
    TearDownResets(TearDown(s));
  }

  /**
   * The corrected teardown differs from the source only on a socket in the
   * closed state (connect failed, peer reset or a failed write): on any other
   * socket the two agree exactly.
   */
  lemma TearDownAsWrittenAgrees(s: Snapshot)
    requires s.socket != Open(false)
    ensures TearDownAsWritten(s) == Attempt(TearDown(s), false)
  {
  }

  // ---------------------------------------------------------------------------
  // work: the connect sequence

  /**
   * A successful connect sends HANDSHAKE then BIND_ME before the connection
   * turns good, then leaves exactly one liveness deadline of 9 and a started
   * heartbeat ticker of period 4.
   */
  lemma ConnectSucceeds(s: Snapshot)
    ensures var a := Connect(s, Link(true, true, true));
      && !a.raised
      && a.state.allGood && a.state.socket == Open(true)
      && a.state.timeoutTimer == Some(Timer(LivenessDeadline, 9))
      && a.state.heartbeatTimer == Some(Timer(HeartbeatTicker, 4))
      && a.state.count == s.count && a.state.armStatus == s.armStatus && a.state.alarming == s.alarming
      && a.state.trace == s.trace + [Sent(HANDSHAKE), Sent(BIND_ME)] + HealthNote(s.handlers, true)
                          + TimeoutCancellation(s) + [Started(LIVENESS), Started(TICKER)]
  {
  }

  /**
   * A connect attempt that fails at any step leaves the connection bad, the
   * socket in the closed state, no heartbeat ticker, and exactly one retry
   * timer of 3; the frames sent are those before the failing step.
   */
  lemma ConnectFailureSchedulesRetry(s: Snapshot, link: Link)
    requires !(link.connects && link.handshakeSends && link.bindSends)
    ensures var a := Connect(s, link);
      var sent := if !link.connects || !link.handshakeSends then [] else [Sent(HANDSHAKE)];
      && a.raised && !a.state.allGood
      && a.state.socket == Open(false)
      && a.state.timeoutTimer == Some(Timer(RetryAfterError, 3)) && a.state.heartbeatTimer == None
      && a.state.trace == s.trace + sent + HealthNote(s.handlers, false)
                          + TimeoutCancellation(s) + HeartbeatCancellation(s) + [Started(RETRY)]
  {
  }

  // ---------------------------------------------------------------------------
  // _send_heartbeat

  /**
   * Each heartbeat counts exactly once and sends the 8-byte HEARTBEAT literal
   * when the write succeeds; a failed write leaves a connected socket closed.
   */
  lemma HeartbeatCounts(s: Snapshot, writeOk: bool)
    ensures var a := SendHeartbeat(s, writeOk);
      && a.state.count == s.count + 1
      && |HEARTBEAT| == HEARTBEAT_LEN
      && (a.raised <==> !(s.socket == Open(true) && writeOk))
      && a.state.trace == s.trace + (if a.raised then [] else [Sent(HEARTBEAT)])
      && a.state == s.(count := s.count + 1, trace := a.state.trace,
                       socket := if a.raised && s.socket == Open(true) then Open(false) else s.socket)
  {
  }

  // ---------------------------------------------------------------------------
  // The reconnect supervisor

  /** The timeout slot holds a reconnect timer that was started at or after trace position `mark`. */
  ghost predicate ReconnectPendingSince(t: Snapshot, mark: nat)
  {
    && t.timeoutTimer.Some?
    && t.timeoutTimer.value.kind != HeartbeatTicker
    && exists k :: mark <= k < |t.trace| && t.trace[k] == Started(t.timeoutTimer.value)
  }

  /** Processing a frame never loses a pending reconnect timer. */
  lemma ProcessUpdateKeepsPending(s: Snapshot, data: seq<byte>, mark: nat)
    requires ReconnectPendingSince(s, mark)
    ensures ReconnectPendingSince(ProcessUpdate(s, data), mark)
  {
    var t := ProcessUpdate(s, data);
    var k :| mark <= k < |s.trace| && s.trace[k] == Started(s.timeoutTimer.value);
    if t.timeoutTimer == s.timeoutTimer {
      assert t.trace[k] == s.trace[k];
    } else if !IsValidInbound(data) {
      assert t.trace[|t.trace| - 1] == Started(RETRY);
    } else {
      var u := RescheduleReconnect(s);
      assert u.trace[|u.trace| - 1] == Started(LIVENESS);
      assert t.trace[|u.trace| - 1] == u.trace[|u.trace| - 1];
    }
  }

  /** The receive loop never loses a pending reconnect timer, however many frames it handles. */
  lemma {:induction false} ReceiveLoopKeepsPending(s: Snapshot, inputs: seq<Input>, mark: nat)
    requires ReconnectPendingSince(s, mark)
    ensures ReconnectPendingSince(ReceiveLoop(s, inputs), mark)
    decreases |inputs|
  {
    if s.allGood && inputs != [] {
      match inputs[0]
      case Silence =>
      case RecvFailure(reset) =>
        var t := RescheduleReconnectAsap(if reset then s.(socket := Open(false)) else s);
        assert t.trace[|t.trace| - 1] == Started(RETRY);
      case Received(data) =>
        ProcessUpdateKeepsPending(s, data, mark);
        ReceiveLoopKeepsPending(ProcessUpdate(s, data), inputs[1..], mark);
    }
  }

  /** Every connect attempt, failed or not, starts a reconnect timer. */
  lemma ConnectLeavesPending(s: Snapshot, link: Link)
    ensures ReconnectPendingSince(Connect(s, link).state, |s.trace|)
  {
    var a := Connect(s, link);
    if a.raised {
      assert a.state.trace[|a.state.trace| - 1] == Started(RETRY);
    } else {
      ConnectSucceeds(s);
      assert a.state.trace[|a.state.trace| - 2] == Started(LIVENESS);
    }
  }

  /**
   * Reconnection is unconditional: whatever the state and whatever the link
   * and the inputs do, `_reconnect` ends with a reconnect timer pending that
   * it started itself, so another attempt always follows.
   */
  lemma ReconnectAlwaysRearms(s: Snapshot, link: Link, inputs: seq<Input>)
    ensures ReconnectPendingSince(Reconnect(s, link, inputs), |s.trace|)
  {
    var td := TearDown(s);
    var c := Connect(td, link);
    ConnectLeavesPending(td, link);
    if !c.raised {
      ReceiveLoopKeepsPending(c.state, inputs, |td.trace|);
    }
    var t := Reconnect(s, link, inputs);
    var k :| |td.trace| <= k < |t.trace| && t.trace[k] == Started(t.timeoutTimer.value);
  }

  /**
   * The source as written: after a failed connect, the retry timer's
   * `_reconnect` raises inside teardown (shutdown of a socket that never
   * connected), `work` never runs, and no timer is started again: the
   * supervisor stops retrying.
   */
  lemma FailedConnectStopsRetrying(h: Handlers, link: Link, inputs: seq<Input>)
    ensures var s0 := Connect(Initial(h), Link(false, false, false)).state;
      var a := ReconnectAsWritten(s0, link, inputs);
      && s0.timeoutTimer == Some(RETRY) && s0.socket == Open(false)
      && a.raised
      && a.state.trace == s0.trace + HealthNote(h, false) + AlarmNote(h, None, 0)
      && a.state.timeoutTimer == s0.timeoutTimer && a.state.heartbeatTimer == None
      && !ReconnectPendingSince(a.state, |s0.trace|)
  {
  }

  /**
   * The source as written, second path: the peer resets a live session, the
   * receive failure schedules a retry, and that retry's `_reconnect` raises
   * inside teardown (shutdown of a reset socket), so again `work` never runs
   * and no timer is started: the supervisor stops retrying.
   */
  lemma PeerResetStopsRetrying(s: Snapshot, link: Link, inputs: seq<Input>)
    requires s.allGood && s.socket == Open(true)
    ensures var t := ReceiveLoop(s, [RecvFailure(true)]);
      var a := ReconnectAsWritten(t, link, inputs);
      && t.timeoutTimer == Some(RETRY) && t.socket == Open(false)
      && a.raised
      && a.state.trace == t.trace + HealthNote(s.handlers, false) + AlarmNote(s.handlers, None, 0)
      && a.state.timeoutTimer == t.timeoutTimer && a.state.heartbeatTimer == None
      && !ReconnectPendingSince(a.state, |t.trace|)
  {
  }

  /**
   * The source as written, third path: the TCP connect succeeds but the
   * HANDSHAKE or BIND_ME write fails, which leaves the socket closed; the
   * retry's `_reconnect` then raises inside teardown, and the supervisor
   * stops retrying.
   */
  lemma FailedWriteStopsRetrying(h: Handlers, first: Link, link: Link, inputs: seq<Input>)
    requires first.connects && !(first.handshakeSends && first.bindSends)
    ensures var s0 := Connect(Initial(h), first).state;
      var a := ReconnectAsWritten(s0, link, inputs);
      && s0.timeoutTimer == Some(RETRY) && s0.socket == Open(false)
      && a.raised
      && a.state.trace == s0.trace + HealthNote(h, false) + AlarmNote(h, None, 0)
      && a.state.timeoutTimer == s0.timeoutTimer && a.state.heartbeatTimer == None
      && !ReconnectPendingSince(a.state, |s0.trace|)
  {
  }
}
