/**
 * The connection object itself: its fields are the instance attributes the
 * Python handlers update in place, and each method is one handler. Every
 * method is proved to move the object's state exactly as the matching
 * transition of FortressSession does, so the lemmas of SessionProperties
 * apply to it.
 */
module Connection {

  import opened Wrappers
  import opened FortressFrames
  import opened FortressSession

  class FortressConnection {
    var allGood: bool
    var count: nat
    var armStatus: Option<seq<byte>>
    var alarming: Option<bool>
    var socket: Socket
    var timeoutTimer: Option<Timer>
    var heartbeatTimer: Option<Timer>
    var onErrorChange: bool
    var onStatusChange: bool
    var onAlarmChange: bool
    /** Everything done to the outside world, in order. */
    var trace: seq<Effect>

    /** The object's state as a value. */
    function Model(): Snapshot
      reads this
    {
      Snapshot(allGood, count, armStatus, alarming, socket, timeoutTimer, heartbeatTimer,
               Handlers(onErrorChange, onStatusChange, onAlarmChange), trace)
    }

    /** `__init__`, with the callbacks the host registers given up front. */
    constructor (handlers: Handlers)
      ensures Model() == Initial(handlers)
    {
      allGood, count, armStatus, alarming := false, 0, None, None;
      socket, timeoutTimer, heartbeatTimer := NoSocket, None, None;
      onErrorChange := handlers.onErrorChange;
      onStatusChange := handlers.onStatusChange;
      onAlarmChange := handlers.onAlarmChange;
      trace := [];
    }

    method SendToSocket(frame: seq<byte>, writeOk: bool) returns (raised: bool)
      modifies this
      ensures var a := Transmit(old(Model()), frame, writeOk);
        Model() == a.state && raised == a.raised
    {
      raised := !(socket == Open(true) && writeOk);
      if !raised {
        trace := trace + [Sent(frame)];
      } else if socket == Open(true) {
        socket := Open(false);
      }
    }

    method SendCommand(code: seq<byte>, writeOk: bool) returns (raised: bool)
      modifies this
      ensures var a := FortressSession.SendCommand(old(Model()), code, writeOk);
        Model() == a.state && raised == a.raised
    {
      raised := SendToSocket(EncodeCommand(code), writeOk);
    }

    method SetAllGood(good: bool)
      modifies this
      ensures Model() == FortressSession.SetAllGood(old(Model()), good)
    {
      allGood := good;
      if onErrorChange {
        trace := trace + [Notified(HealthChanged(allGood))];
      }
    }

    method ClearTimers()
      modifies this
      ensures Model() == FortressSession.ClearTimers(old(Model()))
    {
      if timeoutTimer.Some? {
        trace := trace + [Cancelled(timeoutTimer.value)];
        timeoutTimer := None;
      }
      if heartbeatTimer.Some? {
        trace := trace + [Cancelled(heartbeatTimer.value)];
        heartbeatTimer := None;
      }
    }

    method RescheduleReconnectAsap()
      modifies this
      ensures Model() == FortressSession.RescheduleReconnectAsap(old(Model()))
    {
      SetAllGood(false);
      ClearTimers();
      timeoutTimer := Some(Timer(RetryAfterError, RETRY_AFTER_ERROR));
      trace := trace + [Started(timeoutTimer.value)];
    }

    method RescheduleReconnect()
      modifies this
      ensures Model() == FortressSession.RescheduleReconnect(old(Model()))
    {
      if timeoutTimer.Some? {
        trace := trace + [Cancelled(timeoutTimer.value)];
        timeoutTimer := None;
      }
      timeoutTimer := Some(Timer(LivenessDeadline, TIMEOUT_AFTER));
      trace := trace + [Started(timeoutTimer.value)];
    }

    method SendHeartbeat(writeOk: bool) returns (raised: bool)
      modifies this
      ensures var a := FortressSession.SendHeartbeat(old(Model()), writeOk);
        Model() == a.state && raised == a.raised
    {
      count := count + 1;
      raised := SendToSocket(HEARTBEAT, writeOk);
    }

    method SetArmStatus(status: seq<byte>)
      modifies this
      ensures Model() == FortressSession.SetArmStatus(old(Model()), status)
    {
      armStatus := Some(status);
      if onStatusChange {
        trace := trace + [Notified(StatusChanged(status))];
      }
    }

    method SetAlarming(now: Option<bool>, zone: seq<byte>)
      modifies this
      ensures Model() == FortressSession.SetAlarming(old(Model()), now, zone)
    {
      var zoneNumber := FromBytesBigEndian(zone);
      alarming := now;
      if onAlarmChange {
        trace := trace + [Notified(AlarmChanged(alarming, zoneNumber))];
      }
    }

    method ProcessUpdate(data: seq<byte>)
      modifies this
      ensures Model() == FortressSession.ProcessUpdate(old(Model()), data)
    {
      if !IsValidInbound(data) {
        RescheduleReconnectAsap();
        return;
      }
      if ContainsSubseq(data, HEARTBEAT_ACK) {
        RescheduleReconnect();
      }
      if |data| == STATUS_LEN {
        var nowAlarming := DecodeAlarming(data);
        var latest := DecodeArm(data);
        var zone := ToBinChar(data[ZONE_OFFSET]);
        if Some(latest) != armStatus {
          SetArmStatus(latest);
        }
        if Some(nowAlarming) != alarming {
          if alarming != Some(true) || latest == DISARM {
            SetAlarming(Some(nowAlarming), zone);
          }
        }
      }
    }

    method TearDown()
      modifies this
      ensures Model() == FortressSession.TearDown(old(Model()))
    {
      SetAllGood(false);
      count := 0;
      armStatus := None;
      SetAlarming(None, [0x00]);
      if socket.Open? {
        socket := NoSocket;
        trace := trace + [SocketClosed];
      }
      ClearTimers();
    }

    /** The `try` block of `work`; `raised` tells whether it ended in its `except` branch. */
    method Connect(link: Link) returns (raised: bool)
      modifies this
      ensures var a := FortressSession.Connect(old(Model()), link);
        Model() == a.state && raised == a.raised
    {
      socket := Open(false);
      if !link.connects {
        RescheduleReconnectAsap();
        return true;
      }
      socket := Open(true);
      raised := SendToSocket(HANDSHAKE, link.handshakeSends);
      if raised {
        RescheduleReconnectAsap();
        return;
      }
      raised := SendToSocket(BIND_ME, link.bindSends);
      if raised {
        RescheduleReconnectAsap();
        return;
      }
      SetAllGood(true);
      RescheduleReconnect();
      heartbeatTimer := Some(Timer(HeartbeatTicker, HEARTBEAT_INTERVAL));
      trace := trace + [Started(heartbeatTimer.value)];
    }

    /** `work`: connect, then receive and process data while the connection is good. */
    method Work(link: Link, inputs: seq<Input>)
      modifies this
      ensures Model() == FortressSession.Work(old(Model()), link, inputs)
    {
      var raised := Connect(link);
      if raised {
        return;
      }
      ghost var connected := Model();
      var i := 0;
      while allGood && i < |inputs|
        invariant 0 <= i <= |inputs|
        invariant ReceiveLoop(Model(), inputs[i..]) == ReceiveLoop(connected, inputs)
        decreases |inputs| - i
      {
        assert inputs[i..][0] == inputs[i] && inputs[i..][1..] == inputs[i + 1..];
        match inputs[i]
        case Silence =>
          return;
        case RecvFailure(reset) =>
          if reset {
            socket := Open(false);
          }
          RescheduleReconnectAsap();
          return;
        case Received(data) =>
          ProcessUpdate(data);
          i := i + 1;
      }
    }

    /** `_reconnect`: tear everything down, then run `work` again. */
    method Reconnect(link: Link, inputs: seq<Input>)
      modifies this
      ensures Model() == FortressSession.Reconnect(old(Model()), link, inputs)
    {
      TearDown();
      Work(link, inputs);
    }
  }
}
