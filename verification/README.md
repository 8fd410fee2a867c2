# FortressConnection in Dafny

This project models the connection engine of `FortressConnection`, a client for the Fortress
Security "total wifi" alarm panel. The engine keeps one TCP session to the panel open. It
sends the handshake and bind frames, then a heartbeat every 4 seconds. It decodes the
panel's 182-byte status frames into an arm status, an alarm flag and an alarm zone, and
notifies the host through three callbacks. A failed connect, refused inbound data and a
failed receive schedule a reconnect after 3 seconds; a missing heartbeat acknowledgement
lets the 9-second liveness timer fire a reconnect. Each reconnect tears the session down
first. A failed `sendCommand` or heartbeat write does not reconnect by itself, and
teardown as written can stop the retries altogether (see Findings).

The project has four modules:

- `FortressFrames` (`frames.dfy`) covers the wire format. It holds the frame literals, the
  command frame, and the decoding of inbound data: the validity test, the search for the
  heartbeat acknowledgement, and the arm, alarm and zone fields. It also models Python's
  `bytes(chr(b), 'utf-8')` (`ToBinChar`) and `int.from_bytes(..., 'big')`, because the
  source sends every decoded field through them.
- `FortressSession` (`session.dfy`) describes the connection's state as a value (`Snapshot`)
  and gives every handler as a pure transition on it. Sockets and timers are abstract:
  - a socket is `NoSocket` or `Open(connected)`, where `connected` is false for a socket
    in the closed TCP state: its connect failed, the peer reset it, or a write on it failed
    (a failed `send` on a connected socket means a reset or a timeout);
  - a timer is what its slot holds (kind and delay).

  Everything the connection does to the outside world goes into one ordered trace: a frame
  sent, a callback fired, a timer started or cancelled, the socket closed.
- `SessionProperties` (`properties.dfy`) holds the lemmas: what the handlers promise, alone
  and in combination.
- `Connection` (`connection.dfy`) holds the class `FortressConnection`. Its fields are the
  instance attributes the Python handlers update in place, and each method is one handler
  written imperatively. Each method is proved to change the object exactly as the matching
  `FortressSession` transition does, so every lemma applies to the object.

The outside world becomes parameters:
- whether a write succeeds (`writeOk`);
- how a connect attempt goes (`Link`: connect, handshake write, bind write);
- what the receive loop observes (`Input`: data, a `select` timeout, or a failure, which
  may be a reset by the peer).

Details of the code that the model keeps:
- The alarm guard accepts a change when the stored flag is *not* true (None or False) or
  the frame reports DISARM.
- `_set_all_good` fires the health callback on every call, not only on a change.
- `_tear_down` always calls `_set_alarming(None)`, which fires the alarm callback. A second
  teardown therefore fires both callbacks again, although it changes no field
  (`TearDownIdempotent`).
- `sendCommand` does not catch a failed write; the failure goes back to the caller.
- `work` replaces `heartbeat_timer` without cancelling a previous one.

## Model

| member | source | states |
|---|---|---|
| FortressFrames.EncodeCommand | FortressConnection.py:86-87 | the command frame is the 13-byte COMMAND header unchanged, then the code, then 78 zero bytes; 92 bytes for a one-byte code |
| FortressFrames.CommandRoundTrip | FortressConnection.py:86-87 | the code of a one-byte command can be read back from its frame, so encoding loses nothing |
| FortressFrames.CommandCodeExact | FortressConnection.py:86-87 | a 92-byte frame reads as code c exactly when it is the encoding of c |
| FortressFrames.ToBinChar | FortressConnection.py:44-45 | `_to_bin_char` of a byte is one byte exactly below 0x80 and two bytes otherwise |
| FortressFrames.ToBinCharRoundTrip | FortressConnection.py:44-45 | `_to_bin_char` of a byte is a UTF-8 sequence that decodes back to that byte |
| FortressFrames.ToBinCharInjective | FortressConnection.py:44-45 | `_to_bin_char` is injective, so the byte comparisons on its results compare the code points |
| FortressFrames.FromBytesBigEndian | FortressConnection.py:175 | the big-endian value of n bytes is below 256^n |
| FortressFrames.Find | FortressConnection.py:169 | `bytes.find` gives the first offset where the pattern occurs, or -1 exactly when it occurs nowhere |
| FortressFrames.ContainsSubseq | FortressConnection.py:169 | true exactly when the acknowledgement occurs as a contiguous run at some offset of the data |
| FortressFrames.IsValidInbound | FortressConnection.py:164 | empty data is refused; data is accepted exactly when it is 182 bytes, 8 bytes, or exactly CONNECTION_IS_BOUND, so accepted data has length 8, 9 or 182 |
| FortressFrames.StatusAndOutlets | FortressConnection.py:175 | bytes 10 to 12 read as a 24-bit big-endian value below 2^24 |
| FortressFrames.ArmNibble | FortressConnection.py:182 | `>> 20 << 4` of the 24-bit field is byte 10 with its low nibble cleared (`d[10] & 0xF0`) |
| FortressFrames.DecodeArm | FortressConnection.py:173-182 | the decoded status equals DISARM, ARM or STAY_ARM exactly when the top nibble of byte 10 is 1, 0 or 2 |
| FortressFrames.ArmIgnoresOutletBits | FortressConnection.py:175-182 | two status frames that agree on byte 10 decode to the same arm status, whatever their outlet bits |
| FortressFrames.DecodeAlarming | FortressConnection.py:174 | the alarm flag is true exactly when byte 181 is 0x01 |
| FortressFrames.DecodeZone | FortressConnection.py:183 | the zone is the byte below 0x80, 0xC200 + b for 0x80..0xBF, and 0xC300 + (b - 0x40) for 0xC0..0xFF |
| FortressSession.ProcessUpdate | FortressConnection.py:163-189 | processing data never retracts an effect, and a pending timeout timer stays pending |
| FortressSession.TearDown | FortressConnection.py:220-230 | the corrected teardown (socket closed whatever state it is in); it never retracts an effect |
| SessionProperties.TearDownAsWrittenAgrees | FortressConnection.py:220-230 | on a socket that is absent, or connected and not since closed, the teardown as written does not raise and gives exactly the corrected teardown's state |
| FortressSession.ReceiveLoop | FortressConnection.py:105-124 | the receive loop never retracts an effect, does nothing on a connection that is already bad, and never loses a pending timeout timer |
| FortressSession.TearDownAsWritten | FortressConnection.py:220-230 | teardown as written raises exactly when the socket is unconnected (connect failed, peer reset or a failed write), and then leaves the socket and both timer slots as they were |
| FortressSession.ReconnectAsWritten | FortressConnection.py:232-235 | `_reconnect` over the teardown as written raises exactly when the socket is unconnected, and then `work` does not run: socket and timer slots stay as they were |
| SessionProperties.CommandFrameSent | FortressConnection.py:86-87 | on a connected socket with a good write, exactly the 92-byte command frame is sent; otherwise it raises, a connected socket is left closed, and nothing else changes |
| SessionProperties.InvalidInboundTakesErrorPath | FortressConnection.py:164-168 | refused data leaves arm status, alarm flag, counter and socket unchanged; it sets the connection bad, cancels both timers and leaves exactly one retry timer of delay 3 |
| SessionProperties.HeartbeatAckRearmsDeadline | FortressConnection.py:169-172 | an acknowledgement anywhere in accepted data cancels the pending timeout timer and leaves exactly one liveness timer of delay 9; the heartbeat timer is untouched |
| SessionProperties.NoAckKeepsTimers | FortressConnection.py:169-189 | accepted data without an acknowledgement changes neither timer |
| SessionProperties.OnlyStatusFramesChangePanelState | FortressConnection.py:173 | accepted data other than a 182-byte frame changes neither the arm status nor the alarm flag |
| SessionProperties.StatusFrameSetsArmStatus | FortressConnection.py:184-185 | a status frame stores the decoded arm status; the status callback fires once with the new value exactly when it differs from the stored one |
| SessionProperties.AlarmGuard | FortressConnection.py:186-189 | the alarm flag changes exactly when the decoded flag differs and either no alarm is active or byte 10 reports DISARM; it then takes the decoded value |
| SessionProperties.ActiveAlarmNotClearedWhileArmed | FortressConnection.py:186-189 | an active alarm stays active for any data unless a status frame reports DISARM |
| SessionProperties.TearDownResets | FortressConnection.py:220-230 | after the corrected teardown: connection bad, counter 0, arm status and alarm flag None, socket closed, both timer slots empty; the effects are the health callback, the alarm callback with zone 0, the close and the cancellations |
| SessionProperties.TearDownIdempotent | FortressConnection.py:220-230 | a second corrected teardown leaves every field as the first did and only fires the two callbacks again |
| SessionProperties.ConnectSucceeds | FortressConnection.py:90-99 | a successful connect sends HANDSHAKE then BIND_ME before the connection turns good, then starts exactly one liveness timer of 9 and a heartbeat timer of 4 |
| SessionProperties.ConnectFailureSchedulesRetry | FortressConnection.py:90-104 | a connect that fails at any step leaves the connection bad, the socket closed, no heartbeat timer, exactly one retry timer of 3, and only the frames written before the failing step |
| SessionProperties.HeartbeatCounts | FortressConnection.py:157-158 | each heartbeat adds exactly 1 to the counter and sends the 8-byte HEARTBEAT literal when the write succeeds; a failed write leaves a connected socket closed; nothing else changes |
| SessionProperties.ProcessUpdateKeepsPending | FortressConnection.py:163-189 | handling any data keeps a reconnect timer pending |
| SessionProperties.ReceiveLoopKeepsPending | FortressConnection.py:105-124 | the receive loop keeps a reconnect timer pending, whatever it receives |
| SessionProperties.ConnectLeavesPending | FortressConnection.py:90-104 | every connect attempt, failed or not, starts a reconnect timer |
| SessionProperties.ReconnectAlwaysRearms | FortressConnection.py:232-235 | with the corrected teardown, every `_reconnect` ends with a reconnect timer it started itself, so retries never stop |
| SessionProperties.FailedConnectStopsRetrying | FortressConnection.py:91-92 | as written, the `_reconnect` after a failed connect raises in teardown and starts no timer, so retries stop |
| SessionProperties.PeerResetStopsRetrying | FortressConnection.py:105-124 | as written, after the peer resets a live session, the receive failure schedules a retry whose `_reconnect` raises in teardown and starts no timer, so retries stop |
| SessionProperties.FailedWriteStopsRetrying | FortressConnection.py:92-94 | as written, when the TCP connect succeeds but the HANDSHAKE or BIND_ME write fails, the retry's `_reconnect` raises in teardown and starts no timer, so retries stop |
| Connection.FortressConnection.constructor | FortressConnection.py:52-62 | a new connection is bad, count 0, no status, no alarm, no socket, no timers |
| Connection.FortressConnection.SendToSocket | FortressConnection.py:160-161 | the frame is appended to the trace when the socket is connected and the write succeeds; otherwise it raises and a connected socket is left closed |
| Connection.FortressConnection.SendCommand | FortressConnection.py:86-87 | transmits the command frame for the code, as `FortressSession.SendCommand` |
| Connection.FortressConnection.SetAllGood | FortressConnection.py:126-129 | stores the flag and fires the health callback (if registered) on every call |
| Connection.FortressConnection.ClearTimers | FortressConnection.py:212-218 | cancels whatever each slot holds and empties both slots |
| Connection.FortressConnection.RescheduleReconnectAsap | FortressConnection.py:131-139 | sets the connection bad, clears both timers and starts one retry timer of 3 |
| Connection.FortressConnection.RescheduleReconnect | FortressConnection.py:141-146 | cancels any pending timeout timer and starts one liveness timer of 9 |
| Connection.FortressConnection.SendHeartbeat | FortressConnection.py:157-158 | adds 1 to the counter, then sends HEARTBEAT |
| Connection.FortressConnection.SetArmStatus | FortressConnection.py:201-210 | stores the status and fires the status callback (if registered) |
| Connection.FortressConnection.SetAlarming | FortressConnection.py:191-199 | stores the flag and fires the alarm callback (if registered) with the zone as a big-endian integer |
| Connection.FortressConnection.ProcessUpdate | FortressConnection.py:163-189 | changes the object exactly as `FortressSession.ProcessUpdate`, so the lemmas above on the error path, acknowledgement, status and alarm guard hold of it |
| Connection.FortressConnection.TearDown | FortressConnection.py:220-230 | changes the object as the corrected `FortressSession.TearDown` (see Findings) |
| Connection.FortressConnection.Connect | FortressConnection.py:90-104 | the `try` block of `work`: creates the socket, connects, sends HANDSHAKE and BIND_ME, turns good, arms the deadline, starts the heartbeat; any failure takes the error path |
| Connection.FortressConnection.Work | FortressConnection.py:89-124 | connect, then process inputs while the connection is good; stops on a `select` timeout, and takes the error path on a receive failure, marking the socket unconnected when the peer reset it |
| Connection.FortressConnection.Reconnect | FortressConnection.py:232-235 | the corrected teardown, then `work` |

## Left out

- Sockets are a connected/unconnected flag and writes are a parameter. `select`'s 9-second
  wait and `recv(1024)` are left out: each received buffer is given as one input, so TCP
  splitting or coalescing of frames is not modelled.
- Threads and timer expiry are left out: `threading.Timer`, `RepeatingTimer`, and the
  concurrent `_reconnect` → `work` recursion. A timer is only what its slot holds. Firing is
  the caller invoking `Reconnect` or `SendHeartbeat`. `RepeatingTimer.py` is not part of
  this model.
- Connection.FortressConnection.Work: the receive loop also stops when the given inputs run
  out. The real loop blocks for more data at that point.
- Logging (`LoggerMixin`, `_info`, `_debug`) and the console output of `_send_heartbeat` and
  of the acknowledgement are left out. This includes the 900 and 10 modulus checkpoints,
  which only print.
- `KeyboardInterrupt`, `SystemExit` and `sys.exit` in the receive loop are left out as
  process control.
- The callback setters and the accessors `isAllGood`, `getStatus` and `isAlarming` are not
  modelled as members. The registered callbacks are fixed when the object is constructed.
  A callback that raises is not modelled.
- The 20 outlet bits of bytes 10 to 12 are never decoded by the source. The model only
  proves that they do not affect the arm status.
- SessionProperties.HeartbeatCounts: a failed heartbeat write raises into `RepeatingTimer`,
  whose behaviour is not modelled. The lemma stops at the raise: the counter has already
  been incremented, no frame is sent and a connected socket is left closed.

## Findings

| source | as written | input that shows it | evidently intended | confidence | as-written member | corrected member |
|---|---|---|---|---|---|---|
| FortressConnection.py:220-230 | `work` assigns the new socket before `connect` (lines 91-92). When `connect` fails, the except branch keeps that unconnected socket. The retry timer's `_reconnect` then calls `_tear_down`, which calls `shutdown(SHUT_WR)` on it. On Linux this raises ENOTCONN, so `_clear_timers` and `work` never run and no timer is started again. A peer reset of a live session (`recv` raising at line 112, caught at lines 120-124), or a failed HANDSHAKE or BIND_ME write after a successful connect (lines 93-94), leaves the socket in the same closed state and ends the same way | the panel refuses or drops the first TCP connect (`Link(false, _, _)` from a new object), drops it during the handshake (`Link(true, false, _)` or `Link(true, true, false)`), or resets a live session (`RecvFailure(true)`) | teardown closes any socket, connected or not, and reconnection continues forever | medium, not executed; relies on `shutdown` of a TCP socket in the closed state (never connected, reset, or after a failed write) failing with ENOTCONN | FortressSession.TearDownAsWritten, SessionProperties.FailedConnectStopsRetrying, SessionProperties.PeerResetStopsRetrying, SessionProperties.FailedWriteStopsRetrying | FortressSession.TearDown, SessionProperties.ReconnectAlwaysRearms |
