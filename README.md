# RCCar command interpreter in Dafny

This project models the command interpreter of an NXT remote-control car
(leJOS). A phone or PC connects over Bluetooth and sends commands; the car
reads each one and drives a `DifferentialPilot`. The repository holds two
revisions of the interpreter:

- `RCCarEngine` is the later one. Its methods return a success flag.
- `CarConnector` is the earlier one. Its `closeConnection`, `waitForAndHandleCommand` and `handleCommand` return nothing and end early on failure.

Both are small sequential state machines with three parts:

- **Connection lifecycle.** `useConnection` rejects a second connection. It
  sets `_connected` only after the device lookup and the stream open both
  succeed. `closeConnection` clears `_connected` only after both closes succeed.
- **Wire decoder.** One command byte is read with `readByte`. `FORWARD` (1),
  `BACKWARD` (2) and `STEER` (8) are followed by a 4-byte big-endian
  two's-complement `int` read with `readInt`. `STOP` (4) has no payload.
  Any other byte is unrecognised.
- **Motion dispatch.** The byte `_moving` remembers the last direction or
  stop. `forward()`/`backward()` is issued only when the direction changes.
  A speed is applied only when it is not negative. Steering uses a turn rate
  of -50 for a positive angle and +50 otherwise, with angle `Math.abs(angle)`.

## Layout

- `java_io.dfy` (module `JavaIO`): Java's `byte` and `int`, and `Math.abs`
  with its `Integer.MIN_VALUE` case. It also models `DataInputStream`
  `readByte`/`readInt` over a stream value (bytes sent, read cursor, closed
  flag). The `writeInt` encoding is the inverse of `readInt`, with round-trip
  lemmas in both directions.
- `lejos.dfy` (module `Lejos`): the pilot as a class that records every call
  in `trace`, and a Bluetooth connection as the bytes its peer sends.
- `protocol.dfy` (module `Protocol`): the command constants. It holds the
  reference functions `HandleCommand` (one `handleCommand` call) and
  `NextCommand` (read a command byte, then handle it), and the lemmas about
  them. `EncodeCommand` is what a remote control writes with
  `DataOutputStream`. It is the encoding the decoder is proved against.
- `rc_car_engine.dfy` and `car_connector.dfy`: the two classes. They have the
  source's fields and methods, and each is proved against the `Protocol`
  functions. The object invariant `Valid()` says `_moving` is always one of
  the three `MOVING_*` values. For `RCCarEngine` it also says a connection is
  held exactly while connected.

Modelling choices:

- Bluetooth calls that can throw `IOException` become boolean parameters
  (true: the call returned; false: it threw). These calls are
  `RemoteDevice.getRemoteDevice`, `openDataInputStream` and the two `close`
  calls. The connection `Bluetooth.waitForConnection` accepts is a parameter too.
- A stream holds every byte the peer sends before it hangs up. Reading past
  the end raises `EOFException`. Reading a closed stream raises another
  `IOException`.

## Model

| member | source | states |
|---|---|---|
| `JavaIO.SignedByte` | RCCarEngine.java:110-112 | the command byte is the octet read as two's complement, negative exactly for octets of 0x80 and above |
| `JavaIO.Abs` | RCCarEngine.java:183 | `Math.abs` gives the magnitude of every int except `Integer.MIN_VALUE`, which comes back unchanged; the result is negative only for that value |
| `JavaIO.FromBigEndian` | RCCarEngine.java:134 | `readInt` decodes four octets big-endian; the value is negative exactly when the first octet's top bit is set |
| `JavaIO.FromToBigEndian` | RCCarEngine.java:134 | decoding the `writeInt` encoding of any int yields that int |
| `JavaIO.ToFromBigEndian` | RCCarEngine.java:171 | every four octets are the `writeInt` encoding of what `readInt` decodes from them, so no two payloads decode alike |
| `JavaIO.ReadByte` | RCCarEngine.java:110-119 | `readByte` succeeds exactly when the stream is open and has a byte left; it then consumes exactly one byte; it raises EOF exactly when an open stream is exhausted; a failed read consumes nothing |
| `JavaIO.ReadInt` | RCCarEngine.java:132-138 | `readInt` succeeds exactly when the stream is open and has four bytes left; it then consumes exactly four, whose `writeInt` encoding is the value; a short stream raises EOF after consuming what was left, and a closed one fails without moving |
| `Protocol.TurnRate` | RCCarEngine.java:179-182 | the turn rate is ±50 and negative exactly when the angle is positive |
| `Protocol.HandleCommand` | RCCarEngine.java:126-203 | `_moving` stays one of the three values; it changes only by a successful FORWARD/BACKWARD/STOP and then becomes the command; a failed command makes no pilot call and keeps `_moving`; success iff the command is recognised and its payload, if any, reads; payload commands consume what `readInt` consumes, the others nothing |
| `Protocol.NextCommand` | RCCarEngine.java:102-124 | a successful command consumes exactly 1 byte (STOP) or 5 (the others); a failure makes no pilot call and keeps `_moving`; a closed or exhausted stream fails without consuming |
| `Protocol.Commands` | RCCarEngine.java:102-124 | over any number of successive calls `_moving` stays one of the three values; reads only move the cursor forward; on a closed stream every call fails with no pilot call |
| `Protocol.EncodedCommandsDecoded` | RCCarEngine.java:102-143 | a series of recognised commands written by a remote control is handled by as many successive calls; every call succeeds; together they consume exactly the bytes written |
| `Protocol.TravelSpeedAppliedIffNonNegative` | RCCarEngine.java:132-144 | FORWARD/BACKWARD with a readable payload succeeds; `setTravelSpeed(v)` is called iff the payload v is ≥ 0; no other speed is set |
| `Protocol.TravelTrace` | RCCarEngine.java:142-154 | FORWARD/BACKWARD with a readable payload v makes exactly these pilot calls in this order: `setTravelSpeed(v)` if v ≥ 0, then `forward()`/`backward()` matching the command if `_moving` differs from it, and nothing else |
| `Protocol.DirectionCallOnlyOnChange` | RCCarEngine.java:146-154 | a direction call happens iff `_moving` differs from the command; it matches the command; `_moving` ends as the command; `stop()` is not called |
| `Protocol.RepeatedDirectionIssuesNoDirectionCall` | RCCarEngine.java:146-154 | the same direction command handled twice in a row makes no direction call the second time |
| `Protocol.StopHandled` | RCCarEngine.java:159-163 | STOP always succeeds, reads nothing, calls exactly `stop()` once and sets `_moving` to `MOVING_STOPPED` |
| `Protocol.SteerHandled` | RCCarEngine.java:166-193 | STEER with a readable angle succeeds and consumes four bytes; it makes one `steer(rate, angle, false)` call with rate -50 iff the angle is positive and +50 iff not; the angle is the magnitude (for all but `Integer.MIN_VALUE`); `_moving` is unchanged |
| `Protocol.SteerMinValueAngleStaysNegative` | RCCarEngine.java:183 | whatever stream it is read from, the angle payload 0x80000000 reaches `steer` as the negative angle -2147483648 with rate +50 |
| `Protocol.MinValuePayloadRead` | RCCarEngine.java:171 | the octets 80 00 00 00 at any position of an open stream are read as `Integer.MIN_VALUE` |
| `Protocol.UnrecognisedCommandRejected` | RCCarEngine.java:195-198 | an unrecognised byte fails, reads no payload, makes no pilot call and keeps `_moving` |
| `Protocol.FailedPayloadRejected` | RCCarEngine.java:133-138 | a payload read that fails (EOF or other I/O error) fails the command with no pilot call and `_moving` unchanged |
| `Protocol.EncodedCommandDecoded` | RCCarEngine.java:110-143 | a recognised command written with `writeByte`/`writeInt` is decoded into that command and payload at any stream position, succeeds and consumes exactly its own bytes |
| `RCCarEngine.RCCarEngine.constructor` | RCCarEngine.java:18-28 | a new engine is disconnected, holds no connection, device or stream, and `_moving` is `MOVING_STOPPED` |
| `RCCarEngine.RCCarEngine.UseConnection` | RCCarEngine.java:59-81 | while connected it returns false and changes nothing; otherwise it succeeds iff lookup and open both succeed; `_connected` is set only then; on failure `_connection` and `_dataInStream` are null, and the device stays set if only the open failed |
| `RCCarEngine.RCCarEngine.WaitForConnection` | RCCarEngine.java:42-57 | returns null without waiting when connected; otherwise returns the accepted connection iff using it succeeded, with its device looked up when the lookup succeeded and its freshly opened stream installed exactly when it is returned |
| `RCCarEngine.RCCarEngine.CloseConnection` | RCCarEngine.java:83-100 | a no-op when not connected; `_connected` stays true if either close throws; on success `_connection` is null and `_connected` false; the stream is closed and the device cleared once the stream close succeeds |
| `RCCarEngine.RCCarEngine.WaitForAndHandleCommand` | RCCarEngine.java:102-124 | returns false and reads nothing when not connected; otherwise it does what `NextCommand` specifies and returns its success flag; the connection fields are untouched |
| `RCCarEngine.RCCarEngine.HandleCommand` | RCCarEngine.java:126-203 | new `_moving`, stream, result and the pilot calls appended are those of `Protocol.HandleCommand`; `Valid()` (so `_moving` in the three values) is kept |
| `RCCarEngine.ReconnectAfterClose` | RCCarEngine.java:59-100 | after a successful connect and a clean close, a new connection is accepted |
| `RCCarEngine.SecondConnectionRejected` | RCCarEngine.java:59-63 | a second connection is refused while the first is in use, and the first stream stays in place |
| `CarConnector.CarConnector.constructor` | CarConnector.java:19-29 | a new connector is disconnected, holds no connection, device or stream, and `_moving` is `MOVING_STOPPED` |
| `CarConnector.CarConnector.UseConnection` | CarConnector.java:52-76 | rejected while connected; otherwise succeeds iff lookup and open succeed, and `_connected` is set only then; `_connection` is never assigned |
| `CarConnector.CarConnector.WaitForConnection` | CarConnector.java:35-50 | returns null without waiting when connected; otherwise returns the accepted connection iff using it succeeded, with its device looked up when the lookup succeeded and its freshly opened stream installed exactly when it is returned |
| `CarConnector.CarConnector.CloseConnection` | CarConnector.java:78-94 | a no-op when not connected; `_connected` stays true if the stream close throws, and also when `_connection` is null or its close throws |
| `CarConnector.CarConnector.WaitForAndHandleCommand` | CarConnector.java:96-111 | reads nothing when not connected; otherwise does what `NextCommand` specifies, and a failed command-byte read dispatches nothing |
| `CarConnector.CarConnector.HandleCommand` | CarConnector.java:113-176 | new `_moving`, stream and pilot calls are those of `Protocol.HandleCommand`: the speed rule, the direction-only-on-change rule, STOP, the ±50 steer and the silent failures |
| `CarConnector.ReconnectAfterCloseRefused` | CarConnector.java:52-94 | as written, once connected the connector can never accept another connection, even after closing with both closes succeeding |

## Findings

| source | as written | input that shows it | evidently intended | confidence | as-written member | corrected member |
|---|---|---|---|---|---|---|
| CarConnector.java:52-94 | `useConnection` never assigns `_connection`. So `closeConnection` calls `close()` on null (line 87) after closing the stream and never clears `_connected`. | `useConnection(c)` with lookup and open succeeding, then `closeConnection()` with both closes succeeding, then `useConnection(c2)`: refused | store the connection in `useConnection` and clear it on close, as the later revision does (RCCarEngine.java:65, 93), so that a clean close disconnects | high; not executed | `CarConnector.ReconnectAfterCloseRefused` | `RCCarEngine.ReconnectAfterClose` |

## Left out

- `log`, `System.out` and `LCD` output: observational only.
- `CarConnector.UseConnection`: the call `_remoteDevice.getFriendlyName(false)` (CarConnector.java:70) only feeds the LCD and is not modelled.
- `getRemoteDevice()` (RCCarEngine.java:34-36) and `isConnected()`: plain field getters. The fields are part of the model's state, and `IsConnected` is a function without a contract.
- `CarConnector.CloseConnection`: the `NullPointerException` at CarConnector.java:87 is modelled as the method stopping there, with the fields as they are at that point. Its propagation to the caller is not modelled, because Java runtime exceptions are not part of this model.
- `HandleCommand` (both classes): requires a non-null stream for the commands that read a payload. Java would throw a `NullPointerException` instead.
- A null connection passed to `useConnection` is not modelled.
- I/O failures: a transport failure in the middle of a read is not modelled separately from end of stream. Every catch in these files handles both the same way, apart from the message logged.
- Blocking: a read waits until bytes arrive. The model's stream holds every byte the peer will send, so it never blocks.
- `DifferentialPilot` kinematics: turn-rate ratios and wheel geometry. The pilot is modelled only as the calls it receives. `setTravelSpeed` and `steer` take doubles; every Java int converts exactly, so the model records the ints.
- RCCar.java and BTCar.java: the `main` loops that wait for connections, poll buttons and build the pilot. They are I/O glue, and RCCar.java calls a constructor and a `close()` that the modelled RCCarEngine.java does not have.
