/** The wire protocol both revisions of the car's command interpreter
    implement, and the reference behaviour of one command: which bytes it
    consumes, which pilot calls it makes and what becomes of the `_moving`
    byte. `RCCarEngine` and `CarConnector` are proved against these functions. */
module Protocol {
  import opened JavaIO
  import opened Lejos

  const COMMAND_FORWARD: int8 := 1   // 1 << 0
  const COMMAND_BACKWARD: int8 := 2  // 1 << 1
  const COMMAND_STOP: int8 := 4      // 1 << 2
  const COMMAND_STEER: int8 := 8     // 1 << 3

  const MOVING_FORWARD: int8 := COMMAND_FORWARD
  const MOVING_BACKWARD: int8 := COMMAND_BACKWARD
  const MOVING_STOPPED: int8 := COMMAND_STOP

  /** Magnitude of the turn rate every steer command uses. */
  const TURN_RATE: int := 50

  /** The values `_moving` may hold. */
  predicate IsMoving(m: int8) {
    m == MOVING_FORWARD || m == MOVING_BACKWARD || m == MOVING_STOPPED
  }

  predicate IsCommand(c: int8) {
    c == COMMAND_FORWARD || c == COMMAND_BACKWARD || c == COMMAND_STOP || c == COMMAND_STEER
  }

  /** Commands followed by a 4-byte `int` payload (speed or angle). */
  predicate HasPayload(c: int8) {
    c == COMMAND_FORWARD || c == COMMAND_BACKWARD || c == COMMAND_STEER
  }

  /** Bytes a recognised command occupies on the wire, identifier included. */
  function WireSize(c: int8): nat {
    if HasPayload(c) then 5 else 1
  }

  /** The turn rate a steer command uses: a positive angle steers with the
      negative rate, zero or a negative angle with the positive one. */
  function TurnRate(angle: int32): (rate: int)
    ensures rate == TURN_RATE || rate == -TURN_RATE
    ensures rate < 0 <==> angle > 0
  {
    if angle > 0 then -TURN_RATE else TURN_RATE
  }

  /** The outcome of handling one command: the success flag `handleCommand`
      returns, the new `_moving`, the stream afterwards and the pilot calls made. */
  datatype Handled = Handled(ok: bool, moving: int8, stream: Option<DataInputStream>, calls: seq<PilotCall>)

  /** `handleCommand(command)` with `_moving == moving` and `_dataInStream ==
      stream`. The stream may be null only for commands that read nothing. */
  function HandleCommand(moving: int8, command: int8, stream: Option<DataInputStream>): (h: Handled)
    requires stream.Some? || !HasPayload(command)
    ensures IsMoving(moving) ==> IsMoving(h.moving)
    ensures h.moving != moving ==> h.ok && h.moving == command && command != COMMAND_STEER
    ensures !h.ok ==> h.moving == moving && h.calls == []
    ensures h.ok <==> IsCommand(command) && (HasPayload(command) ==> ReadInt(stream.value).result.Ok?)
    ensures HasPayload(command) ==> h.stream == Some(ReadInt(stream.value).rest)
    ensures !HasPayload(command) ==> h.stream == stream
  {
    if command == COMMAND_FORWARD || command == COMMAND_BACKWARD then
      var r := ReadInt(stream.value);
      if r.result.Err? then Handled(false, moving, Some(r.rest), [])
      else
        var speed := r.result.value;
        var speedCalls := if speed > -1 then [SetTravelSpeed(speed as int)] else [];
        var directionCalls :=
          if moving == command then []
          else if command == COMMAND_FORWARD then [Forward]
          else [Backward];
        Handled(true, command, Some(r.rest), speedCalls + directionCalls)
    else if command == COMMAND_STOP then
      Handled(true, command, stream, [Stop])
    else if command == COMMAND_STEER then
      var r := ReadInt(stream.value);
      if r.result.Err? then Handled(false, moving, Some(r.rest), [])
      else
        var angle := r.result.value;
        Handled(true, moving, Some(r.rest), [Steer(TurnRate(angle), Abs(angle) as int, false)])
    else
      Handled(false, moving, stream, [])
  }

  /** `waitForAndHandleCommand` on a live connection: read the command byte
      and, if that worked, handle it. */
  function NextCommand(moving: int8, stream: DataInputStream): (h: Handled)
    ensures IsMoving(moving) ==> IsMoving(h.moving)
    ensures !h.ok ==> h.moving == moving && h.calls == []
    ensures h.stream.Some? && h.stream.value.bytes == stream.bytes && h.stream.value.closed == stream.closed
    ensures stream.pos <= h.stream.value.pos
    ensures h.ok ==> stream.pos < |stream.bytes|
                     && h.stream.value.pos == stream.pos + WireSize(SignedByte(stream.bytes[stream.pos]))
    ensures stream.closed || stream.pos >= |stream.bytes| ==> !h.ok && h.stream == Some(stream)
  {
    var b := ReadByte(stream);
    if b.result.Err? then Handled(false, moving, Some(b.rest), [])
    else HandleCommand(moving, b.result.value, Some(b.rest))
  }

  /** `n` successive `waitForAndHandleCommand` calls on a live connection:
      the pilot calls of each in order, the final `_moving` and stream, and
      whether every call succeeded. A failed call does not stop the run. */
  function Commands(moving: int8, stream: DataInputStream, n: nat): (h: Handled)
    ensures IsMoving(moving) ==> IsMoving(h.moving)
    ensures h.stream.Some? && h.stream.value.bytes == stream.bytes && h.stream.value.closed == stream.closed
    ensures stream.pos <= h.stream.value.pos
    ensures stream.closed ==> h.calls == [] && h.moving == moving && (n > 0 ==> !h.ok)
    decreases n
  {
    if n == 0 then Handled(true, moving, Some(stream), [])
    else
      var first := NextCommand(moving, stream);
      var rest := Commands(first.moving, first.stream.value, n - 1);
      Handled(first.ok && rest.ok, rest.moving, rest.stream, first.calls + rest.calls)
  }

  /** FORWARD/BACKWARD: the speed is applied exactly when the payload is not
      negative, and then it is the payload; the command succeeds either way. */
  lemma TravelSpeedAppliedIffNonNegative(moving: int8, command: int8, s: DataInputStream)
    requires command == COMMAND_FORWARD || command == COMMAND_BACKWARD
    requires ReadInt(s).result.Ok?
    ensures var h := HandleCommand(moving, command, Some(s));
            var v := ReadInt(s).result.value;
            h.ok
            && (SetTravelSpeed(v as int) in h.calls <==> v >= 0)
            && (forall n :: SetTravelSpeed(n) in h.calls ==> n == v as int)
  {
  }

  /** FORWARD/BACKWARD: the whole pilot trace, in order: the speed (when not
      negative), then the direction call (when the direction changes), and
      nothing else. */
  lemma TravelTrace(moving: int8, command: int8, s: DataInputStream)
    requires command == COMMAND_FORWARD || command == COMMAND_BACKWARD
    requires ReadInt(s).result.Ok?
    ensures var h := HandleCommand(moving, command, Some(s));
            var v := ReadInt(s).result.value;
            h.calls == (if v >= 0 then [SetTravelSpeed(v as int)] else [])
                       + (if moving == command then [] else [if command == COMMAND_FORWARD then Forward else Backward])
  {
  }

  /** FORWARD/BACKWARD: `forward()`/`backward()` is called only when the
      direction changes, it matches the command, and `_moving` ends as the command. */
  lemma DirectionCallOnlyOnChange(moving: int8, command: int8, s: DataInputStream)
    requires command == COMMAND_FORWARD || command == COMMAND_BACKWARD
    requires ReadInt(s).result.Ok?
    ensures var h := HandleCommand(moving, command, Some(s));
            h.moving == command
            && (Forward in h.calls || Backward in h.calls <==> moving != command)
            && (Forward in h.calls ==> command == COMMAND_FORWARD)
            && (Backward in h.calls ==> command == COMMAND_BACKWARD)
            && Stop !in h.calls
  {
  }

  /** Handling the same direction twice in a row issues no second direction call. */
  lemma RepeatedDirectionIssuesNoDirectionCall(moving: int8, command: int8, s: DataInputStream)
    requires command == COMMAND_FORWARD || command == COMMAND_BACKWARD
    requires HandleCommand(moving, command, Some(s)).ok
    ensures var first := HandleCommand(moving, command, Some(s));
            var second := HandleCommand(first.moving, command, first.stream);
            Forward !in second.calls && Backward !in second.calls
  {
  }

  /** STOP: reads nothing, calls `stop()` once and nothing else, leaves the
      car marked stopped, and succeeds, whatever the prior state. */
  lemma StopHandled(moving: int8, stream: Option<DataInputStream>)
    ensures var h := HandleCommand(moving, COMMAND_STOP, stream);
            h.ok && h.calls == [Stop] && h.moving == MOVING_STOPPED && h.stream == stream
  {
  }

  /** STEER: one `steer(turnRate, |angle|, false)` call with the rate's sign
      opposite to the angle's, `_moving` untouched, four bytes consumed. */
  lemma SteerHandled(moving: int8, s: DataInputStream)
    requires ReadInt(s).result.Ok?
    ensures var h := HandleCommand(moving, COMMAND_STEER, Some(s));
            var angle := ReadInt(s).result.value;
            h.ok && h.moving == moving && h.stream == Some(s.(pos := s.pos + 4))
            && |h.calls| == 1 && h.calls[0].Steer?
            && (h.calls[0].turnRate == -TURN_RATE <==> angle > 0)
            && (h.calls[0].turnRate == TURN_RATE <==> angle <= 0)
            && (angle != INT_MIN ==> h.calls[0].angle == if angle < 0 then -(angle as int) else angle as int)
            && !h.calls[0].immediateReturn
  {
  }

  /** `Math.abs(Integer.MIN_VALUE)` stays negative, so an angle payload of
      0x80000000, wherever it is read, reaches `steer` as a negative angle. */
  lemma SteerMinValueAngleStaysNegative(moving: int8, s: DataInputStream)
    requires ReadInt(s).result == Ok(INT_MIN)
    ensures HandleCommand(moving, COMMAND_STEER, Some(s)).calls == [Steer(TURN_RATE, -0x8000_0000, false)]
  {
  }

  /** The octets 80 00 00 00 are the payload 0x80000000 at any position of an
      open stream. */
  lemma MinValuePayloadRead(s: DataInputStream)
    requires !s.closed && s.pos + 4 <= |s.bytes|
    requires s.bytes[s.pos..s.pos + 4] == [0x80, 0, 0, 0]
    ensures ReadInt(s).result == Ok(INT_MIN)
  {
    FromToBigEndian(INT_MIN);
    ToFromBigEndian(s.bytes[s.pos..s.pos + 4]);
  }

  /** An unrecognised command byte fails without reading, calling the pilot
      or touching `_moving`. */
  lemma UnrecognisedCommandRejected(moving: int8, command: int8, stream: Option<DataInputStream>)
    requires !IsCommand(command)
    ensures var h := HandleCommand(moving, command, stream);
            !h.ok && h.calls == [] && h.moving == moving && h.stream == stream
  {
  }

  /** A payload read that fails (EOF or an I/O error) fails the command
      before any pilot call, with `_moving` unchanged. */
  lemma FailedPayloadRejected(moving: int8, command: int8, s: DataInputStream)
    requires HasPayload(command)
    requires ReadInt(s).result.Err?
    ensures var h := HandleCommand(moving, command, Some(s));
            !h.ok && h.calls == [] && h.moving == moving
  {
  }

  /** The bytes a remote control writes for a command with `DataOutputStream`:
      `writeByte(command)` and, for commands that carry one, `writeInt(payload)`. */
  function EncodeCommand(command: int8, payload: int32): (b: seq<byte>)
    ensures |b| == WireSize(command)
  {
    [UnsignedByte(command)] + (if HasPayload(command) then ToBigEndian(payload) else [])
  }

  /** Whatever precedes and follows it, an encoded recognised command is
      decoded into that command and its payload, consumes exactly its own
      bytes and succeeds. */
  lemma {:induction false} EncodedCommandDecoded(moving: int8, command: int8, payload: int32, before: seq<byte>, after: seq<byte>)
    requires IsCommand(command)
    ensures var s := DataInputStream(before + EncodeCommand(command, payload) + after, |before|, false);
            var h := NextCommand(moving, s);
            var payloadStream := s.(pos := |before| + 1);
            h == HandleCommand(moving, command, Some(payloadStream))
            && (HasPayload(command) ==> ReadInt(payloadStream).result == Ok(payload))
            && h.ok && h.stream == Some(s.(pos := |before| + WireSize(command)))
  {
    var enc := EncodeCommand(command, payload);
    var bytes := before + enc + after;
    var s := DataInputStream(bytes, |before|, false);
    assert bytes[|before|] == enc[0] == UnsignedByte(command);
    assert ReadByte(s).result == Ok(command);
    if HasPayload(command) {
      var p := s.(pos := |before| + 1);
      assert bytes[p.pos..p.pos + 4] == ToBigEndian(payload) by {
        assert enc[1..] == ToBigEndian(payload);
      }
      FromToBigEndian(payload);
      assert ReadInt(p).result == Ok(payload);
    }
  }

  /** What a remote control writes for a series of (command, payload) pairs. */
  function EncodeCommands(cmds: seq<(int8, int32)>): (b: seq<byte>)
  {
    if cmds == [] then [] else EncodeCommand(cmds[0].0, cmds[0].1) + EncodeCommands(cmds[1..])
  }

  /** A series of recognised commands written by a remote control is handled
      by as many successive calls, every one succeeding, which together
      consume exactly the bytes written. */
  lemma {:induction false} EncodedCommandsDecoded(moving: int8, cmds: seq<(int8, int32)>, before: seq<byte>, after: seq<byte>)
    requires forall i :: 0 <= i < |cmds| ==> IsCommand(cmds[i].0)
    ensures var s := DataInputStream(before + EncodeCommands(cmds) + after, |before|, false);
            var h := Commands(moving, s, |cmds|);
            h.ok && h.stream == Some(s.(pos := |before| + |EncodeCommands(cmds)|))
    decreases |cmds|
  {
    var bytes := before + EncodeCommands(cmds) + after;
    var s := DataInputStream(bytes, |before|, false);
    if cmds != [] {
      var (command, payload) := cmds[0];
      var enc := EncodeCommand(command, payload);
      var tail := EncodeCommands(cmds[1..]);
      assert bytes == before + enc + (tail + after);
      EncodedCommandDecoded(moving, command, payload, before, tail + after);
      var first := NextCommand(moving, s);
      assert first.ok && first.stream == Some(s.(pos := |before + enc|));
      assert bytes == (before + enc) + tail + after;
      EncodedCommandsDecoded(first.moving, cmds[1..], before + enc, after);
    }
  }
}
