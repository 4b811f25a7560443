/** `RCCarEngine`, the later revision of the car's command interpreter: it
    owns one Bluetooth session at a time and reports through a success flag
    whether each step worked. The outcome of every Bluetooth call it cannot
    see into is a parameter (true: the call returned; false: it threw an
    `IOException`). */
module RCCarEngine {
  import opened JavaIO
  import opened Lejos
  import opened Protocol

  class RCCarEngine {
    var connected: bool
    var connection: Option<BTConnection>
    var remoteDevice: Option<RemoteDevice>
    var dataInStream: Option<DataInputStream>
    const pilot: DifferentialPilot
    var moving: int8

    /** `_moving` holds one of the three motion values; a connection is
        held exactly while connected, and a connected engine has a stream. */
    ghost predicate Valid()
      reads this
    {
      IsMoving(moving)
      && (connected <==> connection.Some?)
      && (connected ==> dataInStream.Some?)
    }

    constructor (pilot: DifferentialPilot)
      ensures Valid() && this.pilot == pilot
      ensures !connected && connection == None && remoteDevice == None && dataInStream == None
      ensures moving == MOVING_STOPPED
    {
      this.pilot := pilot;
      connected := false;
      connection := None;
      remoteDevice := None;
      dataInStream := None;
      moving := MOVING_STOPPED;
    }

    function IsConnected(): bool
      reads this
    {
      connected
    }

    /** Take over an accepted connection: look its device up and open its
        input stream. Rejected while a connection is in use. */
    method UseConnection(c: BTConnection, lookupSucceeds: bool, openSucceeds: bool) returns (ok: bool)
      requires Valid()
      modifies this
      ensures Valid() && moving == old(moving)
      ensures old(connected) ==> !ok && unchanged(this)
      ensures !old(connected) ==>
        ok == (lookupSucceeds && openSucceeds) && connected == ok
        && connection == (if ok then Some(c) else None)
        && remoteDevice == (if lookupSucceeds then Some(GetRemoteDevice(c)) else None)
        && dataInStream == (if ok then Some(OpenDataInputStream(c)) else None)
    {
      if IsConnected() {
        return false;
      }
      connection := Some(c);
      remoteDevice := None;
      dataInStream := None;
      if !lookupSucceeds {
        connection := None;
        return false;
      }
      remoteDevice := Some(GetRemoteDevice(c));
      if !openSucceeds {
        connection := None;
        return false;
      }
      dataInStream := Some(OpenDataInputStream(connection.value));
      connected := true;
      ok := true;
    }

    /** Wait for a client (the connection `Bluetooth.waitForConnection`
        accepts is `accepted`) and use it; null when already connected or
        when using it failed. */
    method WaitForConnection(accepted: BTConnection, lookupSucceeds: bool, openSucceeds: bool)
      returns (r: Option<BTConnection>)
      requires Valid()
      modifies this
      ensures Valid() && moving == old(moving)
      ensures old(connected) ==> r == None && unchanged(this)
      ensures !old(connected) ==>
        (r == if lookupSucceeds && openSucceeds then Some(accepted) else None)
        && connected == r.Some? && connection == r
        && remoteDevice == (if lookupSucceeds then Some(GetRemoteDevice(accepted)) else None)
        && dataInStream == (if r.Some? then Some(OpenDataInputStream(accepted)) else None)
    {
      if IsConnected() {
        return None;
      }
      var ok := UseConnection(accepted, lookupSucceeds, openSucceeds);
      if !ok {
        return None;
      }
      r := Some(accepted);
    }

    /** Close the stream, then the connection. The engine counts as
        disconnected only once both closes have succeeded. */
    method CloseConnection(streamCloses: bool, connectionCloses: bool)
      requires Valid()
      modifies this
      ensures Valid() && moving == old(moving)
      ensures !old(connected) ==> unchanged(this)
      ensures old(connected) ==>
        connected == !(streamCloses && connectionCloses)
        && dataInStream == (if streamCloses then Some(Close(old(dataInStream).value)) else old(dataInStream))
        && remoteDevice == (if streamCloses then None else old(remoteDevice))
        && connection == (if streamCloses && connectionCloses then None else old(connection))
    {
      if !IsConnected() {
        return;
      }
      if !streamCloses {
        return;
      }
      dataInStream := Some(Close(dataInStream.value));
      remoteDevice := None;
      if !connectionCloses {
        return;
      }
      connection := None;
      connected := false;
    }

    /** Read one command byte and handle the command. Fails without reading
        when not connected, and when the byte cannot be read. */
    method WaitForAndHandleCommand() returns (ok: bool)
      requires Valid()
      modifies this, pilot
      ensures Valid()
      ensures connected == old(connected) && connection == old(connection) && remoteDevice == old(remoteDevice)
      ensures !old(connected) ==> !ok && unchanged(this) && pilot.trace == old(pilot.trace)
      ensures old(connected) ==>
        var h := NextCommand(old(moving), old(dataInStream).value);
        ok == h.ok && moving == h.moving && dataInStream == h.stream
        && pilot.trace == old(pilot.trace) + h.calls
    {
      if !IsConnected() {
        return false;
      }
      var r := ReadByte(dataInStream.value);
      dataInStream := Some(r.rest);
      if r.result.Err? {
        return false;
      }
      ok := HandleCommand(r.result.value);
    }

    /** Handle one command whose identifier has been read: read its payload,
        drive the pilot and update `_moving`. */
    method HandleCommand(command: int8) returns (ok: bool)
      requires Valid()
      requires dataInStream.Some? || !HasPayload(command)
      modifies this, pilot
      ensures Valid()
      ensures connected == old(connected) && connection == old(connection) && remoteDevice == old(remoteDevice)
      ensures var h := Protocol.HandleCommand(old(moving), command, old(dataInStream));
        ok == h.ok && moving == h.moving && dataInStream == h.stream
        && pilot.trace == old(pilot.trace) + h.calls
    {
      if command == COMMAND_FORWARD || command == COMMAND_BACKWARD {
        var r := ReadInt(dataInStream.value);
        dataInStream := Some(r.rest);
        if r.result.Err? {
          return false;
        }
        var speed := r.result.value;
        if speed > -1 {
          pilot.SetTravelSpeed(speed as int);
        }
        if moving != command {
          if command == COMMAND_FORWARD {
            pilot.Forward();
          } else {
            pilot.Backward();
          }
        }
        moving := command;
      } else if command == COMMAND_STOP {
        pilot.Stop();
        moving := command;
      } else if command == COMMAND_STEER {
        var r := ReadInt(dataInStream.value);
        dataInStream := Some(r.rest);
        if r.result.Err? {
          return false;
        }
        var angle := r.result.value;
        var turnRate := TURN_RATE;
        if angle > 0 {
          turnRate := -turnRate;
        }
        angle := Abs(angle);
        pilot.Steer(turnRate, angle as int, false);
      } else {
        return false;
      }
      ok := true;
    }
  }

  /** After a clean close the engine accepts a new connection: closing
      clears `_connection` and `_connected`. */
  method ReconnectAfterClose(pilot: DifferentialPilot, first: BTConnection, second: BTConnection)
    returns (reconnected: bool)
    ensures reconnected
  {
    var engine := new RCCarEngine(pilot);
    var ok := engine.UseConnection(first, true, true);
    engine.CloseConnection(true, true);
    reconnected := engine.UseConnection(second, true, true);
  }

  /** A second connection is refused while the first is in use, and the
      first one's stream stays in place. */
  method SecondConnectionRejected(pilot: DifferentialPilot, first: BTConnection, second: BTConnection)
    returns (accepted: bool, stream: Option<DataInputStream>)
    ensures !accepted && stream == Some(OpenDataInputStream(first))
  {
    var engine := new RCCarEngine(pilot);
    var ok := engine.UseConnection(first, true, true);
    accepted := engine.UseConnection(second, true, true);
    stream := engine.dataInStream;
  }
}
