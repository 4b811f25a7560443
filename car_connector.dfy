/** `CarConnector`, the earlier revision of the car's command interpreter.
    It handles commands exactly as `RCCarEngine` does but returns nothing,
    swallowing every failure with an early return. Bluetooth outcomes are
    parameters (true: the call returned; false: it threw an `IOException`). */
module CarConnector {
  import opened JavaIO
  import opened Lejos
  import opened Protocol

  class CarConnector {
    var connected: bool
    /** Declared, read by `closeConnection`, but never assigned: always null
        for a connector built by the constructor. */
    var connection: Option<BTConnection>
    var remoteDevice: Option<RemoteDevice>
    var dataInStream: Option<DataInputStream>
    const pilot: DifferentialPilot
    var moving: int8

    /** `_moving` holds one of the three motion values, and a connected
        connector has a stream to read from. */
    ghost predicate Valid()
      reads this
    {
      IsMoving(moving) && (connected ==> dataInStream.Some?)
    }

    constructor (pilot: DifferentialPilot)
      ensures Valid() && this.pilot == pilot
      ensures !connected && connection == None && remoteDevice == None && dataInStream == None
      ensures moving == MOVING_STOPPED
    {
      this.pilot := pilot;
      connected := false;
      connection := None;
      remoteDevice := None;
      dataInStream := None;
      moving := MOVING_STOPPED;
    }

    function IsConnected(): bool
      reads this
    {
      connected
    }

    /** Take over an accepted connection: look its device up and open its
        input stream. Rejected while connected. `_connection` is left as it was. */
    method UseConnection(c: BTConnection, lookupSucceeds: bool, openSucceeds: bool) returns (ok: bool)
      requires Valid()
      modifies this
      ensures Valid() && moving == old(moving) && connection == old(connection)
      ensures old(connected) ==> !ok && unchanged(this)
      ensures !old(connected) ==>
        ok == (lookupSucceeds && openSucceeds) && connected == ok
        && remoteDevice == (if lookupSucceeds then Some(GetRemoteDevice(c)) else None)
        && dataInStream == (if ok then Some(OpenDataInputStream(c)) else None)
    {
      if IsConnected() {
        return false;
      }
      remoteDevice := None;
      dataInStream := None;
      if !lookupSucceeds {
        return false;
      }
      remoteDevice := Some(GetRemoteDevice(c));
      if !openSucceeds {
        return false;
      }
      dataInStream := Some(OpenDataInputStream(c));
      connected := true;
      ok := true;
    }

    /** Wait for a client (the connection `Bluetooth.waitForConnection`
        accepts is `accepted`) and use it; null when already connected or
        when using it failed. */
    method WaitForConnection(accepted: BTConnection, lookupSucceeds: bool, openSucceeds: bool)
      returns (r: Option<BTConnection>)
      requires Valid()
      modifies this
      ensures Valid() && moving == old(moving) && connection == old(connection)
      ensures old(connected) ==> r == None && unchanged(this)
      ensures !old(connected) ==>
        (r == if lookupSucceeds && openSucceeds then Some(accepted) else None)
        && connected == r.Some?
        && remoteDevice == (if lookupSucceeds then Some(GetRemoteDevice(accepted)) else None)
        && dataInStream == (if r.Some? then Some(OpenDataInputStream(accepted)) else None)
    {
      if IsConnected() {
        return None;
      }
      var ok := UseConnection(accepted, lookupSucceeds, openSucceeds);
      if !ok {
        return None;
      }
      r := Some(accepted);
    }

    /** Close the stream, then `_connection`. While `_connection` is null the
        second close cannot happen (Java throws a NullPointerException
        there), so the connector stays connected. */
    method CloseConnection(streamCloses: bool, connectionCloses: bool)
      requires Valid()
      modifies this
      ensures Valid() && moving == old(moving) && connection == old(connection)
      ensures !old(connected) ==> unchanged(this)
      ensures old(connected) ==>
        connected == !(streamCloses && connection.Some? && connectionCloses)
        && dataInStream == (if streamCloses then Some(Close(old(dataInStream).value)) else old(dataInStream))
        && remoteDevice == (if streamCloses then None else old(remoteDevice))
    {
      if !IsConnected() {
        return;
      }
      if !streamCloses {
        return;
      }
      dataInStream := Some(Close(dataInStream.value));
      remoteDevice := None;
      if connection.None? {
        return;
      }
      if !connectionCloses {
        return;
      }
      connected := false;
    }

    /** Read one command byte and handle the command; does nothing when not
        connected or when the byte cannot be read. */
    method WaitForAndHandleCommand()
      requires Valid()
      modifies this, pilot
      ensures Valid()
      ensures connected == old(connected) && connection == old(connection) && remoteDevice == old(remoteDevice)
      ensures !old(connected) ==> unchanged(this) && pilot.trace == old(pilot.trace)
      ensures old(connected) ==>
        var h := NextCommand(old(moving), old(dataInStream).value);
        moving == h.moving && dataInStream == h.stream
        && pilot.trace == old(pilot.trace) + h.calls
    {
      if !IsConnected() {
        return;
      }
      var r := ReadByte(dataInStream.value);
      dataInStream := Some(r.rest);
      if r.result.Err? {
        return;
      }
      HandleCommand(r.result.value);
    }

    /** Handle one command whose identifier has been read: read its payload,
        drive the pilot and update `_moving`; failures end it silently. */
    method HandleCommand(command: int8)
      requires Valid()
      requires dataInStream.Some? || !HasPayload(command)
      modifies this, pilot
      ensures Valid()
      ensures connected == old(connected) && connection == old(connection) && remoteDevice == old(remoteDevice)
      ensures var h := Protocol.HandleCommand(old(moving), command, old(dataInStream));
        moving == h.moving && dataInStream == h.stream
        && pilot.trace == old(pilot.trace) + h.calls
    {
      if command == COMMAND_FORWARD || command == COMMAND_BACKWARD {
        var r := ReadInt(dataInStream.value);
        dataInStream := Some(r.rest);
        if r.result.Err? {
          return;
        }
        var speed := r.result.value;
        if speed > -1 {
          pilot.SetTravelSpeed(speed as int);
        }
        if moving != command {
          if command == COMMAND_FORWARD {
            pilot.Forward();
          } else {
            pilot.Backward();
          }
        }
        moving := command;
      } else if command == COMMAND_STOP {
        pilot.Stop();
        moving := command;
      } else if command == COMMAND_STEER {
        var r := ReadInt(dataInStream.value);
        dataInStream := Some(r.rest);
        if r.result.Err? {
          return;
        }
        var angle := r.result.value;
        var turnRate := TURN_RATE;
        if angle > 0 {
          turnRate := -turnRate;
        }
        angle := Abs(angle);
        pilot.Steer(turnRate, angle as int, false);
      }
    }
  }

  /** As written, a connector that has been connected once can never be
      connected again: `_connection` stays null, so `closeConnection` stops
      before clearing `_connected`, and `useConnection` then refuses. */
  method ReconnectAfterCloseRefused(pilot: DifferentialPilot, first: BTConnection, second: BTConnection)
    returns (reconnected: bool)
    ensures !reconnected
  {
    var connector := new CarConnector(pilot);
    var ok := connector.UseConnection(first, true, true);
    connector.CloseConnection(true, true);
    reconnected := connector.UseConnection(second, true, true);
  }
}
