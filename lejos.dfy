/** The leJOS collaborators the car's command interpreter talks to, reduced to
    what the interpreter can observe of them: the pilot records the calls it
    receives, a Bluetooth connection supplies the bytes its peer sends. */
module Lejos {
  import opened JavaIO

  /** One call on `DifferentialPilot`. `setTravelSpeed` and `steer` take
      doubles; the car only ever passes them Java ints, recorded exactly. */
  datatype PilotCall =
    | SetTravelSpeed(speed: int)
    | Forward
    | Backward
    | Stop
    | Steer(turnRate: int, angle: int, immediateReturn: bool)

  /** The two-wheeled pilot as a recorder of the calls made on it. */
  class DifferentialPilot {
    var trace: seq<PilotCall>

    constructor ()
      ensures trace == []
    {
      trace := [];
    }

    method SetTravelSpeed(speed: int)
      modifies this
      ensures trace == old(trace) + [PilotCall.SetTravelSpeed(speed)]
    {
      trace := trace + [PilotCall.SetTravelSpeed(speed)];
    }

    method Forward()
      modifies this
      ensures trace == old(trace) + [PilotCall.Forward]
    {
      trace := trace + [PilotCall.Forward];
    }

    method Backward()
      modifies this
      ensures trace == old(trace) + [PilotCall.Backward]
    {
      trace := trace + [PilotCall.Backward];
    }

    method Stop()
      modifies this
      ensures trace == old(trace) + [PilotCall.Stop]
    {
      trace := trace + [PilotCall.Stop];
    }

    method Steer(turnRate: int, angle: int, immediateReturn: bool)
      modifies this
      ensures trace == old(trace) + [PilotCall.Steer(turnRate, angle, immediateReturn)]
    {
      trace := trace + [PilotCall.Steer(turnRate, angle, immediateReturn)];
    }
  }

  /** The device at the far end of a connection, known by its address. */
  datatype RemoteDevice = RemoteDevice(address: string)

  /** An accepted Bluetooth connection: the peer's address and every byte the
      peer will send on it before it hangs up. */
  datatype BTConnection = BTConnection(address: string, incoming: seq<byte>)

  /** `RemoteDevice.getRemoteDevice(connection)` when the lookup succeeds. */
  function GetRemoteDevice(c: BTConnection): RemoteDevice
  {
    RemoteDevice(c.address)
  }

  /** `connection.openDataInputStream()` when it succeeds: a fresh, open
      stream positioned before the first byte the peer sends. */
  function OpenDataInputStream(c: BTConnection): DataInputStream
  {
    DataInputStream(c.incoming, 0, false)
  }
}
