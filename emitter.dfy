/**
 * The mobile client's socket provider (mobile/components/SocketEmitter.js).
 *
 * The provider owns one socket and the room it was given. It tracks whether the
 * socket is connected, joins its room on every connect, and offers three emit
 * functions whose payloads it builds from a device, the clock and the room. The
 * socket's sent messages are the `outbox`, in order; `now` is the clock reading
 * taken by `Date.now()` inside each emit.
 */
module SocketEmitter {
  import opened Wrappers
  import opened Protocol

  /** A call a screen makes on the provider: which emit function, with which arguments. */
  datatype EmitCall =
    | EmitConnected(device: Device)
    | EmitData(device: Device, value: Option<string>, unit: string)
    | EmitDisconnected(device: Device)

  /** The `device_connected` payload: {id, name, timestamp, room}. */
  function ConnectedPayload(d: Device, now: int, room: string): Payload {
    Payload(d.id, d.name, None, None, now, Some(room))
  }

  /** The `device_data` payload: {id, value, unit, timestamp, room}. */
  function DataPayload(d: Device, value: Option<string>, unit: string, now: int, room: string): Payload {
    Payload(d.id, None, value, Some(unit), now, Some(room))
  }

  /** The `device_disconnected` payload: {id, timestamp, room}. */
  function DisconnectedPayload(d: Device, now: int, room: string): Payload {
    Payload(d.id, None, None, None, now, Some(room))
  }

  /** The message an emit call puts on the socket. */
  function Encode(c: EmitCall, now: int, room: string): (m: Message)
    ensures m.payload.id == c.device.id && m.payload.timestamp == now
    ensures m.payload.room == Some(room)
    ensures m.name == DeviceConnected <==> c.EmitConnected?
    ensures m.name == DeviceData <==> c.EmitData?
  {
    match c
    case EmitConnected(d) => Message(DeviceConnected, ConnectedPayload(d, now, room))
    case EmitData(d, v, u) => Message(DeviceData, DataPayload(d, v, u, now, room))
    case EmitDisconnected(d) => Message(DeviceDisconnected, DisconnectedPayload(d, now, room))
  }

  /** What a receiver can read back from a message: the call, as far as the payload carries it. */
  function Decode(m: Message): EmitCall {
    var p := m.payload;
    match m.name
    case DeviceConnected => EmitConnected(Device(p.id, p.name))
    case DeviceData => EmitData(Device(p.id, None), p.value, p.unit.GetOr(""))
    case DeviceDisconnected => EmitDisconnected(Device(p.id, None))
  }

  /** A call with the device name blanked where the payload does not carry it. */
  function OnTheWire(c: EmitCall): EmitCall {
    match c
    case EmitConnected(d) => c
    case EmitData(d, v, u) => EmitData(d.(name := None), v, u)
    case EmitDisconnected(d) => EmitDisconnected(d.(name := None))
  }

  /**
   * Decoding an emitted message gives back the call, except the device name of a
   * data or disconnect event, which those payloads do not carry; the value and
   * unit of a data event arrive unchanged.
   */
  lemma DecodeEncode(c: EmitCall, now: int, room: string)
    ensures Decode(Encode(c, now, room)) == OnTheWire(c)
    ensures c.EmitConnected? ==> Decode(Encode(c, now, room)) == c
  {
  }

  /** A sent message that carries the provider's room. */
  predicate Tagged(o: Outgoing, room: string) {
    match o
    case JoinRoom(r) => r == room
    case Send(m) => m.payload.room == Some(room)
  }

  class Provider {
    const room: string
    var connected: bool
    var outbox: seq<Outgoing>

    /** Everything the socket has sent names the provider's room. */
    ghost predicate Valid()
      reads this
    {
      forall i :: 0 <= i < |outbox| ==> Tagged(outbox[i], room)
    }

    constructor (room: string)
      ensures Valid() && this.room == room && !connected && outbox == []
    {
      this.room := room;
      connected := false;
      outbox := [];
    }

    /** The socket's `connect` handler. */
    method OnConnect()
      requires Valid()
      modifies this
      ensures Valid() && connected
      ensures outbox == old(outbox) + [JoinRoom(room)]
    {
      connected := true;
      outbox := outbox + [JoinRoom(room)];
    }

    /** The socket's `disconnect` handler. */
    method OnDisconnect()
      modifies this
      ensures !connected && outbox == old(outbox)
    {
      connected := false;
    }

    method EmitDeviceConnected(d: Device, now: int)
      requires Valid()
      modifies this
      ensures Valid() && connected == old(connected)
      ensures outbox == old(outbox) + [Send(Encode(EmitConnected(d), now, room))]
    {
      outbox := outbox + [Send(Message(DeviceConnected, ConnectedPayload(d, now, room)))];
    }

    method EmitDeviceData(d: Device, value: Option<string>, unit: string, now: int)
      requires Valid()
      modifies this
      ensures Valid() && connected == old(connected)
      ensures outbox == old(outbox) + [Send(Encode(EmitData(d, value, unit), now, room))]
    {
      outbox := outbox + [Send(Message(DeviceData, DataPayload(d, value, unit, now, room)))];
    }

    method EmitDeviceDisconnected(d: Device, now: int)
      requires Valid()
      modifies this
      ensures Valid() && connected == old(connected)
      ensures outbox == old(outbox) + [Send(Encode(EmitDisconnected(d), now, room))]
    {
      outbox := outbox + [Send(Message(DeviceDisconnected, DisconnectedPayload(d, now, room)))];
    }

    /** Performs one screen call. */
    method Perform(c: EmitCall, now: int)
      requires Valid()
      modifies this
      ensures Valid() && connected == old(connected)
      ensures outbox == old(outbox) + [Send(Encode(c, now, room))]
    {
      match c
      case EmitConnected(d) => EmitDeviceConnected(d, now);
      case EmitData(d, v, u) => EmitDeviceData(d, v, u, now);
      case EmitDisconnected(d) => EmitDeviceDisconnected(d, now);
    }
  }

  /** A provider connects, emits a data event and drops: the flag follows the socket. */
  method ProviderExample(d: Device, v: Option<string>, now: int)
    returns (wasConnected: bool, isConnected: bool, sent: seq<Outgoing>)
    ensures wasConnected && !isConnected
    ensures sent == [JoinRoom(SharedRoom), Send(Message(DeviceData, Payload(d.id, None, v, Some("raw"), now, Some(SharedRoom))))]
  {
    var p := new Provider(SharedRoom);
    p.OnConnect();
    p.EmitDeviceData(d, v, "raw", now);
    wasConnected := p.connected;
    p.OnDisconnect();
    isConnected := p.connected;
    sent := p.outbox;
  }
}
