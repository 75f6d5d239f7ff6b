/** A small Option type, used for the JavaScript values that may be null or undefined. */
module Wrappers {

  datatype Option<+T> = None | Some(value: T) {

    /** Returns the value held in Some, or the default for None. */
    function GetOr(default: T): T {
      match this
      case Some(v) => v
      case None => default
    }
  }
}

/**
 * The vocabulary shared by the mobile client, the relay server and the web
 * observer: connection statuses, devices, the three device events and their
 * payloads, and what a client socket sends.
 *
 * A JavaScript field that is absent, `undefined` or `null` is modelled as `None`:
 * no consumer in the system distinguishes these.
 */
module Protocol {
  import opened Wrappers

  /** The room every client of the system joins ("shared-room"). */
  const SharedRoom: string := "shared-room"

  /** The status strings a device connection moves through. */
  datatype Status = Disconnected | Connecting | Connected | Reconnecting | Error {
    /** The string the JavaScript code uses for this status. */
    function Text(): string {
      match this
      case Disconnected => "disconnected"
      case Connecting => "connecting"
      case Connected => "connected"
      case Reconnecting => "reconnecting"
      case Error => "error"
    }
  }

  /** A peripheral as the radio library reports it: an id and an optional name. */
  datatype Device = Device(id: string, name: Option<string>)

  /** The three device events relayed through the server. */
  datatype EventName = DeviceConnected | DeviceData | DeviceDisconnected {
    /** The socket event name on the wire. */
    function Wire(): string {
      match this
      case DeviceConnected => "device_connected"
      case DeviceData => "device_data"
      case DeviceDisconnected => "device_disconnected"
    }
  }

  /** The fields a device event payload can carry. */
  datatype Payload = Payload(
    id: string,
    name: Option<string>,
    value: Option<string>,
    unit: Option<string>,
    timestamp: int,
    room: Option<string>)

  /** One socket event: its name and its payload. */
  datatype Message = Message(name: EventName, payload: Payload)

  /** What a client socket sends to the server. */
  datatype Outgoing = JoinRoom(room: string) | Send(msg: Message)

  /** JavaScript truthiness of an optional string: present and not empty. */
  predicate Truthy(s: Option<string>) {
    s.Some? && s.value != ""
  }

  lemma TextInjective(a: Status, b: Status)
    ensures a.Text() == b.Text() <==> a == b
  {
  }
}
