/**
 * The path of a device event through the whole system: a connection's reports
 * reach the multi-device screen, the screen's calls become messages on the
 * provider's socket, the relay forwards them to the sessions in the room, and
 * the observer folds what it receives into its registry.
 */
module EndToEnd {
  import opened Wrappers
  import opened Protocol
  import opened DeviceConnection
  import opened SocketEmitter
  import opened Relay
  import opened Registry
  import MultiDeviceScreen
  import DeviceLists

  /** The messages of a sequence of emit calls. */
  function Sends(calls: seq<EmitCall>, sent: seq<int>, room: string): seq<Outgoing>
    requires |sent| == |calls|
  {
    seq(|calls|, i requires 0 <= i < |calls| => Send(Encode(calls[i], sent[i], room)))
  }

  /**
   * A provider that connects and then performs the calls, the i-th at time
   * `sent[i]`, has sent its join followed by exactly the messages of the calls.
   */
  method Transmit(calls: seq<EmitCall>, sent: seq<int>, room: string) returns (outbox: seq<Outgoing>)
    requires |sent| == |calls|
    ensures outbox == [JoinRoom(room)] + Sends(calls, sent, room)
    ensures forall i :: 0 <= i < |outbox| ==> Tagged(outbox[i], room)
  {
    var p := new Provider(room);
    p.OnConnect();
    var i := 0;
    while i < |calls|
      invariant 0 <= i <= |calls|
      invariant p.Valid() && p.room == room
      invariant p.outbox == [JoinRoom(room)] + Sends(calls[..i], sent[..i], room)
    {
      p.Perform(calls[i], sent[i]);
      assert calls[..i + 1] == calls[..i] + [calls[i]];
      assert sent[..i + 1] == sent[..i] + [sent[i]];
      i := i + 1;
    }
    assert calls[..i] == calls && sent[..i] == sent;
    outbox := p.outbox;
  }

  /**
   * Every message a provider for the room has sent reaches, unchanged, every
   * session whose current room is that room.
   */
  lemma RelayReachesRoom(hub: Hub, outbox: seq<Outgoing>, room: string, i: nat, s: SessionId)
    requires hub.Valid() && i < |outbox| && outbox[i].Send?
    requires forall j :: 0 <= j < |outbox| ==> Tagged(outbox[j], room)
    requires room != "" && s in hub.sessions && hub.currentRoom[s] == Some(room)
    ensures s in hub.Broadcast(outbox[i].msg).recipients
    ensures hub.Broadcast(outbox[i].msg).msg == outbox[i].msg
  {
    assert Tagged(outbox[i], room);
  }

  /** What the observer receives of the calls, with its own clock reading for each. */
  function Wire(calls: seq<EmitCall>, sent: seq<int>, seen: seq<int>, room: string): seq<Arrival>
    requires |sent| == |calls| && |seen| == |calls|
  {
    seq(|calls|, i requires 0 <= i < |calls| => Arrival(Encode(calls[i], sent[i], room), seen[i]))
  }

  /** The last call concerning a device. */
  function LastCallFor(calls: seq<EmitCall>, id: string): Option<EmitCall>
    decreases |calls|
  {
    if calls == [] then None
    else if calls[|calls| - 1].device.id == id then Some(calls[|calls| - 1])
    else LastCallFor(calls[..|calls| - 1], id)
  }

  /** The last arrival concerning a device carries the last call concerning it. */
  lemma {:induction false} LastForWire(calls: seq<EmitCall>, sent: seq<int>, seen: seq<int>, room: string, id: string)
    requires |sent| == |calls| && |seen| == |calls|
    ensures var last := LastFor(Wire(calls, sent, seen, room), id);
      && (last.Some? <==> LastCallFor(calls, id).Some?)
      && (last.Some? ==> Decode(last.value.msg) == OnTheWire(LastCallFor(calls, id).value))
    decreases |calls|
  {
    if calls != [] {
      var n := |calls| - 1;
      assert Wire(calls, sent, seen, room)[..n] == Wire(calls[..n], sent[..n], seen[..n], room);
      LastForWire(calls[..n], sent[..n], seen[..n], room, id);
      DecodeEncode(calls[n], sent[n], room);
    }
  }

  /**
   * An observer that receives all of a provider's calls lists exactly the devices
   * some call concerned, and shows a device "disconnected" exactly when the last
   * call concerning it announced a disconnect.
   */
  lemma ObserverFollowsLastCall(calls: seq<EmitCall>, sent: seq<int>, seen: seq<int>, room: string, id: string)
    requires |sent| == |calls| && |seen| == |calls|
    ensures var reg := Fold(map[], Wire(calls, sent, seen, room));
      && (id in reg <==> LastCallFor(calls, id).Some?)
      && (id in reg ==> (reg[id].status == Disconnected <==> LastCallFor(calls, id).value.EmitDisconnected?))
  {
    FoldMatchesReference(Wire(calls, sent, seen, room), id);
    LastForWire(calls, sent, seen, room, id);
  }

  /** A connection links, discovers, forwards one value and then loses its peer. */
  method PeerDropRun(d: Device, v: Option<string>) returns (trace: seq<Effect>)
    ensures trace == [Attempted, Reported(Connected), Forwarded(v), Reported(Disconnected), Armed(ReconnectDelayMs)]
  {
    var c := new Connection();
    c.SupplyDevice(Some(d));
    c.OnLinkSettled(true);
    c.OnDiscoverySettled(true);
    c.OnMonitor(false, v);
    c.OnDisconnected();
    trace := c.trace;
  }

  /**
   * The multi-device screen lists the device and then receives the reports and
   * data of its manager in trace order: it announces the device, relays the
   * value and announces the disconnect, and the device is unlisted.
   */
  method ScreenCalls(d: Device, v: Option<string>, trace: seq<Effect>)
    returns (calls: seq<EmitCall>, listed: seq<Device>)
    requires trace == [Attempted, Reported(Connected), Forwarded(v), Reported(Disconnected), Armed(ReconnectDelayMs)]
    ensures calls == [EmitConnected(d), EmitData(d, v, "raw"), EmitDisconnected(d)]
    ensures listed == []
  {
    var screen := new MultiDeviceScreen.Screen();
    screen.HandleDeviceConnect(d);
    assert DeviceLists.Find([d], d.id) == Some(d);
    screen.HandleStatusChange(d.id, trace[1].status);
    screen.HandleData(d.id, trace[2].value);
    screen.HandleStatusChange(d.id, trace[3].status);
    calls, listed := screen.calls, screen.connectedDevices;
  }

  /** A relay with the mobile client and the observer both joined to the shared room. */
  method SharedRoomHub() returns (hub: Hub, mobile: SessionId, observer: SessionId)
    ensures fresh(hub) && hub.Valid()
    ensures mobile in hub.sessions && observer in hub.sessions && mobile != observer
    ensures hub.currentRoom[mobile] == Some(SharedRoom) && hub.currentRoom[observer] == Some(SharedRoom)
  {
    hub := new Hub();
    mobile := ConnectAndJoin(hub, SharedRoom);
    observer := ConnectAndJoin(hub, OnSocketConnect().room);
  }

  /**
   * A peer-initiated disconnect of a connected device, with the mobile client and
   * the observer both in the shared room: every message the mobile client sends
   * reaches the observer unchanged, and the observer ends up showing the device
   * "disconnected".
   */
  method PeerDisconnectReachesObserver(d: Device, v: Option<string>, sent: seq<int>, seen: seq<int>)
    returns (hub: Hub, observer: SessionId, outbox: seq<Outgoing>, reg: Devices)
    requires |sent| == 3 && |seen| == 3
    ensures hub.Valid() && |outbox| == 4 && outbox[0] == JoinRoom(SharedRoom)
    ensures var arrivals := Wire([EmitConnected(d), EmitData(d, v, "raw"), EmitDisconnected(d)], sent, seen, SharedRoom);
      forall i :: 1 <= i < 4 ==>
        && outbox[i] == Send(arrivals[i - 1].msg)
        && observer in hub.Broadcast(arrivals[i - 1].msg).recipients
    ensures reg == Fold(map[], Wire([EmitConnected(d), EmitData(d, v, "raw"), EmitDisconnected(d)], sent, seen, SharedRoom))
    ensures d.id in reg && reg[d.id].status == Disconnected
  {
    var trace := PeerDropRun(d, v);
    var calls, _ := ScreenCalls(d, v, trace);
    outbox := Transmit(calls, sent, SharedRoom);
    var mobile;
    hub, mobile, observer := SharedRoomHub();
    forall i | 1 <= i < 4
      ensures observer in hub.Broadcast(outbox[i].msg).recipients
    {
      RelayReachesRoom(hub, outbox, SharedRoom, i, observer);
    }
    ObserverFollowsLastCall(calls, sent, seen, SharedRoom, d.id);
    reg := Fold(map[], Wire(calls, sent, seen, SharedRoom));
  }
}
