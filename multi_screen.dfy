/**
 * The multi-device screen (mobile/app/index.tsx, `BLEMainContent`).
 *
 * It keeps the list of connected devices, the latest data and the latest status
 * per device id, and turns the callbacks of each device's connection manager
 * into relay events. The emit calls it makes on the socket provider are logged
 * in `calls`, in order.
 */
module MultiDeviceScreen {
  import opened Wrappers
  import opened Protocol
  import opened SocketEmitter
  import opened DeviceLists

  class Screen {
    var connectedDevices: seq<Device>
    var deviceData: map<string, Option<string>>
    var deviceStatus: map<string, Status>
    var calls: seq<EmitCall>

    /** No device is listed twice. */
    ghost predicate Valid()
      reads this
    {
      UniqueIds(connectedDevices)
    }

    constructor ()
      ensures Valid()
      ensures connectedDevices == [] && deviceData == map[] && deviceStatus == map[] && calls == []
    {
      connectedDevices, deviceData, deviceStatus, calls := [], map[], map[], [];
    }

    /** `handleDeviceConnect`: list and announce a device whose id is not yet listed. */
    method HandleDeviceConnect(d: Device)
      requires Valid()
      modifies this
      ensures Valid()
      ensures Find(old(connectedDevices), d.id).None? ==>
        connectedDevices == old(connectedDevices) + [d] && calls == old(calls) + [EmitConnected(d)]
      ensures Find(old(connectedDevices), d.id).Some? ==>
        connectedDevices == old(connectedDevices) && calls == old(calls)
      ensures deviceData == old(deviceData) && deviceStatus == old(deviceStatus)
    {
      if Find(connectedDevices, d.id).None? {
        AppendKeepsUnique(connectedDevices, d);
        connectedDevices := connectedDevices + [d];
        calls := calls + [EmitConnected(d)];
      }
    }

    /**
     * `handleData`: record the data for the id, and relay it with unit "raw" under
     * the listed device, if the id is listed.
     */
    method HandleData(id: string, data: Option<string>)
      requires Valid()
      modifies this
      ensures Valid()
      ensures deviceData == old(deviceData)[id := data]
      ensures connectedDevices == old(connectedDevices) && deviceStatus == old(deviceStatus)
      ensures var found := Find(old(connectedDevices), id);
        calls == old(calls) + if found.Some? then [EmitData(found.value, data, "raw")] else []
    {
      deviceData := deviceData[id := data];
      var found := Find(connectedDevices, id);
      if found.Some? {
        calls := calls + [EmitData(found.value, data, "raw")];
      }
    }

    /**
     * `handleStatusChange`: record the status for the id; on "disconnected" for a
     * listed id, announce the disconnect and unlist that device.
     */
    method HandleStatusChange(id: string, status: Status)
      requires Valid()
      modifies this
      ensures Valid()
      ensures deviceStatus == old(deviceStatus)[id := status]
      ensures deviceData == old(deviceData)
      ensures var found := Find(old(connectedDevices), id);
        if status == Disconnected && found.Some? then
          && connectedDevices == Without(old(connectedDevices), id)
          && calls == old(calls) + [EmitDisconnected(found.value)]
        else
          connectedDevices == old(connectedDevices) && calls == old(calls)
    {
      deviceStatus := deviceStatus[id := status];
      TextInjective(status, Disconnected);
      if status.Text() == "disconnected" {
        var found := Find(connectedDevices, id);
        if found.Some? {
          calls := calls + [EmitDisconnected(found.value)];
          WithoutKeepsUnique(connectedDevices, id);
          connectedDevices := Without(connectedDevices, id);
        }
      }
    }
  }

  /**
   * On "disconnected" for the listed device at position `k`, that device alone
   * leaves the list and the others keep their order.
   */
  lemma UnlistsExactlyOne(list: seq<Device>, k: nat)
    requires UniqueIds(list) && k < |list|
    ensures Find(list, list[k].id) == Some(list[k])
    ensures Without(list, list[k].id) == list[..k] + list[k + 1..]
  {
    WithoutRemovesOne(list, k);
  }

  /** Devices a and b connect, and a connects again: each is listed and announced once. */
  method ConnectTwo(a: Device, b: Device) returns (screen: Screen)
    requires a.id != b.id
    ensures fresh(screen) && screen.Valid()
    ensures screen.connectedDevices == [a, b]
    ensures screen.calls == [EmitConnected(a), EmitConnected(b)]
    ensures screen.deviceData == map[] && screen.deviceStatus == map[]
  {
    screen := new Screen();
    screen.HandleDeviceConnect(a);
    screen.HandleDeviceConnect(b);
    assert Find([a, b], a.id) == Some(a);
    screen.HandleDeviceConnect(a);
  }

  /**
   * Devices a and b connect, a connects again, b reports data, a reports
   * "connected" and then data, and then "disconnected": a is announced once,
   * unlisted once, and keeps its data and status entries.
   */
  method Example(a: Device, b: Device, v: Option<string>, w: Option<string>)
    returns (list: seq<Device>, calls: seq<EmitCall>, data: map<string, Option<string>>, status: map<string, Status>)
    requires a.id != b.id
    ensures list == [b]
    ensures calls == [EmitConnected(a), EmitConnected(b), EmitData(b, v, "raw"),
                      EmitData(a, w, "raw"), EmitDisconnected(a)]
    ensures a.id in data && b.id in data && data[a.id] == w && data[b.id] == v
    ensures a.id in status && status[a.id] == Disconnected
  {
    var screen := ConnectTwo(a, b);
    assert Find([a, b], b.id) == Some(b);
    assert Find([a, b], a.id) == Some(a);
    screen.HandleData(b.id, v);
    screen.HandleStatusChange(a.id, Connected);
    screen.HandleData(a.id, w);
    assert Without([a, b], a.id) == [b];
    screen.HandleStatusChange(a.id, Disconnected);
    list, calls, data, status := screen.connectedDevices, screen.calls, screen.deviceData, screen.deviceStatus;
  }

  /**
   * Data and statuses for an unlisted id are recorded but relay nothing. This
   * relies on each handler reading the screen's current device list; in the app
   * a callback runs the handler of the render that created it, with the list as
   * it was then.
   */
  method UnlistedExample(d: Device, v: Option<string>)
    returns (calls: seq<EmitCall>, data: map<string, Option<string>>, status: map<string, Status>)
    ensures calls == []
    ensures d.id in data && data[d.id] == v
    ensures d.id in status && status[d.id] == Disconnected
  {
    var screen := new Screen();
    screen.HandleData(d.id, v);
    screen.HandleStatusChange(d.id, Reconnecting);
    screen.HandleStatusChange(d.id, Disconnected);
    calls, data, status := screen.calls, screen.deviceData, screen.deviceStatus;
  }
}
