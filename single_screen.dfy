/**
 * The single-device screen (mobile/App.js, `AppContent`).
 *
 * It shows the scanner while no device is selected and the selected device's
 * connection manager otherwise, keeps the latest data and status, and turns the
 * manager's callbacks into relay events. The emit calls it makes on the socket
 * provider are logged in `calls`, in order.
 */
module SingleDeviceScreen {
  import opened Wrappers
  import opened Protocol
  import opened SocketEmitter

  class Screen {
    var selected: Option<Device>
    var deviceData: Option<string>
    var deviceStatus: Status
    var calls: seq<EmitCall>

    constructor ()
      ensures selected == None && deviceData == None && deviceStatus == Disconnected && calls == []
    {
      selected, deviceData, deviceStatus, calls := None, None, Disconnected, [];
    }

    /** The scanner is rendered exactly when no device is selected. */
    predicate ShowsScanner()
      reads this
    {
      selected.None?
    }

    /** `handleDeviceSelect`: select the device and announce it. */
    method HandleDeviceSelect(d: Device)
      modifies this
      ensures selected == Some(d) && calls == old(calls) + [EmitConnected(d)]
      ensures deviceData == old(deviceData) && deviceStatus == old(deviceStatus)
    {
      selected := Some(d);
      calls := calls + [EmitConnected(d)];
    }

    /** `handleData`: store the data, and relay it with unit "raw" while a device is selected. */
    method HandleData(data: Option<string>)
      modifies this
      ensures deviceData == data
      ensures selected == old(selected) && deviceStatus == old(deviceStatus)
      ensures calls == old(calls) + if selected.Some? then [EmitData(selected.value, data, "raw")] else []
    {
      deviceData := data;
      if selected.Some? {
        calls := calls + [EmitData(selected.value, data, "raw")];
      }
    }

    /**
     * `handleStatusChange`: store the status; on "disconnected" while a device is
     * selected, announce the disconnect and return to the scanner.
     */
    method HandleStatusChange(status: Status)
      modifies this
      ensures deviceStatus == status && deviceData == old(deviceData)
      ensures if status == Disconnected && old(selected).Some? then
          selected == None && calls == old(calls) + [EmitDisconnected(old(selected).value)]
        else
          selected == old(selected) && calls == old(calls)
    {
      deviceStatus := status;
      TextInjective(status, Disconnected);
      if status.Text() == "disconnected" && selected.Some? {
        calls := calls + [EmitDisconnected(selected.value)];
        selected := None;
      }
    }

    /** The "Back to Scanner" button: drop the selection and emit nothing. */
    method BackToScanner()
      modifies this
      ensures selected == None && calls == old(calls)
      ensures deviceData == old(deviceData) && deviceStatus == old(deviceStatus)
    {
      selected := None;
    }
  }

  /**
   * Select a device, receive data, connect, disconnect: the device is announced,
   * its data relayed and its disconnect announced, and the scanner shows again.
   */
  method SessionExample(d: Device, v: Option<string>)
    returns (calls: seq<EmitCall>, scanner: bool, data: Option<string>, status: Status)
    ensures calls == [EmitConnected(d), EmitData(d, v, "raw"), EmitDisconnected(d)]
    ensures scanner && data == v && status == Disconnected
  {
    var screen := new Screen();
    screen.HandleDeviceSelect(d);
    screen.HandleStatusChange(Connected);
    screen.HandleData(v);
    screen.HandleStatusChange(Disconnected);
    calls, scanner, data, status := screen.calls, screen.ShowsScanner(), screen.deviceData, screen.deviceStatus;
  }

  /**
   * After "Back to Scanner" no event is relayed for the device: a later data
   * value is only stored, and a later "disconnected" is only recorded. This
   * relies on each handler reading the screen's current selection. In the app a
   * callback still in flight from the unmounted manager runs the handler of the
   * render that created it, which still sees the device selected.
   */
  method BackExample(d: Device, v: Option<string>)
    returns (calls: seq<EmitCall>, scanner: bool, data: Option<string>, status: Status)
    ensures calls == [EmitConnected(d)]
    ensures scanner && data == v && status == Disconnected
  {
    var screen := new Screen();
    screen.HandleDeviceSelect(d);
    screen.BackToScanner();
    screen.HandleData(v);
    screen.HandleStatusChange(Disconnected);
    calls, scanner, data, status := screen.calls, screen.ShowsScanner(), screen.deviceData, screen.deviceStatus;
  }
}
