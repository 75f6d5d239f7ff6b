/**
 * The scan screen (mobile/components/BLEScanner.js).
 *
 * Pressing the scan button runs `startScan`: it empties the result list, clears
 * the error, sets `scanning` and registers a scan callback, and arms a 10000 ms
 * timer that stops the scan. The callback reads the `devices` list of the render
 * in which `startScan` was created, so its duplicate check consults the list as
 * it was when the button was pressed (`captured`), not the list being built.
 *
 * Timers all have the same delay, so they fire in the order they were armed;
 * `stopTimers` holds, oldest first, the number of the scan that armed each
 * pending one. A new scan replaces the radio's scan callback (`listening`), and
 * the stop timer stops whichever scan is running.
 */
module Scanner {
  import opened Wrappers
  import opened Protocol
  import opened DeviceLists

  const StopDelayMs: nat := 10000

  class ScanScreen {
    var devices: seq<Device>
    var scanning: bool
    var error: Option<string>
    var listening: bool
    var captured: seq<Device>
    var stopTimers: seq<nat>
    var scans: nat

    /**
     * Listed devices all have a non-empty name; the pending timers belong to
     * scans already started, oldest first; a callback is registered only once a
     * scan has started.
     */
    ghost predicate Valid()
      reads this
    {
      && (forall i :: 0 <= i < |devices| ==> Truthy(devices[i].name))
      && (forall i :: 0 <= i < |stopTimers| ==> 0 < stopTimers[i] <= scans)
      && (forall i, j :: 0 <= i < j < |stopTimers| ==> stopTimers[i] < stopTimers[j])
      && (listening ==> scans > 0)
    }

    constructor ()
      ensures Valid()
      ensures devices == [] && !scanning && error == None && !listening
      ensures captured == [] && stopTimers == [] && scans == 0
    {
      devices, scanning, error, listening := [], false, None, false;
      captured, stopTimers, scans := [], [], 0;
    }

    /** The scan button is disabled while scanning. */
    predicate ButtonEnabled()
      reads this
    {
      !scanning
    }

    /** `startScan`. */
    method StartScan()
      requires Valid()
      modifies this
      ensures Valid()
      ensures devices == [] && error == None && scanning && listening
      ensures captured == old(devices)
      ensures scans == old(scans) + 1 && stopTimers == old(stopTimers) + [scans]
    {
      captured := devices;
      devices := [];
      error := None;
      scanning := true;
      listening := true;
      scans := scans + 1;
      stopTimers := stopTimers + [scans];
    }

    /** A press on the scan button: it starts a scan only when enabled. */
    method Press()
      requires Valid()
      modifies this
      ensures Valid()
      ensures old(scanning) ==>
        && devices == old(devices) && error == old(error) && scanning && listening == old(listening)
        && captured == old(captured) && stopTimers == old(stopTimers) && scans == old(scans)
      ensures !old(scanning) ==>
        && devices == [] && error == None && scanning && listening
        && captured == old(devices)
        && scans == old(scans) + 1 && stopTimers == old(stopTimers) + [scans]
    {
      if ButtonEnabled() {
        StartScan();
      }
    }

    /**
     * The scan callback with a result: a present device with a non-empty name is
     * appended, unless its id was in the list captured when the scan started.
     */
    method ScanResult(d: Option<Device>)
      requires Valid() && listening
      modifies this
      ensures Valid()
      ensures if d.Some? && Truthy(d.value.name) && Find(captured, d.value.id).None?
        then devices == old(devices) + [d.value]
        else devices == old(devices)
      ensures scanning == old(scanning) && error == old(error) && listening
      ensures captured == old(captured) && stopTimers == old(stopTimers) && scans == old(scans)
    {
      if d.Some? && Truthy(d.value.name) && Find(captured, d.value.id).None? {
        devices := devices + [d.value];
      }
    }

    /** The scan callback with an error: record its message and stop showing the scan as running. */
    method ScanError(message: string)
      requires Valid() && listening
      modifies this
      ensures Valid()
      ensures error == Some(message) && !scanning
      ensures devices == old(devices) && listening
      ensures captured == old(captured) && stopTimers == old(stopTimers) && scans == old(scans)
    {
      error := Some(message);
      scanning := false;
    }

    /** The oldest pending stop timer fires: it stops the current scan, whichever scan armed it. */
    method StopTimerFires() returns (armedBy: nat)
      requires Valid() && |stopTimers| > 0
      modifies this
      ensures Valid()
      ensures armedBy == old(stopTimers[0]) && stopTimers == old(stopTimers[1..])
      ensures !scanning && !listening
      ensures devices == old(devices) && error == old(error)
      ensures captured == old(captured) && scans == old(scans)
    {
      armedBy := stopTimers[0];
      stopTimers := stopTimers[1..];
      scanning := false;
      listening := false;
    }
  }

  /** A named device reported twice within one scan is listed twice. */
  method RepeatWithinScan(d: Device) returns (devices: seq<Device>)
    requires Truthy(d.name)
    ensures devices == [d, d]
  {
    var s := new ScanScreen();
    s.Press();
    s.ScanResult(Some(d));
    s.ScanResult(Some(d));
    devices := s.devices;
  }

  /** Missing devices and devices with no or an empty name are never listed. */
  method UnnamedIgnored(id: string) returns (devices: seq<Device>)
    ensures devices == []
  {
    var s := new ScanScreen();
    s.Press();
    s.ScanResult(None);
    s.ScanResult(Some(Device(id, None)));
    s.ScanResult(Some(Device(id, Some(""))));
    devices := s.devices;
  }

  /** One finished scan that listed d. */
  method ScannedOnce(d: Device) returns (s: ScanScreen)
    requires Truthy(d.name)
    ensures fresh(s) && s.Valid()
    ensures s.devices == [d] && !s.scanning && !s.listening && s.stopTimers == [] && s.scans == 1
  {
    s := new ScanScreen();
    s.Press();
    s.ScanResult(Some(d));
    var _ := s.StopTimerFires();
  }

  /**
   * A device listed by the previous scan is skipped by the next one, while a
   * device it had not listed is listed again.
   */
  method PreviousScanSkipped(d: Device, e: Device) returns (devices: seq<Device>)
    requires Truthy(d.name) && Truthy(e.name) && d.id != e.id
    ensures devices == [e]
  {
    var s := ScannedOnce(d);
    s.Press();
    assert s.captured == [d];
    s.ScanResult(Some(d));
    s.ScanResult(Some(e));
    devices := s.devices;
  }

  /**
   * A scan that ends in an error re-enables the button; the stop timer of that
   * first scan then ends the second scan, whose own timer is still pending.
   */
  method EarlierTimerEndsLaterScan(message: string)
    returns (armedBy: nat, current: nat, scanning: bool, pending: seq<nat>)
    ensures armedBy == 1 && current == 2 && !scanning && pending == [2]
  {
    var s := new ScanScreen();
    s.Press();
    s.ScanError(message);
    s.Press();
    armedBy := s.StopTimerFires();
    current, scanning, pending := s.scans, s.scanning, s.stopTimers;
  }

  /** A second press while scanning is ignored: one scan, one timer. */
  method PressWhileScanning() returns (scans: nat, pending: seq<nat>, enabled: bool)
    ensures scans == 1 && pending == [1] && !enabled
  {
    var s := new ScanScreen();
    s.Press();
    s.Press();
    scans, pending, enabled := s.scans, s.stopTimers, s.ButtonEnabled();
  }
}
