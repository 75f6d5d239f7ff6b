/**
 * The per-device connection component (mobile/components/DeviceConnectionManager.js).
 *
 * The component holds a status, the latest data value, a `connecting` flag and a
 * reference (`reconnectTimeout`) to the reconnect timer it armed last. The timers
 * themselves are tracked apart from that reference: clearing goes through the
 * reference, so only the timer it names can be cancelled. Its asynchronous callback chain
 * is cut into discrete events: the device being supplied, a connect attempt
 * settling, service discovery settling, a monitor notification, the peer dropping
 * the link, the reconnect timer firing and cleanup. What the radio library does is
 * an input: whether an attempt or a discovery succeeds is a parameter, and an
 * event can only happen when the library has something outstanding that produces it.
 *
 * The spec functions on `ConnState` say what each event does; the class
 * `Connection` performs the same events on its fields, and its methods are proved
 * against those functions.
 */
module DeviceConnection {
  import opened Wrappers
  import opened Protocol

  /** Delay before a reconnect attempt, in milliseconds. */
  const ReconnectDelayMs: nat := 3000

  /** What the component does towards its parent and the radio library, in order. */
  datatype Effect =
    | Reported(status: Status)          // onStatusChange(status)
    | Forwarded(value: Option<string>)  // onData(value)
    | Armed(delayMs: nat)               // setTimeout for a reconnect
    | Attempted                         // one connectToDevice call
    | TornDown                          // cancelDeviceConnection (rejection swallowed) and destroy

  /**
   * The component's state. `pendingLinks` and `pendingDiscoveries` count connect
   * attempts and service discoveries the library has not settled yet; `monitors`
   * and `watchers` count the registered characteristic monitors and
   * onDisconnected handlers. `timers` holds the delays of the reconnect timers
   * still pending, oldest first (they share one delay, so they fire in that
   * order); `refPending` says that the timer the reference names is among them,
   * and then it is the last one, being the one armed most recently.
   */
  datatype ConnState = ConnState(
    device: Option<Device>,
    status: Status,
    data: Option<string>,
    connecting: bool,
    timers: seq<nat>,
    refPending: bool,
    pendingLinks: nat,
    pendingDiscoveries: nat,
    monitors: nat,
    watchers: nat,
    trace: seq<Effect>)

  /** The state of a freshly mounted component. */
  function Initial(): ConnState {
    ConnState(None, Disconnected, None, false, [], false, 0, 0, 0, 0, [])
  }

  /** The events the component reacts to. */
  datatype Event =
    | DeviceSupplied(device: Option<Device>)
    | LinkSettled(ok: bool)
    | DiscoverySettled(ok: bool)
    | MonitorNotified(failed: bool, value: Option<string>)
    | LinkLost
    | TimerFired
    | CleanupRequested

  /** An event can occur only when the library has something outstanding that produces it. */
  predicate Possible(s: ConnState, e: Event) {
    match e
    case LinkSettled(_) => s.pendingLinks > 0
    case DiscoverySettled(_) => s.pendingDiscoveries > 0
    case MonitorNotified(_, _) => s.monitors > 0
    case LinkLost => s.watchers > 0
    case TimerFired => |s.timers| > 0
    case _ => true
  }

  /** connectToDevice: one connect attempt is issued. */
  function ConnectStep(s: ConnState): ConnState {
    s.(pendingLinks := s.pendingLinks + 1, trace := s.trace + [Attempted])
  }

  /**
   * clearTimeout on the reference: the timer it names is cancelled if still
   * pending; a timer that has already fired is left alone. Any other pending
   * timer is out of its reach.
   */
  function ClearRef(s: ConnState): ConnState {
    if s.refPending && |s.timers| > 0 then s.(timers := s.timers[..|s.timers| - 1], refPending := false)
    else s.(refPending := false)
  }

  /** attemptReconnect: clear through the reference, then arm one new timer and point the reference at it. */
  function ReconnectStep(s: ConnState): ConnState {
    var c := ClearRef(s);
    c.(timers := c.timers + [ReconnectDelayMs], refPending := true, trace := c.trace + [Armed(ReconnectDelayMs)])
  }

  /** The catch block of connectToDevice. */
  function FailStep(s: ConnState): ConnState {
    ReconnectStep(s.(status := Disconnected, connecting := false, trace := s.trace + [Reported(Disconnected)]))
  }

  /** cleanup: the referenced timer is cleared and teardown is requested; nothing else changes. */
  function CleanupStep(s: ConnState): ConnState {
    var c := ClearRef(s);
    c.(trace := c.trace + [TornDown])
  }

  /**
   * The effect on `[device]`: it re-runs only when the device changes; the
   * previous run's cleanup goes first; a missing device does nothing more.
   */
  function SupplyStep(s: ConnState, d: Option<Device>): ConnState {
    if d == s.device then s
    else
      var s1 := if s.device.Some? then CleanupStep(s) else s;
      if d.None? then s1.(device := None)
      else ConnectStep(s1.(device := d, connecting := true, status := Connecting))
  }

  /** A connect attempt settles: success reports "connected" and starts discovery. */
  function LinkStep(s: ConnState, ok: bool): ConnState
    requires s.pendingLinks > 0
  {
    var s1 := s.(pendingLinks := s.pendingLinks - 1);
    if ok then
      s1.(status := Connected, connecting := false, trace := s1.trace + [Reported(Connected)],
          pendingDiscoveries := s1.pendingDiscoveries + 1)
    else FailStep(s1)
  }

  /** Discovery settles: success subscribes to data and registers onDisconnected. */
  function DiscoveryStep(s: ConnState, ok: bool): ConnState
    requires s.pendingDiscoveries > 0
  {
    var s1 := s.(pendingDiscoveries := s.pendingDiscoveries - 1);
    if ok then s1.(monitors := s1.monitors + 1, watchers := s1.watchers + 1)
    else FailStep(s1)
  }

  /** The monitor callback: an error sets "error"; a value is stored and forwarded. */
  function MonitorStep(s: ConnState, failed: bool, value: Option<string>): ConnState {
    if failed then s.(status := Error, trace := s.trace + [Reported(Error)])
    else s.(data := value, trace := s.trace + [Forwarded(value)])
  }

  /** The onDisconnected handler. */
  function LossStep(s: ConnState): ConnState {
    ReconnectStep(s.(status := Disconnected, trace := s.trace + [Reported(Disconnected)]))
  }

  /**
   * The oldest pending timer's callback. The reference still names it when it
   * was the only one pending, and then names a timer that has fired.
   */
  function FireStep(s: ConnState): ConnState
    requires |s.timers| > 0
  {
    ConnectStep(s.(timers := s.timers[1..], refPending := s.refPending && |s.timers| > 1,
                   status := Reconnecting, trace := s.trace + [Reported(Reconnecting)]))
  }

  function Step(s: ConnState, e: Event): ConnState
    requires Possible(s, e)
  {
    match e
    case DeviceSupplied(d) => SupplyStep(s, d)
    case LinkSettled(ok) => LinkStep(s, ok)
    case DiscoverySettled(ok) => DiscoveryStep(s, ok)
    case MonitorNotified(failed, v) => MonitorStep(s, failed, v)
    case LinkLost => LossStep(s)
    case TimerFired => FireStep(s)
    case CleanupRequested => CleanupStep(s)
  }

  /** Runs a sequence of events; None when one of them could not have occurred. */
  function Run(s: ConnState, es: seq<Event>): Option<ConnState>
    decreases |es|
  {
    if es == [] then Some(s)
    else if Possible(s, es[0]) then Run(Step(s, es[0]), es[1..])
    else None
  }

  /** The Disconnect button is enabled only while connected or reconnecting. */
  predicate DisconnectEnabled(status: Status) {
    status == Connected || status == Reconnecting
  }

  /** The last status reported to the parent, if any. */
  function LastReport(t: seq<Effect>): Option<Status>
    decreases |t|
  {
    if t == [] then None
    else if t[|t| - 1].Reported? then Some(t[|t| - 1].status)
    else LastReport(t[..|t| - 1])
  }

  /** The number of reconnect timers armed in a trace. */
  function ArmedCount(t: seq<Effect>): nat
    decreases |t|
  {
    if t == [] then 0
    else ArmedCount(t[..|t| - 1]) + (if t[|t| - 1].Armed? then 1 else 0)
  }

  /**
   * Timer bookkeeping that holds in every state the component reaches: at most
   * one reconnect timer is pending, it has the fixed delay, and it is the one the
   * reference names.
   */
  ghost predicate TimersOk(s: ConnState) {
    && (s.timers == [] || s.timers == [ReconnectDelayMs])
    && (s.refPending <==> s.timers != [])
  }

  /**
   * What holds in every state the component reaches: the timer bookkeeping
   * above; the "connecting" status goes with the connecting flag,
   * which goes with an attempt in flight; "connecting" is never reported to the
   * parent; and apart from the silent "connecting" the status is the one last
   * reported (or the initial "disconnected" when nothing was reported yet).
   */
  ghost predicate Inv(s: ConnState) {
    && TimersOk(s)
    && (s.status == Connecting ==> s.connecting)
    && (s.connecting ==> s.pendingLinks > 0)
    && (forall i :: 0 <= i < |s.trace| ==> s.trace[i] != Reported(Connecting))
    && (s.status != Connecting ==> LastReport(s.trace).GetOr(Disconnected) == s.status)
  }

  lemma LastReportAppend(t: seq<Effect>, e: Effect)
    ensures LastReport(t + [e]) == if e.Reported? then Some(e.status) else LastReport(t)
  {
    assert (t + [e])[..|t + [e]| - 1] == t;
  }

  lemma ArmedCountAppend(t: seq<Effect>, u: seq<Effect>)
    ensures ArmedCount(t + u) == ArmedCount(t) + ArmedCount(u)
    decreases |u|
  {
    if u == [] {
      assert t + u == t;
    } else {
      assert (t + u)[..|t + u| - 1] == t + u[..|u| - 1];
      ArmedCountAppend(t, u[..|u| - 1]);
    }
  }

  lemma InitialInv()
    ensures Inv(Initial())
  {
  }

  /** In a reachable state the clear leaves no timer pending and changes nothing else. */
  lemma ClearRefEmpties(s: ConnState)
    requires TimersOk(s)
    ensures ClearRef(s) == s.(timers := [], refPending := false)
  {
  }

  lemma CleanupInv(s: ConnState)
    requires Inv(s)
    ensures Inv(CleanupStep(s))
  {
    ClearRefEmpties(s);
    LastReportAppend(s.trace, TornDown);
  }

  lemma SupplyInv(s: ConnState, d: Option<Device>)
    requires Inv(s)
    ensures Inv(SupplyStep(s, d))
  {
    if d != s.device {
      var s1 := if s.device.Some? then CleanupStep(s) else s;
      if s.device.Some? {
        CleanupInv(s);
      }
      if d.Some? {
        LastReportAppend(s1.trace, Attempted);
      }
    }
  }

  /** A failure report followed by a reconnect keeps the invariant. */
  lemma FailInv(s: ConnState)
    requires TimersOk(s)
    requires forall i :: 0 <= i < |s.trace| ==> s.trace[i] != Reported(Connecting)
    ensures Inv(FailStep(s))
  {
    LastReportAppend(s.trace, Reported(Disconnected));
    LastReportAppend(s.trace + [Reported(Disconnected)], Armed(ReconnectDelayMs));
  }

  lemma LinkInv(s: ConnState, ok: bool)
    requires Inv(s) && s.pendingLinks > 0
    ensures Inv(LinkStep(s, ok))
  {
    var s1 := s.(pendingLinks := s.pendingLinks - 1);
    if ok {
      LastReportAppend(s1.trace, Reported(Connected));
    } else {
      FailInv(s1);
    }
  }

  lemma DiscoveryInv(s: ConnState, ok: bool)
    requires Inv(s) && s.pendingDiscoveries > 0
    ensures Inv(DiscoveryStep(s, ok))
  {
    if !ok {
      FailInv(s.(pendingDiscoveries := s.pendingDiscoveries - 1));
    }
  }

  lemma LossInv(s: ConnState)
    requires Inv(s)
    ensures Inv(LossStep(s))
  {
    LastReportAppend(s.trace, Reported(Disconnected));
    LastReportAppend(s.trace + [Reported(Disconnected)], Armed(ReconnectDelayMs));
  }

  lemma FireInv(s: ConnState)
    requires Inv(s) && |s.timers| > 0
    ensures Inv(FireStep(s))
  {
    LastReportAppend(s.trace, Reported(Reconnecting));
    LastReportAppend(s.trace + [Reported(Reconnecting)], Attempted);
  }

  /** Every possible event keeps the invariant. */
  lemma StepInv(s: ConnState, e: Event)
    requires Inv(s) && Possible(s, e)
    ensures Inv(Step(s, e))
  {
    match e
    case DeviceSupplied(d) => SupplyInv(s, d);
    case LinkSettled(ok) => LinkInv(s, ok);
    case DiscoverySettled(ok) => DiscoveryInv(s, ok);
    case MonitorNotified(failed, v) =>
      LastReportAppend(s.trace, if failed then Reported(Error) else Forwarded(v));
    case LinkLost => LossInv(s);
    case TimerFired => FireInv(s);
    case CleanupRequested => CleanupInv(s);
  }

  /** Every run of possible events from an invariant state keeps the invariant. */
  lemma {:induction false} RunInv(s: ConnState, es: seq<Event>)
    requires Inv(s)
    ensures Run(s, es).Some? ==> Inv(Run(s, es).value)
    decreases |es|
  {
    if es != [] && Possible(s, es[0]) {
      StepInv(s, es[0]);
      RunInv(Step(s, es[0]), es[1..]);
    }
  }

  /**
   * Supplying a new device starts "connecting" with exactly one connect attempt,
   * after tearing the previous device down when there was one.
   */
  lemma SupplyConnects(s: ConnState, d: Device)
    requires Some(d) != s.device
    ensures var r := SupplyStep(s, Some(d));
      && r.device == Some(d) && r.status == Connecting && r.connecting
      && r.pendingLinks == s.pendingLinks + 1
      && r.trace == s.trace + (if s.device.Some? then [TornDown] else []) + [Attempted]
      && (s.device.Some? ==> !r.refPending)
  {
  }

  /** Supplying the device already held, or no device when none is held, changes nothing. */
  lemma SupplySameIsNoOp(s: ConnState, d: Option<Device>)
    ensures d == s.device ==> SupplyStep(s, d) == s
    ensures d.None? && s.device.Some? ==> SupplyStep(s, d) == CleanupStep(s).(device := None)
  {
  }

  /**
   * A successful link reports "connected" once and before discovery; a discovery
   * failure afterwards still ends disconnected, with one "disconnected" report and
   * a reconnect armed.
   */
  lemma ConnectedThenDiscoveryFails(s: ConnState)
    requires Inv(s) && s.pendingLinks > 0
    ensures var c := LinkStep(s, true);
      && c.status == Connected && !c.connecting && c.pendingDiscoveries > 0
      && c.trace == s.trace + [Reported(Connected)]
      && var f := DiscoveryStep(c, false);
         && f.status == Disconnected && !f.connecting && f.timers == [ReconnectDelayMs] && f.refPending
         && f.trace == s.trace + [Reported(Connected), Reported(Disconnected), Armed(ReconnectDelayMs)]
  {
  }

  /** Only a newly supplied device enters "connecting"; the retry path never does. */
  lemma OnlySupplyConnects(s: ConnState, e: Event)
    requires Possible(s, e)
    requires s.status != Connecting
    ensures Step(s, e).status == Connecting ==> e.DeviceSupplied?
    ensures e.TimerFired? ==> Step(s, e).status == Reconnecting && Step(s, e).connecting == s.connecting
  {
  }

  /** A monitor error reports "error" and neither forwards data nor arms a timer. */
  lemma MonitorErrorIsolated(s: ConnState, v: Option<string>)
    ensures var r := MonitorStep(s, true, v);
      && r.status == Error && r.trace == s.trace + [Reported(Error)]
      && r.timers == s.timers && r.refPending == s.refPending && r.data == s.data
      && ArmedCount(r.trace) == ArmedCount(s.trace)
  {
    ArmedCountAppend(s.trace, [Reported(Error)]);
    assert ArmedCount([Reported(Error)]) == 0 by {
      assert [Reported(Error)][..0] == [];
    }
  }

  /**
   * The monitor stays registered after the peer drops the link, so a value that
   * arrives then is stored and forwarded while the status is "disconnected".
   */
  lemma DataAfterLinkLoss(s: ConnState, v: Option<string>)
    requires s.watchers > 0 && s.monitors > 0
    ensures Possible(LossStep(s), MonitorNotified(false, v))
    ensures var r := MonitorStep(LossStep(s), false, v);
      && r.status == Disconnected && r.data == v
      && r.trace == s.trace + [Reported(Disconnected), Armed(ReconnectDelayMs), Forwarded(v)]
  {
  }

  /**
   * Cleanup cancels the referenced timer, which leaves no timer pending in a
   * reachable state, and keeps the status; a second cleanup only repeats teardown.
   */
  lemma CleanupTwice(s: ConnState)
    ensures !CleanupStep(s).refPending && CleanupStep(s).status == s.status
    ensures TimersOk(s) ==> CleanupStep(s).timers == []
    ensures CleanupStep(CleanupStep(s)) == CleanupStep(s).(trace := CleanupStep(s).trace + [TornDown])
  {
  }

  /**
   * Without the clear in attemptReconnect the timers would pile up: two peer
   * drops with a timer still pending leave one timer pending, not two.
   */
  lemma RepeatedLossKeepsOneTimer(s: ConnState)
    requires Inv(s)
    ensures LossStep(LossStep(s)).timers == [ReconnectDelayMs]
    ensures LossStep(LossStep(s)).trace ==
      s.trace + [Reported(Disconnected), Armed(ReconnectDelayMs), Reported(Disconnected), Armed(ReconnectDelayMs)]
  {
  }

  /** The cycle a failing attempt and the timer that follows it add to the trace. */
  function RetryCycle(): seq<Effect> {
    [Reported(Disconnected), Armed(ReconnectDelayMs), Reported(Reconnecting), Attempted]
  }

  lemma RetryCycleArmsOnce()
    ensures ArmedCount(RetryCycle()) == 1
  {
    var c3 := [Reported(Disconnected), Armed(ReconnectDelayMs), Reported(Reconnecting)];
    var c2 := [Reported(Disconnected), Armed(ReconnectDelayMs)];
    var c1 := [Reported(Disconnected)];
    assert RetryCycle()[..3] == c3 && c3[..2] == c2 && c2[..1] == c1 && c1[..0] == [];
    assert ArmedCount(c1) == 0;
    assert ArmedCount(c2) == 1;
    assert ArmedCount(c3) == 1;
  }

  function Repeat(t: seq<Effect>, n: nat): seq<Effect>
    decreases n
  {
    if n == 0 then [] else Repeat(t, n - 1) + t
  }

  /** n rounds of "attempt fails, timer fires", from a state with an attempt in flight. */
  function Retries(s: ConnState, n: nat): (r: ConnState)
    requires s.pendingLinks > 0
    ensures r.pendingLinks == s.pendingLinks
    decreases n
  {
    if n == 0 then s else FireStep(LinkStep(Retries(s, n - 1), false))
  }

  /**
   * A connection whose attempts fail n times in a row arms exactly n reconnect
   * timers, each of the fixed delay, one at a time: after each round no timer is
   * pending and one attempt is in flight again.
   */
  lemma {:induction false} RetriesArmOneTimerEach(s: ConnState, n: nat)
    requires s.pendingLinks > 0 && TimersOk(s)
    ensures Retries(s, n).trace == s.trace + Repeat(RetryCycle(), n)
    ensures Retries(s, n).pendingLinks == s.pendingLinks && TimersOk(Retries(s, n))
    ensures n > 0 ==> Retries(s, n).timers == [] && Retries(s, n).status == Reconnecting
    ensures ArmedCount(Retries(s, n).trace) == ArmedCount(s.trace) + n
    decreases n
  {
    if n > 0 {
      RetriesArmOneTimerEach(s, n - 1);
      var p := Retries(s, n - 1);
      RetryRound(p);
      assert Retries(s, n) == FireStep(LinkStep(p, false));
      assert p.trace + RetryCycle() == s.trace + Repeat(RetryCycle(), n);
      ArmedCountAppend(p.trace, RetryCycle());
      RetryCycleArmsOnce();
    }
  }

  /** One round of "attempt fails, timer fires" appends the retry cycle to the trace. */
  lemma RetryRound(p: ConnState)
    requires p.pendingLinks > 0 && TimersOk(p)
    ensures var r := FireStep(LinkStep(p, false));
      && r.trace == p.trace + RetryCycle()
      && r.timers == [] && !r.refPending && r.status == Reconnecting && r.pendingLinks == p.pendingLinks
  {
  }

  /** The Disconnect button is enabled exactly in the "connected" and "reconnecting" statuses. */
  lemma DisconnectStatuses(st: Status)
    ensures DisconnectEnabled(st) <==> st.Text() == "connected" || st.Text() == "reconnecting"
  {
    TextInjective(st, Connected);
    TextInjective(st, Reconnecting);
  }

  /** The Disconnect button after each event that changes the status, from any state that allows it. */
  lemma DisconnectButton(s: ConnState, d: Device, v: Option<string>)
    ensures Some(d) != s.device ==> !DisconnectEnabled(SupplyStep(s, Some(d)).status)
    ensures s.pendingLinks > 0 ==>
      DisconnectEnabled(LinkStep(s, true).status) && !DisconnectEnabled(LinkStep(s, false).status)
    ensures s.pendingDiscoveries > 0 ==>
      (DisconnectEnabled(DiscoveryStep(s, true).status) <==> DisconnectEnabled(s.status))
      && !DisconnectEnabled(DiscoveryStep(s, false).status)
    ensures !DisconnectEnabled(LossStep(s).status)
    ensures |s.timers| > 0 ==> DisconnectEnabled(FireStep(s).status)
    ensures !DisconnectEnabled(MonitorStep(s, true, v).status)
    ensures DisconnectEnabled(MonitorStep(s, false, v).status) <==> DisconnectEnabled(s.status)
  {
  }

  /** The component as a stateful object whose methods are the events. */
  class Connection {
    var device: Option<Device>
    var status: Status
    var data: Option<string>
    var connecting: bool
    var timers: seq<nat>
    var refPending: bool
    var pendingLinks: nat
    var pendingDiscoveries: nat
    var monitors: nat
    var watchers: nat
    var trace: seq<Effect>

    function Snapshot(): ConnState
      reads this
    {
      ConnState(device, status, data, connecting, timers, refPending, pendingLinks, pendingDiscoveries,
                monitors, watchers, trace)
    }

    constructor ()
      ensures Snapshot() == Initial()
    {
      device, status, data, connecting := None, Disconnected, None, false;
      timers, refPending := [], false;
      pendingLinks, pendingDiscoveries, monitors, watchers, trace := 0, 0, 0, 0, [];
    }

    /** The `[device]` effect (and the cleanup of its previous run). */
    method SupplyDevice(d: Option<Device>)
      modifies this
      ensures Snapshot() == SupplyStep(old(Snapshot()), d)
    {
      if d != device {
        if device.Some? {
          Cleanup();
        }
        device := d;
        if d.Some? {
          connecting := true;
          status := Connecting;
          ConnectToDevice();
        }
      }
    }

    /** Issues one connect attempt. */
    method ConnectToDevice()
      modifies this
      ensures Snapshot() == ConnectStep(old(Snapshot()))
    {
      pendingLinks := pendingLinks + 1;
      trace := trace + [Attempted];
    }

    /** A connect attempt settles (the first await of connectToDevice). */
    method OnLinkSettled(ok: bool)
      requires pendingLinks > 0
      modifies this
      ensures Snapshot() == LinkStep(old(Snapshot()), ok)
      ensures !connecting
      ensures status == if ok then Connected else Disconnected
      ensures CanDisconnect() <==> ok
    {
      pendingLinks := pendingLinks - 1;
      if ok {
        status := Connected;
        connecting := false;
        trace := trace + [Reported(Connected)];
        pendingDiscoveries := pendingDiscoveries + 1;
      } else {
        CatchFailure();
      }
    }

    /** Service discovery settles (the second await of connectToDevice). */
    method OnDiscoverySettled(ok: bool)
      requires pendingDiscoveries > 0
      modifies this
      ensures Snapshot() == DiscoveryStep(old(Snapshot()), ok)
      ensures ok ==> status == old(status)
      ensures !ok ==> status == Disconnected && !CanDisconnect() && refPending && timers[|timers| - 1] == ReconnectDelayMs
    {
      pendingDiscoveries := pendingDiscoveries - 1;
      if ok {
        monitors := monitors + 1;
        watchers := watchers + 1;
      } else {
        CatchFailure();
      }
    }

    /** The catch block of connectToDevice. */
    method CatchFailure()
      modifies this
      ensures Snapshot() == FailStep(old(Snapshot()))
    {
      status := Disconnected;
      connecting := false;
      trace := trace + [Reported(Disconnected)];
      AttemptReconnect();
    }

    /** The callback given to monitorCharacteristicForService. */
    method OnMonitor(failed: bool, value: Option<string>)
      requires monitors > 0
      modifies this
      ensures Snapshot() == MonitorStep(old(Snapshot()), failed, value)
      ensures timers == old(timers) && refPending == old(refPending)
      ensures !failed ==> data == value && trace == old(trace) + [Forwarded(value)]
    {
      if failed {
        status := Error;
        trace := trace + [Reported(Error)];
        return;
      }
      data := value;
      trace := trace + [Forwarded(value)];
    }

    /** The handler registered with onDisconnected. */
    method OnDisconnected()
      requires watchers > 0
      modifies this
      ensures Snapshot() == LossStep(old(Snapshot()))
      ensures status == Disconnected && !CanDisconnect()
      ensures refPending && timers[|timers| - 1] == ReconnectDelayMs
    {
      status := Disconnected;
      trace := trace + [Reported(Disconnected)];
      AttemptReconnect();
    }

    /** clearTimeout(reconnectTimeout.current): cancels the referenced timer if it is still pending. */
    method ClearReconnectTimer()
      modifies this
      ensures Snapshot() == ClearRef(old(Snapshot()))
      ensures !refPending
    {
      if refPending && |timers| > 0 {
        timers := timers[..|timers| - 1];
      }
      refPending := false;
    }

    /** attemptReconnect: clear the referenced timer, then arm a new one and keep a reference to it. */
    method AttemptReconnect()
      modifies this
      ensures Snapshot() == ReconnectStep(old(Snapshot()))
    {
      ClearReconnectTimer();
      timers := timers + [ReconnectDelayMs];
      refPending := true;
      trace := trace + [Armed(ReconnectDelayMs)];
    }

    /** The oldest pending reconnect timer fires. */
    method Fire()
      requires |timers| > 0
      modifies this
      ensures Snapshot() == FireStep(old(Snapshot()))
      ensures status == Reconnecting && CanDisconnect() && connecting == old(connecting)
      ensures timers == old(timers[1..])
    {
      refPending := refPending && |timers| > 1;
      timers := timers[1..];
      status := Reconnecting;
      trace := trace + [Reported(Reconnecting)];
      ConnectToDevice();
    }

    /** cleanup: unmount, a device change, or the Disconnect button. */
    method Cleanup()
      modifies this
      ensures Snapshot() == CleanupStep(old(Snapshot()))
      ensures !refPending && status == old(status)
    {
      ClearReconnectTimer();
      trace := trace + [TornDown];
    }

    /** Whether the Disconnect button is enabled. */
    predicate CanDisconnect()
      reads this
    {
      DisconnectEnabled(status)
    }
  }
}
