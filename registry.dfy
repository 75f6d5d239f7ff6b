/**
 * The web observer's device registry (web/src/components/DeviceList.js).
 *
 * The registry maps a device id to a projection record. Each relayed event is
 * folded in by a pure point update, the spread `{...prev, [id]: {...prev[id], …}}`:
 * the entry for the event's id is merged with the fields the event sets, and
 * every other entry is kept. The observer's clock (`Date.now()`) is the `now`
 * of each arrival; the payload's own timestamp is not read.
 */
module Registry {
  import opened Wrappers
  import opened Protocol

  /** What the observer shows for one device. `lastEvent` is the label of the event that last touched it. */
  datatype Projection = Projection(
    id: string,
    name: Option<string>,
    value: Option<string>,
    unit: Option<string>,
    status: Status,
    lastUpdate: int,
    lastEvent: string)

  type Devices = map<string, Projection>

  /** The `lastEvent` string the observer stores for each event kind. */
  function Label(e: EventName): (r: string)
    ensures r == "connected" <==> e == DeviceConnected
    ensures r == "data" <==> e == DeviceData
    ensures r == "disconnected" <==> e == DeviceDisconnected
  {
    match e
    case DeviceConnected => "connected"
    case DeviceData => "data"
    case DeviceDisconnected => "disconnected"
  }

  /** An event as it arrives at the observer, with the observer's clock reading. */
  datatype Arrival = Arrival(msg: Message, now: int)

  /** The connect handler of the observer's socket: join the shared room. */
  function OnSocketConnect(): (out: Outgoing)
    ensures out.JoinRoom? && Truthy(Some(out.room))
  {
    JoinRoom(SharedRoom)
  }

  /**
   * `{...prev[id]}`: the earlier entry, or a record with no name, value or unit
   * when the id is unseen (its status, time and last event are always overwritten).
   */
  function Earlier(devices: Devices, id: string): (p: Projection)
    ensures id !in devices ==> p.name == None && p.value == None && p.unit == None
  {
    if id in devices then devices[id] else Projection(id, None, None, None, Disconnected, 0, "")
  }

  /** The `device_connected` handler. */
  function OnConnected(devices: Devices, p: Payload, now: int): (r: Devices)
    ensures r.Keys == devices.Keys + {p.id}
    ensures forall k :: k in devices && k != p.id ==> r[k] == devices[k]
  {
    devices[p.id := Earlier(devices, p.id).(
      id := p.id, name := p.name, status := Connected, lastUpdate := now, lastEvent := Label(DeviceConnected))]
  }

  /** The `device_data` handler. */
  function OnData(devices: Devices, p: Payload, now: int): (r: Devices)
    ensures r.Keys == devices.Keys + {p.id}
    ensures forall k :: k in devices && k != p.id ==> r[k] == devices[k]
  {
    devices[p.id := Earlier(devices, p.id).(
      id := p.id, value := p.value, unit := p.unit, status := Connected, lastUpdate := now, lastEvent := Label(DeviceData))]
  }

  /** The `device_disconnected` handler. */
  function OnDisconnected(devices: Devices, p: Payload, now: int): (r: Devices)
    ensures r.Keys == devices.Keys + {p.id}
    ensures forall k :: k in devices && k != p.id ==> r[k] == devices[k]
  {
    devices[p.id := Earlier(devices, p.id).(
      id := p.id, status := Disconnected, lastUpdate := now, lastEvent := Label(DeviceDisconnected))]
  }

  /**
   * One arrival: only the entry of the event's id changes, an unseen id gains an
   * entry, and no entry is ever removed.
   */
  function Apply(devices: Devices, a: Arrival): (r: Devices)
    ensures r.Keys == devices.Keys + {a.msg.payload.id}
    ensures forall k :: k in devices && k != a.msg.payload.id ==> r[k] == devices[k]
  {
    match a.msg.name
    case DeviceConnected => OnConnected(devices, a.msg.payload, a.now)
    case DeviceData => OnData(devices, a.msg.payload, a.now)
    case DeviceDisconnected => OnDisconnected(devices, a.msg.payload, a.now)
  }

  /** The registry after a sequence of arrivals, in arrival order. */
  function Fold(devices: Devices, arrivals: seq<Arrival>): Devices
    decreases |arrivals|
  {
    if arrivals == [] then devices
    else Apply(Fold(devices, arrivals[..|arrivals| - 1]), arrivals[|arrivals| - 1])
  }

  // ---------------------------------------------------------------------------
  // A reference definition: what the projection of a device should be, read off
  // the arrivals directly.

  /** The last arrival that concerns `id`. */
  function LastFor(arrivals: seq<Arrival>, id: string): Option<Arrival>
    decreases |arrivals|
  {
    if arrivals == [] then None
    else if arrivals[|arrivals| - 1].msg.payload.id == id then Some(arrivals[|arrivals| - 1])
    else LastFor(arrivals[..|arrivals| - 1], id)
  }

  /** The last arrival of kind `k` that concerns `id`. */
  function LastKindFor(arrivals: seq<Arrival>, id: string, k: EventName): Option<Arrival>
    decreases |arrivals|
  {
    if arrivals == [] then None
    else
      var a := arrivals[|arrivals| - 1];
      if a.msg.payload.id == id && a.msg.name == k then Some(a)
      else LastKindFor(arrivals[..|arrivals| - 1], id, k)
  }

  /**
   * The name comes from the last `device_connected`, value and unit from the last
   * `device_data`; status, time and last event from the last event of any kind,
   * and the status is "disconnected" exactly when that event was a disconnect.
   */
  function Expected(arrivals: seq<Arrival>, id: string): Projection
    requires LastFor(arrivals, id).Some?
  {
    var last := LastFor(arrivals, id).value;
    var conn := LastKindFor(arrivals, id, DeviceConnected);
    var data := LastKindFor(arrivals, id, DeviceData);
    Projection(
      id,
      if conn.Some? then conn.value.msg.payload.name else None,
      if data.Some? then data.value.msg.payload.value else None,
      if data.Some? then data.value.msg.payload.unit else None,
      if last.msg.name == DeviceDisconnected then Disconnected else Connected,
      last.now,
      Label(last.msg.name))
  }

  lemma {:induction false} KindImpliesAny(arrivals: seq<Arrival>, id: string, k: EventName)
    ensures LastKindFor(arrivals, id, k).Some? ==> LastFor(arrivals, id).Some?
    decreases |arrivals|
  {
    if arrivals != [] {
      KindImpliesAny(arrivals[..|arrivals| - 1], id, k);
    }
  }

  /**
   * Folding a stream into the empty registry gives every device mentioned in it
   * (and no other) exactly the reference projection.
   */
  lemma {:induction false} FoldMatchesReference(arrivals: seq<Arrival>, id: string)
    ensures id in Fold(map[], arrivals) <==> LastFor(arrivals, id).Some?
    ensures id in Fold(map[], arrivals) ==> Fold(map[], arrivals)[id] == Expected(arrivals, id)
    decreases |arrivals|
  {
    if arrivals != [] {
      var init := arrivals[..|arrivals| - 1];
      var a := arrivals[|arrivals| - 1];
      FoldMatchesReference(init, id);
      if a.msg.payload.id == id {
        KindImpliesAny(init, id, DeviceConnected);
        KindImpliesAny(init, id, DeviceData);
      }
    }
  }

  /** Every projection's status is "connected" or "disconnected". */
  ghost predicate LinkStatusesOnly(devices: Devices) {
    forall k :: k in devices ==> devices[k].status in {Connected, Disconnected}
  }

  lemma {:induction false} FoldKeepsLinkStatuses(devices: Devices, arrivals: seq<Arrival>)
    requires LinkStatusesOnly(devices)
    ensures LinkStatusesOnly(Fold(devices, arrivals))
    decreases |arrivals|
  {
    if arrivals != [] {
      FoldKeepsLinkStatuses(devices, arrivals[..|arrivals| - 1]);
    }
  }

  /** The ids the arrivals mention. */
  function Mentioned(arrivals: seq<Arrival>): set<string> {
    set i | 0 <= i < |arrivals| :: arrivals[i].msg.payload.id
  }

  /** Entries are never removed, and every id an arrival mentions has an entry. */
  lemma {:induction false} FoldOnlyAdds(devices: Devices, arrivals: seq<Arrival>)
    ensures Fold(devices, arrivals).Keys == devices.Keys + Mentioned(arrivals)
    decreases |arrivals|
  {
    if arrivals != [] {
      var init := arrivals[..|arrivals| - 1];
      FoldOnlyAdds(devices, init);
      forall x | x in Mentioned(arrivals)
        ensures x in Mentioned(init) + {arrivals[|arrivals| - 1].msg.payload.id}
      {
        var i :| 0 <= i < |arrivals| && arrivals[i].msg.payload.id == x;
        if i < |init| {
          assert init[i] == arrivals[i];
        }
      }
      forall x | x in Mentioned(init)
        ensures x in Mentioned(arrivals)
      {
        var i :| 0 <= i < |init| && init[i].msg.payload.id == x;
        assert arrivals[i] == init[i];
      }
    }
  }

  /**
   * The time of an entry is the observer's clock at arrival; the timestamp the
   * event carries plays no part.
   */
  lemma ClockNotTimestamp(devices: Devices, a: Arrival, t: int)
    ensures Apply(devices, a)[a.msg.payload.id].lastUpdate == a.now
    ensures Apply(devices, a.(msg := a.msg.(payload := a.msg.payload.(timestamp := t)))) == Apply(devices, a)
  {
  }

  /** The three updates, field by field, for the entry of the event's id. */
  lemma UpdateRules(devices: Devices, p: Payload, now: int)
    ensures var e := Earlier(devices, p.id);
      && OnConnected(devices, p, now)[p.id]
         == Projection(p.id, p.name, e.value, e.unit, Connected, now, "connected")
      && OnData(devices, p, now)[p.id]
         == Projection(p.id, e.name, p.value, p.unit, Connected, now, "data")
      && OnDisconnected(devices, p, now)[p.id]
         == Projection(p.id, e.name, e.value, e.unit, Disconnected, now, "disconnected")
  {
  }

  /**
   * connected "HRM", then data "72", then disconnected, for one device: the device
   * shows disconnected, and keeps its name and its last value.
   */
  lemma FoldExample(p: Payload, t0: int, t1: int, t2: int)
    ensures var arrivals := [
        Arrival(Message(DeviceConnected, p.(id := "d1", name := Some("HRM"))), t0),
        Arrival(Message(DeviceData, p.(id := "d1", value := Some("72"))), t1),
        Arrival(Message(DeviceDisconnected, p.(id := "d1")), t2)];
      && "d1" in Fold(map[], arrivals)
      && var d := Fold(map[], arrivals)["d1"];
      && d.status == Disconnected && d.lastEvent == "disconnected"
      && d.value == Some("72") && d.name == Some("HRM") && d.lastUpdate == t2
  {
    var arrivals := [
        Arrival(Message(DeviceConnected, p.(id := "d1", name := Some("HRM"))), t0),
        Arrival(Message(DeviceData, p.(id := "d1", value := Some("72"))), t1),
        Arrival(Message(DeviceDisconnected, p.(id := "d1")), t2)];
    assert arrivals[..2][..1] == arrivals[..1] && arrivals[..1][..0] == [];
    assert Fold(map[], arrivals[..1])["d1"].name == Some("HRM");
    assert Fold(map[], arrivals[..2])["d1"].name == Some("HRM");
  }
}
