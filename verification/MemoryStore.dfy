/** The in-memory store (internal/store/memory.go): devices with their ingresses, and
    versioned routes that are staged and then activated by compare-and-swap. */
module MemoryStore {
  import opened Model

  datatype StoreState = StoreState(
    devices: map<DeviceId, Device>,
    routes: map<DeviceId, Route>,
    pending: map<DeviceId, Route>)

  const EMPTY := StoreState(map[], map[], map[])

  /** The version of a device's active route; 0 stands for "no route yet". */
  function Version(s: StoreState, id: DeviceId): int {
    if id in s.routes then s.routes[id].version else 0
  }

  predicate PortTaken(devices: map<DeviceId, Device>, port: int) {
    exists id, i :: id in devices && 0 <= i < |DeviceIngresses(devices[id])|
      && DeviceIngresses(devices[id])[i].port == port
  }

  // --- device values ---------------------------------------------------------

  function Repassworded(ingress: Ingress, password: string): Ingress {
    if ingress.primary then ingress.(password := password) else ingress
  }

  function WithPrimaryPassword(list: seq<Ingress>, password: string): seq<Ingress> {
    seq(|list|, i requires 0 <= i < |list| => Repassworded(list[i], password))
  }

  function Rotated(d: Device, password: string): Device {
    d.(ingressPassword := password, ingresses := WithPrimaryPassword(d.ingresses, password))
  }

  function WithIngress(d: Device, ingress: Ingress): Device {
    d.(ingresses := DeviceIngresses(d) + [ingress.(primary := false)])
  }

  function WithoutPort(list: seq<Ingress>, port: int): seq<Ingress> {
    if list == [] then [] else
      var last := list[|list| - 1];
      WithoutPort(list[..|list| - 1], port) + (if last.port == port then [] else [last])
  }

  predicate HasPort(list: seq<Ingress>, port: int) {
    exists i :: 0 <= i < |list| && list[i].port == port
  }

  /** The flag the deletion loop ends up with: that of the last ingress on `port`. */
  predicate RemovesPrimary(list: seq<Ingress>, port: int) {
    list != [] &&
    var last := list[|list| - 1];
    if last.port == port then last.primary else RemovesPrimary(list[..|list| - 1], port)
  }

  /** Makes the head of `list` primary and mirrors it into the flat fields. */
  function Promoted(d: Device, list: seq<Ingress>): Device
    requires list != []
  {
    var head := list[0].(primary := true);
    d.(ingressPort := head.port, ingressMethod := head.cipher, ingressPassword := head.password,
       ingresses := [head] + list[1..])
  }

  /** The promotion would index an empty list: the primary goes and every other ingress shares its port. */
  predicate NothingToPromote(list: seq<Ingress>, port: int) {
    RemovesPrimary(list, port) && WithoutPort(list, port) == []
  }

  function WithoutIngress(d: Device, port: int): Device {
    var rest := WithoutPort(DeviceIngresses(d), port);
    if RemovesPrimary(DeviceIngresses(d), port) && rest != [] then Promoted(d, rest) else d.(ingresses := rest)
  }

  // --- store operations ------------------------------------------------------

  function CreateDevice(s: StoreState, d: Device): Result<StoreState, StoreError> {
    if d.id in s.devices || PortTaken(s.devices, d.ingressPort) then Err(Conflict)
    else Ok(s.(devices := s.devices[d.id := d.(ingresses := DeviceIngresses(d))]))
  }

  function MapRoute(m: map<DeviceId, Route>, id: DeviceId, f: Route -> Route): map<DeviceId, Route> {
    if id in m then m[id := f(m[id])] else m
  }

  /** Rotation rewrites only the flat password of the device's stored routes. */
  function Rotate(s: StoreState, id: DeviceId, password: string, now: Time): Result<StoreState, StoreError> {
    if id !in s.devices then Err(NotFound)
    else
      var change := (r: Route) => r.(ingressPassword := password);
      Ok(StoreState(s.devices[id := Rotated(s.devices[id], password).(updatedAt := now)],
                    MapRoute(s.routes, id, change), MapRoute(s.pending, id, change)))
  }

  function AddIngress(s: StoreState, id: DeviceId, ingress: Ingress, now: Time): Result<StoreState, StoreError> {
    if id !in s.devices then Err(NotFound)
    else if PortTaken(s.devices, ingress.port) then Err(Conflict)
    else
      var d := WithIngress(s.devices[id], ingress).(updatedAt := now);
      var change := (r: Route) => r.(ingresses := d.ingresses);
      Ok(StoreState(s.devices[id := d], MapRoute(s.routes, id, change), MapRoute(s.pending, id, change)))
  }

  function DeleteIngress(s: StoreState, id: DeviceId, port: int, now: Time): Result<StoreState, StoreError> {
    if id !in s.devices then Err(NotFound)
    else
      var list := DeviceIngresses(s.devices[id]);
      if |list| <= 1 then Err(Conflict)
      else if !HasPort(list, port) then Err(NotFound)
      else if NothingToPromote(list, port) then Err(Panic)
      else
        var d := WithoutIngress(s.devices[id], port).(updatedAt := now);
        var change := (r: Route) => r.(ingressPort := d.ingressPort, ingressMethod := d.ingressMethod,
                                       ingressPassword := d.ingressPassword, ingresses := d.ingresses);
        Ok(StoreState(s.devices[id := d], MapRoute(s.routes, id, change), MapRoute(s.pending, id, change)))
  }

  function StageRoute(s: StoreState, r: Route, expected: int): Result<StoreState, StoreError> {
    if Version(s, r.deviceId) != expected then Err(Conflict)
    else Ok(s.(pending := s.pending[r.deviceId := r]))
  }

  function ActivateRoute(s: StoreState, id: DeviceId, version: int): Result<StoreState, StoreError> {
    if id !in s.pending || s.pending[id].version != version then Err(Conflict)
    else Ok(s.(routes := s.routes[id := s.pending[id].(status := Active)], pending := s.pending - {id}))
  }

  // --- the store as an object ------------------------------------------------

  /** How a call that returned `err` and moved the store from `before` to `after` relates to the
      specified outcome: an error leaves everything as it was. */
  ghost predicate Did(outcome: Result<StoreState, StoreError>, before: StoreState, after: StoreState,
                      err: Option<StoreError>) {
    match outcome
    case Ok(s) => err == None && after == s
    case Err(e) => err == Some(e) && after == before
  }

  class Memory {
    var devices: map<DeviceId, Device>
    var routes: map<DeviceId, Route>
    var pending: map<DeviceId, Route>

    ghost function State(): StoreState
      reads this
    {
      StoreState(devices, routes, pending)
    }

    constructor ()
      ensures State() == EMPTY
    {
      devices, routes, pending := map[], map[], map[];
    }

    /** The nested scan that CreateDevice and AddDeviceIngress share. */
    method PortInUse(port: int) returns (used: bool)
      ensures used == PortTaken(devices, port)
    {
      var rest := devices.Keys;
      while rest != {}
        invariant rest <= devices.Keys
        invariant forall id, i :: id in devices && id !in rest && 0 <= i < |DeviceIngresses(devices[id])|
                    ==> DeviceIngresses(devices[id])[i].port != port
      {
        var id :| id in rest;
        var list := DeviceIngresses(devices[id]);
        for i := 0 to |list|
          invariant forall j :: 0 <= j < i ==> list[j].port != port
        {
          if list[i].port == port {
            return true;
          }
        }
        rest := rest - {id};
      }
      return false;
    }

    method Create(d: Device) returns (err: Option<StoreError>)
      modifies this
      ensures Did(CreateDevice(old(State()), d), old(State()), State(), err)
    {
      if d.id in devices {
        return Some(Conflict);
      }
      var used := PortInUse(d.ingressPort);
      if used {
        return Some(Conflict);
      }
      var item := d;
      if |d.ingresses| == 0 && d.ingressPort != 0 {
        item := d.(ingresses := DeviceIngresses(d));
      }
      assert item == d.(ingresses := DeviceIngresses(d));
      devices := devices[d.id := item];
      return None;
    }

    method UpdateDeviceCredential(id: DeviceId, password: string, now: Time) returns (err: Option<StoreError>)
      modifies this
      ensures Did(Rotate(old(State()), id, password, now), old(State()), State(), err)
    {
      if id !in devices {
        return Some(NotFound);
      }
      var d := devices[id].(ingressPassword := password);
      var list := RotateLoop(d.ingresses, password);
      devices := devices[id := d.(ingresses := list, updatedAt := now)];
      if id in routes {
        routes := routes[id := routes[id].(ingressPassword := password)];
      }
      if id in pending {
        pending := pending[id := pending[id].(ingressPassword := password)];
      }
      return None;
    }

    method AddDeviceIngress(id: DeviceId, ingress: Ingress, now: Time) returns (err: Option<StoreError>)
      modifies this
      ensures Did(AddIngress(old(State()), id, ingress, now), old(State()), State(), err)
    {
      if id !in devices {
        return Some(NotFound);
      }
      var used := PortInUse(ingress.port);
      if used {
        return Some(Conflict);
      }
      var d := devices[id];
      d := d.(ingresses := DeviceIngresses(d) + [ingress.(primary := false)], updatedAt := now);
      devices := devices[id := d];
      if id in routes {
        routes := routes[id := routes[id].(ingresses := d.ingresses)];
      }
      if id in pending {
        pending := pending[id := pending[id].(ingresses := d.ingresses)];
      }
      return None;
    }

    /** The source indexes the remaining list when it promotes; where that list is empty it panics, before
        it has changed anything. */
    method DeleteDeviceIngress(id: DeviceId, port: int, now: Time) returns (err: Option<StoreError>)
      modifies this
      ensures Did(DeleteIngress(old(State()), id, port, now), old(State()), State(), err)
    {
      if id !in devices {
        return Some(NotFound);
      }
      var d := devices[id];
      var list := DeviceIngresses(d);
      if |list| <= 1 {
        return Some(Conflict);
      }
      var removed, removedPrimary, rest := RemoveLoop(list, port);
      if !removed {
        return Some(NotFound);
      }
      d := d.(ingresses := rest);
      if removedPrimary {
        if rest == [] {
          return Some(Panic);
        }
        rest := rest[0 := rest[0].(primary := true)];
        d := d.(ingressPort := rest[0].port, ingressMethod := rest[0].cipher, ingressPassword := rest[0].password,
                ingresses := rest);
      }
      d := d.(updatedAt := now);
      assert d == WithoutIngress(devices[id], port).(updatedAt := now);
      devices := devices[id := d];
      if id in routes {
        routes := routes[id := routes[id].(ingressPort := d.ingressPort, ingressMethod := d.ingressMethod,
                                           ingressPassword := d.ingressPassword, ingresses := rest)];
      }
      if id in pending {
        pending := pending[id := pending[id].(ingressPort := d.ingressPort, ingressMethod := d.ingressMethod,
                                              ingressPassword := d.ingressPassword, ingresses := rest)];
      }
      return None;
    }

    method Stage(r: Route, expected: int) returns (err: Option<StoreError>)
      modifies this
      ensures Did(StageRoute(old(State()), r, expected), old(State()), State(), err)
    {
      var current := if r.deviceId in routes then routes[r.deviceId].version else 0;
      if current != expected {
        return Some(Conflict);
      }
      pending := pending[r.deviceId := r];
      return None;
    }

    method Activate(id: DeviceId, version: int) returns (err: Option<StoreError>)
      modifies this
      ensures Did(ActivateRoute(old(State()), id, version), old(State()), State(), err)
    {
      if id !in pending || pending[id].version != version {
        return Some(Conflict);
      }
      routes := routes[id := pending[id].(status := Active)];
      pending := pending - {id};
      return None;
    }
  }

  /** The loop of memory.go:97-101 and of api.go:153-157. */
  method RotateLoop(ingresses: seq<Ingress>, password: string) returns (list: seq<Ingress>)
    ensures list == WithPrimaryPassword(ingresses, password)
  {
    list := ingresses;
    for i := 0 to |list|
      invariant |list| == |ingresses|
      invariant forall j :: 0 <= j < i ==> list[j] == Repassworded(ingresses[j], password)
      invariant forall j :: i <= j < |list| ==> list[j] == ingresses[j]
    {
      if list[i].primary {
        list := list[i := list[i].(password := password)];
      }
    }
  }

  /** The filtering loop of memory.go:153-163 and of api.go:249-258. */
  method RemoveLoop(list: seq<Ingress>, port: int) returns (removed: bool, removedPrimary: bool, out: seq<Ingress>)
    ensures removed == HasPort(list, port)
    ensures removedPrimary == RemovesPrimary(list, port)
    ensures out == WithoutPort(list, port)
  {
    removed, removedPrimary, out := false, false, [];
    for i := 0 to |list|
      invariant removed == HasPort(list[..i], port)
      invariant removedPrimary == RemovesPrimary(list[..i], port)
      invariant out == WithoutPort(list[..i], port)
    {
      assert list[..i + 1][..i] == list[..i];
      if list[i].port == port {
        removed, removedPrimary := true, list[i].primary;
        assert list[..i + 1][i].port == port;
        continue;
      }
      out := out + [list[i]];
      assert removed ==> exists j :: 0 <= j < i && list[..i][j].port == port && list[..i + 1][j] == list[..i][j];
    }
    assert list[..|list|] == list;
  }

  // --- what every operation keeps ---------------------------------------------

  ghost predicate DistinctPorts(list: seq<Ingress>) {
    forall i, j :: 0 <= i < j < |list| ==> list[i].port != list[j].port
  }

  /** Ingress `p` is the only primary one, and the flat fields repeat it. */
  ghost predicate PrimaryAt(d: Device, p: nat) {
    && p < |d.ingresses|
    && d.ingresses[p].primary
    && d.ingresses[p].port == d.ingressPort
    && d.ingresses[p].cipher == d.ingressMethod
    && d.ingresses[p].password == d.ingressPassword
    && forall j :: 0 <= j < |d.ingresses| && j != p ==> !d.ingresses[j].primary
  }

  ghost predicate DeviceOk(d: Device) {
    DistinctPorts(d.ingresses) && exists p :: PrimaryAt(d, p)
  }

  ghost predicate DisjointPorts(a: Device, b: Device) {
    forall i, j :: 0 <= i < |a.ingresses| && 0 <= j < |b.ingresses| ==> a.ingresses[i].port != b.ingresses[j].port
  }

  ghost predicate DevicesOk(devices: map<DeviceId, Device>) {
    && (forall id :: id in devices ==> devices[id].id == id && DeviceOk(devices[id]))
    && (forall a, b :: a in devices && b in devices && a != b ==> DisjointPorts(devices[a], devices[b]))
  }

  ghost predicate RoutesOk(s: StoreState) {
    && Keyed(s.routes) && Keyed(s.pending)
    && (forall id :: id in s.routes ==> s.routes[id].version >= 1)
    && (forall id :: id in s.pending ==> s.pending[id].version == Version(s, id) + 1)
  }

  lemma {:induction false} WithoutPortKeepsOthers(list: seq<Ingress>, port: int)
    ensures var out := WithoutPort(list, port);
            && (forall i :: 0 <= i < |out| ==> out[i] in list && out[i].port != port)
            && (forall i :: 0 <= i < |list| && list[i].port != port ==> list[i] in out)
            && (DistinctPorts(list) ==> DistinctPorts(out))
            && (DistinctPorts(list) && |list| > 1 ==> out != [])
  {
    if list != [] {
      var init := list[..|list| - 1];
      WithoutPortKeepsOthers(init, port);
      assert list == init + [list[|list| - 1]];
      if DistinctPorts(list) && |list| > 1 {
        var keep := if list[0].port != port then 0 else 1;
        assert list[keep].port != port;
      }
    }
  }
}
