/** What holds after every sequence of store operations (internal/store/memory.go), in any
    interleaving: distinct ports, one mirrored primary ingress per device, and committed
    versions that run 1, 2, 3, ... for each device. */
module StoreRuns {
  import opened Model
  import opened MemoryStore

  datatype Op =
    | CreateOp(device: Device)
    | RotateOp(id: DeviceId, password: string, now: Time)
    | AddOp(id: DeviceId, ingress: Ingress, now: Time)
    | DeleteOp(id: DeviceId, port: int, now: Time)
    | StageOp(route: Route, expected: int)
    | ActivateOp(id: DeviceId, version: int)

  function Outcome(s: StoreState, op: Op): Result<StoreState, StoreError> {
    match op
    case CreateOp(d) => CreateDevice(s, d)
    case RotateOp(id, password, now) => Rotate(s, id, password, now)
    case AddOp(id, ingress, now) => AddIngress(s, id, ingress, now)
    case DeleteOp(id, port, now) => DeleteIngress(s, id, port, now)
    case StageOp(r, expected) => StageRoute(s, r, expected)
    case ActivateOp(id, version) => ActivateRoute(s, id, version)
  }

  /** A failed operation changes nothing. */
  function After(s: StoreState, op: Op): StoreState {
    match Outcome(s, op)
    case Ok(s') => s'
    case Err(_) => s
  }

  function Run(ops: seq<Op>): StoreState {
    if ops == [] then EMPTY else After(Run(ops[..|ops| - 1]), ops[|ops| - 1])
  }

  /** How the API uses the store: a new device has a flat port, no list and its identifier as
      user name (internal/control/api.go:118-131), and a route is staged one above the version its writer
      expects (api.go:309, 415). */
  predicate FromApi(op: Op) {
    match op
    case CreateOp(d) => d.ingressPort != 0 && d.ingresses == [] && d.username == d.id.text
    case StageOp(r, expected) => r.version == expected + 1
    case _ => true
  }

  ghost predicate AllFromApi(ops: seq<Op>) {
    forall i :: 0 <= i < |ops| ==> FromApi(ops[i])
  }

  // --- devices and ingresses ---------------------------------------------------

  lemma CreatedDeviceOk(s: StoreState, d: Device)
    requires DevicesOk(s.devices) && d.ingressPort != 0 && d.ingresses == [] && CreateDevice(s, d).Ok?
    ensures DevicesOk(CreateDevice(s, d).value.devices)
  {
    var made := d.(ingresses := DeviceIngresses(d));
    assert PrimaryAt(made, 0);
    forall id | id in s.devices ensures DisjointPorts(s.devices[id], made) && DisjointPorts(made, s.devices[id]) {
      FreePortDisjoint(s.devices, id, made.ingressPort);
    }
  }

  lemma FreePortDisjoint(devices: map<DeviceId, Device>, id: DeviceId, port: int)
    requires DevicesOk(devices) && id in devices && !PortTaken(devices, port)
    ensures forall i :: 0 <= i < |devices[id].ingresses| ==> devices[id].ingresses[i].port != port
  {
    var p :| PrimaryAt(devices[id], p);
    assert DeviceIngresses(devices[id]) == devices[id].ingresses;
  }

  lemma RotatedDeviceOk(d: Device, password: string)
    requires DeviceOk(d)
    ensures DeviceOk(Rotated(d, password))
  {
    var p :| PrimaryAt(d, p);
    assert PrimaryAt(Rotated(d, password), p);
  }

  lemma ExtendedDeviceOk(d: Device, ingress: Ingress)
    requires DeviceOk(d) && forall i :: 0 <= i < |d.ingresses| ==> d.ingresses[i].port != ingress.port
    ensures DeviceOk(WithIngress(d, ingress))
    ensures WithIngress(d, ingress).ingresses == d.ingresses + [ingress.(primary := false)]
  {
    var p :| PrimaryAt(d, p);
    assert PrimaryAt(WithIngress(d, ingress), p);
  }

  lemma {:induction false} NoPrimaryRemoved(list: seq<Ingress>, port: int, p: nat)
    requires DistinctPorts(list) && p < |list| && list[p].primary
    requires forall j :: 0 <= j < |list| && j != p ==> !list[j].primary
    ensures RemovesPrimary(list, port) <==> list[p].port == port
  {
    if p < |list| - 1 {
      NoPrimaryRemoved(list[..|list| - 1], port, p);
    } else if list[p].port != port {
      NoneRemoved(list[..|list| - 1], port);
    }
  }

  lemma {:induction false} NoneRemoved(list: seq<Ingress>, port: int)
    requires forall j :: 0 <= j < |list| ==> !list[j].primary
    ensures !RemovesPrimary(list, port)
  {
    if list != [] {
      NoneRemoved(list[..|list| - 1], port);
    }
  }

  /** Deleting an ingress keeps one mirrored primary, promoting the head when the primary goes. */
  lemma ShrunkDeviceOk(d: Device, port: int)
    requires DeviceOk(d) && |d.ingresses| > 1
    ensures DeviceOk(WithoutIngress(d, port))
    ensures forall x :: x in WithoutIngress(d, port).ingresses ==>
              exists i :: 0 <= i < |d.ingresses| && d.ingresses[i].port == x.port
    ensures WithoutIngress(d, port).ingresses != []
  {
    var p: nat :| PrimaryAt(d, p);
    var list := d.ingresses;
    var rest := WithoutPort(list, port);
    WithoutPortKeepsOthers(list, port);
    NoPrimaryRemoved(list, port, p);
    if list[p].port == port {
      forall j | 0 <= j < |rest| ensures !rest[j].primary {
        var k :| 0 <= k < |list| && list[k] == rest[j];
      }
      assert PrimaryAt(WithoutIngress(d, port), 0);
    } else {
      var q :| 0 <= q < |rest| && rest[q] == list[p];
      forall j | 0 <= j < |rest| && j != q ensures !rest[j].primary {
        var k :| 0 <= k < |list| && list[k] == rest[j];
      }
      assert PrimaryAt(WithoutIngress(d, port), q);
    }
  }

  lemma ReplacedDeviceOk(devices: map<DeviceId, Device>, id: DeviceId, d: Device)
    requires DevicesOk(devices) && d.id == id && DeviceOk(d)
    requires forall other :: other in devices && other != id ==> DisjointPorts(devices[other], d)
    ensures DevicesOk(devices[id := d])
  {
    forall other | other in devices && other != id ensures DisjointPorts(d, devices[other]) {
      assert DisjointPorts(devices[other], d);
    }
  }

  lemma AddKeepsDevices(s: StoreState, id: DeviceId, ingress: Ingress, now: Time)
    requires DevicesOk(s.devices) && AddIngress(s, id, ingress, now).Ok?
    ensures DevicesOk(AddIngress(s, id, ingress, now).value.devices)
  {
    var d := s.devices[id];
    FreePortDisjoint(s.devices, id, ingress.port);
    ExtendedDeviceOk(d, ingress);
    var d' := WithIngress(d, ingress).(updatedAt := now);
    var p :| PrimaryAt(WithIngress(d, ingress), p);
    assert PrimaryAt(d', p);
    forall other | other in s.devices && other != id ensures DisjointPorts(s.devices[other], d') {
      FreePortDisjoint(s.devices, other, ingress.port);
      assert DisjointPorts(s.devices[other], d);
    }
    ReplacedDeviceOk(s.devices, id, d');
  }

  lemma RotateKeepsDevices(s: StoreState, id: DeviceId, password: string, now: Time)
    requires DevicesOk(s.devices) && id in s.devices
    ensures DevicesOk(Rotate(s, id, password, now).value.devices)
  {
    var d := s.devices[id];
    RotatedDeviceOk(d, password);
    var d' := Rotated(d, password).(updatedAt := now);
    var p :| PrimaryAt(Rotated(d, password), p);
    assert PrimaryAt(d', p);
    forall other | other in s.devices && other != id ensures DisjointPorts(s.devices[other], d') {
      assert DisjointPorts(s.devices[other], d);
    }
    ReplacedDeviceOk(s.devices, id, d');
  }

  lemma DeleteKeepsDevices(s: StoreState, id: DeviceId, port: int, now: Time)
    requires DevicesOk(s.devices) && DeleteIngress(s, id, port, now).Ok?
    ensures DevicesOk(DeleteIngress(s, id, port, now).value.devices)
  {
    var d := s.devices[id];
    var q :| PrimaryAt(d, q);
    ShrunkDeviceOk(d, port);
    var d' := WithoutIngress(d, port).(updatedAt := now);
    var p :| PrimaryAt(WithoutIngress(d, port), p);
    assert PrimaryAt(d', p);
    forall other | other in s.devices && other != id ensures DisjointPorts(s.devices[other], d') {
      assert DisjointPorts(s.devices[other], d);
      forall i, j | 0 <= i < |s.devices[other].ingresses| && 0 <= j < |d'.ingresses|
        ensures s.devices[other].ingresses[i].port != d'.ingresses[j].port
      {
        assert d'.ingresses[j] in WithoutIngress(d, port).ingresses;
        var k :| 0 <= k < |d.ingresses| && d.ingresses[k].port == d'.ingresses[j].port;
      }
    }
    ReplacedDeviceOk(s.devices, id, d');
  }

  lemma StepKeepsDevices(s: StoreState, op: Op)
    requires DevicesOk(s.devices) && FromApi(op)
    ensures DevicesOk(After(s, op).devices)
  {
    if Outcome(s, op).Ok? {
      match op
      case CreateOp(d) => CreatedDeviceOk(s, d);
      case RotateOp(id, password, now) => RotateKeepsDevices(s, id, password, now);
      case AddOp(id, ingress, now) => AddKeepsDevices(s, id, ingress, now);
      case DeleteOp(id, port, now) => DeleteKeepsDevices(s, id, port, now);
      case _ =>
    }
  }

  /** Across every sequence of operations all ingress ports in the store are distinct, and each
      device has exactly one primary ingress, which its flat fields repeat. */
  lemma {:induction false} EveryRunKeepsDevices(ops: seq<Op>)
    requires AllFromApi(ops)
    ensures DevicesOk(Run(ops).devices)
  {
    if ops != [] {
      EveryRunKeepsDevices(ops[..|ops| - 1]);
      StepKeepsDevices(Run(ops[..|ops| - 1]), ops[|ops| - 1]);
    }
  }

  /** No run of API operations makes a deletion panic. */
  lemma NoRunPanics(ops: seq<Op>, op: Op)
    requires AllFromApi(ops)
    ensures Outcome(Run(ops), op) != Err(Panic)
  {
    EveryRunKeepsDevices(ops);
    var s := Run(ops);
    if op.DeleteOp? && op.id in s.devices {
      var p: nat :| PrimaryAt(s.devices[op.id], p);
      WithoutPortKeepsOthers(s.devices[op.id].ingresses, op.port);
    }
  }

  // --- route versions ------------------------------------------------------------

  /** Everything about a route that a device operation may not touch. */
  ghost predicate SameBinding(a: Route, b: Route) {
    a.deviceId == b.deviceId && a.version == b.version && a.credential == b.credential && a.status == b.status
  }

  ghost predicate SameBindings(m: map<DeviceId, Route>, m': map<DeviceId, Route>) {
    m.Keys == m'.Keys && forall id :: id in m ==> SameBinding(m[id], m'[id])
  }

  /** Device operations leave every route's version, credential and status alone. */
  lemma DeviceOpsKeepBindings(s: StoreState, op: Op)
    requires !op.StageOp? && !op.ActivateOp?
    ensures SameBindings(s.routes, After(s, op).routes) && SameBindings(s.pending, After(s, op).pending)
  {
    match op
    case CreateOp(_) =>
    case RotateOp(id, password, _) => MappedBindings(s, id, (r: Route) => r.(ingressPassword := password));
    case AddOp(id, ingress, now) =>
      if id in s.devices {
        var d := WithIngress(s.devices[id], ingress);
        MappedBindings(s, id, (r: Route) => r.(ingresses := d.ingresses));
      }
    case DeleteOp(id, port, now) =>
      if id in s.devices {
        var d := WithoutIngress(s.devices[id], port);
        MappedBindings(s, id, (r: Route) => r.(ingressPort := d.ingressPort, ingressMethod := d.ingressMethod,
                                               ingressPassword := d.ingressPassword, ingresses := d.ingresses));
      }
  }

  lemma MappedBindings(s: StoreState, id: DeviceId, f: Route -> Route)
    requires forall r :: SameBinding(r, f(r))
    ensures SameBindings(s.routes, MapRoute(s.routes, id, f)) && SameBindings(s.pending, MapRoute(s.pending, id, f))
  {
  }

  predicate Commits(s: StoreState, op: Op, id: DeviceId) {
    op.ActivateOp? && op.id == id && Outcome(s, op).Ok?
  }

  lemma StepKeepsRoutes(s: StoreState, op: Op, id: DeviceId)
    requires RoutesOk(s) && FromApi(op)
    ensures RoutesOk(After(s, op))
    ensures Version(After(s, op), id) == Version(s, id) + (if Commits(s, op, id) then 1 else 0)
    ensures Commits(s, op, id) ==> op.version == Version(s, id) + 1
  {
    if !op.StageOp? && !op.ActivateOp? {
      DeviceOpsKeepBindings(s, op);
    }
  }

  /** The versions that `ops` committed for a device, in order. */
  function Committed(ops: seq<Op>, id: DeviceId): seq<int> {
    if ops == [] then [] else
      var init, op := ops[..|ops| - 1], ops[|ops| - 1];
      Committed(init, id) + (if Commits(Run(init), op, id) then [op.version] else [])
  }

  /** Over any interleaving a pending route is one above its device's active version, and the
      committed versions of a device are 1, 2, ..., n without gap or repeat, n being the active one. */
  lemma {:induction false} CommittedVersionsCountUp(ops: seq<Op>, id: DeviceId)
    requires AllFromApi(ops)
    ensures RoutesOk(Run(ops))
    ensures |Committed(ops, id)| == Version(Run(ops), id)
    ensures forall i :: 0 <= i < |Committed(ops, id)| ==> Committed(ops, id)[i] == i + 1
  {
    if ops != [] {
      var init := ops[..|ops| - 1];
      CommittedVersionsCountUp(init, id);
      StepKeepsRoutes(Run(init), ops[|ops| - 1], id);
    }
  }

  /** The operation at position `i` of the run committed a version of `id`. */
  predicate WinsAt(ops: seq<Op>, i: nat, id: DeviceId)
    requires i < |ops|
  {
    Commits(Run(ops[..i]), ops[i], id)
  }

  lemma {:induction false} VersionsGrow(ops: seq<Op>, i: nat, j: nat, id: DeviceId)
    requires AllFromApi(ops) && i <= j <= |ops|
    ensures RoutesOk(Run(ops[..i])) && Version(Run(ops[..i]), id) <= Version(Run(ops[..j]), id)
    decreases j
  {
    if i == j {
      CommittedVersionsCountUp(ops[..i], id);
    } else {
      VersionsGrow(ops, i, j - 1, id);
      CommittedVersionsCountUp(ops[..j - 1], id);
      assert ops[..j][..j - 1] == ops[..j - 1];
      StepKeepsRoutes(Run(ops[..j - 1]), ops[j - 1], id);
    }
  }

  /** At most one writer wins each version: of two successful activations of a device, the later
      one always names the higher version. */
  lemma OneWinnerPerVersion(ops: seq<Op>, i: nat, j: nat, id: DeviceId)
    requires AllFromApi(ops) && i < j < |ops| && WinsAt(ops, i, id) && WinsAt(ops, j, id)
    ensures ops[i].version < ops[j].version
  {
    CommittedVersionsCountUp(ops[..i], id);
    StepKeepsRoutes(Run(ops[..i]), ops[i], id);
    assert ops[..i + 1][..i] == ops[..i];
    VersionsGrow(ops, i + 1, j, id);
    CommittedVersionsCountUp(ops[..j], id);
    StepKeepsRoutes(Run(ops[..j]), ops[j], id);
  }
}
