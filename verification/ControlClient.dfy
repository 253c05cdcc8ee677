/** The gateway's frame machine (internal/dataplane/control_client.go): every control frame moves the
    routing table, the listeners, the snapshot file and the synced flag, and several error exits leave
    them out of step. `Coherent` is what the synced flag guarantees at every frame boundary. */
module ControlClient {
  import opened Model
  import opened RouteTable
  import opened Wire
  import opened GatewayListeners
  import opened DesiredListeners
  import ConnectionTracker

  /** strconv.ParseBool. */
  function ParseBool(text: string): Option<bool> {
    if text in ["1", "t", "T", "true", "TRUE", "True"] then Some(true)
    else if text in ["0", "f", "F", "false", "FALSE", "False"] then Some(false)
    else None
  }

  /** The texts that strconv.ParseBool documents. */
  const TRUE_TEXTS := {"1", "t", "T", "true", "TRUE", "True"}
  const FALSE_TEXTS := {"0", "f", "F", "false", "FALSE", "False"}

  lemma ParseBoolMeans(text: string)
    ensures ParseBool(text) == Some(true) <==> text in TRUE_TEXTS
    ensures ParseBool(text) == Some(false) <==> text in FALSE_TEXTS
    ensures !(text in TRUE_TEXTS && text in FALSE_TEXTS)
  {
    assert forall t :: t in TRUE_TEXTS ==> t != [] && t[0] in {'1', 't', 'T'};
    assert forall t :: t in FALSE_TEXTS ==> t != [] && t[0] in {'0', 'f', 'F'};
  }

  /** The device that stands for a route in PREPARE asks for the same listeners. */
  lemma SameAsks(r: Route, d: Device)
    requires d.id == r.deviceId && d.ingresses == r.ingresses && d.ingressPort == r.ingressPort
    requires d.ingressMethod == r.ingressMethod && d.ingressPassword == r.ingressPassword
    ensures forall p, e :: RouteAsks(r, p, e) <==> DeviceAsks(d, p, e)
  {
  }

  class Client {
    const gateway: Gateway
    const table: Table
    var disk: Option<seq<Route>>

    ghost predicate Valid()
      reads this, gateway, table
    {
      gateway.table == table && Consistent(table.View()) && gateway.Sound()
    }

    ghost function Held(): GatewayMemory
      reads this, table
    {
      GatewayMemory(table.View(), disk)
    }

    /** A synced gateway forwards exactly what its active table asks for, and its snapshot file holds
        exactly that table. */
    ghost predicate Coherent()
      reads this, gateway, table
    {
      gateway.controlSynced ==>
        ServesExactly(gateway.listeners, table.active) && Saved(disk, table.View())
    }

    constructor (gateway: Gateway, disk: Option<seq<Route>>)
      requires Consistent(gateway.table.View()) && gateway.Sound() && !gateway.controlSynced
      ensures Valid() && Coherent() && this.gateway == gateway && this.disk == disk
    {
      this.gateway, this.table, this.disk := gateway, gateway.table, disk;
    }

    /** SaveSnapshot replaces the file in one step or leaves it as it was. */
    method SaveSnapshot(routes: seq<Route>, w: World) returns (ok: bool)
      modifies this`disk
      ensures ok == w.saves && disk == if w.saves then Some(routes) else old(disk)
    {
      if w.saves {
        disk := Some(routes);
      }
      return w.saves;
    }

    /** The common tail of ACTIVATE and DEVICE_UPDATE: reconcile the listeners, then save the table. */
    method ReconcileAndSave(w: World) returns (ok: bool)
      requires Valid()
      modifies this`disk, gateway`listeners, gateway`sockets, gateway`nextId, gateway`controlSynced
      ensures Valid() && (gateway.controlSynced ==> ok && old(gateway.controlSynced))
      ensures ok ==> gateway.controlSynced == old(gateway.controlSynced)
      ensures ok <==> w.saves && Reconcilable(w, old(gateway.listeners), table.active)
      ensures ok ==> ServesExactly(gateway.listeners, table.active) && Saved(disk, table.View())
      ensures disk == old(disk) || Saved(disk, table.View())
    {
      ok := gateway.ReconcileListeners(w);
      if !ok {
        gateway.controlSynced := false;
        return;
      }
      var routes := table.Snapshot();
      LoadInvertsListing(routes, table.active);
      ok := SaveSnapshot(routes, w);
      if !ok {
        gateway.controlSynced := false;
      }
    }

    method HandleSnapshot(routes: seq<Route>, w: World) returns (ok: bool)
      requires Valid()
      modifies this`disk, table, gateway`listeners, gateway`sockets, gateway`nextId, gateway`controlSynced
      ensures Valid() && Coherent() && gateway.controlSynced == ok
      ensures ok <==> w.saves && Reconcilable(w, old(gateway.listeners), LoadActive(routes))
      ensures ok ==> table.View() == Loaded(routes)
      ensures MemoryStep(old(Held()), Snapshot(0, routes), Held(), ok)
    {
      ok := SaveSnapshot(routes, w);
      if !ok {
        gateway.controlSynced := false;
        return;
      }
      table.Load(routes);
      ApplyKeepsConsistent(EMPTY, LoadOp(routes));
      ok := gateway.ReconcileListeners(w);
      gateway.controlSynced := ok;
    }

    /** PREPARE of a route: inactive listeners first, then the pending entry. */
    method HandlePrepare(r: Route, w: World) returns (ok: bool)
      requires Valid()
      modifies table, gateway`listeners, gateway`sockets, gateway`nextId, gateway`controlSynced
      ensures Valid() && (gateway.controlSynced ==> old(gateway.controlSynced))
      ensures ok ==> gateway.controlSynced == old(gateway.controlSynced)
      ensures old(Coherent()) ==> Coherent()
      ensures table.active == old(table.active) && SameForwarding(old(gateway.listeners), gateway.listeners)
      ensures MemoryStep(old(Held()), Prepare(0, Some(r)), Held(), ok)
      ensures ok <==> (forall p, e :: RouteAsks(r, p, e) ==> Reservable(w, old(gateway.listeners), p, e))
                      && (r.deviceId in old(table.active) ==> r.version > old(table.active)[r.deviceId].version)
      ensures ok ==> forall p, e :: RouteAsks(r, p, e) ==>
                p in gateway.listeners && gateway.listeners[p].endpoint.deviceId == r.deviceId
    {
      var d := Device(r.deviceId, "", "", r.ingressPort, r.ingressMethod, r.ingressPassword, r.ingresses, false, 0, 0);
      ok := gateway.PrepareDevice(d, w);
      SameAsks(r, d);
      OpeningKeepsForwarding(old(gateway.listeners), gateway.listeners, d);
      if old(Coherent()) && gateway.controlSynced {
        ForwardingKeepsService(old(gateway.listeners), gateway.listeners, table.active);
      }
      if !ok {
        return;
      }
      ApplyKeepsConsistent(table.View(), PrepareOp(r));
      ok := table.Prepare(r);
      if !ok {
        gateway.controlSynced := false;
      }
    }

    /** ACTIVATE of a route; a refusal by the table changes nothing at all. */
    method HandleActivate(r: Route, w: World) returns (ok: bool)
      requires Valid()
      modifies this`disk, table, gateway`listeners, gateway`sockets, gateway`nextId, gateway`controlSynced
      ensures Valid() && (old(Coherent()) ==> Coherent())
      ensures gateway.controlSynced ==> old(gateway.controlSynced)
      ensures ok ==> gateway.controlSynced == old(gateway.controlSynced)
      ensures MemoryStep(old(Held()), Activate(0, Some(r)), Held(), ok)
      ensures ok ==> ServesExactly(gateway.listeners, table.active) && Saved(disk, table.View())
      ensures ok <==> r.deviceId in old(table.pending) && old(table.pending)[r.deviceId].version == r.version
                      && w.saves && Reconcilable(w, old(gateway.listeners), table.active)
      ensures old(!CanActivate(table.View(), r)) ==>
                !ok && disk == old(disk) && gateway.listeners == old(gateway.listeners)
                  && gateway.controlSynced == old(gateway.controlSynced)
    {
      ApplyKeepsConsistent(table.View(), ActivateOp(r));
      ok := table.Activate(r);
      if ok {
        ok := ReconcileAndSave(w);
      }
    }

    /** DEVICE_PREPARE opens inactive listeners and does nothing else. */
    method HandleDevicePrepare(d: Device, w: World) returns (ok: bool)
      requires Valid()
      modifies gateway`listeners, gateway`sockets, gateway`nextId
      ensures Valid() && (old(Coherent()) ==> Coherent())
      ensures SameForwarding(old(gateway.listeners), gateway.listeners)
      ensures ok <==> forall p, e :: DeviceAsks(d, p, e) ==> Reservable(w, old(gateway.listeners), p, e)
      ensures ok ==> forall p, e :: DeviceAsks(d, p, e) ==>
                p in gateway.listeners && gateway.listeners[p].endpoint.deviceId == d.id
    {
      ok := gateway.PrepareDevice(d, w);
      OpeningKeepsForwarding(old(gateway.listeners), gateway.listeners, d);
      if old(Coherent()) && gateway.controlSynced {
        ForwardingKeepsService(old(gateway.listeners), gateway.listeners, table.active);
      }
    }

    /** DEVICE_UPDATE rewrites the device's active route, if it has one. */
    method HandleDeviceUpdate(d: Device, w: World) returns (ok: bool)
      requires Valid()
      modifies this`disk, table, gateway`listeners, gateway`sockets, gateway`nextId, gateway`controlSynced
      ensures Valid() && (old(Coherent()) ==> Coherent())
      ensures gateway.controlSynced ==> ok && old(gateway.controlSynced)
      ensures ok ==> gateway.controlSynced == old(gateway.controlSynced)
      ensures ok <==> w.saves && Reconcilable(w, old(gateway.listeners), table.active)
      ensures ok ==> ServesExactly(gateway.listeners, table.active)
      ensures MemoryStep(old(Held()), DeviceUpdate(0, Some(d)), Held(), ok)
    {
      ApplyKeepsConsistent(table.View(), UpdateOp(d));
      table.UpdateDevice(d);
      ok := ReconcileAndSave(w);
    }

    /** ControlClient.handle. Every exit keeps the guarantee of the synced flag, and relates table and
        disk as the deployment protocol expects of a gateway. */
    method Handle(f: Frame, w: World) returns (ok: bool)
      requires Valid()
      modifies this, table, gateway, gateway.connections
      ensures Valid()
      ensures old(Coherent()) ==> Coherent()
      ensures MemoryStep(old(Held()), f, Held(), ok)
      ensures ok && Publishes(f) ==> ServesExactly(gateway.listeners, table.active) && Saved(disk, table.View())
      ensures f.Prepare? || f.DevicePrepare? || f.Interrupt? || f.SetDraining? || f.Unknown? ==>
                table.active == old(table.active) && SameForwarding(old(gateway.listeners), gateway.listeners)
      ensures f.Snapshot? ==> gateway.controlSynced == ok
      ensures !f.Snapshot? ==> gateway.controlSynced ==> old(gateway.controlSynced)
      ensures !f.Snapshot? && (ok || !(f.Prepare? || f.Activate? || f.DeviceUpdate?)) ==>
                gateway.controlSynced == old(gateway.controlSynced)
      ensures ok <==>
                match f
                case Snapshot(_, routes) => w.saves && Reconcilable(w, old(gateway.listeners), LoadActive(routes))
                case Prepare(_, Some(r)) =>
                  && (forall p, e :: RouteAsks(r, p, e) ==> Reservable(w, old(gateway.listeners), p, e))
                  && (r.deviceId in old(table.active) ==> r.version > old(table.active)[r.deviceId].version)
                case Activate(_, Some(r)) =>
                  && r.deviceId in old(table.pending) && old(table.pending)[r.deviceId].version == r.version
                  && w.saves && Reconcilable(w, old(gateway.listeners), table.active)
                case DevicePrepare(_, Some(d)) =>
                  forall p, e :: DeviceAsks(d, p, e) ==> Reservable(w, old(gateway.listeners), p, e)
                case DeviceUpdate(_, Some(d)) => w.saves && Reconcilable(w, old(gateway.listeners), table.active)
                case Interrupt(_, _) => true
                case SetDraining(_, text) => text in TRUE_TEXTS || text in FALSE_TEXTS
                case _ => false
      ensures ok && f.Prepare? ==> forall p, e :: RouteAsks(f.route.value, p, e) ==>
                p in gateway.listeners && gateway.listeners[p].endpoint.deviceId == f.route.value.deviceId
      ensures ok && f.DevicePrepare? ==> forall p, e :: DeviceAsks(f.device.value, p, e) ==>
                p in gateway.listeners && gateway.listeners[p].endpoint.deviceId == f.device.value.id
      ensures gateway.draining == if f.SetDraining? && f.text in TRUE_TEXTS then true
                                  else if f.SetDraining? && f.text in FALSE_TEXTS then false else old(gateway.draining)
      ensures gateway.connections.next == old(gateway.connections.next)
      ensures gateway.connections.byDevice == old(gateway.connections.byDevice)
      ensures gateway.connections.total == old(gateway.connections.total)
      ensures forall c :: c in gateway.connections.cancelled <==>
                || c in old(gateway.connections.cancelled)
                || (f.Interrupt? && f.deviceId in old(gateway.connections.byDevice)
                    && c in old(gateway.connections.byDevice)[f.deviceId])
    {
      match f
      case Snapshot(_, routes) =>
        ok := HandleSnapshot(routes, w);
      case Prepare(_, Some(r)) =>
        ok := HandlePrepare(r, w);
      case Activate(_, Some(r)) =>
        ok := HandleActivate(r, w);
      case DeviceUpdate(_, Some(d)) =>
        ok := HandleDeviceUpdate(d, w);
      case DevicePrepare(_, Some(d)) =>
        ok := HandleDevicePrepare(d, w);
      case Interrupt(_, id) =>
        var count := gateway.connections.Interrupt(id);
        ok := true;
      case SetDraining(_, text) =>
        ParseBoolMeans(text);
        var v := ParseBool(text);
        ok := v.Some?;
        if ok {
          gateway.draining := v.value;
        }
      case _ =>
        ok := false;
    }

    /** The receive loop of connect: exactly one acknowledgement per frame, in order and as the frame was
        handled, and the synced flag keeps its meaning through any sequence of frames. `held` is what table
        and disk held before each frame and at the end. */
    method Serve(frames: seq<Frame>, worlds: seq<World>) returns (acks: seq<Ack>, ghost held: seq<GatewayMemory>)
      requires Valid() && Coherent() && |worlds| == |frames|
      modifies this, table, gateway, gateway.connections
      ensures Valid() && Coherent()
      ensures |acks| == |frames| && forall i :: 0 <= i < |frames| ==> acks[i].req == frames[i].req
      ensures |held| == |frames| + 1 && held[0] == old(Held()) && held[|frames|] == Held()
      ensures forall i :: 0 <= i < |frames| ==> MemoryStep(held[i], frames[i], held[i + 1], acks[i].ok)
    {
      acks, held := [], [Held()];
      for i := 0 to |frames|
        invariant Valid() && Coherent()
        invariant |acks| == i && forall j :: 0 <= j < i ==> acks[j].req == frames[j].req
        invariant |held| == i + 1 && held[0] == old(Held()) && held[i] == Held()
        invariant forall j :: 0 <= j < i ==> MemoryStep(held[j], frames[j], held[j + 1], acks[j].ok)
      {
        var ok := Handle(frames[i], worlds[i]);
        acks, held := acks + [Ack(frames[i].req, ok)], held + [Held()];
      }
    }
  }
}
