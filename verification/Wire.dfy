/** The control-stream frames (internal/controlrpc/control.go) and what a gateway's table and disk
    may look like after one of them: the interface between the frame machine of a gateway and the
    deployment protocol of the control plane. */
module Wire {
  import opened Model
  import opened RouteTable

  type RequestId = nat

  /** The frames the hub sends. An absent route or device is a malformed frame. */
  datatype Frame =
    | Snapshot(req: RequestId, routes: seq<Route>)
    | Prepare(req: RequestId, route: Option<Route>)
    | Activate(req: RequestId, route: Option<Route>)
    | DevicePrepare(req: RequestId, device: Option<Device>)
    | DeviceUpdate(req: RequestId, device: Option<Device>)
    | Interrupt(req: RequestId, deviceId: DeviceId)
    | SetDraining(req: RequestId, text: string)
    | Unknown(req: RequestId)

  datatype Ack = Ack(req: RequestId, ok: bool)

  /** What a gateway remembers across frames: its table, and the routes of its snapshot file. */
  datatype GatewayMemory = GatewayMemory(table: TableState, disk: Option<seq<Route>>)

  /** The table after a frame. The frame may fail for reasons outside the table (a listener that
      cannot be opened, a disk that cannot be written); `ok` is what the acknowledgement reports. */
  ghost predicate TableStep(t: TableState, f: Frame, t': TableState, ok: bool) {
    match f
    case Snapshot(_, routes) => (t' == t && !ok) || t' == Loaded(routes)
    case Prepare(_, Some(r)) => (t' == t && !ok) || (CanPrepare(t, r) && t' == Prepared(t, r) && ok)
    case Activate(_, Some(r)) => if CanActivate(t, r) then t' == Activated(t, r) else t' == t && !ok
    case DeviceUpdate(_, Some(d)) => t' == Updated(t, d)
    case Interrupt(_, _) => t' == t
    case SetDraining(_, _) => t' == t
    case DevicePrepare(_, Some(_)) => t' == t
    case _ => t' == t && !ok
  }

  /** The snapshot file holds exactly the table's active routes. */
  ghost predicate Saved(disk: Option<seq<Route>>, t: TableState) {
    disk.Some? && LoadActive(disk.value) == t.active
  }

  /** The frames that change the active routes, and after which the file is written. */
  predicate Publishes(f: Frame) {
    f.Snapshot? || f.Activate? || f.DeviceUpdate?
  }

  /** The disk is either left alone or holds exactly the table's active routes; a positive answer to a
      frame that publishes means that it does. */
  ghost predicate DiskStep(disk: Option<seq<Route>>, f: Frame, t': TableState, disk': Option<seq<Route>>, ok: bool) {
    && (disk' == disk || (Publishes(f) && Saved(disk', t')))
    && (ok && Publishes(f) ==> Saved(disk', t'))
  }

  ghost predicate MemoryStep(m: GatewayMemory, f: Frame, m': GatewayMemory, ok: bool) {
    TableStep(m.table, f, m'.table, ok) && DiskStep(m.disk, f, m'.table, m'.disk, ok)
  }
}
