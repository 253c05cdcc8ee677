/** The records that the control plane and the gateways exchange
    (internal/model/model.go), and the small wrappers the other modules share.
 */
module Model {

  datatype Option<+T> = None | Some(value: T)

  /** The errors of internal/store/store.go, any other database failure, and a runtime panic. */
  datatype StoreError = NotFound | Conflict | Database | Panic

  datatype Result<+T, +E> = Ok(value: T) | Err(error: E)

  datatype DeviceId = DeviceId(text: string)
  datatype GatewayId = GatewayId(text: string)
  type Time = int

  datatype Ingress = Ingress(port: int, cipher: string, password: string, primary: bool, createdAt: Time)

  datatype Device = Device(
    id: DeviceId, username: string, passwordHash: string,
    ingressPort: int, ingressMethod: string, ingressPassword: string,
    ingresses: seq<Ingress>, enabled: bool, createdAt: Time, updatedAt: Time)

  datatype Credential = Credential(
    id: string, host: string, port: int, username: string, password: string,
    expiresAt: Option<Time>, createdAt: Time, providerId: string, metadata: map<string, string>)

  datatype RouteStatus = Pending | Active

  datatype Route = Route(
    deviceId: DeviceId, username: string, passwordHash: string,
    ingressPort: int, ingressMethod: string, ingressPassword: string,
    ingresses: seq<Ingress>, credential: Credential, version: int, status: RouteStatus, updatedAt: Time)

  /** Device.EffectiveIngresses: a device without an ingress list listens on its flat
      port; port 0 means that it has no ingress at all. */
  function DeviceIngresses(d: Device): seq<Ingress> {
    if |d.ingresses| > 0 then d.ingresses
    else if d.ingressPort == 0 then []
    else [Ingress(d.ingressPort, d.ingressMethod, d.ingressPassword, true, d.createdAt)]
  }

  /** DeviceRoute.EffectiveIngresses. */
  function RouteIngresses(r: Route): seq<Ingress> {
    if |r.ingresses| > 0 then r.ingresses
    else if r.ingressPort == 0 then []
    else [Ingress(r.ingressPort, r.ingressMethod, r.ingressPassword, true, r.updatedAt)]
  }

  /** `routes` enumerates the values of `m`, each once or more, in some order: what a Go
      loop over a map collects. */
  ghost predicate Lists(routes: seq<Route>, m: map<DeviceId, Route>) {
    && (forall i :: 0 <= i < |routes| ==> routes[i].deviceId in m && m[routes[i].deviceId] == routes[i])
    && (forall d :: d in m ==> m[d] in routes)
  }

  /** Every key of a route map is the device of the route stored under it. */
  ghost predicate Keyed(m: map<DeviceId, Route>) {
    forall d :: d in m ==> m[d].deviceId == d
  }

  /** The next key of a Go map iteration, whose order is unspecified. */
  method Pick<T>(keys: set<T>) returns (k: T)
    requires keys != {}
    ensures k in keys
  {
    k :| k in keys;
  }
}
