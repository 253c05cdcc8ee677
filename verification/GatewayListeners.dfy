/** The gateway's listener map and its reconciler (internal/dataplane/gateway.go). */
module GatewayListeners {
  import opened Model
  import opened RouteTable
  import opened DesiredListeners
  import opened ConnectionTracker

  /** A deviceListener; `id` is the identity of the object and of the socket it owns. */
  datatype Listener = Listener(id: nat, endpoint: Endpoint, active: bool)

  /** What the surroundings decide during one call: which credentials the Shadowsocks library takes,
      which ports the system lets the process bind, and whether the disk can be written. */
  datatype World = World(accepts: (string, string) -> bool, binds: int -> bool, saves: bool)

  const LEGACY_AES256_GCM := "aes-256-gcm"
  const BLAKE3_AES128_GCM := "2022-blake3-aes-128-gcm"

  /** ssconfig.Validate; the library's own check is `w.accepts`. */
  predicate ValidCredentials(w: World, cipher: string, password: string) {
    && (cipher == LEGACY_AES256_GCM || cipher == BLAKE3_AES128_GCM)
    && password != ""
    && (cipher == LEGACY_AES256_GCM ==> |password| >= 8)
    && w.accepts(cipher, password)
  }

  /** The same in other words: one of two methods, each with its least password length. */
  ghost predicate Acceptable(w: World, cipher: string, password: string) {
    w.accepts(cipher, password)
    && ((cipher == "aes-256-gcm" && |password| >= 8) || (cipher == "2022-blake3-aes-128-gcm" && |password| >= 1))
  }

  lemma ValidMeansAcceptable(w: World, cipher: string, password: string)
    ensures ValidCredentials(w, cipher, password) <==> Acceptable(w, cipher, password)
  {
    assert "aes-256-gcm" != "2022-blake3-aes-128-gcm";
  }

  /** Gateway.ValidateRoute. */
  predicate ValidIngress(w: World, ingress: Ingress) {
    1 <= ingress.port <= 65535 && ingress.password != "" && ValidCredentials(w, ingress.cipher, ingress.password)
  }

  /** The open sockets are exactly those of the listener map: none leaked, none bound twice. */
  ghost predicate SocketsOk(listeners: map<int, Listener>, sockets: map<nat, int>, nextId: nat) {
    && (forall p :: p in listeners ==> listeners[p].id in sockets && sockets[listeners[p].id] == p)
    && (forall id :: id in sockets ==> id < nextId && sockets[id] in listeners && listeners[sockets[id]].id == id)
  }

  /** The listeners that forward traffic are exactly the ones the active routes want. */
  ghost predicate ServesExactly(listeners: map<int, Listener>, active: map<DeviceId, Route>) {
    forall p, e :: Wanted(active, p, e) <==> (p in listeners && listeners[p].active && listeners[p].endpoint == e)
  }

  /** The two maps forward the same traffic through the same listeners. */
  ghost predicate SameForwarding(before: map<int, Listener>, after: map<int, Listener>) {
    forall p, l: Listener :: l.active ==> ((p in before && before[p] == l) <==> (p in after && after[p] == l))
  }

  lemma ForwardingKeepsService(before: map<int, Listener>, after: map<int, Listener>, active: map<DeviceId, Route>)
    requires SameForwarding(before, after) && ServesExactly(before, active)
    ensures ServesExactly(after, active)
  {
    forall p, e ensures Wanted(active, p, e) <==> (p in after && after[p].active && after[p].endpoint == e) {
      assert p in before && before[p].active ==> p in after && after[p] == before[p];
      assert p in after && after[p].active ==> p in before && before[p] == after[p];
    }
  }

  class Gateway {
    const table: Table
    const connections: Connections
    var listeners: map<int, Listener>
    var sockets: map<nat, int>
    var nextId: nat
    var controlSynced: bool
    var draining: bool
    var canaryOK: bool

    ghost predicate Sound()
      reads this
    {
      SocketsOk(listeners, sockets, nextId)
    }

    constructor (table: Table, connections: Connections)
      ensures Sound() && listeners == map[] && !controlSynced && !draining && canaryOK
      ensures this.table == table && this.connections == connections
    {
      this.table, this.connections := table, connections;
      listeners, sockets, nextId := map[], map[], 0;
      controlSynced, draining, canaryOK := false, false, true;
    }

    predicate Ready()
      reads this, table
    {
      table.loaded && controlSynced && !draining && canaryOK
    }

    /** startListenerLocked: binds the port and records the listener, or fails without a trace. */
    method StartListener(port: int, e: Endpoint, active: bool, w: World) returns (ok: bool)
      requires Sound()
      modifies this`listeners, this`sockets, this`nextId
      ensures Sound() && nextId >= old(nextId)
      ensures ok <==> old(port !in listeners) && Acceptable(w, e.cipher, e.password) && w.binds(port)
      ensures ok ==> listeners == old(listeners)[port := Listener(old(nextId), e, active)]
      ensures !ok ==> listeners == old(listeners) && sockets == old(sockets)
    {
      ValidMeansAcceptable(w, e.cipher, e.password);
      if !ValidCredentials(w, e.cipher, e.password) {
        return false;
      }
      assert port in listeners ==> listeners[port].id in sockets;
      if port in sockets.Values || !w.binds(port) {
        assert port in sockets.Values ==> exists id :: id in sockets && sockets[id] == port;
        return false;
      }
      sockets := sockets[nextId := port];
      listeners := listeners[port := Listener(nextId, e, active)];
      nextId := nextId + 1;
      return true;
    }

    /** Closes the listener on a port and forgets it. */
    method CloseListener(port: int)
      requires Sound() && port in listeners
      modifies this`listeners, this`sockets
      ensures Sound() && listeners == old(listeners) - {port}
    {
      sockets := sockets - {listeners[port].id};
      listeners := listeners - {port};
    }

    /** One turn of the sweep: the listener on `port` is kept and activated if it serves `e`, or closed. */
    method Settle(port: int, e: Option<Endpoint>) returns (kept: bool)
      requires Sound() && port in listeners
      modifies this`listeners, this`sockets
      ensures Sound() && (kept <==> e == Some(old(listeners)[port].endpoint))
      ensures listeners == if kept then old(listeners)[port := old(listeners)[port].(active := true)]
              else old(listeners) - {port}
    {
      if e.Some? && listeners[port].endpoint == e.value {
        listeners := listeners[port := listeners[port].(active := true)];
        return true;
      }
      CloseListener(port);
      return false;
    }

    /** The first loop of ReconcileListeners: listeners that still fit are activated and struck off the
        desired map, all others are closed, leftovers of an abandoned prepare among them. */
    method Sweep(desired: map<int, Endpoint>) returns (missing: map<int, Endpoint>)
      requires Sound()
      modifies this`listeners, this`sockets
      ensures Sound()
      ensures forall p :: p in listeners <==> p in old(listeners) && Holds(desired, p, old(listeners)[p].endpoint)
      ensures forall p :: p in listeners ==> listeners[p] == old(listeners)[p].(active := true)
      ensures forall p :: p in missing <==> p in desired && p !in listeners
      ensures forall p :: p in missing ==> missing[p] == desired[p]
    {
      missing := desired;
      ghost var start := listeners;
      var rest := listeners.Keys;
      while rest != {}
        invariant Sound() && missing.Keys <= desired.Keys
        invariant forall p :: p in rest ==> p in listeners && p in start && listeners[p] == start[p]
        invariant forall p :: p in listeners ==> p in start
        invariant forall p :: p in start && p !in rest ==> (p in listeners <==> Holds(desired, p, start[p].endpoint))
        invariant forall p :: p in listeners && p !in rest ==> listeners[p] == start[p].(active := true)
        invariant forall p :: p in missing ==> missing[p] == desired[p]
        invariant forall p :: p in desired ==> (p !in missing <==> p in listeners && p !in rest)
      {
        var p := Pick(rest);
        var kept := Settle(p, if p in missing then Some(missing[p]) else None);
        if kept {
          missing := missing - {p};
        }
        rest := rest - {p};
      }
    }

    /** The second loop: starts what is missing, stopping at the first failure. */
    method StartMissing(missing: map<int, Endpoint>, w: World) returns (ok: bool)
      requires Sound() && forall p :: p in missing ==> p !in listeners
      modifies this`listeners, this`sockets, this`nextId
      ensures Sound()
      ensures forall p :: p in old(listeners) ==> p in listeners && listeners[p] == old(listeners)[p]
      ensures forall p :: p in listeners && p !in old(listeners) ==>
                p in missing && listeners[p].endpoint == missing[p] && listeners[p].active
                  && listeners[p].id >= old(nextId)
      ensures ok ==> forall p :: p in missing ==> p in listeners
      ensures ok <==> forall p :: p in missing ==>
                Acceptable(w, missing[p].cipher, missing[p].password) && w.binds(p)
    {
      ghost var start := listeners;
      var rest := missing.Keys;
      while rest != {}
        invariant Sound() && nextId >= old(nextId) && rest <= missing.Keys
        invariant forall p :: p in listeners <==> p in start || (p in missing && p !in rest)
        invariant forall p :: p in start ==> listeners[p] == start[p]
        invariant forall p :: p in missing && p !in rest ==>
                    listeners[p].endpoint == missing[p] && listeners[p].active && listeners[p].id >= old(nextId)
        invariant forall p :: p in missing && p !in rest ==>
                    Acceptable(w, missing[p].cipher, missing[p].password) && w.binds(p)
      {
        var p := Pick(rest);
        var started := StartListener(p, missing[p], true, w);
        if !started {
          return false;
        }
        rest := rest - {p};
      }
      return true;
    }

    /** On success the listener map is exactly what the active table wants, all of it active. Whatever
        happens, a listener whose device, method and password are unchanged stays the same object, new
        listeners get new sockets, and the open sockets are those of the map. A table that cannot be
        served is refused before any listener is touched. */
    method ReconcileListeners(w: World) returns (ok: bool)
      requires Sound() && Keyed(table.active)
      modifies this`listeners, this`sockets, this`nextId
      ensures Sound()
      ensures ok <==> Reconcilable(w, old(listeners), table.active)
      ensures ok ==> ServesExactly(listeners, table.active)
      ensures ok ==> forall p :: p in listeners ==> listeners[p].active
      ensures !Servable(table.active) ==> !ok && listeners == old(listeners) && sockets == old(sockets)
      ensures Servable(table.active) ==>
                forall p :: p in old(listeners) && Wanted(table.active, p, old(listeners)[p].endpoint) ==>
                p in listeners && listeners[p] == old(listeners)[p].(active := true)
      ensures Servable(table.active) ==> forall p :: p in listeners ==>
                Wanted(table.active, p, listeners[p].endpoint) && listeners[p].active
                && (listeners[p].id >= old(nextId) || (p in old(listeners) && listeners[p].id == old(listeners)[p].id))
    {
      var routes := table.Snapshot();
      ListingIsProjection(routes, table.active);
      var desired;
      ok, desired := BuildDesired(routes);
      if !ok {
        return;
      }
      ok := Apply(desired, w);
      forall p, e ensures Holds(desired, p, e) <==> Wanted(table.active, p, e) {
        assert WantedFirst(routes, |routes|, p, e) <==> Wanted(table.active, p, e);
      }
      assert forall p :: p in desired ==> Holds(desired, p, desired[p]);
      if ok {
        AppliedServes(listeners, desired, table.active);
      }
    }

    /** Both loops of ReconcileListeners, against the map of desired endpoints. */
    method Apply(desired: map<int, Endpoint>, w: World) returns (ok: bool)
      requires Sound()
      modifies this`listeners, this`sockets, this`nextId
      ensures Sound()
      ensures forall p :: p in old(listeners) && Holds(desired, p, old(listeners)[p].endpoint) ==>
                p in listeners && listeners[p] == old(listeners)[p].(active := true)
      ensures forall p :: p in listeners ==> Holds(desired, p, listeners[p].endpoint) && listeners[p].active
      ensures forall p :: p in listeners ==>
                listeners[p].id >= old(nextId) || (p in old(listeners) && listeners[p].id == old(listeners)[p].id)
      ensures ok ==> forall p :: p in desired ==> p in listeners
      ensures ok <==> forall p :: p in desired ==> CanServe(w, old(listeners), p, desired[p])
    {
      var missing := Sweep(desired);
      ok := StartMissing(missing, w);
    }

    /** One turn of the loop of PrepareDevice. */
    method PrepareIngress(id: DeviceId, ingress: Ingress, w: World) returns (ok: bool)
      requires Sound()
      modifies this`listeners, this`sockets, this`nextId
      ensures Sound()
      ensures ok <==> Preparable(w, id, ingress, old(listeners))
      ensures ok ==> ReadyFor(id, ingress, listeners)
      ensures listeners == old(listeners) ||
              (ok && ingress.port !in old(listeners) &&
               listeners == old(listeners)[ingress.port := Listener(old(nextId), EndpointOf(id, ingress), false)])
    {
      if ingress.port in listeners {
        if listeners[ingress.port].endpoint.deviceId != id {
          return false;
        }
        return ValidIngress(w, ingress);
      }
      if !ValidIngress(w, ingress) {
        return false;
      }
      ok := StartListener(ingress.port, EndpointOf(id, ingress), false, w);
    }

    /** Opens inactive listeners for the ports a change will need, and touches no other listener, whatever
        happens. */
    method PrepareDevice(d: Device, w: World) returns (ok: bool)
      requires Sound()
      modifies this`listeners, this`sockets, this`nextId
      ensures Sound() && Prepares(old(listeners), listeners, d)
      ensures ok <==> forall p, e :: DeviceAsks(d, p, e) ==> Reservable(w, old(listeners), p, e)
      ensures ok ==> forall p, e :: DeviceAsks(d, p, e) ==> p in listeners && listeners[p].endpoint.deviceId == d.id
    {
      ok := PrepareList(d, w);
      OpensMeansPrepares(old(listeners), listeners, d, |DeviceIngresses(d)|);
      PreparableMeansReservable(w, d, old(listeners));
      if ok {
        forall p, e | DeviceAsks(d, p, e) ensures p in listeners && listeners[p].endpoint.deviceId == d.id {
          DeviceAskedSomewhere(d, p, e);
          var i :| 0 <= i < |DeviceIngresses(d)| && DeviceIngresses(d)[i].port == p;
          assert ReadyFor(d.id, DeviceIngresses(d)[i], listeners);
        }
      }
    }

    /** The loop of PrepareDevice. */
    method PrepareList(d: Device, w: World) returns (ok: bool)
      requires Sound()
      modifies this`listeners, this`sockets, this`nextId
      ensures Sound() && OnlyOpens(old(listeners), listeners, d, |DeviceIngresses(d)|)
      ensures ok <==> forall i :: 0 <= i < |DeviceIngresses(d)| ==>
                Preparable(w, d.id, DeviceIngresses(d)[i], old(listeners))
      ensures ok ==> forall i :: 0 <= i < |DeviceIngresses(d)| ==> ReadyFor(d.id, DeviceIngresses(d)[i], listeners)
    {
      ghost var start := listeners;
      var list := DeviceIngresses(d);
      for i := 0 to |list|
        invariant Sound() && OnlyOpens(start, listeners, d, i)
        invariant forall p :: p in listeners && p !in start ==> w.binds(p)
        invariant forall j :: 0 <= j < i ==> Preparable(w, d.id, list[j], start) && ReadyFor(d.id, list[j], listeners)
      {
        ghost var before := listeners;
        ok := PrepareIngress(d.id, list[i], w);
        OpensOneMore(start, before, listeners, d, i);
        StillPreparable(w, start, before, d, i);
        if !ok {
          return false;
        }
        StillReady(before, listeners, d, i);
      }
      return true;
    }

    method CloseListeners()
      requires Sound()
      modifies this`listeners, this`sockets
      ensures listeners == map[] && sockets == map[]
    {
      while listeners.Keys != {}
        invariant Sound()
        decreases |listeners|
      {
        var p := Pick(listeners.Keys);
        CloseListener(p);
      }
      assert forall id :: id in sockets ==> sockets[id] in listeners;
    }

    /** The admission guard of handleShadowsocks for a connection that `item` accepted, at time `now`. The
        listener may have been closed and taken out of the map since. */
    method Admit(item: Listener, now: Time) returns (route: Option<Route>)
      ensures route.Some? <==>
                && table.loaded && controlSynced && !draining && canaryOK
                && item.active && item.endpoint.deviceId in table.active
                && var c := table.active[item.endpoint.deviceId].credential;
                   c.expiresAt.Some? ==> now <= c.expiresAt.value
      ensures route.Some? ==> route.value == table.active[item.endpoint.deviceId]
      ensures route.Some? && Keyed(table.active) && ServesExactly(listeners, table.active) ==>
                forall p :: p in listeners && listeners[p] == item ==> RouteAsks(route.value, p, item.endpoint)
    {
      if !Ready() || !item.active {
        return None;
      }
      var id := item.endpoint.deviceId;
      if id !in table.active {
        return None;
      }
      var r := table.active[id];
      if r.credential.expiresAt.Some? && now > r.credential.expiresAt.value {
        return None;
      }
      if ServesExactly(listeners, table.active) && Keyed(table.active) {
        forall p | p in listeners && listeners[p] == item ensures RouteAsks(r, p, item.endpoint) {
          WantedByItsDevice(table.active, p, item.endpoint);
        }
      }
      return Some(r);
    }
  }

  /** A listener that fits is already there, or one can be started. */
  ghost predicate CanServe(w: World, listeners: map<int, Listener>, port: int, e: Endpoint) {
    || (port in listeners && listeners[port].endpoint == e)
    || (Acceptable(w, e.cipher, e.password) && w.binds(port))
  }

  /** The active routes fit together, and every listener they ask for is there or can be started. */
  ghost predicate Reconcilable(w: World, listeners: map<int, Listener>, active: map<DeviceId, Route>) {
    Servable(active) && forall p, e :: Wanted(active, p, e) ==> CanServe(w, listeners, p, e)
  }

  /** A listener for `e` may be prepared on `port`: it is this device's already, or free to bind. */
  ghost predicate Reservable(w: World, listeners: map<int, Listener>, port: int, e: Endpoint) {
    && 1 <= port <= 65535 && Acceptable(w, e.cipher, e.password)
    && (if port in listeners then listeners[port].endpoint.deviceId == e.deviceId else w.binds(port))
  }

  /** Every listener there was is still there as it was, and every new one is inactive and one that the
      device asks for. */
  ghost predicate Prepares(before: map<int, Listener>, after: map<int, Listener>, d: Device) {
    && (forall p :: p in before ==> p in after && after[p] == before[p])
    && (forall p :: p in after && p !in before ==> !after[p].active && DeviceAsks(d, p, after[p].endpoint))
  }

  lemma DeviceAskedAt(d: Device, i: nat)
    requires i < |DeviceIngresses(d)|
    ensures DeviceAsks(d, DeviceIngresses(d)[i].port, EndpointOf(d.id, DeviceIngresses(d)[i]))
  {
  }

  lemma DeviceAskedSomewhere(d: Device, port: int, e: Endpoint)
    requires DeviceAsks(d, port, e)
    ensures exists i :: 0 <= i < |DeviceIngresses(d)| && DeviceIngresses(d)[i].port == port
                        && e == EndpointOf(d.id, DeviceIngresses(d)[i])
  {
    if d.ingresses != [] {
      var i :| 0 <= i < |d.ingresses| && d.ingresses[i].port == port
               && e == Endpoint(d.id, d.ingresses[i].cipher, d.ingresses[i].password);
      assert DeviceIngresses(d)[i] == d.ingresses[i];
    } else {
      assert DeviceIngresses(d)[0].port == port;
    }
  }

  lemma OpensMeansPrepares(before: map<int, Listener>, after: map<int, Listener>, d: Device, n: nat)
    requires OnlyOpens(before, after, d, n)
    ensures Prepares(before, after, d)
  {
    forall p | p in after && p !in before ensures DeviceAsks(d, p, after[p].endpoint) {
      var i :| 0 <= i < n && OpensFor(d, i, p, after[p].endpoint);
      DeviceAskedAt(d, i);
    }
  }

  lemma PreparableMeansReservable(w: World, d: Device, listeners: map<int, Listener>)
    ensures (forall i :: 0 <= i < |DeviceIngresses(d)| ==> Preparable(w, d.id, DeviceIngresses(d)[i], listeners)) <==>
            (forall p, e :: DeviceAsks(d, p, e) ==> Reservable(w, listeners, p, e))
  {
    var list := DeviceIngresses(d);
    forall i | 0 <= i < |list|
      ensures Preparable(w, d.id, list[i], listeners) <==>
                Reservable(w, listeners, list[i].port, EndpointOf(d.id, list[i]))
      ensures DeviceAsks(d, list[i].port, EndpointOf(d.id, list[i]))
    {
      ValidMeansAcceptable(w, list[i].cipher, list[i].password);
      DeviceAskedAt(d, i);
    }
    if forall i :: 0 <= i < |list| ==> Preparable(w, d.id, list[i], listeners) {
      forall p, e | DeviceAsks(d, p, e) ensures Reservable(w, listeners, p, e) {
        DeviceAskedSomewhere(d, p, e);
        var i :| 0 <= i < |list| && list[i].port == p && e == EndpointOf(d.id, list[i]);
        assert Preparable(w, d.id, list[i], listeners);
      }
    }
  }

  /** The port is this device's already, or it is free to bind; and the ingress is valid. */
  predicate Preparable(w: World, id: DeviceId, ingress: Ingress, listeners: map<int, Listener>) {
    && ValidIngress(w, ingress)
    && (if ingress.port in listeners then listeners[ingress.port].endpoint.deviceId == id else w.binds(ingress.port))
  }

  lemma AppliedServes(listeners: map<int, Listener>, desired: map<int, Endpoint>, active: map<DeviceId, Route>)
    requires forall p, e :: Holds(desired, p, e) <==> Wanted(active, p, e)
    requires forall p :: p in desired ==> p in listeners
    requires forall p :: p in listeners ==> Holds(desired, p, listeners[p].endpoint) && listeners[p].active
    ensures ServesExactly(listeners, active)
  {
    forall p, e
      ensures Wanted(active, p, e) <==> (p in listeners && listeners[p].active && listeners[p].endpoint == e)
    {
      assert Holds(desired, p, e) <==> Wanted(active, p, e);
    }
  }

  function EndpointOf(id: DeviceId, ingress: Ingress): Endpoint {
    Endpoint(id, ingress.cipher, ingress.password)
  }

  /** Ingress `i` of the device opens this endpoint on this port. */
  ghost predicate OpensFor(d: Device, i: nat, port: int, e: Endpoint) {
    && i < |DeviceIngresses(d)| && DeviceIngresses(d)[i].port == port
    && e == Endpoint(d.id, DeviceIngresses(d)[i].cipher, DeviceIngresses(d)[i].password)
  }

  ghost predicate Opened(d: Device, n: nat, port: int, l: Listener) {
    !l.active && exists i :: 0 <= i < n && OpensFor(d, i, port, l.endpoint)
  }

  /** Every listener there was is still there as it was, and every new one is inactive and opens one of
      the first `n` ingresses of the device. */
  ghost predicate OnlyOpens(before: map<int, Listener>, after: map<int, Listener>, d: Device, n: nat) {
    && (forall p :: p in before ==> p in after && after[p] == before[p])
    && (forall p :: p in after && p !in before ==> Opened(d, n, p, after[p]))
  }

  predicate ReadyFor(id: DeviceId, ingress: Ingress, listeners: map<int, Listener>) {
    ingress.port in listeners && listeners[ingress.port].endpoint.deviceId == id
  }

  lemma OpensOneMore(start: map<int, Listener>, before: map<int, Listener>, after: map<int, Listener>, d: Device,
                     i: nat)
    requires i < |DeviceIngresses(d)| && OnlyOpens(start, before, d, i)
    requires var g := DeviceIngresses(d)[i];
             || after == before
             || (g.port !in before && exists id :: after == before[g.port := Listener(id, EndpointOf(d.id, g), false)])
    ensures OnlyOpens(start, after, d, i + 1) && OnlyOpens(start, after, d, |DeviceIngresses(d)|)
    ensures forall p :: p in before ==> p in after && after[p] == before[p]
  {
    var g := DeviceIngresses(d)[i];
    assert OpensFor(d, i, g.port, EndpointOf(d.id, g));
    forall p | p in after && p !in start
      ensures Opened(d, i + 1, p, after[p]) && Opened(d, |DeviceIngresses(d)|, p, after[p])
    {
      if p in before && after[p] == before[p] {
        var j :| 0 <= j < i && OpensFor(d, j, p, before[p].endpoint);
      }
    }
  }

  /** What the loop has opened so far makes no difference to the next ingress. */
  lemma StillPreparable(w: World, start: map<int, Listener>, before: map<int, Listener>, d: Device, i: nat)
    requires i < |DeviceIngresses(d)| && OnlyOpens(start, before, d, i)
    requires forall p :: p in before && p !in start ==> w.binds(p)
    ensures Preparable(w, d.id, DeviceIngresses(d)[i], before) <==> Preparable(w, d.id, DeviceIngresses(d)[i], start)
  {
    var port := DeviceIngresses(d)[i].port;
    if port in before && port !in start {
      var j :| 0 <= j < i && OpensFor(d, j, port, before[port].endpoint);
    }
  }

  lemma StillReady(before: map<int, Listener>, after: map<int, Listener>, d: Device, n: nat)
    requires n <= |DeviceIngresses(d)| && forall p :: p in before ==> p in after && after[p] == before[p]
    requires forall j :: 0 <= j < n ==> ReadyFor(d.id, DeviceIngresses(d)[j], before)
    ensures forall j :: 0 <= j < n ==> ReadyFor(d.id, DeviceIngresses(d)[j], after)
  {
  }

  /** Preparing a change does not disturb the traffic that is being forwarded. */
  lemma OpeningKeepsForwarding(before: map<int, Listener>, after: map<int, Listener>, d: Device)
    requires Prepares(before, after, d)
    ensures SameForwarding(before, after)
  {
  }

  lemma WantedByItsDevice(active: map<DeviceId, Route>, port: int, e: Endpoint)
    requires Keyed(active) && Wanted(active, port, e)
    ensures e.deviceId in active && RouteAsks(active[e.deviceId], port, e)
  {
  }
}
