/** The listeners a routing table asks for (internal/dataplane/gateway.go:91-104): one per ingress of
    every active route, none incomplete, no port twice. */
module DesiredListeners {
  import opened Model

  /** What a Shadowsocks listener serves: its device, method and password. */
  datatype Endpoint = Endpoint(deviceId: DeviceId, cipher: string, password: string)

  predicate Complete(ingress: Ingress) {
    ingress.cipher != "" && ingress.password != ""
  }

  function EndpointAt(r: Route, i: nat): Endpoint
    requires i < |RouteIngresses(r)|
  {
    Endpoint(r.deviceId, RouteIngresses(r)[i].cipher, RouteIngresses(r)[i].password)
  }

  /** One of the first `n` ingresses of the route asks for endpoint `e` on `port`. */
  ghost predicate OffersFirst(r: Route, n: nat, port: int, e: Endpoint) {
    exists i :: 0 <= i < n && i < |RouteIngresses(r)| && RouteIngresses(r)[i].port == port && EndpointAt(r, i) == e
  }

  ghost predicate Offers(r: Route, port: int, e: Endpoint) {
    OffersFirst(r, |RouteIngresses(r)|, port, e)
  }

  ghost predicate RouteServable(r: Route) {
    && (forall i :: 0 <= i < |RouteIngresses(r)| ==> Complete(RouteIngresses(r)[i]))
    && (forall i, j :: 0 <= i < j < |RouteIngresses(r)| ==> RouteIngresses(r)[i].port != RouteIngresses(r)[j].port)
  }

  ghost predicate NoClash(r: Route, q: Route) {
    forall i, j :: 0 <= i < |RouteIngresses(r)| && 0 <= j < |RouteIngresses(q)| ==>
        RouteIngresses(r)[i].port != RouteIngresses(q)[j].port
  }

  // --- the same on the fields --------------------------------------------------

  /** A listener on `port` for `e` is asked for: by an entry of the list or, without a list, by the flat
      fields; flat port 0 asks for nothing. */
  ghost predicate Asks(id: DeviceId, list: seq<Ingress>, flatPort: int, flatCipher: string, flatPassword: string,
                       port: int, e: Endpoint)
  {
    if list != [] then
      exists i :: 0 <= i < |list| && list[i].port == port && e == Endpoint(id, list[i].cipher, list[i].password)
    else flatPort != 0 && port == flatPort && e == Endpoint(id, flatCipher, flatPassword)
  }

  ghost predicate RouteAsks(r: Route, port: int, e: Endpoint) {
    Asks(r.deviceId, r.ingresses, r.ingressPort, r.ingressMethod, r.ingressPassword, port, e)
  }

  ghost predicate DeviceAsks(d: Device, port: int, e: Endpoint) {
    Asks(d.id, d.ingresses, d.ingressPort, d.ingressMethod, d.ingressPassword, port, e)
  }

  /** The projection of an active table: its active routes want endpoint `e` on `port`. */
  ghost predicate Wanted(active: map<DeviceId, Route>, port: int, e: Endpoint) {
    exists d :: d in active && RouteAsks(active[d], port, e)
  }

  /** Every ingress is complete and no port is asked for twice. */
  ghost predicate Servable(active: map<DeviceId, Route>) {
    && (forall d, p, e :: d in active && RouteAsks(active[d], p, e) ==> e.cipher != "" && e.password != "")
    && (forall d, i, j :: d in active && 0 <= i < j < |active[d].ingresses| ==>
          active[d].ingresses[i].port != active[d].ingresses[j].port)
    && (forall d, e, p, x, y :: d in active && e in active && d != e && RouteAsks(active[d], p, x) ==>
          !RouteAsks(active[e], p, y))
  }

  lemma OffersMeansAsks(r: Route, port: int, e: Endpoint)
    ensures Offers(r, port, e) <==> RouteAsks(r, port, e)
  {
    if r.ingresses != [] && RouteAsks(r, port, e) {
      var i :| 0 <= i < |r.ingresses| && r.ingresses[i].port == port
               && e == Endpoint(r.deviceId, r.ingresses[i].cipher, r.ingresses[i].password);
      assert EndpointAt(r, i) == e;
    }
    if r.ingresses == [] && RouteAsks(r, port, e) {
      assert EndpointAt(r, 0) == e;
    }
  }

  lemma AskedAt(r: Route, i: nat)
    requires i < |RouteIngresses(r)|
    ensures RouteAsks(r, RouteIngresses(r)[i].port, EndpointAt(r, i))
  {
    assert Offers(r, RouteIngresses(r)[i].port, EndpointAt(r, i));
    OffersMeansAsks(r, RouteIngresses(r)[i].port, EndpointAt(r, i));
  }

  lemma RouteServableMeans(r: Route)
    ensures RouteServable(r) <==>
              && (forall p, e :: RouteAsks(r, p, e) ==> e.cipher != "" && e.password != "")
              && (forall i, j :: 0 <= i < j < |r.ingresses| ==> r.ingresses[i].port != r.ingresses[j].port)
  {
    assert r.ingresses != [] ==> RouteIngresses(r) == r.ingresses;
    if RouteServable(r) {
      forall p, e | RouteAsks(r, p, e) ensures e.cipher != "" && e.password != "" {
        OffersMeansAsks(r, p, e);
        var i :| 0 <= i < |RouteIngresses(r)| && RouteIngresses(r)[i].port == p && EndpointAt(r, i) == e;
        assert Complete(RouteIngresses(r)[i]);
      }
    }
    if forall p, e :: RouteAsks(r, p, e) ==> e.cipher != "" && e.password != "" {
      forall i | 0 <= i < |RouteIngresses(r)| ensures Complete(RouteIngresses(r)[i]) {
        AskedAt(r, i);
      }
    }
  }

  lemma NoClashMeans(r: Route, q: Route)
    ensures NoClash(r, q) <==> forall p, x, y :: RouteAsks(r, p, x) ==> !RouteAsks(q, p, y)
  {
    forall p, x, y | RouteAsks(r, p, x) && RouteAsks(q, p, y) ensures !NoClash(r, q) {
      OffersMeansAsks(r, p, x);
      OffersMeansAsks(q, p, y);
    }
    forall i, j | 0 <= i < |RouteIngresses(r)| && 0 <= j < |RouteIngresses(q)|
      && RouteIngresses(r)[i].port == RouteIngresses(q)[j].port
      ensures RouteAsks(r, RouteIngresses(r)[i].port, EndpointAt(r, i))
      ensures RouteAsks(q, RouteIngresses(r)[i].port, EndpointAt(q, j))
    {
      AskedAt(r, i);
      AskedAt(q, j);
    }
  }

  /** The routes fit together as the loops check it. */
  ghost predicate Fitting(active: map<DeviceId, Route>) {
    && (forall d :: d in active ==> RouteServable(active[d]))
    && (forall d, e :: d in active && e in active && d != e ==> NoClash(active[d], active[e]))
  }

  lemma ServableMeansFitting(active: map<DeviceId, Route>)
    ensures Servable(active) <==> Fitting(active)
  {
    forall d | d in active
      ensures RouteServable(active[d]) <==>
                && (forall p, e :: RouteAsks(active[d], p, e) ==> e.cipher != "" && e.password != "")
                && (forall i, j :: 0 <= i < j < |active[d].ingresses| ==>
                      active[d].ingresses[i].port != active[d].ingresses[j].port)
    {
      RouteServableMeans(active[d]);
    }
    forall d, e | d in active && e in active && d != e
      ensures NoClash(active[d], active[e]) <==>
                forall p, x, y :: RouteAsks(active[d], p, x) ==> !RouteAsks(active[e], p, y)
    {
      NoClashMeans(active[d], active[e]);
    }
  }

  ghost predicate Holds(desired: map<int, Endpoint>, port: int, e: Endpoint) {
    port in desired && desired[port] == e
  }

  /** The inner loop: adds the ingresses of one route, or finds that it cannot be served. */
  method AddRoute(before: map<int, Endpoint>, route: Route) returns (ok: bool, desired: map<int, Endpoint>)
    ensures ok <==> RouteServable(route) && forall i :: 0 <= i < |RouteIngresses(route)| ==>
              RouteIngresses(route)[i].port !in before
    ensures ok ==> forall p, e :: Holds(desired, p, e) <==> Holds(before, p, e) || Offers(route, p, e)
  {
    desired := before;
    var list := RouteIngresses(route);
    for i := 0 to |list|
      invariant forall j :: 0 <= j < i ==> Complete(list[j]) && list[j].port !in before
      invariant forall j, k :: 0 <= j < k < i ==> list[j].port != list[k].port
      invariant forall p :: p in desired <==> p in before || exists j :: 0 <= j < i && list[j].port == p
      invariant forall p, e :: Holds(desired, p, e) <==> Holds(before, p, e) || OffersFirst(route, i, p, e)
    {
      if list[i].cipher == "" || list[i].password == "" {
        return false, before;
      }
      if list[i].port in desired {
        return false, before;
      }
      ghost var earlier := desired;
      desired := desired[list[i].port := Endpoint(route.deviceId, list[i].cipher, list[i].password)];
      forall p, e ensures Holds(desired, p, e) <==> Holds(before, p, e) || OffersFirst(route, i + 1, p, e) {
        OfferNext(route, i, p, e);
        assert Holds(earlier, p, e) <==> Holds(before, p, e) || OffersFirst(route, i, p, e);
      }
    }
    return true, desired;
  }

  lemma OfferNext(r: Route, i: nat, port: int, e: Endpoint)
    requires i < |RouteIngresses(r)|
    ensures OffersFirst(r, i + 1, port, e) <==>
              OffersFirst(r, i, port, e) || (RouteIngresses(r)[i].port == port && EndpointAt(r, i) == e)
  {
  }

  ghost predicate WantedFirst(routes: seq<Route>, n: nat, port: int, e: Endpoint) {
    exists k :: 0 <= k < n && k < |routes| && Offers(routes[k], port, e)
  }

  ghost predicate ServableFirst(routes: seq<Route>, n: nat)
    requires n <= |routes|
  {
    && (forall k :: 0 <= k < n ==> RouteServable(routes[k]))
    && (forall k, l :: 0 <= k < l < n ==> NoClash(routes[k], routes[l]))
  }

  /** The outer loop, over the routes of a table in the order Go happens to visit them. */
  method BuildDesired(routes: seq<Route>) returns (ok: bool, desired: map<int, Endpoint>)
    ensures ok <==> ServableFirst(routes, |routes|)
    ensures ok ==> forall p, e :: Holds(desired, p, e) <==> WantedFirst(routes, |routes|, p, e)
  {
    desired := map[];
    for k := 0 to |routes|
      invariant ServableFirst(routes, k)
      invariant forall p, e :: Holds(desired, p, e) <==> WantedFirst(routes, k, p, e)
    {
      ghost var before := desired;
      ok, desired := AddRoute(desired, routes[k]);
      ClashMeansTaken(routes, k, before);
      if !ok {
        return false, map[];
      }
      forall p, e ensures Holds(desired, p, e) <==> WantedFirst(routes, k + 1, p, e) {
        WantNext(routes, k, p, e);
        assert Holds(before, p, e) <==> WantedFirst(routes, k, p, e);
      }
    }
    return true, desired;
  }

  lemma WantNext(routes: seq<Route>, k: nat, port: int, e: Endpoint)
    requires k < |routes|
    ensures WantedFirst(routes, k + 1, port, e) <==> WantedFirst(routes, k, port, e) || Offers(routes[k], port, e)
  {
  }

  /** Route `k` clashes with an earlier one exactly when one of its ports is already in the map. */
  lemma ClashMeansTaken(routes: seq<Route>, k: nat, desired: map<int, Endpoint>)
    requires k < |routes| && forall p, e :: Holds(desired, p, e) <==> WantedFirst(routes, k, p, e)
    ensures (forall i :: 0 <= i < |RouteIngresses(routes[k])| ==> RouteIngresses(routes[k])[i].port !in desired)
            <==> (forall l :: 0 <= l < k ==> NoClash(routes[l], routes[k]))
  {
    var list := RouteIngresses(routes[k]);
    forall l, i, j | 0 <= l < k && 0 <= i < |RouteIngresses(routes[l])| && 0 <= j < |list|
      && RouteIngresses(routes[l])[i].port == list[j].port
      ensures list[j].port in desired
    {
      assert Offers(routes[l], list[j].port, EndpointAt(routes[l], i));
      assert Holds(desired, list[j].port, EndpointAt(routes[l], i));
    }
    forall j | 0 <= j < |list| && list[j].port in desired
      ensures exists l :: 0 <= l < k && !NoClash(routes[l], routes[k])
    {
      assert Holds(desired, list[j].port, desired[list[j].port]);
      var l :| 0 <= l < k && Offers(routes[l], list[j].port, desired[list[j].port]);
      assert !NoClash(routes[l], routes[k]);
    }
  }

  lemma ListingWants(routes: seq<Route>, active: map<DeviceId, Route>, p: int, e: Endpoint)
    requires Keyed(active) && Lists(routes, active)
    ensures WantedFirst(routes, |routes|, p, e) <==> Wanted(active, p, e)
  {
    if WantedFirst(routes, |routes|, p, e) {
      var k :| 0 <= k < |routes| && Offers(routes[k], p, e);
      OffersMeansAsks(routes[k], p, e);
      assert active[routes[k].deviceId] == routes[k];
    }
    if Wanted(active, p, e) {
      var d :| d in active && RouteAsks(active[d], p, e);
      var k :| 0 <= k < |routes| && routes[k] == active[d];
      OffersMeansAsks(routes[k], p, e);
    }
  }

  /** The answers do not depend on the order in which the table's routes are listed. */
  lemma ListingIsProjection(routes: seq<Route>, active: map<DeviceId, Route>)
    requires Keyed(active) && Lists(routes, active)
    requires forall i, j :: 0 <= i < j < |routes| ==> routes[i].deviceId != routes[j].deviceId
    ensures ServableFirst(routes, |routes|) <==> Servable(active)
    ensures forall p, e :: WantedFirst(routes, |routes|, p, e) <==> Wanted(active, p, e)
  {
    ListingServes(routes, active);
    forall p, e ensures WantedFirst(routes, |routes|, p, e) <==> Wanted(active, p, e) {
      ListingWants(routes, active, p, e);
    }
  }

  lemma ListingServes(routes: seq<Route>, active: map<DeviceId, Route>)
    requires Keyed(active) && Lists(routes, active)
    requires forall i, j :: 0 <= i < j < |routes| ==> routes[i].deviceId != routes[j].deviceId
    ensures ServableFirst(routes, |routes|) <==> Servable(active)
  {
    ServableMeansFitting(active);
    if ServableFirst(routes, |routes|) {
      ListedServes(routes, active);
    }
    if Fitting(active) {
      ServedLists(routes, active);
    }
  }

  lemma ListedServes(routes: seq<Route>, active: map<DeviceId, Route>)
    requires Keyed(active) && Lists(routes, active) && ServableFirst(routes, |routes|)
    ensures Fitting(active)
  {
    forall d | d in active ensures RouteServable(active[d]) {
      var k :| 0 <= k < |routes| && routes[k] == active[d];
    }
    forall d, e | d in active && e in active && d != e ensures NoClash(active[d], active[e]) {
      ListedApart(routes, active, d, e);
    }
  }

  lemma ListedApart(routes: seq<Route>, active: map<DeviceId, Route>, d: DeviceId, e: DeviceId)
    requires Lists(routes, active) && ServableFirst(routes, |routes|) && d in active && e in active && d != e
    requires Keyed(active)
    ensures NoClash(active[d], active[e])
  {
    var k :| 0 <= k < |routes| && routes[k] == active[d];
    var l :| 0 <= l < |routes| && routes[l] == active[e];
    assert if k < l then NoClash(routes[k], routes[l]) else NoClash(routes[l], routes[k]);
  }

  lemma ServedLists(routes: seq<Route>, active: map<DeviceId, Route>)
    requires Lists(routes, active) && Fitting(active)
    requires forall i, j :: 0 <= i < j < |routes| ==> routes[i].deviceId != routes[j].deviceId
    ensures ServableFirst(routes, |routes|)
  {
    forall k, l | 0 <= k < l < |routes| ensures NoClash(routes[k], routes[l]) {
      assert active[routes[k].deviceId] == routes[k] && active[routes[l].deviceId] == routes[l];
    }
  }
}
