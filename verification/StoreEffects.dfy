/** What each operation of the in-memory store does (internal/store/memory.go:61-207), field by field, and exactly when
    it refuses. */
module StoreEffects {
  import opened Model
  import opened MemoryStore

  // ---------------------------------------------------------------------------
  // Ports and lists
  // ---------------------------------------------------------------------------

  /** The device listens on the port: by its list or, without one, by its flat port. */
  ghost predicate ListensOn(d: Device, port: int) {
    if d.ingresses != [] then exists i :: 0 <= i < |d.ingresses| && d.ingresses[i].port == port
    else d.ingressPort != 0 && d.ingressPort == port
  }

  ghost predicate InUse(s: StoreState, port: int) {
    exists id :: id in s.devices && ListensOn(s.devices[id], port)
  }

  lemma InUseMeansTaken(s: StoreState, port: int)
    ensures InUse(s, port) <==> PortTaken(s.devices, port)
  {
    if InUse(s, port) {
      var id :| id in s.devices && ListensOn(s.devices[id], port);
      var list := DeviceIngresses(s.devices[id]);
      if s.devices[id].ingresses == [] {
        assert list[0].port == port;
      } else {
        var i :| 0 <= i < |s.devices[id].ingresses| && s.devices[id].ingresses[i].port == port;
        assert list[i].port == port;
      }
    }
    if PortTaken(s.devices, port) {
      var id, i :| id in s.devices && 0 <= i < |DeviceIngresses(s.devices[id])|
                   && DeviceIngresses(s.devices[id])[i].port == port;
      assert ListensOn(s.devices[id], port);
    }
  }

  /** `list` is what a device listens on: its list or, without one, one primary ingress of its flat fields. */
  ghost predicate Effective(d: Device, list: seq<Ingress>) {
    if d.ingresses != [] then list == d.ingresses
    else if d.ingressPort == 0 then list == []
    else list == [Ingress(d.ingressPort, d.ingressMethod, d.ingressPassword, true, d.createdAt)]
  }

  lemma EffectiveIs(d: Device, list: seq<Ingress>)
    ensures Effective(d, list) <==> list == DeviceIngresses(d)
  {
  }

  /** `m'` has the same keys as `m`, and the same routes except at `id`. */
  ghost predicate SameElsewhere(m: map<DeviceId, Route>, m': map<DeviceId, Route>, id: DeviceId) {
    forall d :: (d in m <==> d in m') && (d in m && d != id ==> m'[d] == m[d])
  }

  ghost predicate OnlyDevice(s: StoreState, s': StoreState, id: DeviceId) {
    forall d :: (d in s.devices <==> d in s'.devices) && (d in s.devices && d != id ==> s'.devices[d] == s.devices[d])
  }

  /** The stored route of `id`, if there is one, has these ingress fields and is otherwise as it was. */
  ghost predicate RouteBecomes(m: map<DeviceId, Route>, m': map<DeviceId, Route>, id: DeviceId, port: int,
                               cipher: string, password: string, list: seq<Ingress>)
  {
    id in m ==>
      && id in m' && m'[id].ingressPort == port && m'[id].ingressMethod == cipher && m'[id].ingressPassword == password
      && m'[id].ingresses == list
      && m'[id].deviceId == m[id].deviceId && m'[id].username == m[id].username
      && m'[id].passwordHash == m[id].passwordHash && m'[id].credential == m[id].credential
      && m'[id].version == m[id].version && m'[id].status == m[id].status && m'[id].updatedAt == m[id].updatedAt
  }

  /** Identity, user name and age of a device. */
  ghost predicate SamePerson(d: Device, d': Device) {
    && d'.id == d.id && d'.username == d.username && d'.passwordHash == d.passwordHash
    && d'.enabled == d.enabled && d'.createdAt == d.createdAt
  }

  // ---------------------------------------------------------------------------
  // Devices
  // ---------------------------------------------------------------------------

  lemma CreateEffect(s: StoreState, d: Device)
    ensures CreateDevice(s, d).Ok? <==> d.id !in s.devices && !InUse(s, d.ingressPort)
    ensures CreateDevice(s, d).Err? ==> CreateDevice(s, d).error == Conflict
    ensures CreateDevice(s, d).Ok? ==>
              var s' := CreateDevice(s, d).value;
              && s'.routes == s.routes && s'.pending == s.pending
              && (forall id :: id in s'.devices <==> id in s.devices || id == d.id)
              && (forall id :: id in s.devices ==> s'.devices[id] == s.devices[id])
              && var made := s'.devices[d.id];
                 && SamePerson(d, made) && made.updatedAt == d.updatedAt && made.ingressPort == d.ingressPort
                 && made.ingressMethod == d.ingressMethod && made.ingressPassword == d.ingressPassword
                 && Effective(d, made.ingresses)
  {
    InUseMeansTaken(s, d.ingressPort);
  }

  /** Rotation: the new password is on the flat field and on every primary ingress, and on the flat field of the
      stored routes. */
  lemma RotateEffect(s: StoreState, id: DeviceId, password: string, now: Time)
    ensures Rotate(s, id, password, now).Ok? <==> id in s.devices
    ensures id !in s.devices ==> Rotate(s, id, password, now) == Err(NotFound)
    ensures id in s.devices ==>
              var s' := Rotate(s, id, password, now).value;
              && OnlyDevice(s, s', id) && SameElsewhere(s.routes, s'.routes, id)
                 && SameElsewhere(s.pending, s'.pending, id)
              && var d, d' := s.devices[id], s'.devices[id];
                 && SamePerson(d, d') && d'.updatedAt == now && d'.ingressPort == d.ingressPort
                 && d'.ingressMethod == d.ingressMethod && d'.ingressPassword == password
                 && |d'.ingresses| == |d.ingresses|
                 && (forall i :: 0 <= i < |d.ingresses| ==>
                       && d'.ingresses[i].port == d.ingresses[i].port && d'.ingresses[i].cipher == d.ingresses[i].cipher
                       && d'.ingresses[i].primary == d.ingresses[i].primary
                       && d'.ingresses[i].createdAt == d.ingresses[i].createdAt
                       && d'.ingresses[i].password
                          == if d.ingresses[i].primary then password else d.ingresses[i].password)
    ensures id in s.devices ==>
              var s' := Rotate(s, id, password, now).value;
              && (id in s.routes ==> RouteBecomes(s.routes, s'.routes, id, s.routes[id].ingressPort,
                                                  s.routes[id].ingressMethod, password, s.routes[id].ingresses))
              && (id in s.pending ==> RouteBecomes(s.pending, s'.pending, id, s.pending[id].ingressPort,
                                                   s.pending[id].ingressMethod, password, s.pending[id].ingresses))
  {
  }

  /** Adding an ingress: it stands behind the others, not primary, in the device and in its stored routes. */
  lemma AddEffect(s: StoreState, id: DeviceId, x: Ingress, now: Time)
    ensures AddIngress(s, id, x, now).Ok? <==> id in s.devices && !InUse(s, x.port)
    ensures AddIngress(s, id, x, now).Err? ==>
              AddIngress(s, id, x, now).error == if id in s.devices then Conflict else NotFound
    ensures AddIngress(s, id, x, now).Ok? ==>
              var s' := AddIngress(s, id, x, now).value;
              && OnlyDevice(s, s', id) && SameElsewhere(s.routes, s'.routes, id)
                 && SameElsewhere(s.pending, s'.pending, id)
              && var d, d' := s.devices[id], s'.devices[id];
                 && SamePerson(d, d') && d'.updatedAt == now && d'.ingressPort == d.ingressPort
                 && d'.ingressMethod == d.ingressMethod && d'.ingressPassword == d.ingressPassword
                 && |d'.ingresses| >= 1 && Effective(d, d'.ingresses[..|d'.ingresses| - 1])
                 && d'.ingresses[|d'.ingresses| - 1] == Ingress(x.port, x.cipher, x.password, false, x.createdAt)
                 && ListensOn(d', x.port)
    ensures AddIngress(s, id, x, now).Ok? ==>
              var s' := AddIngress(s, id, x, now).value;
              && (id in s.routes ==>
                    RouteBecomes(s.routes, s'.routes, id, s.routes[id].ingressPort, s.routes[id].ingressMethod,
                                 s.routes[id].ingressPassword, s'.devices[id].ingresses))
              && (id in s.pending ==>
                    RouteBecomes(s.pending, s'.pending, id, s.pending[id].ingressPort, s.pending[id].ingressMethod,
                                 s.pending[id].ingressPassword, s'.devices[id].ingresses))
  {
    InUseMeansTaken(s, x.port);
    if AddIngress(s, id, x, now).Ok? {
      var list := AddIngress(s, id, x, now).value.devices[id].ingresses;
      assert list[..|list| - 1] == DeviceIngresses(s.devices[id]);
      assert list[|list| - 1].port == x.port;
    }
  }

  /** `rest` is `list` without the ingresses on `port`, in the same order. */
  ghost predicate Filtered(list: seq<Ingress>, port: int, rest: seq<Ingress>) {
    && (forall i :: 0 <= i < |rest| ==> rest[i].port != port)
    && (forall x :: x in rest <==> x in list && x.port != port)
    && (forall i, j :: 0 <= i < j < |rest| ==>
          exists a, b :: 0 <= a < b < |list| && list[a] == rest[i] && list[b] == rest[j])
  }

  lemma {:induction false} WithoutPortFilters(list: seq<Ingress>, port: int)
    ensures Filtered(list, port, WithoutPort(list, port))
  {
    if list != [] {
      var n := |list| - 1;
      var init, last := list[..n], list[n];
      WithoutPortFilters(init, port);
      var rest, all := WithoutPort(init, port), WithoutPort(list, port);
      assert list == init + [last];
      forall i, j | 0 <= i < j < |all|
        ensures exists a, b :: 0 <= a < b < |list| && list[a] == all[i] && list[b] == all[j]
      {
        if j < |rest| {
          var a, b :| 0 <= a < b < |init| && init[a] == rest[i] && init[b] == rest[j];
          assert list[a] == all[i] && list[b] == all[j];
        } else {
          assert rest[i] in init;
          var a :| 0 <= a < |init| && init[a] == rest[i];
          assert list[a] == all[i] && list[n] == all[j];
        }
      }
    }
  }

  /** The ingress on `port`, the last one if there are several, is primary. */
  ghost predicate PrimaryOn(list: seq<Ingress>, port: int) {
    exists i :: 0 <= i < |list| && list[i].port == port && list[i].primary
                && forall j :: i < j < |list| ==> list[j].port != port
  }

  lemma {:induction false} RemovesPrimaryMeans(list: seq<Ingress>, port: int)
    ensures RemovesPrimary(list, port) <==> PrimaryOn(list, port)
  {
    if list != [] {
      var n := |list| - 1;
      RemovesPrimaryMeans(list[..n], port);
      if list[n].port == port {
        assert PrimaryOn(list, port) <==> list[n].primary;
      } else {
        if PrimaryOn(list[..n], port) {
          var i :| 0 <= i < n && list[..n][i].port == port && list[..n][i].primary
                   && forall j :: i < j < n ==> list[..n][j].port != port;
          assert forall j :: i < j < n ==> list[j] == list[..n][j];
          assert list[i] == list[..n][i];
        }
        if PrimaryOn(list, port) {
          var i :| 0 <= i < |list| && list[i].port == port && list[i].primary
                   && forall j :: i < j < |list| ==> list[j].port != port;
          assert list[..n][i] == list[i];
        }
      }
    }
  }

  /** What deleting the ingress on `port` makes of a device. */
  ghost predicate Shrinks(d: Device, port: int, d': Device) {
    if PrimaryOn(d.ingresses, port) then
      && |d'.ingresses| >= 1 && d'.ingresses[0].primary
      && (exists was :: Filtered(d.ingresses, port, [d'.ingresses[0].(primary := was)] + d'.ingresses[1..]))
      && d'.ingressPort == d'.ingresses[0].port && d'.ingressMethod == d'.ingresses[0].cipher
      && d'.ingressPassword == d'.ingresses[0].password
    else
      && Filtered(d.ingresses, port, d'.ingresses)
      && d'.ingressPort == d.ingressPort && d'.ingressMethod == d.ingressMethod
         && d'.ingressPassword == d.ingressPassword
  }

  lemma ShrunkDevice(d: Device, port: int)
    requires d.ingresses != [] && !NothingToPromote(d.ingresses, port)
    ensures var d' := WithoutIngress(d, port);
            && Shrinks(d, port, d') && SamePerson(d, d')
            && forall i :: 0 <= i < |d'.ingresses| ==> d'.ingresses[i].port != port
  {
    var d', rest := WithoutIngress(d, port), WithoutPort(d.ingresses, port);
    WithoutPortFilters(d.ingresses, port);
    RemovesPrimaryMeans(d.ingresses, port);
    if RemovesPrimary(d.ingresses, port) {
      PromotionUndone(rest, d'.ingresses);
    }
  }

  lemma PromotionUndone(rest: seq<Ingress>, promoted: seq<Ingress>)
    requires rest != [] && promoted == [rest[0].(primary := true)] + rest[1..]
    ensures [promoted[0].(primary := rest[0].primary)] + promoted[1..] == rest
    ensures forall i :: 0 <= i < |promoted| ==> promoted[i].port == rest[i].port
  {
  }

  /** Deleting an ingress: it is gone from the device. */
  lemma DeleteEffect(s: StoreState, id: DeviceId, port: int, now: Time)
    requires DeleteIngress(s, id, port, now).Ok?
    ensures id in s.devices && |s.devices[id].ingresses| > 1 && ListensOn(s.devices[id], port)
    ensures var s' := DeleteIngress(s, id, port, now).value;
            && OnlyDevice(s, s', id)
            && var d, d' := s.devices[id], s'.devices[id];
               && SamePerson(d, d') && d'.updatedAt == now && Shrinks(d, port, d')
               && (forall i :: 0 <= i < |d'.ingresses| ==> d'.ingresses[i].port != port)
  {
    var d := s.devices[id];
    assert DeviceIngresses(d) == d.ingresses;
    ShrunkDevice(d, port);
  }

  /** The stored routes then have the list and the flat fields of the device. */
  lemma DeleteEffectOnRoutes(s: StoreState, id: DeviceId, port: int, now: Time)
    requires DeleteIngress(s, id, port, now).Ok?
    ensures var s' := DeleteIngress(s, id, port, now).value;
            && SameElsewhere(s.routes, s'.routes, id) && SameElsewhere(s.pending, s'.pending, id)
            && id in s'.devices
            && var d' := s'.devices[id];
               && RouteBecomes(s.routes, s'.routes, id, d'.ingressPort, d'.ingressMethod, d'.ingressPassword,
                               d'.ingresses)
               && RouteBecomes(s.pending, s'.pending, id, d'.ingressPort, d'.ingressMethod, d'.ingressPassword,
                               d'.ingresses)
  {
  }

  /** Exactly when it refuses, for a device with distinct ports. */
  lemma DeleteRefusal(s: StoreState, id: DeviceId, port: int, now: Time)
    requires id in s.devices ==> DistinctPorts(s.devices[id].ingresses)
    ensures DeleteIngress(s, id, port, now) == Err(NotFound) <==>
              id !in s.devices || (|s.devices[id].ingresses| > 1 && !ListensOn(s.devices[id], port))
    ensures DeleteIngress(s, id, port, now) == Err(Conflict) <==> id in s.devices && |s.devices[id].ingresses| <= 1
    ensures DeleteIngress(s, id, port, now).Ok? <==>
              id in s.devices && |s.devices[id].ingresses| > 1 && ListensOn(s.devices[id], port)
  {
    if id in s.devices {
      WithoutPortKeepsOthers(DeviceIngresses(s.devices[id]), port);
      if |s.devices[id].ingresses| > 1 {
        assert DeviceIngresses(s.devices[id]) == s.devices[id].ingresses;
      }
    }
  }

  // ---------------------------------------------------------------------------
  // Routes
  // ---------------------------------------------------------------------------

  /** Staging: compare-and-swap on the active version, absent counting as 0. */
  lemma StageEffect(s: StoreState, r: Route, expected: int)
    ensures StageRoute(s, r, expected).Ok? <==>
              if r.deviceId in s.routes then s.routes[r.deviceId].version == expected else expected == 0
    ensures StageRoute(s, r, expected).Err? ==> StageRoute(s, r, expected).error == Conflict
    ensures StageRoute(s, r, expected).Ok? ==>
              var s' := StageRoute(s, r, expected).value;
              && s'.devices == s.devices && s'.routes == s.routes
              && r.deviceId in s'.pending && s'.pending[r.deviceId] == r
              && (forall d :: d != r.deviceId ==> (d in s.pending <==> d in s'.pending))
              && (forall d :: d != r.deviceId && d in s.pending ==> s'.pending[d] == s.pending[d])
  {
  }

  /** Activation: the pending route of exactly that version becomes the active one. */
  lemma ActivateEffect(s: StoreState, id: DeviceId, version: int)
    ensures ActivateRoute(s, id, version).Ok? <==> id in s.pending && s.pending[id].version == version
    ensures ActivateRoute(s, id, version).Err? ==> ActivateRoute(s, id, version).error == Conflict
    ensures ActivateRoute(s, id, version).Ok? ==>
              var s' := ActivateRoute(s, id, version).value;
              && s'.devices == s.devices && id !in s'.pending && id in s'.routes
              && s'.routes[id].status == Active && s'.routes[id].version == version
              && s'.routes[id].(status := s.pending[id].status) == s.pending[id]
              && (forall d :: d != id ==> (d in s.pending <==> d in s'.pending) && (d in s.routes <==> d in s'.routes))
              && (forall d :: d != id && d in s.pending ==> s'.pending[d] == s.pending[d])
              && (forall d :: d != id && d in s.routes ==> s'.routes[d] == s.routes[d])
  {
  }
}
