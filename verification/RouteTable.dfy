/** The gateway's in-memory routing table (internal/dataplane/table.go). */
module RouteTable {
  import opened Model

  /** The four fields of Table as one value. */
  datatype TableState = TableState(
    active: map<DeviceId, Route>,
    byUsername: map<string, DeviceId>,
    pending: map<DeviceId, Route>,
    loaded: bool)

  const EMPTY := TableState(map[], map[], map[], false)

  function LoadActive(routes: seq<Route>): map<DeviceId, Route> {
    if routes == [] then map[]
    else var r := routes[|routes| - 1]; LoadActive(routes[..|routes| - 1])[r.deviceId := r]
  }

  function LoadIndex(routes: seq<Route>): map<string, DeviceId> {
    if routes == [] then map[]
    else var r := routes[|routes| - 1]; LoadIndex(routes[..|routes| - 1])[r.username := r.deviceId]
  }

  function Loaded(routes: seq<Route>): TableState {
    TableState(LoadActive(routes), LoadIndex(routes), map[], true)
  }

  predicate CanPrepare(t: TableState, r: Route) {
    r.deviceId in t.active ==> r.version > t.active[r.deviceId].version
  }

  function Prepared(t: TableState, r: Route): TableState {
    t.(pending := t.pending[r.deviceId := r])
  }

  predicate CanActivate(t: TableState, r: Route) {
    r.deviceId in t.pending && t.pending[r.deviceId].version == r.version
  }

  /** Activate installs the table's own pending copy; of `r` it looks only at the device and version. */
  function Activated(t: TableState, r: Route): TableState
    requires CanActivate(t, r)
  {
    var p := t.pending[r.deviceId].(status := Active);
    t.(active := t.active[r.deviceId := p],
       byUsername := t.byUsername[p.username := p.deviceId],
       pending := t.pending - {r.deviceId})
  }

  /** The route as UpdateDevice rewrites it. */
  function WithDevice(r: Route, d: Device): Route {
    r.(username := d.username, passwordHash := d.passwordHash, ingressPort := d.ingressPort,
       ingressMethod := d.ingressMethod, ingressPassword := d.ingressPassword, ingresses := d.ingresses)
  }

  function Updated(t: TableState, d: Device): TableState {
    if d.id !in t.active then t
    else
      var r := t.active[d.id];
      t.(active := t.active[d.id := WithDevice(r, d)],
         byUsername := (t.byUsername - {r.username})[d.username := d.id])
  }

  function Lookup(t: TableState, username: string): Option<Route> {
    if username in t.byUsername && t.byUsername[username] in t.active
    then Some(t.active[t.byUsername[username]]) else None
  }

  lemma {:induction false} LoadedFromRoutes(routes: seq<Route>)
    ensures Keyed(LoadActive(routes))
    ensures forall d :: d in LoadActive(routes) ==> LoadActive(routes)[d] in routes
    ensures forall i :: 0 <= i < |routes| ==> routes[i].deviceId in LoadActive(routes)
  {
    if routes != [] {
      LoadedFromRoutes(routes[..|routes| - 1]);
    }
  }

  /** Loading a listing of a map gives back that map, whatever the order of the listing. */
  lemma LoadInvertsListing(routes: seq<Route>, m: map<DeviceId, Route>)
    requires Keyed(m) && Lists(routes, m)
    ensures LoadActive(routes) == m
  {
    LoadedFromRoutes(routes);
    var loaded := LoadActive(routes);
    forall d | d in m ensures d in loaded && loaded[d] == m[d] {
      var i :| 0 <= i < |routes| && routes[i] == m[d];
      assert routes[i].deviceId == d;
    }
  }

  // ---------------------------------------------------------------------------
  // Runs of table operations
  // ---------------------------------------------------------------------------

  datatype TableOp =
    | LoadOp(routes: seq<Route>)
    | PrepareOp(route: Route)
    | ActivateOp(route: Route)
    | UpdateOp(device: Device)

  function Apply(t: TableState, op: TableOp): TableState {
    match op
    case LoadOp(routes) => Loaded(routes)
    case PrepareOp(r) => if CanPrepare(t, r) then Prepared(t, r) else t
    case ActivateOp(r) => if CanActivate(t, r) then Activated(t, r) else t
    case UpdateOp(d) => Updated(t, d)
  }

  function ApplyAll(t: TableState, ops: seq<TableOp>): TableState {
    if ops == [] then t else Apply(ApplyAll(t, ops[..|ops| - 1]), ops[|ops| - 1])
  }

  /** What every operation keeps: routes sit under their own device, a pending route is newer
      than the active one, and no index entry points at a device without a route. */
  ghost predicate Consistent(t: TableState) {
    && Keyed(t.active)
    && Keyed(t.pending)
    && (forall d :: d in t.pending && d in t.active ==> t.active[d].version < t.pending[d].version)
    && (forall u :: u in t.byUsername ==> t.byUsername[u] in t.active)
  }

  lemma {:induction false} IndexOfLoaded(routes: seq<Route>)
    ensures forall u :: u in LoadIndex(routes) ==> LoadIndex(routes)[u] in LoadActive(routes)
  {
    if routes != [] {
      IndexOfLoaded(routes[..|routes| - 1]);
    }
  }

  lemma ApplyKeepsConsistent(t: TableState, op: TableOp)
    requires Consistent(t)
    ensures Consistent(Apply(t, op))
  {
    if op.LoadOp? {
      LoadedFromRoutes(op.routes);
      IndexOfLoaded(op.routes);
    }
  }

  /** Whatever the usernames, no index entry ever dangles. */
  lemma {:induction false} NoRunDangles(ops: seq<TableOp>)
    ensures Consistent(ApplyAll(EMPTY, ops))
  {
    if ops != [] {
      NoRunDangles(ops[..|ops| - 1]);
      ApplyKeepsConsistent(ApplyAll(EMPTY, ops[..|ops| - 1]), ops[|ops| - 1]);
    }
  }

  /** The username index is exactly the inverse of the usernames of the active routes. */
  ghost predicate IndexExact(t: TableState) {
    forall u, d :: (u in t.byUsername && t.byUsername[u] == d) <==> (d in t.active && t.active[d].username == u)
  }

  ghost predicate Injective(name: DeviceId -> string) {
    forall a, b :: name(a) == name(b) ==> a == b
  }

  ghost predicate RoutesNamed(name: DeviceId -> string, routes: seq<Route>) {
    forall i :: 0 <= i < |routes| ==> routes[i].username == name(routes[i].deviceId)
  }

  ghost predicate OpNamed(name: DeviceId -> string, op: TableOp) {
    match op
    case LoadOp(routes) => RoutesNamed(name, routes)
    case PrepareOp(r) => r.username == name(r.deviceId)
    case ActivateOp(r) => true
    case UpdateOp(d) => d.username == name(d.id)
  }

  ghost predicate TableNamed(name: DeviceId -> string, t: TableState) {
    && Consistent(t)
    && (forall d :: d in t.active ==> t.active[d].username == name(d))
    && (forall d :: d in t.pending ==> t.pending[d].username == name(d))
    && (forall u :: u in t.byUsername ==> u == name(t.byUsername[u]))
    && (forall d :: d in t.active ==> name(d) in t.byUsername && t.byUsername[name(d)] == d)
  }

  lemma {:induction false} LoadKeepsNames(name: DeviceId -> string, routes: seq<Route>)
    requires Injective(name) && RoutesNamed(name, routes)
    ensures TableNamed(name, Loaded(routes))
  {
    ApplyKeepsConsistent(EMPTY, LoadOp(routes));
    if routes != [] {
      LoadKeepsNames(name, routes[..|routes| - 1]);
    }
  }

  lemma ActivateKeepsNames(name: DeviceId -> string, t: TableState, r: Route)
    requires Injective(name) && TableNamed(name, t) && CanActivate(t, r)
    ensures TableNamed(name, Activated(t, r))
  {
    ApplyKeepsConsistent(t, ActivateOp(r));
    var t' := Activated(t, r);
    assert t'.byUsername == t.byUsername[name(r.deviceId) := r.deviceId];
  }

  lemma UpdateKeepsNames(name: DeviceId -> string, t: TableState, d: Device)
    requires Injective(name) && TableNamed(name, t) && d.username == name(d.id)
    ensures TableNamed(name, Updated(t, d))
  {
    ApplyKeepsConsistent(t, UpdateOp(d));
    var t' := Updated(t, d);
    if d.id in t.active {
      assert t'.byUsername == t.byUsername[name(d.id) := d.id];
    }
  }

  lemma ApplyKeepsNames(name: DeviceId -> string, t: TableState, op: TableOp)
    requires Injective(name) && TableNamed(name, t) && OpNamed(name, op)
    ensures TableNamed(name, Apply(t, op))
  {
    match op
    case LoadOp(routes) => LoadKeepsNames(name, routes);
    case PrepareOp(r) => ApplyKeepsConsistent(t, op);
    case ActivateOp(r) => if CanActivate(t, r) { ActivateKeepsNames(name, t, r); }
    case UpdateOp(d) => UpdateKeepsNames(name, t, d);
  }

  lemma {:induction false} RunsKeepNames(name: DeviceId -> string, ops: seq<TableOp>)
    requires Injective(name) && forall i :: 0 <= i < |ops| ==> OpNamed(name, ops[i])
    ensures TableNamed(name, ApplyAll(EMPTY, ops))
  {
    if ops != [] {
      RunsKeepNames(name, ops[..|ops| - 1]);
      ApplyKeepsNames(name, ApplyAll(EMPTY, ops[..|ops| - 1]), ops[|ops| - 1]);
    }
  }

  /** When usernames are a fixed injective function of the device, as the API sets them, the
      indexed lookup answers exactly as a scan of the active table would, after any run. */
  lemma LookupIsScan(name: DeviceId -> string, ops: seq<TableOp>, username: string)
    requires Injective(name) && forall i :: 0 <= i < |ops| ==> OpNamed(name, ops[i])
    ensures var t := ApplyAll(EMPTY, ops);
            && IndexExact(t)
            && (Lookup(t, username).None? <==> forall d :: d in t.active ==> t.active[d].username != username)
            && (Lookup(t, username).Some? ==>
                  var r := Lookup(t, username).value;
                  r.username == username && r.deviceId in t.active && t.active[r.deviceId] == r)
  {
    RunsKeepNames(name, ops);
  }

  /** Without that assumption the index may answer for a name no active route carries: activating
      a route under a new username leaves the old entry behind. */
  lemma StaleUsernameExample(r: Route, renamed: string)
    requires renamed != r.username && r.version >= 1
    ensures var next := r.(username := renamed, version := r.version + 1);
            var t := ApplyAll(EMPTY, [LoadOp([r]), PrepareOp(next), ActivateOp(next)]);
            && Lookup(t, r.username).Some?
            && Lookup(t, r.username).value.username == renamed
            && !IndexExact(t)
  {
    var next := r.(username := renamed, version := r.version + 1);
    var ops := [LoadOp([r]), PrepareOp(next), ActivateOp(next)];
    var t1 := Loaded([r]);
    assert LoadActive([r]) == map[r.deviceId := r] && LoadIndex([r]) == map[r.username := r.deviceId] by {
      assert [r][..0] == [];
    }
    assert ops[..2][..1] == [LoadOp([r])] && [LoadOp([r])][..0] == [];
    assert ApplyAll(EMPTY, ops[..2][..1]) == t1;
    var t2 := Prepared(t1, next);
    assert ApplyAll(EMPTY, ops[..2]) == t2;
    var t := ApplyAll(EMPTY, ops);
    assert t == Activated(t2, next);
    assert r.username in t.byUsername && t.byUsername[r.username] == r.deviceId;
    assert t.active[r.deviceId].username == renamed;
  }

  // ---------------------------------------------------------------------------
  // The mutable table
  // ---------------------------------------------------------------------------

  class Table {
    var active: map<DeviceId, Route>
    var byUsername: map<string, DeviceId>
    var pending: map<DeviceId, Route>
    var loaded: bool

    ghost function View(): TableState
      reads this
    {
      TableState(active, byUsername, pending, loaded)
    }

    constructor ()
      ensures View() == EMPTY
    {
      active, byUsername, pending, loaded := map[], map[], map[], false;
    }

    method Load(routes: seq<Route>)
      modifies this
      ensures View() == Loaded(routes)
      ensures loaded && pending == map[]
    {
      active, byUsername := map[], map[];
      for i := 0 to |routes|
        invariant active == LoadActive(routes[..i]) && byUsername == LoadIndex(routes[..i])
      {
        var r := routes[i];
        assert routes[..i + 1][..i] == routes[..i];
        active := active[r.deviceId := r];
        byUsername := byUsername[r.username := r.deviceId];
      }
      assert routes[..|routes|] == routes;
      pending := map[];
      loaded := true;
    }

    method Prepare(r: Route) returns (ok: bool)
      modifies this
      ensures ok <==> old(CanPrepare(View(), r))
      ensures View() == old(if CanPrepare(View(), r) then Prepared(View(), r) else View())
      ensures ok <==> (r.deviceId in active ==> r.version > active[r.deviceId].version)
      ensures pending == if ok then old(pending)[r.deviceId := r] else old(pending)
      ensures active == old(active) && byUsername == old(byUsername) && loaded == old(loaded)
    {
      if r.deviceId in active && r.version <= active[r.deviceId].version {
        return false;
      }
      pending := pending[r.deviceId := r];
      return true;
    }

    method Activate(r: Route) returns (ok: bool)
      modifies this
      ensures ok <==> old(CanActivate(View(), r))
      ensures View() == old(if CanActivate(View(), r) then Activated(View(), r) else View())
      ensures ok <==> r.deviceId in old(pending) && old(pending)[r.deviceId].version == r.version
      ensures ok ==> active == old(active)[r.deviceId := old(pending)[r.deviceId].(status := Active)]
      ensures ok ==> pending == old(pending) - {r.deviceId}
      ensures ok ==>
                var p := old(pending)[r.deviceId];
                byUsername == old(byUsername)[p.username := p.deviceId]
      ensures !ok ==> active == old(active) && pending == old(pending) && byUsername == old(byUsername)
      ensures loaded == old(loaded)
    {
      if r.deviceId !in pending || pending[r.deviceId].version != r.version {
        return false;
      }
      var p := pending[r.deviceId].(status := Active);
      active := active[r.deviceId := p];
      byUsername := byUsername[p.username := p.deviceId];
      pending := pending - {r.deviceId};
      return true;
    }

    method UpdateDevice(d: Device)
      modifies this
      ensures View() == old(Updated(View(), d))
      ensures d.id !in old(active) ==> active == old(active) && byUsername == old(byUsername)
      ensures d.id in old(active) ==>
                var r := old(active)[d.id];
                && active == old(active)[d.id := Route(r.deviceId, d.username, d.passwordHash, d.ingressPort,
                                                       d.ingressMethod, d.ingressPassword, d.ingresses, r.credential,
                                                       r.version, r.status, r.updatedAt)]
                && byUsername == (old(byUsername) - {r.username})[d.username := d.id]
      ensures pending == old(pending) && loaded == old(loaded)
    {
      if d.id !in active {
        return;
      }
      var r := active[d.id];
      byUsername := byUsername - {r.username};
      r := r.(username := d.username, passwordHash := d.passwordHash, ingressPort := d.ingressPort);
      r := r.(ingressMethod := d.ingressMethod, ingressPassword := d.ingressPassword, ingresses := d.ingresses);
      active := active[d.id := r];
      byUsername := byUsername[d.username := d.id];
    }

    method ByUsername(username: string) returns (r: Option<Route>)
      ensures r == Lookup(View(), username)
      ensures r.Some? <==> username in byUsername && byUsername[username] in active
      ensures r.Some? ==> r.value == active[byUsername[username]]
    {
      if username !in byUsername {
        return None;
      }
      var id := byUsername[username];
      return if id in active then Some(active[id]) else None;
    }

    /** Go visits the map in an unspecified order; so does the choice of `d`. */
    method Snapshot() returns (out: seq<Route>)
      requires Keyed(active)
      ensures Lists(out, active) && |out| == |active|
      ensures forall i, j :: 0 <= i < j < |out| ==> out[i].deviceId != out[j].deviceId
    {
      out := [];
      var rest := active.Keys;
      while rest != {}
        invariant rest <= active.Keys && |out| + |rest| == |active|
        invariant forall i :: 0 <= i < |out| ==> out[i].deviceId in active && active[out[i].deviceId] == out[i]
        invariant forall i :: 0 <= i < |out| ==> out[i].deviceId !in rest
        invariant forall i, j :: 0 <= i < j < |out| ==> out[i].deviceId != out[j].deviceId
        invariant forall d :: d in active && d !in rest ==> active[d] in out
      {
        var d :| d in rest;
        out := out + [active[d]];
        rest := rest - {d};
      }
    }

    method MaxVersion() returns (max: int)
      ensures max >= 0 && forall d :: d in active ==> active[d].version <= max
      ensures max == 0 || exists d :: d in active && active[d].version == max
    {
      max := 0;
      var rest := active.Keys;
      while rest != {}
        invariant rest <= active.Keys && max >= 0
        invariant forall d :: d in active && d !in rest ==> active[d].version <= max
        invariant max == 0 || exists d :: d in active && active[d].version == max
      {
        var d :| d in rest;
        if active[d].version > max {
          max := active[d].version;
        }
        rest := rest - {d};
      }
    }
  }
}
