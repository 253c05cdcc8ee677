/** Exactly when the gateway's user name index (internal/dataplane/table.go:21-82) answers like a scan of the
    active table, for any user names. */
module UsernameIndex {
  import opened Model
  import opened RouteTable

  /** The indexed lookup finds the active routes by their user names, and nothing else. */
  ghost predicate AnswersLikeScan(t: TableState) {
    forall u, r :: Lookup(t, u) == Some(r) <==> IsActive(t, r) && r.username == u
  }

  ghost predicate IsActive(t: TableState, r: Route) {
    r.deviceId in t.active && t.active[r.deviceId] == r
  }

  lemma ExactIffScan(t: TableState)
    requires Consistent(t)
    ensures IndexExact(t) <==> AnswersLikeScan(t)
  {
    if AnswersLikeScan(t) {
      forall u, d
        ensures (u in t.byUsername && t.byUsername[u] == d) <==> (d in t.active && t.active[d].username == u)
      {
        if u in t.byUsername && t.byUsername[u] == d {
          assert Lookup(t, u) == Some(t.active[d]);
        }
        if d in t.active && t.active[d].username == u {
          assert IsActive(t, t.active[d]);
          assert Lookup(t, u) == Some(t.active[d]);
        }
      }
    }
  }

  // ---------------------------------------------------------------------------
  // Load
  // ---------------------------------------------------------------------------

  ghost predicate LastOfDevice(routes: seq<Route>, i: nat)
    requires i < |routes|
  {
    forall j :: i < j < |routes| ==> routes[j].deviceId != routes[i].deviceId
  }

  ghost predicate LastOfName(routes: seq<Route>, i: nat)
    requires i < |routes|
  {
    forall j :: i < j < |routes| ==> routes[j].username != routes[i].username
  }

  /** A listing that loads into an exact index: a route is the last of its device if and only if it is the
      last of its user name. For distinct devices this says that the user names are distinct. */
  ghost predicate Loadable(routes: seq<Route>) {
    forall i :: 0 <= i < |routes| ==> (LastOfDevice(routes, i) <==> LastOfName(routes, i))
  }

  ghost predicate InActive(routes: seq<Route>, i: nat)
    requires i < |routes|
  {
    routes[i].deviceId in LoadActive(routes) && LoadActive(routes)[routes[i].deviceId] == routes[i]
  }

  ghost predicate InIndex(routes: seq<Route>, i: nat)
    requires i < |routes|
  {
    routes[i].username in LoadIndex(routes) && LoadIndex(routes)[routes[i].username] == routes[i].deviceId
  }

  lemma {:induction false} LastIsActive(routes: seq<Route>, i: nat)
    requires i < |routes| && LastOfDevice(routes, i)
    ensures InActive(routes, i)
  {
    if i < |routes| - 1 {
      var init := routes[..|routes| - 1];
      assert LastOfDevice(init, i);
      LastIsActive(init, i);
      assert routes[|routes| - 1].deviceId != routes[i].deviceId;
    }
  }

  lemma {:induction false} LastIsIndexed(routes: seq<Route>, i: nat)
    requires i < |routes| && LastOfName(routes, i)
    ensures InIndex(routes, i)
  {
    if i < |routes| - 1 {
      var init := routes[..|routes| - 1];
      assert LastOfName(init, i);
      LastIsIndexed(init, i);
      assert routes[|routes| - 1].username != routes[i].username;
    }
  }

  lemma {:induction false} ActiveHasLast(routes: seq<Route>, d: DeviceId) returns (i: nat)
    requires d in LoadActive(routes)
    ensures i < |routes| && routes[i].deviceId == d && LastOfDevice(routes, i)
  {
    var n := |routes| - 1;
    if routes[n].deviceId == d {
      i := n;
    } else {
      i := ActiveHasLast(routes[..n], d);
    }
  }

  lemma {:induction false} IndexHasLast(routes: seq<Route>, u: string) returns (i: nat)
    requires u in LoadIndex(routes)
    ensures i < |routes| && routes[i].username == u && LastOfName(routes, i)
  {
    var n := |routes| - 1;
    if routes[n].username == u {
      i := n;
    } else {
      i := IndexHasLast(routes[..n], u);
    }
  }

  lemma LoadableIsExact(routes: seq<Route>)
    requires Loadable(routes)
    ensures IndexExact(Loaded(routes))
  {
    var t := Loaded(routes);
    forall u, d ensures (u in t.byUsername && t.byUsername[u] == d) <==> (d in t.active && t.active[d].username == u) {
      if u in t.byUsername && t.byUsername[u] == d {
        var i := IndexHasLast(routes, u);
        LastIsIndexed(routes, i);
        LastIsActive(routes, i);
      }
      if d in t.active && t.active[d].username == u {
        var i := ActiveHasLast(routes, d);
        LastIsActive(routes, i);
        LastIsIndexed(routes, i);
      }
    }
  }

  lemma ExactIsLoadable(routes: seq<Route>)
    requires IndexExact(Loaded(routes))
    ensures Loadable(routes)
  {
    var t := Loaded(routes);
    forall i | 0 <= i < |routes| ensures LastOfDevice(routes, i) <==> LastOfName(routes, i) {
      if LastOfDevice(routes, i) {
        LastIsActive(routes, i);
        assert routes[i].username in t.byUsername;
        var j := IndexHasLast(routes, routes[i].username);
        LastIsIndexed(routes, j);
        assert j == i;
      }
      if LastOfName(routes, i) {
        LastIsIndexed(routes, i);
        assert routes[i].deviceId in t.active;
        var j := ActiveHasLast(routes, routes[i].deviceId);
        LastIsActive(routes, j);
        assert j == i;
      }
    }
  }

  /** Any listing, with repeated devices or not. */
  lemma LoadExactIff(routes: seq<Route>)
    ensures IndexExact(Loaded(routes)) <==> Loadable(routes)
  {
    if Loadable(routes) {
      LoadableIsExact(routes);
    }
    if IndexExact(Loaded(routes)) {
      ExactIsLoadable(routes);
    }
  }

  /** On the listings that a store makes, one route for each device, user names must be distinct. */
  lemma DistinctLoadExactIff(routes: seq<Route>)
    requires forall i, j :: 0 <= i < j < |routes| ==> routes[i].deviceId != routes[j].deviceId
    ensures IndexExact(Loaded(routes)) <==> forall i, j :: 0 <= i < j < |routes| ==>
              routes[i].username != routes[j].username
  {
    LoadExactIff(routes);
    forall i | 0 <= i < |routes| ensures LastOfDevice(routes, i) {
    }
    if Loadable(routes) {
      forall i, j | 0 <= i < j < |routes| ensures routes[i].username != routes[j].username {
        assert LastOfName(routes, i);
      }
    }
  }

  // ---------------------------------------------------------------------------
  // Activate and UpdateDevice
  // ---------------------------------------------------------------------------

  /** No active route of another device has this user name. */
  ghost predicate NameFree(t: TableState, id: DeviceId, username: string) {
    forall d :: d in t.active && d != id ==> t.active[d].username != username
  }

  /** Activation keeps the index exact if and only if the device keeps its user name, or had no route,
      and no other device has that name. */
  lemma ActivateExactIff(t: TableState, r: Route)
    requires Consistent(t) && IndexExact(t) && CanActivate(t, r)
    ensures IndexExact(Activated(t, r)) <==>
              var name := t.pending[r.deviceId].username;
              (r.deviceId in t.active ==> t.active[r.deviceId].username == name) && NameFree(t, r.deviceId, name)
  {
    var t', id := Activated(t, r), r.deviceId;
    var name := t.pending[id].username;
    if IndexExact(t') {
      forall d | d in t.active && d != id ensures t.active[d].username != name {
        assert (name in t'.byUsername && t'.byUsername[name] == d) <==>
                 (d in t'.active && t'.active[d].username == name);
      }
      if id in t.active {
        var former := t.active[id].username;
        assert former in t.byUsername && t.byUsername[former] == id;
        assert former in t'.byUsername && t'.byUsername[former] == id;
        assert t'.active[id].username == name && t'.active[id].username == former;
      }
    }
  }

  /** UpdateDevice takes the old name out of the index, so a new name that is free is enough. */
  lemma UpdateExactIff(t: TableState, d: Device)
    requires Consistent(t) && IndexExact(t)
    ensures IndexExact(Updated(t, d)) <==> (d.id in t.active ==> NameFree(t, d.id, d.username))
  {
    var t' := Updated(t, d);
    if d.id in t.active && NameFree(t, d.id, d.username) {
      var former := t.active[d.id].username;
      assert t'.byUsername == (t.byUsername - {former})[d.username := d.id];
      forall u, e
        ensures (u in t'.byUsername && t'.byUsername[u] == e) <==> (e in t'.active && t'.active[e].username == u)
      {
        assert (u in t.byUsername && t.byUsername[u] == e) <==> (e in t.active && t.active[e].username == u);
        assert former in t.byUsername && t.byUsername[former] == d.id;
      }
    }
    if IndexExact(t') && d.id in t.active {
      forall e | e in t.active && e != d.id ensures t.active[e].username != d.username {
        assert t'.active[e] == t.active[e] && t'.byUsername[d.username] == d.id;
      }
    }
  }

  // ---------------------------------------------------------------------------
  // Runs
  // ---------------------------------------------------------------------------

  /** What the caller of an operation has to ensure about user names. */
  ghost predicate NameSafe(t: TableState, op: TableOp) {
    match op
    case LoadOp(routes) => Loadable(routes)
    case PrepareOp(_) => true
    case ActivateOp(r) =>
      CanActivate(t, r) ==>
        var name := t.pending[r.deviceId].username;
        (r.deviceId in t.active ==> t.active[r.deviceId].username == name) && NameFree(t, r.deviceId, name)
    case UpdateOp(d) => d.id in t.active ==> NameFree(t, d.id, d.username)
  }

  lemma ApplyExactIff(t: TableState, op: TableOp)
    requires Consistent(t) && IndexExact(t)
    ensures IndexExact(Apply(t, op)) <==> NameSafe(t, op)
  {
    match op
    case LoadOp(routes) => LoadExactIff(routes);
    case PrepareOp(_) =>
    case ActivateOp(r) =>
      if CanActivate(t, r) {
        ActivateExactIff(t, r);
      }
    case UpdateOp(d) => UpdateExactIff(t, d);
  }

  ghost predicate ExactThroughout(ops: seq<TableOp>) {
    forall i :: 0 <= i <= |ops| ==> IndexExact(ApplyAll(EMPTY, ops[..i]))
  }

  ghost predicate SafeThroughout(ops: seq<TableOp>) {
    forall i :: 0 <= i < |ops| ==> NameSafe(ApplyAll(EMPTY, ops[..i]), ops[i])
  }

  lemma {:induction false} SafePrefixIsExact(ops: seq<TableOp>, n: nat)
    requires SafeThroughout(ops) && n <= |ops|
    ensures IndexExact(ApplyAll(EMPTY, ops[..n]))
    decreases n
  {
    if n > 0 {
      SafePrefixIsExact(ops, n - 1);
      assert ops[..n][..n - 1] == ops[..n - 1];
      NoRunDangles(ops[..n - 1]);
      ApplyExactIff(ApplyAll(EMPTY, ops[..n - 1]), ops[n - 1]);
    }
  }

  /** Over any run the index is exact at every moment if and only if every operation was safe in the table
      it met. */
  lemma ExactThroughoutIff(ops: seq<TableOp>)
    ensures ExactThroughout(ops) <==> SafeThroughout(ops)
  {
    if SafeThroughout(ops) {
      forall i | 0 <= i <= |ops| ensures IndexExact(ApplyAll(EMPTY, ops[..i])) {
        SafePrefixIsExact(ops, i);
      }
    }
    if ExactThroughout(ops) {
      forall i | 0 <= i < |ops| ensures NameSafe(ApplyAll(EMPTY, ops[..i]), ops[i]) {
        assert ops[..i + 1][..i] == ops[..i];
        NoRunDangles(ops[..i]);
        assert IndexExact(ApplyAll(EMPTY, ops[..i])) && IndexExact(ApplyAll(EMPTY, ops[..i + 1]));
        ApplyExactIff(ApplyAll(EMPTY, ops[..i]), ops[i]);
      }
    }
  }
}
