/** The route tables of the Postgres store (internal/store/postgres.go:254-332, with the constraints of
    db/migrations/001_initial.sql and 002_proxy_providers.sql), and the proof that they refine the in-memory
    route machine. */
module PostgresRoutes {
  import opened Model
  import MemoryStore

  datatype RowStatus = RowPending | RowActive | RowSuperseded

  /** The primary key of device_routes. */
  datatype Key = Key(device: DeviceId, version: int)

  datatype Row = Row(credentialId: string, status: RowStatus)

  /** devices(id), proxy_providers(id), device_routes and proxy_credentials. */
  datatype Db = Db(devices: set<DeviceId>, providers: set<string>, routes: map<Key, Row>,
                   credentials: map<string, Credential>)

  // --- the statements ----------------------------------------------------------

  predicate Has(routes: map<Key, Row>, d: DeviceId, v: int, status: RowStatus) {
    Key(d, v) in routes && routes[Key(d, v)].status == status
  }

  /** SELECT COALESCE(MAX(version) FILTER (WHERE status='active'), 0) FROM device_routes WHERE device_id = d. */
  ghost predicate IsCurrent(routes: map<Key, Row>, d: DeviceId, current: int) {
    && (forall v :: Has(routes, d, v, RowActive) ==> v <= current)
    && (Has(routes, d, current, RowActive) || (current == 0 && forall v :: !Has(routes, d, v, RowActive)))
  }

  /** The keys of the pending rows of a device. */
  function Stale(routes: map<Key, Row>, d: DeviceId): set<Key> {
    set k | k in routes && k.device == d && routes[k].status == RowPending
  }

  function CredentialsOf(routes: map<Key, Row>, keys: set<Key>): set<string> {
    set k | k in keys && k in routes :: routes[k].credentialId
  }

  /** What the transaction of StageRoute leaves once the stale pending rows and their credentials are gone. */
  function WithoutStale(db: Db, d: DeviceId): Db {
    db.(routes := db.routes - Stale(db.routes, d),
        credentials := db.credentials - CredentialsOf(db.routes, Stale(db.routes, d)))
  }

  /** The CHECK on the port and the foreign key of the provider; an empty provider is stored as NULL. */
  predicate CredentialOk(providers: set<string>, c: Credential) {
    1 <= c.port <= 65535 && (c.providerId == "" || c.providerId in providers)
  }

  /** The constraints that the two INSERTs and the DELETEs are checked against. */
  predicate Insertable(rest: Db, r: Route) {
    && (forall k :: k in rest.routes ==> rest.routes[k].credentialId in rest.credentials)
    && r.credential.id !in rest.credentials
    && CredentialOk(rest.providers, r.credential)
    && Key(r.deviceId, r.version) !in rest.routes
  }

  function Inserted(rest: Db, r: Route): Db {
    rest.(routes := rest.routes[Key(r.deviceId, r.version) := Row(r.credential.id, RowPending)],
          credentials := rest.credentials[r.credential.id := r.credential])
  }

  function StageRoute(db: Db, r: Route, expected: int, current: int): Result<Db, StoreError> {
    if r.deviceId !in db.devices then Err(NotFound)
    else if current != expected then Err(Conflict)
    else
      var rest := WithoutStale(db, r.deviceId);
      if !Insertable(rest, r) then Err(Database) else Ok(Inserted(rest, r))
  }

  /** UPDATE ... SET status='superseded' WHERE device_id = d AND status='active'. */
  function Superseded(routes: map<Key, Row>, d: DeviceId): map<Key, Row> {
    map k | k in routes ::
      if k.device == d && routes[k].status == RowActive then routes[k].(status := RowSuperseded) else routes[k]
  }

  function ActivateRoute(db: Db, d: DeviceId, version: int): Result<Db, StoreError> {
    var routes := Superseded(db.routes, d);
    if !Has(routes, d, version, RowPending) then Err(Conflict)
    else Ok(db.(routes := routes[Key(d, version) := routes[Key(d, version)].(status := RowActive)]))
  }

  // --- the transactions as methods -----------------------------------------------

  class Postgres {
    var devices: set<DeviceId>
    var providers: set<string>
    var routes: map<Key, Row>
    var credentials: map<string, Credential>

    ghost function State(): Db
      reads this
    {
      Db(devices, providers, routes, credentials)
    }

    /** The scan behind MAX(version) FILTER (WHERE status='active'). */
    method CurrentVersion(d: DeviceId) returns (current: int)
      ensures IsCurrent(routes, d, current)
    {
      var found := false;
      current := 0;
      var rest := routes.Keys;
      while rest != {}
        invariant rest <= routes.Keys
        invariant forall v :: Has(routes, d, v, RowActive) && Key(d, v) !in rest ==> found && v <= current
        invariant if found then Has(routes, d, current, RowActive) else current == 0
      {
        var k := Pick(rest);
        if k.device == d && routes[k].status == RowActive && (!found || k.version > current) {
          assert k == Key(d, k.version);
          found, current := true, k.version;
        }
        rest := rest - {k};
      }
    }

    /** A transaction works on copies; returning before the commit rolls it back. */
    method Stage(r: Route, expected: int) returns (err: Option<StoreError>)
      modifies this
      ensures exists current :: IsCurrent(old(routes), r.deviceId, current) &&
                match StageRoute(old(State()), r, expected, current)
                case Ok(db) => err == None && State() == db
                case Err(e) => err == Some(e) && State() == old(State())
    {
      var current := CurrentVersion(r.deviceId);
      if r.deviceId !in devices {
        return Some(NotFound);
      }
      if current != expected {
        return Some(Conflict);
      }
      var stale := Stale(routes, r.deviceId);
      var txRoutes, txCredentials := routes - stale, credentials;
      var ids := CredentialsOf(routes, stale);
      var rest := ids;
      while rest != {}
        invariant State() == old(State()) && rest <= ids && txCredentials == credentials - (ids - rest)
      {
        var id := Pick(rest);
        txCredentials := txCredentials - {id};
        rest := rest - {id};
      }
      assert ids - rest == ids;
      assert Db(devices, providers, txRoutes, txCredentials) == WithoutStale(State(), r.deviceId);
      if !Insertable(Db(devices, providers, txRoutes, txCredentials), r) {
        return Some(Database);
      }
      txCredentials := txCredentials[r.credential.id := r.credential];
      txRoutes := txRoutes[Key(r.deviceId, r.version) := Row(r.credential.id, RowPending)];
      routes, credentials := txRoutes, txCredentials;
      return None;
    }

    method Activate(d: DeviceId, version: int) returns (err: Option<StoreError>)
      modifies this
      ensures match ActivateRoute(old(State()), d, version)
              case Ok(db) => err == None && State() == db
              case Err(e) => err == Some(e) && State() == old(State())
    {
      var txRoutes := Superseded(routes, d);
      if !(Key(d, version) in txRoutes && txRoutes[Key(d, version)].status == RowPending) {
        return Some(Conflict);
      }
      txRoutes := txRoutes[Key(d, version) := txRoutes[Key(d, version)].(status := RowActive)];
      routes := txRoutes;
      return None;
    }
  }

  // --- what every transaction keeps -------------------------------------------------

  function StatusAt(a: int, v: int): RowStatus {
    if v < a then RowSuperseded else if v == a then RowActive else RowPending
  }

  /** The rows of a device whose active version is `a` (0 when there is none): 1 to a-1 superseded, a
      active, at most a+1 pending, and no others. */
  ghost predicate Shape(routes: map<Key, Row>, d: DeviceId, a: int) {
    && a >= 0
    && (forall v :: Key(d, v) in routes ==> 1 <= v <= a + 1 && routes[Key(d, v)].status == StatusAt(a, v))
    && (forall v :: 1 <= v <= a ==> Key(d, v) in routes)
  }

  /** Every route row has a credential row of its own. */
  ghost predicate Linked(db: Db) {
    && (forall k :: k in db.routes ==> db.routes[k].credentialId in db.credentials)
    && (forall k, l :: k in db.routes && l in db.routes && k != l ==>
          db.routes[k].credentialId != db.routes[l].credentialId)
  }

  /** No credential row is without a route row. */
  ghost predicate Owned(db: Db) {
    forall id :: id in db.credentials ==> Used(db.routes, id)
  }

  ghost predicate Used(routes: map<Key, Row>, id: string) {
    exists k :: k in routes && routes[k].credentialId == id
  }

  /** Route rows and credential rows are in bijection. */
  ghost predicate Paired(db: Db) {
    Linked(db) && Owned(db)
  }

  ghost predicate Shaped(routes: map<Key, Row>, d: DeviceId) {
    exists a :: Shape(routes, d, a)
  }

  ghost predicate DbOk(db: Db) {
    && Paired(db)
    && (forall k :: k in db.routes ==> k.device in db.devices)
    && (forall d :: Shaped(db.routes, d))
  }

  lemma ShapeIsCurrent(routes: map<Key, Row>, d: DeviceId, a: int, current: int)
    requires Shape(routes, d, a)
    ensures IsCurrent(routes, d, current) <==> current == a
    ensures forall v :: Has(routes, d, v, RowActive) <==> (v == a && a >= 1)
    ensures forall v :: Has(routes, d, v, RowPending) ==> v == a + 1
  {
    if a >= 1 {
      assert Key(d, a) in routes;
      assert Has(routes, d, a, RowActive);
    }
  }

  // --- the refinement ---------------------------------------------------------------

  ghost predicate Binds(db: Db, d: DeviceId, status: RowStatus, v: int, c: Credential) {
    Has(db.routes, d, v, status) && db.routes[Key(d, v)].credentialId in db.credentials
    && db.credentials[db.routes[Key(d, v)].credentialId] == c
  }

  ghost predicate Maps(m: map<DeviceId, Route>, d: DeviceId, v: int, c: Credential) {
    d in m && m[d].version == v && m[d].credential == c
  }

  /** The rows say what the maps of the in-memory store say: same active and same pending version and
      credential for every device. */
  ghost predicate Refines(db: Db, s: MemoryStore.StoreState) {
    forall d :: SameBindings(db, d, RowActive, s.routes) && SameBindings(db, d, RowPending, s.pending)
  }

  ghost predicate SameBindings(db: Db, d: DeviceId, status: RowStatus, m: map<DeviceId, Route>) {
    forall v, c :: Binds(db, d, status, v, c) <==> Maps(m, d, v, c)
  }

  lemma ActiveVersions(db: Db, s: MemoryStore.StoreState, d: DeviceId, a: int)
    requires DbOk(db) && Refines(db, s) && Shape(db.routes, d, a)
    ensures MemoryStore.Version(s, d) == a
  {
    assert SameBindings(db, d, RowActive, s.routes);
    ShapeIsCurrent(db.routes, d, a, a);
    if a >= 1 {
      var c := db.credentials[db.routes[Key(d, a)].credentialId];
      assert Binds(db, d, RowActive, a, c);
    } else if d in s.routes {
      assert Maps(s.routes, d, s.routes[d].version, s.routes[d].credential);
    }
  }

  lemma WithoutStaleLinked(db: Db, d: DeviceId)
    requires Linked(db)
    ensures Linked(WithoutStale(db, d))
  {
    var stale := Stale(db.routes, d);
    var rest := WithoutStale(db, d);
    forall k | k in rest.routes ensures rest.routes[k].credentialId in rest.credentials {
      assert forall l :: l in stale ==> l != k;
    }
  }

  /** Removing the stale pending rows together with their credentials keeps the pairing of the rest. */
  lemma WithoutStalePaired(db: Db, d: DeviceId)
    requires Paired(db)
    ensures Paired(WithoutStale(db, d))
  {
    WithoutStaleLinked(db, d);
    var stale := Stale(db.routes, d);
    var rest := WithoutStale(db, d);
    forall id | id in rest.credentials ensures Used(rest.routes, id) {
      assert Used(db.routes, id);
      var k :| k in db.routes && db.routes[k].credentialId == id;
      assert k in stale ==> id in CredentialsOf(db.routes, stale);
      assert k in rest.routes && rest.routes[k].credentialId == id;
    }
  }

  lemma InsertedPaired(rest: Db, r: Route)
    requires Paired(rest) && Insertable(rest, r)
    ensures Paired(Inserted(rest, r))
  {
    var db := Inserted(rest, r);
    assert db.routes[Key(r.deviceId, r.version)].credentialId == r.credential.id;
    forall id | id in db.credentials ensures Used(db.routes, id) {
      if id != r.credential.id {
        assert Used(rest.routes, id);
        var k :| k in rest.routes && rest.routes[k].credentialId == id;
        assert k in db.routes && db.routes[k].credentialId == id;
      }
    }
  }

  lemma StagedShape(db: Db, r: Route, e: DeviceId, a: int)
    requires Shape(db.routes, e, a) && (e == r.deviceId ==> r.version == a + 1)
    ensures Shape(Inserted(WithoutStale(db, r.deviceId), r).routes, e, a)
  {
    var routes' := Inserted(WithoutStale(db, r.deviceId), r).routes;
    forall v | 1 <= v <= a ensures Key(e, v) in routes' {
      assert Key(e, v) in db.routes;
    }
  }

  lemma ActivatedShape(db: Db, d: DeviceId, version: int, e: DeviceId, a: int)
    requires Shape(db.routes, e, a) && ActivateRoute(db, d, version).Ok?
    ensures Shape(ActivateRoute(db, d, version).value.routes, e, if e == d then a + 1 else a)
    ensures e == d ==> version == a + 1
  {
    var routes' := ActivateRoute(db, d, version).value.routes;
    assert Key(d, version) in db.routes;
    forall v | 1 <= v <= (if e == d then a + 1 else a) ensures Key(e, v) in routes' {
      assert v <= a ==> Key(e, v) in db.routes;
    }
  }

  lemma StagedDbOk(db: Db, r: Route, a: int)
    requires DbOk(db) && Shape(db.routes, r.deviceId, a) && r.version == a + 1 && r.deviceId in db.devices
    requires Insertable(WithoutStale(db, r.deviceId), r)
    ensures DbOk(Inserted(WithoutStale(db, r.deviceId), r))
  {
    WithoutStalePaired(db, r.deviceId);
    InsertedPaired(WithoutStale(db, r.deviceId), r);
    forall e ensures Shaped(Inserted(WithoutStale(db, r.deviceId), r).routes, e) {
      assert Shaped(db.routes, e);
      var b :| Shape(db.routes, e, b) && (e == r.deviceId ==> b == a);
      StagedShape(db, r, e, b);
    }
  }

  lemma StagedBinding(db: Db, r: Route, e: DeviceId, status: RowStatus, v: int, c: Credential)
    requires Linked(db) && Insertable(WithoutStale(db, r.deviceId), r)
    requires e != r.deviceId || status != RowPending
    ensures Binds(Inserted(WithoutStale(db, r.deviceId), r), e, status, v, c) <==> Binds(db, e, status, v, c)
  {
    var rest := WithoutStale(db, r.deviceId);
    WithoutStaleLinked(db, r.deviceId);
    var k := Key(e, v);
    if Has(db.routes, e, v, status) {
      assert k in rest.routes && k != Key(r.deviceId, r.version);
      assert rest.routes[k].credentialId in rest.credentials && rest.routes[k].credentialId != r.credential.id;
    }
  }

  /** Staging touches the bindings of no other device, and of its own device only the pending one. */
  lemma StagedBindings(db: Db, r: Route, e: DeviceId, status: RowStatus, m: map<DeviceId, Route>)
    requires Linked(db) && Insertable(WithoutStale(db, r.deviceId), r) && SameBindings(db, e, status, m)
    requires e != r.deviceId || status != RowPending
    ensures SameBindings(Inserted(WithoutStale(db, r.deviceId), r), e, status, m)
  {
    forall v, c ensures Binds(Inserted(WithoutStale(db, r.deviceId), r), e, status, v, c) <==> Maps(m, e, v, c) {
      StagedBinding(db, r, e, status, v, c);
      assert Binds(db, e, status, v, c) <==> Maps(m, e, v, c);
    }
  }

  lemma StagedPending(db: Db, r: Route, m: map<DeviceId, Route>)
    requires Insertable(WithoutStale(db, r.deviceId), r) && r.deviceId in m && m[r.deviceId] == r
    ensures SameBindings(Inserted(WithoutStale(db, r.deviceId), r), r.deviceId, RowPending, m)
  {
    var db' := Inserted(WithoutStale(db, r.deviceId), r);
    forall v, c ensures Binds(db', r.deviceId, RowPending, v, c) <==> Maps(m, r.deviceId, v, c) {
      assert Has(db'.routes, r.deviceId, v, RowPending) <==> v == r.version;
    }
  }

  /** For a device that exists, and a credential the database can take, the SQL transaction and the
      in-memory store accept and refuse the same stages, and stay in step. */
  lemma StageRefines(db: Db, s: MemoryStore.StoreState, r: Route, expected: int, current: int)
    requires DbOk(db) && Refines(db, s) && IsCurrent(db.routes, r.deviceId, current)
    requires r.version == expected + 1 && r.deviceId in db.devices
    requires r.credential.id !in WithoutStale(db, r.deviceId).credentials && CredentialOk(db.providers, r.credential)
    ensures match (StageRoute(db, r, expected, current), MemoryStore.StageRoute(s, r, expected))
            case (Ok(db'), Ok(s')) => DbOk(db') && Refines(db', s')
            case (Err(e), Err(f)) => e == f == Conflict
            case _ => false
  {
    assert Shaped(db.routes, r.deviceId);
    var a :| Shape(db.routes, r.deviceId, a);
    ShapeIsCurrent(db.routes, r.deviceId, a, current);
    ActiveVersions(db, s, r.deviceId, a);
    if current == expected {
      WithoutStalePaired(db, r.deviceId);
      assert Insertable(WithoutStale(db, r.deviceId), r);
      StagedDbOk(db, r, a);
      StagedRefines(db, s, r);
    }
  }

  /** What the caller has to know for the two stores to answer alike. */
  predicate StageFits(db: Db, r: Route, expected: int, current: int) {
    && r.deviceId in db.devices
    && (current == expected ==>
          r.credential.id !in WithoutStale(db, r.deviceId).credentials && CredentialOk(db.providers, r.credential))
  }

  /** On any stage at the next version, the two stores answer alike if and only if the device exists and, where
      the versions match, the credential is new, its port valid and its provider, if it names one, known. */
  lemma StageAnswersAlikeIff(db: Db, s: MemoryStore.StoreState, r: Route, expected: int, current: int)
    requires DbOk(db) && Refines(db, s) && IsCurrent(db.routes, r.deviceId, current) && r.version == expected + 1
    ensures SameAnswer(StageRoute(db, r, expected, current), MemoryStore.StageRoute(s, r, expected)) <==>
              StageFits(db, r, expected, current)
    ensures StageFits(db, r, expected, current) <==>
              && r.deviceId in db.devices
              && (current == expected ==>
                    && (r.credential.id in db.credentials ==>
                          exists k :: k in db.routes && k.device == r.deviceId && db.routes[k].status == RowPending
                                      && db.routes[k].credentialId == r.credential.id)
                    && 1 <= r.credential.port <= 65535
                    && (r.credential.providerId == "" || r.credential.providerId in db.providers))
  {
    assert Shaped(db.routes, r.deviceId);
    var a :| Shape(db.routes, r.deviceId, a);
    ShapeIsCurrent(db.routes, r.deviceId, a, current);
    ActiveVersions(db, s, r.deviceId, a);
    if StageFits(db, r, expected, current) && current == expected {
      StageRefines(db, s, r, expected, current);
    }
  }

  predicate SameAnswer<T, U>(a: Result<T, StoreError>, b: Result<U, StoreError>) {
    match (a, b)
    case (Ok(_), Ok(_)) => true
    case (Err(e), Err(f)) => e == f
    case _ => false
  }

  lemma StagedRefines(db: Db, s: MemoryStore.StoreState, r: Route)
    requires Linked(db) && Refines(db, s) && Insertable(WithoutStale(db, r.deviceId), r)
    ensures Refines(Inserted(WithoutStale(db, r.deviceId), r), s.(pending := s.pending[r.deviceId := r]))
  {
    var pending' := s.pending[r.deviceId := r];
    forall e ensures SameBindings(Inserted(WithoutStale(db, r.deviceId), r), e, RowActive, s.routes)
                     && SameBindings(Inserted(WithoutStale(db, r.deviceId), r), e, RowPending, pending')
    {
      assert SameBindings(db, e, RowActive, s.routes) && SameBindings(db, e, RowPending, s.pending);
      StagedBindings(db, r, e, RowActive, s.routes);
      if e == r.deviceId {
        StagedPending(db, r, pending');
      } else {
        assert forall v, c :: Maps(pending', e, v, c) <==> Maps(s.pending, e, v, c);
        StagedBindings(db, r, e, RowPending, pending');
      }
    }
  }

  lemma RelabelledPaired(db: Db, db': Db)
    requires Paired(db) && db'.credentials == db.credentials && SameCredentials(db.routes, db'.routes)
    ensures Paired(db')
  {
    forall id | id in db'.credentials ensures Used(db'.routes, id) {
      assert Used(db.routes, id);
      var k :| k in db.routes && db.routes[k].credentialId == id;
      assert k in db'.routes && db'.routes[k].credentialId == id;
    }
  }

  /** The same rows with the same credentials; only their status may differ. */
  ghost predicate SameCredentials(routes: map<Key, Row>, routes': map<Key, Row>) {
    && (forall k :: k in routes <==> k in routes')
    && (forall k :: k in routes ==> routes'[k].credentialId == routes[k].credentialId)
  }

  lemma ActivatedRows(db: Db, d: DeviceId, version: int)
    requires ActivateRoute(db, d, version).Ok?
    ensures SameCredentials(db.routes, ActivateRoute(db, d, version).value.routes)
  {
  }

  lemma ActivatedDbOk(db: Db, d: DeviceId, version: int)
    requires DbOk(db) && ActivateRoute(db, d, version).Ok?
    ensures DbOk(ActivateRoute(db, d, version).value)
  {
    ActivatedRows(db, d, version);
    RelabelledPaired(db, ActivateRoute(db, d, version).value);
    forall e ensures Shaped(ActivateRoute(db, d, version).value.routes, e) {
      assert Shaped(db.routes, e);
      var a :| Shape(db.routes, e, a);
      ActivatedShape(db, d, version, e, a);
    }
  }

  lemma ActivatedOthers(db: Db, d: DeviceId, version: int, e: DeviceId, status: RowStatus, m: map<DeviceId, Route>,
                        m': map<DeviceId, Route>)
    requires ActivateRoute(db, d, version).Ok? && e != d && SameBindings(db, e, status, m)
    requires (e in m <==> e in m') && (e in m ==> m[e] == m'[e])
    ensures SameBindings(ActivateRoute(db, d, version).value, e, status, m')
  {
    var db' := ActivateRoute(db, d, version).value;
    forall v, c ensures Binds(db', e, status, v, c) <==> Maps(m', e, v, c) {
      assert Binds(db, e, status, v, c) <==> Maps(m, e, v, c);
      assert Key(e, v) in db.routes ==> db'.routes[Key(e, v)] == db.routes[Key(e, v)];
    }
  }

  lemma ActivatedOwn(db: Db, s: MemoryStore.StoreState, d: DeviceId, version: int, a: int)
    requires DbOk(db) && Refines(db, s) && Shape(db.routes, d, a)
    requires ActivateRoute(db, d, version).Ok? && MemoryStore.ActivateRoute(s, d, version).Ok?
    ensures var db', s' := ActivateRoute(db, d, version).value, MemoryStore.ActivateRoute(s, d, version).value;
            SameBindings(db', d, RowActive, s'.routes) && SameBindings(db', d, RowPending, s'.pending)
  {
    var db', s' := ActivateRoute(db, d, version).value, MemoryStore.ActivateRoute(s, d, version).value;
    ActivatedShape(db, d, version, d, a);
    ShapeIsCurrent(db'.routes, d, a + 1, a + 1);
    assert SameBindings(db, d, RowPending, s.pending);
    var c0 := s.pending[d].credential;
    assert Maps(s.pending, d, version, c0);
    assert Binds(db, d, RowPending, version, c0);
    forall v, c ensures Binds(db', d, RowActive, v, c) <==> Maps(s'.routes, d, v, c) {
      assert Has(db'.routes, d, v, RowActive) <==> v == version;
    }
    forall v, c ensures Binds(db', d, RowPending, v, c) <==> Maps(s'.pending, d, v, c) {
      assert Has(db'.routes, d, v, RowPending) ==> Has(db.routes, d, v, RowPending) && v != version;
      assert Has(db.routes, d, v, RowPending) ==> v == a + 1;
    }
  }

  lemma SamePending(db: Db, s: MemoryStore.StoreState, d: DeviceId, version: int)
    requires Linked(db) && SameBindings(db, d, RowPending, s.pending)
    ensures ActivateRoute(db, d, version).Ok? <==> MemoryStore.ActivateRoute(s, d, version).Ok?
  {
    var k := Key(d, version);
    if Has(db.routes, d, version, RowPending) {
      assert Binds(db, d, RowPending, version, db.credentials[db.routes[k].credentialId]);
    }
    if d in s.pending {
      assert Maps(s.pending, d, s.pending[d].version, s.pending[d].credential);
    }
  }

  /** Activation, for any device and version: same outcome, and the two stay in step. */
  lemma ActivateRefines(db: Db, s: MemoryStore.StoreState, d: DeviceId, version: int)
    requires DbOk(db) && Refines(db, s)
    ensures match (ActivateRoute(db, d, version), MemoryStore.ActivateRoute(s, d, version))
            case (Ok(db'), Ok(s')) => DbOk(db') && Refines(db', s')
            case (Err(e), Err(f)) => e == f == Conflict
            case _ => false
  {
    assert SameBindings(db, d, RowPending, s.pending);
    SamePending(db, s, d, version);
    if ActivateRoute(db, d, version).Ok? {
      ActivatedDbOk(db, d, version);
      var db', s' := ActivateRoute(db, d, version).value, MemoryStore.ActivateRoute(s, d, version).value;
      forall e ensures SameBindings(db', e, RowActive, s'.routes) && SameBindings(db', e, RowPending, s'.pending) {
        assert SameBindings(db, e, RowActive, s.routes) && SameBindings(db, e, RowPending, s.pending);
        if e == d {
          assert Shaped(db.routes, d);
          var a :| Shape(db.routes, d, a);
          ActivatedOwn(db, s, d, version, a);
        } else {
          ActivatedOthers(db, d, version, e, RowActive, s.routes, s'.routes);
          ActivatedOthers(db, d, version, e, RowPending, s.pending, s'.pending);
        }
      }
    }
  }

  // --- runs ---------------------------------------------------------------------------

  datatype Op = StageOp(route: Route, expected: int) | ActivateOp(id: DeviceId, version: int)

  /** What the API asks of the database: a device that exists, the next version, a new credential with a
      valid port, and the provider it came from if any. */
  ghost predicate Admissible(db: Db, op: Op) {
    op.StageOp? ==>
      && op.route.version == op.expected + 1 && op.route.deviceId in db.devices
      && op.route.credential.id !in db.credentials && CredentialOk(db.providers, op.route.credential)
  }

  /** One operation on the rows, with the version that the transaction reads. */
  ghost predicate DbMoves(db: Db, op: Op, db': Db, err: Option<StoreError>) {
    match op
    case StageOp(r, expected) =>
      exists current :: IsCurrent(db.routes, r.deviceId, current)
        && Outcome(StageRoute(db, r, expected, current), db, db', err)
    case ActivateOp(d, version) => Outcome(ActivateRoute(db, d, version), db, db', err)
  }

  ghost predicate Outcome<T(!new)>(result: Result<T, StoreError>, before: T, after: T, err: Option<StoreError>) {
    match result
    case Ok(x) => err == None && after == x
    case Err(e) => err == Some(e) && after == before
  }

  ghost predicate MemoryMoves(s: MemoryStore.StoreState, op: Op, s': MemoryStore.StoreState, err: Option<StoreError>) {
    match op
    case StageOp(r, expected) => Outcome(MemoryStore.StageRoute(s, r, expected), s, s', err)
    case ActivateOp(d, version) => Outcome(MemoryStore.ActivateRoute(s, d, version), s, s', err)
  }

  lemma StepRefines(db: Db, s: MemoryStore.StoreState, op: Op, db': Db, s': MemoryStore.StoreState,
                    e: Option<StoreError>, f: Option<StoreError>)
    requires DbOk(db) && Refines(db, s) && Admissible(db, op) && DbMoves(db, op, db', e) && MemoryMoves(s, op, s', f)
    ensures DbOk(db') && Refines(db', s') && e == f && db'.devices == db.devices && db'.providers == db.providers
  {
    match op
    case StageOp(r, expected) =>
      var current :| IsCurrent(db.routes, r.deviceId, current)
        && Outcome(StageRoute(db, r, expected, current), db, db', e);
      StageRefines(db, s, r, expected, current);
    case ActivateOp(d, version) => ActivateRefines(db, s, d, version);
  }

  /** Over any sequence of stages and activations the Postgres rows refine the in-memory store: both
      answer every operation alike, and show the same active and pending routes throughout. */
  lemma {:induction false} RunRefines(ops: seq<Op>, dbs: seq<Db>, mems: seq<MemoryStore.StoreState>,
                                      errs: seq<Option<StoreError>>, errs': seq<Option<StoreError>>, n: nat)
    requires |dbs| == |mems| == |ops| + 1 && |errs| == |errs'| == |ops| && n <= |ops|
    requires dbs[0].routes == map[] && dbs[0].credentials == map[] && mems[0].routes == map[]
             && mems[0].pending == map[]
    requires forall i :: 0 <= i < |ops| ==> Admissible(dbs[i], ops[i]) && DbMoves(dbs[i], ops[i], dbs[i + 1], errs[i])
    requires forall i :: 0 <= i < |ops| ==> MemoryMoves(mems[i], ops[i], mems[i + 1], errs'[i])
    ensures DbOk(dbs[n]) && Refines(dbs[n], mems[n]) && errs[..n] == errs'[..n]
    decreases n
  {
    if n == 0 {
      forall d ensures Shaped(dbs[0].routes, d) {
        assert Shape(dbs[0].routes, d, 0);
      }
    } else {
      RunRefines(ops, dbs, mems, errs, errs', n - 1);
      var i := n - 1;
      assert Admissible(dbs[i], ops[i]) && DbMoves(dbs[i], ops[i], dbs[i + 1], errs[i]);
      assert MemoryMoves(mems[i], ops[i], mems[i + 1], errs'[i]);
      StepRefines(dbs[i], mems[i], ops[i], dbs[n], mems[n], errs[i], errs'[i]);
      assert errs[..n] == errs[..i] + [errs[i]] && errs'[..n] == errs'[..i] + [errs'[i]];
    }
  }
}
