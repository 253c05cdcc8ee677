/** Changing the ingresses of a device: what the API proposes to the gateways before the commit
    (internal/control/api.go) against what Postgres answers after it (internal/store/postgres.go:84-191,
    with the constraints of db/migrations/004_device_ingresses.sql). */
module IngressProposals {
  import opened Model
  import opened MemoryStore

  // ---------------------------------------------------------------------------
  // The proposals of the API
  // ---------------------------------------------------------------------------

  /** rotateCredential: the device with a new password on its primary ingress. */
  method ProposeRotate(current: Device, password: string) returns (proposed: Device)
    ensures proposed == Rotated(current, password)
  {
    proposed := current.(ingressPassword := password);
    var list := RotateLoop(proposed.ingresses, password);
    proposed := proposed.(ingresses := list);
  }

  /** addIngress: refused when the device already listens on the port. */
  method ProposeAdd(current: Device, ingress: Ingress) returns (proposed: Option<Device>)
    requires !ingress.primary
    ensures proposed == if HasPort(DeviceIngresses(current), ingress.port) then None
            else Some(WithIngress(current, ingress))
  {
    var list := DeviceIngresses(current);
    for i := 0 to |list|
      invariant forall j :: 0 <= j < i ==> list[j].port != ingress.port
    {
      if list[i].port == ingress.port {
        return None;
      }
    }
    return Some(current.(ingresses := list + [ingress]));
  }

  function DeleteProposal(current: Device, port: int): Result<Device, StoreError> {
    if |DeviceIngresses(current)| <= 1 then Err(Conflict)
    else if !HasPort(DeviceIngresses(current), port) then Err(NotFound)
    else if NothingToPromote(DeviceIngresses(current), port) then Err(Panic)
    else Ok(WithoutIngress(current, port))
  }

  /** deleteIngress: refuses the last ingress and an unknown port, and promotes the head of the rest when
      the primary goes. */
  method ProposeDelete(current: Device, port: int) returns (proposed: Result<Device, StoreError>)
    ensures proposed == DeleteProposal(current, port)
  {
    var list := DeviceIngresses(current);
    if |list| <= 1 {
      return Err(Conflict);
    }
    var removed, removedPrimary, rest := RemoveLoop(list, port);
    if !removed {
      return Err(NotFound);
    }
    var d := current.(ingresses := rest);
    if removedPrimary {
      if rest == [] {
        return Err(Panic);
      }
      rest := rest[0 := rest[0].(primary := true)];
      d := d.(ingressPort := rest[0].port, ingressMethod := rest[0].cipher, ingressPassword := rest[0].password,
              ingresses := rest);
    }
    assert d == WithoutIngress(current, port);
    return Ok(d);
  }

  // ---------------------------------------------------------------------------
  // The rows
  // ---------------------------------------------------------------------------

  /** A row of device_ingresses; the table is keyed by its unique port. */
  datatype Row = Row(device: DeviceId, cipher: string, password: string, primary: bool, createdAt: Time)

  /** The devices table without its lists, and device_ingresses. */
  datatype Db = Db(devices: map<DeviceId, Device>, rows: map<int, Row>)

  function At(rows: map<int, Row>, port: int): Ingress
    requires port in rows
  {
    Ingress(port, rows[port].cipher, rows[port].password, rows[port].primary, rows[port].createdAt)
  }

  predicate IsRow(rows: map<int, Row>, id: DeviceId, x: Ingress) {
    x.port in rows && rows[x.port].device == id && At(rows, x.port) == x
  }

  /** ORDER BY created_at, port. */
  predicate Older(a: Ingress, b: Ingress) {
    a.createdAt < b.createdAt || (a.createdAt == b.createdAt && a.port < b.port)
  }

  /** ORDER BY is_primary DESC, created_at, port. */
  predicate Before(a: Ingress, b: Ingress) {
    (a.primary && !b.primary) || (a.primary == b.primary && Older(a, b))
  }

  ghost predicate Ordered(list: seq<Ingress>) {
    forall i, j :: 0 <= i < j < |list| ==> Before(list[i], list[j])
  }

  /** `list` is what loadDeviceIngresses returns for the device. */
  ghost predicate Loads(rows: map<int, Row>, id: DeviceId, list: seq<Ingress>) {
    Ordered(list) && forall x :: x in list <==> IsRow(rows, id, x)
  }

  lemma {:induction false} OrderedUnique(a: seq<Ingress>, b: seq<Ingress>)
    requires Ordered(a) && Ordered(b) && forall x :: x in a <==> x in b
    ensures a == b
  {
    if b != [] {
      assert b[0] in b;
    }
    if a != [] {
      assert a[0] in b && a[0] in a;
      var i :| 0 <= i < |b| && b[i] == a[0];
      assert b[0] in a;
      var j :| 0 <= j < |a| && a[j] == b[0];
      assert i == 0;
      forall x ensures x in a[1..] <==> x in b[1..] {
        TailMembers(a, x);
        TailMembers(b, x);
      }
      OrderedUnique(a[1..], b[1..]);
      assert a == [a[0]] + a[1..] && b == [b[0]] + b[1..];
    }
  }

  lemma TailMembers(a: seq<Ingress>, x: Ingress)
    requires a != [] && Ordered(a)
    ensures x in a[1..] <==> x in a && x != a[0]
  {
    if x in a && x != a[0] {
      var i :| 0 <= i < |a| && a[i] == x;
      assert a[1..][i - 1] == x;
    }
  }

  /** The ordering leaves loadDeviceIngresses no choice. */
  lemma LoadIsUnique(rows: map<int, Row>, id: DeviceId, a: seq<Ingress>, b: seq<Ingress>)
    requires Loads(rows, id, a) && Loads(rows, id, b)
    ensures a == b
  {
    OrderedUnique(a, b);
  }

  /** Different rows of a device are ordered one way or the other. */
  lemma BeforeIsTotal(a: Ingress, b: Ingress)
    requires a.port != b.port
    ensures Before(a, b) != Before(b, a)
  {
  }

  lemma BeforeIsTransitive(a: Ingress, b: Ingress, c: Ingress)
    requires Before(a, b) && Before(b, c)
    ensures Before(a, c)
  {
  }

  lemma {:induction false} InsertOrdered(list: seq<Ingress>, x: Ingress) returns (longer: seq<Ingress>)
    requires Ordered(list) && forall y :: y in list ==> y.port != x.port
    ensures Ordered(longer) && forall y :: y in longer <==> y in list || y == x
  {
    if list == [] {
      longer := [x];
    } else {
      BeforeIsTotal(x, list[0]);
      if Before(x, list[0]) {
        longer := [x] + list;
        forall i, j | 0 <= i < j < |longer| ensures Before(longer[i], longer[j]) {
          if i == 0 && j > 1 {
            BeforeIsTransitive(x, list[0], list[j - 1]);
          }
        }
      } else {
        var tail := list[1..];
        var rest := InsertOrdered(tail, x);
        longer := [list[0]] + rest;
        assert list == [list[0]] + tail;
        forall j | 0 <= j < |rest| ensures Before(list[0], rest[j]) {
          assert rest[j] in rest;
          if rest[j] != x {
            assert rest[j] in tail;
            var k :| 0 <= k < |tail| && tail[k] == rest[j];
            assert Before(list[0], list[k + 1]);
          }
        }
      }
    }
  }

  lemma Member<T>(s: set<T>) returns (x: T)
    requires s != {}
    ensures x in s
  {
    x :| x in s;
  }

  /** loadDeviceIngresses always has an answer. */
  lemma {:induction false} LoadHasAnswer(rows: map<int, Row>, id: DeviceId) returns (list: seq<Ingress>)
    ensures Loads(rows, id, list)
    decreases PortsOf(rows, id)
  {
    if PortsOf(rows, id) == {} {
      list := [];
      forall x ensures !IsRow(rows, id, x) {
        assert x.port !in PortsOf(rows, id);
      }
    } else {
      var p := Member(PortsOf(rows, id));
      assert PortsOf(rows - {p}, id) == PortsOf(rows, id) - {p};
      var rest := LoadHasAnswer(rows - {p}, id);
      list := InsertOrdered(rest, At(rows, p));
      forall x ensures x in list <==> IsRow(rows, id, x) {
        assert x in rest <==> IsRow(rows - {p}, id, x);
      }
    }
  }

  /** Adding an ingress is refused for a used port, a missing device and a port out of range. */
  lemma AddRefusal(db: Db, id: DeviceId, x: Ingress, now: Time)
    ensures Add(db, id, x, now) == Err(Conflict) <==> x.port in db.rows
    ensures Add(db, id, x, now) == Err(Database) <==>
              x.port !in db.rows && (id !in db.devices || x.port < 1 || x.port > 65535)
    ensures Add(db, id, x, now) != Err(NotFound) && Add(db, id, x, now) != Err(Panic)
  {
  }

  /** What GetDevice returns: the device row with its loaded list. */
  ghost predicate Reads(db: Db, id: DeviceId, d: Device) {
    id in db.devices && d == db.devices[id].(ingresses := d.ingresses) && Loads(db.rows, id, d.ingresses)
  }

  // ---------------------------------------------------------------------------
  // The transactions
  // ---------------------------------------------------------------------------

  function RotatedRows(rows: map<int, Row>, id: DeviceId, password: string): map<int, Row> {
    map p | p in rows :: if rows[p].device == id && rows[p].primary then rows[p].(password := password) else rows[p]
  }

  /** UpdateDeviceCredential. */
  function Rotate(db: Db, id: DeviceId, password: string, now: Time): Result<Db, StoreError> {
    if id !in db.devices then Err(NotFound)
    else Ok(Db(db.devices[id := db.devices[id].(ingressPassword := password, updatedAt := now)],
               RotatedRows(db.rows, id, password)))
  }

  /** AddDeviceIngress: the foreign key, the port check and the unique port guard the INSERT. */
  function Add(db: Db, id: DeviceId, x: Ingress, now: Time): Result<Db, StoreError> {
    if x.port in db.rows then Err(Conflict)
    else if id !in db.devices || !(1 <= x.port <= 65535) then Err(Database)
    else Ok(Db(db.devices[id := db.devices[id].(updatedAt := now)],
               db.rows[x.port := Row(id, x.cipher, x.password, false, x.createdAt)]))
  }

  /** The row that SELECT ... ORDER BY created_at, port LIMIT 1 returns. */
  ghost predicate IsOldest(rows: map<int, Row>, id: DeviceId, x: Ingress) {
    IsRow(rows, id, x) && forall y :: IsRow(rows, id, y) && y != x ==> Older(x, y)
  }

  function PromotedRows(rows: map<int, Row>, port: int): map<int, Row>
    requires port in rows
  {
    rows[port := rows[port].(primary := true)]
  }

  /** The rows of one device, by port. */
  function PortsOf(rows: map<int, Row>, id: DeviceId): set<int> {
    set p | p in rows && rows[p].device == id
  }

  function PromotedDevice(d: Device, next: Ingress, now: Time): Device {
    d.(ingressPort := next.port, ingressMethod := next.cipher, ingressPassword := next.password, updatedAt := now)
  }

  /** `r` is an outcome of DeleteDeviceIngress. */
  ghost predicate Deletes(db: Db, id: DeviceId, port: int, now: Time, r: Result<Db, StoreError>) {
    if id !in db.devices then r == Err(NotFound)
    else if |PortsOf(db.rows, id)| <= 1 then r == Err(Conflict)
    else if port !in PortsOf(db.rows, id) then r == Err(NotFound)
    else
      var rest := db.rows - {port};
      if !db.rows[port].primary then r == Ok(Db(db.devices[id := db.devices[id].(updatedAt := now)], rest))
      else exists next :: IsOldest(rest, id, next) &&
             r == Ok(Db(db.devices[id := PromotedDevice(db.devices[id], next, now)], PromotedRows(rest, next.port)))
  }

  // ---------------------------------------------------------------------------
  // What is pushed is what is committed
  // ---------------------------------------------------------------------------

  ghost predicate OnePrimaryFirst(list: seq<Ingress>) {
    list != [] && list[0].primary && forall i :: 0 < i < |list| ==> !list[i].primary
  }

  /** A device that reads as a valid device lists its primary first. */
  lemma PrimaryIsFirst(rows: map<int, Row>, id: DeviceId, d: Device)
    requires Loads(rows, id, d.ingresses) && DeviceOk(d)
    ensures OnePrimaryFirst(d.ingresses) && PrimaryAt(d, 0)
  {
    var p: nat :| PrimaryAt(d, p);
    assert !Before(d.ingresses[0], d.ingresses[p]) || d.ingresses[0].primary;
  }

  /** The device that rotation pushes to the gateways is the device the database then holds. */
  lemma RotateCommitsProposal(db: Db, id: DeviceId, d: Device, password: string, now: Time)
    requires Reads(db, id, d)
    ensures Rotate(db, id, password, now).Ok?
    ensures Reads(Rotate(db, id, password, now).value, id, Rotated(d, password).(updatedAt := now))
  {
    var rows' := RotatedRows(db.rows, id, password);
    var list' := WithPrimaryPassword(d.ingresses, password);
    forall x ensures x in list' <==> IsRow(rows', id, x) {
      if x in list' {
        var i :| 0 <= i < |list'| && list'[i] == x;
        assert d.ingresses[i] in d.ingresses;
        assert IsRow(db.rows, id, d.ingresses[i]);
      }
      if IsRow(rows', id, x) {
        var y := At(db.rows, x.port);
        assert IsRow(db.rows, id, y);
        var i :| 0 <= i < |d.ingresses| && d.ingresses[i] == y;
        assert list'[i] == x;
      }
    }
  }

  lemma AddedRows(db: Db, id: DeviceId, d: Device, ingress: Ingress, x: Ingress)
    requires Reads(db, id, d) && d.ingresses != [] && ingress.port !in db.rows
    ensures x in WithIngress(d, ingress).ingresses <==>
              IsRow(db.rows[ingress.port := Row(id, ingress.cipher, ingress.password, false, ingress.createdAt)], id, x)
  {
    assert x in d.ingresses <==> IsRow(db.rows, id, x);
  }

  /** An added ingress: the pushed device and the committed one have the same ingresses, and in the same
      order if and only if the new one sorts behind all the others, as it does under a clock that does
      not run backwards. */
  lemma AddCommitsProposal(db: Db, id: DeviceId, d: Device, ingress: Ingress, now: Time)
    requires Reads(db, id, d) && d.ingresses != [] && Add(db, id, ingress, now).Ok?
    ensures var db', pushed := Add(db, id, ingress, now).value, WithIngress(d, ingress).(updatedAt := now);
            && (forall x :: x in pushed.ingresses <==> IsRow(db'.rows, id, x))
            && (Reads(db', id, pushed) <==> forall i :: 0 <= i < |d.ingresses| ==>
                  Before(d.ingresses[i], ingress.(primary := false)))
  {
    var db', pushed := Add(db, id, ingress, now).value, WithIngress(d, ingress).(updatedAt := now);
    forall x ensures x in pushed.ingresses <==> IsRow(db'.rows, id, x) {
      AddedRows(db, id, d, ingress, x);
    }
    AppendedOrder(d.ingresses, ingress.(primary := false));
  }

  /** An ingress that is older than a further ingress of the device is pushed behind it and stored before it. */
  lemma AddOutOfOrder(db: Db, id: DeviceId, d: Device, ingress: Ingress, now: Time, i: nat)
    requires Reads(db, id, d) && Add(db, id, ingress, now).Ok? && i < |d.ingresses|
    requires !d.ingresses[i].primary && ingress.createdAt < d.ingresses[i].createdAt
    ensures !Reads(Add(db, id, ingress, now).value, id, WithIngress(d, ingress).(updatedAt := now))
  {
    AddCommitsProposal(db, id, d, ingress, now);
    assert !Before(d.ingresses[i], ingress.(primary := false));
  }

  /** Such a device: a primary, an ingress of time 5, and a new one whose clock said 4. */
  lemma AddOutOfOrderExample(d: Device) returns (db: Db, read: Device, ingress: Ingress)
    requires d.ingressPort == 1024
    ensures Reads(db, d.id, read) && DeviceOk(read) && Add(db, d.id, ingress, 4).Ok?
    ensures !Reads(Add(db, d.id, ingress, 4).value, d.id, WithIngress(read, ingress).(updatedAt := 4))
  {
    var first := Row(d.id, d.ingressMethod, d.ingressPassword, true, 0);
    var second := Row(d.id, d.ingressMethod, d.ingressPassword, false, 5);
    db := Db(map[d.id := d], map[1024 := first, 1025 := second]);
    read := d.(ingresses := [At(db.rows, 1024), At(db.rows, 1025)]);
    ingress := Ingress(1026, d.ingressMethod, d.ingressPassword, false, 4);
    forall x ensures x in read.ingresses <==> IsRow(db.rows, d.id, x) {
    }
    assert PrimaryAt(read, 0);
    AddOutOfOrder(db, d.id, read, ingress, 4, 1);
  }

  lemma AppendedOrder(list: seq<Ingress>, x: Ingress)
    requires Ordered(list)
    ensures Ordered(list + [x]) <==> forall i :: 0 <= i < |list| ==> Before(list[i], x)
  {
    var longer := list + [x];
    if Ordered(longer) {
      forall i | 0 <= i < |list| ensures Before(list[i], x) {
        assert Before(longer[i], longer[|list|]);
      }
    }
  }

  lemma {:induction false} WithoutPortOrdered(list: seq<Ingress>, port: int)
    requires Ordered(list)
    ensures Ordered(WithoutPort(list, port))
  {
    if list != [] {
      var init := list[..|list| - 1];
      WithoutPortOrdered(init, port);
      WithoutPortKeepsOthers(init, port);
      var out := WithoutPort(init, port);
      forall i | 0 <= i < |out| ensures Before(out[i], list[|list| - 1]) {
        var k :| 0 <= k < |init| && init[k] == out[i];
        assert list[k] == init[k];
      }
    }
  }

  lemma ShrunkRows(rows: map<int, Row>, id: DeviceId, list: seq<Ingress>, port: int)
    requires Loads(rows, id, list)
    ensures Loads(rows - {port}, id, WithoutPort(list, port))
  {
    WithoutPortOrdered(list, port);
    WithoutPortKeepsOthers(list, port);
    forall x ensures x in WithoutPort(list, port) <==> IsRow(rows - {port}, id, x) {
      assert x in list <==> IsRow(rows, id, x);
    }
  }

  /** The head of the remaining list is the row that SQL picks. */
  lemma HeadIsOldest(rows: map<int, Row>, id: DeviceId, list: seq<Ingress>, next: Ingress)
    requires Loads(rows, id, list) && list != [] && (forall i :: 0 <= i < |list| ==> !list[i].primary)
    ensures IsOldest(rows, id, next) <==> next == list[0]
  {
    assert list[0] in list;
    forall y | IsRow(rows, id, y) && y != list[0] ensures Older(list[0], y) {
      assert y in list;
    }
  }

  lemma PromotedLoads(rows: map<int, Row>, id: DeviceId, list: seq<Ingress>)
    requires Loads(rows, id, list) && list != [] && (forall i :: 0 <= i < |list| ==> !list[i].primary)
    requires list[0].port in rows
    ensures Loads(PromotedRows(rows, list[0].port), id, [list[0].(primary := true)] + list[1..])
  {
    var rows' := PromotedRows(rows, list[0].port);
    var list' := [list[0].(primary := true)] + list[1..];
    assert list[0] in list;
    forall x ensures x in list' <==> IsRow(rows', id, x) {
      TailMembers(list, x);
      assert x in list <==> IsRow(rows, id, x);
      assert x in list' <==> x == list'[0] || x in list[1..];
      if x.port == list[0].port {
        assert IsRow(rows', id, x) <==> x == list'[0];
        assert x in list ==> x == list[0];
      }
    }
  }

  lemma {:induction false} LoadCounts(rows: map<int, Row>, id: DeviceId, list: seq<Ingress>)
    requires Loads(rows, id, list)
    ensures |PortsOf(rows, id)| == |list|
    ensures forall p :: p in PortsOf(rows, id) <==> HasPort(list, p)
    decreases |list|
  {
    forall p ensures p in PortsOf(rows, id) <==> HasPort(list, p) {
      if p in PortsOf(rows, id) {
        assert IsRow(rows, id, At(rows, p));
        var i :| 0 <= i < |list| && list[i] == At(rows, p);
      }
      if HasPort(list, p) {
        var i :| 0 <= i < |list| && list[i].port == p;
        assert list[i] in list;
      }
    }
    if list == [] {
      assert forall p :: p in PortsOf(rows, id) ==> HasPort(list, p);
      assert forall p :: p !in PortsOf(rows, id);
    } else {
      var x := list[0];
      assert x in list;
      forall y ensures y in list[1..] <==> IsRow(rows - {x.port}, id, y) {
        TailMembers(list, y);
        assert y in list <==> IsRow(rows, id, y);
      }
      LoadCounts(rows - {x.port}, id, list[1..]);
      assert PortsOf(rows, id) == PortsOf(rows - {x.port}, id) + {x.port};
    }
  }

  /** Deleting an ingress: the database refuses exactly when the API refused beforehand, with the same
      error, and otherwise the device it then holds is the one pushed to the gateways. Promoting the head
      of the list picks the same ingress as the SQL minimum by creation time and port. */
  lemma DeleteCommitsProposal(db: Db, id: DeviceId, d: Device, port: int, now: Time, r: Result<Db, StoreError>)
    requires Reads(db, id, d) && DeviceOk(d) && Deletes(db, id, port, now, r)
    ensures match DeleteProposal(d, port)
            case Err(e) => r == Err(e)
            case Ok(pushed) => r.Ok? && Reads(r.value, id, pushed.(updatedAt := now))
  {
    PrimaryIsFirst(db.rows, id, d);
    LoadCounts(db.rows, id, d.ingresses);
    WithoutPortKeepsOthers(d.ingresses, port);
    if |d.ingresses| > 1 && HasPort(d.ingresses, port) {
      DeletionReads(db, id, d, port, now, r);
    }
  }

  lemma DeletionReads(db: Db, id: DeviceId, d: Device, port: int, now: Time, r: Result<Db, StoreError>)
    requires Reads(db, id, d) && OnePrimaryFirst(d.ingresses) && DistinctPorts(d.ingresses)
             && Deletes(db, id, port, now, r)
    requires |PortsOf(db.rows, id)| == |d.ingresses| > 1 && HasPort(d.ingresses, port) && port in PortsOf(db.rows, id)
    ensures r.Ok? && Reads(r.value, id, WithoutIngress(d, port).(updatedAt := now))
  {
    ShrunkRows(db.rows, id, d.ingresses, port);
    WithoutPortKeepsOthers(d.ingresses, port);
    RemovalIsOfPrimary(db.rows, id, d.ingresses, port);
    if db.rows[port].primary {
      NoPrimaryLeft(db.rows, id, d.ingresses, port);
      var next := NextPrimary(db, id, port, now, r);
      var rest := WithoutPort(d.ingresses, port);
      HeadIsOldest(db.rows - {port}, id, rest, next);
      PromotedLoads(db.rows - {port}, id, rest);
    }
  }

  lemma NextPrimary(db: Db, id: DeviceId, port: int, now: Time, r: Result<Db, StoreError>) returns (next: Ingress)
    requires id in db.devices && |PortsOf(db.rows, id)| > 1 && port in PortsOf(db.rows, id)
    requires Deletes(db, id, port, now, r) && db.rows[port].primary
    ensures IsOldest(db.rows - {port}, id, next)
    ensures r == Ok(Db(db.devices[id := PromotedDevice(db.devices[id], next, now)],
                       PromotedRows(db.rows - {port}, next.port)))
  {
    next :| IsOldest(db.rows - {port}, id, next) &&
            r == Ok(Db(db.devices[id := PromotedDevice(db.devices[id], next, now)],
                       PromotedRows(db.rows - {port}, next.port)));
  }

  /** The transaction always has an outcome: whenever it deletes the primary there is a row to promote. */
  lemma DeleteHasOutcome(db: Db, id: DeviceId, d: Device, port: int, now: Time) returns (r: Result<Db, StoreError>)
    requires Reads(db, id, d) && DeviceOk(d)
    ensures Deletes(db, id, port, now, r)
  {
    PrimaryIsFirst(db.rows, id, d);
    LoadCounts(db.rows, id, d.ingresses);
    if |d.ingresses| <= 1 {
      r := Err(Conflict);
    } else if !HasPort(d.ingresses, port) {
      r := Err(NotFound);
    } else if !db.rows[port].primary {
      r := Ok(Db(db.devices[id := db.devices[id].(updatedAt := now)], db.rows - {port}));
    } else {
      var rest := WithoutPort(d.ingresses, port);
      ShrunkRows(db.rows, id, d.ingresses, port);
      WithoutPortKeepsOthers(d.ingresses, port);
      NoPrimaryLeft(db.rows, id, d.ingresses, port);
      HeadIsOldest(db.rows - {port}, id, rest, rest[0]);
      r := Ok(Db(db.devices[id := PromotedDevice(db.devices[id], rest[0], now)],
                 PromotedRows(db.rows - {port}, rest[0].port)));
    }
  }

  lemma NoPrimaryLeft(rows: map<int, Row>, id: DeviceId, list: seq<Ingress>, port: int)
    requires Loads(rows, id, list) && OnePrimaryFirst(list) && HasPort(list, port) && port in rows && rows[port].primary
    ensures forall i :: 0 <= i < |WithoutPort(list, port)| ==> !WithoutPort(list, port)[i].primary
  {
    var rest := WithoutPort(list, port);
    WithoutPortKeepsOthers(list, port);
    var p :| 0 <= p < |list| && list[p].port == port;
    assert list[p] in list;
    assert p == 0;
    forall i | 0 <= i < |rest| ensures !rest[i].primary {
      var k :| 0 <= k < |list| && list[k] == rest[i];
    }
  }

  /** The flag of the deleted row is the one the deletion loop finds. */
  lemma RemovalIsOfPrimary(rows: map<int, Row>, id: DeviceId, list: seq<Ingress>, port: int)
    requires Loads(rows, id, list) && HasPort(list, port)
    ensures port in rows && (RemovesPrimary(list, port) <==> rows[port].primary)
  {
    var i :| 0 <= i < |list| && list[i].port == port;
    assert list[i] in list;
    LastOnPort(list, port, rows, id);
  }

  lemma {:induction false} LastOnPort(list: seq<Ingress>, port: int, rows: map<int, Row>, id: DeviceId)
    requires HasPort(list, port) && forall x :: x in list ==> IsRow(rows, id, x)
    ensures port in rows && (RemovesPrimary(list, port) <==> rows[port].primary)
  {
    var last := list[|list| - 1];
    assert last in list;
    if last.port != port {
      var init := list[..|list| - 1];
      var i :| 0 <= i < |list| && list[i].port == port;
      assert init[i].port == port;
      LastOnPort(init, port, rows, id);
    }
  }
}
