/** The Postgres device tables against the in-memory store: under the operations of the API both hold
    the same devices with the same ingress lists (internal/store/postgres.go:35-191,
    internal/store/memory.go:61-185). */
module DeviceMirror {
  import opened Model
  import opened IngressProposals
  import MemoryStore
  import opened StoreRuns

  const EMPTY := Db(map[], map[])

  predicate NameTaken(db: Db, name: string) {
    exists id :: id in db.devices && db.devices[id].username == name
  }

  /** CreateDevice for a device with a flat port and no list, which becomes its only ingress row. The
      identifier, the user name and the port are unique. */
  function Create(db: Db, d: Device): Result<Db, StoreError>
    requires d.ingressPort != 0 && d.ingresses == []
  {
    if d.id in db.devices || NameTaken(db, d.username) || d.ingressPort in db.rows then Err(Conflict)
    else if !(1 <= d.ingressPort <= 65535) then Err(Database)
    else Ok(Db(db.devices[d.id := d],
               db.rows[d.ingressPort := Row(d.id, d.ingressMethod, d.ingressPassword, true, d.createdAt)]))
  }

  /** A new device is refused for a taken identifier, user name or port, and for a port out of range. */
  lemma CreateRefusal(db: Db, d: Device)
    requires d.ingressPort != 0 && d.ingresses == []
    ensures Create(db, d) == Err(Conflict) <==>
              || d.id in db.devices || d.ingressPort in db.rows
              || exists id :: id in db.devices && db.devices[id].username == d.username
    ensures Create(db, d).Ok? ==> 1 <= d.ingressPort <= 65535
    ensures Create(db, d).Err? ==> Create(db, d).error == Conflict || d.ingressPort < 1 || d.ingressPort > 65535
  {
  }

  predicate IsDeviceOp(op: Op) {
    !op.StageOp? && !op.ActivateOp?
  }

  /** `r` is an outcome of a device operation in Postgres. */
  ghost predicate DbOutcome(db: Db, op: Op, r: Result<Db, StoreError>)
    requires IsDeviceOp(op) && FromApi(op)
  {
    match op
    case CreateOp(d) => r == Create(db, d)
    case RotateOp(id, password, now) => r == Rotate(db, id, password, now)
    case AddOp(id, ingress, now) => r == Add(db, id, ingress, now)
    case DeleteOp(id, port, now) => Deletes(db, id, port, now, r)
  }

  /** Each device of the memory store is what Postgres reads back, and every row has its device. */
  ghost predicate Mirrors(db: Db, devices: map<DeviceId, Device>) {
    && (forall id :: id in db.devices ==> db.devices[id].username == id.text)
    && (forall id :: id in devices <==> id in db.devices)
    && (forall id :: id in devices ==> Reads(db, id, devices[id]))
    && (forall p :: p in db.rows ==> db.rows[p].device in db.devices)
  }

  /** `ingress` comes behind all the others of its device: the clock has not run backwards. */
  ghost predicate SortsLast(devices: map<DeviceId, Device>, id: DeviceId, ingress: Ingress) {
    id in devices ==> forall i :: 0 <= i < |devices[id].ingresses| ==>
        Before(devices[id].ingresses[i], ingress.(primary := false))
  }

  /** What the API checks before it asks for a port, and the clock. */
  ghost predicate Admissible(devices: map<DeviceId, Device>, op: Op) {
    match op
    case CreateOp(d) => 1 <= d.ingressPort <= 65535
    case AddOp(id, ingress, _) => 1 <= ingress.port <= 65535 && SortsLast(devices, id, ingress)
    case _ => true
  }

  lemma PortsMirror(db: Db, devices: map<DeviceId, Device>, port: int)
    requires Mirrors(db, devices) && MemoryStore.DevicesOk(devices)
    ensures MemoryStore.PortTaken(devices, port) <==> port in db.rows
  {
    forall id | id in devices ensures DeviceIngresses(devices[id]) == devices[id].ingresses {
      var p: nat :| MemoryStore.PrimaryAt(devices[id], p);
    }
    if port in db.rows {
      var id := db.rows[port].device;
      assert Reads(db, id, devices[id]) && IsRow(db.rows, id, At(db.rows, port));
      var i :| 0 <= i < |devices[id].ingresses| && devices[id].ingresses[i] == At(db.rows, port);
      assert DeviceIngresses(devices[id])[i].port == port;
    }
    if MemoryStore.PortTaken(devices, port) {
      var id, i :| id in devices && 0 <= i < |DeviceIngresses(devices[id])|
        && DeviceIngresses(devices[id])[i].port == port;
      assert devices[id].ingresses[i] in devices[id].ingresses;
      assert IsRow(db.rows, id, devices[id].ingresses[i]);
    }
  }

  /** A transaction on one device leaves what the others read. */
  lemma OthersRead(db: Db, db': Db, id: DeviceId, other: DeviceId, d: Device)
    requires Reads(db, other, d) && other != id && other in db'.devices && db'.devices[other] == db.devices[other]
    requires forall p :: p in db.rows && db.rows[p].device == other ==> p in db'.rows && db'.rows[p] == db.rows[p]
    requires forall p :: p in db'.rows && db'.rows[p].device == other ==> p in db.rows && db'.rows[p] == db.rows[p]
    ensures Reads(db', other, d)
  {
    forall x ensures IsRow(db'.rows, other, x) <==> IsRow(db.rows, other, x) {
    }
  }

  predicate OnlyRecord(devices: map<DeviceId, Device>, id: DeviceId, devices': map<DeviceId, Device>) {
    id in devices' && devices' == devices[id := devices'[id]]
  }

  lemma OneChanged(db: Db, db': Db, devices: map<DeviceId, Device>, id: DeviceId, d: Device)
    requires Mirrors(db, devices) && Reads(db', id, d) && d.username == id.text
    requires OnlyRecord(db.devices, id, db'.devices)
    requires forall p :: p in db.rows && db.rows[p].device != id ==> p in db'.rows && db'.rows[p] == db.rows[p]
    requires forall p :: p in db'.rows && db'.rows[p].device != id ==> p in db.rows && db'.rows[p] == db.rows[p]
    ensures Mirrors(db', devices[id := d])
  {
    forall other | other in devices && other != id ensures Reads(db', other, devices[other]) {
      OthersRead(db, db', id, other, devices[other]);
    }
  }

  lemma CreateMirrors(db: Db, s: MemoryStore.StoreState, d: Device)
    requires Mirrors(db, s.devices) && MemoryStore.DevicesOk(s.devices)
    requires FromApi(CreateOp(d)) && 1 <= d.ingressPort <= 65535
    ensures match MemoryStore.CreateDevice(s, d)
            case Err(e) => Create(db, d) == Err(e)
            case Ok(s') => Create(db, d).Ok? && Mirrors(Create(db, d).value, s'.devices)
  {
    PortsMirror(db, s.devices, d.ingressPort);
    NamesAreIds(db, s.devices, d.id);
    if Create(db, d).Ok? {
      var db', made := Create(db, d).value, d.(ingresses := DeviceIngresses(d));
      forall x ensures x in made.ingresses <==> IsRow(db'.rows, d.id, x) {
      }
      OneChanged(db, db', s.devices, d.id, made);
    }
  }

  /** The two unique columns of a device made by the API clash together. */
  lemma NamesAreIds(db: Db, devices: map<DeviceId, Device>, id: DeviceId)
    requires Mirrors(db, devices)
    ensures NameTaken(db, id.text) <==> id in db.devices
  {
    if id in db.devices {
      assert db.devices[id].username == id.text;
    }
  }

  /** Whatever its user name, both stores answer alike to a new device if and only if its user name is free
      in Postgres or its identifier or port is taken anyway. */
  lemma CreateAnswersAlikeIff(db: Db, s: MemoryStore.StoreState, d: Device)
    requires Mirrors(db, s.devices) && MemoryStore.DevicesOk(s.devices)
    requires d.ingresses == [] && 1 <= d.ingressPort <= 65535
    ensures (Create(db, d).Ok? <==> MemoryStore.CreateDevice(s, d).Ok?) <==>
              !NameTaken(db, d.username) || d.id in db.devices || d.ingressPort in db.rows
  {
    PortsMirror(db, s.devices, d.ingressPort);
  }

  lemma RotateMirrors(db: Db, s: MemoryStore.StoreState, id: DeviceId, password: string, now: Time)
    requires Mirrors(db, s.devices)
    ensures match MemoryStore.Rotate(s, id, password, now)
            case Err(e) => Rotate(db, id, password, now) == Err(e)
            case Ok(s') => Rotate(db, id, password, now).Ok? && Mirrors(Rotate(db, id, password, now).value, s'.devices)
  {
    if id in s.devices {
      RotateCommitsProposal(db, id, s.devices[id], password, now);
      OneChanged(db, Rotate(db, id, password, now).value, s.devices, id,
                 MemoryStore.Rotated(s.devices[id], password).(updatedAt := now));
    }
  }

  lemma AddMirrors(db: Db, s: MemoryStore.StoreState, id: DeviceId, ingress: Ingress, now: Time)
    requires Mirrors(db, s.devices) && MemoryStore.DevicesOk(s.devices)
    requires id in s.devices && 1 <= ingress.port <= 65535 && SortsLast(s.devices, id, ingress)
    ensures match MemoryStore.AddIngress(s, id, ingress, now)
            case Err(e) => Add(db, id, ingress, now) == Err(e)
            case Ok(s') => Add(db, id, ingress, now).Ok? && Mirrors(Add(db, id, ingress, now).value, s'.devices)
  {
    PortsMirror(db, s.devices, ingress.port);
    if Add(db, id, ingress, now).Ok? {
      var d := s.devices[id];
      var p: nat :| MemoryStore.PrimaryAt(d, p);
      AddCommitsProposal(db, id, d, ingress, now);
      OneChanged(db, Add(db, id, ingress, now).value, s.devices, id,
                 MemoryStore.WithIngress(d, ingress).(updatedAt := now));
    }
  }

  lemma DeleteMirrors(db: Db, s: MemoryStore.StoreState, id: DeviceId, port: int, now: Time, r: Result<Db, StoreError>)
    requires Mirrors(db, s.devices) && MemoryStore.DevicesOk(s.devices) && Deletes(db, id, port, now, r)
    ensures match MemoryStore.DeleteIngress(s, id, port, now)
            case Err(e) => r == Err(e)
            case Ok(s') => r.Ok? && Mirrors(r.value, s'.devices)
  {
    if id in s.devices {
      var d := s.devices[id];
      DeleteCommitsProposal(db, id, d, port, now, r);
      MemoryStore.WithoutPortKeepsOthers(DeviceIngresses(d), port);
      if r.Ok? {
        DeletionMirrors(db, s.devices, id, port, now, r, MemoryStore.WithoutIngress(d, port).(updatedAt := now));
      }
    }
  }

  lemma DeletionMirrors(db: Db, devices: map<DeviceId, Device>, id: DeviceId, port: int, now: Time,
                        r: Result<Db, StoreError>, d: Device)
    requires Mirrors(db, devices) && Deletes(db, id, port, now, r) && r.Ok? && Reads(r.value, id, d)
    requires d.username == id.text
    ensures Mirrors(r.value, devices[id := d])
  {
    DeletedRows(db, id, port, now, r);
    OneChanged(db, r.value, devices, id, d);
  }

  lemma DeletedRows(db: Db, id: DeviceId, port: int, now: Time, r: Result<Db, StoreError>)
    requires Deletes(db, id, port, now, r) && r.Ok?
    ensures OnlyRecord(db.devices, id, r.value.devices)
    ensures forall p :: p in db.rows && db.rows[p].device != id ==> p in r.value.rows && r.value.rows[p] == db.rows[p]
    ensures forall p :: p in r.value.rows && r.value.rows[p].device != id ==>
              p in db.rows && r.value.rows[p] == db.rows[p]
  {
    if db.rows[port].primary {
      var next := NextPrimary(db, id, port, now, r);
    }
  }

  /** One operation: both stores accept or refuse it together, with the same error unless an ingress is
      added to a device that does not exist, and mirror each other afterwards. */
  lemma StepMirrors(db: Db, s: MemoryStore.StoreState, op: Op, r: Result<Db, StoreError>)
    requires Mirrors(db, s.devices) && MemoryStore.DevicesOk(s.devices)
    requires IsDeviceOp(op) && FromApi(op) && Admissible(s.devices, op) && DbOutcome(db, op, r)
    ensures match Outcome(s, op)
            case Ok(s') => r.Ok? && Mirrors(r.value, s'.devices)
            case Err(e) => r.Err? && (r == Err(e) || (op.AddOp? && op.id !in s.devices))
  {
    match op
    case CreateOp(d) => CreateMirrors(db, s, d);
    case RotateOp(id, password, now) => RotateMirrors(db, s, id, password, now);
    case AddOp(id, ingress, now) =>
      if id in s.devices {
        AddMirrors(db, s, id, ingress, now);
      }
    case DeleteOp(id, port, now) => DeleteMirrors(db, s, id, port, now, r);
  }

  /** A run of the Postgres store. A refused transaction is rolled back. */
  ghost predicate IsDbRun(dbs: seq<Db>, ops: seq<Op>) {
    && |dbs| == |ops| + 1 && dbs[0] == EMPTY
    && (forall i :: 0 <= i < |ops| ==> IsDeviceOp(ops[i]) && FromApi(ops[i]))
    && (forall i :: 0 <= i < |ops| ==> DbMoves(dbs[i], ops[i], dbs[i + 1]))
  }

  ghost predicate DbMoves(db: Db, op: Op, db': Db)
    requires IsDeviceOp(op) && FromApi(op)
  {
    exists r :: DbOutcome(db, op, r) && db' == if r.Ok? then r.value else db
  }

  /** After any run of device operations the two stores hold the same devices, ingress lists in the same
      order included. */
  lemma {:induction false} RunsMirror(dbs: seq<Db>, ops: seq<Op>, n: nat)
    requires IsDbRun(dbs, ops) && n <= |ops|
    requires forall i :: 0 <= i < n ==> Admissible(Run(ops[..i]).devices, ops[i])
    ensures Mirrors(dbs[n], Run(ops[..n]).devices)
    decreases n
  {
    if n > 0 {
      RunsMirror(dbs, ops, n - 1);
      assert ops[..n][..n - 1] == ops[..n - 1];
      EveryRunKeepsDevices(ops[..n - 1]);
      assert DbMoves(dbs[n - 1], ops[n - 1], dbs[n - 1 + 1]);
      var r :| DbOutcome(dbs[n - 1], ops[n - 1], r) && dbs[n] == if r.Ok? then r.value else dbs[n - 1];
      StepMirrors(dbs[n - 1], Run(ops[..n - 1]), ops[n - 1], r);
    }
  }
}
