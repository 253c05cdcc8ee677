/** The two-phase deployment protocol as a labelled transition system: the store, the hub with its
    sessions and deploy lock (internal/control/hub.go), the API operations that drive it
    (internal/control/api.go) and the gateways at the far ends of the control streams.

    A label names who moves and carries every choice the move leaves open, so that a run is fixed by
    its labels. Deadlines, cancelled requests and dropped connections appear as steps that may happen
    at any time. `ops` holds the routes whose API call has staged them and still waits for the deployment;
    `commits` and `log` are history, and no step consults them. */
module Deployment {
  import opened Model
  import opened RouteTable
  import opened Wire
  import MemoryStore
  import StoreRuns

  type SessionId = nat

  /** One control stream. `queue` holds the frames on their way to the gateway, `acks` the
      acknowledgements on their way back; both are in order. */
  datatype Session = Session(gateway: GatewayId, snapshotSent: bool, queue: seq<Frame>, acks: seq<Ack>, ready: bool)

  /** A gateway process; it serves one stream at a time. */
  datatype Node = Node(memory: GatewayMemory, stream: Option<SessionId>)

  /** What a deployment publishes: a staged route, or a device whose ingresses an operation of the
      store is about to change. */
  datatype Change = RouteChange(route: Route) | DeviceChange(device: Device, commit: StoreRuns.Op)

  datatype Phase = Preparing | Activating

  /** The holder of the deploy lock, in the middle of DeployRoute or DeployDevice: the frame of the
      current phase went to the first `sent` sessions, and the first `acked` of them answered. */
  datatype Deploy = Deploy(req: RequestId, change: Change, chosen: seq<SessionId>, phase: Phase, sent: nat, acked: nat)

  datatype Event =
    | CommittedRoute(req: RequestId, route: Route)
    | CommittedDevice(req: RequestId, device: Device)
    | InstalledRoute(req: RequestId, session: SessionId, route: Route)
    | InstalledDevice(req: RequestId, session: SessionId, device: Device)
    | Finished(req: RequestId, change: Change, chosen: seq<SessionId>, ok: bool)

  datatype State = State(
    store: MemoryStore.StoreState,
    commits: map<DeviceId, seq<Credential>>,
    ops: set<Route>,
    nodes: map<GatewayId, Node>,
    sessions: seq<Session>,
    hub: map<GatewayId, SessionId>,
    deploy: Option<Deploy>,
    nextReq: RequestId,
    log: seq<Event>)

  datatype Label =
    | Stage(route: Route, expected: int)
    | Drop(route: Route)
    | Create(device: Device)
    | Begin(change: Change, chosen: seq<SessionId>)
    | Send
    | Await
    | Abort
    | Commit
    | Finish
    | Notify(session: SessionId, frame: Frame)
    | Take(session: SessionId)
    | Connect(gateway: GatewayId)
    | ReadSnapshot(session: SessionId, routes: seq<Route>)
    | Heartbeat(session: SessionId, ready: bool)
    | Unregister(gateway: GatewayId)
    | Disconnect(gateway: GatewayId)
    | Restart(gateway: GatewayId, fromDisk: bool)
    | Handle(gateway: GatewayId, memory: GatewayMemory, ok: bool)

  function PrepareFrame(req: RequestId, change: Change): Frame {
    match change
    case RouteChange(r) => Prepare(req, Some(r))
    case DeviceChange(d, _) => DevicePrepare(req, Some(d))
  }

  function ActivateFrame(req: RequestId, change: Change): Frame {
    match change
    case RouteChange(r) => Activate(req, Some(r))
    case DeviceChange(d, _) => DeviceUpdate(req, Some(d))
  }

  function CommitEvent(req: RequestId, change: Change): Event {
    match change
    case RouteChange(r) => CommittedRoute(req, r)
    case DeviceChange(d, _) => CommittedDevice(req, d)
  }

  /** The event of session `s` having put `change`, and nothing else, into its gateway's table. */
  function DoneEvent(s: SessionId, req: RequestId, change: Change): Event {
    match change
    case RouteChange(r) => InstalledRoute(req, s, r.(status := Active))
    case DeviceChange(d, _) => InstalledDevice(req, s, d)
  }

  function History(commits: map<DeviceId, seq<Credential>>, id: DeviceId): seq<Credential> {
    if id in commits then commits[id] else []
  }

  ghost predicate NoDuplicates(s: seq<SessionId>) {
    forall i, j :: 0 <= i < j < |s| ==> s[i] != s[j]
  }

  /** readySessions: the registered sessions whose last heartbeat said READY, in some order. */
  ghost predicate IsReadyList(st: State, chosen: seq<SessionId>) {
    && NoDuplicates(chosen)
    && (forall i :: 0 <= i < |chosen| ==> chosen[i] < |st.sessions| && st.sessions[chosen[i]].ready)
    && (forall s :: s in chosen <==>
          exists g :: g in st.hub && st.hub[g] == s && s < |st.sessions| && st.sessions[s].ready)
  }

  predicate IsDeviceCommit(op: StoreRuns.Op) {
    op.RotateOp? || op.AddOp? || op.DeleteOp?
  }

  ghost predicate Init(st: State) {
    && st.store == MemoryStore.EMPTY && st.commits == map[] && st.ops == {} && st.sessions == [] && st.hub == map[]
    && st.deploy == None && st.nextReq == 0 && st.log == []
    && (forall g :: g in st.nodes ==> st.nodes[g] == Node(GatewayMemory(EMPTY, None), None))
  }

  // --- steps -------------------------------------------------------------------

  function WithSession(st: State, s: SessionId, ss: Session): State
    requires s < |st.sessions|
  {
    st.(sessions := st.sessions[s := ss])
  }

  /** The API stages routes of devices it has found in the store. */
  predicate CanStage(st: State, r: Route, expected: int) {
    r.deviceId in st.store.devices && r.version == expected + 1 && MemoryStore.StageRoute(st.store, r, expected).Ok?
  }

  function StageStep(st: State, r: Route, expected: int): State
    requires CanStage(st, r, expected)
  {
    st.(store := MemoryStore.StageRoute(st.store, r, expected).value, ops := st.ops + {r})
  }

  ghost predicate CanBegin(st: State, change: Change, chosen: seq<SessionId>) {
    && st.deploy == None && chosen != [] && IsReadyList(st, chosen)
    && (match change
        case RouteChange(r) => r in st.ops
        case DeviceChange(_, op) => IsDeviceCommit(op))
  }

  /** The deployment takes the lock, a fresh request ID and the ready sessions. */
  function BeginStep(st: State, change: Change, chosen: seq<SessionId>): State {
    st.(deploy := Some(Deploy(st.nextReq, change, chosen, Preparing, 0, 0)), nextReq := st.nextReq + 1)
  }

  predicate CanSend(st: State) {
    && st.deploy.Some?
    && var dp := st.deploy.value;
       dp.sent < |dp.chosen| && dp.chosen[dp.sent] < |st.sessions|
  }

  function SendStep(st: State): State
    requires CanSend(st)
  {
    var dp := st.deploy.value;
    var s := dp.chosen[dp.sent];
    var f := if dp.phase == Preparing then PrepareFrame(dp.req, dp.change) else ActivateFrame(dp.req, dp.change);
    WithSession(st, s, st.sessions[s].(queue := st.sessions[s].queue + [f])).(deploy := Some(dp.(sent := dp.sent + 1)))
  }

  /** The lock is released; a route that never committed stays staged but is given up. */
  function End(st: State, ok: bool): State
    requires st.deploy.Some?
  {
    var dp := st.deploy.value;
    st.(deploy := None,
        ops := if dp.phase == Preparing && dp.change.RouteChange? then st.ops - {dp.change.route} else st.ops,
        log := st.log + [Finished(dp.req, dp.change, dp.chosen, ok)])
  }

  predicate CanAwait(st: State) {
    && st.deploy.Some?
    && var dp := st.deploy.value;
       && dp.acked < |dp.chosen| == dp.sent
       && dp.chosen[dp.acked] < |st.sessions|
       && st.sessions[dp.chosen[dp.acked]].acks != []
  }

  function TakeStep(st: State, s: SessionId): State
    requires s < |st.sessions| && st.sessions[s].acks != []
  {
    WithSession(st, s, st.sessions[s].(acks := st.sessions[s].acks[1..]))
  }

  /** One turn of the receive loop: a foreign acknowledgement is thrown away, an error ends the
      deployment, anything else moves on to the next session. */
  function AwaitStep(st: State): State
    requires CanAwait(st)
  {
    var dp := st.deploy.value;
    var s := dp.chosen[dp.acked];
    var ack := st.sessions[s].acks[0];
    var st' := TakeStep(st, s);
    if ack.req != dp.req then st'
    else if ack.ok then st'.(deploy := Some(dp.(acked := dp.acked + 1)))
    else End(st', false)
  }

  predicate CanCommit(st: State) {
    st.deploy.Some? && st.deploy.value.phase == Preparing && st.deploy.value.acked == |st.deploy.value.chosen|
  }

  function CommitRouteStep(st: State, dp: Deploy, r: Route): State
    requires MemoryStore.ActivateRoute(st.store, r.deviceId, r.version).Ok?
  {
    var store := MemoryStore.ActivateRoute(st.store, r.deviceId, r.version).value;
    st.(store := store, ops := st.ops - {r},
        deploy := Some(dp.(phase := Activating, sent := 0, acked := 0)),
        log := st.log + [CommittedRoute(dp.req, r)],
        commits := st.commits[r.deviceId := History(st.commits, r.deviceId) + [store.routes[r.deviceId].credential]])
  }

  function CommitDeviceStep(st: State, dp: Deploy, d: Device, op: StoreRuns.Op): State
    requires StoreRuns.Outcome(st.store, op).Ok?
  {
    st.(store := StoreRuns.Outcome(st.store, op).value,
        deploy := Some(dp.(phase := Activating, sent := 0, acked := 0)),
        log := st.log + [CommittedDevice(dp.req, d)])
  }

  predicate CommitSucceeds(st: State, change: Change) {
    match change
    case RouteChange(r) => MemoryStore.ActivateRoute(st.store, r.deviceId, r.version).Ok?
    case DeviceChange(_, op) => StoreRuns.Outcome(st.store, op).Ok?
  }

  function CommitStep(st: State): State
    requires CanCommit(st)
  {
    var dp := st.deploy.value;
    if !CommitSucceeds(st, dp.change) then End(st, false)
    else match dp.change
      case RouteChange(r) => CommitRouteStep(st, dp, r)
      case DeviceChange(d, op) => CommitDeviceStep(st, dp, d, op)
  }

  predicate CanFinish(st: State) {
    st.deploy.Some? && st.deploy.value.phase == Activating && st.deploy.value.acked == |st.deploy.value.chosen|
  }

  /** An operation outside the lock (Interrupt, SetDraining) queues a frame of its own. */
  predicate CanNotify(st: State, s: SessionId, f: Frame) {
    s < |st.sessions| && (f.Interrupt? || f.SetDraining?) && f.req == st.nextReq
  }

  function NotifyStep(st: State, s: SessionId, f: Frame): State
    requires CanNotify(st, s, f)
  {
    WithSession(st, s, st.sessions[s].(queue := st.sessions[s].queue + [f])).(nextReq := st.nextReq + 1)
  }

  /** A gateway opens a stream and registers; an older session under its name is superseded. */
  function ConnectStep(st: State, g: GatewayId): State
    requires g in st.nodes
  {
    st.(sessions := st.sessions + [Session(g, false, [], [], false)],
        hub := st.hub[g := |st.sessions|],
        nodes := st.nodes[g := st.nodes[g].(stream := Some(|st.sessions|))])
  }

  ghost predicate CanReadSnapshot(st: State, s: SessionId, routes: seq<Route>) {
    s < |st.sessions| && !st.sessions[s].snapshotSent && Lists(routes, st.store.routes)
  }

  /** The hub reads the active routes and puts them on the stream, ahead of anything queued. */
  function ReadSnapshotStep(st: State, s: SessionId, routes: seq<Route>): State
    requires s < |st.sessions|
  {
    var ss := st.sessions[s];
    var ss' := ss.(snapshotSent := true, queue := [Snapshot(st.nextReq, routes)] + ss.queue);
    WithSession(st, s, ss').(nextReq := st.nextReq + 1)
  }

  /** A new process starts from the snapshot file, or from nothing when it cannot be read. */
  function RestartStep(st: State, g: GatewayId, fromDisk: bool): State
    requires g in st.nodes
  {
    var m := st.nodes[g].memory;
    var table := if fromDisk && m.disk.Some? then Loaded(m.disk.value) else EMPTY;
    st.(nodes := st.nodes[g := Node(m.(table := table), None)])
  }

  /** The table has nothing for the device, or has it as `d` says. */
  predicate Carries(t: TableState, d: Device) {
    d.id in t.active ==> t.active[d.id] == WithDevice(t.active[d.id], d)
  }

  /** What the table shows of the frame having been handled. */
  function HandleEvents(s: SessionId, f: Frame, before: TableState, after: TableState): seq<Event> {
    match f
    case Activate(req, Some(r)) =>
      if CanActivate(before, r) && r.deviceId in after.active
      then [InstalledRoute(req, s, after.active[r.deviceId])] else []
    case DeviceUpdate(req, Some(d)) => if Carries(after, d) then [InstalledDevice(req, s, d)] else []
    case _ => []
  }

  ghost predicate CanHandle(st: State, g: GatewayId, memory: GatewayMemory, ok: bool) {
    && g in st.nodes && st.nodes[g].stream.Some? && st.nodes[g].stream.value < |st.sessions|
    && var ss := st.sessions[st.nodes[g].stream.value];
       ss.snapshotSent && ss.queue != [] && MemoryStep(st.nodes[g].memory, ss.queue[0], memory, ok)
  }

  /** The gateway takes the next frame of its stream and acknowledges it. */
  function HandleStep(st: State, g: GatewayId, memory: GatewayMemory, ok: bool): State
    requires CanHandle(st, g, memory, ok)
  {
    var s := st.nodes[g].stream.value;
    var ss := st.sessions[s];
    var f := ss.queue[0];
    WithSession(st, s, ss.(queue := ss.queue[1..], acks := ss.acks + [Ack(f.req, ok)])).(
      nodes := st.nodes[g := st.nodes[g].(memory := memory)],
      log := st.log + HandleEvents(s, f, st.nodes[g].memory.table, memory.table))
  }

  ghost predicate Enabled(st: State, l: Label) {
    match l
    case Stage(r, expected) => CanStage(st, r, expected)
    case Drop(r) => st.deploy.Some? ==> st.deploy.value.change != RouteChange(r)
    case Create(d) => MemoryStore.CreateDevice(st.store, d).Ok?
    case Begin(change, chosen) => CanBegin(st, change, chosen)
    case Send => CanSend(st)
    case Await => CanAwait(st)
    case Abort => st.deploy.Some?
    case Commit => CanCommit(st)
    case Finish => CanFinish(st)
    case Notify(s, f) => CanNotify(st, s, f)
    case Take(s) => s < |st.sessions| && st.sessions[s].acks != []
    case Connect(g) => g in st.nodes
    case ReadSnapshot(s, routes) => CanReadSnapshot(st, s, routes)
    case Heartbeat(s, ready) => s < |st.sessions| && (ready ==> st.sessions[s].snapshotSent)
    case Unregister(g) => g in st.hub
    case Disconnect(g) => g in st.nodes
    case Restart(g, _) => g in st.nodes
    case Handle(g, memory, ok) => CanHandle(st, g, memory, ok)
  }

  function Step(st: State, l: Label): State
    requires Enabled(st, l)
  {
    match l
    case Stage(r, expected) => StageStep(st, r, expected)
    case Drop(r) => st.(ops := st.ops - {r})
    case Create(d) => st.(store := MemoryStore.CreateDevice(st.store, d).value)
    case Begin(change, chosen) => BeginStep(st, change, chosen)
    case Send => SendStep(st)
    case Await => AwaitStep(st)
    case Abort => End(st, false)
    case Commit => CommitStep(st)
    case Finish => End(st, true)
    case Notify(s, f) => NotifyStep(st, s, f)
    case Take(s) => TakeStep(st, s)
    case Connect(g) => ConnectStep(st, g)
    case ReadSnapshot(s, routes) => ReadSnapshotStep(st, s, routes)
    case Heartbeat(s, ready) => WithSession(st, s, st.sessions[s].(ready := ready))
    case Unregister(g) => st.(hub := st.hub - {g})
    case Disconnect(g) => st.(nodes := st.nodes[g := st.nodes[g].(stream := None)])
    case Restart(g, fromDisk) => RestartStep(st, g, fromDisk)
    case Handle(g, memory, ok) => HandleStep(st, g, memory, ok)
  }

  ghost predicate Moves(st: State, l: Label, st': State) {
    Enabled(st, l) && st' == Step(st, l)
  }

  /** A run: every state follows from the one before it by an enabled label. */
  ghost predicate IsRun(states: seq<State>, labels: seq<Label>) {
    && |states| == |labels| + 1
    && Init(states[0])
    && forall i :: 0 <= i < |labels| ==> MovesAt(states, labels, i)
  }

  ghost predicate MovesAt(states: seq<State>, labels: seq<Label>, i: int)
    requires 0 <= i < |labels| < |states|
  {
    Moves(states[i], labels[i], states[i + 1])
  }

  lemma RunMoves(states: seq<State>, labels: seq<Label>, i: nat)
    requires IsRun(states, labels) && i < |labels|
    ensures Moves(states[i], labels[i], states[i + 1])
  {
    assert MovesAt(states, labels, i);
  }
}
