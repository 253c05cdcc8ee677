/** Runs of the deployment protocol that show what may happen: a deployment that succeeds, a ready gateway
    that lags behind the store, and two gateways that disagree about a credential. They are one run, in which
    gateway `g` takes part in a deployment while gateway `h` connects. */
module SampleRuns {
  import opened Model
  import opened RouteTable
  import opened Wire
  import opened Deployment
  import opened MemoryStore
  import opened StoreRuns
  import opened DesiredListeners
  import opened GatewayListeners

  lemma Extended(states: seq<State>, labels: seq<Label>, l: Label, st: State)
      returns (states': seq<State>, labels': seq<Label>)
    requires IsRun(states, labels) && Moves(states[|labels|], l, st)
    ensures IsRun(states', labels') && states'[|labels'|] == st
  {
    labels', states' := labels + [l], states + [st];
    forall i | 0 <= i < |labels'| ensures MovesAt(states', labels', i) {
      assert i < |labels| ==> MovesAt(states, labels, i);
    }
  }

  // ---------------------------------------------------------------------------
  // A gateway connects, loads its snapshot and reports READY
  // ---------------------------------------------------------------------------

  function Synced(routes: seq<Route>): GatewayMemory {
    GatewayMemory(Loaded(routes), Some(routes))
  }

  /** The state once `g` has joined, given what its new session holds. */
  function Joining(st: State, g: GatewayId, ss: Session, m: GatewayMemory, nextReq: RequestId): State {
    st.(sessions := st.sessions + [ss], hub := st.hub[g := |st.sessions|],
        nodes := st.nodes[g := Node(m, Some(|st.sessions|))], nextReq := nextReq)
  }

  function Joined(st: State, g: GatewayId, routes: seq<Route>): State {
    Joining(st, g, Session(g, true, [], [Ack(st.nextReq, true)], true), Synced(routes), st.nextReq + 1)
  }

  lemma ConnectMoves(st: State, g: GatewayId)
    requires g in st.nodes
    ensures Moves(st, Connect(g), Joining(st, g, Session(g, false, [], [], false), st.nodes[g].memory, st.nextReq))
  {
  }

  lemma ReadMoves(st: State, g: GatewayId, m: GatewayMemory, routes: seq<Route>)
    requires Lists(routes, st.store.routes)
    ensures Moves(Joining(st, g, Session(g, false, [], [], false), m, st.nextReq), ReadSnapshot(|st.sessions|, routes),
                  Joining(st, g, Session(g, true, [Snapshot(st.nextReq, routes)], [], false), m, st.nextReq + 1))
  {
    var st1, n := Joining(st, g, Session(g, false, [], [], false), m, st.nextReq), |st.sessions|;
    var q: seq<Frame> := [];
    assert [Snapshot(st.nextReq, routes)] + q == [Snapshot(st.nextReq, routes)];
    Replaced(st.sessions, Session(g, false, [], [], false),
             Session(g, true, [Snapshot(st.nextReq, routes)], [], false));
    assert ReadSnapshotStep(st1, n, routes)
        == Joining(st, g, Session(g, true, [Snapshot(st.nextReq, routes)], [], false), m, st.nextReq + 1);
  }

  lemma Replaced(sessions: seq<Session>, a: Session, b: Session)
    ensures (sessions + [a])[|sessions| := b] == sessions + [b]
  {
  }

  lemma LoadMoves(st: State, g: GatewayId, m: GatewayMemory, routes: seq<Route>)
    ensures Moves(Joining(st, g, Session(g, true, [Snapshot(st.nextReq, routes)], [], false), m, st.nextReq + 1),
                  Handle(g, Synced(routes), true),
                  Joining(st, g, Session(g, true, [], [Ack(st.nextReq, true)], false), Synced(routes), st.nextReq + 1))
  {
    var before, after := Session(g, true, [Snapshot(st.nextReq, routes)], [], false),
      Session(g, true, [], [Ack(st.nextReq, true)], false);
    var st2 := Joining(st, g, before, m, st.nextReq + 1);
    Replaced(st.sessions, before, after);
    assert CanHandle(st2, g, Synced(routes), true);
    var st3 := HandleStep(st2, g, Synced(routes), true);
    assert before.queue[1..] == [] && before.acks + [Ack(st.nextReq, true)] == after.acks;
    assert st3.nodes == Joining(st, g, after, Synced(routes), st.nextReq + 1).nodes;
    assert st3.log == st.log;
  }

  lemma ReadyMoves(st: State, g: GatewayId, m: GatewayMemory, acks: seq<Ack>)
    ensures Moves(Joining(st, g, Session(g, true, [], acks, false), m, st.nextReq + 1), Heartbeat(|st.sessions|, true),
                  Joining(st, g, Session(g, true, [], acks, true), m, st.nextReq + 1))
  {
    Replaced(st.sessions, Session(g, true, [], acks, false), Session(g, true, [], acks, true));
  }

  lemma Join(states: seq<State>, labels: seq<Label>, g: GatewayId, routes: seq<Route>)
      returns (states': seq<State>, labels': seq<Label>)
    requires IsRun(states, labels) && g in states[|labels|].nodes && Lists(routes, states[|labels|].store.routes)
    ensures IsRun(states', labels') && states'[|labels'|] == Joined(states[|labels|], g, routes)
  {
    var st := states[|labels|];
    var n, m := |st.sessions|, st.nodes[g].memory;
    ConnectMoves(st, g);
    states', labels' := Extended(states, labels, Connect(g),
                                 Joining(st, g, Session(g, false, [], [], false), m, st.nextReq));
    ReadMoves(st, g, m, routes);
    states', labels' := Extended(states', labels', ReadSnapshot(n, routes),
      Joining(st, g, Session(g, true, [Snapshot(st.nextReq, routes)], [], false), m, st.nextReq + 1));
    LoadMoves(st, g, m, routes);
    states', labels' := Extended(states', labels', Handle(g, Synced(routes), true),
      Joining(st, g, Session(g, true, [], [Ack(st.nextReq, true)], false), Synced(routes), st.nextReq + 1));
    ReadyMoves(st, g, Synced(routes), [Ack(st.nextReq, true)]);
    states', labels' := Extended(states', labels', Heartbeat(n, true), Joined(st, g, routes));
  }

  // ---------------------------------------------------------------------------
  // One writer stages, or two, and the first prepares on the one ready gateway
  // ---------------------------------------------------------------------------

  function Idle(): Node {
    Node(GatewayMemory(RouteTable.EMPTY, None), None)
  }

  function Start(g: GatewayId, h: GatewayId): State {
    State(MemoryStore.EMPTY, map[], {}, map[g := Idle(), h := Idle()], [], map[], None, 0, [])
  }

  /** Gateway `g` has joined, and the routes of `ops` have been staged, the last of them into the slot. */
  function StagedState(g: GatewayId, h: GatewayId, v: map<DeviceId, Device>, pending: map<DeviceId, Route>,
                       ops: set<Route>): State {
    State(StoreState(v, map[], pending), map[], ops, map[g := Node(Synced([]), Some(0)), h := Idle()],
          [Session(g, true, [], [Ack(0, true)], true)], map[g := 0], None, 1, [])
  }

  /** The device as the store keeps it. */
  function Stored(d: Device): Device {
    d.(ingresses := DeviceIngresses(d))
  }

  /** A device is created, and gateway `g` joins. */
  lemma ReachSynced(g: GatewayId, h: GatewayId, d: Device) returns (states: seq<State>, labels: seq<Label>)
    requires g != h
    ensures IsRun(states, labels) && states[|labels|] == StagedState(g, h, map[d.id := Stored(d)], map[], {})
  {
    states, labels := [Start(g, h)], [];
    var made := Start(g, h).(store := StoreState(map[d.id := Stored(d)], map[], map[]));
    assert Moves(Start(g, h), Create(d), made);
    states, labels := Extended(states, labels, Create(d), made);
    states, labels := Join(states, labels, g, []);
    var st := states[|labels|];
    assert st.sessions == [Session(g, true, [], [Ack(0, true)], true)];
    assert st.nodes == map[g := Node(Synced([]), Some(0)), h := Idle()];
    assert st.hub == map[g := 0];
  }

  function DeployingState(g: GatewayId, h: GatewayId, v: map<DeviceId, Device>, a: Route, b: Route, queue: seq<Frame>,
                          acks: seq<Ack>,
                          t: TableState, sent: nat, acked: nat): State {
    StagedState(g, h, v, map[b.deviceId := b], {a, b}).(
      nodes := map[g := Node(GatewayMemory(t, Some([])), Some(0)), h := Idle()],
      sessions := [Session(g, true, queue, acks, true)],
      deploy := Some(Deploy(1, RouteChange(a), [0], Preparing, sent, acked)),
      nextReq := 2)
  }

  lemma StageMoves(g: GatewayId, h: GatewayId, v: map<DeviceId, Device>, a: Route, b: Route)
    requires a.deviceId == b.deviceId && a.version == b.version == 1 && a.deviceId in v
    ensures Moves(StagedState(g, h, v, map[], {}), Stage(a, 0), StagedState(g, h, v, map[a.deviceId := a], {a}))
    ensures Moves(StagedState(g, h, v, map[a.deviceId := a], {a}), Stage(b, 0),
                  StagedState(g, h, v, map[b.deviceId := b], {a, b}))
  {
    var st' := StageStep(StagedState(g, h, v, map[a.deviceId := a], {a}), b, 0);
    assert st'.store.pending == map[b.deviceId := b];
    assert st'.ops == {a, b};
  }

  lemma BeginMoves(g: GatewayId, h: GatewayId, v: map<DeviceId, Device>, a: Route, b: Route)
    ensures Moves(StagedState(g, h, v, map[b.deviceId := b], {a, b}), Begin(RouteChange(a), [0]),
                  DeployingState(g, h, v, a, b, [], [Ack(0, true)], Loaded([]), 0, 0))
  {
    var st := StagedState(g, h, v, map[b.deviceId := b], {a, b});
    assert IsReadyList(st, [0]) by {
      assert g in st.hub && st.hub[g] == 0;
    }
  }

  lemma SendMoves(g: GatewayId, h: GatewayId, v: map<DeviceId, Device>, a: Route, b: Route)
    ensures Moves(DeployingState(g, h, v, a, b, [], [Ack(0, true)], Loaded([]), 0, 0), Send,
                  DeployingState(g, h, v, a, b, [Prepare(1, Some(a))], [Ack(0, true)], Loaded([]), 1, 0))
  {
    var st := DeployingState(g, h, v, a, b, [], [Ack(0, true)], Loaded([]), 0, 0);
    assert st.sessions[0].queue + [Prepare(1, Some(a))] == [Prepare(1, Some(a))];
    var st' := SendStep(st);
    assert st'.sessions == [st'.sessions[0]];
  }

  lemma PrepareMoves(g: GatewayId, h: GatewayId, v: map<DeviceId, Device>, a: Route, b: Route)
    requires g != h
    ensures Moves(DeployingState(g, h, v, a, b, [Prepare(1, Some(a))], [Ack(0, true)], Loaded([]), 1, 0),
                  Handle(g, GatewayMemory(Prepared(Loaded([]), a), Some([])), true),
                  DeployingState(g, h, v, a, b, [], [Ack(0, true), Ack(1, true)], Prepared(Loaded([]), a), 1, 0))
  {
    PrepareIsHandled(g, h, v, a, b, GatewayMemory(Prepared(Loaded([]), a), Some([])));
  }

  lemma PrepareIsHandled(g: GatewayId, h: GatewayId, v: map<DeviceId, Device>, a: Route, b: Route, m: GatewayMemory)
    requires g != h && m == GatewayMemory(Prepared(Loaded([]), a), Some([]))
    ensures var st := DeployingState(g, h, v, a, b, [Prepare(1, Some(a))], [Ack(0, true)], Loaded([]), 1, 0);
            CanHandle(st, g, m, true)
            && HandleStep(st, g, m, true) == DeployingState(g, h, v, a, b, [], [Ack(0, true), Ack(1, true)], m.table, 1,
                                                            0)
  {
    var st := DeployingState(g, h, v, a, b, [Prepare(1, Some(a))], [Ack(0, true)], Loaded([]), 1, 0);
    var st' := HandleStep(st, g, m, true);
    assert st'.sessions[0].queue == [] && st'.sessions[0].acks == [Ack(0, true), Ack(1, true)];
    assert st'.sessions == [st'.sessions[0]];
    assert st'.nodes == map[g := Node(m, Some(0)), h := Idle()];
    assert st'.log == [];
  }

  lemma AwaitMoves(g: GatewayId, h: GatewayId, v: map<DeviceId, Device>, a: Route, b: Route, t: TableState)
    ensures Moves(DeployingState(g, h, v, a, b, [], [Ack(0, true), Ack(1, true)], t, 1, 0), Await,
                  DeployingState(g, h, v, a, b, [], [Ack(1, true)], t, 1, 0))
    ensures Moves(DeployingState(g, h, v, a, b, [], [Ack(1, true)], t, 1, 0), Await,
                  DeployingState(g, h, v, a, b, [], [], t, 1, 1))
  {
    assert [Ack(0, true), Ack(1, true)][1..] == [Ack(1, true)] && [Ack(1, true)][1..] == [];
  }

  lemma ReachPrepared(g: GatewayId, h: GatewayId, d: Device, a: Route, b: Route)
      returns (states: seq<State>, labels: seq<Label>)
    requires g != h && a.deviceId == b.deviceId == d.id && a.version == b.version == 1
    ensures IsRun(states, labels)
    ensures states[|labels|]
         == DeployingState(g, h, map[d.id := Stored(d)], a, b, [], [], Prepared(Loaded([]), a), 1, 1)
  {
    var v := map[d.id := Stored(d)];
    states, labels := ReachSynced(g, h, d);
    StageMoves(g, h, v, a, b);
    states, labels := Extended(states, labels, Stage(a, 0), StagedState(g, h, v, map[a.deviceId := a], {a}));
    if a != b {
      states, labels := Extended(states, labels, Stage(b, 0), StagedState(g, h, v, map[b.deviceId := b], {a, b}));
    }
    assert states[|labels|] == StagedState(g, h, v, map[b.deviceId := b], {a, b});
    BeginMoves(g, h, v, a, b);
    states, labels := Extended(states, labels, Begin(RouteChange(a), [0]),
                               DeployingState(g, h, v, a, b, [], [Ack(0, true)], Loaded([]), 0, 0));
    SendMoves(g, h, v, a, b);
    states, labels := Extended(states, labels, Send,
                               DeployingState(g, h, v, a, b, [Prepare(1, Some(a))], [Ack(0, true)], Loaded([]), 1, 0));
    var t := Prepared(Loaded([]), a);
    PrepareMoves(g, h, v, a, b);
    states, labels := Extended(states, labels, Handle(g, GatewayMemory(t, Some([])), true),
                               DeployingState(g, h, v, a, b, [], [Ack(0, true), Ack(1, true)], t, 1, 0));
    AwaitMoves(g, h, v, a, b, t);
    states, labels := Extended(states, labels, Await, DeployingState(g, h, v, a, b, [], [Ack(1, true)], t, 1, 0));
    states, labels := Extended(states, labels, Await, DeployingState(g, h, v, a, b, [], [], t, 1, 1));
  }

  // ---------------------------------------------------------------------------
  // The other gateway joins, and the deployment runs to its end
  // ---------------------------------------------------------------------------

  /** What matters of the state while the deployment activates: `m` is what `g` holds. */
  ghost predicate Activates(st: State, g: GatewayId, h: GatewayId, v: map<DeviceId, Device>, a: Route, b: Route,
                            m: GatewayMemory, queue: seq<Frame>, acks: seq<Ack>, sent: nat, acked: nat)
  {
    && st.sessions == [Session(g, true, queue, acks, true), Session(h, true, [], [Ack(2, true)], true)]
    && st.hub == map[g := 0, h := 1]
    && st.nodes == map[g := Node(m, Some(0)), h := Node(Synced([]), Some(1))]
    && st.store.devices == v && st.store.routes == map[b.deviceId := b.(status := Active)]
    && st.deploy == Some(Deploy(1, RouteChange(a), [0], Activating, sent, acked))
  }

  function Waiting(a: Route): GatewayMemory {
    GatewayMemory(Prepared(Loaded([]), a), Some([]))
  }

  /** The gateway has activated its pending copy and saved its table. */
  function Installed(a: Route): GatewayMemory {
    GatewayMemory(Activated(Prepared(Loaded([]), a), a), Some([a.(status := Active)]))
  }

  lemma CommitMoves(g: GatewayId, h: GatewayId, v: map<DeviceId, Device>, a: Route, b: Route, st: State)
    requires g != h && a.deviceId == b.deviceId && a.version == b.version == 1
    requires st == Joined(DeployingState(g, h, v, a, b, [], [], Prepared(Loaded([]), a), 1, 1), h, [])
    ensures Moves(st, Commit, CommitStep(st)) && Activates(CommitStep(st), g, h, v, a, b, Waiting(a), [], [], 0, 0)
  {
    var st' := CommitStep(st);
    assert st'.sessions == [st'.sessions[0], st'.sessions[1]];
    assert st'.nodes == map[g := Node(Waiting(a), Some(0)), h := Node(Synced([]), Some(1))];
  }

  lemma SendActivateMoves(g: GatewayId, h: GatewayId, v: map<DeviceId, Device>, a: Route, b: Route, st: State)
    requires Activates(st, g, h, v, a, b, Waiting(a), [], [], 0, 0)
    ensures Moves(st, Send, SendStep(st))
            && Activates(SendStep(st), g, h, v, a, b, Waiting(a), [Activate(1, Some(a))], [], 1, 0)
  {
    var st' := SendStep(st);
    assert st'.sessions[0].queue == [Activate(1, Some(a))];
  }

  lemma InstallMoves(g: GatewayId, h: GatewayId, v: map<DeviceId, Device>, a: Route, b: Route, st: State)
    requires g != h && a.version == 1 && Activates(st, g, h, v, a, b, Waiting(a), [Activate(1, Some(a))], [], 1, 0)
    ensures CanHandle(st, g, Installed(a), true)
    ensures var st' := HandleStep(st, g, Installed(a), true);
            && Activates(st', g, h, v, a, b, Installed(a), [], [Ack(1, true)], 1, 0)
            && InstalledRoute(1, 0, a.(status := Active)) in st'.log
  {
    assert [a.(status := Active)][..0] == [];
    assert LoadActive([a.(status := Active)]) == Installed(a).table.active;
    assert CanHandle(st, g, Installed(a), true);
    var st' := HandleStep(st, g, Installed(a), true);
    assert st'.sessions[0].queue == [] && st'.sessions[0].acks == [Ack(1, true)];
    assert st'.nodes == map[g := Node(Installed(a), Some(0)), h := Node(Synced([]), Some(1))];
    assert st'.log[|st'.log| - 1] == InstalledRoute(1, 0, a.(status := Active));
  }

  lemma LastMoves(g: GatewayId, h: GatewayId, v: map<DeviceId, Device>, a: Route, b: Route, st: State)
    requires Activates(st, g, h, v, a, b, Installed(a), [], [Ack(1, true)], 1, 0)
    ensures Moves(st, Await, AwaitStep(st)) && Activates(AwaitStep(st), g, h, v, a, b, Installed(a), [], [], 1, 1)
    ensures AwaitStep(st).log == st.log
    ensures Moves(AwaitStep(st), Finish, End(AwaitStep(st), true))
  {
    var st' := AwaitStep(st);
    assert st'.sessions[0].acks == [];
  }

  /** The deployment of `a` has succeeded, `g` holds `a` and the store holds `b`; `h` is registered and
      ready but has what the store held when it joined. */
  ghost predicate Ended(st: State, g: GatewayId, h: GatewayId, v: map<DeviceId, Device>, a: Route, b: Route) {
    && Finished(1, RouteChange(a), [0], true) in st.log && InstalledRoute(1, 0, a.(status := Active)) in st.log
    && st.sessions == [Session(g, true, [], [], true), Session(h, true, [], [Ack(2, true)], true)]
    && st.hub == map[g := 0, h := 1]
    && st.nodes == map[g := Node(Installed(a), Some(0)), h := Node(Synced([]), Some(1))]
    && st.store.devices == v && st.store.routes == map[b.deviceId := b.(status := Active)] && st.deploy == None
  }

  lemma ReachInstalled(g: GatewayId, h: GatewayId, d: Device, a: Route, b: Route)
      returns (states: seq<State>, labels: seq<Label>)
    requires g != h && a.deviceId == b.deviceId == d.id && a.version == b.version == 1
    ensures IsRun(states, labels)
    ensures Activates(states[|labels|], g, h, map[d.id := Stored(d)], a, b, Installed(a), [], [Ack(1, true)], 1, 0)
    ensures InstalledRoute(1, 0, a.(status := Active)) in states[|labels|].log
  {
    var v := map[d.id := Stored(d)];
    states, labels := ReachPrepared(g, h, d, a, b);
    states, labels := Join(states, labels, h, []);
    var st := states[|labels|];
    CommitMoves(g, h, v, a, b, st);
    states, labels := Extended(states, labels, Commit, CommitStep(st));
    st := CommitStep(st);
    SendActivateMoves(g, h, v, a, b, st);
    states, labels := Extended(states, labels, Send, SendStep(st));
    st := SendStep(st);
    InstallMoves(g, h, v, a, b, st);
    states, labels := Extended(states, labels, Handle(g, Installed(a), true), HandleStep(st, g, Installed(a), true));
  }

  lemma ReachEnd(g: GatewayId, h: GatewayId, d: Device, a: Route, b: Route)
      returns (states: seq<State>, labels: seq<Label>)
    requires g != h && a.deviceId == b.deviceId == d.id && a.version == b.version == 1
    ensures IsRun(states, labels) && Ended(states[|labels|], g, h, map[d.id := Stored(d)], a, b)
  {
    var v := map[d.id := Stored(d)];
    states, labels := ReachInstalled(g, h, d, a, b);
    var st := states[|labels|];
    LastMoves(g, h, v, a, b, st);
    states, labels := Extended(states, labels, Await, AwaitStep(st));
    states, labels := Extended(states, labels, Finish, End(AwaitStep(st), true));
  }

  // ---------------------------------------------------------------------------
  // What the run shows
  // ---------------------------------------------------------------------------

  /** A device as the API creates it, with an ingress that a gateway can serve. */
  predicate Creatable(d: Device) {
    && FromApi(CreateOp(d)) && 1 <= d.ingressPort <= 65535
    && d.ingressMethod == BLAKE3_AES128_GCM && d.ingressPassword != ""
  }

  /** The first route of the device, as the API builds it from the device it reads. */
  function FirstRoute(d: Device, c: Credential, now: Time): Route {
    Route(d.id, d.username, "", d.ingressPort, d.ingressMethod, d.ingressPassword, d.ingresses, c, 1, Pending, now)
  }

  lemma RouteIsServable(d: Device, c: Credential, now: Time)
    requires Creatable(d)
    ensures Servable(map[d.id := FirstRoute(Stored(d), c, now).(status := Active)])
  {
    var r := FirstRoute(Stored(d), c, now).(status := Active);
    assert RouteIngresses(r) == DeviceIngresses(d);
  }

  /** Deployments do succeed: the guarantees about success are not empty. */
  lemma SuccessIsReachable(g: GatewayId, h: GatewayId, d: Device, c: Credential, now: Time)
      returns (states: seq<State>, labels: seq<Label>)
    requires g != h && Creatable(d)
    ensures IsRun(states, labels)
    ensures var st, a := states[|labels|], FirstRoute(Stored(d), c, now);
            && st.store.devices == map[d.id := Stored(d)] && st.store.routes == map[d.id := a.(status := Active)]
            && Finished(1, RouteChange(a), [0], true) in st.log && InstalledRoute(1, 0, a.(status := Active)) in st.log
            && g in st.nodes && st.nodes[g].memory.table.active == st.store.routes && Servable(st.store.routes)
  {
    var a := FirstRoute(Stored(d), c, now);
    states, labels := ReachEnd(g, h, d, a, a);
    RouteIsServable(d, c, now);
  }

  /** A gateway that is registered, ready, synced and has nothing left to handle may lag behind the store:
      it read its snapshot before the commit and became ready after the deployment captured its sessions. */
  lemma ReadyGatewayLags(g: GatewayId, h: GatewayId, d: Device, c: Credential, now: Time)
      returns (states: seq<State>, labels: seq<Label>)
    requires g != h && Creatable(d)
    ensures IsRun(states, labels)
    ensures var st := states[|labels|];
            && st.store.devices == map[d.id := Stored(d)] && Version(st.store, d.id) == 1 && st.deploy == None
            && h in st.hub && st.hub[h] == 1 && |st.sessions| == 2 && st.sessions[1].ready && st.sessions[1].queue == []
            && h in st.nodes && st.nodes[h].stream == Some(1) && st.nodes[h].memory == Synced([])
            && d.id !in st.nodes[h].memory.table.active
  {
    var a := FirstRoute(Stored(d), c, now);
    states, labels := ReachEnd(g, h, d, a, a);
  }

  /** Two writers stage version 1 of a device one after the other, and the first deploys: the store commits
      the second writer's credential while `g` installs the first one's. A gateway that connects then
      disagrees with `g` at the same version. */
  lemma OverstagedRunDisagrees(g: GatewayId, h: GatewayId, d: Device, c1: Credential, c2: Credential, now: Time)
      returns (states: seq<State>, labels: seq<Label>)
    requires g != h && Creatable(d) && c1 != c2
    ensures IsRun(states, labels)
    ensures var st, a, b := states[|labels|], FirstRoute(Stored(d), c1, now), FirstRoute(Stored(d), c2, now);
            && st.store.devices == map[d.id := Stored(d)] && st.store.routes == map[d.id := b.(status := Active)]
            && g in st.nodes && st.nodes[g].memory.table.active == map[d.id := a.(status := Active)]
            && h in st.nodes && st.nodes[h].memory.table.active == map[d.id := b.(status := Active)]
            && a.version == b.version && a.credential == c1 && b.credential == c2
            && Servable(st.nodes[g].memory.table.active) && Servable(st.nodes[h].memory.table.active)
  {
    var a, b := FirstRoute(Stored(d), c1, now), FirstRoute(Stored(d), c2, now);
    states, labels := ReachEnd(g, h, d, a, b);
    var b' := b.(status := Active);
    states, labels := Join(states, labels, h, [b']);
    assert [b'][..0] == [];
    assert LoadActive([b']) == map[b.deviceId := b'];
    RouteIsServable(d, c1, now);
    RouteIsServable(d, c2, now);
  }
}
