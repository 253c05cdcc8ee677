/** The inductive invariant of the deployment protocol, and its proof step by step. */
module DeploymentInvariant {
  import opened Model
  import opened RouteTable
  import opened Wire
  import opened Deployment
  import opened MemoryStore
  import opened StoreRuns

  // ---------------------------------------------------------------------------
  // The invariant, piece by piece
  // ---------------------------------------------------------------------------

  /** No route of `m` is ahead of the store. */
  ghost predicate NotAhead(store: StoreState, m: map<DeviceId, Route>) {
    forall d :: d in m ==> m[d].deviceId == d && 1 <= m[d].version <= Version(store, d)
  }

  /** The store's active versions are counted by the commits, which recorded their credentials. */
  ghost predicate HistoryAt(store: StoreState, commits: map<DeviceId, seq<Credential>>, d: DeviceId) {
    && |History(commits, d)| == Version(store, d)
    && (d in store.routes ==>
          Version(store, d) >= 1 && History(commits, d)[Version(store, d) - 1] == store.routes[d].credential)
  }

  ghost predicate HistoryOk(store: StoreState, commits: map<DeviceId, seq<Credential>>) {
    MemoryStore.RoutesOk(store) && forall d :: HistoryAt(store, commits, d)
  }

  ghost predicate MemoryOk(store: StoreState, m: GatewayMemory) {
    && Consistent(m.table)
    && NotAhead(store, m.table.active)
    && (m.disk.Some? ==> NotAhead(store, LoadActive(m.disk.value)))
  }

  /** A frame that leaves pending routes alone. */
  predicate Harmless(f: Frame) {
    !f.Snapshot? && !f.Prepare? && !f.Activate?
  }

  ghost predicate AllHarmless(q: seq<Frame>) {
    forall i :: 0 <= i < |q| ==> Harmless(q[i])
  }

  ghost predicate FrameOk(store: StoreState, log: seq<Event>, f: Frame) {
    match f
    case Snapshot(_, routes) => NotAhead(store, LoadActive(routes))
    case Activate(req, Some(r)) => CommittedRoute(req, r) in log && 1 <= r.version <= Version(store, r.deviceId)
    case Activate(_, None) => false
    case DeviceUpdate(req, Some(d)) => CommittedDevice(req, d) in log
    case DeviceUpdate(_, None) => false
    case _ => true
  }

  /** A snapshot is the first frame of its stream, and only harmless frames wait before an ACTIVATE. */
  ghost predicate OrderOk(q: seq<Frame>) {
    && (forall i :: 0 <= i < |q| && q[i].Snapshot? ==> i == 0)
    && (forall i, j :: 0 <= j < i < |q| && q[i].Activate? ==> Harmless(q[j]))
  }

  ghost predicate SessionOk(store: StoreState, log: seq<Event>, nextReq: RequestId, ss: Session) {
    && (forall i :: 0 <= i < |ss.queue| ==> ss.queue[i].req < nextReq && FrameOk(store, log, ss.queue[i]))
    && (forall i :: 0 <= i < |ss.acks| ==> ss.acks[i].req < nextReq)
    && OrderOk(ss.queue)
    && (ss.ready ==> ss.snapshotSent)
    && (!ss.snapshotSent ==> AllHarmless(ss.queue))
  }

  ghost predicate Dominates(m: map<DeviceId, Route>, active: map<DeviceId, Route>) {
    forall d :: d in active ==> d in m && active[d].version <= m[d].version
  }

  /** A waiting ACTIVATE finds exactly its own route pending, and a waiting snapshot is nowhere
      behind the table it will replace. */
  ghost predicate StreamOk(q: seq<Frame>, t: TableState) {
    forall i :: 0 <= i < |q| ==>
      match q[i]
      case Activate(_, Some(r)) => r.deviceId in t.pending && t.pending[r.deviceId] == r
      case Snapshot(_, routes) => Dominates(LoadActive(routes), t.active)
      case _ => true
  }

  /** The table that reads session `s`, if some gateway still serves that stream. */
  function Live(st: State, s: SessionId): Option<TableState> {
    if s < |st.sessions| && st.sessions[s].gateway in st.nodes && st.nodes[st.sessions[s].gateway].stream == Some(s)
    then Some(st.nodes[st.sessions[s].gateway].memory.table) else None
  }

  ghost predicate NodesOk(st: State) {
    forall g :: g in st.nodes ==>
      && MemoryOk(st.store, st.nodes[g].memory)
      && (st.nodes[g].stream.Some? ==>
            st.nodes[g].stream.value < |st.sessions| && st.sessions[st.nodes[g].stream.value].gateway == g)
  }

  ghost predicate SessionsOk(st: State) {
    forall s :: 0 <= s < |st.sessions| ==>
      && SessionOk(st.store, st.log, st.nextReq, st.sessions[s])
      && (Live(st, s).Some? ==> StreamOk(st.sessions[s].queue, Live(st, s).value))
  }

  // The position of a chosen session within the running deployment.

  ghost predicate NoTrace(ss: Session, req: RequestId) {
    && (forall k :: 0 <= k < |ss.queue| ==> ss.queue[k].req != req)
    && (forall k :: 0 <= k < |ss.acks| ==> ss.acks[k].req != req)
  }

  /** The request is at one place at most: one frame under way, or one acknowledgement. */
  ghost predicate Once(ss: Session, req: RequestId) {
    && (forall k, l ::
          0 <= k < |ss.queue| && 0 <= l < |ss.queue| && ss.queue[k].req == req && ss.queue[l].req == req ==> k == l)
    && (forall k, l ::
          0 <= k < |ss.acks| && 0 <= l < |ss.acks| && ss.acks[k].req == req && ss.acks[l].req == req ==> k == l)
    && (forall k, l :: 0 <= k < |ss.queue| && 0 <= l < |ss.acks| && ss.queue[k].req == req ==> ss.acks[l].req != req)
  }

  /** The gateway behind the session holds the prepared change, and nothing under way can disturb it. */
  ghost predicate Primed(ss: Session, live: Option<TableState>, change: Change) {
    && AllHarmless(ss.queue)
    && (change.RouteChange? && live.Some? ==>
          change.route.deviceId in live.value.pending && live.value.pending[change.route.deviceId] == change.route)
  }

  ghost predicate AwaitsPrepare(ss: Session, live: Option<TableState>, req: RequestId, change: Change) {
    && Once(ss, req)
    && (forall k :: 0 <= k < |ss.queue| && ss.queue[k].req == req ==>
          ss.queue[k] == PrepareFrame(req, change) && AllHarmless(ss.queue[k + 1..]))
    && (forall k :: 0 <= k < |ss.acks| && ss.acks[k].req == req && ss.acks[k].ok ==> Primed(ss, live, change))
  }

  ghost predicate AwaitsActivate(ss: Session, s: SessionId, req: RequestId, change: Change, log: seq<Event>) {
    && Once(ss, req)
    && (forall k :: 0 <= k < |ss.queue| && ss.queue[k].req == req ==> ss.queue[k] == ActivateFrame(req, change))
    && (forall k :: 0 <= k < |ss.acks| && ss.acks[k].req == req && ss.acks[k].ok ==> DoneEvent(s, req, change) in log)
  }

  ghost predicate ChosenOk(dp: Deploy, i: nat, s: SessionId, ss: Session, live: Option<TableState>, log: seq<Event>) {
    match dp.phase
    case Preparing =>
      if i >= dp.sent then NoTrace(ss, dp.req)
      else if i < dp.acked then NoTrace(ss, dp.req) && Primed(ss, live, dp.change)
      else AwaitsPrepare(ss, live, dp.req, dp.change)
    case Activating =>
      if i >= dp.sent then NoTrace(ss, dp.req) && Primed(ss, live, dp.change)
      else if i < dp.acked then DoneEvent(s, dp.req, dp.change) in log
      else AwaitsActivate(ss, s, dp.req, dp.change, log)
  }

  ghost predicate DeployShape(st: State, dp: Deploy) {
    && dp.req < st.nextReq
    && dp.acked <= dp.sent <= |dp.chosen|
    && NoDuplicates(dp.chosen)
    && (dp.change.DeviceChange? ==> IsDeviceCommit(dp.change.commit))
    && (forall i :: 0 <= i < |dp.chosen| ==> dp.chosen[i] < |st.sessions| && st.sessions[dp.chosen[i]].snapshotSent)
  }

  ghost predicate DeployOk(st: State) {
    st.deploy.Some? ==>
      var dp := st.deploy.value;
      && DeployShape(st, dp)
      && (forall i :: 0 <= i < |dp.chosen| ==>
            ChosenOk(dp, i, dp.chosen[i], st.sessions[dp.chosen[i]], Live(st, dp.chosen[i]), st.log))
      && (dp.phase == Preparing ==> forall k :: 0 <= k < |st.log| ==> st.log[k].req != dp.req)
      && (dp.phase == Activating ==> CommitEvent(dp.req, dp.change) in st.log)
      && (dp.phase == Activating && dp.change.RouteChange? ==>
            1 <= dp.change.route.version <= Version(st.store, dp.change.route.deviceId))
  }

  ghost predicate IsCommit(e: Event) {
    e.CommittedRoute? || e.CommittedDevice?
  }

  /** What the entry at position `n` of the log says about the entries before it. */
  ghost predicate EntryOk(log: seq<Event>, n: nat)
    requires n < |log|
  {
    match log[n]
    case InstalledRoute(req, s, r) =>
      exists c :: 0 <= c < n && log[c].CommittedRoute? && log[c].req == req && r == log[c].route.(status := Active)
    case InstalledDevice(req, s, d) => exists c :: 0 <= c < n && log[c] == CommittedDevice(req, d)
    case Finished(req, change, chosen, true) =>
      && (exists c :: 0 <= c < n && log[c] == CommitEvent(req, change))
      && (forall i :: 0 <= i < |chosen| ==> exists k :: 0 <= k < n && log[k] == DoneEvent(chosen[i], req, change))
    case _ => true
  }

  /** A deployment commits at most once, and only before it finishes. */
  ghost predicate LogOk(st: State) {
    && (forall n :: 0 <= n < |st.log| ==> st.log[n].req < st.nextReq && EntryOk(st.log, n))
    && (forall b, c :: 0 <= b < c < |st.log| && IsCommit(st.log[b]) && IsCommit(st.log[c]) ==>
          st.log[b].req != st.log[c].req)
    && (forall n, c :: 0 <= n < |st.log| && 0 <= c < |st.log| && st.log[n].Finished? && IsCommit(st.log[c]) ==>
          st.log[c].req == st.log[n].req ==> c < n)
    && (st.deploy.Some? ==> forall n :: 0 <= n < |st.log| && st.log[n].Finished? ==>
          st.log[n].req != st.deploy.value.req)
  }

  ghost predicate Inv(st: State) {
    HistoryOk(st.store, st.commits) && NodesOk(st) && SessionsOk(st) && DeployOk(st) && LogOk(st)
  }

  // ---------------------------------------------------------------------------
  // The store
  // ---------------------------------------------------------------------------

  ghost predicate Grows(store: StoreState, store': StoreState) {
    forall d :: Version(store, d) <= Version(store', d)
  }

  lemma ActivateKeepsRoutes(store: StoreState, id: DeviceId, version: int)
    requires MemoryStore.RoutesOk(store) && ActivateRoute(store, id, version).Ok?
    ensures var store' := ActivateRoute(store, id, version).value;
            && MemoryStore.RoutesOk(store') && Grows(store, store')
            && Version(store', id) == version == Version(store, id) + 1
  {
  }

  lemma ActivateKeepsHistory(store: StoreState, commits: map<DeviceId, seq<Credential>>, id: DeviceId, version: int)
    requires HistoryOk(store, commits) && ActivateRoute(store, id, version).Ok?
    ensures var store' := ActivateRoute(store, id, version).value;
            HistoryOk(store', commits[id := History(commits, id) + [store'.routes[id].credential]])
  {
    ActivateKeepsRoutes(store, id, version);
    var store' := ActivateRoute(store, id, version).value;
    var commits' := commits[id := History(commits, id) + [store'.routes[id].credential]];
    forall d ensures HistoryAt(store', commits', d) {
      assert HistoryAt(store, commits, d);
    }
  }

  lemma BindingsKeepHistory(store: StoreState, store': StoreState, commits: map<DeviceId, seq<Credential>>)
    requires HistoryOk(store, commits)
    requires SameBindings(store.routes, store'.routes) && SameBindings(store.pending, store'.pending)
    ensures HistoryOk(store', commits) && Grows(store, store')
  {
    forall d ensures HistoryAt(store', commits, d) {
      assert HistoryAt(store, commits, d);
    }
  }

  lemma StageKeepsHistory(store: StoreState, commits: map<DeviceId, seq<Credential>>, r: Route, expected: int)
    requires HistoryOk(store, commits) && r.version == expected + 1 && StageRoute(store, r, expected).Ok?
    ensures HistoryOk(StageRoute(store, r, expected).value, commits)
            && Grows(store, StageRoute(store, r, expected).value)
  {
    forall d ensures HistoryAt(StageRoute(store, r, expected).value, commits, d) {
      assert HistoryAt(store, commits, d);
    }
  }

  // ---------------------------------------------------------------------------
  // Growth: what a larger store, a longer log and a later request counter keep
  // ---------------------------------------------------------------------------

  lemma MemoryGrows(store: StoreState, store': StoreState, m: GatewayMemory)
    requires MemoryOk(store, m) && Grows(store, store')
    ensures MemoryOk(store', m)
  {
  }

  lemma FrameGrows(store: StoreState, log: seq<Event>, store': StoreState, log': seq<Event>, f: Frame)
    requires FrameOk(store, log, f) && Grows(store, store') && log <= log'
    ensures FrameOk(store', log', f)
  {
  }

  lemma SessionGrows(store: StoreState, log: seq<Event>, n: RequestId, store': StoreState, log': seq<Event>,
                     n': RequestId, ss: Session)
    requires SessionOk(store, log, n, ss) && Grows(store, store') && log <= log' && n <= n'
    ensures SessionOk(store', log', n', ss)
  {
    forall i | 0 <= i < |ss.queue| ensures FrameOk(store', log', ss.queue[i]) {
      FrameGrows(store, log, store', log', ss.queue[i]);
    }
  }

  lemma ChosenGrows(dp: Deploy, i: nat, s: SessionId, ss: Session, live: Option<TableState>, log: seq<Event>,
                    log': seq<Event>)
    requires ChosenOk(dp, i, s, ss, live, log) && log <= log'
    ensures ChosenOk(dp, i, s, ss, live, log')
  {
  }

  lemma ChosenForgets(dp: Deploy, i: nat, s: SessionId, ss: Session, live: Option<TableState>, log: seq<Event>)
    requires ChosenOk(dp, i, s, ss, live, log)
    ensures ChosenOk(dp, i, s, ss, None, log)
  {
  }

  ghost predicate Later(st: State, st': State) {
    Grows(st.store, st'.store) && st.log <= st'.log && st.nextReq <= st'.nextReq
  }

  /** A step that touches neither the gateways nor the streams. */
  lemma SameStreamsKeep(st: State, st': State)
    requires NodesOk(st) && SessionsOk(st) && Later(st, st') && st'.nodes == st.nodes && st'.sessions == st.sessions
    ensures NodesOk(st') && SessionsOk(st')
  {
    forall g | g in st'.nodes ensures MemoryOk(st'.store, st'.nodes[g].memory) {
      MemoryGrows(st.store, st'.store, st.nodes[g].memory);
    }
    forall s | 0 <= s < |st'.sessions|
      ensures SessionOk(st'.store, st'.log, st'.nextReq, st'.sessions[s]) && Live(st', s) == Live(st, s)
    {
      SessionGrows(st.store, st.log, st.nextReq, st'.store, st'.log, st'.nextReq, st.sessions[s]);
    }
  }

  /** A step that touches one stream only. */
  lemma OneStreamKeeps(st: State, st': State, s: SessionId)
    requires NodesOk(st) && SessionsOk(st) && Later(st, st') && st'.nodes == st.nodes
             && s < |st.sessions| == |st'.sessions|
    requires st'.sessions == st.sessions[s := st'.sessions[s]] && st'.sessions[s].gateway == st.sessions[s].gateway
    requires SessionOk(st'.store, st'.log, st'.nextReq, st'.sessions[s])
    requires Live(st, s).Some? ==> StreamOk(st'.sessions[s].queue, Live(st, s).value)
    ensures NodesOk(st') && SessionsOk(st')
    ensures forall x :: Live(st', x) == Live(st, x)
  {
    forall g | g in st'.nodes ensures MemoryOk(st'.store, st'.nodes[g].memory) {
      MemoryGrows(st.store, st'.store, st.nodes[g].memory);
    }
    forall x | 0 <= x < |st'.sessions| && x != s
      ensures SessionOk(st'.store, st'.log, st'.nextReq, st'.sessions[x])
    {
      SessionGrows(st.store, st.log, st.nextReq, st'.store, st'.log, st'.nextReq, st.sessions[x]);
    }
  }

  /** For the running deployment such a step matters only where it touches a chosen session. */
  lemma OneStreamKeepsDeploy(st: State, st': State, s: SessionId)
    requires DeployOk(st) && st'.deploy == st.deploy && Later(st, st') && s < |st.sessions| == |st'.sessions|
    requires st'.sessions == st.sessions[s := st'.sessions[s]] && st'.log == st.log
    requires st.sessions[s].snapshotSent ==> st'.sessions[s].snapshotSent
    requires forall x :: Live(st', x) == Live(st, x)
    requires st.deploy.Some? ==> forall i :: 0 <= i < |st.deploy.value.chosen| && st.deploy.value.chosen[i] == s ==>
               ChosenOk(st.deploy.value, i, s, st'.sessions[s], Live(st, s), st.log)
    ensures DeployOk(st')
  {
  }

  // ---------------------------------------------------------------------------
  // Steps that add to the log
  // ---------------------------------------------------------------------------

  lemma EntryGrows(log: seq<Event>, e: Event, n: nat)
    requires n < |log| && EntryOk(log, n)
    ensures EntryOk(log + [e], n)
  {
    var log' := log + [e];
    assert forall c :: 0 <= c < |log| ==> log'[c] == log[c];
  }

  lemma LogExtended(st: State, st': State, e: Event)
    requires LogOk(st) && st'.log == st.log + [e] && e.req < st'.nextReq && st.nextReq <= st'.nextReq
    requires EntryOk(st'.log, |st.log|)
    requires IsCommit(e) ==> forall n :: 0 <= n < |st.log| && (st.log[n].Finished? || IsCommit(st.log[n])) ==>
               st.log[n].req != e.req
    requires st'.deploy.Some? ==> st.deploy.Some? && st'.deploy.value.req == st.deploy.value.req
    requires st'.deploy.Some? && e.Finished? ==> e.req != st'.deploy.value.req
    ensures LogOk(st')
  {
    forall n | 0 <= n < |st.log| ensures EntryOk(st'.log, n) {
      EntryGrows(st.log, e, n);
    }
  }

  lemma LogKept(st: State, st': State)
    requires LogOk(st) && st'.log == st.log && st.nextReq <= st'.nextReq
    requires st'.deploy.Some? ==> st.deploy.Some? && st'.deploy.value.req == st.deploy.value.req
    ensures LogOk(st')
  {
  }

  // ---------------------------------------------------------------------------
  // The deployment's own steps
  // ---------------------------------------------------------------------------

  lemma StageKeeps(st: State, r: Route, expected: int)
    requires Inv(st) && CanStage(st, r, expected)
    ensures Inv(StageStep(st, r, expected))
  {
    var st' := StageStep(st, r, expected);
    StageKeepsHistory(st.store, st.commits, r, expected);
    SameStreamsKeep(st, st');
    SameDeployKept(st, st');
    LogKept(st, st');
  }

  lemma CreateKeeps(st: State, d: Device)
    requires Inv(st) && CreateDevice(st.store, d).Ok?
    ensures Inv(st.(store := CreateDevice(st.store, d).value))
  {
    var st' := st.(store := CreateDevice(st.store, d).value);
    BindingsKeepHistory(st.store, st'.store, st.commits);
    SameStreamsKeep(st, st');
    SameDeployKept(st, st');
    LogKept(st, st');
  }

  lemma SameDeployKept(st: State, st': State)
    requires DeployOk(st) && Later(st, st') && st'.deploy == st.deploy && st'.log == st.log
    requires st'.nodes == st.nodes && st'.sessions == st.sessions
    ensures DeployOk(st')
  {
    assert forall x :: Live(st', x) == Live(st, x);
  }

  lemma BeginKeeps(st: State, change: Change, chosen: seq<SessionId>)
    requires Inv(st) && CanBegin(st, change, chosen)
    ensures Inv(BeginStep(st, change, chosen))
  {
    var st' := BeginStep(st, change, chosen);
    SameStreamsKeep(st, st');
    forall i | 0 <= i < |chosen|
      ensures NoTrace(st.sessions[chosen[i]], st.nextReq) && st.sessions[chosen[i]].snapshotSent
    {
      assert SessionOk(st.store, st.log, st.nextReq, st.sessions[chosen[i]]);
    }
  }

  lemma EndKeeps(st: State, ok: bool)
    requires Inv(st) && st.deploy.Some? && (ok ==> CanFinish(st))
    ensures Inv(End(st, ok))
  {
    var st', dp := End(st, ok), st.deploy.value;
    SameStreamsKeep(st, st');
    if ok {
      var c :| 0 <= c < |st.log| && st.log[c] == CommitEvent(dp.req, dp.change);
      assert st'.log[c] == CommitEvent(dp.req, dp.change);
      forall i | 0 <= i < |dp.chosen|
        ensures exists k :: 0 <= k < |st.log| && st'.log[k] == DoneEvent(dp.chosen[i], dp.req, dp.change)
      {
        assert ChosenOk(dp, i, dp.chosen[i], st.sessions[dp.chosen[i]], Live(st, dp.chosen[i]), st.log);
        var k :| 0 <= k < |st.log| && st.log[k] == DoneEvent(dp.chosen[i], dp.req, dp.change);
        assert st'.log[k] == st.log[k];
      }
    }
    LogExtended(st, st', Finished(dp.req, dp.change, dp.chosen, ok));
  }

  function PhaseFrame(dp: Deploy): Frame {
    if dp.phase == Preparing then PrepareFrame(dp.req, dp.change) else ActivateFrame(dp.req, dp.change)
  }

  lemma SentFrameFits(store: StoreState, log: seq<Event>, n: RequestId, dp: Deploy, ss: Session,
                      live: Option<TableState>)
    requires SessionOk(store, log, n, ss) && FrameOk(store, log, PhaseFrame(dp)) && dp.req < n && ss.snapshotSent
    requires live.Some? ==> StreamOk(ss.queue, live.value)
    requires dp.phase == Activating ==> Primed(ss, live, dp.change)
    ensures var ss' := ss.(queue := ss.queue + [PhaseFrame(dp)]);
            SessionOk(store, log, n, ss') && (live.Some? ==> StreamOk(ss'.queue, live.value))
  {
    var q' := ss.queue + [PhaseFrame(dp)];
    assert forall i :: 0 <= i < |ss.queue| ==> q'[i] == ss.queue[i];
    assert OrderOk(q');
  }

  lemma SentFrameIsAwaited(dp: Deploy, s: SessionId, ss: Session, live: Option<TableState>, log: seq<Event>)
    requires dp.acked <= dp.sent && ChosenOk(dp, dp.sent, s, ss, live, log)
    ensures ChosenOk(dp.(sent := dp.sent + 1), dp.sent, s, ss.(queue := ss.queue + [PhaseFrame(dp)]), live, log)
  {
    var q' := ss.queue + [PhaseFrame(dp)];
    assert forall i :: 0 <= i < |ss.queue| ==> q'[i] == ss.queue[i];
    assert AllHarmless(q'[|ss.queue| + 1..]);
  }

  /** Appending the deployment's frame to a chosen stream, in either phase. */
  lemma SentSessionOk(st: State, dp: Deploy, s: SessionId, f: Frame)
    requires Inv(st) && CanSend(st) && dp == st.deploy.value && s == dp.chosen[dp.sent]
    requires f == PhaseFrame(dp)
    ensures var ss' := st.sessions[s].(queue := st.sessions[s].queue + [f]);
            && SessionOk(st.store, st.log, st.nextReq, ss')
            && (Live(st, s).Some? ==> StreamOk(ss'.queue, Live(st, s).value))
            && ChosenOk(dp.(sent := dp.sent + 1), dp.sent, s, ss', Live(st, s), st.log)
  {
    var ss := st.sessions[s];
    assert SessionOk(st.store, st.log, st.nextReq, ss);
    assert ChosenOk(dp, dp.sent, s, ss, Live(st, s), st.log);
    SentFrameFits(st.store, st.log, st.nextReq, dp, ss, Live(st, s));
    SentFrameIsAwaited(dp, s, ss, Live(st, s), st.log);
  }

  lemma SendKeeps(st: State)
    requires Inv(st) && CanSend(st)
    ensures Inv(SendStep(st))
  {
    var st', dp := SendStep(st), st.deploy.value;
    var s := dp.chosen[dp.sent];
    SentSessionOk(st, dp, s, PhaseFrame(dp));
    OneStreamKeeps(st, st', s);
    SendKeepsDeploy(st, st', dp, s);
    LogKept(st, st');
  }

  lemma SendKeepsDeploy(st: State, st': State, dp: Deploy, s: SessionId)
    requires DeployOk(st) && CanSend(st) && dp == st.deploy.value && s == dp.chosen[dp.sent] && st' == SendStep(st)
    requires ChosenOk(dp.(sent := dp.sent + 1), dp.sent, s, st'.sessions[s], Live(st, s), st.log)
    requires forall x :: Live(st', x) == Live(st, x)
    ensures DeployOk(st')
  {
    forall i | 0 <= i < |dp.chosen|
      ensures ChosenOk(dp.(sent := dp.sent + 1), i, dp.chosen[i], st'.sessions[dp.chosen[i]], Live(st', dp.chosen[i]),
                       st'.log)
    {
      if i != dp.sent {
        assert dp.chosen[i] != s;
        assert ChosenOk(dp, i, dp.chosen[i], st.sessions[dp.chosen[i]], Live(st, dp.chosen[i]), st.log);
      }
    }
  }

  lemma TakenChosenOk(dp: Deploy, i: nat, s: SessionId, ss: Session, live: Option<TableState>, log: seq<Event>)
    requires ChosenOk(dp, i, s, ss, live, log) && ss.acks != []
    ensures ChosenOk(dp, i, s, ss.(acks := ss.acks[1..]), live, log)
  {
    var ss' := ss.(acks := ss.acks[1..]);
    assert forall k :: 0 <= k < |ss'.acks| ==> ss'.acks[k] == ss.acks[k + 1];
    if Primed(ss, live, dp.change) {
      assert Primed(ss', live, dp.change);
    }
  }

  lemma TakeKeeps(st: State, s: SessionId)
    requires Inv(st) && s < |st.sessions| && st.sessions[s].acks != []
    ensures Inv(TakeStep(st, s))
    ensures forall x :: Live(TakeStep(st, s), x) == Live(st, x)
  {
    var st' := TakeStep(st, s);
    OneStreamKeeps(st, st', s);
    if st.deploy.Some? {
      var dp := st.deploy.value;
      forall i | 0 <= i < |dp.chosen| && dp.chosen[i] == s
        ensures ChosenOk(dp, i, s, st'.sessions[s], Live(st, s), st.log)
      {
        assert ChosenOk(dp, i, dp.chosen[i], st.sessions[dp.chosen[i]], Live(st, dp.chosen[i]), st.log);
        TakenChosenOk(dp, i, s, st.sessions[s], Live(st, s), st.log);
      }
    }
    OneStreamKeepsDeploy(st, st', s);
    LogKept(st, st');
  }

  /** A matching acknowledgement without error is the answer to the frame of this very phase. */
  lemma AnsweredChosenOk(dp: Deploy, s: SessionId, ss: Session, live: Option<TableState>, log: seq<Event>)
    requires dp.acked < dp.sent && ChosenOk(dp, dp.acked, s, ss, live, log)
    requires ss.acks != [] && ss.acks[0] == Ack(dp.req, true)
    ensures ChosenOk(dp.(acked := dp.acked + 1), dp.acked, s, ss.(acks := ss.acks[1..]), live, log)
  {
    var ss' := ss.(acks := ss.acks[1..]);
    assert forall k :: 0 <= k < |ss'.acks| ==> ss'.acks[k] == ss.acks[k + 1];
    assert Once(ss, dp.req);
    assert NoTrace(ss', dp.req);
  }

  lemma AnswerKeepsDeploy(st: State, st': State, dp: Deploy, s: SessionId)
    requires DeployOk(st) && CanAwait(st) && dp == st.deploy.value && s == dp.chosen[dp.acked]
    requires st.sessions[s].acks[0] == Ack(dp.req, true)
             && st' == TakeStep(st, s).(deploy := Some(dp.(acked := dp.acked + 1)))
    requires forall x :: Live(st', x) == Live(st, x)
    ensures DeployOk(st')
  {
    forall i | 0 <= i < |dp.chosen|
      ensures ChosenOk(dp.(acked := dp.acked + 1), i, dp.chosen[i], st'.sessions[dp.chosen[i]], Live(st', dp.chosen[i]),
                       st'.log)
    {
      assert ChosenOk(dp, i, dp.chosen[i], st.sessions[dp.chosen[i]], Live(st, dp.chosen[i]), st.log);
      if i == dp.acked {
        AnsweredChosenOk(dp, s, st.sessions[s], Live(st, s), st.log);
      } else {
        assert dp.chosen[i] != s;
      }
    }
  }

  lemma AnswerKeeps(st: State)
    requires Inv(st) && CanAwait(st)
    requires st.sessions[st.deploy.value.chosen[st.deploy.value.acked]].acks[0] == Ack(st.deploy.value.req, true)
    ensures Inv(AwaitStep(st))
  {
    var dp := st.deploy.value;
    var s := dp.chosen[dp.acked];
    var taken, st' := TakeStep(st, s), AwaitStep(st);
    TakeKeeps(st, s);
    SameStreamsKeep(taken, st');
    assert forall x :: Live(st', x) == Live(taken, x);
    AnswerKeepsDeploy(st, st', dp, s);
    LogKept(taken, st');
  }

  lemma AwaitKeeps(st: State)
    requires Inv(st) && CanAwait(st)
    ensures Inv(AwaitStep(st))
  {
    var dp := st.deploy.value;
    var s := dp.chosen[dp.acked];
    var ack := st.sessions[s].acks[0];
    if ack == Ack(dp.req, true) {
      AnswerKeeps(st);
    } else {
      TakeKeeps(st, s);
      if ack.req == dp.req {
        EndKeeps(TakeStep(st, s), false);
      }
    }
  }

  lemma CommittedChosenOk(dp: Deploy, i: nat, s: SessionId, ss: Session, live: Option<TableState>, log: seq<Event>,
                          log': seq<Event>)
    requires dp.phase == Preparing && i < dp.acked <= dp.sent && ChosenOk(dp, i, s, ss, live, log)
    ensures ChosenOk(dp.(phase := Activating, sent := 0, acked := 0), i, s, ss, live, log')
  {
  }

  lemma CommitKeepsDeploy(st: State, st': State, e: Event)
    requires Inv(st) && CanCommit(st) && Later(st, st') && st'.nodes == st.nodes && st'.sessions == st.sessions
    requires st'.log == st.log + [e] && e == CommitEvent(st.deploy.value.req, st.deploy.value.change)
    requires st'.deploy == Some(st.deploy.value.(phase := Activating, sent := 0, acked := 0))
    requires st.deploy.value.change.RouteChange? ==>
               1 <= st.deploy.value.change.route.version <= Version(st'.store, st.deploy.value.change.route.deviceId)
    ensures NodesOk(st') && SessionsOk(st') && DeployOk(st') && LogOk(st')
  {
    SameStreamsKeep(st, st');
    var dp, dp' := st.deploy.value, st'.deploy.value;
    forall i | 0 <= i < |dp.chosen|
      ensures ChosenOk(dp', i, dp.chosen[i], st'.sessions[dp.chosen[i]], Live(st', dp.chosen[i]), st'.log)
    {
      assert Live(st', dp.chosen[i]) == Live(st, dp.chosen[i]);
      assert ChosenOk(dp, i, dp.chosen[i], st.sessions[dp.chosen[i]], Live(st, dp.chosen[i]), st.log);
      CommittedChosenOk(dp, i, dp.chosen[i], st.sessions[dp.chosen[i]], Live(st, dp.chosen[i]), st.log, st'.log);
    }
    assert st'.log[|st.log|] == e;
    LogExtended(st, st', e);
  }

  lemma CommitKeeps(st: State)
    requires Inv(st) && CanCommit(st)
    ensures Inv(CommitStep(st))
  {
    var dp := st.deploy.value;
    if !CommitSucceeds(st, dp.change) {
      EndKeeps(st, false);
    } else {
      match dp.change
      case RouteChange(r) =>
        var st' := CommitRouteStep(st, dp, r);
        ActivateKeepsRoutes(st.store, r.deviceId, r.version);
        ActivateKeepsHistory(st.store, st.commits, r.deviceId, r.version);
        assert HistoryAt(st'.store, st'.commits, r.deviceId);
        CommitKeepsDeploy(st, st', CommittedRoute(dp.req, r));
      case DeviceChange(d, op) =>
        var st' := CommitDeviceStep(st, dp, d, op);
        DeviceOpsKeepBindings(st.store, op);
        BindingsKeepHistory(st.store, st'.store, st.commits);
        CommitKeepsDeploy(st, st', CommittedDevice(dp.req, d));
    }
  }

  // ---------------------------------------------------------------------------
  // Everything around the deployment: other operations, connections, restarts
  // ---------------------------------------------------------------------------

  lemma NotifiedAwaitsPrepare(ss: Session, ss': Session, live: Option<TableState>, req: RequestId, change: Change,
                              f: Frame)
    requires AwaitsPrepare(ss, live, req, change) && f.req != req && Harmless(f) && ss' == ss.(queue := ss.queue + [f])
    ensures AwaitsPrepare(ss', live, req, change)
  {
    forall k | 0 <= k < |ss'.queue| && ss'.queue[k].req == req
      ensures ss'.queue[k] == PrepareFrame(req, change) && AllHarmless(ss'.queue[k + 1..])
    {
      assert ss'.queue[k] == ss.queue[k] && ss'.queue[k + 1..] == ss.queue[k + 1..] + [f];
    }
    forall k | 0 <= k < |ss'.acks| && ss'.acks[k].req == req && ss'.acks[k].ok ensures Primed(ss', live, change) {
      assert Primed(ss, live, change);
    }
  }

  lemma NotifiedChosenOk(dp: Deploy, i: nat, s: SessionId, ss: Session, live: Option<TableState>, log: seq<Event>,
                         f: Frame)
    requires ChosenOk(dp, i, s, ss, live, log) && f.req != dp.req && Harmless(f)
    ensures ChosenOk(dp, i, s, ss.(queue := ss.queue + [f]), live, log)
  {
    var ss' := ss.(queue := ss.queue + [f]);
    if dp.phase == Preparing && dp.acked <= i < dp.sent {
      NotifiedAwaitsPrepare(ss, ss', live, dp.req, dp.change, f);
    }
  }

  lemma NotifyKeeps(st: State, s: SessionId, f: Frame)
    requires Inv(st) && CanNotify(st, s, f)
    ensures Inv(NotifyStep(st, s, f))
  {
    var st' := NotifyStep(st, s, f);
    var ss := st.sessions[s];
    assert SessionOk(st.store, st.log, st.nextReq, ss);
    assert OrderOk(ss.queue + [f]);
    OneStreamKeeps(st, st', s);
    if st.deploy.Some? {
      var dp := st.deploy.value;
      forall i | 0 <= i < |dp.chosen| && dp.chosen[i] == s
        ensures ChosenOk(dp, i, s, st'.sessions[s], Live(st, s), st.log)
      {
        assert ChosenOk(dp, i, dp.chosen[i], st.sessions[dp.chosen[i]], Live(st, dp.chosen[i]), st.log);
        NotifiedChosenOk(dp, i, s, ss, Live(st, s), st.log, f);
      }
    }
    OneStreamKeepsDeploy(st, st', s);
    LogKept(st, st');
  }

  lemma HeartbeatKeeps(st: State, s: SessionId, ready: bool)
    requires Inv(st) && s < |st.sessions| && (ready ==> st.sessions[s].snapshotSent)
    ensures Inv(WithSession(st, s, st.sessions[s].(ready := ready)))
  {
    var st' := WithSession(st, s, st.sessions[s].(ready := ready));
    OneStreamKeeps(st, st', s);
    if st.deploy.Some? {
      var dp := st.deploy.value;
      forall i | 0 <= i < |dp.chosen| && dp.chosen[i] == s
        ensures ChosenOk(dp, i, s, st'.sessions[s], Live(st, s), st.log)
      {
        assert ChosenOk(dp, i, dp.chosen[i], st.sessions[dp.chosen[i]], Live(st, dp.chosen[i]), st.log);
      }
    }
    OneStreamKeepsDeploy(st, st', s);
    LogKept(st, st');
  }

  /** A snapshot read now is nowhere behind a table that is not ahead of the store. */
  lemma SnapshotDominates(store: StoreState, routes: seq<Route>, active: map<DeviceId, Route>)
    requires MemoryStore.RoutesOk(store) && Lists(routes, store.routes) && NotAhead(store, active)
    ensures Dominates(LoadActive(routes), active) && NotAhead(store, LoadActive(routes))
  {
    LoadInvertsListing(routes, store.routes);
    forall d | d in active ensures d in store.routes {
      assert 1 <= active[d].version <= Version(store, d);
    }
  }

  lemma ReadSnapshotKeeps(st: State, s: SessionId, routes: seq<Route>)
    requires Inv(st) && CanReadSnapshot(st, s, routes)
    ensures Inv(ReadSnapshotStep(st, s, routes))
  {
    var st' := ReadSnapshotStep(st, s, routes);
    var ss, ss' := st.sessions[s], st'.sessions[s];
    assert SessionOk(st.store, st.log, st.nextReq, ss);
    SnapshotDominates(st.store, routes, map[]);
    assert forall i :: 0 < i < |ss'.queue| ==> ss'.queue[i] == ss.queue[i - 1];
    assert OrderOk(ss'.queue);
    assert SessionOk(st'.store, st'.log, st'.nextReq, ss');
    if Live(st, s).Some? {
      assert MemoryOk(st.store, st.nodes[ss.gateway].memory);
      SnapshotDominates(st.store, routes, Live(st, s).value.active);
      assert StreamOk(ss'.queue, Live(st, s).value);
    }
    OneStreamKeeps(st, st', s);
    OneStreamKeepsDeploy(st, st', s);
    LogKept(st, st');
  }

  /** A gateway that leaves its stream makes that stream dead; nothing else about streams changes. */
  lemma DetachKeeps(st: State, g: GatewayId, node: Node)
    requires Inv(st) && g in st.nodes && node.stream == None && MemoryOk(st.store, node.memory)
    ensures Inv(st.(nodes := st.nodes[g := node]))
  {
    var st' := st.(nodes := st.nodes[g := node]);
    DetachKeepsStreams(st, st', g, node);
    DetachKeepsDeploy(st, st');
    LogKept(st, st');
  }

  lemma DetachKeepsStreams(st: State, st': State, g: GatewayId, node: Node)
    requires NodesOk(st) && SessionsOk(st) && g in st.nodes && node.stream == None && MemoryOk(st.store, node.memory)
    requires st' == st.(nodes := st.nodes[g := node])
    ensures NodesOk(st') && SessionsOk(st')
    ensures forall s :: Live(st', s) == Live(st, s) || Live(st', s) == None
  {
    forall s | 0 <= s < |st'.sessions|
      ensures SessionOk(st'.store, st'.log, st'.nextReq, st'.sessions[s])
      ensures Live(st', s).Some? ==> StreamOk(st'.sessions[s].queue, Live(st', s).value)
    {
      assert SessionOk(st.store, st.log, st.nextReq, st.sessions[s]);
      assert Live(st', s) == Live(st, s) || Live(st', s) == None;
    }
  }

  lemma DetachKeepsDeploy(st: State, st': State)
    requires DeployOk(st) && Later(st, st') && st'.deploy == st.deploy && st'.log == st.log
             && st.sessions <= st'.sessions
    requires forall s :: 0 <= s < |st.sessions| ==> Live(st', s) == Live(st, s) || Live(st', s) == None
    ensures DeployOk(st')
  {
    if st.deploy.Some? {
      var dp := st.deploy.value;
      forall i | 0 <= i < |dp.chosen|
        ensures ChosenOk(dp, i, dp.chosen[i], st'.sessions[dp.chosen[i]], Live(st', dp.chosen[i]), st'.log)
      {
        var s := dp.chosen[i];
        assert ChosenOk(dp, i, s, st.sessions[s], Live(st, s), st.log) && st'.sessions[s] == st.sessions[s];
        ChosenForgets(dp, i, s, st.sessions[s], Live(st, s), st.log);
      }
    }
  }

  lemma DisconnectKeeps(st: State, g: GatewayId)
    requires Inv(st) && g in st.nodes
    ensures Inv(st.(nodes := st.nodes[g := st.nodes[g].(stream := None)]))
  {
    DetachKeeps(st, g, st.nodes[g].(stream := None));
  }

  lemma RestartKeeps(st: State, g: GatewayId, fromDisk: bool)
    requires Inv(st) && g in st.nodes
    ensures Inv(RestartStep(st, g, fromDisk))
  {
    var m := st.nodes[g].memory;
    RestartedMemoryOk(st.store, m, fromDisk);
    DetachKeeps(st, g, RestartStep(st, g, fromDisk).nodes[g]);
  }

  lemma RestartedMemoryOk(store: StoreState, m: GatewayMemory, fromDisk: bool)
    requires MemoryOk(store, m)
    ensures MemoryOk(store, m.(table := if fromDisk && m.disk.Some? then Loaded(m.disk.value) else RouteTable.EMPTY))
  {
    if m.disk.Some? {
      ApplyKeepsConsistent(RouteTable.EMPTY, LoadOp(m.disk.value));
    }
  }

  /** Connecting is leaving the old stream and joining an empty one. */
  lemma ConnectKeeps(st: State, g: GatewayId)
    requires Inv(st) && g in st.nodes
    ensures Inv(ConnectStep(st, g))
  {
    var left := st.(nodes := st.nodes[g := st.nodes[g].(stream := None)]);
    DisconnectKeeps(st, g);
    ConnectAttaches(st, left, g);
    AttachKeeps(left, ConnectStep(st, g), g);
  }

  lemma ConnectAttaches(st: State, left: State, g: GatewayId)
    requires g in st.nodes && left == st.(nodes := st.nodes[g := st.nodes[g].(stream := None)])
    ensures Attached(left, ConnectStep(st, g), g)
  {
  }

  lemma AttachKeeps(st: State, st': State, g: GatewayId)
    requires Inv(st) && Attached(st, st', g)
    requires st'.store == st.store && st'.commits == st.commits && st'.deploy == st.deploy
    requires st'.log == st.log && st'.nextReq == st.nextReq
    ensures Inv(st')
  {
    AttachedStreams(st, st', g);
    AttachKeepsStreams(st, st', g);
    DetachKeepsDeploy(st, st');
    LogKept(st, st');
  }

  ghost predicate Attached(st: State, st': State, g: GatewayId) {
    && g in st.nodes && st.nodes[g].stream == None
    && st'.sessions == st.sessions + [Session(g, false, [], [], false)]
    && st'.nodes == st.nodes[g := st.nodes[g].(stream := Some(|st.sessions|))]
  }

  /** Joining a new stream shows on no other. */
  lemma AttachedStreams(st: State, st': State, g: GatewayId)
    requires Attached(st, st', g)
    ensures forall s :: 0 <= s < |st.sessions| ==> st'.sessions[s] == st.sessions[s] && Live(st', s) == Live(st, s)
  {
  }

  lemma AttachKeepsStreams(st: State, st': State, g: GatewayId)
    requires NodesOk(st) && SessionsOk(st) && Attached(st, st', g)
    requires st'.store == st.store && st'.log == st.log && st'.nextReq == st.nextReq
    ensures NodesOk(st') && SessionsOk(st')
  {
    AttachedStreams(st, st', g);
    forall s | 0 <= s < |st'.sessions|
      ensures SessionOk(st'.store, st'.log, st'.nextReq, st'.sessions[s])
      ensures Live(st', s).Some? ==> StreamOk(st'.sessions[s].queue, Live(st', s).value)
    {
      if s < |st.sessions| {
        assert SessionOk(st.store, st.log, st.nextReq, st.sessions[s]);
      }
    }
  }

  lemma HubKeeps(st: State, hub: map<GatewayId, SessionId>, ops: set<Route>)
    requires Inv(st)
    ensures Inv(st.(hub := hub, ops := ops))
  {
    var st' := st.(hub := hub, ops := ops);
    SameStreamsKeep(st, st');
    SameDeployKept(st, st');
    LogKept(st, st');
  }

  // ---------------------------------------------------------------------------
  // A gateway handles a frame
  // ---------------------------------------------------------------------------

  lemma HandledMemoryOk(store: StoreState, log: seq<Event>, m: GatewayMemory, f: Frame, m': GatewayMemory, ok: bool)
    requires MemoryOk(store, m) && FrameOk(store, log, f) && MemoryStep(m, f, m', ok)
    requires f.Activate? ==> CanActivate(m.table, f.route.value) ==>
               m.table.pending[f.route.value.deviceId] == f.route.value
    ensures MemoryOk(store, m')
  {
    match f
    case Snapshot(_, routes) => ApplyKeepsConsistent(m.table, LoadOp(routes));
    case Prepare(_, Some(r)) => ApplyKeepsConsistent(m.table, PrepareOp(r));
    case Activate(_, Some(r)) => ApplyKeepsConsistent(m.table, TableOp.ActivateOp(r));
    case DeviceUpdate(_, Some(d)) => ApplyKeepsConsistent(m.table, UpdateOp(d));
    case _ =>
  }

  lemma HarmlessKeepsPending(t: TableState, f: Frame, t': TableState, ok: bool)
    requires Harmless(f) && TableStep(t, f, t', ok)
    ensures t'.pending == t.pending
  {
  }

  lemma HandledStreamOk(q: seq<Frame>, t: TableState, t': TableState, ok: bool)
    requires q != [] && OrderOk(q) && StreamOk(q, t) && TableStep(t, q[0], t', ok)
    ensures OrderOk(q[1..]) && StreamOk(q[1..], t')
  {
    forall i | 0 <= i < |q[1..]| && q[1..][i].Activate? ensures t'.pending == t.pending {
      assert q[1..][i] == q[i + 1];
      HarmlessKeepsPending(t, q[0], t', ok);
    }
  }

  lemma HandledSessionOk(store: StoreState, log: seq<Event>, log': seq<Event>, n: RequestId, ss: Session, ok: bool)
    requires SessionOk(store, log, n, ss) && ss.queue != [] && ss.snapshotSent && log <= log' && OrderOk(ss.queue[1..])
    ensures SessionOk(store, log', n, ss.(queue := ss.queue[1..], acks := ss.acks + [Ack(ss.queue[0].req, ok)]))
  {
    SessionGrows(store, log, n, store, log', n, ss);
  }

  lemma HandledPrimed(ss: Session, ss': Session, t: TableState, t': TableState, ok: bool, change: Change)
    requires ss.queue != [] && Primed(ss, Some(t), change) && TableStep(t, ss.queue[0], t', ok)
             && ss'.queue == ss.queue[1..]
    ensures Primed(ss', Some(t'), change)
  {
    HarmlessKeepsPending(t, ss.queue[0], t', ok);
  }

  lemma HandledOnce(ss: Session, ss': Session, req: RequestId, ok: bool)
    requires Once(ss, req) && ss.queue != []
    requires ss'.queue == ss.queue[1..] && ss'.acks == ss.acks + [Ack(ss.queue[0].req, ok)]
    ensures Once(ss', req)
    ensures ss.queue[0].req == req ==> forall k :: 0 <= k < |ss'.queue| ==> ss'.queue[k].req != req
  {
    assert forall k :: 0 <= k < |ss'.queue| ==> ss'.queue[k] == ss.queue[k + 1];
    assert forall k :: 0 <= k < |ss.acks| ==> ss'.acks[k] == ss.acks[k];
  }

  lemma HandledAwaitsPrepare(ss: Session, ss': Session, t: TableState, t': TableState, ok: bool, req: RequestId,
                             change: Change)
    requires AwaitsPrepare(ss, Some(t), req, change) && ss.queue != [] && TableStep(t, ss.queue[0], t', ok)
    requires ss'.queue == ss.queue[1..] && ss'.acks == ss.acks + [Ack(ss.queue[0].req, ok)]
    ensures AwaitsPrepare(ss', Some(t'), req, change)
  {
    HandledOnce(ss, ss', req, ok);
    forall k | 0 <= k < |ss'.queue| && ss'.queue[k].req == req
      ensures ss'.queue[k] == PrepareFrame(req, change) && AllHarmless(ss'.queue[k + 1..])
    {
      assert ss'.queue[k] == ss.queue[k + 1] && ss'.queue[k + 1..] == ss.queue[k + 2..];
    }
    forall k | 0 <= k < |ss'.acks| && ss'.acks[k].req == req && ss'.acks[k].ok ensures Primed(ss', Some(t'), change) {
      if k < |ss.acks| {
        assert ss'.acks[k] == ss.acks[k];
        HandledPrimed(ss, ss', t, t', ok, change);
      } else {
        assert ss.queue[0] == PrepareFrame(req, change) && ss'.queue == ss.queue[0 + 1..];
      }
    }
  }

  /** The gateway's positive answer to ACTIVATE comes with the entry that the change is in place. */
  lemma HandledAwaitsActivate(ss: Session, ss': Session, s: SessionId, t: TableState, t': TableState, ok: bool,
                              req: RequestId, change: Change, log: seq<Event>)
    requires AwaitsActivate(ss, s, req, change, log) && ss.queue != [] && TableStep(t, ss.queue[0], t', ok)
             && StreamOk(ss.queue, t)
    requires ss'.queue == ss.queue[1..] && ss'.acks == ss.acks + [Ack(ss.queue[0].req, ok)]
    ensures AwaitsActivate(ss', s, req, change, log + HandleEvents(s, ss.queue[0], t, t'))
  {
    var log' := log + HandleEvents(s, ss.queue[0], t, t');
    HandledOnce(ss, ss', req, ok);
    forall k | 0 <= k < |ss'.acks| && ss'.acks[k].req == req && ss'.acks[k].ok
      ensures DoneEvent(s, req, change) in log'
    {
      if k < |ss.acks| {
        assert ss'.acks[k] == ss.acks[k];
      } else {
        assert ss.queue[0] == ActivateFrame(req, change);
        assert DoneEvent(s, req, change) in HandleEvents(s, ss.queue[0], t, t');
      }
    }
  }

  lemma HandledChosenOk(dp: Deploy, i: nat, s: SessionId, ss: Session, ss': Session, t: TableState, t': TableState,
                        ok: bool, log: seq<Event>)
    requires ChosenOk(dp, i, s, ss, Some(t), log) && ss.queue != [] && TableStep(t, ss.queue[0], t', ok)
             && StreamOk(ss.queue, t)
    requires ss'.queue == ss.queue[1..] && ss'.acks == ss.acks + [Ack(ss.queue[0].req, ok)]
    ensures ChosenOk(dp, i, s, ss', Some(t'), log + HandleEvents(s, ss.queue[0], t, t'))
  {
    if dp.acked <= i < dp.sent {
      if dp.phase == Preparing {
        HandledAwaitsPrepare(ss, ss', t, t', ok, dp.req, dp.change);
      } else {
        HandledAwaitsActivate(ss, ss', s, t, t', ok, dp.req, dp.change, log);
      }
    } else if Primed(ss, Some(t), dp.change) {
      HandledPrimed(ss, ss', t, t', ok, dp.change);
    }
  }

  /** What is known about the frame at the head of a gateway's stream. */
  lemma HeadOk(st: State, g: GatewayId, s: SessionId)
    requires NodesOk(st) && SessionsOk(st) && g in st.nodes && st.nodes[g].stream == Some(s)
    ensures s < |st.sessions| && st.sessions[s].gateway == g && Live(st, s) == Some(st.nodes[g].memory.table)
    ensures MemoryOk(st.store, st.nodes[g].memory)
    ensures SessionOk(st.store, st.log, st.nextReq, st.sessions[s])
    ensures StreamOk(st.sessions[s].queue, st.nodes[g].memory.table)
    ensures st.sessions[s].queue != [] ==> FrameOk(st.store, st.log, st.sessions[s].queue[0])
  {
  }

  /** Handling a frame shows on no other stream. */
  lemma HandleIsLocal(st: State, g: GatewayId, memory: GatewayMemory, ok: bool, x: SessionId)
    requires NodesOk(st) && CanHandle(st, g, memory, ok) && x < |st.sessions|
    ensures var st' := HandleStep(st, g, memory, ok);
            && (Some(x) != st.nodes[g].stream ==> st'.sessions[x] == st.sessions[x] && Live(st', x) == Live(st, x))
            && (Some(x) == st.nodes[g].stream ==> Live(st', x) == Some(memory.table) && st'.sessions[x].gateway == g)
  {
  }

  lemma HandleKeepsNodes(st: State, g: GatewayId, memory: GatewayMemory, ok: bool)
    requires NodesOk(st) && SessionsOk(st) && CanHandle(st, g, memory, ok)
    ensures NodesOk(HandleStep(st, g, memory, ok))
  {
    var s := st.nodes[g].stream.value;
    HeadOk(st, g, s);
    HandledMemoryOk(st.store, st.log, st.nodes[g].memory, st.sessions[s].queue[0], memory, ok);
  }

  lemma HandleKeepsSessions(st: State, g: GatewayId, memory: GatewayMemory, ok: bool)
    requires NodesOk(st) && SessionsOk(st) && CanHandle(st, g, memory, ok)
    ensures SessionsOk(HandleStep(st, g, memory, ok))
  {
    var st' := HandleStep(st, g, memory, ok);
    var s := st.nodes[g].stream.value;
    HeadOk(st, g, s);
    HandledStreamOk(st.sessions[s].queue, st.nodes[g].memory.table, memory.table, ok);
    HandledSessionOk(st.store, st.log, st'.log, st.nextReq, st.sessions[s], ok);
    forall x | 0 <= x < |st'.sessions|
      ensures SessionOk(st'.store, st'.log, st'.nextReq, st'.sessions[x])
      ensures Live(st', x).Some? ==> StreamOk(st'.sessions[x].queue, Live(st', x).value)
    {
      HandleIsLocal(st, g, memory, ok, x);
      if x != s {
        SessionGrows(st.store, st.log, st.nextReq, st.store, st'.log, st.nextReq, st.sessions[x]);
      }
    }
  }

  lemma HandleKeepsChosen(st: State, g: GatewayId, memory: GatewayMemory, ok: bool, dp: Deploy, i: nat)
    requires NodesOk(st) && SessionsOk(st) && CanHandle(st, g, memory, ok) && i < |dp.chosen|
             && dp.chosen[i] < |st.sessions|
    requires ChosenOk(dp, i, dp.chosen[i], st.sessions[dp.chosen[i]], Live(st, dp.chosen[i]), st.log)
    ensures var st' := HandleStep(st, g, memory, ok);
            ChosenOk(dp, i, dp.chosen[i], st'.sessions[dp.chosen[i]], Live(st', dp.chosen[i]), st'.log)
  {
    var st', x, s := HandleStep(st, g, memory, ok), dp.chosen[i], st.nodes[g].stream.value;
    HandleIsLocal(st, g, memory, ok, x);
    if x == s {
      HeadOk(st, g, s);
      HandledChosenOk(dp, i, s, st.sessions[s], st'.sessions[s], st.nodes[g].memory.table, memory.table, ok, st.log);
    } else {
      ChosenGrows(dp, i, x, st.sessions[x], Live(st, x), st.log, st'.log);
    }
  }

  lemma HandleKeepsDeploy(st: State, g: GatewayId, memory: GatewayMemory, ok: bool)
    requires NodesOk(st) && SessionsOk(st) && DeployOk(st) && CanHandle(st, g, memory, ok)
    ensures DeployOk(HandleStep(st, g, memory, ok))
  {
    if st.deploy.Some? {
      var st', dp, s := HandleStep(st, g, memory, ok), st.deploy.value, st.nodes[g].stream.value;
      forall i | 0 <= i < |dp.chosen|
        ensures ChosenOk(dp, i, dp.chosen[i], st'.sessions[dp.chosen[i]], Live(st', dp.chosen[i]), st'.log)
      {
        HandleKeepsChosen(st, g, memory, ok, dp, i);
      }
      HeadOk(st, g, s);
      EventsFollowCommit(s, st.store, st.log, st.sessions[s].queue[0], st.nodes[g].memory.table, memory.table);
    }
  }

  /** Whatever a frame logs, it logs under a request that has committed. */
  lemma EventsFollowCommit(s: SessionId, store: StoreState, log: seq<Event>, f: Frame, t: TableState, t': TableState)
    requires FrameOk(store, log, f)
    ensures |HandleEvents(s, f, t, t')| <= 1
    ensures forall e :: e in HandleEvents(s, f, t, t') ==>
              && e.req == f.req && (e.InstalledRoute? || e.InstalledDevice?)
              && exists c :: 0 <= c < |log| && log[c].req == e.req
  {
  }

  lemma HandledEntryOk(log: seq<Event>, s: SessionId, store: StoreState, f: Frame, t: TableState, t': TableState,
                       ok: bool)
    requires FrameOk(store, log, f) && TableStep(t, f, t', ok) && StreamOk([f], t) && HandleEvents(s, f, t, t') != []
    ensures EntryOk(log + HandleEvents(s, f, t, t'), |log|)
  {
    var log' := log + HandleEvents(s, f, t, t');
    assert [f][0] == f;
    if f.Activate? {
      var c :| 0 <= c < |log| && log[c] == CommittedRoute(f.req, f.route.value);
      assert log'[c] == log[c];
    } else {
      var c :| 0 <= c < |log| && log[c] == CommittedDevice(f.req, f.device.value);
      assert log'[c] == log[c];
    }
  }

  lemma HandleKeepsLog(st: State, g: GatewayId, memory: GatewayMemory, ok: bool)
    requires NodesOk(st) && SessionsOk(st) && LogOk(st) && CanHandle(st, g, memory, ok)
    ensures LogOk(HandleStep(st, g, memory, ok))
  {
    var st', s := HandleStep(st, g, memory, ok), st.nodes[g].stream.value;
    var f, t := st.sessions[s].queue[0], st.nodes[g].memory.table;
    HeadOk(st, g, s);
    var events := HandleEvents(s, f, t, memory.table);
    EventsFollowCommit(s, st.store, st.log, f, t, memory.table);
    if events == [] {
      assert st'.log == st.log;
      LogKept(st, st');
    } else {
      HandledEntryOk(st.log, s, st.store, f, t, memory.table, ok);
      assert events == [events[0]] && events[0] in events;
      LogExtended(st, st', events[0]);
    }
  }

  // ---------------------------------------------------------------------------
  // The invariant holds in every state of every run
  // ---------------------------------------------------------------------------

  /** The steps of the API and of the deployment itself; the others belong to streams and gateways. */
  predicate OfDeployment(l: Label) {
    l.Stage? || l.Drop? || l.Create? || l.Begin? || l.Send? || l.Await? || l.Abort? || l.Commit? || l.Finish?
  }

  lemma DeploymentStepKeeps(st: State, l: Label)
    requires Inv(st) && Enabled(st, l) && OfDeployment(l)
    ensures Inv(Step(st, l))
  {
    match l
    case Stage(r, expected) => StageKeeps(st, r, expected);
    case Drop(r) => HubKeeps(st, st.hub, st.ops - {r});
    case Create(d) => CreateKeeps(st, d);
    case Begin(change, chosen) => BeginKeeps(st, change, chosen);
    case Send => SendKeeps(st);
    case Await => AwaitKeeps(st);
    case Abort => EndKeeps(st, false);
    case Commit => CommitKeeps(st);
    case Finish => EndKeeps(st, true);
    case _ =>
  }

  lemma StreamStepKeeps(st: State, l: Label)
    requires Inv(st) && Enabled(st, l) && !OfDeployment(l)
    ensures Inv(Step(st, l))
  {
    match l
    case Notify(s, f) => NotifyKeeps(st, s, f);
    case Take(s) => TakeKeeps(st, s);
    case Connect(g) => ConnectKeeps(st, g);
    case ReadSnapshot(s, routes) => ReadSnapshotKeeps(st, s, routes);
    case Heartbeat(s, ready) => HeartbeatKeeps(st, s, ready);
    case Unregister(g) => HubKeeps(st, st.hub - {g}, st.ops);
    case Disconnect(g) => DisconnectKeeps(st, g);
    case Restart(g, fromDisk) => RestartKeeps(st, g, fromDisk);
    case Handle(g, memory, ok) => HandleKeeps(st, g, memory, ok);
    case _ =>
  }

  lemma HandleKeeps(st: State, g: GatewayId, memory: GatewayMemory, ok: bool)
    requires Inv(st) && CanHandle(st, g, memory, ok)
    ensures Inv(HandleStep(st, g, memory, ok))
  {
    HandleKeepsNodes(st, g, memory, ok);
    HandleKeepsSessions(st, g, memory, ok);
    HandleKeepsDeploy(st, g, memory, ok);
    HandleKeepsLog(st, g, memory, ok);
  }

  lemma StepKeeps(st: State, l: Label)
    requires Inv(st) && Enabled(st, l)
    ensures Inv(Step(st, l))
  {
    if OfDeployment(l) {
      DeploymentStepKeeps(st, l);
    } else {
      StreamStepKeeps(st, l);
    }
  }

  lemma InitKeeps(st: State)
    requires Init(st)
    ensures Inv(st)
  {
  }

  lemma {:induction false} RunKeeps(states: seq<State>, labels: seq<Label>, n: nat)
    requires IsRun(states, labels) && n <= |labels|
    ensures Inv(states[n])
    decreases n
  {
    if n == 0 {
      InitKeeps(states[0]);
    } else {
      RunKeeps(states, labels, n - 1);
      RunKeepsOnce(states, labels, n - 1);
    }
  }

  lemma RunKeepsOnce(states: seq<State>, labels: seq<Label>, n: nat)
    requires IsRun(states, labels) && n < |labels| && Inv(states[n])
    ensures Inv(states[n + 1])
  {
    RunMoves(states, labels, n);
    MoveKeeps(states[n], labels[n], states[n + 1]);
  }

  lemma MoveKeeps(st: State, l: Label, st': State)
    requires Inv(st) && Moves(st, l, st')
    ensures Inv(st')
  {
    StepKeeps(st, l);
  }
}
