/** When do two gateways at the same version of a device hold the same upstream credential?

    Staging happens outside the deploy lock (internal/control/api.go:419-427) and the table's Activate
    checks only the version (internal/dataplane/table.go:42-54), so agreement rests on one condition:
    the route a commit activates in the store is the one that was broadcast. It is met whenever no
    second StageRoute for a device lands between a stage and its commit, and without it agreement fails. */
module CredentialAgreement {
  import opened Model
  import opened RouteTable
  import opened Wire
  import opened Deployment
  import opened DeploymentInvariant
  import opened DeploymentTheorems
  import opened MemoryStore
  import opened StoreRuns

  type Record = map<DeviceId, seq<Credential>>

  /** The route carries the credential that the commit of its version recorded. */
  ghost predicate Recorded(commits: Record, r: Route) {
    1 <= r.version <= |History(commits, r.deviceId)| && History(commits, r.deviceId)[r.version - 1] == r.credential
  }

  ghost predicate AllRecorded(commits: Record, m: map<DeviceId, Route>) {
    forall d :: d in m ==> Recorded(commits, m[d])
  }

  ghost predicate FrameRecorded(commits: Record, f: Frame) {
    match f
    case Snapshot(_, routes) => AllRecorded(commits, LoadActive(routes))
    case Activate(_, Some(r)) => Recorded(commits, r)
    case _ => true
  }

  ghost predicate MemoryRecorded(commits: Record, m: GatewayMemory) {
    AllRecorded(commits, m.table.active) && (m.disk.Some? ==> AllRecorded(commits, LoadActive(m.disk.value)))
  }

  ghost predicate QueueRecorded(commits: Record, q: seq<Frame>) {
    forall k :: 0 <= k < |q| ==> FrameRecorded(commits, q[k])
  }

  ghost predicate DeployRecorded(st: State) {
    st.deploy.Some? && st.deploy.value.phase == Activating && st.deploy.value.change.RouteChange? ==>
      Recorded(st.commits, st.deploy.value.change.route)
  }

  /** Everywhere a route is active, or about to be, it carries the committed credential of its version. */
  ghost predicate Agreed(st: State) {
    && (forall g :: g in st.nodes ==> MemoryRecorded(st.commits, st.nodes[g].memory))
    && (forall s :: 0 <= s < |st.sessions| ==> QueueRecorded(st.commits, st.sessions[s].queue))
    && DeployRecorded(st)
  }

  /** The commit activates in the store the credential that was broadcast to the gateways. */
  ghost predicate Faithful(st: State, l: Label) {
    l.Commit? && st.deploy.Some? && st.deploy.value.change.RouteChange? ==>
      var r := st.deploy.value.change.route;
      CommitSucceeds(st, RouteChange(r)) ==> st.store.pending[r.deviceId].credential == r.credential
  }

  // ---------------------------------------------------------------------------
  // Faithful commits are enough
  // ---------------------------------------------------------------------------

  ghost predicate Extends(commits: Record, commits': Record) {
    forall d :: History(commits, d) <= History(commits', d)
  }

  lemma QueueStaysRecorded(commits: Record, commits': Record, q: seq<Frame>)
    requires QueueRecorded(commits, q) && Extends(commits, commits')
    ensures QueueRecorded(commits', q)
  {
    forall k | 0 <= k < |q| ensures FrameRecorded(commits', q[k]) {
      assert FrameRecorded(commits, q[k]);
    }
  }

  lemma MemoryStaysRecorded(commits: Record, commits': Record, m: GatewayMemory)
    requires MemoryRecorded(commits, m) && Extends(commits, commits')
    ensures MemoryRecorded(commits', m)
  {
  }

  /** A commit that moves no frame and no table. */
  lemma CommitKeepsAgreed(st: State)
    requires Inv(st) && CanCommit(st) && Agreed(st) && Faithful(st, Commit)
    ensures Agreed(CommitStep(st))
  {
    var st' := CommitStep(st);
    var dp := st.deploy.value;
    assert Extends(st.commits, st'.commits);
    forall g | g in st'.nodes ensures MemoryRecorded(st'.commits, st'.nodes[g].memory) {
      MemoryStaysRecorded(st.commits, st'.commits, st.nodes[g].memory);
    }
    forall s | 0 <= s < |st'.sessions| ensures QueueRecorded(st'.commits, st'.sessions[s].queue) {
      QueueStaysRecorded(st.commits, st'.commits, st.sessions[s].queue);
    }
    if CommitSucceeds(st, dp.change) && dp.change.RouteChange? {
      CommittedRouteIsRecorded(st, dp, dp.change.route);
    }
  }

  lemma CommittedRouteIsRecorded(st: State, dp: Deploy, r: Route)
    requires HistoryOk(st.store, st.commits) && ActivateRoute(st.store, r.deviceId, r.version).Ok?
    ensures var commits' := CommitRouteStep(st, dp, r).commits;
            && |History(commits', r.deviceId)| == r.version
            && History(commits', r.deviceId)[r.version - 1] == st.store.pending[r.deviceId].credential
  {
    ActivateKeepsRoutes(st.store, r.deviceId, r.version);
    assert HistoryAt(st.store, st.commits, r.deviceId);
  }

  lemma HandledMemoryRecorded(commits: Record, m: GatewayMemory, q: seq<Frame>, m': GatewayMemory, ok: bool)
    requires q != [] && MemoryRecorded(commits, m) && FrameRecorded(commits, q[0]) && StreamOk(q, m.table)
             && MemoryStep(m, q[0], m', ok)
    ensures MemoryRecorded(commits, m')
  {
    assert q[0] == q[0];
    assert AllRecorded(commits, m'.table.active);
  }

  lemma HandleKeepsAgreed(st: State, g: GatewayId, memory: GatewayMemory, ok: bool)
    requires Inv(st) && CanHandle(st, g, memory, ok) && Agreed(st)
    ensures Agreed(HandleStep(st, g, memory, ok))
  {
    var s := st.nodes[g].stream.value;
    HeadOk(st, g, s);
    assert QueueRecorded(st.commits, st.sessions[s].queue);
    HandledMemoryRecorded(st.commits, st.nodes[g].memory, st.sessions[s].queue, memory, ok);
  }

  lemma ReadSnapshotKeepsAgreed(st: State, s: SessionId, routes: seq<Route>)
    requires HistoryOk(st.store, st.commits) && CanReadSnapshot(st, s, routes) && Agreed(st)
    ensures Agreed(ReadSnapshotStep(st, s, routes))
  {
    StoreIsRecorded(st, routes);
    var q, q' := st.sessions[s].queue, ReadSnapshotStep(st, s, routes).sessions[s].queue;
    assert QueueRecorded(st.commits, q);
    assert forall k :: 0 < k < |q'| ==> q'[k] == q[k - 1];
  }

  lemma StoreIsRecorded(st: State, routes: seq<Route>)
    requires HistoryOk(st.store, st.commits) && Lists(routes, st.store.routes)
    ensures AllRecorded(st.commits, LoadActive(routes))
  {
    LoadInvertsListing(routes, st.store.routes);
    forall d | d in st.store.routes ensures Recorded(st.commits, st.store.routes[d]) {
      assert HistoryAt(st.store, st.commits, d);
    }
  }

  lemma AppendKeepsAgreed(st: State, s: SessionId, f: Frame)
    requires Agreed(st) && s < |st.sessions| && FrameRecorded(st.commits, f)
    ensures Agreed(WithSession(st, s, st.sessions[s].(queue := st.sessions[s].queue + [f])))
  {
    assert QueueRecorded(st.commits, st.sessions[s].queue);
  }

  lemma SendKeepsAgreed(st: State)
    requires Agreed(st) && CanSend(st)
    ensures Agreed(SendStep(st))
  {
    var dp := st.deploy.value;
    var f := if dp.phase == Preparing then PrepareFrame(dp.req, dp.change) else ActivateFrame(dp.req, dp.change);
    AppendKeepsAgreed(st, dp.chosen[dp.sent], f);
  }

  predicate MovesGateway(l: Label) {
    l.Connect? || l.Disconnect? || l.Restart?
  }

  lemma GatewayStepsKeepAgreed(st: State, l: Label)
    requires Agreed(st) && Enabled(st, l) && MovesGateway(l)
    ensures Agreed(Step(st, l))
  {
    var st' := Step(st, l);
    assert st'.commits == st.commits;
    assert forall s :: 0 <= s < |st.sessions| ==> st'.sessions[s].queue == st.sessions[s].queue;
    assert MemoryRecorded(st.commits, st.nodes[l.gateway].memory);
  }

  predicate LeavesFrames(l: Label) {
    !MovesGateway(l) && !l.Send? && !l.Notify? && !l.Commit? && !l.ReadSnapshot? && !l.Handle?
  }

  /** The remaining steps move no table and no frame, and do not begin an activation. */
  lemma OtherStepsLeaveFrames(st: State, l: Label, st': State)
    requires Moves(st, l, st') && LeavesFrames(l)
    ensures st'.commits == st.commits && st'.nodes == st.nodes && |st'.sessions| == |st.sessions|
    ensures forall s :: 0 <= s < |st.sessions| ==> st'.sessions[s].queue == st.sessions[s].queue
    ensures DeployRecorded(st) ==> DeployRecorded(st')
  {
  }

  lemma OtherStepsKeepAgreed(st: State, l: Label, st': State)
    requires Agreed(st) && Moves(st, l, st') && LeavesFrames(l)
    ensures Agreed(st')
  {
    OtherStepsLeaveFrames(st, l, st');
  }

  lemma StepKeepsAgreed(st: State, l: Label)
    requires Inv(st) && Enabled(st, l) && Agreed(st) && Faithful(st, l)
    ensures Agreed(Step(st, l))
  {
    if MovesGateway(l) {
      GatewayStepsKeepAgreed(st, l);
    } else if LeavesFrames(l) {
      OtherStepsKeepAgreed(st, l, Step(st, l));
    } else {
      match l
      case Send => SendKeepsAgreed(st);
      case Notify(s, f) => AppendKeepsAgreed(st, s, f);
      case Commit => CommitKeepsAgreed(st);
      case ReadSnapshot(s, routes) => ReadSnapshotKeepsAgreed(st, s, routes);
      case Handle(g, memory, ok) => HandleKeepsAgreed(st, g, memory, ok);
      case _ =>
    }
  }

  lemma {:induction false} FaithfulRunsAgree(states: seq<State>, labels: seq<Label>, n: nat)
    requires IsRun(states, labels) && n <= |labels|
    requires forall i :: 0 <= i < n ==> Faithful(states[i], labels[i])
    ensures Agreed(states[n])
    decreases n
  {
    if n > 0 {
      FaithfulRunsAgree(states, labels, n - 1);
      FaithfulStepAgrees(states, labels, n - 1);
    }
  }

  lemma FaithfulStepAgrees(states: seq<State>, labels: seq<Label>, n: nat)
    requires IsRun(states, labels) && n < |labels| && Faithful(states[n], labels[n]) && Agreed(states[n])
    ensures Agreed(states[n + 1])
  {
    RunKeeps(states, labels, n);
    RunMoves(states, labels, n);
    StepKeepsAgreed(states[n], labels[n]);
  }

  // ---------------------------------------------------------------------------
  // Staging one route of a device at a time makes every commit faithful
  // ---------------------------------------------------------------------------

  /** A stage lands only while no other route of that device waits for its commit. */
  ghost predicate Exclusive(st: State, l: Label) {
    l.Stage? ==> forall r :: r in st.ops ==> r.deviceId != l.route.deviceId
  }

  ghost predicate Slotted(store: StoreState, r: Route) {
    && r.deviceId in store.pending
    && store.pending[r.deviceId].version == r.version && store.pending[r.deviceId].credential == r.credential
  }

  /** Every route still waiting for its commit is the one in the store's pending slot. */
  ghost predicate OneWriter(st: State) {
    && (forall r :: r in st.ops ==> Slotted(st.store, r))
    && (forall r, q :: r in st.ops && q in st.ops && r.deviceId == q.deviceId ==> r == q)
    && DeployerWaits(st)
  }

  lemma EndKeepsOneWriter(st: State, ok: bool)
    requires OneWriter(st) && st.deploy.Some?
    ensures OneWriter(End(st, ok))
  {
  }

  lemma CommitKeepsOneWriter(st: State)
    requires OneWriter(st) && CanCommit(st) && DeployOk(st)
    ensures OneWriter(CommitStep(st))
  {
    var dp := st.deploy.value;
    if !CommitSucceeds(st, dp.change) {
      EndKeepsOneWriter(st, false);
    } else if dp.change.RouteChange? {
      RouteCommitKeepsOneWriter(st, dp, dp.change.route);
    } else {
      DeviceOpsKeepBindings(st.store, dp.change.commit);
    }
  }

  lemma RouteCommitKeepsOneWriter(st: State, dp: Deploy, r: Route)
    requires OneWriter(st) && r in st.ops && ActivateRoute(st.store, r.deviceId, r.version).Ok?
    ensures OneWriter(CommitRouteStep(st, dp, r))
  {
    var st' := CommitRouteStep(st, dp, r);
    forall q | q in st'.ops ensures Slotted(st'.store, q) {
      assert Slotted(st.store, q) && q.deviceId != r.deviceId;
    }
  }

  lemma StageKeepsOneWriter(st: State, r: Route, expected: int)
    requires OneWriter(st) && CanStage(st, r, expected) && Exclusive(st, Stage(r, expected))
    ensures OneWriter(StageStep(st, r, expected))
  {
    var st' := StageStep(st, r, expected);
    forall q | q in st'.ops ensures Slotted(st'.store, q) {
      if q != r {
        assert Slotted(st.store, q) && q.deviceId != r.deviceId;
      }
    }
  }

  lemma AwaitKeepsOneWriter(st: State)
    requires OneWriter(st) && CanAwait(st)
    ensures OneWriter(AwaitStep(st))
  {
    var taken := TakeStep(st, st.deploy.value.chosen[st.deploy.value.acked]);
    assert OneWriter(taken);
    EndKeepsOneWriter(taken, false);
  }

  predicate LeavesWriters(l: Label) {
    !l.Stage? && !l.Commit? && !l.Await? && !l.Abort? && !l.Finish?
  }

  ghost predicate DeployerWaits(st: State) {
    st.deploy.Some? && st.deploy.value.phase == Preparing && st.deploy.value.change.RouteChange? ==>
      st.deploy.value.change.route in st.ops
  }

  lemma OtherStepsLeaveWriters(st: State, l: Label, st': State)
    requires Moves(st, l, st') && LeavesWriters(l)
    ensures st'.store.pending == st.store.pending && st'.ops <= st.ops
    ensures DeployerWaits(st) ==> DeployerWaits(st')
  {
  }

  lemma OtherStepsKeepOneWriter(st: State, l: Label, st': State)
    requires OneWriter(st) && Moves(st, l, st') && LeavesWriters(l)
    ensures OneWriter(st')
  {
    OtherStepsLeaveWriters(st, l, st');
    forall r | r in st'.ops ensures Slotted(st'.store, r) {
      assert Slotted(st.store, r);
    }
  }

  lemma StepKeepsOneWriter(st: State, l: Label)
    requires OneWriter(st) && Enabled(st, l) && DeployOk(st) && Exclusive(st, l)
    ensures OneWriter(Step(st, l))
  {
    if LeavesWriters(l) {
      OtherStepsKeepOneWriter(st, l, Step(st, l));
    } else {
      match l
      case Stage(r, expected) => StageKeepsOneWriter(st, r, expected);
      case Commit => CommitKeepsOneWriter(st);
      case Await => AwaitKeepsOneWriter(st);
      case Abort => EndKeepsOneWriter(st, false);
      case Finish => EndKeepsOneWriter(st, true);
      case _ =>
    }
  }

  lemma {:induction false} ExclusiveRunsHaveOneWriter(states: seq<State>, labels: seq<Label>, n: nat)
    requires IsRun(states, labels) && n <= |labels|
    requires forall i :: 0 <= i < n ==> Exclusive(states[i], labels[i])
    ensures OneWriter(states[n])
    decreases n
  {
    if n > 0 {
      ExclusiveRunsHaveOneWriter(states, labels, n - 1);
      RunKeeps(states, labels, n - 1);
      RunMoves(states, labels, n - 1);
      StepKeepsOneWriter(states[n - 1], labels[n - 1]);
    }
  }

  lemma OneWriterIsFaithful(st: State, l: Label)
    requires OneWriter(st) && Enabled(st, l)
    ensures Faithful(st, l)
  {
    if l.Commit? && st.deploy.value.change.RouteChange? {
      assert Slotted(st.store, st.deploy.value.change.route);
    }
  }

  /** If no second stage of a device lands between a stage and its commit, any two gateways at the
      same version of a device hold the same upstream credential, namely the committed one. */
  lemma GatewaysAgree(states: seq<State>, labels: seq<Label>, n: nat, g: GatewayId, h: GatewayId, d: DeviceId)
    requires IsRun(states, labels) && n <= |labels| && g in states[n].nodes && h in states[n].nodes
    requires forall i :: 0 <= i < n ==> Exclusive(states[i], labels[i])
    requires d in states[n].nodes[g].memory.table.active && d in states[n].nodes[h].memory.table.active
    requires states[n].nodes[g].memory.table.active[d].version == states[n].nodes[h].memory.table.active[d].version
    ensures var r := states[n].nodes[g].memory.table.active[d];
            && r.credential == states[n].nodes[h].memory.table.active[d].credential
            && 1 <= r.version <= |History(states[n].commits, d)|
            && r.credential == History(states[n].commits, d)[r.version - 1]
  {
    forall i | 0 <= i < n ensures Faithful(states[i], labels[i]) {
      ExclusiveRunsHaveOneWriter(states, labels, i);
      RunMoves(states, labels, i);
      OneWriterIsFaithful(states[i], labels[i]);
    }
    FaithfulRunsAgree(states, labels, n);
    HeldIsRecorded(states, labels, n, g, d);
    HeldIsRecorded(states, labels, n, h, d);
  }

  lemma HeldIsRecorded(states: seq<State>, labels: seq<Label>, n: nat, g: GatewayId, d: DeviceId)
    requires IsRun(states, labels) && n <= |labels| && Agreed(states[n]) && g in states[n].nodes
    requires d in states[n].nodes[g].memory.table.active
    ensures var r := states[n].nodes[g].memory.table.active[d];
            r.deviceId == d && Recorded(states[n].commits, r)
  {
    RunKeeps(states, labels, n);
    assert MemoryOk(states[n].store, states[n].nodes[g].memory);
    assert MemoryRecorded(states[n].commits, states[n].nodes[g].memory);
  }

  // ---------------------------------------------------------------------------
  // The exact condition
  // ---------------------------------------------------------------------------

  /** Step `i` of the run commits route `r` under request `req`. */
  ghost predicate CommitAt(states: seq<State>, labels: seq<Label>, i: nat, req: RequestId, r: Route)
    requires |states| == |labels| + 1
  {
    && i < |labels| && labels[i].Commit? && states[i].deploy.Some?
    && states[i].deploy.value.req == req && states[i].deploy.value.change == RouteChange(r)
    && CommitSucceeds(states[i], RouteChange(r))
  }

  lemma {:induction false} CommitOf(states: seq<State>, labels: seq<Label>, n: nat, c: nat) returns (i: nat)
    requires IsRun(states, labels) && n <= |labels| && c < |states[n].log| && states[n].log[c].CommittedRoute?
    ensures i < n && CommitAt(states, labels, i, states[n].log[c].req, states[n].log[c].route)
    decreases n
  {
    EntryOfRun(states, labels, n, c);
    if c < |states[n - 1].log| {
      i := CommitOf(states, labels, n - 1, c);
    } else {
      i := n - 1;
    }
  }

  lemma {:induction false} RecordsPersist(states: seq<State>, labels: seq<Label>, i: nat, n: nat, d: DeviceId)
    requires IsRun(states, labels) && i <= n <= |labels|
    ensures History(states[i].commits, d) <= History(states[n].commits, d)
    decreases n
  {
    if i < n {
      RecordsPersist(states, labels, i, n - 1, d);
      RecordsPersistOnce(states, labels, n - 1, d);
    }
  }

  lemma RecordsPersistOnce(states: seq<State>, labels: seq<Label>, n: nat, d: DeviceId)
    requires IsRun(states, labels) && n < |labels|
    ensures History(states[n].commits, d) <= History(states[n + 1].commits, d)
  {
    RunMoves(states, labels, n);
    HistoryOfStep(states[n], labels[n], states[n + 1], d);
  }

  lemma CommitLeavesRecord(states: seq<State>, labels: seq<Label>, i: nat, n: nat, req: RequestId, r: Route)
    requires IsRun(states, labels) && i < n <= |labels| && CommitAt(states, labels, i, req, r)
    ensures var h := History(states[n].commits, r.deviceId);
            1 <= r.version <= |h| && h[r.version - 1] == states[i].store.pending[r.deviceId].credential
  {
    RunKeeps(states, labels, i);
    RunMoves(states, labels, i);
    ActivateKeepsRoutes(states[i].store, r.deviceId, r.version);
    assert HistoryAt(states[i].store, states[i].commits, r.deviceId);
    CommittedRouteIsRecorded(states[i], states[i].deploy.value, r);
    RecordsPersist(states, labels, i + 1, n, r.deviceId);
  }

  /** Whatever the run, a route that a gateway installed carries the recorded credential of its version
      if and only if, at the commit of its deployment, the store's pending slot held that credential. */
  lemma InstalledIsRecordedIffFaithful(states: seq<State>, labels: seq<Label>, n: nat, j: nat) returns (i: nat)
    requires IsRun(states, labels) && n <= |labels| && j < |states[n].log| && states[n].log[j].InstalledRoute?
    ensures i < n && states[i].deploy.Some? && states[i].deploy.value.change.RouteChange?
    ensures var r := states[i].deploy.value.change.route;
            && CommitAt(states, labels, i, states[n].log[j].req, r)
            && states[n].log[j].route == r.(status := Active)
            && (Recorded(states[n].commits, states[n].log[j].route) <==> Faithful(states[i], labels[i]))
  {
    var c := CommitEntryOf(states, labels, n, j);
    i := CommitOf(states, labels, n, c);
    CommitLeavesRecord(states, labels, i, n, states[n].log[c].req, states[n].log[c].route);
  }

  lemma CommitEntryOf(states: seq<State>, labels: seq<Label>, n: nat, j: nat) returns (c: nat)
    requires IsRun(states, labels) && n <= |labels| && j < |states[n].log| && states[n].log[j].InstalledRoute?
    ensures c < j && states[n].log[c].CommittedRoute? && states[n].log[c].req == states[n].log[j].req
    ensures states[n].log[j].route == states[n].log[c].route.(status := Active)
  {
    RunKeeps(states, labels, n);
    assert EntryOk(states[n].log, j);
    c :| 0 <= c < j && states[n].log[c].CommittedRoute? && states[n].log[c].req == states[n].log[j].req
         && states[n].log[j].route == states[n].log[c].route.(status := Active);
  }
}
