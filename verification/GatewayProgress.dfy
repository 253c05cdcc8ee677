/** How far a gateway has followed the store (internal/control/hub.go:36-137, internal/dataplane/table.go:21-54):
    exactly when a gateway that serves its stream is up to date, and what a successful deployment leaves. */
module GatewayProgress {
  import opened Model
  import opened RouteTable
  import opened Wire
  import opened Deployment
  import opened DeploymentInvariant
  import opened DeploymentTheorems
  import opened MemoryStore

  // ---------------------------------------------------------------------------
  // What the invariant says here
  // ---------------------------------------------------------------------------

  lemma OrderOfRun(states: seq<State>, labels: seq<Label>, n: nat, s: SessionId)
    requires IsRun(states, labels) && n <= |labels| && s < |states[n].sessions|
    ensures OrderOk(states[n].sessions[s].queue)
  {
    RunKeeps(states, labels, n);
    assert SessionOk(states[n].store, states[n].log, states[n].nextReq, states[n].sessions[s]);
  }

  lemma RoutesOfRun(states: seq<State>, labels: seq<Label>, n: nat)
    requires IsRun(states, labels) && n <= |labels|
    ensures MemoryStore.RoutesOk(states[n].store)
  {
    RunKeeps(states, labels, n);
  }

  lemma TableOfRun(states: seq<State>, labels: seq<Label>, n: nat, g: GatewayId)
    requires IsRun(states, labels) && n <= |labels| && g in states[n].nodes
    ensures Consistent(states[n].nodes[g].memory.table)
  {
    RunKeeps(states, labels, n);
    assert MemoryOk(states[n].store, states[n].nodes[g].memory);
  }

  /** No other gateway serves the stream. */
  ghost predicate ServedBy(st: State, g: GatewayId, s: SessionId) {
    && g in st.nodes && st.nodes[g].stream == Some(s) && s < |st.sessions|
    && (forall h :: h in st.nodes && st.nodes[h].stream == Some(s) ==> h == g)
  }

  lemma StreamOfRun(states: seq<State>, labels: seq<Label>, n: nat, g: GatewayId, s: SessionId)
    requires IsRun(states, labels) && n <= |labels| && g in states[n].nodes && states[n].nodes[g].stream == Some(s)
    ensures ServedBy(states[n], g, s) && StreamOk(states[n].sessions[s].queue, states[n].nodes[g].memory.table)
  {
    RunKeeps(states, labels, n);
    HeadOk(states[n], g, s);
  }

  // ---------------------------------------------------------------------------
  // Steps seen from one stream
  // ---------------------------------------------------------------------------

  /** A gateway never comes back to a stream: if it serves `s` after this step, it did so before. */
  lemma StreamBack(st: State, l: Label, st': State, g: GatewayId, s: SessionId)
    requires Moves(st, l, st') && g in st'.nodes && st'.nodes[g].stream == Some(s) && s < |st.sessions|
    ensures g in st.nodes && st.nodes[g].stream == Some(s) && !(l.Restart? && l.gateway == g)
  {
  }

  ghost predicate Appended(q: seq<Frame>, q': seq<Frame>) {
    |q'| == |q| + 1 && q == q'[..|q|] && !q'[|q|].Snapshot?
  }

  ghost predicate QueueMoved(st: State, l: Label, st': State, s: SessionId) {
    && s < |st.sessions| && s < |st'.sessions| && st'.sessions[s].snapshotSent
    && var q, q' := st.sessions[s].queue, st'.sessions[s].queue;
       q' == q || Appended(q, q') || (HandlesOn(st, l, s) && q != [] && q' == q[1..])
  }

  lemma QueueOfDeploymentStep(st: State, l: Label, st': State, s: SessionId)
    requires Moves(st, l, st') && s < |st.sessions| && st.sessions[s].snapshotSent && OfDeployment(l)
    ensures QueueMoved(st, l, st', s)
  {
  }

  /** Once its snapshot is on the stream, a session gets further frames and its gateway takes them. */
  lemma QueueOfStep(st: State, l: Label, st': State, s: SessionId)
    requires Moves(st, l, st') && s < |st.sessions| && st.sessions[s].snapshotSent
    ensures QueueMoved(st, l, st', s)
  {
    if OfDeployment(l) {
      QueueOfDeploymentStep(st, l, st', s);
    }
  }

  lemma SessionsStay(st: State, l: Label, st': State, s: SessionId)
    requires Moves(st, l, st') && s < |st.sessions|
    ensures s < |st'.sessions| && (st.sessions[s].snapshotSent ==> st'.sessions[s].snapshotSent)
  {
  }

  // ---------------------------------------------------------------------------
  // The snapshot of a session, until it is handled
  // ---------------------------------------------------------------------------

  predicate InstalledAt(log: seq<Event>, k: int, s: SessionId) {
    0 <= k < |log| && log[k].InstalledRoute? && log[k].session == s
  }

  /** Routes are installed only under sessions that have had their snapshot. */
  ghost predicate InstallsFollowSnapshots(st: State) {
    forall k, s: SessionId :: InstalledAt(st.log, k, s) ==> s < |st.sessions| && st.sessions[s].snapshotSent
  }

  lemma StepKeepsInstalls(st: State, l: Label, st': State)
    requires InstallsFollowSnapshots(st) && Moves(st, l, st')
    ensures InstallsFollowSnapshots(st')
  {
    LogOfStep(st, l, st');
    forall k, s: SessionId | InstalledAt(st'.log, k, s) ensures s < |st'.sessions| && st'.sessions[s].snapshotSent {
      if k < |st.log| {
        assert InstalledAt(st.log, k, s);
        SessionsStay(st, l, st', s);
      } else {
        InstallsOnStream(st, l, s);
        SessionsStay(st, l, st', s);
      }
    }
  }

  lemma InstallsOnStream(st: State, l: Label, s: SessionId)
    requires Enabled(st, l) && HandlesOn(st, l, s)
    ensures s < |st.sessions| && st.sessions[s].snapshotSent && st.sessions[s].queue != []
  {
  }

  lemma {:induction false} RunKeepsInstalls(states: seq<State>, labels: seq<Label>, n: nat)
    requires IsRun(states, labels) && n <= |labels|
    ensures InstallsFollowSnapshots(states[n])
    decreases n
  {
    if n > 0 {
      RunKeepsInstalls(states, labels, n - 1);
      RunMoves(states, labels, n - 1);
      StepKeepsInstalls(states[n - 1], labels[n - 1], states[n]);
    }
  }

  /** The snapshot still waiting on the stream is `base`, and nothing has been installed under the session. */
  ghost predicate Fresh(st: State, s: SessionId, base: StoreState) {
    && s < |st.sessions| && st.sessions[s].snapshotSent
    && (AwaitsSnapshot(st.sessions[s]) ==>
          LoadActive(st.sessions[s].queue[0].routes) == base.routes && forall k :: !InstalledAt(st.log, k, s))
  }

  predicate AwaitsSnapshot(ss: Session) {
    ss.queue != [] && ss.queue[0].Snapshot?
  }

  lemma ReadingIsFresh(st: State, s: SessionId, routes: seq<Route>, st': State)
    requires Keyed(st.store.routes) && InstallsFollowSnapshots(st) && Moves(st, ReadSnapshot(s, routes), st')
    ensures Fresh(st', s, st.store)
  {
    LoadInvertsListing(routes, st.store.routes);
  }

  lemma StepKeepsFresh(st: State, l: Label, st': State, s: SessionId, base: StoreState)
    requires Fresh(st, s, base) && OrderOk(st.sessions[s].queue) && Moves(st, l, st')
    ensures Fresh(st', s, base)
  {
    var q := st.sessions[s].queue;
    assert |q| > 1 ==> !q[1].Snapshot?;
    if HandlesOn(st, l, s) {
      HandlingTakesHead(st, l, st', s);
    } else {
      QueueOfStep(st, l, st', s);
      NoInstallElsewhere(st, l, st', s);
    }
  }

  lemma NoInstallElsewhere(st: State, l: Label, st': State, s: SessionId)
    requires Moves(st, l, st') && !HandlesOn(st, l, s)
    ensures st.log <= st'.log
    ensures forall k :: InstalledAt(st'.log, k, s) ==> InstalledAt(st.log, k, s) && st'.log[k] == st.log[k]
  {
    LogOfStep(st, l, st');
  }

  lemma HandlingTakesHead(st: State, l: Label, st': State, s: SessionId)
    requires Moves(st, l, st') && HandlesOn(st, l, s)
    ensures s < |st.sessions| && s < |st'.sessions| && st.sessions[s].queue != []
    ensures st'.sessions[s].queue == st.sessions[s].queue[1..] && st'.sessions[s].snapshotSent
  {
  }

  lemma {:induction false} RunKeepsFresh(states: seq<State>, labels: seq<Label>, i: nat, n: nat, s: SessionId)
    requires IsRun(states, labels) && i < n <= |labels| && labels[i].ReadSnapshot? && labels[i].session == s
    ensures Fresh(states[n], s, states[i].store)
    decreases n
  {
    if n == i + 1 {
      FreshAtFirst(states, labels, i, s);
    } else {
      RunKeepsFresh(states, labels, i, n - 1, s);
      FreshAtNext(states, labels, n - 1, s, states[i].store);
    }
  }

  lemma FreshAtFirst(states: seq<State>, labels: seq<Label>, i: nat, s: SessionId)
    requires IsRun(states, labels) && i < |labels| && labels[i].ReadSnapshot? && labels[i].session == s
    ensures Fresh(states[i + 1], s, states[i].store)
  {
    RunMoves(states, labels, i);
    RoutesOfRun(states, labels, i);
    RunKeepsInstalls(states, labels, i);
    ReadingIsFresh(states[i], s, labels[i].routes, states[i + 1]);
  }

  lemma FreshAtNext(states: seq<State>, labels: seq<Label>, n: nat, s: SessionId, base: StoreState)
    requires IsRun(states, labels) && n < |labels| && Fresh(states[n], s, base)
    ensures Fresh(states[n + 1], s, base)
  {
    RunMoves(states, labels, n);
    OrderOfRun(states, labels, n, s);
    StepKeepsFresh(states[n], labels[n], states[n + 1], s, base);
  }

  // ---------------------------------------------------------------------------
  // From the snapshot on
  // ---------------------------------------------------------------------------

  ghost predicate InstalledUnder(log: seq<Event>, s: SessionId, d: DeviceId, version: int) {
    exists k :: InstalledAt(log, k, s) && log[k].route.deviceId == d && log[k].route.version == version
  }

  ghost predicate AtLeast(t: TableState, d: DeviceId, version: int) {
    d in t.active && t.active[d].version >= version
  }

  /** Every active route comes from the snapshot or was installed under the session since, and is nowhere
      behind either. */
  ghost predicate Followed(t: TableState, base: StoreState, log: seq<Event>, s: SessionId) {
    && (forall d :: d in t.active ==>
          t.active[d].version == Version(base, d) || InstalledUnder(log, s, d, t.active[d].version))
    && (forall d :: d in base.routes ==> AtLeast(t, d, base.routes[d].version))
    && (forall k :: InstalledAt(log, k, s) ==> AtLeast(t, log[k].route.deviceId, log[k].route.version))
  }

  /** The gateway takes the snapshot from its stream and loads it, as every positive answer to it means. */
  ghost predicate LoadsSnapshot(st: State, l: Label, g: GatewayId, s: SessionId) {
    && HandlesOn(st, l, s) && l.gateway == g && s < |st.sessions| && AwaitsSnapshot(st.sessions[s])
    && l.memory.table == Loaded(st.sessions[s].queue[0].routes)
  }

  lemma PositiveAnswerLoads(st: State, g: GatewayId, memory: GatewayMemory, s: SessionId)
    requires CanHandle(st, g, memory, true) && st.nodes[g].stream == Some(s) && st.sessions[s].queue[0].Snapshot?
    ensures LoadsSnapshot(st, Handle(g, memory, true), g, s)
  {
  }

  ghost predicate Following(st: State, g: GatewayId, s: SessionId, base: StoreState) {
    && g in st.nodes && st.nodes[g].stream == Some(s) && s < |st.sessions| && st.sessions[s].snapshotSent
    && !AwaitsSnapshot(st.sessions[s])
    && Followed(st.nodes[g].memory.table, base, st.log, s)
  }

  lemma LoadingFollows(st: State, l: Label, st': State, g: GatewayId, s: SessionId, base: StoreState)
    requires Fresh(st, s, base) && OrderOk(st.sessions[s].queue) && Moves(st, l, st') && LoadsSnapshot(st, l, g, s)
    requires Keyed(base.routes)
    ensures Following(st', g, s, base)
  {
    HandlingTakesHead(st, l, st', s);
    LoadingLogsNothing(st, l, st', s);
    var q, t' := st.sessions[s].queue, st'.nodes[g].memory.table;
    assert |q| > 1 ==> !q[1].Snapshot?;
    assert t'.active == base.routes;
    assert Followed(t', base, st.log, s);
  }

  lemma LoadingLogsNothing(st: State, l: Label, st': State, s: SessionId)
    requires Moves(st, l, st') && HandlesOn(st, l, s) && s < |st.sessions| && AwaitsSnapshot(st.sessions[s])
    ensures st'.log == st.log && l.gateway in st'.nodes && st'.nodes[l.gateway].stream == Some(s)
    ensures s < |st'.sessions| && st'.sessions[s].snapshotSent && st'.nodes[l.gateway].memory == l.memory
  {
  }

  /** What one frame other than a snapshot does to the versions of a table. */
  lemma FrameMoves(s: SessionId, f: Frame, t: TableState, t': TableState, ok: bool, d: DeviceId)
    requires !f.Snapshot? && TableStep(t, f, t', ok) && Consistent(t) && d in t'.active
    ensures || (d in t.active && t.active[d].version == t'.active[d].version)
            || (t'.active[d].deviceId == d
                && exists req :: HandleEvents(s, f, t, t') == [InstalledRoute(req, s, t'.active[d])])
  {
    if f.Activate? && f.route.Some? && CanActivate(t, f.route.value) && f.route.value.deviceId == d {
      assert HandleEvents(s, f, t, t') == [InstalledRoute(f.req, s, t'.active[d])];
    }
  }

  lemma HandledFollows(t: TableState, t': TableState, base: StoreState, log: seq<Event>, s: SessionId, f: Frame,
                       ok: bool)
    requires Followed(t, base, log, s) && !f.Snapshot? && TableStep(t, f, t', ok) && Consistent(t) && Keyed(t'.active)
    requires Dominates(t'.active, t.active)
    ensures Followed(t', base, log + HandleEvents(s, f, t, t'), s)
  {
    var events := HandleEvents(s, f, t, t');
    var log' := log + events;
    forall d | d in t'.active
      ensures t'.active[d].version == Version(base, d) || InstalledUnder(log', s, d, t'.active[d].version)
    {
      FrameMoves(s, f, t, t', ok, d);
      if d in t.active && t.active[d].version == t'.active[d].version {
        if t.active[d].version != Version(base, d) {
          InstalledStays(log, log', s, d, t.active[d].version);
        }
      } else {
        assert InstalledAt(log', |log|, s);
      }
    }
    forall k | InstalledAt(log', k, s) ensures AtLeast(t', log'[k].route.deviceId, log'[k].route.version) {
      if k < |log| {
        assert InstalledAt(log, k, s);
        assert AtLeast(t, log[k].route.deviceId, log[k].route.version);
      } else {
        EventIsShown(s, f, t, t', log'[k]);
      }
    }
    forall d | d in base.routes ensures AtLeast(t', d, base.routes[d].version) {
      assert AtLeast(t, d, base.routes[d].version);
    }
  }

  lemma InstalledStays(log: seq<Event>, log': seq<Event>, s: SessionId, d: DeviceId, version: int)
    requires InstalledUnder(log, s, d, version) && log <= log'
    ensures InstalledUnder(log', s, d, version)
  {
    var k :| InstalledAt(log, k, s) && log[k].route.deviceId == d && log[k].route.version == version;
    assert InstalledAt(log', k, s);
  }

  lemma EventIsShown(s: SessionId, f: Frame, t: TableState, t': TableState, e: Event)
    requires e in HandleEvents(s, f, t, t') && e.InstalledRoute? && Keyed(t'.active)
    ensures AtLeast(t', e.route.deviceId, e.route.version)
  {
  }

  /** A step that does not handle a frame of the stream leaves the table, and logs nothing for it. */
  lemma ElsewhereFollows(st: State, l: Label, st': State, g: GatewayId, s: SessionId, base: StoreState)
    requires g in st.nodes && g in st'.nodes && st'.nodes[g].memory == st.nodes[g].memory
    requires Followed(st.nodes[g].memory.table, base, st.log, s) && Moves(st, l, st') && !HandlesOn(st, l, s)
    ensures Followed(st'.nodes[g].memory.table, base, st'.log, s)
  {
    NoInstallElsewhere(st, l, st', s);
    var t := st.nodes[g].memory.table;
    forall d | d in t.active && InstalledUnder(st.log, s, d, t.active[d].version)
      ensures InstalledUnder(st'.log, s, d, t.active[d].version)
    {
      InstalledStays(st.log, st'.log, s, d, t.active[d].version);
    }
  }

  lemma StepFollows(st: State, l: Label, st': State, g: GatewayId, s: SessionId, base: StoreState)
    requires Following(st, g, s, base) && Moves(st, l, st') && ServedBy(st, g, s) && OrderOk(st.sessions[s].queue)
    requires StreamOk(st.sessions[s].queue, st.nodes[g].memory.table) && Consistent(st.nodes[g].memory.table)
    requires g in st'.nodes && st'.nodes[g].stream == Some(s) && Consistent(st'.nodes[g].memory.table)
    ensures Following(st', g, s, base)
  {
    StreamBack(st, l, st', g, s);
    QueueOfStep(st, l, st', s);
    NoSnapshotComes(st, l, st', s);
    NodeOfStep(st, l, g);
    if HandlesOn(st, l, s) {
      assert l.gateway == g;
      HandlingLogs(st, l, st', s);
      var f, t, t' := st.sessions[s].queue[0], st.nodes[g].memory.table, st'.nodes[g].memory.table;
      FrameNeverLowers(st.sessions[s].queue, t, t', l.ok);
      HandledFollows(t, t', base, st.log, s, f, l.ok);
    } else {
      ElsewhereFollows(st, l, st', g, s, base);
    }
  }

  lemma HandlingLogs(st: State, l: Label, st': State, s: SessionId)
    requires Moves(st, l, st') && HandlesOn(st, l, s)
    ensures s < |st.sessions| && st.sessions[s].queue != [] && l.gateway in st'.nodes
    ensures st'.log == st.log + HandleEvents(s, st.sessions[s].queue[0], st.nodes[l.gateway].memory.table,
                                             st'.nodes[l.gateway].memory.table)
    ensures MemoryStep(st.nodes[l.gateway].memory, st.sessions[s].queue[0], st'.nodes[l.gateway].memory, l.ok)
  {
  }

  lemma NoSnapshotComes(st: State, l: Label, st': State, s: SessionId)
    requires Moves(st, l, st') && s < |st.sessions| && st.sessions[s].snapshotSent && OrderOk(st.sessions[s].queue)
    requires !AwaitsSnapshot(st.sessions[s])
    ensures s < |st'.sessions| && !AwaitsSnapshot(st'.sessions[s])
  {
    QueueOfStep(st, l, st', s);
    var q := st.sessions[s].queue;
    assert |q| > 1 ==> !q[1].Snapshot?;
  }

  /** Sessions are never removed. */
  lemma {:induction false} SessionsOfRun(states: seq<State>, labels: seq<Label>, m: nat, n: nat, s: SessionId)
    requires IsRun(states, labels) && m <= n <= |labels| && s < |states[m].sessions|
    ensures s < |states[n].sessions|
    decreases n
  {
    if m < n {
      SessionsOfRun(states, labels, m, n - 1, s);
      RunMoves(states, labels, n - 1);
      SessionsStay(states[n - 1], labels[n - 1], states[n], s);
    }
  }

  /** A gateway that serves an old stream after step `n` served it before. */
  lemma ServedBefore(states: seq<State>, labels: seq<Label>, m: nat, n: nat, g: GatewayId, s: SessionId)
    requires IsRun(states, labels) && m <= n < |labels| && s < |states[m].sessions|
    requires g in states[n + 1].nodes && states[n + 1].nodes[g].stream == Some(s)
    ensures g in states[n].nodes && states[n].nodes[g].stream == Some(s)
  {
    RunMoves(states, labels, n);
    SessionsOfRun(states, labels, m, n, s);
    StreamBack(states[n], labels[n], states[n + 1], g, s);
  }

  ghost predicate Serves(st: State, g: GatewayId, s: SessionId) {
    g in st.nodes && st.nodes[g].stream == Some(s)
  }

  /** Step `k` keeps `p`, as long as the gateway serves the stream. */
  ghost predicate Keeps(states: seq<State>, k: nat, g: GatewayId, s: SessionId, p: State -> bool)
    requires k + 1 < |states|
  {
    Serves(states[k], g, s) && Serves(states[k + 1], g, s) && p(states[k]) ==> p(states[k + 1])
  }

  lemma {:induction false} KeptWhileServed(states: seq<State>, labels: seq<Label>, m: nat, n: nat, g: GatewayId,
                                           s: SessionId, p: State -> bool)
    requires IsRun(states, labels) && m <= n <= |labels| && s < |states[m].sessions|
    requires p(states[m]) && Serves(states[n], g, s)
    requires forall k: nat :: m <= k < n ==> Keeps(states, k, g, s, p)
    ensures p(states[n])
    decreases n
  {
    if m < n {
      ServedBefore(states, labels, m, n - 1, g, s);
      KeptWhileServed(states, labels, m, n - 1, g, s, p);
      assert Keeps(states, n - 1, g, s, p);
    }
  }

  lemma FollowsFrom(states: seq<State>, labels: seq<Label>, m: nat, n: nat, g: GatewayId, s: SessionId,
                    base: StoreState)
    requires IsRun(states, labels) && m <= n <= |labels| && Following(states[m], g, s, base)
    requires g in states[n].nodes && states[n].nodes[g].stream == Some(s)
    ensures Following(states[n], g, s, base)
  {
    var p := (st: State) => Following(st, g, s, base);
    forall k: nat | m <= k < n ensures Keeps(states, k, g, s, p) {
      if Serves(states[k], g, s) && Serves(states[k + 1], g, s) && p(states[k]) {
        FollowsAtNext(states, labels, k, g, s, base);
      }
    }
    KeptWhileServed(states, labels, m, n, g, s, p);
  }

  /** From the moment it loads the snapshot of its stream, a gateway follows the store. */
  lemma RunFollows(states: seq<State>, labels: seq<Label>, i: nat, j: nat, n: nat, g: GatewayId, s: SessionId)
    requires IsRun(states, labels) && i < j < n <= |labels|
    requires labels[i].ReadSnapshot? && labels[i].session == s && LoadsSnapshot(states[j], labels[j], g, s)
    requires g in states[n].nodes && states[n].nodes[g].stream == Some(s)
    ensures Following(states[j + 1], g, s, states[i].store) && Following(states[n], g, s, states[i].store)
  {
    FollowsAtFirst(states, labels, i, j, g, s);
    FollowsFrom(states, labels, j + 1, n, g, s, states[i].store);
  }

  lemma FollowsAtFirst(states: seq<State>, labels: seq<Label>, i: nat, j: nat, g: GatewayId, s: SessionId)
    requires IsRun(states, labels) && i < j < |labels|
    requires labels[i].ReadSnapshot? && labels[i].session == s && LoadsSnapshot(states[j], labels[j], g, s)
    ensures Following(states[j + 1], g, s, states[i].store)
  {
    RunMoves(states, labels, j);
    RunKeepsFresh(states, labels, i, j, s);
    OrderOfRun(states, labels, j, s);
    RoutesOfRun(states, labels, i);
    LoadingFollows(states[j], labels[j], states[j + 1], g, s, states[i].store);
  }

  lemma FollowsAtNext(states: seq<State>, labels: seq<Label>, n: nat, g: GatewayId, s: SessionId, base: StoreState)
    requires IsRun(states, labels) && n < |labels| && Following(states[n], g, s, base)
    requires g in states[n + 1].nodes && states[n + 1].nodes[g].stream == Some(s)
    ensures Following(states[n + 1], g, s, base)
  {
    RunMoves(states, labels, n);
    OrderOfRun(states, labels, n, s);
    StreamOfRun(states, labels, n, g, s);
    TableOfRun(states, labels, n, g);
    TableOfRun(states, labels, n + 1, g);
    StepFollows(states[n], labels[n], states[n + 1], g, s, base);
  }

  function TableVersion(t: TableState, d: DeviceId): int {
    if d in t.active then t.active[d].version else 0
  }

  /** A gateway that has loaded the snapshot of the stream it serves is up to date on a device if and only
      if nothing was committed for the device since the snapshot was read, or the latest committed version
      was installed under this stream. */
  lemma CaughtUpIff(states: seq<State>, labels: seq<Label>, i: nat, j: nat, n: nat, g: GatewayId, s: SessionId,
                    d: DeviceId)
    requires IsRun(states, labels) && i < j < n <= |labels|
    requires labels[i].ReadSnapshot? && labels[i].session == s && LoadsSnapshot(states[j], labels[j], g, s)
    requires g in states[n].nodes && states[n].nodes[g].stream == Some(s)
    ensures var latest := Version(states[n].store, d);
            TableVersion(states[n].nodes[g].memory.table, d) == latest <==>
              Version(states[i].store, d) == latest || InstalledUnder(states[n].log, s, d, latest)
  {
    RunFollows(states, labels, i, j, n, g, s);
    RoutesOfRun(states, labels, i);
    RoutesOfRun(states, labels, n);
    var t := states[n].nodes[g].memory.table;
    if d in t.active {
      NoGatewayIsAhead(states, labels, n, g, d);
    }
    var latest := Version(states[n].store, d);
    if InstalledUnder(states[n].log, s, d, latest) {
      var k :| InstalledAt(states[n].log, k, s) && states[n].log[k].route.deviceId == d
               && states[n].log[k].route.version == latest;
      assert AtLeast(t, d, latest);
    }
    if d in states[i].store.routes {
      assert AtLeast(t, d, states[i].store.routes[d].version);
    }
  }

  // ---------------------------------------------------------------------------
  // The table itself
  // ---------------------------------------------------------------------------

  /** What an entry of the log under session `s` does to the active routes. */
  function Replayed(m: map<DeviceId, Route>, e: Event, s: SessionId): map<DeviceId, Route> {
    match e
    case InstalledRoute(_, x, r) => if x == s then m[r.deviceId := r] else m
    case InstalledDevice(_, x, d) => if x == s && d.id in m then m[d.id := WithDevice(m[d.id], d)] else m
    case _ => m
  }

  function Replay(m: map<DeviceId, Route>, log: seq<Event>, s: SessionId): map<DeviceId, Route> {
    if log == [] then m else Replayed(Replay(m, log[..|log| - 1], s), log[|log| - 1], s)
  }

  lemma ReplayLonger(m: map<DeviceId, Route>, log: seq<Event>, e: Event, s: SessionId)
    ensures Replay(m, log + [e], s) == Replayed(Replay(m, log, s), e, s)
  {
    assert (log + [e])[..|log|] == log;
  }

  /** One frame other than a snapshot changes the active routes exactly as the entry it logs says. */
  lemma FrameReplays(s: SessionId, f: Frame, t: TableState, t': TableState, ok: bool)
    requires !f.Snapshot? && TableStep(t, f, t', ok) && Consistent(t)
    ensures var events := HandleEvents(s, f, t, t');
            if events == [] then t'.active == t.active
            else |events| == 1 && t'.active == Replayed(t.active, events[0], s)
  {
  }

  /** The active routes of `g` are those of `base`, changed by the entries of the log from `start` on. */
  ghost predicate IsReplay(st: State, g: GatewayId, s: SessionId, base: StoreState, start: nat) {
    && g in st.nodes && start <= |st.log|
    && st.nodes[g].memory.table.active == Replay(base.routes, st.log[start..], s)
  }

  lemma StepReplays(st: State, l: Label, st': State, g: GatewayId, s: SessionId, base: StoreState, start: nat)
    requires IsReplay(st, g, s, base, start) && Moves(st, l, st') && ServedBy(st, g, s)
    requires Consistent(st.nodes[g].memory.table) && st.sessions[s].snapshotSent && !AwaitsSnapshot(st.sessions[s])
    requires g in st'.nodes && st'.nodes[g].stream == Some(s)
    ensures IsReplay(st', g, s, base, start)
  {
    StreamBack(st, l, st', g, s);
    NodeOfStep(st, l, g);
    if HandlesOn(st, l, s) {
      HandlingLogs(st, l, st', s);
      var f, t, t' := st.sessions[s].queue[0], st.nodes[g].memory.table, st'.nodes[g].memory.table;
      FrameReplays(s, f, t, t', l.ok);
      ReplayOfEvents(base, st.log, start, s, HandleEvents(s, f, t, t'));
    } else {
      ReplayElsewhere(st, l, st', s, base, start);
    }
  }

  lemma ReplayOfEvents(base: StoreState, log: seq<Event>, start: nat, s: SessionId, events: seq<Event>)
    requires start <= |log| && |events| <= 1
    ensures var before, after := Replay(base.routes, log[start..], s), Replay(base.routes, (log + events)[start..], s);
            after == if events == [] then before else Replayed(before, events[0], s)
  {
    if events == [] {
      assert log + events == log;
    } else {
      assert (log + events)[start..] == log[start..] + [events[0]];
      ReplayLonger(base.routes, log[start..], events[0], s);
    }
  }

  lemma ReplayElsewhere(st: State, l: Label, st': State, s: SessionId, base: StoreState, start: nat)
    requires Moves(st, l, st') && !HandlesOn(st, l, s) && start <= |st.log|
    ensures start <= |st'.log| && Replay(base.routes, st'.log[start..], s) == Replay(base.routes, st.log[start..], s)
  {
    LogOfStep(st, l, st');
    var events := st'.log[|st.log|..];
    assert st'.log == st.log + events;
    ReplayOfEvents(base, st.log, start, s, events);
    assert events != [] ==> EntrySource(st, l, events[0]);
  }

  lemma ReplaysAtFirst(states: seq<State>, labels: seq<Label>, i: nat, j: nat, g: GatewayId, s: SessionId)
    requires IsRun(states, labels) && i < j < |labels|
    requires labels[i].ReadSnapshot? && labels[i].session == s && LoadsSnapshot(states[j], labels[j], g, s)
    ensures IsReplay(states[j + 1], g, s, states[i].store, |states[j + 1].log|)
  {
    RunMoves(states, labels, j);
    RunKeepsFresh(states, labels, i, j, s);
    LoadingLogsNothing(states[j], labels[j], states[j + 1], s);
    assert states[j + 1].log[|states[j + 1].log|..] == [];
  }

  lemma ReplaysAtNext(states: seq<State>, labels: seq<Label>, n: nat, g: GatewayId, s: SessionId, base: StoreState,
                      start: nat)
    requires IsRun(states, labels) && n < |labels| && IsReplay(states[n], g, s, base, start)
    requires Following(states[n], g, s, base)
    requires g in states[n + 1].nodes && states[n + 1].nodes[g].stream == Some(s)
    ensures IsReplay(states[n + 1], g, s, base, start)
  {
    RunMoves(states, labels, n);
    StreamOfRun(states, labels, n, g, s);
    TableOfRun(states, labels, n, g);
    StepReplays(states[n], labels[n], states[n + 1], g, s, base, start);
  }

  lemma ReplaysFrom(states: seq<State>, labels: seq<Label>, m: nat, n: nat, g: GatewayId, s: SessionId,
                    base: StoreState, start: nat)
    requires IsRun(states, labels) && m <= n <= |labels|
    requires Following(states[m], g, s, base) && IsReplay(states[m], g, s, base, start)
    requires g in states[n].nodes && states[n].nodes[g].stream == Some(s)
    ensures IsReplay(states[n], g, s, base, start)
  {
    var p := (st: State) => IsReplay(st, g, s, base, start);
    forall k: nat | m <= k < n ensures Keeps(states, k, g, s, p) {
      if Serves(states[k], g, s) && Serves(states[k + 1], g, s) && p(states[k]) {
        FollowsFrom(states, labels, m, k, g, s, base);
        ReplaysAtNext(states, labels, k, g, s, base, start);
      }
    }
    KeptWhileServed(states, labels, m, n, g, s, p);
  }

  /** The active table of a gateway that has loaded the snapshot of its stream is that snapshot, changed by
      exactly what the log says was installed under the stream since, in that order. */
  lemma TableIsReplay(states: seq<State>, labels: seq<Label>, i: nat, j: nat, n: nat, g: GatewayId, s: SessionId)
    requires IsRun(states, labels) && i < j < n <= |labels|
    requires labels[i].ReadSnapshot? && labels[i].session == s && LoadsSnapshot(states[j], labels[j], g, s)
    requires g in states[n].nodes && states[n].nodes[g].stream == Some(s)
    ensures IsReplay(states[n], g, s, states[i].store, |states[j + 1].log|)
  {
    RunFollows(states, labels, i, j, n, g, s);
    ReplaysAtFirst(states, labels, i, j, g, s);
    ReplaysFrom(states, labels, j + 1, n, g, s, states[i].store, |states[j + 1].log|);
  }

  // --- device fields -----------------------------------------------------------

  /** The fields of a route that come from its device. */
  datatype DeviceFields = DeviceFields(username: string, passwordHash: string, port: int, cipher: string,
                                       password: string, ingresses: seq<Ingress>)

  function OfRoute(r: Route): DeviceFields {
    DeviceFields(r.username, r.passwordHash, r.ingressPort, r.ingressMethod, r.ingressPassword, r.ingresses)
  }

  function OfDevice(d: Device): DeviceFields {
    DeviceFields(d.username, d.passwordHash, d.ingressPort, d.ingressMethod, d.ingressPassword, d.ingresses)
  }

  /** The device fields an entry writes for `d` under session `s`, if it does. */
  function Writes(e: Event, s: SessionId, d: DeviceId): Option<DeviceFields> {
    match e
    case InstalledRoute(_, x, r) => if x == s && r.deviceId == d then Some(OfRoute(r)) else None
    case InstalledDevice(_, x, dev) => if x == s && dev.id == d then Some(OfDevice(dev)) else None
    case _ => None
  }

  /** The fields that the last such entry of the log writes. */
  function LastWrite(log: seq<Event>, s: SessionId, d: DeviceId): Option<DeviceFields> {
    if log == [] then None
    else if Writes(log[|log| - 1], s, d).Some? then Writes(log[|log| - 1], s, d)
    else LastWrite(log[..|log| - 1], s, d)
  }

  lemma {:induction false} ReplayedFields(m: map<DeviceId, Route>, log: seq<Event>, s: SessionId, d: DeviceId)
    requires d in m || d in Replay(m, log, s)
    ensures d in Replay(m, log, s) ==>
              match LastWrite(log, s, d)
              case Some(fields) => OfRoute(Replay(m, log, s)[d]) == fields
              case None => d in m && OfRoute(Replay(m, log, s)[d]) == OfRoute(m[d])
  {
    if log != [] {
      var init := log[..|log| - 1];
      if d in m || d in Replay(m, init, s) {
        ReplayedFields(m, init, s, d);
      }
    }
  }

  /** Such a gateway carries a device, in particular the latest committed one, if and only if the last entry
      under its stream that wrote the device's fields wrote these, or there is none and the snapshot has
      them. */
  lemma CarriesIff(states: seq<State>, labels: seq<Label>, i: nat, j: nat, n: nat, g: GatewayId, s: SessionId,
                   d: Device)
    requires IsRun(states, labels) && i < j < n <= |labels|
    requires labels[i].ReadSnapshot? && labels[i].session == s && LoadsSnapshot(states[j], labels[j], g, s)
    requires g in states[n].nodes && states[n].nodes[g].stream == Some(s)
    requires d.id in states[n].nodes[g].memory.table.active
    ensures |states[j + 1].log| <= |states[n].log|
    ensures Carries(states[n].nodes[g].memory.table, d) <==>
              match LastWrite(states[n].log[|states[j + 1].log|..], s, d.id)
              case Some(fields) => fields == OfDevice(d)
              case None => d.id in states[i].store.routes && OfRoute(states[i].store.routes[d.id]) == OfDevice(d)
  {
    TableIsReplay(states, labels, i, j, n, g, s);
    ReplayedFields(states[i].store.routes, states[n].log[|states[j + 1].log|..], s, d.id);
  }

  /** An installed device does not stay: activating a route that was built from the device as it was before
      takes the old fields back. */
  lemma ActivationUndoesDevice(t: TableState, d: Device, r: Route)
    requires Consistent(t) && d.id in t.active && r.deviceId == d.id && r.version > t.active[d.id].version
    requires OfRoute(r) != OfDevice(d)
    ensures var t1 := Updated(t, d);
            && Carries(t1, d) && CanPrepare(t1, r) && CanActivate(Prepared(t1, r), r)
            && !Carries(Activated(Prepared(t1, r), r), d)
  {
  }

  /** Nor does a snapshot read after a rotation carry the device, when the store keeps its routes in memory:
      it rewrites the flat password of the stored route but not its ingress list. */
  lemma RotationMissesRoute(store: StoreState, id: DeviceId, password: string, now: Time, p: nat)
    requires id in store.devices && id in store.routes
    requires p < |store.routes[id].ingresses| && store.routes[id].ingresses[p].primary
    requires store.routes[id].ingresses[p].password != password
    requires p < |store.devices[id].ingresses| && store.devices[id].ingresses[p].primary
    ensures Rotate(store, id, password, now).Ok?
    ensures var store' := Rotate(store, id, password, now).value;
            store'.routes[id].ingressPassword == password && OfRoute(store'.routes[id]) != OfDevice(store'.devices[id])
  {
    var store' := Rotate(store, id, password, now).value;
    assert store'.devices[id].ingresses[p].password == password;
    assert store'.routes[id].ingresses[p].password != password;
  }

  // ---------------------------------------------------------------------------
  // What a successful deployment leaves
  // ---------------------------------------------------------------------------

  /** While a route is being activated, it is the newest of its device. */
  ghost predicate ActivatesNewest(st: State) {
    st.deploy.Some? && st.deploy.value.phase == Activating && st.deploy.value.change.RouteChange? ==>
      Version(st.store, st.deploy.value.change.route.deviceId) == st.deploy.value.change.route.version
  }

  lemma PhaseOfStep(st: State, l: Label, st': State)
    requires Moves(st, l, st') && !l.Commit?
    ensures st'.deploy.Some? && st'.deploy.value.phase == Activating ==>
              st.deploy.Some? && st.deploy.value.phase == Activating
  {
  }

  lemma CommitActivatesNewest(st: State)
    requires CanCommit(st)
    ensures ActivatesNewest(CommitStep(st))
  {
  }

  lemma StepKeepsNewest(st: State, l: Label, st': State)
    requires ActivatesNewest(st) && Moves(st, l, st')
    ensures ActivatesNewest(st')
  {
    if l.Commit? {
      CommitActivatesNewest(st);
    } else {
      PhaseOfStep(st, l, st');
      DeployOfStep(st, l);
      StoreOfStep(st, l);
    }
  }

  lemma {:induction false} RunKeepsNewest(states: seq<State>, labels: seq<Label>, n: nat)
    requires IsRun(states, labels) && n <= |labels|
    ensures ActivatesNewest(states[n])
    decreases n
  {
    if n > 0 {
      RunKeepsNewest(states, labels, n - 1);
      RunMoves(states, labels, n - 1);
      StepKeepsNewest(states[n - 1], labels[n - 1], states[n]);
    }
  }

  /** The step at which an entry of the log was made. */
  lemma {:induction false} InstallStep(states: seq<State>, labels: seq<Label>, n: nat, k: nat) returns (j: nat)
    requires IsRun(states, labels) && n <= |labels| && k < |states[n].log| && states[n].log[k].InstalledRoute?
    ensures j < n && HandlesOn(states[j], labels[j], states[n].log[k].session)
    ensures Shows(labels[j].memory.table, states[n].log[k].route)
    decreases n
  {
    EntryOfRun(states, labels, n, k);
    if k < |states[n - 1].log| {
      j := InstallStep(states, labels, n - 1, k);
    } else {
      j := n - 1;
    }
  }

  ghost predicate NotRestarted(labels: seq<Label>, i: nat, j: nat, g: GatewayId)
    requires j <= |labels|
  {
    forall k :: i <= k < j ==> !(labels[k].Restart? && labels[k].gateway == g)
  }

  /** When a deployment of a route returns nil, the route is the store's newest of its device, and every
      captured session had a gateway install it, which still has it active unless its process was
      restarted since. */
  lemma FinishLeavesNewest(states: seq<State>, labels: seq<Label>, n: nat, i: nat) returns (j: nat, g: GatewayId)
    requires IsRun(states, labels) && n < |labels| && labels[n].Finish? && states[n].deploy.Some?
    requires states[n].deploy.value.change.RouteChange? && i < |states[n].deploy.value.chosen|
    ensures var r, s := states[n].deploy.value.change.route, states[n].deploy.value.chosen[i];
            && Version(states[n].store, r.deviceId) == r.version
            && j < n && labels[j].Handle? && labels[j].gateway == g && HandlesOn(states[j], labels[j], s)
            && (NotRestarted(labels, j + 1, n, g) ==>
                  g in states[n].nodes && TableVersion(states[n].nodes[g].memory.table, r.deviceId) == r.version)
  {
    var dp := states[n].deploy.value;
    var r, s := dp.change.route, dp.chosen[i];
    RunKeepsNewest(states, labels, n);
    var k := FinishHasEntry(states, labels, n, i);
    j := InstallStep(states, labels, n, k);
    g := labels[j].gateway;
    InstalledIsActive(states, labels, j, g, states[n].log[k].route);
    if NotRestarted(labels, j + 1, n, g) {
      VersionsNeverDecrease(states, labels, j + 1, n, g);
      NoGatewayIsAhead(states, labels, n, g, r.deviceId);
    }
  }

  /** At the end every captured session has its entry in the log. */
  lemma FinishHasEntry(states: seq<State>, labels: seq<Label>, n: nat, i: nat) returns (k: nat)
    requires IsRun(states, labels) && n < |labels| && labels[n].Finish? && states[n].deploy.Some?
    requires i < |states[n].deploy.value.chosen|
    ensures var dp := states[n].deploy.value;
            && dp.phase == Activating
            && k < |states[n].log| && states[n].log[k] == DoneEvent(dp.chosen[i], dp.req, dp.change)
  {
    RunKeeps(states, labels, n);
    RunMoves(states, labels, n);
    var dp := states[n].deploy.value;
    var s := dp.chosen[i];
    assert ChosenOk(dp, i, s, states[n].sessions[s], Live(states[n], s), states[n].log);
    k :| 0 <= k < |states[n].log| && states[n].log[k] == DoneEvent(s, dp.req, dp.change);
  }

  lemma InstalledIsActive(states: seq<State>, labels: seq<Label>, j: nat, g: GatewayId, r: Route)
    requires IsRun(states, labels) && j < |labels| && labels[j].Handle? && labels[j].gateway == g
    requires Shows(labels[j].memory.table, r)
    ensures g in states[j + 1].nodes && AtLeast(states[j + 1].nodes[g].memory.table, r.deviceId, r.version)
  {
    RunMoves(states, labels, j);
    TableAfterHandling(states[j], labels[j], states[j + 1], g);
    TableOfRun(states, labels, j + 1, g);
    var d :| d in labels[j].memory.table.active && labels[j].memory.table.active[d] == r;
  }

  lemma TableAfterHandling(st: State, l: Label, st': State, g: GatewayId)
    requires Moves(st, l, st') && l.Handle? && l.gateway == g
    ensures g in st'.nodes && st'.nodes[g].memory == l.memory
  {
  }
}
