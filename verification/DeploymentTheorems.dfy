/** What the deployment protocol guarantees over whole runs. Every lemma quantifies over all runs:
    any interleaving of deployments, deadlines, disconnects, reconnects, restarts and late frames. */
module DeploymentTheorems {
  import opened Model
  import opened RouteTable
  import opened Wire
  import opened Deployment
  import opened DeploymentInvariant
  import opened MemoryStore

  // ---------------------------------------------------------------------------
  // No gateway is ever ahead of the store
  // ---------------------------------------------------------------------------

  lemma NoGatewayIsAhead(states: seq<State>, labels: seq<Label>, n: nat, g: GatewayId, d: DeviceId)
    requires IsRun(states, labels) && n <= |labels| && g in states[n].nodes
    requires d in states[n].nodes[g].memory.table.active
    ensures 1 <= states[n].nodes[g].memory.table.active[d].version <= Version(states[n].store, d)
  {
    RunKeeps(states, labels, n);
    assert MemoryOk(states[n].store, states[n].nodes[g].memory);
  }

  /** Every ACTIVATE in flight names a version that is already committed, and so does the snapshot file. */
  lemma ActivateFollowsCommit(states: seq<State>, labels: seq<Label>, n: nat, s: SessionId, k: nat)
    requires IsRun(states, labels) && n <= |labels| && s < |states[n].sessions|
    requires k < |states[n].sessions[s].queue| && states[n].sessions[s].queue[k].Activate?
    ensures var f := states[n].sessions[s].queue[k];
            && f.route.Some?
            && CommittedRoute(f.req, f.route.value) in states[n].log
            && f.route.value.version <= Version(states[n].store, f.route.value.deviceId)
            && f.route.value.version <= |History(states[n].commits, f.route.value.deviceId)|
  {
    RunKeeps(states, labels, n);
    assert SessionOk(states[n].store, states[n].log, states[n].nextReq, states[n].sessions[s]);
    var f := states[n].sessions[s].queue[k];
    assert FrameOk(states[n].store, states[n].log, f);
    assert HistoryAt(states[n].store, states[n].commits, f.route.value.deviceId);
  }

  /** A staged route is one above its device's active version, and the commits of a device are as
      many as that version says. */
  lemma CommitsAreCounted(states: seq<State>, labels: seq<Label>, n: nat, d: DeviceId)
    requires IsRun(states, labels) && n <= |labels|
    ensures |History(states[n].commits, d)| == Version(states[n].store, d)
    ensures d in states[n].store.pending ==> states[n].store.pending[d].version == Version(states[n].store, d) + 1
  {
    RunKeeps(states, labels, n);
    assert HistoryAt(states[n].store, states[n].commits, d);
  }

  // ---------------------------------------------------------------------------
  // A deployment that reports success was installed everywhere
  // ---------------------------------------------------------------------------

  ghost predicate Between(log: seq<Event>, c: nat, k: nat, e: Event)
    requires k <= |log|
  {
    exists j :: c < j < k && log[j] == e
  }

  /** Between positions `c` and `k` of the log, every session of `chosen` installed `change`. */
  ghost predicate InstalledBetween(log: seq<Event>, c: nat, k: nat, req: RequestId, change: Change,
                                   chosen: seq<SessionId>)
    requires k <= |log|
  {
    forall i :: 0 <= i < |chosen| ==> Between(log, c, k, DoneEvent(chosen[i], req, change))
  }

  /** If a deployment returned nil, every session it had captured installed exactly the deployed
      change, after the commit and before the return. */
  lemma SuccessMeansInstalled(states: seq<State>, labels: seq<Label>, n: nat, k: nat)
    requires IsRun(states, labels) && n <= |labels| && k < |states[n].log|
    requires states[n].log[k].Finished? && states[n].log[k].ok
    ensures var log, e := states[n].log, states[n].log[k];
            exists c :: 0 <= c < k && log[c] == CommitEvent(e.req, e.change)
              && InstalledBetween(log, c, k, e.req, e.change, e.chosen)
  {
    RunKeeps(states, labels, n);
    var log, e := states[n].log, states[n].log[k];
    assert EntryOk(log, k);
    var c :| 0 <= c < k && log[c] == CommitEvent(e.req, e.change);
    forall i | 0 <= i < |e.chosen| ensures Between(log, c, k, DoneEvent(e.chosen[i], e.req, e.change)) {
      var j :| 0 <= j < k && log[j] == DoneEvent(e.chosen[i], e.req, e.change);
      DoneAfterCommit(states[n], j, c, e.chosen[i], e.req, e.change);
    }
    assert InstalledBetween(log, c, k, e.req, e.change, e.chosen);
  }

  lemma DoneAfterCommit(st: State, j: nat, c: nat, s: SessionId, req: RequestId, change: Change)
    requires LogOk(st) && j < |st.log| && c < |st.log|
    requires st.log[j] == DoneEvent(s, req, change) && st.log[c] == CommitEvent(req, change)
    ensures c < j
  {
    assert EntryOk(st.log, j);
    if change.RouteChange? {
      var b :| 0 <= b < j && st.log[b].CommittedRoute? && st.log[b].req == req;
      assert b == c;
    } else {
      var b :| 0 <= b < j && st.log[b] == CommittedDevice(req, change.device);
      assert b == c;
    }
  }

  /** Some deployment began with this request, change and session list, the sessions being the ready ones. */
  ghost predicate BegunBy(states: seq<State>, labels: seq<Label>, n: nat, req: RequestId, change: Change,
                          chosen: seq<SessionId>)
    requires n <= |labels| < |states|
  {
    exists b :: 0 <= b < n && labels[b] == Begin(change, chosen) && states[b].nextReq == req
      && IsReadyList(states[b], chosen)
  }

  lemma {:induction false} RunningHadBegun(states: seq<State>, labels: seq<Label>, n: nat)
    requires IsRun(states, labels) && n <= |labels|
    ensures states[n].deploy.Some? ==>
              var dp := states[n].deploy.value; BegunBy(states, labels, n, dp.req, dp.change, dp.chosen)
    decreases n
  {
    if n > 0 {
      var st, l := states[n - 1], labels[n - 1];
      RunMoves(states, labels, n - 1);
      DeployOfStep(st, l);
      if l.Begin? {
        assert labels[n - 1] == Begin(l.change, l.chosen) && IsReadyList(states[n - 1], l.chosen);
      } else {
        RunningHadBegun(states, labels, n - 1);
      }
    }
  }

  /** The sessions a finished deployment reports on are the ready sessions of the moment it began. */
  lemma {:induction false} FinishedHadBegun(states: seq<State>, labels: seq<Label>, n: nat, k: nat)
    requires IsRun(states, labels) && n <= |labels| && k < |states[n].log| && states[n].log[k].Finished?
    ensures var e := states[n].log[k]; BegunBy(states, labels, n, e.req, e.change, e.chosen)
    decreases n
  {
    EntryOfRun(states, labels, n, k);
    if k < |states[n - 1].log| {
      FinishedHadBegun(states, labels, n - 1, k);
    } else {
      RunningHadBegun(states, labels, n - 1);
    }
  }

  /** A step adds at most one entry to the log, and says where it comes from. */
  lemma LogOfStep(st: State, l: Label, st': State)
    requires Moves(st, l, st')
    ensures st.log <= st'.log && |st'.log| <= |st.log| + 1
    ensures |st'.log| > |st.log| ==> EntrySource(st, l, st'.log[|st.log|])
  {
    if MayLog(l) {
      LoggingStep(st, l, st');
    } else {
      SilentStep(st, l, st');
    }
  }

  predicate MayLog(l: Label) {
    l.Await? || l.Abort? || l.Commit? || l.Finish? || l.Handle?
  }

  lemma SilentStep(st: State, l: Label, st': State)
    requires Moves(st, l, st') && !MayLog(l)
    ensures st'.log == st.log
  {
  }

  lemma LoggingStep(st: State, l: Label, st': State)
    requires Moves(st, l, st') && MayLog(l)
    ensures st.log <= st'.log && |st'.log| <= |st.log| + 1
    ensures |st'.log| > |st.log| ==> EntrySource(st, l, st'.log[|st.log|])
  {
    match l
    case Await => AwaitLogs(st);
    case Commit => CommitLogs(st);
    case Handle(g, memory, ok) => HandleLogs(st, g, memory, ok);
    case _ =>
  }

  lemma AwaitLogs(st: State)
    requires CanAwait(st)
    ensures var log' := AwaitStep(st).log;
            log' == st.log || (log' == st.log + [log'[|st.log|]] && EntrySource(st, Await, log'[|st.log|]))
  {
  }

  lemma CommitLogs(st: State)
    requires CanCommit(st)
    ensures var log' := CommitStep(st).log;
            log' == st.log + [log'[|st.log|]] && EntrySource(st, Commit, log'[|st.log|])
  {
  }

  lemma HandleLogs(st: State, g: GatewayId, memory: GatewayMemory, ok: bool)
    requires CanHandle(st, g, memory, ok)
    ensures var log' := HandleStep(st, g, memory, ok).log;
            log' == st.log || (log' == st.log + [log'[|st.log|]]
                               && EntrySource(st, Handle(g, memory, ok), log'[|st.log|]))
  {
  }

  lemma EntryOfRun(states: seq<State>, labels: seq<Label>, n: nat, k: nat)
    requires IsRun(states, labels) && n <= |labels| && k < |states[n].log|
    ensures n > 0
    ensures if k < |states[n - 1].log| then states[n].log[k] == states[n - 1].log[k]
            else EntrySource(states[n - 1], labels[n - 1], states[n].log[k])
  {
    RunMoves(states, labels, n - 1);
    LogOfStep(states[n - 1], labels[n - 1], states[n]);
  }

  lemma HistoryOfStep(st: State, l: Label, st': State, d: DeviceId)
    requires Moves(st, l, st')
    ensures History(st.commits, d) <= History(st'.commits, d)
  {
    if !l.Commit? {
      StoreOfStep(st, l);
    }
  }

  ghost predicate EntrySource(st: State, l: Label, e: Event) {
    match e
    case Finished(req, change, chosen, _) =>
      st.deploy.Some? && st.deploy.value.req == req && st.deploy.value.change == change
        && st.deploy.value.chosen == chosen
    case CommittedRoute(req, r) =>
      && l.Commit? && st.deploy.Some? && st.deploy.value.req == req && st.deploy.value.change == RouteChange(r)
      && CommitSucceeds(st, RouteChange(r))
    case CommittedDevice(req, d) => l.Commit?
    case InstalledRoute(_, s, r) => HandlesOn(st, l, s) && Shows(l.memory.table, r)
    case InstalledDevice(_, s, d) => HandlesOn(st, l, s) && Carries(l.memory.table, d)
  }

  /** A gateway handles a frame of session `s`. */
  ghost predicate HandlesOn(st: State, l: Label, s: SessionId) {
    l.Handle? && l.gateway in st.nodes && st.nodes[l.gateway].stream == Some(s)
  }

  ghost predicate Shows(t: TableState, r: Route) {
    exists d :: d in t.active && t.active[d] == r
  }

  lemma DeployOfStep(st: State, l: Label)
    requires Enabled(st, l)
    ensures var dp' := Step(st, l).deploy;
            && (!l.Begin? && dp'.Some? ==>
                  st.deploy.Some? && dp'.value.req == st.deploy.value.req && dp'.value.change == st.deploy.value.change
                  && dp'.value.chosen == st.deploy.value.chosen)
            && (l.Begin? ==>
                  dp' == Some(Deploy(st.nextReq, l.change, l.chosen, Preparing, 0, 0)) && IsReadyList(st, l.chosen))
  {
  }

  /** While a deployment waits for its second phase, an acknowledgement under its request ID can only
      be the answer to ACTIVATE, though PREPARE used the same ID: it never arrives before ACTIVATE was
      sent, and a positive one means that the change is in place. */
  lemma PrepareAckIsNeverCounted(states: seq<State>, labels: seq<Label>, n: nat, i: nat, k: nat)
    requires IsRun(states, labels) && n <= |labels| && states[n].deploy.Some?
    requires states[n].deploy.value.phase == Activating
    requires states[n].deploy.value.acked <= i < |states[n].deploy.value.chosen|
    requires states[n].deploy.value.chosen[i] < |states[n].sessions|
    requires k < |states[n].sessions[states[n].deploy.value.chosen[i]].acks|
    requires states[n].sessions[states[n].deploy.value.chosen[i]].acks[k].req == states[n].deploy.value.req
    ensures var dp := states[n].deploy.value;
            && i < dp.sent
            && (states[n].sessions[dp.chosen[i]].acks[k].ok ==>
                  DoneEvent(dp.chosen[i], dp.req, dp.change) in states[n].log)
  {
    RunKeeps(states, labels, n);
    var dp := states[n].deploy.value;
    assert ChosenOk(dp, i, dp.chosen[i], states[n].sessions[dp.chosen[i]], Live(states[n], dp.chosen[i]),
                    states[n].log);
  }

  // ---------------------------------------------------------------------------
  // A deployment that fails before its commit leaves nothing behind that is active
  // ---------------------------------------------------------------------------

  /** A deployment that failed in PREPARE or at the commit never installs anything, at any later time. */
  lemma FailedDeploymentNeverInstalls(states: seq<State>, labels: seq<Label>, n: nat, k: nat, j: nat)
    requires IsRun(states, labels) && n <= |labels| && k < |states[n].log| && j < |states[n].log|
    requires states[n].log[k].Finished?
    requires forall c :: 0 <= c < k && IsCommit(states[n].log[c]) ==> states[n].log[c].req != states[n].log[k].req
    requires states[n].log[j].req == states[n].log[k].req
    ensures !states[n].log[k].ok && !states[n].log[j].InstalledRoute? && !states[n].log[j].InstalledDevice?
  {
    RunKeeps(states, labels, n);
    assert EntryOk(states[n].log, j) && EntryOk(states[n].log, k);
  }

  /** The gateway handles a snapshot, or the second-phase frame of a committed deployment. */
  ghost predicate HandlesPublished(st: State, l: Label, g: GatewayId) {
    && l.Handle? && l.gateway == g && g in st.nodes && st.nodes[g].stream.Some?
    && st.nodes[g].stream.value < |st.sessions| && st.sessions[st.nodes[g].stream.value].queue != []
    && var f := st.sessions[st.nodes[g].stream.value].queue[0];
       || f.Snapshot?
       || (f.Activate? && f.route.Some? && CommittedRoute(f.req, f.route.value) in st.log)
       || (f.DeviceUpdate? && f.device.Some? && CommittedDevice(f.req, f.device.value) in st.log)
  }

  /** A gateway's active routes change only by a restart, or by handling a snapshot or the second-phase
      frame of a committed deployment; in particular a late PREPARE leaves them alone. The store's
      active routes change only at a commit. */
  lemma ActiveRoutesChangeOnlyAfterCommit(states: seq<State>, labels: seq<Label>, n: nat, g: GatewayId)
    requires IsRun(states, labels) && n < |labels| && g in states[n].nodes
    ensures g in states[n + 1].nodes
    ensures states[n + 1].nodes[g].memory.table.active != states[n].nodes[g].memory.table.active ==>
              (labels[n].Restart? && labels[n].gateway == g) || HandlesPublished(states[n], labels[n], g)
    ensures states[n + 1].store.routes != states[n].store.routes ==> labels[n].Commit?
  {
    RunKeeps(states, labels, n);
    RunMoves(states, labels, n);
    NodeOfStep(states[n], labels[n], g);
    if labels[n].Handle? && labels[n].gateway == g {
      HeadOk(states[n], g, states[n].nodes[g].stream.value);
    }
    StoreOfStep(states[n], labels[n]);
  }

  lemma NodeOfStep(st: State, l: Label, g: GatewayId)
    requires Enabled(st, l) && g in st.nodes
    ensures g in Step(st, l).nodes
    ensures !((l.Restart? || l.Handle?) && l.gateway == g) ==> Step(st, l).nodes[g].memory == st.nodes[g].memory
    ensures l.Handle? && l.gateway == g ==>
              MemoryStep(st.nodes[g].memory, st.sessions[st.nodes[g].stream.value].queue[0],
                         Step(st, l).nodes[g].memory, l.ok)
  {
  }

  lemma StoreOfStep(st: State, l: Label)
    requires Enabled(st, l)
    ensures !l.Commit? ==> Step(st, l).store.routes == st.store.routes && Step(st, l).commits == st.commits
  {
    if OfDeployment(l) {
      StoreOfDeploymentStep(st, l);
    }
  }

  lemma StoreOfDeploymentStep(st: State, l: Label)
    requires Enabled(st, l) && OfDeployment(l)
    ensures !l.Commit? ==> Step(st, l).store.routes == st.store.routes && Step(st, l).commits == st.commits
  {
  }

  // ---------------------------------------------------------------------------
  // Active versions never decrease
  // ---------------------------------------------------------------------------

  lemma StepNeverLowers(st: State, l: Label, g: GatewayId)
    requires Inv(st) && Enabled(st, l) && g in st.nodes && !(l.Restart? && l.gateway == g)
    ensures g in Step(st, l).nodes
    ensures Dominates(Step(st, l).nodes[g].memory.table.active, st.nodes[g].memory.table.active)
  {
    NodeOfStep(st, l, g);
    if l.Handle? && l.gateway == g {
      var s := st.nodes[g].stream.value;
      HeadOk(st, g, s);
      FrameNeverLowers(st.sessions[s].queue, st.nodes[g].memory.table, Step(st, l).nodes[g].memory.table, l.ok);
    }
  }

  lemma FrameNeverLowers(q: seq<Frame>, t: TableState, t': TableState, ok: bool)
    requires q != [] && StreamOk(q, t) && Consistent(t) && TableStep(t, q[0], t', ok)
    ensures Dominates(t'.active, t.active)
  {
    assert q[0] == q[0];
  }

  /** As long as its process lives, a gateway's active version of a device never decreases and its
      routes never vanish, even when a reconnect replaces the whole table. */
  lemma {:induction false} VersionsNeverDecrease(states: seq<State>, labels: seq<Label>, i: nat, j: nat, g: GatewayId)
    requires IsRun(states, labels) && i <= j <= |labels| && g in states[i].nodes
    requires forall k :: i <= k < j ==> !(labels[k].Restart? && labels[k].gateway == g)
    ensures g in states[j].nodes
    ensures Dominates(states[j].nodes[g].memory.table.active, states[i].nodes[g].memory.table.active)
    decreases j
  {
    if i < j {
      VersionsNeverDecrease(states, labels, i, j - 1, g);
      RunKeeps(states, labels, j - 1);
      RunMoves(states, labels, j - 1);
      StepNeverLowers(states[j - 1], labels[j - 1], g);
    }
  }
}
