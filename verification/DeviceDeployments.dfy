/** Deployments of a device change (internal/control/hub.go:122-137, internal/control/api.go:139-277): what the commit
    leaves in the store, and that store and gateways then agree. */
module DeviceDeployments {
  import opened Model
  import opened RouteTable
  import opened Wire
  import opened Deployment
  import opened DeploymentInvariant
  import opened DeploymentTheorems
  import opened GatewayProgress
  import opened MemoryStore
  import StoreRuns
  import StoreEffects

  // ---------------------------------------------------------------------------
  // The commit of a device change
  // ---------------------------------------------------------------------------

  /** Step `n` committed a device change. */
  ghost predicate CommitsDevice(states: seq<State>, labels: seq<Label>, n: nat, req: RequestId, d: Device,
                                op: StoreRuns.Op)
    requires |states| == |labels| + 1
  {
    && n < |labels| && labels[n].Commit? && states[n].deploy.Some?
    && states[n].deploy.value.req == req && states[n].deploy.value.change == DeviceChange(d, op)
    && states[n + 1].log == states[n].log + [CommittedDevice(req, d)]
  }

  /** The change is in the store. */
  ghost predicate InStore(devices: map<DeviceId, Device>, op: StoreRuns.Op) {
    match op
    case RotateOp(id, password, _) =>
      && id in devices && devices[id].ingressPassword == password
      && forall i :: 0 <= i < |devices[id].ingresses| && devices[id].ingresses[i].primary ==>
           devices[id].ingresses[i].password == password
    case AddOp(id, x, _) =>
      && id in devices && devices[id].ingresses != []
      && devices[id].ingresses[|devices[id].ingresses| - 1] == Ingress(x.port, x.cipher, x.password, false, x.createdAt)
    case DeleteOp(id, port, _) =>
      && id in devices
      && forall i :: 0 <= i < |devices[id].ingresses| ==> devices[id].ingresses[i].port != port
    case _ => false
  }

  /** The device that `op` is about. */
  function Target(op: StoreRuns.Op): Option<DeviceId> {
    match op
    case RotateOp(id, _, _) => Some(id)
    case AddOp(id, _, _) => Some(id)
    case DeleteOp(id, _, _) => Some(id)
    case _ => None
  }

  /** What the API pushes for `op` when it has read the device `c`: the outcomes of its three proposal
      computations. */
  ghost predicate IsProposal(c: Device, op: StoreRuns.Op, d: Device) {
    match op
    case RotateOp(_, password, _) => d == Rotated(c, password)
    case AddOp(_, x, _) => d == WithIngress(c, x)
    case DeleteOp(_, port, _) => d == WithoutIngress(c, port)
    case _ => false
  }

  lemma CommitEntry(st: State, l: Label, st': State, req: RequestId, d: Device)
    requires Moves(st, l, st') && l.Commit? && st'.log == st.log + [CommittedDevice(req, d)]
    requires st.deploy.Some? && st.deploy.value.change.DeviceChange?
    ensures var op := st.deploy.value.change.commit;
            StoreRuns.Outcome(st.store, op).Ok? && st'.store == StoreRuns.Outcome(st.store, op).value
    ensures st'.deploy.Some? && st'.deploy.value.phase == Activating && st'.deploy.value.req == st.deploy.value.req
  {
    assert st'.log[|st.log|] == CommittedDevice(req, d);
  }

  ghost predicate Changed(s: StoreState, op: StoreRuns.Op, s': StoreState) {
    && InStore(s'.devices, op) && Target(op).Some? && Target(op).value in s.devices
    && StoreEffects.OnlyDevice(s, s', Target(op).value)
  }

  lemma RotationInStore(s: StoreState, id: DeviceId, password: string, now: Time)
    requires Rotate(s, id, password, now).Ok?
    ensures Changed(s, StoreRuns.RotateOp(id, password, now), Rotate(s, id, password, now).value)
  {
    StoreEffects.RotateEffect(s, id, password, now);
  }

  lemma AdditionInStore(s: StoreState, id: DeviceId, x: Ingress, now: Time)
    requires AddIngress(s, id, x, now).Ok?
    ensures Changed(s, StoreRuns.AddOp(id, x, now), AddIngress(s, id, x, now).value)
  {
    StoreEffects.AddEffect(s, id, x, now);
  }

  lemma DeletionInStore(s: StoreState, id: DeviceId, port: int, now: Time)
    requires DeleteIngress(s, id, port, now).Ok?
    ensures Changed(s, StoreRuns.DeleteOp(id, port, now), DeleteIngress(s, id, port, now).value)
  {
    StoreEffects.DeleteEffect(s, id, port, now);
  }

  /** The store takes the change: the device is there, and the port is free to add or there to delete. */
  ghost predicate Takes(s: StoreState, op: StoreRuns.Op) {
    match op
    case RotateOp(id, _, _) => id in s.devices
    case AddOp(id, x, _) => id in s.devices && !StoreEffects.InUse(s, x.port)
    case DeleteOp(id, port, _) =>
      id in s.devices && |s.devices[id].ingresses| > 1 && StoreEffects.ListensOn(s.devices[id], port)
    case _ => false
  }

  lemma OutcomeIffTakes(s: StoreState, op: StoreRuns.Op)
    requires IsDeviceCommit(op) && forall id :: id in s.devices ==> DistinctPorts(s.devices[id].ingresses)
    ensures StoreRuns.Outcome(s, op).Ok? <==> Takes(s, op)
  {
    match op
    case RotateOp(id, password, now) => StoreEffects.RotateEffect(s, id, password, now);
    case AddOp(id, x, now) => StoreEffects.AddEffect(s, id, x, now);
    case DeleteOp(id, port, now) => StoreEffects.DeleteRefusal(s, id, port, now);
  }

  /** The commit of a device change, after every session answered DEVICE_PREPARE: it succeeds exactly when the
      store takes the change, and otherwise the deployment fails and the store is as it was. */
  lemma CommitDeviceEffect(st: State, st': State)
    requires Moves(st, Commit, st') && st.deploy.Some? && st.deploy.value.change.DeviceChange?
    requires IsDeviceCommit(st.deploy.value.change.commit)
    requires forall id :: id in st.store.devices ==> DistinctPorts(st.store.devices[id].ingresses)
    ensures st.deploy.value.phase == Preparing && st.deploy.value.acked == |st.deploy.value.chosen|
    ensures st'.sessions == st.sessions && st'.nodes == st.nodes && st'.hub == st.hub
    ensures var dp := st.deploy.value;
            if Takes(st.store, dp.change.commit) then
              && InStore(st'.store.devices, dp.change.commit)
              && st'.deploy == Some(dp.(phase := Activating, sent := 0, acked := 0))
              && st'.log == st.log + [CommittedDevice(dp.req, dp.change.device)]
            else
              && st'.store == st.store && st'.deploy == None
              && st'.log == st.log + [Finished(dp.req, dp.change, dp.chosen, false)]
  {
    var op := st.deploy.value.change.commit;
    OutcomeIffTakes(st.store, op);
    if Takes(st.store, op) {
      OutcomeInStore(st.store, op);
    }
  }

  lemma OutcomeInStore(s: StoreState, op: StoreRuns.Op)
    requires IsDeviceCommit(op) && StoreRuns.Outcome(s, op).Ok?
    ensures Changed(s, op, StoreRuns.Outcome(s, op).value)
  {
    match op
    case RotateOp(id, password, now) => RotationInStore(s, id, password, now);
    case AddOp(id, x, now) => AdditionInStore(s, id, x, now);
    case DeleteOp(id, port, now) => DeletionInStore(s, id, port, now);
  }

  lemma InStoreKept(devices: map<DeviceId, Device>, devices': map<DeviceId, Device>, op: StoreRuns.Op)
    requires InStore(devices, op) && Target(op).Some?
    requires Target(op).value in devices' && devices'[Target(op).value] == devices[Target(op).value]
    ensures InStore(devices', op)
  {
  }

  /** A device deployment that logs its commit has changed the store: the new password, the new ingress, or
      the removal is there, and no other device is touched. */
  lemma CommitChangesStore(states: seq<State>, labels: seq<Label>, n: nat, req: RequestId, d: Device, op: StoreRuns.Op)
    requires IsRun(states, labels) && CommitsDevice(states, labels, n, req, d, op)
    ensures InStore(states[n + 1].store.devices, op)
    ensures Target(op).Some? && Target(op).value in states[n].store.devices
    ensures StoreEffects.OnlyDevice(states[n].store, states[n + 1].store, Target(op).value)
  {
    RunKeeps(states, labels, n);
    RunMoves(states, labels, n);
    CommitEntry(states[n], labels[n], states[n + 1], req, d);
    OutcomeInStore(states[n].store, op);
  }

  /** If the device was unchanged between the API's read and the commit, the store then has exactly the fields
      that were pushed to the gateways. */
  lemma CommitStoresProposal(states: seq<State>, labels: seq<Label>, n: nat, req: RequestId, d: Device,
                             op: StoreRuns.Op)
    requires IsRun(states, labels) && CommitsDevice(states, labels, n, req, d, op)
    requires Target(op).Some? && Target(op).value in states[n].store.devices
    requires IsProposal(states[n].store.devices[Target(op).value], op, d)
    ensures var id := Target(op).value;
            id in states[n + 1].store.devices && OfDevice(states[n + 1].store.devices[id]) == OfDevice(d)
  {
    RunMoves(states, labels, n);
    CommitEntry(states[n], labels[n], states[n + 1], req, d);
  }

  // ---------------------------------------------------------------------------
  // From the commit to the return
  // ---------------------------------------------------------------------------

  /** Only a commit changes a device, and no step removes one. */
  lemma DevicesOfStep(st: State, l: Label, st': State, id: DeviceId)
    requires Moves(st, l, st') && !l.Commit? && id in st.store.devices
    ensures id in st'.store.devices && st'.store.devices[id] == st.store.devices[id]
  {
    if OfDeployment(l) {
      DevicesOfDeploymentStep(st, l, st', id);
    }
  }

  lemma DevicesOfDeploymentStep(st: State, l: Label, st': State, id: DeviceId)
    requires Moves(st, l, st') && !l.Commit? && OfDeployment(l) && id in st.store.devices
    ensures id in st'.store.devices && st'.store.devices[id] == st.store.devices[id]
  {
  }

  lemma RequestsGrow(st: State, l: Label, st': State)
    requires Moves(st, l, st')
    ensures st.nextReq <= st'.nextReq && st.log <= st'.log
  {
    LogOfStep(st, l, st');
  }

  ghost predicate Runs(st: State, req: RequestId) {
    st.deploy.Some? && st.deploy.value.req == req
  }

  lemma {:induction false} RequestsGrowInRun(states: seq<State>, labels: seq<Label>, m: nat, n: nat)
    requires IsRun(states, labels) && m <= n <= |labels|
    ensures states[m].nextReq <= states[n].nextReq && states[m].log <= states[n].log
    decreases n
  {
    if m < n {
      RequestsGrowInRun(states, labels, m, n - 1);
      RunMoves(states, labels, n - 1);
      RequestsGrow(states[n - 1], labels[n - 1], states[n]);
    }
  }

  /** A deployment that runs after step `k`, and is not new, ran before it. */
  lemma RanBefore(states: seq<State>, labels: seq<Label>, m: nat, k: nat, req: RequestId)
    requires IsRun(states, labels) && m <= k < |labels| && req < states[m].nextReq && Runs(states[k + 1], req)
    ensures Runs(states[k], req)
  {
    RequestsGrowInRun(states, labels, m, k);
    RunMoves(states, labels, k);
    DeployOfStep(states[k], labels[k]);
  }

  lemma RequestIssued(states: seq<State>, labels: seq<Label>, n: nat, req: RequestId)
    requires IsRun(states, labels) && n <= |labels| && Runs(states[n], req)
    ensures req < states[n].nextReq
  {
    RunKeeps(states, labels, n);
  }

  /** A commit that leaves the deployment running logs its request. */
  lemma CommitLogs(st: State, l: Label, st': State, req: RequestId)
    requires Moves(st, l, st') && l.Commit? && Runs(st', req)
    ensures |st'.log| == |st.log| + 1 && IsCommit(st'.log[|st.log|]) && st'.log[|st.log|].req == req
  {
  }

  /** After its commit a deployment commits no more. */
  lemma NoSecondCommit(states: seq<State>, labels: seq<Label>, n: nat, k: nat, req: RequestId, d: Device,
                       op: StoreRuns.Op)
    requires IsRun(states, labels) && CommitsDevice(states, labels, n, req, d, op)
    requires n < k < |labels| && Runs(states[k + 1], req)
    ensures !labels[k].Commit?
  {
    if labels[k].Commit? {
      RequestsGrowInRun(states, labels, n + 1, k);
      RequestsGrowInRun(states, labels, n + 1, k + 1);
      CommitLogsAt(states, labels, k, req);
      assert states[n + 1].log[|states[n].log|] == CommittedDevice(req, d);
      TwoCommits(states, labels, k + 1, |states[n].log|, |states[k].log|);
    }
  }

  lemma CommitLogsAt(states: seq<State>, labels: seq<Label>, k: nat, req: RequestId)
    requires IsRun(states, labels) && k < |labels| && labels[k].Commit? && Runs(states[k + 1], req)
    ensures |states[k + 1].log| == |states[k].log| + 1
    ensures IsCommit(states[k + 1].log[|states[k].log|]) && states[k + 1].log[|states[k].log|].req == req
  {
    RunMoves(states, labels, k);
    CommitLogs(states[k], labels[k], states[k + 1], req);
  }

  lemma TwoCommits(states: seq<State>, labels: seq<Label>, n: nat, b: nat, c: nat)
    requires IsRun(states, labels) && n <= |labels| && b < c < |states[n].log|
    requires IsCommit(states[n].log[b]) && IsCommit(states[n].log[c])
    ensures states[n].log[b].req != states[n].log[c].req
  {
    RunKeeps(states, labels, n);
  }

  lemma {:induction false} KeptSinceCommit(states: seq<State>, labels: seq<Label>, n: nat, m: nat, req: RequestId,
                                           d: Device, op: StoreRuns.Op, id: DeviceId)
    requires IsRun(states, labels) && CommitsDevice(states, labels, n, req, d, op)
    requires n < m <= |labels| && Runs(states[m], req) && id in states[n + 1].store.devices
    ensures id in states[m].store.devices && states[m].store.devices[id] == states[n + 1].store.devices[id]
    ensures states[m].deploy.value.change == DeviceChange(d, op)
    decreases m
  {
    if n + 1 == m {
      RunMoves(states, labels, n);
      DeployOfStep(states[n], labels[n]);
    } else {
      RequestIssued(states, labels, n, req);
      RanBefore(states, labels, n, m - 1, req);
      KeptSinceCommit(states, labels, n, m - 1, req, d, op, id);
      NoSecondCommit(states, labels, n, m - 1, req, d, op);
      RunMoves(states, labels, m - 1);
      DevicesOfStep(states[m - 1], labels[m - 1], states[m], id);
      DeployOfStep(states[m - 1], labels[m - 1]);
      NotBegun(states, labels, m - 1, req);
    }
  }

  /** A deployment that ran before a step was not begun by it. */
  lemma NotBegun(states: seq<State>, labels: seq<Label>, k: nat, req: RequestId)
    requires IsRun(states, labels) && k < |labels| && Runs(states[k], req)
    ensures !labels[k].Begin?
  {
    RunMoves(states, labels, k);
  }

  /** When DeployDevice returns nil, the change is in the store. If the device was unchanged between the API's
      read and the commit, the store has exactly the fields that every captured session's gateway put into its
      table. */
  lemma StoreAndGatewaysAgree(states: seq<State>, labels: seq<Label>, n: nat, m: nat, req: RequestId, d: Device,
                              op: StoreRuns.Op)
    requires IsRun(states, labels) && CommitsDevice(states, labels, n, req, d, op)
    requires n < m < |labels| && labels[m].Finish? && Runs(states[m], req)
    ensures Target(op).Some? && Target(op).value in states[m].store.devices && InStore(states[m].store.devices, op)
    ensures var id := Target(op).value;
            id in states[n].store.devices && IsProposal(states[n].store.devices[id], op, d) ==>
              OfDevice(states[m].store.devices[id]) == OfDevice(d)
    ensures var chosen := states[m].deploy.value.chosen;
            forall i :: 0 <= i < |chosen| ==> InstalledDevice(req, chosen[i], d) in states[m].log
  {
    CommitChangesStore(states, labels, n, req, d, op);
    var id := Target(op).value;
    if id in states[n].store.devices && IsProposal(states[n].store.devices[id], op, d) {
      CommitStoresProposal(states, labels, n, req, d, op);
    }
    KeptSinceCommit(states, labels, n, m, req, d, op, id);
    InStoreKept(states[n + 1].store.devices, states[m].store.devices, op);
    forall i | 0 <= i < |states[m].deploy.value.chosen|
      ensures InstalledDevice(req, states[m].deploy.value.chosen[i], d) in states[m].log
    {
      var k := FinishHasEntry(states, labels, m, i);
    }
  }
}
