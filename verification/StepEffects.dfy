/** What the steps of the deployment protocol do to the state, field by field (internal/control/hub.go:36-202,
    internal/dataplane/control_client.go:92-100). */
module StepEffects {
  import opened Model
  import opened RouteTable
  import opened Wire
  import opened Deployment

  /** Every session but `s` is as it was. */
  ghost predicate OtherSessionsKept(st: State, st': State, s: SessionId) {
    |st'.sessions| == |st.sessions| && forall x :: 0 <= x < |st.sessions| && x != s ==>
        st'.sessions[x] == st.sessions[x]
  }

  ghost predicate OnlySessions(st: State, st': State) {
    && st'.store == st.store && st'.commits == st.commits && st'.nodes == st.nodes && st'.hub == st.hub
  }

  /** A deployment that begins has the lock, a request ID of its own, and starts with PREPARE. */
  lemma BeginEffect(st: State, change: Change, chosen: seq<SessionId>, st': State)
    requires Moves(st, Begin(change, chosen), st')
    ensures st.deploy == None && chosen != [] && st'.deploy.Some?
    ensures var dp := st'.deploy.value;
            && dp.req == st.nextReq && st'.nextReq == st.nextReq + 1 && dp.change == change && dp.chosen == chosen
            && dp.phase == Preparing && dp.sent == 0 && dp.acked == 0
    ensures OnlySessions(st, st') && st'.sessions == st.sessions && st'.log == st.log
    ensures change.RouteChange? ==> change.route in st.ops
  {
  }

  /** The frame of a phase goes to the end of the next chosen stream: PREPARE or DEVICE_PREPARE first, ACTIVATE
      or DEVICE_UPDATE after the commit, with the request ID and the whole route or device. */
  lemma SendEffect(st: State, st': State)
    requires Moves(st, Send, st')
    ensures st.deploy.Some? && st.deploy.value.sent < |st.deploy.value.chosen|
    ensures var dp := st.deploy.value;
            var s := dp.chosen[dp.sent];
            && s < |st.sessions| && OtherSessionsKept(st, st', s)
            && |st'.sessions[s].queue| == |st.sessions[s].queue| + 1
            && st'.sessions[s].queue[..|st.sessions[s].queue|] == st.sessions[s].queue
            && st'.sessions[s].acks == st.sessions[s].acks
            && var f := st'.sessions[s].queue[|st.sessions[s].queue|];
               && (dp.phase == Preparing && dp.change.RouteChange? ==> f == Prepare(dp.req, Some(dp.change.route)))
               && (dp.phase == Preparing && dp.change.DeviceChange? ==>
                     f == DevicePrepare(dp.req, Some(dp.change.device)))
               && (dp.phase == Activating && dp.change.RouteChange? ==> f == Activate(dp.req, Some(dp.change.route)))
               && (dp.phase == Activating && dp.change.DeviceChange? ==>
                     f == DeviceUpdate(dp.req, Some(dp.change.device)))
    ensures OnlySessions(st, st') && st'.log == st.log
    ensures st'.deploy == Some(st.deploy.value.(sent := st.deploy.value.sent + 1))
  {
  }

  /** An acknowledgement is taken from the session that is waited for, once all frames of the phase are out.
      A foreign one changes nothing else; a positive one moves on; an error ends the deployment. */
  lemma AwaitEffect(st: State, st': State)
    requires Moves(st, Await, st')
    ensures st.deploy.Some? && st.deploy.value.acked < |st.deploy.value.chosen| == st.deploy.value.sent
    ensures var dp := st.deploy.value;
            var s := dp.chosen[dp.acked];
            && s < |st.sessions| && st.sessions[s].acks != [] && OtherSessionsKept(st, st', s)
            && st'.sessions[s].acks == st.sessions[s].acks[1..] && st'.sessions[s].queue == st.sessions[s].queue
            && var ack := st.sessions[s].acks[0];
               && (ack.req != dp.req ==> st'.deploy == st.deploy && st'.log == st.log)
               && (ack.req == dp.req && ack.ok ==> st'.deploy == Some(dp.(acked := dp.acked + 1)) && st'.log == st.log)
               && (ack.req == dp.req && !ack.ok ==>
                     GivesUp(st, st') && st'.deploy == None
                       && st'.log == st.log + [Finished(dp.req, dp.change, dp.chosen, false)])
    ensures OnlySessions(st, st')
  {
  }

  /** A deployment that fails before its commit leaves its route to no one. */
  ghost predicate GivesUp(st: State, st': State)
    requires st.deploy.Some?
  {
    var dp := st.deploy.value;
    forall r :: r in st'.ops <==> r in st.ops && !(dp.phase == Preparing && dp.change == RouteChange(r))
  }

  /** A stage puts the route into the store's pending slot, and its writer waits for the deployment. */
  lemma StageEffect(st: State, r: Route, expected: int, st': State)
    requires Moves(st, Stage(r, expected), st')
    ensures r.deviceId in st.store.devices && r.version == expected + 1
    ensures if r.deviceId in st.store.routes then st.store.routes[r.deviceId].version == expected else expected == 0
    ensures r.deviceId in st'.store.pending && st'.store.pending[r.deviceId] == r
    ensures st'.store.devices == st.store.devices && st'.store.routes == st.store.routes
    ensures forall q :: q in st'.ops <==> q in st.ops || q == r
    ensures st'.sessions == st.sessions && st'.nodes == st.nodes && st'.deploy == st.deploy && st'.log == st.log
  {
  }

  lemma DropEffect(st: State, r: Route, st': State)
    requires Moves(st, Drop(r), st')
    ensures forall q :: q in st'.ops <==> q in st.ops && q != r
    ensures st'.store == st.store && st'.sessions == st.sessions && st'.nodes == st.nodes && st'.deploy == st.deploy
  {
  }

  /** The hub forgets the session of a gateway; the session itself is as it was. */
  lemma UnregisterEffect(st: State, g: GatewayId, st': State)
    requires Moves(st, Unregister(g), st')
    ensures g in st.hub && g !in st'.hub && forall h :: h in st.hub && h != g ==>
              h in st'.hub && st'.hub[h] == st.hub[h]
    ensures st'.store == st.store && st'.sessions == st.sessions && st'.nodes == st.nodes && st'.deploy == st.deploy
  {
  }

  /** A gateway whose stream breaks keeps its table and its file. */
  lemma DisconnectEffect(st: State, g: GatewayId, st': State)
    requires Moves(st, Disconnect(g), st')
    ensures g in st.nodes && g in st'.nodes && st'.nodes[g].stream == None && st'.nodes[g].memory == st.nodes[g].memory
    ensures forall h :: h in st.nodes && h != g ==> h in st'.nodes && st'.nodes[h] == st.nodes[h]
    ensures st'.store == st.store && st'.sessions == st.sessions && st'.deploy == st.deploy
  {
  }

  /** Interrupt and SetDraining queue a frame of their own and may take any acknowledgement. */
  lemma NotifyEffect(st: State, s: SessionId, f: Frame, st': State)
    requires Moves(st, Notify(s, f), st')
    ensures s < |st.sessions| && (f.Interrupt? || f.SetDraining?) && f.req == st.nextReq
            && st'.nextReq == st.nextReq + 1
    ensures OtherSessionsKept(st, st', s) && st'.sessions[s].queue == st.sessions[s].queue + [f]
    ensures OnlySessions(st, st') && st'.deploy == st.deploy && st'.log == st.log
  {
  }

  lemma TakeEffect(st: State, s: SessionId, st': State)
    requires Moves(st, Take(s), st')
    ensures s < |st.sessions| && st.sessions[s].acks != [] && OtherSessionsKept(st, st', s)
    ensures st'.sessions[s].acks == st.sessions[s].acks[1..] && st'.sessions[s].queue == st.sessions[s].queue
    ensures OnlySessions(st, st') && st'.deploy == st.deploy && st'.log == st.log
  {
  }

  /** A heartbeat says whether the session counts as ready, which needs its snapshot on the stream. */
  lemma HeartbeatEffect(st: State, s: SessionId, ready: bool, st': State)
    requires Moves(st, Heartbeat(s, ready), st')
    ensures s < |st.sessions| && OtherSessionsKept(st, st', s) && st'.sessions[s].ready == ready
    ensures ready ==> st.sessions[s].snapshotSent
    ensures st'.sessions[s].queue == st.sessions[s].queue && st'.sessions[s].acks == st.sessions[s].acks
    ensures OnlySessions(st, st') && st'.deploy == st.deploy && st'.log == st.log
  {
  }

  /** The return: nil only after every session answered the second phase. */
  lemma FinishEffect(st: State, st': State)
    requires Moves(st, Finish, st')
    ensures st.deploy.Some?
    ensures var dp := st.deploy.value;
            && dp.phase == Activating && dp.acked == |dp.chosen|
            && st'.deploy == None && st'.log == st.log + [Finished(dp.req, dp.change, dp.chosen, true)]
    ensures OnlySessions(st, st') && st'.sessions == st.sessions
  {
  }

  /** A deadline, a disconnect or a cancelled request. A route that has not been committed is given up. */
  lemma AbortEffect(st: State, st': State)
    requires Moves(st, Abort, st')
    ensures st.deploy.Some?
    ensures GivesUp(st, st')
    ensures var dp := st.deploy.value;
            st'.deploy == None && st'.log == st.log + [Finished(dp.req, dp.change, dp.chosen, false)]
    ensures OnlySessions(st, st') && st'.sessions == st.sessions
  {
  }

  /** The commit of a route, after every session answered PREPARE: the pending route of that version becomes the
      active one, or the deployment fails and the store is as it was. */
  lemma CommitRouteEffect(st: State, st': State)
    requires Moves(st, Commit, st') && st.deploy.Some? && st.deploy.value.change.RouteChange?
    ensures st.deploy.value.phase == Preparing && st.deploy.value.acked == |st.deploy.value.chosen|
    ensures st'.sessions == st.sessions && st'.nodes == st.nodes && st'.hub == st.hub
    ensures var dp := st.deploy.value;
            var r := dp.change.route;
            if r.deviceId in st.store.pending && st.store.pending[r.deviceId].version == r.version then
              && r.deviceId in st'.store.routes && r.deviceId !in st'.store.pending
              && st'.store.routes[r.deviceId] == st.store.pending[r.deviceId].(status := Active)
              && st'.store.devices == st.store.devices
              && st'.deploy == Some(dp.(phase := Activating, sent := 0, acked := 0))
              && st'.log == st.log + [CommittedRoute(dp.req, r)]
              && (forall q :: q in st'.ops <==> q in st.ops && q != r)
            else
              st'.store == st.store && st'.deploy == None && GivesUp(st, st')
              && st'.log == st.log + [Finished(dp.req, dp.change, dp.chosen, false)]
  {
  }

  /** A new stream: the gateway serves it, is registered under it and is not ready. */
  lemma ConnectEffect(st: State, g: GatewayId, st': State)
    requires Moves(st, Connect(g), st')
    ensures var s := |st.sessions|;
            && |st'.sessions| == s + 1 && st'.sessions[..s] == st.sessions
            && st'.sessions[s].gateway == g && st'.sessions[s].queue == [] && st'.sessions[s].acks == []
            && !st'.sessions[s].ready && !st'.sessions[s].snapshotSent
            && g in st'.hub && st'.hub[g] == s && g in st'.nodes && st'.nodes[g].stream == Some(s)
            && st'.nodes[g].memory == st.nodes[g].memory
    ensures st'.store == st.store && st'.deploy == st.deploy && st'.log == st.log
  {
  }

  /** The snapshot holds the active routes of the store and stands before everything queued. */
  lemma SnapshotEffect(st: State, s: SessionId, routes: seq<Route>, st': State)
    requires Moves(st, ReadSnapshot(s, routes), st')
    ensures s < |st.sessions| && !st.sessions[s].snapshotSent && OtherSessionsKept(st, st', s)
    ensures st'.sessions[s].snapshotSent
    ensures st'.sessions[s].queue == [Snapshot(st.nextReq, routes)] + st.sessions[s].queue
    ensures forall i :: 0 <= i < |routes| ==>
              routes[i].deviceId in st.store.routes && st.store.routes[routes[i].deviceId] == routes[i]
    ensures forall d :: d in st.store.routes ==> st.store.routes[d] in routes
    ensures OnlySessions(st, st') && st'.deploy == st.deploy && st'.log == st.log
  {
  }

  /** A restarted process holds what its snapshot file says, or nothing, and serves no stream. */
  lemma RestartEffect(st: State, g: GatewayId, fromDisk: bool, st': State)
    requires Moves(st, Restart(g, fromDisk), st')
    ensures g in st.nodes && g in st'.nodes && st'.nodes[g].stream == None
    ensures st'.nodes[g].memory.disk == st.nodes[g].memory.disk && st'.nodes[g].memory.table.pending == map[]
    ensures var disk, t := st.nodes[g].memory.disk, st'.nodes[g].memory.table;
            if fromDisk && disk.Some? then t.loaded && t.active == LoadActive(disk.value)
            else !t.loaded && t.active == map[]
    ensures forall h :: h in st.nodes && h != g ==> h in st'.nodes && st'.nodes[h] == st.nodes[h]
    ensures st'.store == st.store && st'.sessions == st.sessions && st'.log == st.log
  {
  }

  /** A gateway takes the first frame of its stream and answers it with its request ID. */
  lemma HandleEffect(st: State, g: GatewayId, memory: GatewayMemory, ok: bool, st': State)
    requires Moves(st, Handle(g, memory, ok), st')
    ensures g in st.nodes && st.nodes[g].stream.Some? && st.nodes[g].stream.value < |st.sessions|
    ensures var s := st.nodes[g].stream.value;
            && st.sessions[s].queue != [] && OtherSessionsKept(st, st', s)
            && st'.sessions[s].queue == st.sessions[s].queue[1..]
            && |st'.sessions[s].acks| == |st.sessions[s].acks| + 1
            && st'.sessions[s].acks[..|st.sessions[s].acks|] == st.sessions[s].acks
            && st'.sessions[s].acks[|st.sessions[s].acks|] == Ack(st.sessions[s].queue[0].req, ok)
            && g in st'.nodes && st'.nodes[g].memory == memory && st'.nodes[g].stream == Some(s)
    ensures st'.store == st.store && st'.deploy == st.deploy && st'.hub == st.hub
  {
  }
}
