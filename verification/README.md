# ProxyMesh: a model of the configuration protocol, verified in Dafny

ProxyMesh publishes device routes and Shadowsocks ingresses from a control plane to a set of gateways. A
change is staged in the store, prepared on every ready gateway, committed, and then activated everywhere.
This project models that protocol and the parts it rests on, and proves what holds over all runs.

| module | what it models |
|---|---|
| `Model`, `Wire` | the records of `internal/model/model.go`, the control frames, and what one frame may do to a gateway's table and snapshot file |
| `Deployment` | the two-phase deployment as a labelled transition system: store, hub, sessions with in-order frame and acknowledgement queues, deploy lock, gateways |
| `DeploymentInvariant`, `DeploymentTheorems` | its inductive invariant, and the guarantees over whole runs |
| `StepEffects` | what each of its steps does, field by field |
| `DeviceDeployments` | what a device deployment commits, and that store and gateways then agree |
| `CredentialAgreement` | when gateways at the same version hold the same upstream credential, and exactly when they do not |
| `GatewayProgress` | exactly when a gateway is up to date with the store, and what a successful deployment leaves |
| `SampleRuns` | runs that succeed, lag and disagree |
| `Hub` | the two loops of the hub that the transition system takes step by step |
| `RouteTable`, `UsernameIndex`, `DesiredListeners`, `GatewayListeners`, `ControlClient` | the gateway: routing table and its user name index, listener reconciler, and the frame machine with its synced flag |
| `MemoryStore`, `StoreEffects`, `StoreRuns` | the in-memory store, what each operation does field by field, and what every sequence of them keeps |
| `PostgresRoutes`, `IngressProposals`, `DeviceMirror` | the SQL store as rows under constraints, its refinement of the in-memory store, and the devices that the API pushes before it commits |
| `SortedStrings`, `WeightedSelection`, `Template`, `TemplateExact`, `TemplateValues` | weighted choice counted over 64-bit draws, and template rendering as simultaneous substitution, with the exact conditions |
| `Socks5` | the SOCKS5 client against decoders written from RFC 1928 and RFC 1929 |
| `ConnectionTracker` | the gateway's connection counter |

Code that changes state in place is modelled by classes and loops, each proved against a specification
function; the properties are then lemmas about those functions. `ControlClient.Client.Handle` is proved to
satisfy `Wire.MemoryStep`, the only thing that `Deployment` assumes about a gateway, so the run theorems
apply to the frame machine as modelled. `MemoryStore.Memory` is tied in the same way to the specification
functions that `Deployment` steps the store with.

## Assumptions

- Request IDs are fresh. The code takes them from a nanosecond clock (`internal/control/hub.go:209`).
- A gateway answers each frame with one acknowledgement, in order (`internal/dataplane/control_client.go:94-100`);
  handling a frame is one step with respect to a restart of the process.
- Database transactions are atomic and isolated from each other.
- Routes are staged at version `expected + 1` (`internal/control/api.go:309`, `api.go:415`); devices are
  created with a nonzero port, no ingress list and `Username = ID` (`internal/control/api.go:118-131`).
- What surroundings decide is a parameter: which credentials the Shadowsocks library accepts, which ports can
  be bound, whether the disk can be written, what the random source and the network deliver, the time.

Reading the active routes and sending the snapshot (`internal/control/hub.go:55-62`) is one step of
`Deployment`. This loses no behaviour: the frame may stay on the stream for any length of time, nothing queued
for the session is handled before it, and readiness needs it.

## Where the code falls short of a plain reading

- Two writers may stage the same version of one device before either commits. The store then commits one
  credential while gateways activate the other under the same version number, and a gateway that connects later
  gets the committed one. `SampleRuns.OverstagedRunDisagrees` is such a run;
  `CredentialAgreement.InstalledIsRecordedIffFaithful` gives the exact condition.
- A ready gateway may lag behind the store: it read its snapshot before a commit, and became ready after that
  deployment had captured its sessions. `SampleRuns.ReadyGatewayLags` is such a run;
  `GatewayProgress.CaughtUpIff` says exactly when a gateway has the store's version of a device's route.
- Having that version does not mean having the device's latest ingresses. Activating a route that was built before a
  device change takes the old fields back (`GatewayProgress.ActivationUndoesDevice`), and the in-memory store's route
  misses a rotated ingress password (`GatewayProgress.RotationMissesRoute`). `GatewayProgress.CarriesIff` says exactly
  when a gateway carries a device.
- Template values come from the request, and braces in them are expanded again: a country of `{{session}}` puts the
  session where the country should stand, and a state of `{{secret.x}}` reveals the secret
  (`TemplateExact.CountryIsExpandedTwice`, `TemplateExact.StateRevealsSecret`). `TemplateExact.AgreesIff` is the exact
  condition for one template, `TemplateValues.AllTemplatesAgreeIff` the one on the values for all templates.
- Activating a route under a new user name leaves the old name in the gateway's index, pointing at the device
  (`RouteTable.StaleUsernameExample`). No path of the API leads there, because a device's user name is set to its ID
  when it is created (`internal/control/api.go:118`) and never changed. `UsernameIndex.ExactThroughoutIff` gives the
  exact condition for any user names.
- The SOCKS5 client logs in with an empty user name or password when only one of the two is set, which section 2
  of RFC 1929 does not allow. `Socks5.AuthConformsIff` gives the exact condition.
- After an ingress was added, the list pushed to the gateways has the order of the stored one if and only if the
  new ingress sorts last (`IngressProposals.AddCommitsProposal`; `IngressProposals.AddOutOfOrderExample` is a device
  where it does not).
- Postgres refuses some stages that the in-memory store accepts, and a new device whose user name is taken;
  `PostgresRoutes.StageAnswersAlikeIff` and `DeviceMirror.CreateAnswersAlikeIff` say exactly when the two answer alike.
  No path of the API reaches the difference: it stages routes of devices it has read, with a random credential ID, a
  checked port and a provider it has read (`internal/control/api.go:288-311`, `api.go:365-417`), and names devices by
  their IDs.
- Deleting the primary of a device whose ingresses all share one port panics, in the store and in the API.
  `StoreRuns.NoRunPanics` shows that no run of API operations leads there.

## Model

| member | source | states |
|---|---|---|
| DeploymentInvariant.RunKeeps | internal/control/hub.go:36-137 | The protocol's inductive invariant holds in every state of every run, under any interleaving of deployments, deadlines, disconnects, reconnects, restarts, late frames and foreign acknowledgements. |
| DeploymentInvariant.StepKeeps | internal/control/hub.go:36-202 | Every single step of the hub, the API, the store or a gateway keeps the invariant. |
| DeploymentInvariant.SnapshotDominates | internal/control/hub.go:55-62 | A snapshot read from the store is nowhere behind the table of any gateway, because no table is ahead of the store. |
| DeploymentInvariant.HandledAwaitsActivate | internal/dataplane/control_client.go:147-178 | A positive answer to ACTIVATE is only ever sent with the deployed route active in the gateway's table, and one to DEVICE_UPDATE with the table carrying the device's fields or having no route for it. |
| StepEffects.BeginEffect | internal/control/hub.go:103-110 | A deployment takes the lock, a request ID of its own and the ready sessions, and starts with PREPARE. |
| StepEffects.SendEffect | internal/control/hub.go:111-136 | The frame goes to the end of the next chosen stream: PREPARE or DEVICE_PREPARE in the first phase, ACTIVATE or DEVICE_UPDATE in the second, with the request ID and the whole route or device. |
| StepEffects.AwaitEffect | internal/control/hub.go:176-201 | A foreign acknowledgement changes nothing else, a positive one moves on to the next session, an error ends the deployment with an error. |
| StepEffects.CommitRouteEffect | internal/control/hub.go:114-116 | The commit makes the pending route of that version the active one, or the deployment fails and the store is as it was. |
| StepEffects.StageEffect | internal/control/api.go:419-423 | A route of a stored device goes into the pending slot if its version is one above the active one, and its writer waits for the deployment. |
| StepEffects.AbortEffect | internal/control/hub.go:163-202 | A deployment that ends early reports failure, and gives up its route if that is not committed. |
| StepEffects.HeartbeatEffect | internal/control/hub.go:74-79 | A heartbeat sets the readiness of its session and nothing else. |
| StepEffects.UnregisterEffect | internal/control/hub.go:47-54 | The cleanup removes one registration. |
| StepEffects.NotifyEffect | internal/control/hub.go:138-151 | Interrupt and SetDraining queue a frame of their own under a request ID of its own. |
| StepEffects.FinishEffect | internal/control/hub.go:117-118 | A deployment returns nil only when every chosen session has answered the second phase. |
| StepEffects.ConnectEffect | internal/control/hub.go:44-54 | A new session is registered for its gateway, empty and not ready, in place of an older one. |
| StepEffects.SnapshotEffect | internal/control/hub.go:55-62 | The snapshot lists exactly the store's active routes and stands before everything queued. |
| StepEffects.RestartEffect | internal/dataplane/snapshot.go:30-44 | A new process holds exactly the routes of its snapshot file, or nothing, and no pending route. |
| StepEffects.HandleEffect | internal/dataplane/control_client.go:92-100 | A gateway takes the first frame of its stream and appends one acknowledgement with its request ID. |
| DeviceDeployments.CommitChangesStore | internal/control/api.go:151-271 | When a device deployment logs its commit, the store has the new password on the flat field and every primary ingress, the new ingress at the end of the list, or no ingress on the deleted port, and no other device is touched. |
| DeviceDeployments.CommitDeviceEffect | internal/control/hub.go:130-135 | The commit succeeds exactly when the device is there and the port free to add or there to delete; then the change is in the store, otherwise the deployment fails and the store is as it was. |
| DeviceDeployments.CommitStoresProposal | internal/control/api.go:151-271 | If the device was unchanged between read and commit, the store then has exactly the fields that were pushed. |
| DeviceDeployments.StoreAndGatewaysAgree | internal/control/hub.go:122-137 | When DeployDevice returns nil the change is in the store, and with the device unchanged in between the store has exactly the fields that every captured session's gateway put into its table. |
| DeploymentTheorems.NoGatewayIsAhead | internal/dataplane/table.go:42-54 | In every reachable state no gateway's active version of a device exceeds the store's. |
| DeploymentTheorems.ActivateFollowsCommit | internal/control/hub.go:114-117 | Every ACTIVATE in flight names a route that has been committed, at a version the store has reached. |
| DeploymentTheorems.CommitsAreCounted | internal/store/memory.go:186-207 | In every run the active version of a device is the number of its commits, and a pending route is exactly one above it. |
| DeploymentTheorems.SuccessMeansInstalled | internal/control/hub.go:103-137 | If a deployment returned nil, every session it had captured installed exactly the deployed change, after the commit and before the return. |
| DeploymentTheorems.FinishedHadBegun | internal/control/hub.go:103-111 | The sessions a finished deployment reports on are the ready sessions of the moment it began. |
| DeploymentTheorems.PrepareAckIsNeverCounted | internal/control/hub.go:163-202 | In the second phase an acknowledgement under the deployment's request ID exists only after ACTIVATE was sent to that session, and a positive one means the change is in place, although PREPARE used the same ID. |
| DeploymentTheorems.FailedDeploymentNeverInstalls | internal/control/hub.go:111-116 | A deployment that failed in PREPARE or at the commit installs nothing on any gateway, at any later time. |
| DeploymentTheorems.ActiveRoutesChangeOnlyAfterCommit | internal/control/hub.go:103-137 | A gateway's active routes change only by a restart, a snapshot, or the second-phase frame of a committed deployment, so a late PREPARE changes none; the store's active routes change only at a commit. |
| DeploymentTheorems.VersionsNeverDecrease | internal/control/hub.go:44-62 | As long as its process lives, a gateway's active version of a device never decreases and no active route vanishes, although a reconnect replaces the whole table. |
| CredentialAgreement.FaithfulRunsAgree | internal/dataplane/table.go:42-54 | If every commit found the deployed route's credential in the pending slot, every table, snapshot file and frame carries only credentials the store committed at that version. |
| CredentialAgreement.ExclusiveRunsHaveOneWriter | internal/control/api.go:419-427 | If no second stage of a device lands between a stage and its commit, each waiting route is the one in the store's pending slot. |
| CredentialAgreement.GatewaysAgree | internal/control/api.go:419-427 | Under that condition any two gateways at the same version of a device hold the same upstream credential, the committed one. |
| CredentialAgreement.InstalledIsRecordedIffFaithful | internal/dataplane/table.go:42-54 | In any run, a route that a gateway installed carries the committed credential if and only if the pending slot held its credential when its deployment committed. |
| GatewayProgress.CaughtUpIff | internal/control/hub.go:55-62 | A gateway that has loaded the snapshot of the stream it serves has the store's version of a device's route if and only if no route of it was committed since the snapshot was read, or the latest version was installed under this stream. |
| GatewayProgress.TableIsReplay | internal/dataplane/table.go:21-72 | Its active table is exactly the snapshot, changed by the routes and devices that were installed under the stream since, in that order. |
| GatewayProgress.CarriesIff | internal/dataplane/table.go:42-72 | It carries a device, such as the latest committed one, if and only if the last route or device installed under the stream for it has these fields, or there was none and the snapshot has them. |
| GatewayProgress.ActivationUndoesDevice | internal/dataplane/table.go:42-72 | A table on which activating an earlier built route undoes an installed device. |
| GatewayProgress.RotationMissesRoute | internal/store/memory.go:104-111 | After a rotation the stored route still has the old password in its ingress list, so a snapshot does not carry the device. |
| GatewayProgress.RunFollows | internal/dataplane/table.go:21-54 | From then on each of its active versions comes from the snapshot or was installed under the stream, and is nowhere behind either. |
| GatewayProgress.FinishLeavesNewest | internal/control/hub.go:103-118 | When DeployRoute returns nil, the route is the store's newest of its device, and it is still the active version on every captured session's gateway whose process was not restarted since. |
| GatewayProgress.PositiveAnswerLoads | internal/dataplane/control_client.go:123-134 | A gateway that answers a snapshot positively has loaded it. |
| SampleRuns.SuccessIsReachable | internal/control/hub.go:103-118 | A run in which a device is created, its first route built from it is deployed and the deployment succeeds, with a table that can be served; the guarantees about success are not empty. |
| SampleRuns.ReadyGatewayLags | internal/control/hub.go:55-62 | A run that ends with a registered, ready gateway that has nothing left to handle and lacks the committed route of a created device. |
| SampleRuns.OverstagedRunDisagrees | internal/control/api.go:419-427 | A run in which two writers stage version 1 for a created device and two gateways end at the same version with different credentials, only one of them the committed one. |
| Hub.RunKeepsRegistered | internal/control/hub.go:44-54 | Each registered session belongs to the gateway it is registered under, whatever superseding and cleaning up has happened. |
| Hub.ReadySessions | internal/control/hub.go:152-162 | The list holds each registered session whose last heartbeat said READY once, and nothing else. |
| Hub.BroadcastAndWait | internal/control/hub.go:163-202 | Succeeds exactly when there is a session, the frame reached all of them and the first answer of each carries no error; then exactly the acknowledgements up to each answer have been taken. |
| Hub.AnswerMeans | internal/control/hub.go:178-188 | A session counts as having accepted exactly when its first acknowledgement of the request carries no error, and everything up to it is consumed. |
| Hub.AwaitIsOneTurn | internal/control/hub.go:176-201 | A step of the protocol that takes an acknowledgement agrees with that loop: a foreign one leaves the awaited answer as it is, the first one of the request lets the deployment go on or ends it. |
| ControlClient.Client.Handle | internal/dataplane/control_client.go:121-197 | For each kind of frame, exactly when the answer is positive, on the fields, the listener map and the surroundings; a positive PREPARE or DEVICE_PREPARE means that every port asked for is this device's; through every exit the synced flag keeps its guarantee and only a snapshot raises it; PREPARE, DEVICE_PREPARE and control frames change neither active routes nor forwarding listeners; draining and cancelled connections follow their frames. |
| ControlClient.Client.HandleDevicePrepare | internal/dataplane/control_client.go:179-183 | Positive exactly when every listener the device asks for is valid and its port free to bind or already this device's, and then every such port is held for it. |
| ControlClient.Client.HandleDeviceUpdate | internal/dataplane/control_client.go:163-178 | Positive exactly when the rewritten table can be served and saved. |
| ControlClient.Client.HandleSnapshot | internal/dataplane/control_client.go:123-134 | Positive exactly when the snapshot can be saved and served; success and the synced flag coincide, and a synced gateway serves and has stored exactly the new table. |
| ControlClient.Client.HandlePrepare | internal/dataplane/control_client.go:135-146 | Positive exactly when every listener the route asks for is valid, its port free to bind or already this device's, and the version above the active one; then every such port is held for the device. Active routes and forwarding are untouched on every exit, and the flag's guarantee survives. |
| ControlClient.Client.HandleActivate | internal/dataplane/control_client.go:147-162 | A refusal by the table changes nothing; otherwise the table holds its own pending copy as active, and the flag stays up only if listeners and disk followed; success means that both equal the table. |
| ControlClient.Client.Serve | internal/dataplane/control_client.go:92-100 | Over any sequence of frames there is one acknowledgement per frame, in order and with the answer of its handling, and the synced flag keeps its guarantee. |
| DesiredListeners.BuildDesired | internal/dataplane/gateway.go:91-104 | Accepts exactly the tables whose ingresses are complete and nowhere clash, and then maps each port to exactly the endpoint wanted there. |
| DesiredListeners.ListingIsProjection | internal/dataplane/gateway.go:91-104 | The outcome is the projection of the active table, whatever order its routes are visited in. |
| GatewayListeners.Gateway.ReconcileListeners | internal/dataplane/gateway.go:90-123 | Succeeds exactly when no port is asked for twice, no ingress is incomplete and every listener is there or can be started; then the listeners are exactly one for each ingress of each active route, or for its flat fields where it has no list, all active; unchanged listeners stay the same object on every outcome, leftovers are closed, and sockets and map stay in bijection. |
| GatewayListeners.Gateway.Sweep | internal/dataplane/gateway.go:107-116 | Exactly the listeners that still fit survive, activated and otherwise unchanged, and what is left to start is exactly the rest. |
| GatewayListeners.Gateway.StartMissing | internal/dataplane/gateway.go:117-122 | Starts every missing listener or stops at a failure, touching no listener there was. |
| GatewayListeners.Gateway.StartListener | internal/dataplane/gateway.go:154-176 | Binds a free port under valid credentials, or fails without a trace. |
| GatewayListeners.ValidMeansAcceptable | internal/ssconfig/credentials.go:16-32 | Credentials are accepted for one of the two methods with its least password length, if the library takes them. |
| DesiredListeners.ServableMeansFitting | internal/dataplane/gateway.go:91-104 | What the loops check is that no port is asked for twice and no ingress is incomplete, said on the fields of the routes. |
| GatewayListeners.Gateway.PrepareDevice | internal/dataplane/gateway.go:125-148 | Succeeds exactly when every ingress is valid and its port is free or already this device's; on any outcome it only adds inactive listeners for ingresses of the device. |
| GatewayListeners.Gateway.CloseListeners | internal/dataplane/gateway.go:188-195 | No listener and no socket is left. |
| GatewayListeners.Gateway.Admit | internal/dataplane/gateway.go:212-224 | A connection is admitted exactly when the gateway is ready, its listener active, the device routed and the credential not expired, whether or not the listener is still in the map; if it is, under the synced guarantee, the route is the one that offers this endpoint. |
| GatewayListeners.OpeningKeepsForwarding | internal/dataplane/gateway.go:125-148 | Preparing a change leaves the forwarding listeners as they are. |
| RouteTable.LookupIsScan | internal/dataplane/table.go:21-82 | With user names a fixed injective function of device IDs, a lookup by user name equals a scan of the active table after any sequence of operations. |
| RouteTable.NoRunDangles | internal/dataplane/table.go:21-72 | Without that assumption, after any sequence of operations every index entry still leads to an active route. |
| RouteTable.StaleUsernameExample | internal/dataplane/table.go:42-54 | Activating a route under a new user name leaves the old name in the index, so that assumption is needed. |
| UsernameIndex.ExactIffScan | internal/dataplane/table.go:73-82 | The index is exact if and only if lookups by user name answer like a scan of the active table. |
| UsernameIndex.LoadExactIff | internal/dataplane/table.go:21-32 | Load leaves an exact index if and only if in the listing a route is the last of its device exactly when it is the last of its user name. |
| UsernameIndex.DistinctLoadExactIff | internal/dataplane/table.go:21-32 | For a listing with one route for each device this means distinct user names. |
| UsernameIndex.ActivateExactIff | internal/dataplane/table.go:42-54 | Activate keeps the index exact if and only if the device keeps its user name, or had no route, and no other device has that name. |
| UsernameIndex.UpdateExactIff | internal/dataplane/table.go:55-72 | UpdateDevice keeps it exact if and only if the device has no route or no other device has the new name. |
| UsernameIndex.ExactThroughoutIff | internal/dataplane/table.go:21-72 | Over any run the index is exact at every moment if and only if every operation met its condition. |
| RouteTable.LoadInvertsListing | internal/dataplane/table.go:21-32 | Loading any listing of a table's routes gives back exactly its active map. |
| RouteTable.Table.Load | internal/dataplane/table.go:21-32 | Replaces the whole table, its index and pending entries included. |
| RouteTable.Table.Prepare | internal/dataplane/table.go:33-41 | Accepts exactly the versions above the active one, and then touches the pending entry of that device alone. |
| RouteTable.Table.Activate | internal/dataplane/table.go:42-54 | Installs the pending copy when its version matches, and changes nothing otherwise. |
| RouteTable.Table.UpdateDevice | internal/dataplane/table.go:55-72 | Rewrites the device part of an active route and of its index entry. |
| RouteTable.Table.ByUsername | internal/dataplane/table.go:73-82 | Answers with the active route the index leads to. |
| RouteTable.Table.Snapshot | internal/dataplane/table.go:89-97 | Lists every active route, each once. |
| RouteTable.Table.MaxVersion | internal/dataplane/table.go:99-109 | The result bounds every active version and is one of them, or 0. |
| StoreEffects.CreateEffect | internal/store/memory.go:61-79 | Refused exactly for a known device or a port some device listens on; otherwise the device is stored with its list, or one primary ingress of its flat fields. |
| StoreEffects.RotateEffect | internal/store/memory.go:89-113 | The new password is on the flat field and every primary ingress of the device and on the flat field of its stored routes; every other field, device and route is as it was. |
| StoreEffects.AddEffect | internal/store/memory.go:114-141 | Refused exactly for an unknown device or a used port; otherwise the new ingress stands behind the others, not primary, and the active and the pending route have the device's new list and are otherwise as they were. |
| StoreEffects.DeleteEffect | internal/store/memory.go:142-173 | The port is gone, the others are there in their order, and if the primary went the head is primary and mirrored in the flat fields. |
| StoreEffects.DeleteEffectOnRoutes | internal/store/memory.go:174-183 | The active and the pending route then have the device's list and flat fields, and no other route changes. |
| StoreEffects.DeleteRefusal | internal/store/memory.go:145-166 | With distinct ports: refused as a conflict exactly for the last ingress, and as not found exactly for an unknown device or port. |
| StoreEffects.StageEffect | internal/store/memory.go:186-195 | Refused exactly when the active version, 0 if there is none, is not the expected one; otherwise the route is the pending one and nothing else changes. |
| StoreEffects.ActivateEffect | internal/store/memory.go:196-207 | Refused exactly when no route of that version is pending; otherwise that route, marked active, is the active one and none is pending. |
| StoreRuns.EveryRunKeepsDevices | internal/store/memory.go:61-185 | Across every sequence of operations all ingress ports in the store are distinct, and each device has exactly one primary ingress, which its flat fields repeat. |
| StoreRuns.NoRunPanics | internal/store/memory.go:142-185 | After any run of API operations no deletion of an ingress panics. |
| StoreRuns.ShrunkDeviceOk | internal/store/memory.go:142-185 | Deleting an ingress, the primary included, leaves exactly one mirrored primary and only ports there were. |
| StoreRuns.CommittedVersionsCountUp | internal/store/memory.go:186-207 | Over any interleaving the committed versions of a device are 1, 2, ..., n without gap or repeat, n being the active one, and a pending route is one above. |
| StoreRuns.OneWinnerPerVersion | internal/store/memory.go:186-207 | Of two successful activations of a device the later has the higher version, so each version has one winner. |
| StoreRuns.DeviceOpsKeepBindings | internal/store/memory.go:89-185 | Device operations leave version, credential and status of every route alone. |
| MemoryStore.Memory.Create | internal/store/memory.go:61-79 | Refuses a known device or a used port and changes nothing; otherwise stores the device with its ingress list. |
| MemoryStore.Memory.UpdateDeviceCredential | internal/store/memory.go:89-113 | The new password reaches the device, its primary ingresses and the flat field of its stored routes, and nothing else. |
| MemoryStore.Memory.AddDeviceIngress | internal/store/memory.go:114-141 | Appends a non-primary ingress on a port no device uses, to the device and its stored routes. |
| MemoryStore.Memory.DeleteDeviceIngress | internal/store/memory.go:142-185 | Refuses the last ingress and an unknown port; otherwise removes it and promotes the head of the rest if it was primary, or panics with nothing changed where there is none. |
| MemoryStore.Memory.PortInUse | internal/store/memory.go:67-73 | Answers whether any ingress of any device uses the port. |
| MemoryStore.WithoutPortKeepsOthers | internal/store/memory.go:153-163 | The filtering loop removes the port and keeps every other ingress. |
| MemoryStore.Memory.Stage | internal/store/memory.go:186-195 | Compare-and-swap on the active version: stages the route, or reports a conflict and changes nothing. |
| MemoryStore.Memory.Activate | internal/store/memory.go:196-207 | Activates the pending route of exactly that version, or reports a conflict and changes nothing. |
| PostgresRoutes.RunRefines | internal/store/postgres.go:254-332 | Over any sequence of stages and activations the rows refine the in-memory store: same answers, same active and pending routes; per device 1..a-1 superseded, a active, at most a+1 pending; route and credential rows in bijection. |
| PostgresRoutes.StageRefines | internal/store/postgres.go:254-312 | Staging accepts and refuses what the in-memory store does, and the replaced pending rows take their credentials with them. |
| PostgresRoutes.StageAnswersAlikeIff | internal/store/postgres.go:254-312 | On any stage at the next version the two stores answer alike if and only if the device exists and, where the versions match, the credential is new, its port valid and its provider, if it names one, known. |
| PostgresRoutes.ActivateRefines | internal/store/postgres.go:313-332 | Activation has the same outcome for every device and version, and keeps the row shape. |
| PostgresRoutes.ShapeIsCurrent | internal/store/postgres.go:254-278 | On rows of that shape the MAX query answers the one active version. |
| PostgresRoutes.Postgres.CurrentVersion | internal/store/postgres.go:254-278 | The scan computes the greatest active version, or 0. |
| PostgresRoutes.Postgres.Stage | internal/store/postgres.go:254-312 | The transaction replaces the stale pending rows and their credentials by the new route, or is rolled back. |
| PostgresRoutes.Postgres.Activate | internal/store/postgres.go:313-332 | Supersedes the active row and activates the pending one, or is rolled back. |
| DeviceMirror.RunsMirror | internal/store/postgres.go:35-191 | After any run of device operations from the API, under a clock that does not run backwards, Postgres and the in-memory store hold the same devices, ingress lists in the same order included. |
| DeviceMirror.StepMirrors | internal/store/postgres.go:35-168 | Both stores accept or refuse each device operation together, with the same error except for an ingress added to a missing device. |
| DeviceMirror.CreateRefusal | internal/store/postgres.go:35-66 | A new device is refused as a conflict exactly for a taken identifier, user name or port, and otherwise only for a port out of range. |
| DeviceMirror.CreateAnswersAlikeIff | internal/store/postgres.go:35-66 | Whatever its user name, a new device is answered alike if and only if the user name is free in Postgres, or its identifier or port is taken anyway. |
| DeviceMirror.PortsMirror | db/migrations/004_device_ingresses.sql:1-10 | The unique port column answers the same question as the scan over all devices. |
| IngressProposals.LoadIsUnique | internal/store/postgres.go:170-191 | The ORDER BY of the ingress query leaves it exactly one answer. |
| IngressProposals.LoadHasAnswer | internal/store/postgres.go:170-191 | It always has one. |
| IngressProposals.AddRefusal | internal/store/postgres.go:110-119 | The INSERT is refused as a conflict exactly for a used port, and otherwise exactly for a missing device or a port out of range. |
| IngressProposals.RotateCommitsProposal | internal/control/api.go:151-163 | If the device is unchanged between read and commit, the device that rotation pushes to the gateways is the one the database then holds. |
| IngressProposals.AddCommitsProposal | internal/control/api.go:216-224 | The pushed device has the ingresses the database then holds, in the same order if and only if the new one sorts last. |
| IngressProposals.AddOutOfOrderExample | internal/control/api.go:216-224 | A device and an ingress with an earlier creation time for which pushed and stored order differ. |
| IngressProposals.DeleteCommitsProposal | internal/control/api.go:244-271 | The database refuses exactly when the API did, with the same error; otherwise the pushed device is the one it then holds, promotion of the head picking the same ingress as the SQL minimum. |
| IngressProposals.DeleteHasOutcome | internal/store/postgres.go:128-168 | The deletion always finds a row to promote when it removes the primary. |
| IngressProposals.HeadIsOldest | internal/store/postgres.go:145-152 | The row with the least creation time and port is the head of the remaining list, and no other. |
| IngressProposals.ProposeRotate | internal/control/api.go:151-157 | The proposal differs from the device in the password of the flat field and of primary ingresses only. |
| IngressProposals.ProposeAdd | internal/control/api.go:210-218 | Refuses a port of this device; otherwise appends the ingress. |
| IngressProposals.ProposeDelete | internal/control/api.go:244-267 | Refuses the last ingress and an unknown port; otherwise filters the list and promotes its head, or panics where there is none. |
| WeightedSelection.SharesAreExact | internal/provider/provider.go:186-209 | Of the accepted 64-bit draws each position gets exactly its weight's share, and every accepted draw selects some position. |
| WeightedSelection.ProviderShare | internal/provider/provider.go:186-209 | The number of 64-bit draws on which a provider is selected is its weight, summed over its listings, times the common multiplicity. |
| WeightedSelection.StateShare | internal/provider/provider.go:309-335 | The number of draws on which a fallback state is selected is its weight in millionths times the common multiplicity. |
| WeightedSelection.DrawsAreEven | internal/provider/provider.go:345-360 | Rejection sampling gives every residue the same number of accepted draws. |
| WeightedSelection.ChooseShare | internal/provider/provider.go:202-208 | Subtracting the weights selects a position for exactly the numbers in an interval as long as its weight. |
| WeightedSelection.SelectWeighted | internal/provider/provider.go:186-209 | Chooses an enabled provider with a positive weight by its share; fails for lack of weight exactly when there is none, and never with "selection failed". |
| WeightedSelection.WeightedString | internal/provider/provider.go:309-335 | Though summed in map order and selected in sorted order it never fails to select, and picks the key on which the draw falls. |
| WeightedSelection.MicroMeans | internal/provider/provider.go:317-328 | A weight counts in whole millionths, rounded down. |
| WeightedSelection.TotalOfSort | internal/provider/provider.go:312-323 | The total does not depend on the order of the keys. |
| WeightedSelection.CryptoUint | internal/provider/provider.go:345-360 | The result is the residue of the first accepted draw. |
| WeightedSelection.CryptoInt | internal/provider/provider.go:337-343 | The result lies in the range; an inverted range and one of all 2^64 values are refused. |
| Template.RenderIsSimultaneous | internal/provider/provider.go:224-251 | For brace-free literals, well-formed placeholders and brace-free keys and values, the sequential passes are one simultaneous substitution, whatever the key order, and fail exactly when a placeholder is unknown. |
| Template.PassesFill | internal/provider/provider.go:231-233 | The variable passes together replace exactly the placeholders of known variables. |
| Template.RevealTokens | internal/provider/provider.go:234-246 | The secret pass replaces exactly the known secrets and reports a missing one if and only if there is one. |
| Template.FlatWithHole | internal/provider/provider.go:247-249 | A placeholder that is left over is found by the final check. |
| TemplateExact.AgreesIff | internal/provider/provider.go:224-251 | For any values, braces or not, and any key order: rendering a well-formed template is simultaneous substitution if and only if the substituted text contains no expression. |
| TemplateExact.AllAgreeIff | internal/provider/provider.go:224-251 | If every value reads as a template, all templates render as they should if and only if no value that a placeholder can name contains a brace. |
| TemplateValues.AllTemplatesAgreeIff | internal/provider/provider.go:224-251 | For any values at all, every template renders as it should if and only if some set of scanner positions short of a complete expression is left by no value and no brace-free text: a finite check on the values. |
| TemplateValues.ScanFinds | internal/provider/provider.go:247-249 | That scanner reaches its last position exactly on the texts that contain an expression. |
| TemplateValues.OneKindOfBraceAgrees | internal/provider/provider.go:224-251 | Values with braces of one kind only are harmless. |
| TemplateExact.UnknownFails | internal/provider/provider.go:244-249 | An unknown placeholder is an error whatever the values. |
| TemplateExact.ErrorsMean | internal/provider/provider.go:244-249 | For brace-free values a missing secret is reported by the name of one, exactly if there is one, and any other unknown placeholder as unresolved. |
| Template.NameCharMeans | internal/provider/provider.go:80 | The characters of a secret's name, by their codes. |
| TemplateExact.ExpandedTwice | internal/provider/provider.go:231-233 | A variable whose value is the placeholder of a later variable is expanded twice. |
| TemplateExact.CountryIsExpandedTwice | internal/provider/provider.go:166-178 | The request input that shows it, on the variables and the order of the source. |
| TemplateExact.SecretRevealed | internal/provider/provider.go:235-243 | A variable whose value is the placeholder of a secret reveals the secret. |
| TemplateExact.StateRevealsSecret | internal/provider/provider.go:166-178 | The request input that shows it. |
| TemplateExact.VariablesAreSorted | internal/provider/provider.go:226-233 | The order used there is the one in which render visits the variables. |
| Template.Render | internal/provider/provider.go:224-251 | The method is the sequential rendering with the variables in sorted order. |
| Socks5.AuthRoundTrip | internal/proxy/socks5.go:60-77 | A decoder for section 2 of RFC 1929 reads back the user name and password of every request the client sends. |
| Socks5.AuthConformsIff | internal/proxy/socks5.go:42-77 | The request obeys the length rules of section 2 of RFC 1929 if and only if neither part is empty. |
| Socks5.LoginMeans | internal/proxy/socks5.go:42-77 | Byte by byte, which method is offered, which answers let the client in, which error the others give, and that credentials go out only to a proxy that selected method 2. |
| Socks5.RequestMeans | internal/proxy/socks5.go:78-107 | Which targets are refused and how; an accepted one is read back from the request. |
| Socks5.ReplyMeans | internal/proxy/socks5.go:108-139 | Which replies are accepted, how many bytes each takes, and which error the others give. |
| Socks5.ConnectRoundTrip | internal/proxy/socks5.go:86-107 | A decoder for sections 4 and 5 of RFC 1928 reads back every accepted destination of each address type. |
| Socks5.ReplyIsConsumedExactly | internal/proxy/socks5.go:108-139 | For a reply of any address type (section 6 of RFC 1928) followed by a payload, exactly the payload is left to read, or the proxy's error code is reported. |
| Socks5.DialSucceeds | internal/proxy/socks5.go:25-140 | With a conforming proxy the dial succeeds on every acceptable target, and the bytes written are greeting, login and request. |
| Socks5.Dial | internal/proxy/socks5.go:25-140 | The method writes and ends exactly as the handshake function of the incoming bytes says, however the buffered reader splits its reads. |
| Socks5.Reader.ReadAll | internal/proxy/socks5.go:18-23 | A consumer of the returned connection gets the unread bytes, none lost or repeated. |
| ConnectionTracker.EveryRunIsValid | internal/dataplane/connections.go:19-50 | After any sequence of tracks, untracks and interrupts the total is the sum of the per-device set sizes, no set is empty and no identifier is live twice. |
| ConnectionTracker.LiveIffOpen | internal/dataplane/connections.go:19-39 | After any run the connections of a device are exactly those tracked for it and not untracked since. |
| ConnectionTracker.CancelledIffInterrupted | internal/dataplane/connections.go:41-49 | After any run a connection is cancelled if and only if it was open for the device of some interrupt at that moment. |
| ConnectionTracker.UntrackCountsOnce | internal/dataplane/connections.go:30-39 | Repeated calls of an untrack closure after the first change nothing. |
| ConnectionTracker.DeadStaysDead | internal/dataplane/connections.go:19-39 | An identifier that was issued and is no longer live never comes back. |
| ConnectionTracker.TrackKeeps | internal/dataplane/connections.go:19-29 | A new connection gets an identifier that is live for no device. |
| ConnectionTracker.Connections.Track | internal/dataplane/connections.go:19-40 | Adds one connection to one device and counts it. |
| ConnectionTracker.Connections.Untrack | internal/dataplane/connections.go:30-39 | Removes the connection and counts it down if it was still there. |
| ConnectionTracker.Connections.Interrupt | internal/dataplane/connections.go:41-49 | Cancels exactly the tracked connections of the device and reports how many. |

## Left out

- HTTP and JSON handling, administrator authentication, audit records, metrics, health checks and `deviceStatus`: plumbing around the protocol.
- gRPC streams, TLS, backoff and tickers: in `Deployment` a stream is a pair of in-order queues, and deadlines, cancelled requests and disconnects may happen at any time.
- `BroadcastDevice` (`internal/control/hub.go:119-121`): nothing in the repository calls it.
- A frame that `broadcastAndWait` cannot enqueue for want of room: the deployment ends as by a cancelled request, with the frame sent to the sessions before.
- AES-GCM, base64 and the Shadowsocks library: stored passwords are values, and credential validity is a parameter beside the checks of `internal/ssconfig/credentials.go:16-32`.
- The file operations of `SaveSnapshot` and `LoadSnapshot`: the snapshot file is one cell whose replacement succeeds or leaves the old value.
- `relay`, dialling from the gateway, accept loops and the canary loop: I/O.
- Truncation and overflow of integers other than the 64-bit draws: versions, connection identifiers and the totals of weights are unbounded, the latter required to fit their Go type.
- TemplateExact.AllAgreeIff: for values that read as templates; `TemplateValues.AllTemplatesAgreeIff` is for all values.
- WeightedSelection.WeightedString: weights are real numbers, so floating-point rounding is not modelled, and the normalisation of the returned key is left out.
- `normalizeCountry`, `selectTemplate`, `selectPort`, `validatePortRule` and `generateSession`: short functions whose properties can be read off their bodies.
- The regular expression engine: `Template` defines the matches of the two expressions in `internal/provider/provider.go` directly.
- Socks5.Dial: starts from the parsed target, on an open connection whose writes succeed; splitting the target, deadlines and write errors are not modelled.
- Aliasing of Go slices, which the in-memory store does not always prevent: ingress lists are values.
- DeviceMirror.AddMirrors: takes the INSERT and the UPDATE of `AddDeviceIngress`, which Postgres runs one after the other outside a transaction, as one step.
- DeviceMirror.RunsMirror: for devices as the API creates them and ports the database accepts; adding an ingress needs a clock that does not run backwards, for otherwise the two stores list it at different places.
- DeviceMirror.StepMirrors: an ingress added to a missing device is refused by both stores, but with NotFound in memory and a foreign-key failure in Postgres.
- PostgresRoutes.StageRefines: for a stage that `PostgresRoutes.StageAnswersAlikeIff` says is answered alike; on others Postgres refuses what the in-memory store accepts.
- PostgresRoutes.RunRefines: compares version and credential; the user name and ingresses that a query joins from `devices` are not part of the relation, because the in-memory store keeps its own copies of them.
- Equality of the ingress passwords inside a stored route and in its device after a rotation: the in-memory store updates the flat field of the route only, and so does the model.
- GatewayProgress.FinishLeavesNewest: about routes; for a device change the table is known to carry it when the gateway handled it (`DeploymentTheorems.SuccessMeansInstalled`), and a reconnect may replace it by the store's copy.
- CredentialAgreement.GatewaysAgree: keeps the condition that no second stage of a device lands between a stage and its commit, because staging happens outside the deploy lock.
- ControlClient.Client.Serve: up to `CloseListeners` at shutdown, after which the synced flag may be up without listeners.
- ControlClient.Client.Handle: the error value of an acknowledgement is reduced to whether there is one.
