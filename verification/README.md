# Podium core, modelled in Dafny

Podium is a single-node container orchestrator. It keeps two kinds of record in a key-value store:

- **Containers**: one workload each, with an image, ports, environment, a restart policy, an optional health check and its health state.
- **Services**: a template plus a replica count and the list of container IDs the service owns.

It drives the Docker engine through a small runtime adapter, and it serves an HTTP API over both record kinds. A background health worker probes running containers and restarts those that have stopped or keep failing their probe. The service manager starts, scales, deletes and reconciles services through container labels (`podium.service.id`, `podium.replica.index`).

This project models that core:

- **Store and engine.** The store is a class holding two maps, `containers` and `services`. The Docker engine is a class holding a map from container ID to instance, plus a ghost log of the calls made to it.
- **Operations.** Every operation that updates the store or the engine is a method with a `modifies` clause. Each method states its whole new state in terms of the old state and of one outcome input per external call. An outcome input says whether that call succeeds, and what ID or time it returns.
- **Pure logic.** The pure logic is written as functions: Go's `strconv` decimal conversion, port and environment translation, probe decisions, the per-container health step, pagination, restart-policy mapping and scale-down victim selection. Lemmas relate these functions to each other and to the methods.

Modules:

- `Basics`: Option, time stamps, key enumeration.
- `Strconv`: `Itoa` and `Atoi` with Go's int64 range rules.
- `Models`: the records and the string constants.
- `Persistence`: the bolt store.
- `DockerEngine`: the engine as seen through its API.
- `Runtime`: the Docker runtime adapter.
- `Checker`: health probes.
- `HealthWorker`: the background checker.
- `ServiceManager`: the label-driven service manager.
- `Reconcile`: service status and reconciliation.
- `Pagination`: the two list handlers.
- `ContainerHandlers`, `ServiceHandlers`: the remaining HTTP handlers.

Points where the code behaves in ways a reader might not expect. The model follows the code in each:

- **Service manager fields.** `service/docker_manager.go` reads service fields that `models.Service` does not have under those names: `Environment`, `HealthCheck`, a pointer `RestartPolicy`, and `port.Host` / `port.Container`. The model gives `Service` an optional `healthCheck` and an optional `policy`. It reads `Environment` as the `env` field and `port.Host` / `port.Container` as `hostPort` / `containerPort`.
- **Failed service creation.** A failure partway through creating a service's replicas does not roll back the replicas already made. The code returns at the first failure and leaves earlier replicas in place. This holds both in the manager (`service/docker_manager.go:35-42`) and in the HTTP handler (`api/handlers/service/create.go:65-69`). The model leaves them in place too.
- **Counting replicas.** A service record carries an owned-ID list. The manager's scale, status and reconcile operations instead count the containers carrying the service's label. The HTTP scale handler uses the owned list. Both are modelled as written.
- **Scaling down.** The manager removes containers by their replica-index label, from the highest index down to the target. A label that does not parse counts as index 0. The HTTP scale handler does not call the manager. It keeps the first `target` IDs of the owned list and sweeps the rest. The route table (`api/handlers/service/handler.go:32`) registers `h.HandlerScale`, a name no method has, so the handler package does not build as written. The model takes the route to mean `HandleScale` (`api/handlers/service/scale.go:16`).
- **Update sweep.** The manager's update stops and removes the labelled containers, not the owned list. Its first failure ends the update.
- **Failures in one pass.** During reconciliation, a failed scale skips that service's restarts. The restarts act on the health read before scaling.

## Model

| member | source | states |
|---|---|---|
| Strconv.Itoa | internal/service/docker_manager.go:86 | renders an integer as an optional minus sign followed by decimal digits (the replica-index label value) |
| Strconv.DecimalRoundTrip | internal/service/docker_manager.go:86 | the digits written for a natural number read back as that number |
| Strconv.ParseItoa | internal/service/docker_manager.go:223-224 | parsing the decimal text of any integer gives that integer back |
| Strconv.Atoi | internal/service/docker_manager.go:224 | `Atoi` succeeds exactly when the text is a signed decimal in int64 range, then returns its value; a syntax error yields 0 and an out-of-range value is clamped to the int64 bound |
| Strconv.AtoiItoa | internal/service/docker_manager.go:223-224 | `Atoi(Itoa(i))` succeeds with `i` for every int64 `i` |
| Strconv.ItoaInjective | internal/service/docker_manager.go:86 | distinct integers get distinct decimal text |
| Basics.EnumerateKeys | internal/store/boltdb.go:70-88 | the listing enumerates every key of the bucket exactly once |
| Basics.DistinctCard | internal/store/boltdb.go:70-88 | a sequence of pairwise distinct keys has as many elements as its set |
| Persistence.Store.GetContainer | internal/store/boltdb.go:53-68 | returns the record stored under the ID, or nothing when the key is absent |
| Persistence.Store.PutContainer | internal/store/boltdb.go:40-51 | on success the record is stored under its own ID, replacing any previous one; on failure nothing changes; services are untouched |
| Persistence.Store.DeleteContainer | internal/store/boltdb.go:103-108 | on success the key is gone and nothing else changes |
| Persistence.Store.ListContainers | internal/store/boltdb.go:70-88 | on success returns one record per stored key, each the stored value |
| Persistence.Store.GetService | internal/api/handlers/service/get.go:20 | returns the service stored under the ID, or nothing |
| Persistence.Store.PutService | internal/api/handlers/service/create.go:43-47 | on success the service is stored under its own ID; containers are untouched |
| Persistence.Store.DeleteService | internal/api/handlers/service/delete.go:40-45 | on success the service key is gone and nothing else changes |
| Persistence.Store.ListServices | internal/api/handlers/service/list.go:41-45 | on success returns one service per stored key |
| DockerEngine.Select | internal/service/docker_manager.go:325-333 | the label filter keeps exactly the containers carrying the label with that value, each once |
| DockerEngine.Engine.Create | internal/runtime/docker.go:123-135 | a create adds a stopped instance under a fresh ID and fails on an ID already in use |
| DockerEngine.Engine.Start | internal/runtime/docker.go:146 | a start marks an existing instance running and fails on an unknown ID |
| DockerEngine.Engine.Stop | internal/runtime/docker.go:162 | a stop marks an existing instance not running and fails on an unknown ID |
| DockerEngine.Engine.Remove | internal/runtime/docker.go:177-182 | a forced remove deletes an existing instance and fails on an unknown ID |
| DockerEngine.Engine.Restart | internal/service/docker_manager.go:315 | a restart leaves an existing instance running and fails on an unknown ID |
| DockerEngine.Engine.Inspect | internal/runtime/docker.go:194 | inspect returns the instance and changes nothing |
| DockerEngine.Engine.List | internal/service/docker_manager.go:325-333 | a listing holds each instance carrying the label once and changes nothing |
| Runtime.RestartPolicyName | internal/runtime/docker.go:95-105 | "Always" maps to "always", "OnFailure" to "on-failure", anything else to "no" |
| Runtime.ClassifyState | internal/runtime/docker.go:200-207 | an inspected container is Running iff running, Succeeded iff stopped with exit code 0, Failed iff stopped with a non-zero code, never Pending |
| Runtime.GetContainerStatus | internal/runtime/docker.go:188-211 | on success returns the classification of the inspected instance; an unknown ID or failed call yields an error and the empty state |
| Runtime.PortKeyInjective | internal/runtime/docker.go:57 | two container ports with the same `tcp` port key are equal |
| Runtime.ExposedOfMeaning | internal/runtime/docker.go:55-70 | the exposed set is exactly the port keys of all mappings |
| Runtime.PortKeysSnoc | internal/runtime/docker.go:55-70 | the port keys of the mappings are those of all but the last, plus the last one's key |
| Runtime.PortsStep | internal/runtime/docker.go:55-70 | one more mapping adds its key to the exposed set and rebinds that key to its own host port |
| Runtime.BindingsOfKeys | internal/runtime/docker.go:55-70 | the binding map has an entry for every exposed port and no other |
| Runtime.BindingsOfLast | internal/runtime/docker.go:63-68 | a port listed twice is bound to the host port of its last mapping |
| Runtime.LastForPortPrefix | internal/runtime/docker.go:63-68 | a mapping that is the last for its port stays the last one when a later mapping is dropped |
| Runtime.PortLoopMeaning | internal/runtime/docker.go:55-70 | the exposed set and bindings built from the mappings satisfy the port configuration predicate |
| Runtime.BuildPortBindings | internal/runtime/docker.go:55-70 | succeeds exactly when every container port is a valid port, and then returns the exposed set and bindings the mappings describe |
| Runtime.BuildEnv | internal/runtime/docker.go:73-76 | one `KEY=value` entry per environment variable, and no other entries |
| Runtime.BuildRuntimeConfig | internal/runtime/docker.go:51-120 | the ports are accepted iff every container port is valid, and then the configuration is the one the spec describes |
| Runtime.MemoryOf | internal/runtime/docker.go:89-92 | the memory limit is passed through when positive and is never negative |
| Runtime.CreateContainer | internal/runtime/docker.go:45-138 | fails without an engine call on an invalid port; otherwise one create call, which adds the instance under the spec's ID with the image, command, environment, ports, memory, restart policy and `podium.container.id` label the spec gives |
| Runtime.StartContainer | internal/runtime/docker.go:140-153 | passes the start through: one start call; the instance is running on success |
| Runtime.StopContainer | internal/runtime/docker.go:155-169 | passes the stop through: one stop call; the instance is stopped on success |
| Runtime.DeleteContainer | internal/runtime/docker.go:171-186 | passes a forced remove through: one remove call; the instance is gone on success |
| Checker.ProbePort | internal/health/checker.go:45-52 | the probe port is the check's own port when non-zero, else the first mapping's container port, and is absent exactly when both are missing |
| Checker.NormalizeEndpoint | internal/health/checker.go:54-57 | the probe path always starts with `/`; a path already starting with `/` is kept, and any other gets `/` prepended |
| Checker.NormalizeEndpointIdempotent | internal/health/checker.go:54-57 | normalising a normalised path changes nothing |
| Checker.HttpTargetOf | internal/health/checker.go:40-62 | an empty endpoint, then a missing port, prevent the request; otherwise the request goes to the probe port and normalised path |
| Checker.ProbeHttp | internal/health/checker.go:40-90 | without a request the result is unknown with an error; the result is healthy iff a response arrives with a status in [200, 400); a transport failure or other status is unhealthy with an error |
| Checker.ProbeTcp | internal/health/checker.go:92-113 | without a port the result is unknown; otherwise healthy iff the connection opens, and an error accompanies every non-healthy result |
| Checker.ProbeCommand | internal/health/checker.go:115-121 | command checks always answer unknown with a not-implemented error |
| Checker.Check | internal/health/checker.go:23-38 | no health check means healthy; an HTTP check is the HTTP probe and a TCP check the TCP probe of the container's ports; an unknown kind means unknown with an error; the result is one of the three statuses and carries an error iff it is not healthy |
| Checker.NoRequestNoIo | internal/health/checker.go:41-52 | an HTTP check that cannot form a request answers unknown whatever the network would have done |
| HealthWorker.Restarted | internal/health/worker.go:160-163 | a restarted record is running, counts one more restart and has the restart time as its start time; every other field is kept |
| HealthWorker.AfterProbe | internal/health/worker.go:91-123 | the probe updates only the health part: the check time always; on failure the failure run grows and the success run resets; on a healthy probe the reverse |
| HealthWorker.StepLocal | internal/health/worker.go:62-130 | handling one container touches only that container's store record and engine instance |
| HealthWorker.SweepLocal | internal/health/worker.go:62-130 | a pass over the listing touches no container outside it |
| HealthWorker.StoppedRecordIgnored | internal/health/worker.go:64-67 | a record not marked running is skipped entirely |
| HealthWorker.NoRestartWithoutPolicy | internal/health/worker.go:80-89 | under a policy other than Always or OnFailure the engine is never stopped or started |
| HealthWorker.CapPreventsRestart | internal/health/worker.go:137-141 | once the restart limit is reached nothing is stopped or started, and any write keeps the record's state and restart count |
| HealthWorker.StoppedContainerRestarted | internal/health/worker.go:80-89 | a running record whose instance has stopped, under a restarting policy below the limit, is stopped then started and written back restarted once more |
| HealthWorker.StepRespectsCap | internal/health/worker.go:137-141 | under a positive limit, a record a step writes for a container within the limit has a restart count within the limit, unless the write keeps the stored record |
| HealthWorker.RestartWithinCap | internal/health/worker.go:137-141 | a record the restart writes for a container within a positive limit stays within it |
| HealthWorker.StepKeepsCap | internal/health/worker.go:137-141 | a store whose records are all within a positive limit stays so after one container's step |
| HealthWorker.SweepKeepsCap | internal/health/worker.go:53-141 | a store within a positive limit stays within it over a whole pass over snapshots within it |
| HealthWorker.InspectFailureSkips | internal/health/worker.go:71-78 | a failed inspect or an unknown instance skips the container: store and engine unchanged, the call log growing by the inspect call alone |
| HealthWorker.ProbeWriteKeepsRestartCount | internal/health/worker.go:125 | the probe write-back stores the probed health with the state and restart count as read, so a probe-triggered restart is overwritten in the store |
| HealthWorker.ProbeFailureRestart | internal/health/worker.go:96-113 | a failed probe restarts iff the failure run including this one reaches the threshold under a restarting policy below the limit |
| HealthWorker.HealthyProbeResets | internal/health/worker.go:114-122 | a healthy probe never restarts and stores a zero failure run and one more success |
| HealthWorker.Worker.RestartContainer | internal/health/worker.go:134-170 | the store and engine afterwards are those the restart specification function gives |
| HealthWorker.Worker.CheckContainer | internal/health/worker.go:62-130 | the store and engine after one container are those the step specification function gives |
| HealthWorker.Worker.CheckContainers | internal/health/worker.go:53-132 | a failed listing changes nothing; otherwise the result is the sweep specification over the listed snapshot |
| ServiceManager.ConvertRestartPolicy | internal/service/docker_manager.go:145-160 | no policy means "no"; "always", "on-failure" and "unless-stopped" pass through; anything else is "no" |
| ServiceManager.ReplicaNameInjective | internal/service/docker_manager.go:46 | replicas of one service with different indices get different names |
| ServiceManager.ReplicaPorts | internal/service/docker_manager.go:51-66 | replica ports are bound as mapped, with a zero host port (engine-chosen) for every replica but the first |
| ServiceManager.BuildReplicaConfig | internal/service/docker_manager.go:45-125 | the replica's configuration carries the service image, no command, the ports (host port 0 past index 0), the environment plus the three `PODIUM_` entries, the four `podium.` labels and the converted restart policy |
| ServiceManager.CreateServiceContainer | internal/service/docker_manager.go:45-143 | fails iff the create or start fails; a created replica is added under its assigned ID, running iff the start succeeded; the start only follows a created replica |
| ServiceManager.TargetReplicas | internal/service/docker_manager.go:36-38 | at least one replica is started, and exactly the requested number when positive |
| ServiceManager.LaunchedStep | internal/service/docker_manager.go:35-42 | one more replica whose create and start both succeeded extends the launched prefix |
| ServiceManager.LaunchReplicas | internal/service/docker_manager.go:35-42 | replicas are created in index order until the first failure: every earlier replica's create and start succeeded and it runs, the replica it stops at failed its create or start, and no other container changes |
| ServiceManager.LaunchIdsMeaning | internal/service/docker_manager.go:35-42 | an ID among those assigned to a range of replicas is the ID of one of them |
| ServiceManager.LaunchCompletes | internal/service/docker_manager.go:35-42 | when every replica is created and started under a fresh, distinct ID, the launch runs to the end |
| ServiceManager.LaunchNext | internal/service/docker_manager.go:36-41 | one more replica: it fails iff its create or start fails, and a success extends the launched prefix and its calls by that replica |
| ServiceManager.CreateService | internal/service/docker_manager.go:31-43 | creates replicas 0 to target - 1 in order, stopping at the first failing create or start; on failure the engine is the replicas created so far plus whatever the failing creation left behind; when every create and start succeeds under fresh IDs it succeeds with all replicas running |
| ServiceManager.StopRemoveMeaning | internal/service/docker_manager.go:167-175 | a stop-and-remove sweep removes only listed IDs, keeps every other container unchanged, and changes no configuration |
| ServiceManager.StopRemoveFrame | internal/service/docker_manager.go:167-175 | a stop-and-remove sweep never adds a container, leaves every unlisted container as it was, and changes no surviving container's configuration |
| ServiceManager.StopRemoveComplete | internal/service/docker_manager.go:167-175 | a sweep of distinct existing IDs that succeeds removes exactly those IDs and nothing else |
| ServiceManager.RemoveReplica | internal/service/docker_manager.go:226-231 | one victim is stopped, then removed only if the stop succeeded; the error reports the first failing call |
| ServiceManager.StopRemoveAppend | internal/service/docker_manager.go:222-233 | sweeping two lists in turn is sweeping their concatenation, stopping at the first failure |
| ServiceManager.StopAndRemove | internal/service/docker_manager.go:167-175 | each ID is stopped then removed in order, and the first failure ends the sweep with an error |
| ServiceManager.DeleteService | internal/service/docker_manager.go:180-196 | a failed listing changes nothing; otherwise exactly the containers labelled with the service are stopped and removed |
| ServiceManager.UpdateService | internal/service/docker_manager.go:162-178 | a failed label query changes nothing; otherwise every labelled container is stopped and removed, then the service is created afresh, stopping at the first failing replica and succeeding when every replica is created and started under fresh IDs; a failure in the sweep prevents the recreate; the engine and the call log are stated in every outcome |
| ServiceManager.UnparsableLabelIsZero | internal/service/docker_manager.go:223-224 | a missing or non-numeric index label counts as replica 0 |
| ServiceManager.ReplicaLabelReadsBack | internal/service/docker_manager.go:83-88 | the index label written at creation reads back as the replica's index |
| ServiceManager.FirstWithIndex | internal/service/docker_manager.go:222-225 | finds the first listed container with the given index, or reports that none has it |
| ServiceManager.VictimPositions | internal/service/docker_manager.go:220-234 | the removal positions carry labels in [target, current - 1] in strictly decreasing order |
| ServiceManager.VictimPositionsComplete | internal/service/docker_manager.go:220-234 | every index in range that some container carries is removed, through its first such container |
| ServiceManager.VictimsAtPositions | internal/service/docker_manager.go:220-234 | each victim is the ID of the listed container at a removal position, whose label lies in [target, current - 1], with labels strictly decreasing |
| ServiceManager.VictimsAboveLow | internal/service/docker_manager.go:220-234 | no listed container labelled below the target replica count is chosen for removal |
| ServiceManager.VictimsDistinct | internal/service/docker_manager.go:220-234 | no container is chosen for removal twice |
| ServiceManager.ScaleDownVictims | internal/service/docker_manager.go:220-234 | the victims are distinct listed containers with labels in range, taken from the highest down, and no container labelled below the target is removed |
| ServiceManager.FindReplica | internal/service/docker_manager.go:221-225 | the scan returns the first container with the index, as the specification function does |
| ServiceManager.RemoveIndex | internal/service/docker_manager.go:221-233 | one countdown index: the first listed container with that label is stopped and removed, and an index no container carries costs no call |
| ServiceManager.RemoveDownTo | internal/service/docker_manager.go:220-234 | the engine and call log afterwards are those of the stop-and-remove sweep over the victims |
| ServiceManager.CountdownUnwrapped | internal/service/docker_manager.go:221 | until it passes the most negative int64, Go's counter after `k` decrements from `start` is `start - k` |
| ServiceManager.CountdownExits | internal/service/docker_manager.go:221 | for a target above the most negative int64, Go's guard `i >= replicas` holds for exactly the turns `hi` down to the target and fails on the next, the values the model's countdown visits |
| ServiceManager.CountdownNeverEnds | internal/service/docker_manager.go:221 | with the target at the most negative int64 and no labelled container, Go's counter reaches that value, wraps to the largest, and the guard holds after every turn |
| ServiceManager.RemoveTurn | internal/service/docker_manager.go:221-233 | one countdown index extends the sweep down to it; a failure there ends the whole sweep with that failure |
| ServiceManager.ScaleService | internal/service/docker_manager.go:198-244 | the whole effect is the scale outcome: an unknown service or a failed listing changes nothing; growing launches indices current to target - 1 until the first failing create or start and does not write the service; shrinking sweeps the victims and stores the new count only after a complete sweep; containers without the service's label are never touched |
| ServiceManager.ScaleListed | internal/service/docker_manager.go:209-243 | after the label query: more wanted than listed grows until the first failing replica, fewer shrinks, equal does nothing, and in every case containers without the service's label are untouched |
| ServiceManager.ScaleUpCompletes | internal/service/docker_manager.go:211-218 | scaling up when every new replica is created and started under a fresh ID succeeds, launches them all and writes no service |
| ServiceManager.GrowService | internal/service/docker_manager.go:211-218 | indices current to target - 1 are launched in order until the first failing create or start, and all of them when every one succeeds under a fresh ID; existing containers stay as they were |
| ServiceManager.ShrinkService | internal/service/docker_manager.go:220-241 | the victims are stopped and removed from the highest label down; the service is stored with the new count only after a complete sweep, and the error reports a failed sweep or write |
| ServiceManager.ShrinkKeepsUnlabelled | internal/service/docker_manager.go:220-234 | shrinking a service never touches a container that lacks its label |
| Reconcile.Statuses | internal/service/docker_manager.go:262-277 | one status per listed container, in order |
| Reconcile.CountHealthyExact | internal/service/docker_manager.go:271-273 | the healthy count equals the number of statuses reading healthy |
| Reconcile.CurrentIsLabelled | internal/service/docker_manager.go:258-261 | the current replica count is the number of containers labelled with the service |
| Reconcile.BuildStatuses | internal/service/docker_manager.go:257-278 | the loop builds one status per listed container, in order, and counts exactly the healthy ones |
| Reconcile.GetServiceStatus | internal/service/docker_manager.go:246-287 | answers iff the service exists and the listing succeeds; the answer reports the service's desired and current counts and one status per labelled container; the engine is unchanged |
| Reconcile.UnhealthyIdsMeaning | internal/service/docker_manager.go:313-319 | a container is restarted iff some status for it reads unhealthy |
| Reconcile.UnhealthyIdsStep | internal/service/docker_manager.go:313-319 | the unhealthy IDs of one more status are those before it, followed by its ID iff it reads unhealthy |
| Reconcile.RestartOneMore | internal/service/docker_manager.go:313-319 | restarting one more ID adds one restart call and marks that container running on success if it exists |
| Reconcile.RestartAllMeaning | internal/service/docker_manager.go:313-319 | restarts only touch the IDs listed, and leave every listed existing container running on success |
| Reconcile.RestartUnhealthy | internal/service/docker_manager.go:313-319 | the engine and call log afterwards are those of restarting each unhealthy container in order |
| Reconcile.ScaleTo | internal/service/docker_manager.go:302-310 | the scale step of reconcile has exactly the scale outcome of `ScaleService(s.id, s.replicas)`, touches only the service's own containers and rewrites an unchanged record as it was |
| Reconcile.ScaleAndRestart | internal/service/docker_manager.go:301-319 | no scale call when the current count matches; otherwise the scale outcome of the service's scale; a failed scale skips the restarts; otherwise each unhealthy container is restarted in order, and containers without the service's label are untouched |
| Reconcile.RestartKeepsUnlabelled | internal/service/docker_manager.go:296-320 | restarting IDs that all carry the service's label keeps every other container unchanged |
| Reconcile.ReconcileService | internal/service/docker_manager.go:296-320 | one service's pass is the per-service reconcile predicate over the store and engine before and after: a failed status read only logs the query; otherwise the status is read off the label listing, the service is scaled with its full scale outcome iff the count differs, and the unhealthy replicas are restarted unless the scale failed; containers of other services are untouched |
| Reconcile.ReconcileScalesOnMismatch | internal/service/docker_manager.go:301-311 | after a successful status read, reconcile makes scale calls iff the number of engine containers carrying the service's label differs from its replica count, and otherwise leaves the stored service as it was |
| Reconcile.ReconcileRestartsUnhealthy | internal/service/docker_manager.go:313-319 | after a scale that did not fail, a replica the status reported unhealthy is running once its restart succeeds, and any container it did not report so is left as the scale left it |
| Reconcile.RestartListing | internal/service/docker_manager.go:313-319 | restarting the unhealthy IDs of a listing keeps the key set, runs every reported container whose restart succeeds and leaves every unreported one unchanged |
| Reconcile.UnhealthyOnlyLabelled | internal/service/docker_manager.go:296-320 | only containers labelled with the service can be restarted for it |
| Reconcile.ReconciledExtend | internal/service/docker_manager.go:295-320 | one more service's reconcile extends a pass that reconciled the services before it in listing order |
| Reconcile.ReconcileServices | internal/service/docker_manager.go:289-323 | fails iff the service listing fails, which changes nothing; otherwise the pass is the listed services' reconciles in listing order, each from the state the previous one left; store containers never change; containers with no service label are never touched; services keyed by their own ID are written back unchanged |
| Reconcile.ReconcileSparesAdapterContainers | internal/runtime/docker.go:79-81 | containers created through the runtime adapter carry no service label and survive reconciliation unchanged |
| Pagination.ParseLimit | internal/api/handlers/container/list.go:25-32 | the limit is in [1, MaxInt64]; it is the parsed query value whenever that parses to at least 1, and 100 otherwise |
| Pagination.ParseLimitItoa | internal/api/handlers/container/list.go:25-32 | the decimal text of a positive int64 is taken as the limit; a non-positive one gives 100 |
| Pagination.ParseOffset | internal/api/handlers/container/list.go:34-39 | the offset is in [0, MaxInt64]; it is the parsed query value whenever that parses to a non-negative number, and 0 otherwise |
| Pagination.ParseOffsetItoa | internal/api/handlers/container/list.go:34-39 | the decimal text of a non-negative int64 is taken as the offset; a negative one gives 0 |
| Pagination.MatchingMembers | internal/api/handlers/container/list.go:48-59 | an item is kept iff it is listed and its state equals the filter |
| Pagination.MatchingAppend | internal/api/handlers/container/list.go:48-59 | filtering distributes over concatenation |
| Pagination.MatchingIdempotent | internal/api/handlers/container/list.go:48-59 | filtering twice by the same state is filtering once |
| Pagination.FilterByState | internal/api/handlers/container/list.go:48-59 | an empty filter keeps every item; otherwise the result is the state filter |
| Strconv.Wrap64 | internal/api/handlers/container/list.go:67 | wraps an integer into int64 range, congruent modulo 2^64 |
| Pagination.EndIndexOverflows | internal/api/handlers/container/list.go:67-70 | with limit MaxInt64 and offset 1 the end index as written wraps to MinInt64, below the offset |
| Pagination.EndIndex | internal/api/handlers/container/list.go:67-70 | the corrected end index lies between the offset and the total, and is the total or offset + limit |
| Pagination.EndIndexAgrees | internal/api/handlers/container/list.go:67-70 | when offset + limit does not overflow, the code's end index equals the corrected one |
| Pagination.Paginate | internal/api/handlers/container/list.go:61-84 | the page reports the total and limit, resets an offset past the end to 0, and holds the next min(limit, total - offset) filtered items in order |
| Pagination.PageIsSlice | internal/api/handlers/container/list.go:72-77 | a page is the slice of the filtered list from the offset |
| Pagination.PagesFromStep | internal/api/handlers/container/list.go:61-77 | the pages from an offset inside the list are the page there followed by the pages from offset + limit |
| Pagination.PagesCover | internal/api/handlers/container/list.go:61-77 | walking the pages from an offset yields every filtered item from there on, in order, each once |
| Pagination.HandleListContainers | internal/api/handlers/container/list.go:13-88 | a failed listing answers 500; otherwise 200 with the page over the stored containers filtered by state |
| Pagination.HandleListServices | internal/api/handlers/service/list.go:13-88 | a failed listing answers 500; otherwise 200 with the page over the stored services filtered by state |
| ContainerHandlers.HandleCreate | internal/api/handlers/container/create.go:15-62 | 400 for an undecodable or invalid body; 500 when the engine create fails; a failed store write triggers an engine remove and 500; otherwise 201 with a pending record stored and created in the engine |
| ContainerHandlers.CreatedNotStarted | internal/api/handlers/container/create.go:31-49 | a freshly created container is pending, not running, with no start or finish time |
| ContainerHandlers.Started | internal/api/handlers/container/start.go:28-30 | starting sets the state to running and the start time, and keeps every other field |
| ContainerHandlers.Stopped | internal/api/handlers/container/stop.go:28-30 | stopping sets the state to succeeded and the finish time, and keeps every other field |
| ContainerHandlers.StartThenStop | internal/api/handlers/container/stop.go:28-30 | a start then a stop leaves the record succeeded with both times set and nothing else changed |
| ContainerHandlers.HandleStart | internal/api/handlers/container/start.go:13-38 | 404 for an unknown ID with no engine call; 500 with the record unchanged when the engine refuses; otherwise the started record is stored (500 if the write fails) |
| ContainerHandlers.HandleStop | internal/api/handlers/container/stop.go:13-38 | 404 for an unknown ID; 500 when the engine refuses; otherwise the stopped record is stored (500 if the write fails) |
| ContainerHandlers.ApplyPatch | internal/api/handlers/container/update.go:29-35 | the state is always replaced; the start and finish times only when given; every other field is kept |
| ContainerHandlers.ApplyPatchIdempotent | internal/api/handlers/container/update.go:29-35 | applying the same patch twice is applying it once |
| ContainerHandlers.ApplyPatchTwice | internal/api/handlers/container/update.go:29-35 | two patches in turn equal one merged patch, the later winning |
| ContainerHandlers.HandleUpdate | internal/api/handlers/container/update.go:13-43 | 404 before the body is read; 400 for an undecodable body; otherwise the patched record is stored (500 if the write fails), with no engine call |
| ContainerHandlers.HandleDelete | internal/api/handlers/container/delete.go:11-32 | 404 for an unknown ID; the engine remove comes first and its failure keeps the record; 204 iff the record existed and was removed |
| ServiceHandlers.ReplicaRecord | internal/api/handlers/service/create.go:49-81 | a replica record has the engine's ID, the replica name, the service image and local node, and is running iff its start succeeded |
| ServiceHandlers.ReplicaIds | internal/api/handlers/service/create.go:83 | the owned list holds one ID per replica, in index order |
| ServiceHandlers.GrownStep | internal/api/handlers/service/create.go:49-84 | one more replica whose create the engine accepted extends the grown prefix |
| ServiceHandlers.GrowOne | internal/api/handlers/service/create.go:50-83 | a create failure changes nothing; otherwise the replica is added to the engine, started as the outcome says, and its record stored |
| ServiceHandlers.GrowNext | internal/api/handlers/service/create.go:49-84 | the next replica: a create failure changes nothing in engine or store; a success extends the grown prefix, the stored records and the call log by one replica |
| ServiceHandlers.GrowReplicas | internal/api/handlers/service/create.go:49-84 | replicas are created in index order until the first create failure: each grown one was accepted by the engine, is in the engine and stored, and its ID is appended; the one it stops at was refused |
| ServiceHandlers.IdSetMeaning | internal/api/handlers/service/create.go:49-84 | an ID among those of a range of replicas is the ID of one of them |
| ServiceHandlers.GrowCompletes | internal/api/handlers/service/create.go:49-84 | when every create is accepted under a fresh, distinct ID and the ports are valid, the replica loop runs to the end |
| ServiceHandlers.SweepStoreRemoves | internal/api/handlers/service/delete.go:26-38 | the store after the sweep is the store minus the owned IDs whose delete succeeded |
| ServiceHandlers.SweepEngineRemoves | internal/api/handlers/service/delete.go:26-38 | the engine sweep removes only owned IDs and leaves every other container unchanged |
| ServiceHandlers.Sweep | internal/api/handlers/service/delete.go:26-38 | each owned ID is stopped, removed and deleted from the store, no failure ending the sweep |
| ServiceHandlers.HandleCreate | internal/api/handlers/service/create.go:15-95 | 400 for an undecodable body and 500 when the record cannot be stored, both with no effect; otherwise replicas are grown from 0 and, unless a create was refused, the record is stored running with the owned IDs; when every create is accepted under fresh IDs the answer is 201 |
| ServiceHandlers.LaunchCreated | internal/api/handlers/service/create.go:49-93 | after the first write, replicas are grown from 0; a refused create answers 500 without a second write; otherwise 201 with the record running, owning one ID per replica, stored iff the write succeeds; every create accepted under fresh IDs gives 201 |
| ServiceHandlers.CreatedOwnsReplicas | internal/api/handlers/service/create.go:83-93 | a fully created service owns one ID per requested replica, in order, and keeps the requested count |
| ServiceHandlers.HandleScale | internal/api/handlers/service/scale.go:16-112 | 400 or 404 with no effect; growing appends one ID per new index until the first refused create (500 before any write), and reaches the target when every create is accepted under fresh IDs; shrinking keeps the first target IDs and sweeps the rest; the record is then stored with the new count |
| ServiceHandlers.ShrinkSplitsOwned | internal/api/handlers/service/scale.go:82-99 | the kept and swept IDs partition the owned list in order |
| ServiceHandlers.HandleDelete | internal/api/handlers/service/delete.go:12-46 | 400 or 404 with no effect; otherwise every owned ID is swept, then the record is deleted (200, or 500 if the delete fails) |
| ServiceHandlers.DeleteTouchesOnlyOwned | internal/api/handlers/service/delete.go:26-38 | a container not owned by the service survives the delete in both engine and store |
| ServiceHandlers.ApplyTemplate | internal/api/handlers/service/update.go:34-41 | the template fields come from the request; ID, replicas, state, creation time and owned IDs are kept; the update time is now |
| ServiceHandlers.ApplyTemplateIdempotent | internal/api/handlers/service/update.go:34-41 | applying the same update twice is applying it once |
| ServiceHandlers.HandleUpdate | internal/api/handlers/service/update.go:14-49 | 400 or 404 with no effect; otherwise the updated record is stored (500 if the write fails) and no container changes |

## Left out

- I/O is not modelled: HTTP transport, JSON encoding and decoding, routing (`api/server.go`, `handler.go`), the bolt file format, and log lines. A request body is an `Option` that is absent when decoding fails.
- Every external call is an outcome parameter: the Docker daemon's answers, network probe results, clocks and generated UUIDs.
- Goroutines, tickers and the contexts that stop them are not modelled. This covers the worker's and the reconciler's `Start` / `Stop` and `reconciler.go`'s loop. One pass of each is modelled.
- `main.go` wiring is not modelled, and neither are the log and health-read handlers (`container/logs.go`, `container/health.go`, the `get.go` handlers). The get handlers are single store lookups that `Persistence.Store.GetContainer` / `GetService` model.
- Container log retrieval (`GetContainerLogs`) is not modelled, because its result is opaque engine output.
- The CPU limit is not modelled: `docker.go:85-88` multiplies a float by 1e9, and the model has no floating point.
- Building the Docker health-check command in the service manager (`docker_manager.go:91-117`) is not modelled. It formats shell text and parses Go durations, and its fallback branch reads `Ports[0]` even when the service has no ports.
- The engine's refusal of a second container with the same name is not modelled. Only ID clashes are.
- Docker's richer listing state is reduced to running or exited plus the health status.
- `Names[0]` of a listing is the instance name.
- The manager removes with a non-forced `ContainerRemove`. After the successful stop that always precedes it, this is modelled as the same as the forced remove.
- `Persistence.Store`: `internal/store/boltdb.go` defines no service bucket methods. Services are modelled as a second map with the same put/get/delete/list semantics the handlers rely on.
- `ServiceManager.LaunchReplicas`: Go's `int` is 64-bit, and an index loop past MaxInt64 is not modelled; replica counts are unbounded integers.
- `HealthWorker.Worker.CheckContainers`: the listing order of the store is a parameter `keys` that enumerates the bucket. Bolt's byte-wise key order is not modelled.
- `Pagination.HandleListContainers`, `Pagination.HandleListServices`: a page is a slice of the records in an arbitrary enumeration of the bucket's keys. Go slices them in bolt's byte-wise key order, which is not modelled, so the model does not say which records land on which page.
- `ServiceManager.RemoveDownTo`, `ServiceManager.ScaleService`: the countdown runs over unbounded integers and always ends. At `replicas` equal to the most negative int64 the Go loop never ends; see Findings. The model's contracts describe the intended, ending sweep for that input too.
- `ServiceManager.CreateService`: Go writes the normalised replica count back into the caller's `*models.Service` (`internal/service/docker_manager.go:32-34`). The model takes the service by value, and no caller in the model reads the field afterwards.
- `ServiceHandlers.HandleScale`: a negative target makes the Go slice expression panic. The model answers with status 0 (no response) and leaves everything unchanged.

## Findings

| source | as written | input that shows it | evidently intended | confidence | as-written member | corrected member |
|---|---|---|---|---|---|---|
| internal/api/handlers/container/list.go:67-74 (and internal/api/handlers/service/list.go:67-74) | `endIndex := offset + limit` is computed in 64-bit `int` before it is compared with the total, so it can wrap around | `?limit=9223372036854775807&offset=1` over two or more stored records: the end index wraps to -9223372036854775808, the bounds check keeps it, and `filtered[1:-9223372036854775808]` panics | the end index is `min(offset + limit, total)` without overflow, so every limit returns the rest of the list | not executed | Pagination.EndIndexOverflows | Pagination.EndIndex |
| internal/service/docker_manager.go:221 | `for i := currentCount - 1; i >= replicas; i--` counts down in 64-bit `int`, and every int64 satisfies `i >= -9223372036854775808` | a stored service whose `replicas` is -9223372036854775808 (the create handler stores the count unchecked) with no labelled container: reconcile sees 0 > replicas and calls `ScaleService(id, -9223372036854775808)`; `i` counts down from -1 to the most negative value, wraps to the largest and never fails the guard, so the reconcile pass hangs | the countdown stops after the index equal to `replicas` | not executed | ServiceManager.CountdownNeverEnds | ServiceManager.RemoveDownTo |
