/** The records the orchestrator stores: containers, services and their health data.
    Field names follow the JSON names of the Go structs. */
module Models {
  import opened Basics

  // ContainerState values. The state is a free string: a request body can set any value.
  const Pending: string := "pending"
  const Running: string := "running"
  const Succeeded: string := "succeeded"
  const Failed: string := "failed"

  // ServiceState values.
  const ServiceCreating: string := "creating"
  const ServiceRunning: string := "running"
  const ServiceStopped: string := "stopped"
  const ServiceFailed: string := "failed"

  // HealthStatus values; a record never probed carries the empty string.
  const HealthUnknown: string := "unknown"
  const HealthHealthy: string := "healthy"
  const HealthUnhealthy: string := "unhealthy"

  // HealthCheckType values.
  const CheckHttp: string := "http"
  const CheckTcp: string := "tcp"
  const CheckCommand: string := "command"

  /** The node every container is placed on. */
  const LocalNode: string := "local"

  datatype PortMapping = PortMapping(containerPort: int, hostPort: int)

  /** `cpuLimit` is a float64 in the source; it is only copied around here. */
  datatype ResourceRequirements = ResourceRequirements(cpuLimit: real, memoryLimit: int)

  /** Durations are counted in abstract clock units. */
  datatype HealthCheck = HealthCheck(
    kind: string,
    endpoint: string,
    port: int,
    command: seq<string>,
    initialDelay: int,
    interval: int,
    timeout: int,
    successThreshold: int,
    failureThreshold: int)

  datatype HealthState = HealthState(
    status: string,
    lastChecked: Time,
    lastSuccess: Time,
    lastFailure: Time,
    successCount: int,
    failureCount: int,
    consecutiveFail: int)

  /** The zero value a freshly created record carries. */
  const NoHealth: HealthState := HealthState("", 0, 0, 0, 0, 0, 0)

  /** A container record. `health`, `healthCheck` and `restartCount` are not
      declared by the Go struct but are read and written by the health worker. */
  datatype Container = Container(
    id: string,
    name: string,
    image: string,
    command: seq<string>,
    env: map<string, string>,
    ports: seq<PortMapping>,
    resources: ResourceRequirements,
    state: string,
    nodeId: string,
    createdAt: Time,
    startedAt: Option<Time>,
    finishedAt: Option<Time>,
    restartPolicy: string,
    restartCount: int,
    health: HealthState,
    healthCheck: Option<HealthCheck>)

  datatype ContainerCreateRequest = ContainerCreateRequest(
    name: string,
    image: string,
    command: seq<string>,
    env: map<string, string>,
    ports: seq<PortMapping>,
    resources: ResourceRequirements,
    restartPolicy: string)

  /** The body of a container update: only the fields the handler reads. */
  datatype ContainerPatch = ContainerPatch(state: string, startedAt: Option<Time>, finishedAt: Option<Time>)

  /** The restart policy object the service manager reads through a pointer. */
  datatype RestartPolicy = RestartPolicy(kind: string)

  /** A service record. `healthCheck` and `policy` are not declared by the Go
      struct but are read by the label-indexed service manager. */
  datatype Service = Service(
    id: string,
    name: string,
    image: string,
    command: seq<string>,
    env: map<string, string>,
    ports: seq<PortMapping>,
    resources: ResourceRequirements,
    replicas: int,
    state: string,
    createdAt: Time,
    updatedAt: Time,
    restartPolicy: string,
    containerIds: seq<string>,
    healthCheck: Option<HealthCheck>,
    policy: Option<RestartPolicy>)

  datatype ServiceCreateRequest = ServiceCreateRequest(
    name: string,
    image: string,
    command: seq<string>,
    env: map<string, string>,
    ports: seq<PortMapping>,
    resources: ResourceRequirements,
    replicas: int,
    restartPolicy: string)

  // HTTP status codes the handlers answer with.
  const StatusOK: int := 200
  const StatusCreated: int := 201
  const StatusNoContent: int := 204
  const StatusBadRequest: int := 400
  const StatusNotFound: int := 404
  const StatusInternalServerError: int := 500
}
