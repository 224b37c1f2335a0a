/** The container action request, as far as the docker CLI path reads it. */
module ActionRequest {
  import opened Integers
  import opened JsonValue
  import opened Wrappers
  import opened Text
  import SecretEnv

  /** The actions that reach the general docker CLI path. */
  datatype ActionKind = Start | Stop | Restart | Logs | Inspect | Deploy

  datatype VolumeMount = VolumeMount(hostPath: string, containerPath: string, readOnly: bool)

  /** 0 leaves a limit out. */
  datatype ResourceLimits = ResourceLimits(memoryMb: U32, cpuShares: U32)

  datatype ContainerHealthCheck =
    ContainerHealthCheck(endpoint: string, internalPort: U16, intervalSecs: U32, timeoutSecs: U32)

  datatype Request = Request(
    action: ActionKind,
    containerRef: string,
    tailLines: Option<U32>,
    imageRef: Option<string>,
    envVars: seq<string>,
    secretEnvVars: seq<SecretEnv.Secret>,
    portMappings: seq<string>,
    extraHosts: seq<string>,
    entrypoint: Option<string>,
    command: seq<Json>,
    restartPolicy: Option<string>,
    volumeMounts: seq<VolumeMount>,
    resourceLimits: Option<ResourceLimits>,
    healthCheck: Option<ContainerHealthCheck>,
    labels: map<string, string>,
    network: Option<string>,
    expectedContainerId: Option<string>)

  /** `.as_deref().map(str::trim).filter(|s| !s.is_empty())`. */
  function Present(s: Option<string>): Option<string> {
    if s.Some? && !Blank(s.value) then Some(Trim(s.value)) else None
  }
}
