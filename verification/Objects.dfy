/** The Koptan resources of one Service and the pure decisions the three
    reconcilers take on them. A resource version is one immutable value; the
    store keeps every version. Messages, timestamps and the conditions other
    than the reason of Ready are left out. */
module Objects {

  import opened Common

  /** What the operator is started with, and the field validators it uses. */
  datatype Config = Config(
    service: string,
    ci: string,
    defaultRegistry: string,
    validURL: string -> bool,
    validRevision: string -> bool,
    validPath: string -> bool)

  predicate IsSHA(rev: string) {
    |rev| == 40 && forall c | c in rev :: '0' <= c <= '9' || 'a' <= c <= 'f'
  }

  function Short(sha: string): string {
    if |sha| > 12 then sha[..12] else sha
  }

  // ---------------------------------------------------------------- Service

  datatype ImageSpec = ImageSpec(registry: string, repo: string, credentials: string)

  datatype BuildSpec = BuildSpec(contextDir: string, dockerfilePath: string)

  /** credential names the Secret for the repository, if it needs one. */
  datatype ServiceSpec = ServiceSpec(
    repo: string,
    credential: string,
    revision: string,
    build: Option<BuildSpec>,
    image: Option<ImageSpec>,
    replicas: Option<int>,
    env: seq<string>,
    port: int)

  datatype SvcPhase = SvcUnset | SvcDiscovering | SvcBuilding | SvcReady | SvcFailed

  datatype SvcFault =
    | InvalidSource | SecretUnavailable | PluginUnavailable | RevisionUnresolved
    | DiscoveryFailed | DockerfileFailed | CIInitFailed

  /** The reason of the Ready condition. */
  datatype SvcReason =
    | NoSvcReason
    | InPhase(phase: SvcPhase)
    | SvcRunning
    | ReasonCIFailed
    | ReasonCDFailed
    | OwnFault(fault: SvcFault)

  datatype ServiceStatus = ServiceStatus(
    phase: SvcPhase,
    reason: SvcReason,
    language: string,
    latestRevision: string,
    ciRef: string,
    cdRef: string,
    dockerfile: string,
    observed: nat)

  datatype ServiceVersion = ServiceVersion(generation: nat, spec: ServiceSpec, status: ServiceStatus)

  const NEW_SERVICE_STATUS := ServiceStatus(SvcUnset, NoSvcReason, "", "", "", "", "", 0)

  predicate ValidSource(cfg: Config, spec: ServiceSpec) {
    && cfg.validURL(spec.repo)
    && cfg.validRevision(spec.revision)
    && (spec.build.Some? ==>
          && (spec.build.value.contextDir == "" || cfg.validPath(spec.build.value.contextDir))
          && (spec.build.value.dockerfilePath == "" || cfg.validPath(spec.build.value.dockerfilePath)))
  }

  function ServicePort(spec: ServiceSpec): int {
    if spec.port != 0 then spec.port else 8080
  }

  predicate PipelineFailure(st: ServiceStatus) {
    st.phase == SvcFailed && (st.reason == ReasonCIFailed || st.reason == ReasonCDFailed)
  }

  /** Discovery finished for the spec of this generation. */
  predicate Discovered(generation: nat, st: ServiceStatus) {
    && st.observed == generation
    && st.ciRef != ""
    && (st.phase == SvcBuilding || st.phase == SvcReady || PipelineFailure(st))
  }

  function SetPhase(st: ServiceStatus, phase: SvcPhase): ServiceStatus {
    st.(phase := phase, reason := if phase == SvcReady then SvcRunning else InPhase(phase))
  }

  function SetPipelineFailed(st: ServiceStatus, reason: SvcReason): ServiceStatus {
    st.(phase := SvcFailed, reason := reason)
  }

  function MarkFailed(st: ServiceStatus, generation: nat, fault: SvcFault): ServiceStatus {
    st.(phase := SvcFailed, reason := OwnFault(fault), observed := generation)
  }

  // --------------------------------------------------------------------- CI

  datatype PluginRef = PluginRef(name: string, generation: nat)

  /** login says whether the deprecated loginSecret is set; extraSteps stands
      for the containers a user may add. */
  datatype CISpec = CISpec(
    registry: string,
    repo: string,
    credentials: string,
    login: bool,
    revision: string,
    dockerfile: string,
    contextDir: string,
    plugins: seq<PluginRef>,
    extraSteps: seq<string>)

  datatype CIPhase = CIUnset | CIWaiting | CIResolving | CIBuilding | CISucceeded | CIFailed

  datatype CIReason =
    | NoCIReason
    | PhaseReason(phase: CIPhase)
    | InvalidSpec | RegistryCredentials | PluginMissing | SecretNotAllowed
    | PodCreateFailed | BuildPodLost | BuildFailed

  /** Pods are numbered in the order they were created, so no two builds
      share a name; None is the empty name. */
  datatype CIStatus = CIStatus(
    phase: CIPhase,
    reason: CIReason,
    revision: string,
    image: string,
    buildCount: nat,
    buildPod: Option<nat>,
    buildingRevision: string,
    observed: nat)

  datatype CIVersion = CIVersion(generation: nat, spec: CISpec, language: string, status: CIStatus)

  const NEW_CI_STATUS := CIStatus(CIUnset, NoCIReason, "", "", 0, None, "", 0)
  const EMPTY_CI_SPEC := CISpec("", "", "", false, "", "", "", [], [])

  function TrimSuffixSlash(s: string): string {
    if |s| > 0 && s[|s| - 1] == '/' then s[..|s| - 1] else s
  }

  function TrimLeftSlashes(s: string): string {
    if |s| > 0 && s[0] == '/' then TrimLeftSlashes(s[1..]) else s
  }

  function TrimRightSlashes(s: string): string {
    if |s| > 0 && s[|s| - 1] == '/' then TrimRightSlashes(s[..|s| - 1]) else s
  }

  /** registry/repo:<first 12 characters of the commit SHA>. */
  function ImageRef(spec: CISpec, sha: string): string {
    TrimSuffixSlash(spec.registry) + "/" + TrimRightSlashes(TrimLeftSlashes(spec.repo)) + ":" + Short(sha)
  }

  predicate ValidBuild(cfg: Config, spec: CISpec, svc: ServiceSpec) {
    && cfg.validURL(svc.repo)
    && IsSHA(spec.revision)
    && spec.registry != "" && spec.repo != ""
    && (spec.contextDir == "" || cfg.validPath(spec.contextDir))
  }

  /** A build for this revision and spec generation is known. */
  predicate Current(ci: CIVersion) {
    ci.status.buildingRevision == ci.spec.revision && ci.status.observed == ci.generation
  }

  predicate Following(ci: CIVersion) {
    Current(ci) && ci.status.buildPod.Some? && ci.status.phase == CIBuilding
  }

  /** The status writes a CI pass can make, named by their outcome. */
  datatype CIWrite =
    | ToWaiting
    | ToFailed(reason: CIReason)
    | ToRejected
    | ToBuilding(pod: nat)
    | StillBuilding
    | ToBuildFailed
    | ToLost
    | ToSucceeded

  function Apply(w: CIWrite, ci: CIVersion): CIStatus {
    var st := ci.status;
    match w
    case ToWaiting => st.(phase := CIWaiting, reason := PhaseReason(CIWaiting))
    case ToFailed(reason) =>
      st.(phase := CIFailed, reason := reason, buildingRevision := ci.spec.revision, observed := ci.generation)
    case ToRejected => st.(phase := CIFailed, reason := PodCreateFailed)
    case ToBuilding(pod) =>
      st.(phase := CIBuilding, reason := PhaseReason(CIBuilding), buildPod := Some(pod),
      buildingRevision := ci.spec.revision, observed := ci.generation)
    case StillBuilding => st.(phase := CIBuilding, reason := PhaseReason(CIBuilding))
    case ToBuildFailed => st.(phase := CIFailed, reason := BuildFailed, observed := ci.generation)
    case ToLost => st.(phase := CIFailed, reason := BuildPodLost, observed := ci.generation)
    case ToSucceeded =>
      st.(phase := CISucceeded, reason := PhaseReason(CISucceeded), image := ImageRef(ci.spec, ci.spec.revision),
      revision := ci.spec.revision, buildCount := st.buildCount + 1)
  }

  // -------------------------------------------------------- what CI builds

  datatype Target = Target(language: string, sha: string, dockerfile: string, plugins: seq<PluginRef>)

  function Registry(cfg: Config, image: Option<ImageSpec>, spec: CISpec): CISpec {
    var s := if image.Some?
             then spec.(registry := image.value.registry, repo := image.value.repo,
                        credentials := image.value.credentials)
             else spec;
    var r := if s.registry == "" then cfg.defaultRegistry else s.registry;
    s.(registry := if r == "" then "docker.io" else r,
    repo := if s.repo == "" then cfg.service else s.repo)
  }

  /** The fields of a CI spec that its Service owns. */
  function PointCI(cfg: Config, svc: ServiceSpec, target: Target, spec: CISpec): CISpec {
    Registry(cfg, svc.image, spec.(
      revision := target.sha,
      dockerfile := target.dockerfile,
      plugins := target.plugins,
      contextDir := if svc.build.Some? then svc.build.value.contextDir else ""))
  }

  // ------------------------------------------------------ CD and Deployment

  datatype CDSpec = CDSpec(
    pullSecret: string,
    replicas: int,
    env: seq<string>,
    port: int,
    resources: Option<string>)

  datatype CDPhase = CDUnset | CDWaiting | CDDeploying | CDRunning | CDFailed

  datatype CDStatus = CDStatus(phase: CDPhase, revision: string, image: string)

  datatype CDVersion = CDVersion(generation: nat, spec: CDSpec, status: CDStatus)

  const NEW_CD_STATUS := CDStatus(CDUnset, "", "")
  const EMPTY_CD_SPEC := CDSpec("", 0, [], 0, None)
  const DEFAULT_RESOURCES := "100m/500m/128Mi/256Mi"

  function ApplyService(svc: ServiceSpec, spec: CDSpec): CDSpec {
    spec.(
    replicas := if svc.replicas.Some? then svc.replicas.value else 1,
    env := svc.env,
    port := ServicePort(svc))
  }

  /** What ensureCD makes of a CD spec. */
  function PointCD(cfg: Config, ci: CISpec, svc: ServiceSpec, spec: CDSpec): CDSpec {
    var pull := if ci.credentials == "" && ci.login then cfg.ci + "-registry" else ci.credentials;
    var s := ApplyService(svc, spec.(pullSecret := pull));
    if s.resources.None? then s.(resources := Some(DEFAULT_RESOURCES)) else s
  }

  datatype PodSpec = PodSpec(image: string, env: seq<string>, port: int, pullSecret: string, resources: Option<string>)

  function AppPodSpec(spec: CDSpec, image: string): PodSpec {
    PodSpec(image, spec.env, if spec.port == 0 then 8080 else spec.port, spec.pullSecret, spec.resources)
  }

  datatype DeploymentSpec = DeploymentSpec(replicas: int, template: PodSpec)

  datatype Condition = Condition(kind: string, status: string, reason: string)

  datatype DeploymentStatus = DeploymentStatus(observed: nat, updated: int, available: int, conditions: seq<Condition>)

  predicate DeadlineExceeded(c: Condition) {
    c.kind == "Progressing" && c.status == "False" && c.reason == "ProgressDeadlineExceeded"
  }

  /** deployFailed, stated outright. */
  predicate Stuck(st: DeploymentStatus) {
    exists c :: c in st.conditions && DeadlineExceeded(c)
  }

  datatype Deployment = Deployment(generation: nat, spec: DeploymentSpec, status: DeploymentStatus)

  const NEW_DEPLOYMENT_STATUS := DeploymentStatus(0, 0, 0, [])

  function WantedDeployment(spec: CDSpec, image: string): DeploymentSpec {
    DeploymentSpec(if spec.replicas < 0 then 1 else spec.replicas, AppPodSpec(spec, image))
  }

  predicate RolledOut(d: Deployment) {
    && d.status.observed >= d.generation
    && d.status.updated >= d.spec.replicas
    && d.status.available >= d.spec.replicas
  }

  // -------------------------------------------------------------------- Pod

  datatype PodPhase = PodRunning | PodSucceeded | PodFailed

  /** spec is the CI spec and svc the Service spec that the Pod was made from:
      it clones the repository of the Service with its credential, and mounts
      and runs what the CI spec says. deleting: a deletion timestamp is set;
      gone: removed from the store. */
  datatype Pod = Pod(
    spec: CISpec,
    svc: ServiceSpec,
    revision: string,
    image: string,
    phase: PodPhase,
    deleting: bool,
    gone: bool)

  function BuildPod(spec: CISpec, svc: ServiceSpec): Pod {
    Pod(spec, svc, spec.revision, ImageRef(spec, spec.revision), PodRunning, false, false)
  }

  function FollowWrite(phase: PodPhase): CIWrite {
    match phase
    case PodRunning => StillBuilding
    case PodSucceeded => ToSucceeded
    case PodFailed => ToBuildFailed
  }
}
