/** The three reconcilers, the object store they share and their environment
    as one step system. Every store object is the list of its versions: the
    index of a version is its resourceVersion and the last one is current. A
    cached read may return any version. One step is one API call; between two
    calls of a pass anything else may happen. */
module System {
  import opened Common
  import opened Objects

  datatype Store = Store(
    svcs: seq<ServiceVersion>,
    cis: seq<CIVersion>,
    cds: seq<CDVersion>,
    deps: seq<Deployment>,
    pods: seq<Pod>)

  /** A discovery that ran to completion: under which generation, and the two
      results it writes together. */
  datatype Finding = Finding(generation: nat, sha: string, dockerfile: string)

  // Where a pass of each reconciler stands between two API calls.

  datatype CIPlace =
    | CIRest
    | CIDeleting(copy: nat, svc: nat, allowed: bool)
    | CICreating(copy: nat, svc: nat)
    | CIConfirming(copy: nat, svc: nat)
    | CIComparing(copy: nat)
    | CIPatching(copy: nat, write: CIWrite, svc: nat)
    | CIEnsuring(copy: nat, svc: nat)

  datatype SvcPlace =
    | SvcRest
    | SvcPointing(copy: nat, target: Target, found: bool)
    | SvcSyncing(copy: nat, st: ServiceStatus)
    | SvcDeriving(copy: nat, st: ServiceStatus)
    | SvcPatching(copy: nat, st: ServiceStatus)

  datatype CDPlace =
    | CDRest
    | CDReading(copy: CDVersion)
    | CDApplying(copy: CDVersion, image: string, revision: string)
    | CDPatching(copy: CDVersion, st: CDStatus)

  datatype State = State(store: Store, ci: CIPlace, svc: SvcPlace, cd: CDPlace, found: set<Finding>)

  // What a pass is told by the cache and by calls that leave the model.

  datatype PodSeen = PodUnseen | PodSeen(phase: PodPhase)

  datatype Prep = Prepared | NoCredentials | NoPlugin

  datatype CIView = CIView(copy: nat, svc: Option<nat>, pod: PodSeen, prep: Prep, allowed: bool)

  /** hash is the suffix that the content gives the Dockerfile ConfigMap. */
  datatype Discovery = NoStack | NoDockerfile | Stack(language: string, hash: string)

  /** remote is what ResolveRevision returns, None for an error. */
  datatype SvcView = SvcView(
    copy: nat,
    waiting: bool,
    token: bool,
    plugins: Option<seq<PluginRef>>,
    remote: Option<string>,
    discovery: Discovery)

  /** How the create of a build Pod ends: Unheard is an error answer although
      the Pod was created. */
  datatype CreateOutcome = Created | NotCreated | Unheard

  datatype DeployOutcome = Deployed | DeployRefused | ExposeConflict | ExposeRefused

  /** Users, the kubelet and the Deployment controller. */
  datatype EnvAction =
    | EditService(svcSpec: ServiceSpec)
    | EditCI(ciSpec: CISpec, language: string)
    | EditCD(cdSpec: CDSpec)
    | PodEnds(pod: nat, ok: bool)
    | PodRemoved(pod: nat)
    | DeploymentReports(status: DeploymentStatus)
    | ScaleDeployment(replicas: int)

  datatype CIAction =
    | CIBegin(view: CIView)
    | CIDeletePods
    | CICreatePod(create: CreateOutcome)
    | CIConfirmPod
    | CICompare
    | CIPatch
    | CIEnsureCD(cdSeen: Option<nat>)
    | CIStop

  datatype SvcAction =
    | SvcBegin(view: SvcView)
    | SvcEnsureCI(ciSeen: Option<nat>, refused: bool)
    | SvcSyncCD(cdListed: Option<nat>)
    | SvcDerive(ciGot: Option<nat>, cdGot: Option<nat>)
    | SvcPatch
    | SvcStop

  datatype CDAction =
    | CDBegin
    | CDReadCI(ciRead: Option<nat>, allowed: bool)
    | CDDeploy(depSeen: Option<nat>, outcome: DeployOutcome)
    | CDPatch
    | CDStop

  /** A pass may end after any call: an error is returned, or the operator
      restarts (the Stop actions). */
  datatype Action = ByEnv(env: EnvAction) | ByCI(ci: CIAction) | BySvc(svc: SvcAction) | ByCD(cd: CDAction)

  predicate Seen<T>(versions: seq<T>, i: Option<nat>) {
    i.Some? ==> i.value < |versions|
  }

  // ---------------------------------------------------- writes to the store

  function NextCI(last: CIVersion, spec: CISpec, language: string): CIVersion {
    CIVersion(if spec == last.spec then last.generation else last.generation + 1, spec, language, last.status)
  }

  function NextService(last: ServiceVersion, spec: ServiceSpec): ServiceVersion {
    ServiceVersion(if spec == last.spec then last.generation else last.generation + 1, spec, last.status)
  }

  function NextCD(last: CDVersion, spec: CDSpec): CDVersion {
    CDVersion(if spec == last.spec then last.generation else last.generation + 1, spec, last.status)
  }

  /** ensureCI: CreateOrUpdate from the cached copy; None is a Conflict or
      AlreadyExists answer. */
  function PutCI(cfg: Config, cis: seq<CIVersion>, seen: Option<nat>, svc: ServiceSpec, target: Target)
    : Option<seq<CIVersion>>
    requires Seen(cis, seen)
  {
    match seen
    case None =>
      if cis != [] then None
      else Some([CIVersion(1, PointCI(cfg, svc, target, EMPTY_CI_SPEC), target.language, NEW_CI_STATUS)])
    case Some(k) =>
      var spec := PointCI(cfg, svc, target, cis[k].spec);
      if spec == cis[k].spec && target.language == cis[k].language then Some(cis)
      else if k == |cis| - 1 then Some(cis + [NextCI(cis[k], spec, target.language)])
      else None
  }

  /** ensureCD, likewise. */
  function PutCD(cfg: Config, cds: seq<CDVersion>, seen: Option<nat>, ci: CISpec, svc: ServiceSpec)
    : Option<seq<CDVersion>>
    requires Seen(cds, seen)
  {
    match seen
    case None =>
      if cds != [] then None
      else Some([CDVersion(1, PointCD(cfg, ci, svc, EMPTY_CD_SPEC), NEW_CD_STATUS)])
    case Some(k) =>
      var spec := PointCD(cfg, ci, svc, cds[k].spec);
      if spec == cds[k].spec then Some(cds)
      else if k == |cds| - 1 then Some(cds + [NextCD(cds[k], spec)])
      else None
  }

  /** A merge patch without a lock sends the fields that differ from the copy
      it was computed from. */
  function Merge<T(==)>(current: T, copy: T, wanted: T): T {
    if wanted == copy then current else wanted
  }

  function MergeCDSpec(current: CDSpec, copy: CDSpec, wanted: CDSpec): CDSpec {
    CDSpec(
      Merge(current.pullSecret, copy.pullSecret, wanted.pullSecret),
      Merge(current.replicas, copy.replicas, wanted.replicas),
      Merge(current.env, copy.env, wanted.env),
      Merge(current.port, copy.port, wanted.port),
      Merge(current.resources, copy.resources, wanted.resources))
  }

  function MergeCDStatus(current: CDStatus, copy: CDStatus, wanted: CDStatus): CDStatus {
    CDStatus(
      Merge(current.phase, copy.phase, wanted.phase),
      Merge(current.revision, copy.revision, wanted.revision),
      Merge(current.image, copy.image, wanted.image))
  }

  /** syncCD: the patch of one listed CD. */
  function SyncCD(cds: seq<CDVersion>, k: nat, svc: ServiceSpec): seq<CDVersion>
    requires k < |cds|
  {
    var copy := cds[k].spec;
    var spec := MergeCDSpec(Last(cds).spec, copy, ApplyService(svc, copy));
    if spec == Last(cds).spec then cds else cds + [NextCD(Last(cds), spec)]
  }

  /** reconcileDeployment: the Deployment written or found, with the new list
      of versions. */
  function PutDeployment(deps: seq<Deployment>, seen: Option<nat>, want: DeploymentSpec)
    : Option<(seq<Deployment>, Deployment)>
    requires Seen(deps, seen)
  {
    match seen
    case None =>
      if deps != [] then None
      else var d := Deployment(1, want, NEW_DEPLOYMENT_STATUS); Some(([d], d))
    case Some(k) =>
      if deps[k].spec == want then Some((deps, deps[k]))
      else if k == |deps| - 1 then
        var d := Deployment(deps[k].generation + 1, want, deps[k].status); Some((deps + [d], d))
      else None
  }

  /** A status patch with the optimistic lock: None is a Conflict. */
  function PatchCI(cis: seq<CIVersion>, copy: nat, st: CIStatus): Option<seq<CIVersion>>
    requires copy < |cis|
  {
    if copy != |cis| - 1 then None
    else if st == cis[copy].status then Some(cis)
    else Some(cis + [cis[copy].(status := st)])
  }

  function PatchService(svcs: seq<ServiceVersion>, copy: nat, st: ServiceStatus): Option<seq<ServiceVersion>>
    requires copy < |svcs|
  {
    if copy != |svcs| - 1 then None
    else if st == svcs[copy].status then Some(svcs)
    else Some(svcs + [svcs[copy].(status := st)])
  }

  function PatchCD(cds: seq<CDVersion>, copy: CDStatus, st: CDStatus): seq<CDVersion>
    requires cds != []
  {
    var merged := MergeCDStatus(Last(cds).status, copy, st);
    if merged == Last(cds).status then cds else cds + [Last(cds).(status := merged)]
  }

  function DeleteAllPods(pods: seq<Pod>): (r: seq<Pod>)
    ensures |r| == |pods|
    ensures forall p | 0 <= p < |pods| :: r[p] == pods[p].(deleting := true)
  {
    seq(|pods|, p requires 0 <= p < |pods| => pods[p].(deleting := true))
  }

  // ------------------------------------------------------------- decisions

  predicate CIViewPossible(st: Store, v: CIView) {
    && v.copy < |st.cis|
    && Seen(st.svcs, v.svc)
    && (v.pod.PodSeen? ==>
          var p := st.cis[v.copy].status.buildPod;
          p.Some? && p.value < |st.pods| && (v.pod.phase == PodRunning || v.pod.phase == st.pods[p.value].phase))
  }

  /** What a CI pass does first with what it read from the cache. */
  function DecideCI(cfg: Config, st: Store, v: CIView): CIPlace
    requires CIViewPossible(st, v)
  {
    var ci := st.cis[v.copy];
    if v.svc.None? then CIPatching(v.copy, ToWaiting, 0)
    else
      var j := v.svc.value;
      if ci.spec.revision == "" || ci.spec.dockerfile == "" then CIPatching(v.copy, ToWaiting, j)
      else if !ValidBuild(cfg, ci.spec, st.svcs[j].spec) then CIPatching(v.copy, ToFailed(InvalidSpec), j)
      else if Following(ci) then
        (match v.pod
         case PodUnseen => CIConfirming(v.copy, j)
         case PodSeen(phase) => CIPatching(v.copy, FollowWrite(phase), j))
      else if Current(ci) && ci.status.phase == CISucceeded then CIEnsuring(v.copy, j)
      else if Current(ci) && ci.status.phase == CIFailed then CIRest
      else
        match v.prep
        case NoCredentials => CIPatching(v.copy, ToFailed(RegistryCredentials), j)
        case NoPlugin => CIPatching(v.copy, ToFailed(PluginMissing), j)
        case Prepared => CIDeleting(v.copy, j, v.allowed)
  }

  function ConfigMapName(cfg: Config, hash: string): string {
    cfg.service + "-dockerfile-" + hash
  }

  /** What a Service pass does before it first writes. */
  function DecideService(cfg: Config, st: Store, v: SvcView): SvcPlace
    requires v.copy < |st.svcs|
  {
    var c := st.svcs[v.copy];
    var s := c.status;
    var changed := s.observed != c.generation;
    if !ValidSource(cfg, c.spec) then
      if s.phase != SvcFailed || changed
      then SvcPatching(v.copy, MarkFailed(s, c.generation, InvalidSource))
      else SvcRest
    else if s.phase == SvcFailed && !PipelineFailure(s) && !changed && v.waiting then SvcRest
    else if !v.token then SvcPatching(v.copy, MarkFailed(s, c.generation, SecretUnavailable))
    else if v.plugins.None? then SvcPatching(v.copy, MarkFailed(s, c.generation, PluginUnavailable))
    else
      var polling := !changed && Discovered(c.generation, s);
      if v.remote.None? then
        SvcPatching(v.copy, if polling then s else MarkFailed(s, c.generation, RevisionUnresolved))
      else if polling && v.remote.value == s.latestRevision then
        SvcPointing(v.copy, Target(s.language, s.latestRevision, s.dockerfile, v.plugins.value), false)
      else
        match v.discovery
        case NoStack => SvcPatching(v.copy, MarkFailed(s, c.generation, DiscoveryFailed))
        case NoDockerfile => SvcPatching(v.copy, MarkFailed(s, c.generation, DockerfileFailed))
        case Stack(language, hash) =>
          SvcPointing(v.copy, Target(language, v.remote.value, ConfigMapName(cfg, hash), v.plugins.value), true)
  }

  /** The status after a completed discovery. */
  function Recorded(cfg: Config, c: ServiceVersion, target: Target): ServiceStatus {
    SetPhase(
      c.status.(language := target.language, latestRevision := target.sha, dockerfile := target.dockerfile,
      ciRef := cfg.ci, observed := c.generation),
      SvcBuilding)
  }

  /** The CI was asked for the latest revision, and is Failed. */
  predicate CIHasFailed(st: ServiceStatus, ci: Option<CIVersion>) {
    ci.Some? && ci.value.spec.revision == st.latestRevision && ci.value.status.phase == CIFailed
  }

  /** The CI was asked for the latest revision, and has built it. */
  predicate BuiltLatest(st: ServiceStatus, ci: Option<CIVersion>) {
    && ci.Some? && ci.value.spec.revision == st.latestRevision
    && ci.value.status.phase == CISucceeded && ci.value.status.revision == st.latestRevision
  }

  predicate CDHasFailed(st: ServiceStatus, ci: Option<CIVersion>, cd: Option<CDVersion>) {
    BuiltLatest(st, ci) && st.cdRef != "" && cd.Some? && cd.value.status.phase == CDFailed
  }

  /** The latest revision is built and runs. */
  predicate RunsLatest(st: ServiceStatus, ci: Option<CIVersion>, cd: Option<CDVersion>) {
    && BuiltLatest(st, ci) && st.cdRef != "" && cd.Some?
    && cd.value.status.phase == CDRunning && cd.value.status.revision == st.latestRevision
  }

  /** The phase that copies of the CI and CD give a Service. */
  function PipelinePhase(st: ServiceStatus, ci: Option<CIVersion>, cd: Option<CDVersion>): ServiceStatus {
    if CIHasFailed(st, ci) then SetPipelineFailed(st, ReasonCIFailed)
    else if CDHasFailed(st, ci, cd) then SetPipelineFailed(st, ReasonCDFailed)
    else SetPhase(st, if RunsLatest(st, ci, cd) then SvcReady else SvcBuilding)
  }

  function At<T>(versions: seq<T>, i: Option<nat>): Option<T>
    requires Seen(versions, i)
  {
    if i.Some? then Some(versions[i.value]) else None
  }

  /** The CD status that the Deployment gives. */
  function RolloutStatus(st: CDStatus, image: string, revision: string, d: Deployment): CDStatus {
    st.(image := image, revision := revision,
    phase := if RolledOut(d) then CDRunning else if Stuck(d.status) then CDFailed else CDDeploying)
  }

  // ------------------------------------------------------------------ steps

  // An action that is not possible in a state leaves it as it is.

  function EnvStep(st: Store, a: EnvAction): Store {
    match a
    case EditService(spec) =>
      if st.svcs == [] then st.(svcs := [ServiceVersion(1, spec, NEW_SERVICE_STATUS)])
      else
        var c := Last(st.svcs);
        st.(svcs := st.svcs + [NextService(c, spec)])
    case EditCI(spec, language) =>
      if st.cis == [] then st.(cis := [CIVersion(1, spec, language, NEW_CI_STATUS)])
      else st.(cis := st.cis + [NextCI(Last(st.cis), spec, language)])
    case EditCD(spec) =>
      if st.cds == [] then st.(cds := [CDVersion(1, spec, NEW_CD_STATUS)])
      else st.(cds := st.cds + [NextCD(Last(st.cds), spec)])
    case PodEnds(p, ok) =>
      if p < |st.pods| && st.pods[p].phase == PodRunning && !st.pods[p].gone
      then st.(pods := st.pods[p := st.pods[p].(phase := if ok then PodSucceeded else PodFailed)])
      else st
    case PodRemoved(p) =>
      if p < |st.pods| then st.(pods := st.pods[p := st.pods[p].(deleting := true, gone := true)]) else st
    case DeploymentReports(status) =>
      if st.deps == [] then st else st.(deps := st.deps + [Last(st.deps).(status := status)])
    case ScaleDeployment(n) =>
      if st.deps == [] then st
      else
        var d := Last(st.deps);
        st.(deps := st.deps + [d.(generation := d.generation + 1, spec := d.spec.(replicas := n))])
  }

  function CIStep(cfg: Config, s: State, a: CIAction): State {
    var st := s.store;
    match a
    case CIBegin(v) =>
      if s.ci.CIRest? && CIViewPossible(st, v) then s.(ci := DecideCI(cfg, st, v)) else s
    case CIDeletePods =>
      if !s.ci.CIDeleting? then s
      else
        s.(store := st.(pods := DeleteAllPods(st.pods)),
        ci := if s.ci.allowed then CICreating(s.ci.copy, s.ci.svc)
              else CIPatching(s.ci.copy, ToFailed(SecretNotAllowed), 0))
    case CICreatePod(outcome) =>
      if !s.ci.CICreating? || s.ci.copy >= |st.cis| || s.ci.svc >= |st.svcs| then s
      else
        var pods := if outcome == NotCreated then st.pods
                    else st.pods + [BuildPod(st.cis[s.ci.copy].spec, st.svcs[s.ci.svc].spec)];
        s.(store := st.(pods := pods),
        ci := CIPatching(s.ci.copy, if outcome == Created then ToBuilding(|st.pods|) else ToRejected, 0))
    case CIConfirmPod =>
      if !s.ci.CIConfirming? || s.ci.copy >= |st.cis| then s
      else
        var p := st.cis[s.ci.copy].status.buildPod;
        if p.None? || p.value >= |st.pods| || st.pods[p.value].gone then s.(ci := CIComparing(s.ci.copy))
        else s.(ci := CIPatching(s.ci.copy, FollowWrite(st.pods[p.value].phase), s.ci.svc))
    case CICompare =>
      if !s.ci.CIComparing? || s.ci.copy >= |st.cis| then s
      else if Last(st.cis).status.buildPod == st.cis[s.ci.copy].status.buildPod
      then s.(ci := CIPatching(s.ci.copy, ToLost, 0))
      else s.(ci := CIRest)
    case CIPatch =>
      if !s.ci.CIPatching? || s.ci.copy >= |st.cis| then s
      else
        (match PatchCI(st.cis, s.ci.copy, Apply(s.ci.write, st.cis[s.ci.copy]))
         case None => s.(ci := CIRest)
         case Some(cis) =>
           s.(store := st.(cis := cis),
           ci := if s.ci.write.ToSucceeded? then CIEnsuring(s.ci.copy, s.ci.svc) else CIRest))
    case CIEnsureCD(seen) =>
      if !s.ci.CIEnsuring? || s.ci.copy >= |st.cis| || s.ci.svc >= |st.svcs| || !Seen(st.cds, seen) then s
      else
        (match PutCD(cfg, st.cds, seen, st.cis[s.ci.copy].spec, st.svcs[s.ci.svc].spec)
         case None => s.(ci := CIRest)
         case Some(cds) => s.(store := st.(cds := cds), ci := CIRest))
    case CIStop => s.(ci := CIRest)
  }

  function SvcStep(cfg: Config, s: State, a: SvcAction): State {
    var st := s.store;
    match a
    case SvcBegin(v) =>
      if s.svc.SvcRest? && v.copy < |st.svcs| then s.(svc := DecideService(cfg, st, v)) else s
    case SvcEnsureCI(seen, refused) =>
      if !s.svc.SvcPointing? || s.svc.copy >= |st.svcs| || !Seen(st.cis, seen) then s
      else
        var c := st.svcs[s.svc.copy];
        var t := s.svc.target;
        if refused then
          s.(svc := if s.svc.found then SvcPatching(s.svc.copy, MarkFailed(c.status, c.generation, CIInitFailed))
                    else SvcRest)
        else
          (match PutCI(cfg, st.cis, seen, c.spec, t)
           case None =>
             s.(svc := if s.svc.found then SvcPatching(s.svc.copy, SetPhase(c.status, SvcDiscovering)) else SvcRest)
           case Some(cis) =>
             if s.svc.found then
               s.(store := st.(cis := cis), svc := SvcSyncing(s.svc.copy, Recorded(cfg, c, t)),
               found := s.found + {Finding(c.generation, t.sha, t.dockerfile)})
             else s.(store := st.(cis := cis), svc := SvcSyncing(s.svc.copy, c.status.(ciRef := cfg.ci))))
    case SvcSyncCD(listed) =>
      if !s.svc.SvcSyncing? || s.svc.copy >= |st.svcs| || !Seen(st.cds, listed) then s
      else
        (match listed
         case None => s.(svc := SvcDeriving(s.svc.copy, s.svc.st.(cdRef := "")))
         case Some(k) =>
           s.(store := st.(cds := SyncCD(st.cds, k, st.svcs[s.svc.copy].spec)),
           svc := SvcDeriving(s.svc.copy, s.svc.st.(cdRef := cfg.service + "-cd"))))
    case SvcDerive(ci, cd) =>
      if !s.svc.SvcDeriving? || !Seen(st.cis, ci) || !Seen(st.cds, cd) then s
      else s.(svc := SvcPatching(s.svc.copy, PipelinePhase(s.svc.st, At(st.cis, ci), At(st.cds, cd))))
    case SvcPatch =>
      if !s.svc.SvcPatching? || s.svc.copy >= |st.svcs| then s
      else
        (match PatchService(st.svcs, s.svc.copy, s.svc.st)
         case None => s.(svc := SvcRest)
         case Some(svcs) => s.(store := st.(svcs := svcs), svc := SvcRest))
    case SvcStop => s.(svc := SvcRest)
  }

  function CDStep(s: State, a: CDAction): State {
    var st := s.store;
    match a
    case CDBegin =>
      if s.cd.CDRest? && st.cds != [] then s.(cd := CDReading(Last(st.cds))) else s
    case CDReadCI(seen, allowed) =>
      if !s.cd.CDReading? || !Seen(st.cis, seen) then s
      else
        var copy := s.cd.copy;
        if seen.None? || st.cis[seen.value].status.image == "" then
          s.(cd := CDPatching(copy, copy.status.(phase := CDWaiting)))
        else if !allowed then s.(cd := CDPatching(copy, copy.status.(phase := CDFailed)))
        else s.(cd := CDApplying(copy, st.cis[seen.value].status.image, st.cis[seen.value].status.revision))
    case CDDeploy(seen, outcome) =>
      if !s.cd.CDApplying? || !Seen(st.deps, seen) then s
      else
        var copy := s.cd.copy;
        var failed := CDPatching(copy, copy.status.(phase := CDFailed));
        if outcome == DeployRefused then s.(cd := failed)
        else
          (match PutDeployment(st.deps, seen, WantedDeployment(copy.spec, s.cd.image))
           case None => s.(cd := if seen.None? then failed else CDRest) // AlreadyExists, or a Conflict
           case Some((deps, d)) =>
             s.(store := st.(deps := deps),
             cd := match outcome
               case Deployed => CDPatching(copy, RolloutStatus(copy.status, s.cd.image, s.cd.revision, d))
               case ExposeConflict => CDRest
               case _ => failed))
    case CDPatch =>
      if !s.cd.CDPatching? || st.cds == [] then s
      else s.(store := st.(cds := PatchCD(st.cds, s.cd.copy.status, s.cd.st)), cd := CDRest)
    case CDStop => s.(cd := CDRest)
  }

  function Step(cfg: Config, s: State, a: Action): State {
    match a
    case ByEnv(e) => s.(store := EnvStep(s.store, e))
    case ByCI(c) => CIStep(cfg, s, c)
    case BySvc(v) => SvcStep(cfg, s, v)
    case ByCD(d) => CDStep(s, d)
  }

  function Initial(): State {
    State(Store([], [], [], [], []), CIRest, SvcRest, CDRest, {})
  }

  function Run(cfg: Config, s: State, trace: seq<Action>): State {
    if trace == [] then s else Step(cfg, Run(cfg, s, trace[..|trace| - 1]), Last(trace))
  }
}
