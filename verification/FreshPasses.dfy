/** Undisturbed passes with fresh reads: what each of the three reconcilers, a
    build Pod that ends and a rollout that finishes make of the store. */
module FreshPasses {
  import opened Common
  import opened Objects
  import opened System
  import opened Histories
  import opened BuildSafety
  import opened DeploySafety

  /** The inputs that stay fixed: the plugins attached to the Service, the
      head of its branch and what discovery finds there. */
  datatype World = World(plugins: seq<PluginRef>, head: string, language: string, hash: string)

  function Newest<T>(versions: seq<T>): Option<nat> {
    if versions == [] then None else Some(|versions| - 1)
  }

  // ----------------------------------------------------------------- passes

  function ServiceView(st: Store, w: World): SvcView
    requires st.svcs != []
  {
    SvcView(|st.svcs| - 1, false, true, Some(w.plugins), Some(w.head), Stack(w.language, w.hash))
  }

  function ServicePass(cfg: Config, s: State, w: World): State {
    if s.store.svcs == [] then s
    else
      var s1 := SvcStep(cfg, s, SvcBegin(ServiceView(s.store, w)));
      var s2 := SvcStep(cfg, s1, SvcEnsureCI(Newest(s1.store.cis), false));
      var s3 := SvcStep(cfg, s2, SvcSyncCD(Newest(s2.store.cds)));
      var s4 := SvcStep(cfg, s3, SvcDerive(Newest(s3.store.cis), Newest(s3.store.cds)));
      SvcStep(cfg, s4, SvcPatch)
  }

  function FreshPod(st: Store, c: CIVersion): PodSeen {
    var p := c.status.buildPod;
    if p.Some? && p.value < |st.pods| && !st.pods[p.value].gone then PodSeen(st.pods[p.value].phase) else PodUnseen
  }

  function FreshCIView(st: Store): CIView
    requires st.cis != []
  {
    CIView(|st.cis| - 1, Newest(st.svcs), FreshPod(st, Last(st.cis)), Prepared, true)
  }

  /** The calls of a CI pass after its cached reads; those that its place does
      not ask for do nothing. */
  function CITail(cfg: Config, s1: State): State {
    CIEnd(cfg, CIStep(cfg, CIStep(cfg, s1, CIDeletePods), CICreatePod(Created)))
  }

  /** Those after a create. */
  function CIEnd(cfg: Config, s3: State): State {
    var s4 := CIStep(cfg, s3, CIConfirmPod);
    var s5 := CIStep(cfg, s4, CICompare);
    var s6 := CIStep(cfg, s5, CIPatch);
    CIStep(cfg, s6, CIEnsureCD(Newest(s6.store.cds)))
  }

  function CIPass(cfg: Config, s: State): State {
    if s.store.cis == [] || s.store.svcs == [] then s
    else CITail(cfg, CIStep(cfg, s, CIBegin(FreshCIView(s.store))))
  }

  /** The build Pod succeeds. */
  function PodPass(s: State): State {
    if s.store.cis == [] || Last(s.store.cis).status.buildPod.None? then s
    else s.(store := EnvStep(s.store, PodEnds(Last(s.store.cis).status.buildPod.value, true)))
  }

  function CDPass(s: State): State {
    var s1 := CDStep(s, CDBegin);
    var s2 := CDStep(s1, CDReadCI(Newest(s1.store.cis), true));
    var s3 := CDStep(s2, CDDeploy(Newest(s2.store.deps), Deployed));
    CDStep(s3, CDPatch)
  }

  /** The rollout finishes. */
  function RolloutPass(s: State): State {
    if s.store.deps == [] then s
    else
      var d := Last(s.store.deps);
      var report := DeploymentStatus(d.generation, d.spec.replicas, d.spec.replicas, []);
      s.(store := EnvStep(s.store, DeploymentReports(report)))
  }

  datatype Pass = OfService | OfCI | OfPod | OfCD | OfRollout

  function Do(cfg: Config, s: State, w: World, p: Pass): State {
    match p
    case OfService => ServicePass(cfg, s, w)
    case OfCI => CIPass(cfg, s)
    case OfPod => PodPass(s)
    case OfCD => CDPass(s)
    case OfRollout => RolloutPass(s)
  }

  function DoAll(cfg: Config, s: State, w: World, order: seq<Pass>): State {
    if order == [] then s else Do(cfg, DoAll(cfg, s, w, order[..|order| - 1]), w, Last(order))
  }

  // ----------------------------------------------------- what can converge

  ghost predicate Buildable(cfg: Config, w: World) {
    && cfg.service != "" && cfg.ci != ""
    && IsSHA(w.head)
  }

  predicate AtRest(s: State) {
    s.ci.CIRest? && s.svc.SvcRest? && s.cd.CDRest?
  }

  /** The CI has not failed for its current generation, and the Pod of a
      running build has not failed or disappeared. */
  predicate CanSucceed(st: Store, c: CIVersion) {
    && !(Current(c) && c.status.phase == CIFailed)
    && (Following(c) ==>
          var p := c.status.buildPod.value;
          p < |st.pods| && !st.pods[p].gone && st.pods[p].phase != PodFailed)
  }

  /** Facts of every reachable state that convergence rests on. */
  ghost predicate Sound(st: Store) {
    && (forall n | 0 <= n < |st.svcs| ::
          Discovered(st.svcs[n].generation, st.svcs[n].status) ==> st.svcs[n].status.dockerfile != "")
    && AllStatusOk(st)
  }

  /** The pass only polls: the head was already discovered. */
  predicate Polls(v: ServiceVersion, w: World) {
    Discovered(v.generation, v.status) && v.status.latestRevision == w.head
  }

  function TargetOf(st: ServiceStatus, w: World): Target {
    Target(st.language, st.latestRevision, st.dockerfile, w.plugins)
  }

  /** What the next Service pass makes the CI ask for. */
  function TargetFor(cfg: Config, v: ServiceVersion, w: World): Target {
    if Polls(v, w) then TargetOf(v.status, w)
    else Target(w.language, w.head, ConfigMapName(cfg, w.hash), w.plugins)
  }

  /** The build of the CI cannot succeed, and the next Service pass leaves the
      CI spec as it is. */
  predicate Hopeless(cfg: Config, st: Store, w: World)
    requires st.svcs != []
  {
    && st.cis != []
    && var v, c := Last(st.svcs), Last(st.cis);
    && !CanSucceed(st, c)
    && PointCI(cfg, v.spec, TargetFor(cfg, v, w), c.spec) == c.spec
  }

  ghost predicate Start(cfg: Config, s: State, w: World) {
    && Reachable(cfg, s)
    && AtRest(s)
    && s.store.svcs != []
    && ValidSource(cfg, Last(s.store.svcs).spec)
    && !Hopeless(cfg, s.store, w)
  }

  // ----------------------------------------------------------------- stages

  /** The Service is discovered at the head and the CI asks for just that. */
  ghost predicate Matched(cfg: Config, s: State, w: World) {
    && AtRest(s)
    && s.store.svcs != [] && s.store.cis != []
    && var v, c := Last(s.store.svcs), Last(s.store.cis);
    && ValidSource(cfg, v.spec)
    && Discovered(v.generation, v.status)
    && v.status.latestRevision == w.head
    && v.status.dockerfile != ""
    && PointCI(cfg, v.spec, TargetOf(v.status, w), c.spec) == c.spec
    && c.language == v.status.language
  }

  ghost predicate Pointed(cfg: Config, s: State, w: World) {
    && Matched(cfg, s, w)
    && var c := Last(s.store.cis);
    && CanSucceed(s.store, c)
    && (c.status.phase == CISucceeded && Current(c) ==> RecordedHead(c, w))
  }

  predicate RecordedHead(c: CIVersion, w: World) {
    c.status.revision == w.head && c.status.image != ""
  }

  /** The build Pod of the head is running. */
  ghost predicate BuildRuns(cfg: Config, s: State, w: World) {
    && Pointed(cfg, s, w)
    && Following(Last(s.store.cis))
    && s.store.pods[Last(s.store.cis).status.buildPod.value].phase == PodRunning
  }

  /** The build Pod of the head has succeeded. */
  ghost predicate Built(cfg: Config, s: State, w: World) {
    && Pointed(cfg, s, w)
    && var c := Last(s.store.cis);
    && Following(c)
    && s.store.pods[c.status.buildPod.value].phase == PodSucceeded
  }

  /** The CI recorded the head, and its CD asks for that image. */
  ghost predicate Released(cfg: Config, s: State, w: World) {
    && Pointed(cfg, s, w)
    && Current(Last(s.store.cis)) && Last(s.store.cis).status.phase == CISucceeded
    && s.store.cds != []
    && var c, cd := Last(s.store.cis), Last(s.store.cds);
    && PointCD(cfg, c.spec, Last(s.store.svcs).spec, cd.spec) == cd.spec
  }

  /** The Deployment asks for that image. */
  ghost predicate Applied(cfg: Config, s: State, w: World) {
    && Released(cfg, s, w)
    && s.store.deps != []
    && Last(s.store.deps).spec == WantedDeployment(Last(s.store.cds).spec, Last(s.store.cis).status.image)
  }

  ghost predicate RolledOutHead(cfg: Config, s: State, w: World) {
    Applied(cfg, s, w) && RolledOut(Last(s.store.deps))
  }

  ghost predicate Running(cfg: Config, s: State, w: World) {
    && RolledOutHead(cfg, s, w)
    && Last(s.store.cds).status == CDStatus(CDRunning, w.head, Last(s.store.cis).status.image)
  }

  ghost predicate Ready(cfg: Config, s: State, w: World) {
    && Running(cfg, s, w)
    && var st := Last(s.store.svcs).status;
    && st.phase == SvcReady
    && st.reason == SvcRunning
    && st.ciRef == cfg.ci
    && st.cdRef == cfg.service + "-cd"
  }

  // ------------------------------------------------------------ single passes

  /** A CI spec that its Service has pointed passes validation. */
  lemma PointedIsValid(cfg: Config, svc: ServiceSpec, t: Target, spec: CISpec)
    requires ValidSource(cfg, svc) && cfg.service != "" && IsSHA(t.sha)
    ensures ValidBuild(cfg, PointCI(cfg, svc, t, spec), svc)
  {
  }

  lemma PointCIIdempotent(cfg: Config, svc: ServiceSpec, t: Target, spec: CISpec)
    requires cfg.service != ""
    ensures PointCI(cfg, svc, t, PointCI(cfg, svc, t, spec)) == PointCI(cfg, svc, t, spec)
  {
  }

  /** ensureCD and syncCD agree: what one wrote the other does not change. */
  lemma PointCDIdempotent(cfg: Config, ci: CISpec, svc: ServiceSpec, spec: CDSpec)
    ensures PointCD(cfg, ci, svc, PointCD(cfg, ci, svc, spec)) == PointCD(cfg, ci, svc, spec)
    ensures ApplyService(svc, PointCD(cfg, ci, svc, spec)) == PointCD(cfg, ci, svc, spec)
  {
  }

  lemma ServiceDecides(cfg: Config, s: State, w: World)
    requires AtRest(s) && s.store.svcs != [] && ValidSource(cfg, Last(s.store.svcs).spec)
    ensures
      var v := Last(s.store.svcs);
      SvcStep(cfg, s, SvcBegin(ServiceView(s.store, w))) ==
      s.(svc := SvcPointing(|s.store.svcs| - 1, TargetFor(cfg, v, w), !Polls(v, w)))
  {
  }

  /** Two statuses that differ in what is derived from the CI and CD only. */
  predicate SameDiscovery(a: ServiceStatus, b: ServiceStatus) {
    && a.language == b.language && a.latestRevision == b.latestRevision && a.dockerfile == b.dockerfile
    && a.observed == b.observed && a.ciRef == b.ciRef
  }

  predicate PipelineDerived(st: ServiceStatus) {
    st.phase == SvcBuilding || st.phase == SvcReady || PipelineFailure(st)
  }

  function ServiceTail(cfg: Config, s2: State): State {
    var s3 := SvcStep(cfg, s2, SvcSyncCD(Newest(s2.store.cds)));
    var s4 := SvcStep(cfg, s3, SvcDerive(Newest(s3.store.cis), Newest(s3.store.cds)));
    SvcStep(cfg, s4, SvcPatch)
  }

  function Synced(cds: seq<CDVersion>, svc: ServiceSpec): seq<CDVersion> {
    if cds == [] then [] else SyncCD(cds, |cds| - 1, svc)
  }

  function LastOf<T>(versions: seq<T>): Option<T> {
    if versions == [] then None else Some(Last(versions))
  }

  lemma SyncEffect(cfg: Config, s: State)
    requires s.svc.SvcSyncing? && s.svc.copy < |s.store.svcs|
    ensures
      SvcStep(cfg, s, SvcSyncCD(Newest(s.store.cds))) ==
      s.(store := s.store.(cds := Synced(s.store.cds, s.store.svcs[s.svc.copy].spec)),
      svc := SvcDeriving(s.svc.copy, s.svc.st.(cdRef := if s.store.cds == [] then "" else cfg.service + "-cd")))
  {
  }

  lemma DeriveEffect(cfg: Config, s: State)
    requires s.svc.SvcDeriving?
    ensures
      SvcStep(cfg, s, SvcDerive(Newest(s.store.cis), Newest(s.store.cds))) ==
      s.(svc := SvcPatching(s.svc.copy, PipelinePhase(s.svc.st, LastOf(s.store.cis), LastOf(s.store.cds))))
  {
  }

  /** The Service versions after a status write that nobody disturbed. */
  function Patched(svcs: seq<ServiceVersion>, st: ServiceStatus): seq<ServiceVersion>
    requires svcs != []
  {
    if st == Last(svcs).status then svcs else svcs + [Last(svcs).(status := st)]
  }

  lemma PatchEffect(cfg: Config, s: State)
    requires s.svc.SvcPatching? && s.store.svcs != [] && s.svc.copy == |s.store.svcs| - 1
    ensures
      SvcStep(cfg, s, SvcPatch) ==
      s.(store := s.store.(svcs := Patched(s.store.svcs, s.svc.st)), svc := SvcRest)
  {
  }

  /** syncCD, setPipelinePhase and the status write, with nobody in between. */
  lemma ServiceTailEffect(cfg: Config, s: State)
    requires s.svc.SvcSyncing? && s.store.svcs != [] && s.svc.copy == |s.store.svcs| - 1
    ensures
      var cds := Synced(s.store.cds, Last(s.store.svcs).spec);
      var st := s.svc.st.(cdRef := if s.store.cds == [] then "" else cfg.service + "-cd");
      ServiceTail(cfg, s) ==
      s.(store := s.store.(cds := cds,
         svcs := Patched(s.store.svcs, PipelinePhase(st, LastOf(s.store.cis), LastOf(cds)))),
      svc := SvcRest)
  {
    var s3 := SvcStep(cfg, s, SvcSyncCD(Newest(s.store.cds)));
    SyncEffect(cfg, s);
    var s4 := SvcStep(cfg, s3, SvcDerive(Newest(s3.store.cis), Newest(s3.store.cds)));
    DeriveEffect(cfg, s3);
    PatchEffect(cfg, s4);
  }

  lemma PipelinePhaseDerives(st: ServiceStatus, ci: Option<CIVersion>, cd: Option<CDVersion>)
    ensures SameDiscovery(st, PipelinePhase(st, ci, cd)) && PipelineDerived(PipelinePhase(st, ci, cd))
  {
  }

  /** ensureCI on the newest copy always succeeds. */
  lemma PutCINewest(cfg: Config, cis: seq<CIVersion>, svc: ServiceSpec, t: Target)
    requires cfg.service != ""
    ensures
      var r := PutCI(cfg, cis, Newest(cis), svc, t);
      && r.Some? && r.value != []
      && var c := Last(r.value);
      && PointCI(cfg, svc, t, c.spec) == c.spec && c.language == t.language
      && (cis == [] ==> NewCI(c))
      && (cis != [] ==> c == NextCI(Last(cis), c.spec, c.language))
      && (cis != [] && PointCI(cfg, svc, t, Last(cis).spec) == Last(cis).spec && t.language == Last(cis).language ==>
            r.value == cis)
  {
    PointCIIdempotent(cfg, svc, t, if cis == [] then EMPTY_CI_SPEC else Last(cis).spec);
  }

  /** A new language is a label, not a spec field: it bumps no generation and
      leaves the build as it is. */
  lemma RelabelingIsNoRebuild(cfg: Config, cis: seq<CIVersion>, svc: ServiceSpec, target: Target)
    requires cis != [] && PointCI(cfg, svc, target, Last(cis).spec) == Last(cis).spec
    ensures
      var r := PutCI(cfg, cis, Newest(cis), svc, target);
      r.Some? && r.value != [] && Last(r.value) == Last(cis).(language := target.language)
  {
  }

  lemma EnsuredSpec(cfg: Config, cis: seq<CIVersion>, svc: ServiceSpec, t: Target)
    requires cis != []
    ensures
      var r := PutCI(cfg, cis, Newest(cis), svc, t);
      r.Some? && r.value != [] && Last(r.value).spec == PointCI(cfg, svc, t, Last(cis).spec)
  {
  }

  /** The status that the rest of the pass starts from. */
  function EnsuredStatus(cfg: Config, v: ServiceVersion, w: World): ServiceStatus {
    if Polls(v, w) then v.status.(ciRef := cfg.ci) else Recorded(cfg, v, TargetFor(cfg, v, w))
  }

  function EnsuredCIs(cfg: Config, st: Store, w: World): seq<CIVersion>
    requires st.svcs != []
  {
    var v := Last(st.svcs);
    match PutCI(cfg, st.cis, Newest(st.cis), v.spec, TargetFor(cfg, v, w))
    case Some(cis) => cis
    case None => []
  }

  /** What an undisturbed Service pass makes of the store. */
  function AfterService(cfg: Config, st: Store, w: World): Store
    requires st.svcs != []
  {
    var v := Last(st.svcs);
    var cis, cds := EnsuredCIs(cfg, st, w), Synced(st.cds, v.spec);
    var ref := if st.cds == [] then "" else cfg.service + "-cd";
    st.(cis := cis, cds := cds,
    svcs := Patched(st.svcs, PipelinePhase(EnsuredStatus(cfg, v, w).(cdRef := ref), LastOf(cis), LastOf(cds))))
  }

  lemma EnsureStep(cfg: Config, s: State, t: Target, found: bool)
    requires s.store.svcs != [] && cfg.service != "" && s.svc == SvcPointing(|s.store.svcs| - 1, t, found)
    ensures
      var v := Last(s.store.svcs);
      var r := PutCI(cfg, s.store.cis, Newest(s.store.cis), v.spec, t);
      var u := SvcStep(cfg, s, SvcEnsureCI(Newest(s.store.cis), false));
      && r.Some?
      && u == s.(store := s.store.(cis := r.value), found := u.found,
                 svc := SvcSyncing(|s.store.svcs| - 1,
                                   if found then Recorded(cfg, v, t) else v.status.(ciRef := cfg.ci)))
  {
    PutCINewest(cfg, s.store.cis, Last(s.store.svcs).spec, t);
  }

  lemma EnsureEffect(cfg: Config, s: State, w: World)
    requires s.store.svcs != [] && cfg.service != ""
    requires
      var v := Last(s.store.svcs);
      s.svc == SvcPointing(|s.store.svcs| - 1, TargetFor(cfg, v, w), !Polls(v, w))
    ensures
      var v := Last(s.store.svcs);
      var t := SvcStep(cfg, s, SvcEnsureCI(Newest(s.store.cis), false));
      t == s.(store := s.store.(cis := EnsuredCIs(cfg, s.store, w)), found := t.found,
              svc := SvcSyncing(|s.store.svcs| - 1, EnsuredStatus(cfg, v, w)))
  {
    EnsureStep(cfg, s, s.svc.target, s.svc.found);
  }

  lemma ServicePassEffect(cfg: Config, s: State, w: World)
    requires AtRest(s) && s.store.svcs != [] && ValidSource(cfg, Last(s.store.svcs).spec)
    requires cfg.service != ""
    ensures
      var t := ServicePass(cfg, s, w);
      t == s.(store := AfterService(cfg, s.store, w), found := t.found)
  {
    var s1 := SvcStep(cfg, s, SvcBegin(ServiceView(s.store, w)));
    ServiceDecides(cfg, s, w);
    var s2 := SvcStep(cfg, s1, SvcEnsureCI(Newest(s1.store.cis), false));
    EnsureEffect(cfg, s1, w);
    ServiceTailEffect(cfg, s2);
    assert ServicePass(cfg, s, w) == ServiceTail(cfg, s2);
  }

  /** What the pass commits, as far as it is not derived from the CI and CD. */
  lemma CommitDiscovered(cfg: Config, svcs: seq<ServiceVersion>, w: World, st: ServiceStatus)
    requires svcs != [] && cfg.ci != ""
    requires Polls(Last(svcs), w) ==> Last(svcs).status.dockerfile != ""
    requires SameDiscovery(st, EnsuredStatus(cfg, Last(svcs), w)) && PipelineDerived(st)
    ensures
      var v := Last(Patched(svcs, st));
      && v.spec == Last(svcs).spec
      && Discovered(v.generation, v.status)
      && v.status.latestRevision == w.head
      && v.status.dockerfile != ""
      && TargetOf(v.status, w) == TargetFor(cfg, Last(svcs), w)
  {
  }

  /** After a Service pass the Service is discovered at the head. */
  lemma AfterServiceDiscovered(cfg: Config, st: Store, w: World)
    requires st.svcs != [] && cfg.ci != "" && cfg.service != ""
    requires Polls(Last(st.svcs), w) ==> Last(st.svcs).status.dockerfile != ""
    ensures
      var svcs := AfterService(cfg, st, w).svcs;
      && svcs != []
      && var v := Last(svcs);
      && v.spec == Last(st.svcs).spec
      && Discovered(v.generation, v.status)
      && v.status.latestRevision == w.head
      && v.status.dockerfile != ""
      && TargetOf(v.status, w) == TargetFor(cfg, Last(st.svcs), w)
  {
    var v := Last(st.svcs);
    var cis, cds := EnsuredCIs(cfg, st, w), Synced(st.cds, v.spec);
    var ref := if st.cds == [] then "" else cfg.service + "-cd";
    var ensured := EnsuredStatus(cfg, v, w).(cdRef := ref);
    PipelinePhaseDerives(ensured, LastOf(cis), LastOf(cds));
    CommitDiscovered(cfg, st.svcs, w, PipelinePhase(ensured, LastOf(cis), LastOf(cds)));
  }

  /** A spec edit never makes a build hopeless, and a new spec is built anew. */
  lemma NextCICanSucceed(st: Store, c: CIVersion, spec: CISpec, language: string)
    requires StatusOk(st, c.generation, c.status)
    requires CanSucceed(st, c) || spec != c.spec
    ensures CanSucceed(st, NextCI(c, spec, language))
  {
  }

  lemma EnsuredCanSucceed(cfg: Config, st: Store, w: World)
    requires st.svcs != [] && cfg.service != "" && !Hopeless(cfg, st, w)
    requires st.cis != [] ==> StatusOk(st, Last(st.cis).generation, Last(st.cis).status)
    ensures EnsuredCIs(cfg, st, w) != [] && CanSucceed(st, Last(EnsuredCIs(cfg, st, w)))
  {
    var svc, target := Last(st.svcs).spec, TargetFor(cfg, Last(st.svcs), w);
    PutCINewest(cfg, st.cis, svc, target);
    if st.cis != [] {
      var c := Last(EnsuredCIs(cfg, st, w));
      EnsuredSpec(cfg, st.cis, svc, target);
      NextCICanSucceed(st, Last(st.cis), c.spec, c.language);
    }
  }

  /** A success recorded for the head names an image. */
  lemma EnsuredRecord(cfg: Config, st: Store, w: World)
    requires st.svcs != [] && cfg.service != ""
    requires st.cis != [] ==> StatusOk(st, Last(st.cis).generation, Last(st.cis).status)
    ensures
      var c := Last(EnsuredCIs(cfg, st, w));
      && EnsuredCIs(cfg, st, w) != []
      && (c.status.phase == CISucceeded && Current(c) ==> RecordedHead(c, w))
  {
    PutCINewest(cfg, st.cis, Last(st.svcs).spec, TargetFor(cfg, Last(st.svcs), w));
  }

  lemma ServicePassPoints(cfg: Config, s: State, w: World)
    requires Start(cfg, s, w) && Buildable(cfg, w)
    ensures Pointed(cfg, ServicePass(cfg, s, w), w)
  {
    ReachableIsSound(cfg, s);
    if s.store.cis != [] {
      assert StatusOk(s.store, Last(s.store.cis).generation, Last(s.store.cis).status);
    }
    ServicePassEffect(cfg, s, w);
    AfterServiceDiscovered(cfg, s.store, w);
    PutCINewest(cfg, s.store.cis, Last(s.store.svcs).spec, TargetFor(cfg, Last(s.store.svcs), w));
    EnsuredCanSucceed(cfg, s.store, w);
    EnsuredRecord(cfg, s.store, w);
  }

  // ------------------------------------------- passes from a pointed Service

  lemma MatchedServiceEffect(cfg: Config, s: State, w: World)
    requires Matched(cfg, s, w) && Buildable(cfg, w)
    ensures
      var t := ServicePass(cfg, s, w);
      && t == s.(store := AfterService(cfg, s.store, w), found := t.found)
      && t.store.cis == s.store.cis
      && Last(t.store.svcs).spec == Last(s.store.svcs).spec
      && TargetOf(Last(t.store.svcs).status, w) == TargetOf(Last(s.store.svcs).status, w)
      && Matched(cfg, t, w)
  {
    ServicePassEffect(cfg, s, w);
    AfterServiceDiscovered(cfg, s.store, w);
    var v := Last(s.store.svcs);
    PutCINewest(cfg, s.store.cis, v.spec, TargetFor(cfg, v, w));
  }

  /** A Service pass keeps everything downstream that is already in place. */
  lemma ServicePassKeeps(cfg: Config, s: State, w: World)
    requires Pointed(cfg, s, w) && Buildable(cfg, w)
    ensures Pointed(cfg, ServicePass(cfg, s, w), w)
    ensures BuildRuns(cfg, s, w) ==> BuildRuns(cfg, ServicePass(cfg, s, w), w)
    ensures Built(cfg, s, w) ==> Built(cfg, ServicePass(cfg, s, w), w)
    ensures Released(cfg, s, w) ==>
              Released(cfg, ServicePass(cfg, s, w), w) && ServicePass(cfg, s, w).store.cds == s.store.cds
    ensures Applied(cfg, s, w) ==> Applied(cfg, ServicePass(cfg, s, w), w)
    ensures RolledOutHead(cfg, s, w) ==> RolledOutHead(cfg, ServicePass(cfg, s, w), w)
    ensures Running(cfg, s, w) ==> Ready(cfg, ServicePass(cfg, s, w), w)
  {
    MatchedServiceEffect(cfg, s, w);
    if Released(cfg, s, w) {
      PointCDIdempotent(cfg, Last(s.store.cis).spec, Last(s.store.svcs).spec, Last(s.store.cds).spec);
    }
  }

  /** The CI pass of a Service whose build is done: only the CD is ensured. */
  lemma PutCDNewest(cfg: Config, cds: seq<CDVersion>, ci: CISpec, svc: ServiceSpec)
    ensures
      var r := PutCD(cfg, cds, Newest(cds), ci, svc);
      && r.Some? && r.value != []
      && PointCD(cfg, ci, svc, Last(r.value).spec) == Last(r.value).spec
      && (cds != [] && PointCD(cfg, ci, svc, Last(cds).spec) == Last(cds).spec ==> r.value == cds)
  {
    PointCDIdempotent(cfg, ci, svc, if cds == [] then EMPTY_CD_SPEC else Last(cds).spec);
  }

  lemma CIEnsureEffect(cfg: Config, s: State)
    requires s.ci.CIEnsuring? && s.ci.copy < |s.store.cis| && s.ci.svc < |s.store.svcs|
    ensures
      var t := CIStep(cfg, s, CIEnsureCD(Newest(s.store.cds)));
      var r := PutCD(cfg, s.store.cds, Newest(s.store.cds), s.store.cis[s.ci.copy].spec, s.store.svcs[s.ci.svc].spec);
      r.Some? && t == s.(store := s.store.(cds := r.value), ci := CIRest)
  {
    PutCDNewest(cfg, s.store.cds, s.store.cis[s.ci.copy].spec, s.store.svcs[s.ci.svc].spec);
  }

  lemma TailOfEnsuring(cfg: Config, s: State)
    requires s.ci.CIEnsuring?
    ensures CITail(cfg, s) == CIStep(cfg, s, CIEnsureCD(Newest(s.store.cds)))
  {
  }

  lemma TailOfSuccess(cfg: Config, s: State)
    requires s.ci.CIPatching? && s.ci.write.ToSucceeded?
    requires s.ci.copy == |s.store.cis| - 1
    ensures
      var t := CIStep(cfg, s, CIPatch);
      && t.ci == CIEnsuring(s.ci.copy, s.ci.svc)
      && CITail(cfg, s) == CIStep(cfg, t, CIEnsureCD(Newest(t.store.cds)))
  {
  }

  lemma TailOfPatching(cfg: Config, s: State)
    requires s.ci.CIPatching? && !s.ci.write.ToSucceeded?
    requires s.ci.copy == |s.store.cis| - 1
    ensures CITail(cfg, s) == CIStep(cfg, s, CIPatch) && CIStep(cfg, s, CIPatch).ci.CIRest?
  {
  }

  /** The CI versions after a status write that nobody disturbed. */
  function PatchedCI(cis: seq<CIVersion>, st: CIStatus): seq<CIVersion>
    requires cis != []
  {
    if st == Last(cis).status then cis else cis + [Last(cis).(status := st)]
  }

  lemma CIPatchEffect(cfg: Config, s: State)
    requires s.ci.CIPatching? && s.store.cis != [] && s.ci.copy == |s.store.cis| - 1
    ensures
      var st := Apply(s.ci.write, Last(s.store.cis));
      CIStep(cfg, s, CIPatch).store == s.store.(cis := PatchedCI(s.store.cis, st))
  {
  }

  /** The old Pods are marked, and the create ends in some way. */
  lemma DeleteAndCreate(cfg: Config, s: State, create: CreateOutcome)
    requires s.ci.CIDeleting? && s.ci.allowed && s.ci.copy < |s.store.cis| && s.ci.svc < |s.store.svcs|
    ensures
      var pods, n := DeleteAllPods(s.store.pods), |s.store.pods|;
      var pod := BuildPod(s.store.cis[s.ci.copy].spec, s.store.svcs[s.ci.svc].spec);
      CIStep(cfg, CIStep(cfg, s, CIDeletePods), CICreatePod(create)) ==
      s.(store := s.store.(pods := if create == NotCreated then pods else pods + [pod]),
      ci := CIPatching(s.ci.copy, if create == Created then ToBuilding(n) else ToRejected, 0))
  {
    var s2 := CIStep(cfg, s, CIDeletePods);
    assert s2 == s.(store := s.store.(pods := DeleteAllPods(s.store.pods)), ci := CICreating(s.ci.copy, s.ci.svc));
  }

  /** A new build, with nobody in between. */
  lemma TailOfDeleting(cfg: Config, s: State)
    requires s.ci.CIDeleting? && s.ci.allowed && s.store.cis != [] && s.ci.copy == |s.store.cis| - 1
    requires s.ci.svc < |s.store.svcs|
    ensures
      var pod := BuildPod(Last(s.store.cis).spec, s.store.svcs[s.ci.svc].spec);
      CITail(cfg, s) ==
      s.(store := s.store.(pods := DeleteAllPods(s.store.pods) + [pod],
         cis := PatchedCI(s.store.cis, Apply(ToBuilding(|s.store.pods|), Last(s.store.cis)))),
      ci := CIRest)
  {
    var s3 := CIStep(cfg, CIStep(cfg, s, CIDeletePods), CICreatePod(Created));
    DeleteAndCreate(cfg, s, Created);
    EndOfPatching(cfg, s3);
    CIPatchEffect(cfg, s3);
  }

  lemma EndOfPatching(cfg: Config, s: State)
    requires s.ci.CIPatching? && !s.ci.write.ToSucceeded? && s.ci.copy == |s.store.cis| - 1
    ensures CIEnd(cfg, s) == CIStep(cfg, s, CIPatch) && CIStep(cfg, s, CIPatch).ci.CIRest?
  {
  }

  /** The CI asks for what the next Service pass would make it ask for. */
  ghost predicate Asked(cfg: Config, s: State, w: World) {
    && AtRest(s)
    && s.store.svcs != [] && s.store.cis != []
    && var v, c := Last(s.store.svcs), Last(s.store.cis);
    && ValidSource(cfg, v.spec)
    && TargetFor(cfg, v, w).dockerfile != ""
    && PointCI(cfg, v.spec, TargetFor(cfg, v, w), c.spec) == c.spec
  }

  /** The first decision of a CI pass, then. */
  lemma AskedDecision(cfg: Config, s: State, w: World)
    requires Asked(cfg, s, w) && Buildable(cfg, w)
    ensures
      var c, i, j := Last(s.store.cis), |s.store.cis| - 1, |s.store.svcs| - 1;
      CIStep(cfg, s, CIBegin(FreshCIView(s.store))) ==
      s.(ci := if Following(c) then
                 (match FreshPod(s.store, c)
                  case PodUnseen => CIConfirming(i, j)
                  case PodSeen(phase) => CIPatching(i, FollowWrite(phase), j))
               else if Current(c) && c.status.phase == CISucceeded then CIEnsuring(i, j)
               else if Current(c) && c.status.phase == CIFailed then CIRest
               else CIDeleting(i, j, true))
  {
    var v, c := Last(s.store.svcs), Last(s.store.cis);
    PointedIsValid(cfg, v.spec, TargetFor(cfg, v, w), c.spec);
  }

  lemma PointedDecision(cfg: Config, s: State, w: World)
    requires Pointed(cfg, s, w) && Buildable(cfg, w)
    ensures
      var c, i, j := Last(s.store.cis), |s.store.cis| - 1, |s.store.svcs| - 1;
      CIStep(cfg, s, CIBegin(FreshCIView(s.store))) ==
      s.(ci := if Following(c) then CIPatching(i, FollowWrite(s.store.pods[c.status.buildPod.value].phase), j)
               else if Current(c) && c.status.phase == CISucceeded then CIEnsuring(i, j)
               else CIDeleting(i, j, true))
  {
    AskedDecision(cfg, s, w);
  }

  /** ensureCD after the image of the head is recorded. */
  lemma EnsuringReleases(cfg: Config, s: State, w: World)
    requires s.ci.CIEnsuring? && s.ci.svc == |s.store.svcs| - 1
    requires Pointed(cfg, s.(ci := CIRest), w)
    requires s.ci.copy < |s.store.cis| && s.store.cis[s.ci.copy].spec == Last(s.store.cis).spec
    requires Current(Last(s.store.cis)) && Last(s.store.cis).status.phase == CISucceeded
    ensures
      var t := CIStep(cfg, s, CIEnsureCD(Newest(s.store.cds)));
      && Released(cfg, t, w)
      && (Released(cfg, s.(ci := CIRest), w) ==> t == s.(ci := CIRest))
  {
    CIEnsureEffect(cfg, s);
    PutCDNewest(cfg, s.store.cds, Last(s.store.cis).spec, Last(s.store.svcs).spec);
  }

  lemma BuiltRecords(cfg: Config, s: State, w: World)
    requires Built(cfg, s, w)
    ensures
      var c := Last(s.store.cis);
      var t := s.(store := s.store.(cis := PatchedCI(s.store.cis, Apply(ToSucceeded, c))));
      && Pointed(cfg, t, w)
      && Current(Last(t.store.cis)) && Last(t.store.cis).status.phase == CISucceeded
  {
  }

  lemma BuiltReleases(cfg: Config, s: State, w: World)
    requires Built(cfg, s, w) && Buildable(cfg, w)
    ensures Released(cfg, CIPass(cfg, s), w)
  {
    var s1 := CIStep(cfg, s, CIBegin(FreshCIView(s.store)));
    PointedDecision(cfg, s, w);
    TailOfSuccess(cfg, s1);
    CIPatchEffect(cfg, s1);
    BuiltRecords(cfg, s, w);
    EnsuringReleases(cfg, CIStep(cfg, s1, CIPatch), w);
  }

  lemma CIPassReleases(cfg: Config, s: State, w: World)
    requires Built(cfg, s, w) ||
             (Pointed(cfg, s, w) && Current(Last(s.store.cis)) && Last(s.store.cis).status.phase == CISucceeded)
    requires Buildable(cfg, w)
    ensures Released(cfg, CIPass(cfg, s), w)
    ensures Released(cfg, s, w) ==> CIPass(cfg, s) == s
  {
    if Built(cfg, s, w) {
      BuiltReleases(cfg, s, w);
    } else {
      var s1 := CIStep(cfg, s, CIBegin(FreshCIView(s.store)));
      PointedDecision(cfg, s, w);
      TailOfEnsuring(cfg, s1);
      EnsuringReleases(cfg, s1, w);
    }
  }

  lemma CIPassFollows(cfg: Config, s: State, w: World)
    requires BuildRuns(cfg, s, w) && Buildable(cfg, w)
    ensures BuildRuns(cfg, CIPass(cfg, s), w)
  {
    var s1 := CIStep(cfg, s, CIBegin(FreshCIView(s.store)));
    PointedDecision(cfg, s, w);
    TailOfPatching(cfg, s1);
    CIPatchEffect(cfg, s1);
  }

  /** A build that has just been started for the newest version. */
  lemma NewBuildRuns(cfg: Config, s: State, t: State, w: World, pod: Pod)
    requires Pointed(cfg, s, w) && pod.phase == PodRunning && !pod.gone
    requires !Following(Last(s.store.cis))
    requires
      var c := Last(s.store.cis);
      t == s.(store := s.store.(pods := DeleteAllPods(s.store.pods) + [pod],
              cis := s.store.cis + [c.(status := Apply(ToBuilding(|s.store.pods|), c))]))
    ensures BuildRuns(cfg, t, w)
  {
    assert t.store.pods[|s.store.pods|] == pod;
  }

  lemma CIPassStarts(cfg: Config, s: State, w: World)
    requires Pointed(cfg, s, w) && Buildable(cfg, w)
    requires !Following(Last(s.store.cis))
    requires !(Current(Last(s.store.cis)) && Last(s.store.cis).status.phase == CISucceeded)
    ensures BuildRuns(cfg, CIPass(cfg, s), w)
  {
    var s1 := CIStep(cfg, s, CIBegin(FreshCIView(s.store)));
    PointedDecision(cfg, s, w);
    TailOfDeleting(cfg, s1);
    assert CIPass(cfg, s) == CITail(cfg, s1);
    NewBuildRuns(cfg, s, CITail(cfg, s1), w, BuildPod(Last(s.store.cis).spec, Last(s.store.svcs).spec));
  }

  // ------------------------------------------------- the CD and its rollout

  /** A CD pass touches the CD status and the Deployment only. */
  lemma CDPassKeeps(cfg: Config, s: State, w: World)
    requires AtRest(s)
    ensures
      var t := CDPass(s);
      && t == s.(store := s.store.(cds := t.store.cds, deps := t.store.deps))
      && (s.store.cds == [] <==> t.store.cds == [])
      && (s.store.cds != [] ==> Last(t.store.cds).spec == Last(s.store.cds).spec)
  {
  }

  function PutNewest(deps: seq<Deployment>, want: DeploymentSpec): seq<Deployment> {
    if deps == [] then [Deployment(1, want, NEW_DEPLOYMENT_STATUS)]
    else if Last(deps).spec == want then deps
    else deps + [Deployment(Last(deps).generation + 1, want, Last(deps).status)]
  }

  /** A CD pass of a released image applies it and reports its rollout. */
  lemma CDPassEffect(cfg: Config, s: State, w: World)
    requires Released(cfg, s, w)
    ensures
      var cd, c := Last(s.store.cds), Last(s.store.cis).status;
      var deps := PutNewest(s.store.deps, WantedDeployment(cd.spec, c.image));
      var st := RolloutStatus(cd.status, c.image, c.revision, Last(deps));
      CDPass(s) == s.(store := s.store.(deps := deps,
                      cds := if st == cd.status then s.store.cds else s.store.cds + [cd.(status := st)]))
  {
    var s2 := CDStep(CDStep(s, CDBegin), CDReadCI(Newest(s.store.cis), true));
    var c := Last(s.store.cis).status;
    assert s2 == s.(cd := CDApplying(Last(s.store.cds), c.image, c.revision));
    var s3 := CDStep(s2, CDDeploy(Newest(s2.store.deps), Deployed));
    var deps := PutNewest(s.store.deps, WantedDeployment(Last(s.store.cds).spec, c.image));
    assert s3.store == s.store.(deps := deps);
    var cd := Last(s.store.cds);
    assert s3.cd == CDPatching(cd, RolloutStatus(cd.status, c.image, c.revision, Last(deps)));
  }

  // ----------------------------------------------------------- other passes

  /** Pods that have ended are not touched by the Pod pass. */
  lemma PodPassKeeps(cfg: Config, s: State, w: World)
    requires Released(cfg, s, w)
    ensures Released(cfg, PodPass(s), w) && PodPass(s) == s.(store := s.store.(pods := PodPass(s).store.pods))
  {
  }

  /** The Pod pass changes one Pod, and only one that runs. */
  lemma PodPassEffect(s: State)
    ensures
      var t := PodPass(s);
      && t == s.(store := s.store.(pods := t.store.pods))
      && |t.store.pods| == |s.store.pods|
      && forall p | 0 <= p < |s.store.pods| ::
           t.store.pods[p] == s.store.pods[p] ||
           (s.store.pods[p].phase == PodRunning && !s.store.pods[p].gone &&
            t.store.pods[p] == s.store.pods[p].(phase := PodSucceeded))
  {
  }

  /** How many more kinds of call a CI pass can make from a place. */
  function CallsLeft(p: CIPlace): nat {
    match p
    case CIDeleting(_, _, _) => 6
    case CICreating(_, _) => 5
    case CIConfirming(_, _) => 4
    case CIComparing(_) => 3
    case CIPatching(_, _, _) => 2
    case CIEnsuring(_, _) => 1
    case CIRest => 0
  }

  predicate InRange(s: State) {
    && s.store.svcs != []
    && (!s.ci.CIRest? ==> s.ci.copy < |s.store.cis|)
    && (!s.ci.CIRest? && !s.ci.CIComparing? ==> s.ci.svc < |s.store.svcs|)
  }

  /** What no call of a CI pass changes. */
  predicate KeepsAside(s: State, t: State) {
    && t.store.svcs == s.store.svcs && t.store.deps == s.store.deps && t.svc == s.svc && t.cd == s.cd
    && (t.store.cis == [] <==> s.store.cis == [])
    && (s.store.cis != [] ==> Last(t.store.cis).spec == Last(s.store.cis).spec)
  }

  lemma CICallGoesOn(cfg: Config, s: State, a: CIAction)
    requires InRange(s) && !a.CIBegin?
    ensures
      var t := CIStep(cfg, s, a);
      && InRange(t) && KeepsAside(s, t)
      && (a.CIDeletePods? ==> CallsLeft(t.ci) <= 5)
      && (a.CICreatePod? && CallsLeft(s.ci) <= 5 ==> CallsLeft(t.ci) <= 4)
      && (a.CIConfirmPod? && CallsLeft(s.ci) <= 4 ==> CallsLeft(t.ci) <= 3)
      && (a.CICompare? && CallsLeft(s.ci) <= 3 ==> CallsLeft(t.ci) <= 2)
      && (a.CIPatch? && CallsLeft(s.ci) <= 2 ==> CallsLeft(t.ci) <= 1)
  {
  }

  lemma CITailRests(cfg: Config, s1: State)
    requires InRange(s1)
    ensures CITail(cfg, s1).ci.CIRest? && KeepsAside(s1, CITail(cfg, s1))
  {
    var s2 := CIStep(cfg, s1, CIDeletePods);
    var s3 := CIStep(cfg, s2, CICreatePod(Created));
    var s4 := CIStep(cfg, s3, CIConfirmPod);
    var s5 := CIStep(cfg, s4, CICompare);
    var s6 := CIStep(cfg, s5, CIPatch);
    CICallGoesOn(cfg, s1, CIDeletePods);
    CICallGoesOn(cfg, s2, CICreatePod(Created));
    CICallGoesOn(cfg, s3, CIConfirmPod);
    CICallGoesOn(cfg, s4, CICompare);
    CICallGoesOn(cfg, s5, CIPatch);
    CICallGoesOn(cfg, s6, CIEnsureCD(Newest(s6.store.cds)));
    LastCall(cfg, s6);
    assert CITail(cfg, s1) == CIStep(cfg, s6, CIEnsureCD(Newest(s6.store.cds)));
  }

  lemma LastCall(cfg: Config, s: State)
    requires InRange(s) && CallsLeft(s.ci) <= 1
    ensures CIStep(cfg, s, CIEnsureCD(Newest(s.store.cds))).ci.CIRest?
  {
  }

  /** A CI pass leaves the Services and the CI spec alone and ends at rest. */
  lemma CIPassRests(cfg: Config, s: State)
    requires AtRest(s)
    ensures AtRest(CIPass(cfg, s)) && KeepsAside(s, CIPass(cfg, s))
  {
    if s.store.cis != [] && s.store.svcs != [] {
      CITailRests(cfg, CIStep(cfg, s, CIBegin(FreshCIView(s.store))));
    }
  }

  lemma ReachableIsSound(cfg: Config, s: State)
    requires Reachable(cfg, s)
    ensures Sound(s.store)
  {
    var trace :| Run(cfg, Initial(), trace) == s;
    RunBuildInv(cfg, trace);
    RunDeployInv(cfg, trace);
    forall k | 0 <= k < |s.store.svcs| && Discovered(s.store.svcs[k].generation, s.store.svcs[k].status)
      ensures s.store.svcs[k].status.dockerfile != ""
    {
      assert ServiceOk(s, s.store.svcs[k].generation, s.store.svcs[k].status);
    }
  }

  /** A pass is a run of the step system. */
  lemma PassLeads(cfg: Config, from: State, s: State, w: World, p: Pass)
    requires Leads(cfg, from, s)
    ensures Leads(cfg, from, Do(cfg, s, w, p))
  {
    match p
    case OfService => ServicePassLeads(cfg, from, s, w);
    case OfCI => CIPassLeads(cfg, from, s);
    case OfPod =>
      if s.store.cis != [] && Last(s.store.cis).status.buildPod.Some? {
        StepLeads(cfg, from, s, ByEnv(PodEnds(Last(s.store.cis).status.buildPod.value, true)));
      }
    case OfCD => CDPassLeads(cfg, from, s);
    case OfRollout =>
      if s.store.deps != [] {
        var d := Last(s.store.deps);
        var report := DeploymentStatus(d.generation, d.spec.replicas, d.spec.replicas, []);
        StepLeads(cfg, from, s, ByEnv(DeploymentReports(report)));
      }
  }

  lemma ServicePassLeads(cfg: Config, from: State, s: State, w: World)
    requires Leads(cfg, from, s)
    ensures Leads(cfg, from, ServicePass(cfg, s, w))
  {
    if s.store.svcs != [] {
      var a1 := SvcBegin(ServiceView(s.store, w));
      var s1 := SvcStep(cfg, s, a1);
      StepLeads(cfg, from, s, BySvc(a1));
      var a2 := SvcEnsureCI(Newest(s1.store.cis), false);
      var s2 := SvcStep(cfg, s1, a2);
      StepLeads(cfg, from, s1, BySvc(a2));
      ServiceTailLeads(cfg, from, s2);
    }
  }

  lemma ServiceTailLeads(cfg: Config, from: State, s2: State)
    requires Leads(cfg, from, s2)
    ensures Leads(cfg, from, ServiceTail(cfg, s2))
  {
    var a3 := SvcSyncCD(Newest(s2.store.cds));
    var s3 := SvcStep(cfg, s2, a3);
    StepLeads(cfg, from, s2, BySvc(a3));
    var a4 := SvcDerive(Newest(s3.store.cis), Newest(s3.store.cds));
    StepLeads(cfg, from, s3, BySvc(a4));
    StepLeads(cfg, from, SvcStep(cfg, s3, a4), BySvc(SvcPatch));
  }

  lemma CIPassLeads(cfg: Config, from: State, s: State)
    requires Leads(cfg, from, s)
    ensures Leads(cfg, from, CIPass(cfg, s))
  {
    if s.store.cis != [] && s.store.svcs != [] {
      var begin := CIBegin(FreshCIView(s.store));
      StepLeads(cfg, from, s, ByCI(begin));
      CITailLeads(cfg, from, CIStep(cfg, s, begin));
    }
  }

  lemma CITailLeads(cfg: Config, from: State, s1: State)
    requires Leads(cfg, from, s1)
    ensures Leads(cfg, from, CITail(cfg, s1))
  {
    var s2 := CIStep(cfg, s1, CIDeletePods);
    StepLeads(cfg, from, s1, ByCI(CIDeletePods));
    var s3 := CIStep(cfg, s2, CICreatePod(Created));
    StepLeads(cfg, from, s2, ByCI(CICreatePod(Created)));
    var s4 := CIStep(cfg, s3, CIConfirmPod);
    StepLeads(cfg, from, s3, ByCI(CIConfirmPod));
    var s5 := CIStep(cfg, s4, CICompare);
    StepLeads(cfg, from, s4, ByCI(CICompare));
    var s6 := CIStep(cfg, s5, CIPatch);
    StepLeads(cfg, from, s5, ByCI(CIPatch));
    StepLeads(cfg, from, s6, ByCI(CIEnsureCD(Newest(s6.store.cds))));
  }

  lemma CDPassLeads(cfg: Config, from: State, s: State)
    requires Leads(cfg, from, s)
    ensures Leads(cfg, from, CDPass(s))
  {
    var s1 := CDStep(s, CDBegin);
    StepLeads(cfg, from, s, ByCD(CDBegin));
    var a2 := CDReadCI(Newest(s1.store.cis), true);
    var s2 := CDStep(s1, a2);
    StepLeads(cfg, from, s1, ByCD(a2));
    var a3 := CDDeploy(Newest(s2.store.deps), Deployed);
    StepLeads(cfg, from, s2, ByCD(a3));
    StepLeads(cfg, from, CDStep(s2, a3), ByCD(CDPatch));
  }

  lemma PassIsReachable(cfg: Config, s: State, w: World, p: Pass)
    requires Reachable(cfg, s)
    ensures Reachable(cfg, Do(cfg, s, w, p))
  {
    PassLeads(cfg, Initial(), s, w, p);
  }

  lemma {:induction false} OrderLeads(cfg: Config, s: State, w: World, order: seq<Pass>)
    ensures Leads(cfg, s, DoAll(cfg, s, w, order))
  {
    if order == [] {
      LeadsNowhere(cfg, s);
    } else {
      OrderLeads(cfg, s, w, order[..|order| - 1]);
      PassLeads(cfg, s, DoAll(cfg, s, w, order[..|order| - 1]), w, Last(order));
    }
  }
}
