/** Where the guarantees end: what the code does outside the hypotheses of the
    theorems, each for every state the situation can arise in. */
module Limits {
  import opened Common
  import opened Objects
  import opened System
  import opened Histories
  import opened BuildSafety
  import opened FreshPasses
  import opened Convergence

  /** Two passes of the CI reconciler: one whose Service lookup fails, then an
      ordinary one whose Pod create ends in some way. */
  function LookupFailsThenRetry(cfg: Config, s: State, svc: nat, create: CreateOutcome): State
    requires s.store.cis != []
  {
    var lost := CIView(|s.store.cis| - 1, None, PodUnseen, Prepared, true);
    OrdinaryBuild(cfg, CIStep(cfg, CIStep(cfg, s, CIBegin(lost)), CIPatch), svc, create)
  }

  function OrdinaryBuild(cfg: Config, s: State, svc: nat, create: CreateOutcome): State
    requires s.store.cis != []
  {
    var s2 := CIStep(cfg, s, CIBegin(CIView(|s.store.cis| - 1, Some(svc), PodUnseen, Prepared, true)));
    CIStep(cfg, CIStep(cfg, CIStep(cfg, s2, CIDeletePods), CICreatePod(create)), CIPatch)
  }

  /** A CI whose build of its generation is settled. */
  ghost predicate SettledAtRest(cfg: Config, s: State, svc: nat) {
    && s.ci.CIRest?
    && s.store.cis != [] && svc < |s.store.svcs|
    && Settled(Last(s.store.cis))
    && StatusOk(s.store, Last(s.store.cis).generation, Last(s.store.cis).status)
    && ValidBuild(cfg, Last(s.store.cis).spec, s.store.svcs[svc].spec)
  }

  lemma LookupFailureForgets(cfg: Config, s: State, svc: nat)
    requires SettledAtRest(cfg, s, svc)
    ensures
      var lost := CIView(|s.store.cis| - 1, None, PodUnseen, Prepared, true);
      var c := Last(s.store.cis);
      CIStep(cfg, CIStep(cfg, s, CIBegin(lost)), CIPatch) ==
      s.(store := s.store.(cis := s.store.cis + [c.(status := Apply(ToWaiting, c))]))
  {
  }

  lemma OrdinaryDecision(cfg: Config, s: State, svc: nat)
    requires s.ci.CIRest? && s.store.cis != [] && svc < |s.store.svcs|
    requires
      var c := Last(s.store.cis);
      && Current(c) && c.status.phase == CIWaiting
      && c.spec.dockerfile != "" && ValidBuild(cfg, c.spec, s.store.svcs[svc].spec)
    ensures
      var i := |s.store.cis| - 1;
      CIStep(cfg, s, CIBegin(CIView(i, Some(svc), PodUnseen, Prepared, true))) == s.(ci := CIDeleting(i, svc, true))
  {
  }

  /** The ordinary pass over a CI whose phase was set back to Idle. */
  lemma OrdinaryPass(cfg: Config, s: State, svc: nat, create: CreateOutcome)
    requires s.ci.CIRest? && s.store.cis != [] && svc < |s.store.svcs|
    requires
      var c := Last(s.store.cis);
      && Current(c) && c.status.phase == CIWaiting
      && c.spec.dockerfile != "" && ValidBuild(cfg, c.spec, s.store.svcs[svc].spec)
    ensures
      var c, n := Last(s.store.cis), |s.store.pods|;
      var t := OrdinaryBuild(cfg, s, svc, create);
      && t.ci.CIRest? && t.store.svcs == s.store.svcs
      && t.store.cis == s.store.cis + [c.(status := Apply(if create == Created then ToBuilding(n) else ToRejected, c))]
  {
    var s2 := CIStep(cfg, s, CIBegin(CIView(|s.store.cis| - 1, Some(svc), PodUnseen, Prepared, true)));
    OrdinaryDecision(cfg, s, svc);
    DeleteAndCreate(cfg, s2, create);
    CIPatchEffect(cfg, CIStep(cfg, CIStep(cfg, s2, CIDeletePods), CICreatePod(create)));
  }

  /** What the two passes leave. */
  lemma SecondBuild(cfg: Config, s: State, svc: nat, create: CreateOutcome)
    requires SettledAtRest(cfg, s, svc)
    ensures
      var t := LookupFailsThenRetry(cfg, s, svc, create);
      var c := Last(s.store.cis);
      var waiting := c.(status := Apply(ToWaiting, c));
      var write := if create == Created then ToBuilding(|s.store.pods|) else ToRejected;
      && t.ci.CIRest? && t.store.svcs == s.store.svcs
      && t.store.cis == s.store.cis + [waiting] + [waiting.(status := Apply(write, waiting))]
  {
    LookupFailureForgets(cfg, s, svc);
    var c := Last(s.store.cis);
    var waiting := c.(status := Apply(ToWaiting, c));
    OrdinaryPass(cfg, s.(store := s.store.(cis := s.store.cis + [waiting])), svc, create);
  }

  /** OneBuildPerGeneration needs its hypothesis: one failed lookup makes any
      settled CI build the very same generation again, in a second Pod. */
  lemma FailedLookupRebuilds(cfg: Config, s: State, svc: nat)
    requires SettledAtRest(cfg, s, svc)
    ensures
      var before, cis := s.store.cis, LookupFailsThenRetry(cfg, s, svc, Created).store.cis;
      && before < cis
      && Starts(cis, |cis| - 1)
      && Last(cis).generation == Last(before).generation
      && Last(cis).status.buildPod == Some(|s.store.pods|)
      && Last(before).status.buildPod != Some(|s.store.pods|)
  {
    SecondBuild(cfg, s, svc, Created);
  }

  lemma RejectedRebuild(cfg: Config, s: State, svc: nat, create: CreateOutcome, t: State)
    requires SettledAtRest(cfg, s, svc) && create != Created && t == LookupFailsThenRetry(cfg, s, svc, create)
    ensures
      var c := Last(s.store.cis);
      && t.ci.CIRest? && t.store.svcs == s.store.svcs && t.store.cis != []
      && Last(t.store.cis) == c.(status := Apply(ToRejected, c))
      && Current(Last(t.store.cis))
  {
    SecondBuild(cfg, s, svc, create);
  }

  lemma TwoSteps(cfg: Config, s: State, a: CIAction, b: CIAction)
    requires BuildInv(s)
    ensures BuildInv(CIStep(cfg, CIStep(cfg, s, a), b))
  {
    var t := Step(cfg, s, ByCI(a));
    StepBuildInv(cfg, s, ByCI(a));
    StepBuildInv(cfg, t, ByCI(b));
    assert t == CIStep(cfg, s, a) && Step(cfg, t, ByCI(b)) == CIStep(cfg, t, b);
  }

  lemma RetryKeepsInv(cfg: Config, s: State, svc: nat, create: CreateOutcome)
    requires BuildInv(s) && s.store.cis != []
    ensures BuildInv(LookupFailsThenRetry(cfg, s, svc, create))
  {
    var lost := CIBegin(CIView(|s.store.cis| - 1, None, PodUnseen, Prepared, true));
    var s1 := CIStep(cfg, CIStep(cfg, s, lost), CIPatch);
    var again := CIBegin(CIView(|s1.store.cis| - 1, Some(svc), PodUnseen, Prepared, true));
    TwoSteps(cfg, s, lost, CIPatch);
    TwoSteps(cfg, s1, again, CIDeletePods);
    TwoSteps(cfg, CIStep(cfg, CIStep(cfg, s1, again), CIDeletePods), CICreatePod(create), CIPatch);
  }

  /** And if the create of that second Pod ends with an error, the CI is Failed
      for its current generation: in every later run in which the Service
      lookup succeeds, no build of that generation starts again. */
  lemma RejectedRebuildIsFinal(cfg: Config, s: State, svc: nat, create: CreateOutcome, t: State, trace: seq<Action>)
    requires BuildInv(s) && SettledAtRest(cfg, s, svc)
    requires create != Created && t == LookupFailsThenRetry(cfg, s, svc, create)
    requires forall a | a in trace :: LookupSucceeds(a)
    ensures
      && t.store.cis != []
      && Last(t.store.cis).status.phase == CIFailed && Last(t.store.cis).status.reason == PodCreateFailed
      && NoStartAfter(Run(cfg, t, trace).store.cis, |t.store.cis|, Last(t.store.cis).generation)
  {
    RejectedRebuild(cfg, s, svc, create, t);
    RetryKeepsInv(cfg, s, svc, create);
    SettledIsFinal(cfg, t, trace);
  }

  /** Only until the next lookup that fails: the CI is settled again as it was
      before, so that FailedLookupRebuilds says the same of it. */
  lemma RejectedRebuildSettles(cfg: Config, s: State, svc: nat, create: CreateOutcome, t: State)
    requires BuildInv(s) && SettledAtRest(cfg, s, svc)
    requires create != Created && t == LookupFailsThenRetry(cfg, s, svc, create)
    ensures SettledAtRest(cfg, t, svc)
  {
    RejectedRebuild(cfg, s, svc, create, t);
    RetryKeepsInv(cfg, s, svc, create);
    assert StatusOk(t.store, Last(t.store.cis).generation, Last(t.store.cis).status);
  }

  /** A pass that is about to create the Pod for the current version. */
  predicate AboutToCreate(s: State) {
    && s.store.cis != [] && s.ci.CICreating? && s.ci.copy == |s.store.cis| - 1
    && s.ci.svc < |s.store.svcs|
  }

  /** What a pass leaves whose create ends with an error. */
  lemma RejectionLeaves(cfg: Config, s: State, create: CreateOutcome)
    requires AboutToCreate(s) && create != Created
    ensures
      var c := Last(s.store.cis);
      var t := CIStep(cfg, CIStep(cfg, s, CICreatePod(create)), CIPatch);
      && t.ci.CIRest? && t.store.svcs == s.store.svcs && t.store.cis != []
      && Last(t.store.cis) == c.(status := c.status.(phase := CIFailed, reason := PodCreateFailed))
  {
    var t1 := CIStep(cfg, s, CICreatePod(create));
    assert t1.ci == CIPatching(|s.store.cis| - 1, ToRejected, 0);
  }

  /** A rejected build is tried again by the next pass if and only if the CI
      had not yet observed this revision and generation when it was rejected:
      so the first time, but not after a lookup that failed. */
  lemma RejectionIsRetriedIff(cfg: Config, s: State, create: CreateOutcome, t: State, view: CIView)
    requires AboutToCreate(s) && create != Created
    requires t == CIStep(cfg, CIStep(cfg, s, CICreatePod(create)), CIPatch)
    requires CIViewPossible(t.store, view) && view.copy == |t.store.cis| - 1 && view.svc.Some? && view.prep == Prepared
    requires
      var c := Last(s.store.cis);
      c.spec.dockerfile != "" && ValidBuild(cfg, c.spec, t.store.svcs[view.svc.value].spec)
    ensures DecideCI(cfg, t.store, view).CIDeleting? <==> !Current(Last(s.store.cis))
  {
    RejectionLeaves(cfg, s, create);
  }

  // ------------------------------------------- a Pod that nobody heard of

  /** Pod p is in the store, and neither a version of the CI nor the running
      pass names it. */
  predicate Orphan(s: State, p: nat) {
    && p < |s.store.pods|
    && Unnamed(s.store, p)
    && (s.ci.CIPatching? ==> s.ci.write != ToBuilding(p))
  }

  lemma StepKeepsOrphan(cfg: Config, s: State, a: Action, p: nat)
    requires Orphan(s, p)
    ensures Orphan(Step(cfg, s, a), p)
  {
    StepExtends(cfg, s, a);
    StepGrowsCI(cfg, s, a);
    var cis, t := s.store.cis, Step(cfg, s, a);
    assert t.ci.CIPatching? ==> t.ci.write != ToBuilding(p);
    if t.store.cis != cis {
      var v := Last(t.store.cis);
      assert t.store.cis == cis + [v];
      assert cis != [] ==> Last(cis).status.buildPod != Some(p);
    }
  }

  lemma {:induction false} OrphanForGood(cfg: Config, s: State, trace: seq<Action>, p: nat)
    requires Orphan(s, p)
    ensures Orphan(Run(cfg, s, trace), p)
  {
    if trace != [] {
      OrphanForGood(cfg, s, trace[..|trace| - 1], p);
      StepKeepsOrphan(cfg, Run(cfg, s, trace[..|trace| - 1]), Last(trace), p);
    }
  }

  /** A create whose answer is an error although the Pod was made leaves a Pod
      that no version of the CI ever names, in any later run: whatever it
      builds is never recorded. It is the one live Pod meanwhile. */
  lemma UnheardPodIsAnOrphan(cfg: Config, s: State, trace: seq<Action>)
    requires BuildInv(s) && AboutToCreate(s)
    ensures
      var p, t := |s.store.pods|, CIStep(cfg, s, CICreatePod(Unheard));
      && p < |t.store.pods| && !t.store.pods[p].deleting
      && (forall q | 0 <= q < |t.store.pods| :: q == p || t.store.pods[q].deleting)
      && Orphan(Run(cfg, t, trace), p)
  {
    var p, t := |s.store.pods|, CIStep(cfg, s, CICreatePod(Unheard));
    forall n | 0 <= n < |s.store.cis|
      ensures s.store.cis[n].status.buildPod != Some(p)
    {
      assert StatusOk(s.store, s.store.cis[n].generation, s.store.cis[n].status);
    }
    OrphanForGood(cfg, t, trace, p);
  }

  /** It goes on until the next build starts or someone removes it. */
  predicate LeavesPod(a: Action, p: nat) {
    a != ByCI(CIDeletePods) && a != ByEnv(PodRemoved(p))
  }

  lemma {:induction false} OrphanLivesOn(cfg: Config, s: State, trace: seq<Action>, p: nat)
    requires p < |s.store.pods| && !s.store.pods[p].deleting
    requires forall a | a in trace :: LeavesPod(a, p)
    ensures
      var pods := Run(cfg, s, trace).store.pods;
      p < |pods| && !pods[p].deleting && pods[p].spec == s.store.pods[p].spec
  {
    if trace != [] {
      OrphanLivesOn(cfg, s, trace[..|trace| - 1], p);
      var before := Run(cfg, s, trace[..|trace| - 1]);
      assert LeavesPod(Last(trace), p);
      StepExtends(cfg, before, Last(trace));
      LeftAlone(cfg, before, Last(trace), p);
    }
  }

  lemma LeftAlone(cfg: Config, s: State, a: Action, p: nat)
    requires p < |s.store.pods| && !s.store.pods[p].deleting && LeavesPod(a, p)
    ensures var pods := Step(cfg, s, a).store.pods; p < |pods| && !pods[p].deleting
  {
  }

  /** The CI names the one build Pod that is not being deleted. */
  predicate NamesTheLivePod(st: Store) {
    st.cis != [] &&
    var p := Last(st.cis).status.buildPod;
    p.Some? && p.value < |st.pods| && !st.pods[p.value].deleting
  }

  /** A new build leaves the CI naming the live Pod if and only if its pass has
      the current copy: from an older one it replaces the live Pod before its
      status write conflicts, and the CI goes on naming one that is deleted. */
  lemma StalePassReplacesThePod(cfg: Config, s: State)
    requires BuildInv(s) && s.ci.CIDeleting? && s.ci.allowed && s.ci.svc < |s.store.svcs|
    ensures
      var t := CIStep(cfg, CIStep(cfg, CIStep(cfg, s, CIDeletePods), CICreatePod(Created)), CIPatch);
      && t.ci.CIRest?
      && |t.store.pods| == |s.store.pods| + 1 && !Last(t.store.pods).deleting
      && (NamesTheLivePod(t.store) <==> s.ci.copy == |s.store.cis| - 1)
  {
    var copy := s.ci.copy;
    var s2 := CIStep(cfg, CIStep(cfg, s, CIDeletePods), CICreatePod(Created));
    assert s2.ci == CIPatching(copy, ToBuilding(|s.store.pods|), 0);
    assert StatusOk(s.store, Last(s.store.cis).generation, Last(s.store.cis).status);
  }

  // ------------------------------------------------------ reports of failure

  lemma ReportedStatus(st: ServiceStatus, ci: CIVersion, cd: Option<CDVersion>, svcs: seq<ServiceVersion>)
    requires svcs != [] && ci.spec.revision == st.latestRevision
    ensures
      var v := Last(Patched(svcs, PipelinePhase(st, Some(ci), cd)));
      && v.status.latestRevision == st.latestRevision
      && (v.status.phase == SvcFailed && v.status.reason == ReasonCIFailed <==> ci.status.phase == CIFailed)
  {
  }

  lemma PassReports(cfg: Config, st: Store, w: World)
    requires st.svcs != [] && st.cis != [] && Buildable(cfg, w)
    requires Last(st.cis).status.observed <= Last(st.cis).generation
    ensures
      var v, c := Last(st.svcs), Last(st.cis);
      var t := AfterService(cfg, st, w);
      && t.svcs != [] && t.cis != []
      && Last(t.svcs).status.latestRevision == w.head
      && Last(t.cis).status == c.status
      && (Last(t.svcs).status.phase == SvcFailed && Last(t.svcs).status.reason == ReasonCIFailed <==>
            c.status.phase == CIFailed)
      && (Current(Last(t.cis)) <==>
            Current(c) && PointCI(cfg, v.spec, TargetFor(cfg, v, w), c.spec) == c.spec)
  {
    var v := Last(st.svcs);
    var target := TargetFor(cfg, v, w);
    PutCINewest(cfg, st.cis, v.spec, target);
    var cis, cds := EnsuredCIs(cfg, st, w), Synced(st.cds, v.spec);
    var ref := if st.cds == [] then "" else cfg.service + "-cd";
    var ensured := EnsuredStatus(cfg, v, w).(cdRef := ref);
    CurrentAfterPointing(cfg, st.cis, v.spec, target, Last(cis));
    assert Last(cis).spec.revision == target.sha == w.head == ensured.latestRevision;
    ReportedStatus(ensured, Last(cis), LastOf(cds), st.svcs);
  }

  /** A version is current after pointing if it was and kept its spec. */
  lemma CurrentAfterPointing(cfg: Config, cis: seq<CIVersion>, svc: ServiceSpec, target: Target, c: CIVersion)
    requires cis != [] && c == NextCI(Last(cis), c.spec, c.language)
    requires PutCI(cfg, cis, Newest(cis), svc, target).Some? && PutCI(cfg, cis, Newest(cis), svc, target).value != []
    requires c == Last(PutCI(cfg, cis, Newest(cis), svc, target).value)
    requires Last(cis).status.observed <= Last(cis).generation
    ensures Current(c) <==> Current(Last(cis)) && PointCI(cfg, svc, target, Last(cis).spec) == Last(cis).spec
  {
  }

  /** A Service pass reports CIFailed at the head of the branch exactly if the
      CI is Failed, before any Pod or build: and the failure it reports is one
      that the CI observed for just the spec it now has if and only if it was
      before and the pass left that spec alone. So a failed build of an older
      revision is reported as a failure of the head. */
  lemma FailureIsOfAnyRevision(cfg: Config, s: State, w: World)
    requires AtRest(s) && s.store.svcs != [] && s.store.cis != []
    requires ValidSource(cfg, Last(s.store.svcs).spec) && Buildable(cfg, w)
    requires Last(s.store.cis).status.observed <= Last(s.store.cis).generation // as in every run
    ensures
      var v, c := Last(s.store.svcs), Last(s.store.cis);
      var t := ServicePass(cfg, s, w);
      && t.store.svcs != [] && t.store.cis != [] && t.store.pods == s.store.pods
      && Last(t.store.svcs).status.latestRevision == w.head
      && Last(t.store.cis).status == c.status
      && (ReportsFailure(t) <==> c.status.phase == CIFailed)
      && (Current(Last(t.store.cis)) <==>
            Current(c) && PointCI(cfg, v.spec, TargetFor(cfg, v, w), c.spec) == c.spec)
  {
    ServicePassEffect(cfg, s, w);
    PassReports(cfg, s.store, w);
  }

  /** A failure of an older revision, then: the head has not been built. */
  lemma OldFailureAtTheHead(cfg: Config, s: State, w: World)
    requires AtRest(s) && s.store.svcs != [] && s.store.cis != []
    requires ValidSource(cfg, Last(s.store.svcs).spec) && Buildable(cfg, w)
    requires Last(s.store.cis).status.observed <= Last(s.store.cis).generation
    requires Last(s.store.cis).status.phase == CIFailed && Last(s.store.cis).status.buildingRevision != w.head
    ensures
      var t := ServicePass(cfg, s, w);
      && ReportsFailure(t) && Last(t.store.svcs).status.latestRevision == w.head
      && t.store.cis != [] && Last(t.store.cis).status.buildingRevision != w.head
      && t.store.pods == s.store.pods
  {
    FailureIsOfAnyRevision(cfg, s, w);
  }

  // --------------------------------------------- the CD's patch without a lock

  /** The status patch of a CD writes what the pass computed exactly when no
      field that it left as it read it has changed since: the reason why the
      pass must read its own object fresh. */
  lemma UnlockedPatchIsExact(current: CDStatus, copy: CDStatus, wanted: CDStatus)
    ensures
      MergeCDStatus(current, copy, wanted) == wanted <==>
      && (wanted.phase == copy.phase ==> current.phase == copy.phase)
      && (wanted.revision == copy.revision ==> current.revision == copy.revision)
      && (wanted.image == copy.image ==> current.image == copy.image)
  {
  }

  /** A CD pass that began with this version of the CD. */
  function CDPassFrom(s: State, copy: CDVersion, ci: nat, dep: nat): State {
    var s1 := CDStep(s.(cd := CDReading(copy)), CDReadCI(Some(ci), true));
    CDStep(CDStep(s1, CDDeploy(Some(dep), Deployed)), CDPatch)
  }

  /** Such a pass, over a version that the CD had, finds its image rolled out in
      some version of the Deployment. */
  predicate FindsItRolledOut(s: State, copy: CDVersion, ci: nat, dep: nat) {
    && copy in s.store.cds && ci < |s.store.cis| && dep < |s.store.deps|
    && s.store.cis[ci].status.image != ""
    && s.store.deps[dep].spec == WantedDeployment(copy.spec, s.store.cis[ci].status.image)
    && RolledOut(s.store.deps[dep])
  }

  /** The revision that is found was on the copy already, so that it is not
      sent, and has changed since. */
  predicate Outdated(now: CDStatus, copy: CDStatus, found: string) {
    && copy.revision == found && now.revision != found
    && (copy.phase == CDRunning ==> now.phase == CDRunning)
  }

  /** Such a pass leaves the CD Running at a revision other than the one whose
      image it found rolled out, if and only if the latter is outdated. */
  lemma StalePatchClaimsTooMuch(s: State, copy: CDVersion, ci: nat, dep: nat)
    requires FindsItRolledOut(s, copy, ci, dep)
    ensures
      var now, found := Last(s.store.cds).status, s.store.cis[ci].status.revision;
      var cds := CDPassFrom(s, copy, ci, dep).store.cds;
      && cds != []
      && (Last(cds).status.phase == CDRunning && Last(cds).status.revision != found <==>
            Outdated(now, copy.status, found))
  {
    var c := s.store.cis[ci].status;
    var s1 := CDStep(s.(cd := CDReading(copy)), CDReadCI(Some(ci), true));
    assert s1.cd == CDApplying(copy, c.image, c.revision);
    var s2 := CDStep(s1, CDDeploy(Some(dep), Deployed));
    assert s2.cd == CDPatching(copy, RolloutStatus(copy.status, c.image, c.revision, s.store.deps[dep]));
  }

  // -------------------------------------------------- these states are reached

  /** A Service, a CI for it, and its first build. */
  function FirstBuild(cfg: Config, svc: ServiceSpec, spec: CISpec, language: string): State {
    var s2 := Step(cfg, Step(cfg, Initial(), ByEnv(EditService(svc))), ByEnv(EditCI(spec, language)));
    var s3 := Step(cfg, s2, ByCI(CIBegin(CIView(0, Some(0), PodUnseen, Prepared, true))));
    Step(cfg, Step(cfg, Step(cfg, s3, ByCI(CIDeletePods)), ByCI(CICreatePod(Created))), ByCI(CIPatch))
  }

  ghost predicate CanBuild(cfg: Config, svc: ServiceSpec, spec: CISpec) {
    ValidBuild(cfg, spec, svc) && spec.dockerfile != ""
  }

  lemma FirstBuildIs(cfg: Config, svc: ServiceSpec, spec: CISpec, language: string)
    requires CanBuild(cfg, svc, spec)
    ensures
      var c := CIVersion(1, spec, language, NEW_CI_STATUS);
      FirstBuild(cfg, svc, spec, language) ==
      State(Store([ServiceVersion(1, svc, NEW_SERVICE_STATUS)], [c, c.(status := Apply(ToBuilding(0), c))],
                  [], [], [BuildPod(spec, svc)]), CIRest, SvcRest, CDRest, {})
  {
    var c := CIVersion(1, spec, language, NEW_CI_STATUS);
    var s2 := Step(cfg, Step(cfg, Initial(), ByEnv(EditService(svc))), ByEnv(EditCI(spec, language)));
    var v := ServiceVersion(1, svc, NEW_SERVICE_STATUS);
    assert s2 == State(Store([v], [c], [], [], []), CIRest, SvcRest, CDRest, {});
    var s3 := Step(cfg, s2, ByCI(CIBegin(CIView(0, Some(0), PodUnseen, Prepared, true))));
    assert s3 == s2.(ci := CIDeleting(0, 0, true));
    var s4 := Step(cfg, s3, ByCI(CIDeletePods));
    assert s4.store.pods == [] && s4.ci == CICreating(0, 0);
    var s5 := Step(cfg, s4, ByCI(CICreatePod(Created)));
    assert s5.store.pods == [BuildPod(spec, svc)] && s5.ci == CIPatching(0, ToBuilding(0), 0);
  }

  lemma FirstBuildIsReachable(cfg: Config, svc: ServiceSpec, spec: CISpec, language: string)
    ensures Reachable(cfg, FirstBuild(cfg, svc, spec, language))
  {
    LeadsNowhere(cfg, Initial());
    var s1 := Step(cfg, Initial(), ByEnv(EditService(svc)));
    StepIsReachable(cfg, Initial(), ByEnv(EditService(svc)));
    var s2 := Step(cfg, s1, ByEnv(EditCI(spec, language)));
    StepIsReachable(cfg, s1, ByEnv(EditCI(spec, language)));
    var view := CIView(0, Some(0), PodUnseen, Prepared, true);
    var s3 := Step(cfg, s2, ByCI(CIBegin(view)));
    StepIsReachable(cfg, s2, ByCI(CIBegin(view)));
    var s4 := Step(cfg, s3, ByCI(CIDeletePods));
    StepIsReachable(cfg, s3, ByCI(CIDeletePods));
    var s5 := Step(cfg, s4, ByCI(CICreatePod(Created)));
    StepIsReachable(cfg, s4, ByCI(CICreatePod(Created)));
    StepIsReachable(cfg, s5, ByCI(CIPatch));
  }

  lemma ReachableIsSafe(cfg: Config, s: State)
    requires Reachable(cfg, s)
    ensures BuildInv(s)
  {
    var trace :| Run(cfg, Initial(), trace) == s;
    RunBuildInv(cfg, trace);
  }

  /** A settled CI, with its build running. */
  lemma SettledIsReached(cfg: Config, svc: ServiceSpec, spec: CISpec, language: string)
    requires CanBuild(cfg, svc, spec)
    ensures
      var s := FirstBuild(cfg, svc, spec, language);
      Reachable(cfg, s) && BuildInv(s) && SettledAtRest(cfg, s, 0) && Following(Last(s.store.cis))
  {
    var s := FirstBuild(cfg, svc, spec, language);
    FirstBuildIs(cfg, svc, spec, language);
    FirstBuildIsReachable(cfg, svc, spec, language);
    ReachableIsSafe(cfg, s);
    assert StatusOk(s.store, Last(s.store.cis).generation, Last(s.store.cis).status);
  }

  /** A stale pass that is about to replace the Pod of that build. */
  lemma StaleDeletingIsReached(cfg: Config, svc: ServiceSpec, spec: CISpec, language: string)
    requires CanBuild(cfg, svc, spec)
    ensures
      var s := Step(cfg, FirstBuild(cfg, svc, spec, language),
                    ByCI(CIBegin(CIView(0, Some(0), PodUnseen, Prepared, true))));
      && Reachable(cfg, s) && BuildInv(s)
      && s.ci == CIDeleting(0, 0, true) && |s.store.cis| == 2 && NamesTheLivePod(s.store)
  {
    var before := FirstBuild(cfg, svc, spec, language);
    var a := ByCI(CIBegin(CIView(0, Some(0), PodUnseen, Prepared, true)));
    FirstBuildIs(cfg, svc, spec, language);
    FirstBuildIsReachable(cfg, svc, spec, language);
    StepIsReachable(cfg, before, a);
    ReachableIsSafe(cfg, Step(cfg, before, a));
  }

  /** That build fails, and the CI says so. */
  function FirstFailure(cfg: Config, svc: ServiceSpec, spec: CISpec, language: string): State {
    BuildFails(cfg, FirstBuild(cfg, svc, spec, language))
  }

  function BuildFails(cfg: Config, s: State): State {
    var s1 := Step(cfg, s, ByEnv(PodEnds(0, false)));
    Step(cfg, Step(cfg, s1, ByCI(CIBegin(CIView(1, Some(0), PodSeen(PodFailed), Prepared, true)))), ByCI(CIPatch))
  }

  /** The build that is followed fails, and a pass records it. */
  lemma FailureIsRecorded(cfg: Config, s: State)
    requires AtRest(s) && s.store.svcs != [] && |s.store.cis| == 2 && |s.store.pods| == 1
    requires s.store.pods[0].phase == PodRunning && !s.store.pods[0].gone
    requires
      var c := s.store.cis[1];
      Following(c) && c.status.buildPod == Some(0) && CanBuild(cfg, s.store.svcs[0].spec, c.spec)
    ensures
      var t := BuildFails(cfg, s);
      && AtRest(t) && t.store.svcs == s.store.svcs
      && t.store.cis == s.store.cis + [s.store.cis[1].(status := Apply(ToBuildFailed, s.store.cis[1]))]
  {
    var s1 := Step(cfg, s, ByEnv(PodEnds(0, false)));
    var s2 := Step(cfg, s1, ByCI(CIBegin(CIView(1, Some(0), PodSeen(PodFailed), Prepared, true))));
    assert s2 == s1.(ci := CIPatching(1, ToBuildFailed, 0));
    CIPatchEffect(cfg, s2);
  }

  lemma FirstFailureIs(cfg: Config, svc: ServiceSpec, spec: CISpec, language: string)
    requires CanBuild(cfg, svc, spec)
    ensures
      var t := FirstFailure(cfg, svc, spec, language);
      && AtRest(t) && t.store.svcs == [ServiceVersion(1, svc, NEW_SERVICE_STATUS)] && t.store.cis != []
      && var c := Last(t.store.cis);
         && c.status.phase == CIFailed && c.status.buildingRevision == spec.revision
         && c.status.observed <= c.generation
  {
    FirstBuildIs(cfg, svc, spec, language);
    FirstBuildFails(cfg, FirstBuild(cfg, svc, spec, language), svc, CIVersion(1, spec, language, NEW_CI_STATUS));
  }

  lemma FirstBuildFails(cfg: Config, s: State, svc: ServiceSpec, c: CIVersion)
    requires c.generation == 1 && CanBuild(cfg, svc, c.spec)
    requires
      s == State(Store([ServiceVersion(1, svc, NEW_SERVICE_STATUS)], [c, c.(status := Apply(ToBuilding(0), c))],
                       [], [], [BuildPod(c.spec, svc)]), CIRest, SvcRest, CDRest, {})
    ensures
      var t := BuildFails(cfg, s);
      && AtRest(t) && t.store.svcs == [ServiceVersion(1, svc, NEW_SERVICE_STATUS)] && t.store.cis != []
      && var failed := Last(t.store.cis);
         && failed.status.phase == CIFailed && failed.status.buildingRevision == c.spec.revision
         && failed.status.observed <= failed.generation
  {
    FailureIsRecorded(cfg, s);
  }

  lemma FirstFailureIsReachable(cfg: Config, svc: ServiceSpec, spec: CISpec, language: string)
    ensures Reachable(cfg, FirstFailure(cfg, svc, spec, language))
  {
    var s0 := FirstBuild(cfg, svc, spec, language);
    FirstBuildIsReachable(cfg, svc, spec, language);
    var s1 := Step(cfg, s0, ByEnv(PodEnds(0, false)));
    StepIsReachable(cfg, s0, ByEnv(PodEnds(0, false)));
    var begin := ByCI(CIBegin(CIView(1, Some(0), PodSeen(PodFailed), Prepared, true)));
    StepIsReachable(cfg, s1, begin);
    StepIsReachable(cfg, Step(cfg, s1, begin), ByCI(CIPatch));
  }

  /** A failure of one revision while the branch is at another is reached: and
      then a pass reports it at the head. */
  lemma OldFailureIsReached(cfg: Config, svc: ServiceSpec, spec: CISpec, language: string, w: World, s: State)
    requires CanBuild(cfg, svc, spec) && ValidSource(cfg, svc) && Buildable(cfg, w) && w.head != spec.revision
    requires s == FirstFailure(cfg, svc, spec, language)
    ensures Reachable(cfg, s) && AtRest(s) && s.store.cis != []
    ensures Last(s.store.cis).status.phase == CIFailed && Last(s.store.cis).status.buildingRevision != w.head
    ensures ReportsFailure(ServicePass(cfg, s, w))
    ensures Last(ServicePass(cfg, s, w).store.svcs).status.latestRevision == w.head
  {
    FirstFailureIs(cfg, svc, spec, language);
    FirstFailureIsReachable(cfg, svc, spec, language);
    OldFailureAtTheHead(cfg, s, w);
  }

  /** The passes up to a recorded build and its CD. */
  const BUILD := [OfService, OfCI, OfPod, OfCI]

  lemma MetFour(road: seq<Pass>, a: Pass, b: Pass, c: Pass, d: Pass)
    ensures Met(road, [a, b, c, d]) == MetBy(road, MetBy(road, MetBy(road, MetBy(road, 0, a), b), c), d)
  {
    assert [] + [a] == [a] && [a] + [b] == [a, b] && [a, b] + [c] == [a, b, c] && [a, b, c] + [d] == [a, b, c, d];
    MetMore(road, [], a);
    MetMore(road, [a], b);
    MetMore(road, [a, b], c);
    MetMore(road, [a, b, c], d);
  }

  lemma BuildMeets()
    ensures Met(ROAD, BUILD) == 4
  {
    MetFour(ROAD, OfService, OfCI, OfPod, OfCI);
    NextOnTheRoad(0, OfService);
    NextOnTheRoad(1, OfCI);
    NextOnTheRoad(2, OfPod);
    NextOnTheRoad(3, OfCI);
  }

  lemma AtRests(cfg: Config, s: State, w: World, k: nat)
    requires Convergence.At(cfg, s, w, k)
    ensures AtRest(s) && s.store.svcs != [] && ValidSource(cfg, Last(s.store.svcs).spec)
  {
  }

  lemma PassKeepsDeployment(cfg: Config, s: State, w: World, p: Pass)
    requires AtRest(s) && s.store.svcs != [] && ValidSource(cfg, Last(s.store.svcs).spec) && cfg.service != ""
    requires p in BUILD
    ensures Do(cfg, s, w, p).store.deps == s.store.deps
  {
    match p
    case OfService => ServicePassEffect(cfg, s, w);
    case OfCI => CIPassRests(cfg, s);
    case OfPod => PodPassEffect(s);
  }

  lemma {:induction false} BuildKeepsDeployment(cfg: Config, s: State, w: World, order: seq<Pass>)
    requires Start(cfg, s, w) && Buildable(cfg, w) && forall p | p in order :: p in BUILD
    ensures DoAll(cfg, s, w, order).store.deps == s.store.deps
  {
    if order != [] {
      var before := order[..|order| - 1];
      BuildKeepsDeployment(cfg, s, w, before);
      OrderProgress(cfg, s, w, before);
      AtRests(cfg, DoAll(cfg, s, w, before), w, Met(ROAD, before));
      assert Last(order) in order;
      PassKeepsDeployment(cfg, DoAll(cfg, s, w, before), w, Last(order));
    }
  }

  /** The head of the branch built and handed to its CD. */
  lemma BuildReleases(cfg: Config, s: State, w: World) returns (t: State)
    requires Start(cfg, s, w) && Buildable(cfg, w)
    ensures Leads(cfg, s, t) && Released(cfg, t, w) && t.store.deps == s.store.deps
  {
    t := DoAll(cfg, s, w, BUILD);
    OrderProgress(cfg, s, w, BUILD);
    BuildMeets();
    OrderLeads(cfg, s, w, BUILD);
    BuildKeepsDeployment(cfg, s, w, BUILD);
  }

  /** The first report of a Deployment: it is not rolled out. */
  lemma FirstReport(cfg: Config, s: State, w: World)
    requires Released(cfg, s, w) && s.store.deps == []
    ensures
      var t, c, cd := CDPass(s), Last(s.store.cis).status, Last(s.store.cds);
      && t == s.(store := s.store.(deps := t.store.deps, cds := t.store.cds))
      && t.store.deps == [Deployment(1, WantedDeployment(cd.spec, c.image), NEW_DEPLOYMENT_STATUS)]
      && t.store.cds != [] && Last(t.store.cds).spec == cd.spec
      && Last(t.store.cds).status.revision == c.revision && Last(t.store.cds).status.phase != CDRunning
  {
    CDPassEffect(cfg, s, w);
  }

  lemma RolloutEnds(s: State)
    requires |s.store.deps| == 1
    ensures
      var t := RolloutPass(s);
      && t == s.(store := s.store.(deps := t.store.deps))
      && |t.store.deps| == 2 && t.store.deps[1].spec == s.store.deps[0].spec && RolledOut(t.store.deps[1])
  {
  }

  /** A Deployment is reported, and then its rollout finishes. */
  function AfterRollout(s: State): State {
    RolloutPass(CDPass(s))
  }

  lemma FirstRollout(cfg: Config, s: State, w: World)
    requires Released(cfg, s, w) && s.store.deps == []
    ensures
      var t := AfterRollout(s);
      && t == s.(store := s.store.(deps := t.store.deps, cds := t.store.cds))
      && t.store.cds != [] && FindsItRolledOut(t, Last(t.store.cds), |t.store.cis| - 1, 1)
      && Last(t.store.cds).status.revision == w.head && Last(t.store.cds).status.phase != CDRunning
  {
    FirstReport(cfg, s, w);
    RolloutEnds(CDPass(s));
    assert Last(AfterRollout(s).store.cds) in AfterRollout(s).store.cds;
  }

  /** The branch may then move on. */
  lemma StartsAgain(cfg: Config, s: State, w1: World, t: State, w2: World)
    requires Released(cfg, s, w1) && Reachable(cfg, t)
    requires t == s.(store := s.store.(deps := t.store.deps, cds := t.store.cds))
    ensures Start(cfg, t, w2)
  {
  }

  lemma FirstIsDeployed(cfg: Config, svc: ServiceSpec, w1: World, w2: World) returns (t: State)
    requires ValidSource(cfg, svc) && Buildable(cfg, w1)
    ensures Start(cfg, t, w2) && t.store.cds != [] && t.store.cis != []
    ensures FindsItRolledOut(t, Last(t.store.cds), |t.store.cis| - 1, 1)
    ensures Last(t.store.cds).status.revision == w1.head && Last(t.store.cds).status.phase != CDRunning
    ensures Last(t.store.cis).status.revision == w1.head
  {
    var s0 := NewServiceStarts(cfg, svc, w1);
    var s1 := BuildReleases(cfg, s0, w1);
    LeadsOn(cfg, s0, s1);
    PassIsReachable(cfg, s1, w1, OfCD);
    PassIsReachable(cfg, CDPass(s1), w1, OfRollout);
    t := AfterRollout(s1);
    FirstRollout(cfg, s1, w1);
    StartsAgain(cfg, s1, w1, t, w2);
  }

  /** The CD then reports the image of the newest build. */
  lemma NewestReport(cfg: Config, s: State, w: World)
    requires Released(cfg, s, w)
    ensures CDPass(s).store.cds != [] && Last(CDPass(s).store.cds).status.revision == w.head
  {
    CDPassEffect(cfg, s, w);
  }

  lemma FoundLater(a: State, b: State, copy: CDVersion, ci: nat, dep: nat)
    requires FindsItRolledOut(a, copy, ci, dep) && Extends(a.store, b.store)
    ensures FindsItRolledOut(b, copy, ci, dep)
  {
    var n :| 0 <= n < |a.store.cds| && a.store.cds[n] == copy;
    assert b.store.cds[n] == copy;
  }

  lemma NewServiceStarts(cfg: Config, svc: ServiceSpec, w: World) returns (s: State)
    requires ValidSource(cfg, svc)
    ensures Start(cfg, s, w) && s.store.deps == []
  {
    s := Step(cfg, Initial(), ByEnv(EditService(svc)));
    LeadsNowhere(cfg, Initial());
    StepIsReachable(cfg, Initial(), ByEnv(EditService(svc)));
  }

  lemma SecondIsReported(cfg: Config, s: State, w: World, copy: CDVersion, ci: nat, dep: nat) returns (t: State)
    requires Start(cfg, s, w) && Buildable(cfg, w) && FindsItRolledOut(s, copy, ci, dep)
    ensures Reachable(cfg, t) && FindsItRolledOut(t, copy, ci, dep) && t.store.cis[ci] == s.store.cis[ci]
    ensures Last(t.store.cds).status.revision == w.head
  {
    var s1 := BuildReleases(cfg, s, w);
    t := CDPass(s1);
    PassLeads(cfg, s, s1, w, OfCD);
    LeadsOn(cfg, s, t);
    LeadsExtends(cfg, s, t);
    NewestReport(cfg, s1, w);
    FoundLater(s, t, copy, ci, dep);
  }

  /** Where a stale CD pass claims too much is reached: the branch moves from
      one commit to another and both are deployed. */
  lemma StalePatchIsReached(cfg: Config, svc: ServiceSpec, w1: World, w2: World)
    returns (t: State, copy: CDVersion, ci: nat, dep: nat)
    requires ValidSource(cfg, svc) && Buildable(cfg, w1) && Buildable(cfg, w2) && w1.head != w2.head
    ensures Reachable(cfg, t) && FindsItRolledOut(t, copy, ci, dep)
    ensures Outdated(Last(t.store.cds).status, copy.status, t.store.cis[ci].status.revision)
    ensures Last(t.store.cds).status.revision == w2.head && t.store.cis[ci].status.revision == w1.head
  {
    var s := FirstIsDeployed(cfg, svc, w1, w2);
    copy, ci, dep := Last(s.store.cds), |s.store.cis| - 1, 1;
    t := SecondIsReported(cfg, s, w2, copy, ci, dep);
  }
}
